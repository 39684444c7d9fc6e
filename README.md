# Candlestick ingestion and exchange metadata, modelled in Dafny

This project models the business logic of a Laravel service that copies market data from the Binance exchange into a database. Three parts are modelled:

- **Candlestick ingestion** (`app/Blls/CandlesticksBll.php`).
  - `fetchAndStoreCandlesticksStart` resolves the symbol list, where a first symbol `ALL` in any case stands for every known symbol. It normalises the `from` and `to` bounds with `parseDate`, which accepts a 10- or 13-digit Unix epoch or free-form text and requires the instant to lie in the past year.
  - It then either queues one job per symbol (`fetchAndStoreCandlesticksEnqueue`) or runs the fetch-and-store loop inline (`fetchAndStoreCandlesticksFinish`).
  - The loop pages through the exchange from the start bound. It moves the cursor to the last open time of each answer until no progress is made or the end bound is reached.
  - `storeCandlesticks` upserts every row under (symbol, open second). It skips the row of the minute still running, and returns the number of saves and the last open time.
- **Exchange metadata** (`app/Blls/ExchangeInfoBll.php`). `storeExchangeInfo` upserts every listed symbol not on a denylist, keyed by symbol, with its price, lot-size and notional limits taken from its first three filters.
- **PHP behaviour the code depends on**, stated explicitly:
  - `substr` on a number's decimal text.
  - Loose `in_array`.
  - Comparison of an int with null.
  - String truthiness.
  - The PCRE reading of `$`.
  - Laravel turning warnings into exceptions.

## Files

- `wrappers.dfy`: `Option` and `Result`.
- `php_strings.dfy` (module `PhpStrings`): decimal text of a number and back, and ASCII `strtoupper`.
- `upserts.dfy` (module `Upserts`): a generic model of a loop of `firstOrNew` plus `save` calls.
  - `Apply` is the table after the loop, and `Kept` is the number of saves.
  - The lemmas cover last-write-wins, untouched keys and idempotence.
- `date_parsing.dfy` (module `DateParsing`): `parseDate`, `mustBeWithinThePastYear` and the trailing-newline finding.
- `candle_store.dfy` (module `CandleStore`): the `Candlesticks<interval>` table as the class `CandleTable`, and `storeCandlesticks`.
- `ingestion.dfy` (module `Ingestion`): Start, Enqueue and Finish.
  - Finish is specified by `Trace`, the exact sequence of requests the do/while loop makes for one symbol.
  - `FinishRows` and `FinishOutcome` give the table and the result after all symbols.
- `exchange_info.dfy` (module `ExchangeInfo`): the `exchange_info` table as the class `ExchangeInfoTable`, and `storeExchangeInfo`.

## Decisions

- **Counting and messages follow the code.**
  - `$numSaved++` runs once per `save()` (CandlesticksBll.php:91-92), so two saved rows in the same second count as two saves (`CandleStore.DuplicateSecondCountsTwice`).
  - Both validation failures (an unparseable value, and a value outside the window) raise the one message `Invalid '<option>' date/time specified` (CandlesticksBll.php:214 and :233). The option name and its quotes are dropped when the name is falsy.
- **The skip test is per minute for every interval.** CandlesticksBll.php:70-74 compares the open second with the start of the running minute, so for a longer interval (5m, say) the still-open candle is stored in every minute of its period except the first. The model keeps this test as written (`CandleStore.IsSaved`).
- **Exceptions are `Err` results.**
  - An empty answer from the exchange makes `storeCandlesticks` read the undefined `$rowData`. Laravel raises this warning as an exception, so the whole run aborts with `Undefined variable $rowData`, and rows stored before the abort stay stored.
  - An empty symbol list makes `$symbols[0]` raise `Undefined array key 0`.
- **`$lastRowTime > $lastStartTime` against a null cursor** compares as booleans, so any nonzero open time counts as progress. `!$endTime` holds for a null or zero bound.
- **The clock is a parameter.** `Clock(now, oneYearAgo)` holds the two readings `mustBeWithinThePastYear` makes, and `now` is the time used to find the running minute.
- **External code is a parameter.**
  - Carbon's free-form parser is an arbitrary `string -> Option<int>`.
  - The exchange is an arbitrary function from (symbol, interval, start, end) to rows.
  - The full symbol roster is a parameter.
- **Termination of the pagination loop.** Every continuing iteration moves the cursor strictly forward (`Ingestion.GuardMovesCursorForward`). With a nonzero end bound e, the guard keeps the cursor below e, so the loop ends against any exchange. With no end bound (or a zero one) the loop is guaranteed to end when the exchange never reports a candle opening after some instant, `ApiBounded(api, horizon)`, where `horizon` is a ghost parameter; the model covers only such exchanges. Some other exchanges also let the loop end (an answer whose last open time does not move the cursor stops it), and those runs are not covered. The methods that loop require one of the two (`Ingestion.Terminates`).

## Model

| member | source | states |
|---|---|---|
| DateParsing.MustBeWithinThePastYear | app/Blls/CandlesticksBll.php:228-235 | succeeds exactly when one year ago < t <= now; otherwise fails with the "Invalid ... date/time specified" message, quoting the option name only when it is truthy |
| DateParsing.ParseDate | app/Blls/CandlesticksBll.php:187-219 | parseDate with the epoch test corrected to digits only (see Findings): null passes through unchanged; every failure carries the invalid-date message; every success is digits ending in "000" whose seconds part lies in the past-year window |
| DateParsing.ParseDateAsWritten | app/Blls/CandlesticksBll.php:187-219 | parseDate with the epoch test exactly as written (PCRE `$` admits one final newline): null passes through and every failure carries the invalid-date message |
| DateParsing.EpochTextResult | app/Blls/CandlesticksBll.php:200-207 | a 10- or 13-digit text never reaches Carbon: its first ten digits are the seconds, accepted iff inside the window, and the result is those digits followed by "000" |
| DateParsing.FreeFormTextResult | app/Blls/CandlesticksBll.php:208-216 | any other text goes to Carbon: unparseable or outside the window gives the invalid-date error; otherwise the result is Carbon's timestamp in decimal followed by "000" |
| DateParsing.SecondsRoundTrip | app/Blls/CandlesticksBll.php:201-218 | a ten-digit Unix time in seconds inside the window comes back as the same instant in milliseconds (decimal of t * 1000) |
| DateParsing.MillisecondsTruncated | app/Blls/CandlesticksBll.php:202-204 | a thirteen-digit Unix time in milliseconds is truncated to whole seconds: the result is the decimal of (ms / 1000) * 1000 |
| DateParsing.MillisecondsValue | app/Blls/CandlesticksBll.php:218 | a successful result denotes its seconds times 1000, hence at least 1000, since the window starts after 0 |
| DateParsing.DigitPatternIgnoresFinalNewline | app/Blls/CandlesticksBll.php:201 | `@^\d+$@` accepts exactly the texts that are a non-empty run of digits once one final newline is set aside |
| DateParsing.NewlineTextTakenAsEpoch | app/Blls/CandlesticksBll.php:201 | as written, twelve digits plus a newline are taken as a 13-digit epoch (first ten digits as seconds), while the digits-only test hands the same text to Carbon |
| DateParsing.AsWrittenAgreesWithoutFinalNewline | app/Blls/CandlesticksBll.php:201 | on every value without a final newline the as-written and the corrected parseDate give the same result |
| PhpStrings.Decimal | app/Blls/CandlesticksBll.php:218 | the text PHP makes of a non-negative int is non-empty, all digits, and has no leading zero |
| PhpStrings.DigitsValueOfDecimal | app/Blls/CandlesticksBll.php:68-71 | reading a number's decimal text back as an int (`(int)`) gives the number |
| PhpStrings.DecimalDropThree | app/Blls/CandlesticksBll.php:68 | for n >= 1000, cutting the last three characters off the decimal text of n leaves the decimal text of n / 1000 |
| PhpStrings.DecimalTimesThousand | app/Blls/CandlesticksBll.php:218 | appending "000" to the decimal text of a positive n gives the decimal text of n * 1000 |
| PhpStrings.ToUpper | app/Blls/CandlesticksBll.php:115 | strtoupper keeps the length, leaves no lower-case ASCII letter, turns each one into its capital and keeps every other character |
| PhpStrings.ToUpperIdempotent | app/Blls/CandlesticksBll.php:115 | upper-casing an already upper-cased text changes nothing |
| CandleStore.SecondsOfIsDivision | app/Blls/CandlesticksBll.php:68 | `(int) substr($openTime, 0, -3)` is the open time in whole seconds (openTime / 1000), including 0 for open times below 1000 |
| CandleStore.CurrentMinute | app/Blls/CandlesticksBll.php:71 | `floor(now / 60) * 60` is a multiple of 60 with m <= now < m + 60 |
| CandleStore.CandleTable.Save | app/Blls/CandlesticksBll.php:80-91 | `firstOrNew` then `save`: the entry under the key holds the new OHLCV values, whether or not it existed; nothing else changes |
| CandleStore.StoreCandlesticks | app/Blls/CandlesticksBll.php:62-96 | the table becomes the in-order upsert of every row outside the running minute, keyed by (symbol, open second); the count is the number of such rows; the second result is the last input row's open time |
| CandleStore.RunningMinuteNeverWritten | app/Blls/CandlesticksBll.php:70-74 | the entry (or absence) under the running minute's key is unchanged by a store |
| CandleStore.LastRowWins | app/Blls/CandlesticksBll.php:80-91 | a saved row with no later row in the same second ends up as the entry under its (symbol, second) |
| CandleStore.OtherKeysUnchanged | app/Blls/CandlesticksBll.php:80-83 | entries of other symbols, and of seconds no input row opens in, are unchanged |
| CandleStore.StoreTwiceIsStoreOnce | app/Blls/CandlesticksBll.php:80-91 | storing the same rows twice leaves the table as storing them once |
| CandleStore.NumSavedCountsSavedRows | app/Blls/CandlesticksBll.php:64-92 | the save count equals the number of input positions outside the running minute, and is at most the input length |
| CandleStore.DuplicateSecondCountsTwice | app/Blls/CandlesticksBll.php:76-92 | two saved rows in the same second count as two saves, and the table keeps the second row's values |
| Upserts.LastWrite | app/Blls/ExchangeInfoBll.php:53-66 | the position of the last kept element with a given key: it writes that key and no later position does, or no position does |
| Upserts.ApplyAt | app/Blls/ExchangeInfoBll.php:53-66 | after a loop of upserts a key is present iff it was present before or some kept element writes it, and then holds the value of the last such element (or its old value) |
| Upserts.KeptCountsPositions | app/Blls/ExchangeInfoBll.php:67 | the number of saves equals the number of kept positions |
| Ingestion.Trace | app/Blls/CandlesticksBll.php:158-170 | the requests the do/while loop makes for one symbol are non-empty and start with a request from the start cursor |
| Ingestion.TraceIsPagination | app/Blls/CandlesticksBll.php:160-170 | each request asks from its cursor; every request but the last got rows, passed the loop guard and moved the cursor strictly forward to its last open time; the last got nothing or failed the guard |
| Ingestion.GuardMovesCursorForward | app/Blls/CandlesticksBll.php:167-170 | when the guard holds, the new cursor is past the old one (past 0 against a null cursor, as PHP compares int with null), below a nonzero end bound, and closer to any limit it does not pass |
| Ingestion.ContinuingStepShrinksDistance | app/Blls/CandlesticksBll.php:160-170 | under a nonzero end bound or a bounded exchange, every continuing iteration brings the cursor strictly closer to the limit, so the loop ends |
| Ingestion.TraceLength | app/Blls/CandlesticksBll.php:160-170 | the loop makes at most Distance(start, limit) + 1 requests for one symbol, the limit being the end bound when one is set and the horizon otherwise |
| Ingestion.FetchAndStoreNextSymbol | app/Blls/CandlesticksBll.php:156-171 | one pass of the foreach: on an abort the table is FinishRows of the remaining runs and the outcome is the abort; otherwise the table and the running total carry over to the runs after this symbol |
| Ingestion.FetchAndStoreSymbol | app/Blls/CandlesticksBll.php:158-170 | one symbol's do/while loop leaves the table as its trace stored in order, reports an abort exactly when the trace ends in an empty answer, and otherwise returns the trace's total saves |
| Ingestion.FinishOutcomeSplits | app/Blls/CandlesticksBll.php:154-175 | running two batches of symbols one after the other gives the sum of their totals, or the first abort |
| Ingestion.FinishRowsSplit | app/Blls/CandlesticksBll.php:156-171 | when the first batch completes, the table after both is the second batch stored over the first batch's table |
| Ingestion.RunsSplit | app/Blls/CandlesticksBll.php:156-158 | every symbol's loop starts from the same start bound, so the runs for a + b are the runs for a followed by those for b |
| Ingestion.FetchAndStoreCandlesticksFinish | app/Blls/CandlesticksBll.php:152-176 | the result is FinishOutcome (the sum of saves over every iteration and every symbol, or the abort) and the table is FinishRows (each symbol's trace stored in turn, stopping after an abort) |
| Ingestion.FetchAndStoreCandlesticksEnqueue | app/Blls/CandlesticksBll.php:130-139 | exactly one job per symbol, in order, each carrying the singleton list of that symbol and the same interval and bounds; returns true |
| Ingestion.AllSentinelAnyCase | app/Blls/CandlesticksBll.php:115 | `strtoupper($s) === 'ALL'` holds for exactly the eight spellings of "all" in any letter case |
| Ingestion.StartPlan | app/Blls/CandlesticksBll.php:113-121 | fails iff the list is empty ("Undefined array key 0") or either bound fails the corrected parseDate, with the 'from' message whenever 'from' fails, since it is parsed first; on success the symbols are the roster when the first is ALL, else the input, the bounds are parseDate's results for 'from' and 'to', and a given end bound denotes at least 1000 |
| Ingestion.FetchAndStoreCandlesticksStart | app/Blls/CandlesticksBll.php:111-128 | (bounds through the corrected parseDate) a validation error is returned before anything is fetched, stored or queued; queued mode enqueues one job per resolved symbol and leaves the table unchanged; inline mode returns Finish's outcome and leaves Finish's table |
| ExchangeInfo.LooselyEqualIsEquivalence | app/Blls/ExchangeInfoBll.php:49 | loose string equality is reflexive, symmetric and transitive, and two different strings are loosely equal only as digit strings denoting one number |
| ExchangeInfo.InArray | app/Blls/ExchangeInfoBll.php:49 | non-strict in_array is true iff some element is loosely equal to the needle |
| ExchangeInfo.ExchangeInfoTable.Save | app/Blls/ExchangeInfoBll.php:53-66 | `firstOrNew(['symbol' => ...])` then `save`: the row under the symbol holds the new fields; nothing else changes |
| ExchangeInfo.StoreExchangeInfo | app/Blls/ExchangeInfoBll.php:43-71 | the table becomes the in-order upsert, keyed by symbol, of every listed symbol not on the denylist, and the count is the number of such symbols |
| ExchangeInfo.ExcludedNeverWritten | app/Blls/ExchangeInfoBll.php:49-51 | a denylisted symbol's entry (or absence) is unchanged |
| ExchangeInfo.NumSavedCountsListed | app/Blls/ExchangeInfoBll.php:45-70 | the returned count equals the number of input positions whose symbol is not on the denylist, repetitions included |
| ExchangeInfo.LastOccurrenceWins | app/Blls/ExchangeInfoBll.php:53-66 | a non-denylisted symbol maps to its last occurrence's fields: symbol, assets, min_price and tick_size from filters[0], min_qty and step_size from filters[1], min_notional from filters[2] |
| ExchangeInfo.StoredRowsCarryTheirSymbol | app/Blls/ExchangeInfoBll.php:53-57 | the row is looked up by the symbol it then stores, so a table whose rows hold their own key keeps that property |
| ExchangeInfo.AbsentSymbolsUntouched | app/Blls/ExchangeInfoBll.php:53-55 | entries of symbols not in the input are unchanged |
| ExchangeInfo.StoreTwiceIsStoreOnce | app/Blls/ExchangeInfoBll.php:53-66 | storing the same listing twice leaves the table as storing it once |
| ExchangeInfo.DenylistEntryValue | app/Blls/ExchangeInfoBll.php:12-14 | the one denylist entry is a digit string denoting 123456 |
| ExchangeInfo.DenylistMatchesByNumber | app/Blls/ExchangeInfoBll.php:49 | because in_array compares numeric strings as numbers, a digit string is excluded exactly when it denotes 123456 |
| ExchangeInfo.ZeroPaddedEntryExcluded | app/Blls/ExchangeInfoBll.php:49 | any zero-padded spelling of the denylist entry ("0123456", ...) is excluded too |

## Left out

- The Binance client (`fetchApiData`), its JSON round trip and its logging are left out. The exchange is an arbitrary total function of (symbol, interval, start, end). No order of its rows is assumed. Because the function is total, an exception thrown by the client (a network failure, a rate limit) cannot be expressed. In the source such an exception aborts the run and keeps the rows stored before it, the same way the empty-answer abort does.
- `fetchApiData` runs `parseDate` again when asked to; Finish always skips that, so it is not modelled.
- Carbon's free-form parsing and the wall clock are parameters (see Decisions).
- CandleStore.StoreCandlesticks: reads the clock once per call, where the source reads `now()` again for every row.
- Ingestion.FetchAndStoreSymbol: stores every page of the do/while loop against one clock reading `now`. The source reads `now()` again for each row, after each network fetch (CandlesticksBll.php:71). When a run crosses a minute boundary, the model can store a candle that the source skips as still running, and it skips the minute of its one reading after that minute has closed.
- Ingestion.FetchAndStoreNextSymbol: uses the same single `now` for its symbol's loop, with the same consequence.
- Ingestion.FetchAndStoreCandlesticksFinish: uses one `now` for every store of every symbol, so the running minute is the same for the whole run, with the same consequence.
- Ingestion.FetchAndStoreCandlesticksStart: passes the reading that validated the bounds (`clock.now`) on as the store clock of the whole inline run. In the source the validation and each row's skip test read the clock separately.
- CandleStore.StoreCandlesticks: requires a non-empty answer. On an empty one the source raises while reading `$rowData`, and that abort is modelled in its caller, `Ingestion.FetchAndStoreSymbol`.
- The stored `datetime_` column is the UTC date-time text of the open second. The model keys by the second itself, because the text is one-to-one with the second.
- The class-name selection of `Candlesticks<interval>` is modelled as the caller handing in that interval's table.
- Database collation is left out: a case-insensitive lookup in `firstOrNew` would merge keys that the model keeps apart.
- The queue (`UpdateCandlesticksJob::dispatch`) is modelled as the returned list of jobs. The job's own execution is not part of this model.
- The lazy `exchangeInfoBll()` accessor and the logger are left out.
- Ingestion.StartPlan: returns a roster parameter for a first symbol "ALL". As written, CandlesticksBll.php:117 calls `allSymbols()`, which ExchangeInfoBll.php (lines 9-72) does not define, so "ALL" raises "Call to undefined method" before either bound is parsed.
- Ingestion.StartPlan: puts both bounds through the corrected parseDate (`DateParsing.ParseDate`), not the one written at CandlesticksBll.php:201. A bound such as twelve digits plus a newline is read as an epoch by the source but handed to Carbon here. On every bound without a final newline the two agree (`DateParsing.AsWrittenAgreesWithoutFinalNewline`).
- Ingestion.FetchAndStoreCandlesticksFinish: requires a nonzero end bound or a bounded exchange (`Terminates`). With neither, the source's loop can run forever against an exchange that keeps reporting later candles, and the model does not cover that run.
- Ingestion.FetchAndStoreCandlesticksStart: in inline mode requires an end bound or a bounded exchange, for the same reason. Queued mode and the validation-error path are not restricted.
- ExchangeInfo.StoreExchangeInfo: takes symbols with at least three filters, each filter carrying the properties it reads. The source would raise partway through on a non-denylisted symbol lacking one.
- ExchangeInfo.LooselyEqual: compares only digit strings as numbers.
  - PHP 8 also treats other numeric strings this way: signs, decimal points, exponents, and leading or trailing whitespace.
  - Those other forms are compared as text here.
  - PHP 8 compares two digit strings as text when both overflow PHP_INT_MAX and become the same double. For example, "09223372036854775808" == "9223372036854775808" is false in PHP, but `LooselyEqual` holds for them, since the model's integers are unbounded. This does not affect the denylist entry, which is far below the limit.
- `fetchRawExchangeInfo` and `fetchExchangeInfo` are file-cache and ORM reads with no logic of their own, so they are left out. The first also uses an undefined `$api`.
- `app/Models/PriceTicker.php` is a column declaration without logic.
- `app/Console/Commands/DataUpdateCandlesticks.php` is command-line plumbing.
  - It is not part of this model.
  - It also calls a `fetchAndStoreCandlesticks` method that the class does not define.
- Prices and volumes are opaque text; no arithmetic is done on them.

## Findings

| source | as written | input that shows it | evidently intended | confidence | as-written member | corrected member |
|---|---|---|---|---|---|---|
| app/Blls/CandlesticksBll.php:201 | `preg_match('@^\d+$@', $value)` where PCRE's `$` also matches before a final newline, so the epoch test admits digits followed by "\n" | twelve digits followed by a newline, e.g. "170000000012\n" (13 characters): its first ten digits are taken as Unix seconds (`DateParsing.NewlineTextTakenAsEpoch`) | only texts of exactly 10 or 13 digits are epochs (`\z` or the `D` modifier); anything else goes to Carbon | not executed | DateParsing.ParseDateAsWritten | DateParsing.ParseDate |
