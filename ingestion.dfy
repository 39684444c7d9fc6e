/**
 * The ingestion orchestrator of CandlesticksBll: fetchAndStoreCandlesticksStart
 * validates the request and either runs the fetch-and-store loop inline
 * (fetchAndStoreCandlesticksFinish) or puts one job per symbol on the queue
 * (fetchAndStoreCandlesticksEnqueue).
 *
 * The exchange is a function from (symbol, interval, start, end) to rows; the
 * queue is the list of jobs handed to it; the symbol roster is a parameter.
 */
module Ingestion {
  import opened Wrappers
  import opened PhpStrings
  import opened DateParsing
  import opened CandleStore

  /** `binanceApi->candlesticks($symbol, $interval, $startTime, $endTime)`; a None bound is open. */
  type CandleApi = (string, string, Option<nat>, Option<nat>) -> seq<CandleRow>

  function LastOpenTime(rows: seq<CandleRow>): nat
    requires rows != []
  {
    rows[|rows| - 1].openTime
  }

  /** The exchange reports no candle opening after horizon: the latest row of any answer opens at or before it. */
  ghost predicate ApiBounded(api: CandleApi, horizon: nat) {
    forall symbol, interval, start, end ::
      api(symbol, interval, start, end) != [] ==> LastOpenTime(api(symbol, interval, start, end)) <= horizon
  }

  /** The exception storeCandlesticks raises on an empty answer (Laravel turns the warning into an ErrorException). */
  const UndefinedRowData := "Undefined variable $rowData"

  /** The exception `$symbols[0]` raises on an empty symbol list. */
  const UndefinedFirstSymbol := "Undefined array key 0"

  /**
   * `$lastRowTime > $lastStartTime && (!$endTime || $lastRowTime < $endTime)`.
   * PHP compares an int with null as booleans, so against a null cursor every
   * nonzero time is progress; `!$endTime` holds for a null or zero bound.
   */
  predicate Continues(lastRowTime: nat, lastStartTime: Option<nat>, endTime: Option<nat>) {
    (match lastStartTime
     case None => lastRowTime != 0
     case Some(s) => lastRowTime > s)
    && (endTime == None || endTime == Some(0) || lastRowTime < endTime.value)
  }

  /** An end bound the guard tests: set and nonzero, so `!$endTime` is false. */
  predicate EndBounded(endTime: Option<nat>) {
    endTime.Some? && endTime.value > 0
  }

  /**
   * The do/while loop for one symbol ends: against any exchange when an end
   * bound is set, and otherwise when the exchange reports nothing after horizon.
   */
  ghost predicate Terminates(api: CandleApi, endTime: Option<nat>, horizon: nat) {
    EndBounded(endTime) || ApiBounded(api, horizon)
  }

  /** The furthest a continuing iteration can move the cursor: below the end bound, or up to the horizon. */
  function Limit(endTime: Option<nat>, horizon: nat): nat {
    if EndBounded(endTime) then endTime.value else horizon
  }

  /** How far a cursor is from the limit; every continuing iteration lowers it. */
  function Distance(cursor: Option<nat>, limit: nat): nat {
    match cursor
    case None => limit + 1
    case Some(c) => if c <= limit then limit - c else 0
  }

  /**
   * The loop guard moves the cursor strictly forward (against a null cursor,
   * to any nonzero time), keeps it below a set end bound, and so brings it
   * closer to any limit the new cursor does not pass.
   */
  lemma GuardMovesCursorForward(lastRowTime: nat, cursor: Option<nat>, endTime: Option<nat>, limit: nat)
    requires Continues(lastRowTime, cursor, endTime)
    requires lastRowTime <= limit
    ensures cursor.Some? ==> lastRowTime > cursor.value
    ensures cursor.None? ==> lastRowTime > 0
    ensures EndBounded(endTime) ==> lastRowTime < endTime.value
    ensures Distance(Some(lastRowTime), limit) < Distance(cursor, limit)
  {
  }

  /** A continuing iteration stays within the limit, so it brings the cursor closer to it. */
  lemma ContinuingStepShrinksDistance(api: CandleApi, symbol: string, interval: string, cursor: Option<nat>, endTime: Option<nat>, horizon: nat)
    requires Terminates(api, endTime, horizon)
    requires api(symbol, interval, cursor, endTime) != []
    requires Continues(LastOpenTime(api(symbol, interval, cursor, endTime)), cursor, endTime)
    ensures Distance(Some(LastOpenTime(api(symbol, interval, cursor, endTime))), Limit(endTime, horizon))
          < Distance(cursor, Limit(endTime, horizon))
  {
    var last := LastOpenTime(api(symbol, interval, cursor, endTime));
    GuardMovesCursorForward(last, cursor, endTime, Limit(endTime, horizon));
  }

  /** One iteration of the do/while loop: the cursor it fetched from and the rows it got. */
  datatype Fetch = Fetch(cursor: Option<nat>, rows: seq<CandleRow>)

  /**
   * The fetches the do/while loop makes for one symbol, starting at cursor:
   * after each answer the cursor moves to its last open time, until the guard
   * fails or an answer is empty (which aborts the store).
   */
  ghost function Trace(api: CandleApi, symbol: string, interval: string, cursor: Option<nat>, endTime: Option<nat>, horizon: nat): (t: seq<Fetch>)
    requires Terminates(api, endTime, horizon)
    ensures |t| > 0 && t[0] == Fetch(cursor, api(symbol, interval, cursor, endTime))
    decreases Distance(cursor, Limit(endTime, horizon))
  {
    var rows := api(symbol, interval, cursor, endTime);
    if rows != [] && Continues(LastOpenTime(rows), cursor, endTime) then
      ContinuingStepShrinksDistance(api, symbol, interval, cursor, endTime, horizon);
      [Fetch(cursor, rows)] + Trace(api, symbol, interval, Some(LastOpenTime(rows)), endTime, horizon)
    else
      [Fetch(cursor, rows)]
  }

  /** The last fetch of the trace got nothing: storeCandlesticks raised and the run aborts. */
  ghost predicate Failed(t: seq<Fetch>) {
    |t| > 0 && t[|t| - 1].rows == []
  }

  /** The table after storing every fetch of t in order. */
  ghost function TraceRows(m: map<CandleKey, Candle>, symbol: string, t: seq<Fetch>, now: nat): map<CandleKey, Candle>
    decreases |t|
  {
    if t == [] then m else TraceRows(Stored(m, symbol, t[0].rows, now), symbol, t[1..], now)
  }

  /** The saves over all fetches of t. */
  ghost function TraceTotal(t: seq<Fetch>, now: nat): nat {
    if t == [] then 0 else NumSaved(t[0].rows, now) + TraceTotal(t[1..], now)
  }

  /**
   * The trace is the pagination the loop performs: every fetch asks the
   * exchange from its cursor; every fetch but the last got rows, passed the
   * guard, and moved the cursor strictly forward to its last open time; the
   * last one got nothing or failed the guard.
   */
  lemma {:induction false} TraceIsPagination(api: CandleApi, symbol: string, interval: string, cursor: Option<nat>, endTime: Option<nat>, horizon: nat, i: nat)
    requires Terminates(api, endTime, horizon)
    requires i < |Trace(api, symbol, interval, cursor, endTime, horizon)|
    ensures var t := Trace(api, symbol, interval, cursor, endTime, horizon);
      && t[i].rows == api(symbol, interval, t[i].cursor, endTime)
      && (i + 1 < |t| ==>
            && t[i].rows != []
            && Continues(LastOpenTime(t[i].rows), t[i].cursor, endTime)
            && t[i + 1].cursor == Some(LastOpenTime(t[i].rows))
            && (t[i].cursor.Some? ==> t[i + 1].cursor.value > t[i].cursor.value))
      && (i + 1 == |t| ==> t[i].rows == [] || !Continues(LastOpenTime(t[i].rows), t[i].cursor, endTime))
    decreases Distance(cursor, Limit(endTime, horizon))
  {
    var t := Trace(api, symbol, interval, cursor, endTime, horizon);
    var rows := api(symbol, interval, cursor, endTime);
    if rows != [] && Continues(LastOpenTime(rows), cursor, endTime) {
      var next := Some(LastOpenTime(rows));
      var rest := Trace(api, symbol, interval, next, endTime, horizon);
      assert t == [Fetch(cursor, rows)] + rest;
      if i > 0 {
        TraceIsPagination(api, symbol, interval, next, endTime, horizon, i - 1);
        assert t[i] == rest[i - 1];
        if i + 1 < |t| {
          assert t[i + 1] == rest[i];
        }
      }
    }
  }

  /** The loop makes at most Distance(cursor, Limit(endTime, horizon)) + 1 requests for one symbol. */
  lemma {:induction false} TraceLength(api: CandleApi, symbol: string, interval: string, cursor: Option<nat>, endTime: Option<nat>, horizon: nat)
    requires Terminates(api, endTime, horizon)
    ensures |Trace(api, symbol, interval, cursor, endTime, horizon)| <= Distance(cursor, Limit(endTime, horizon)) + 1
    decreases Distance(cursor, Limit(endTime, horizon))
  {
    var rows := api(symbol, interval, cursor, endTime);
    if rows != [] && Continues(LastOpenTime(rows), cursor, endTime) {
      TraceLength(api, symbol, interval, Some(LastOpenTime(rows)), endTime, horizon);
    }
  }

  /**
   * The do/while loop of fetchAndStoreCandlesticksFinish for one symbol. ok is
   * false when a fetch came back empty and storeCandlesticks raised; the rows
   * stored before that stay stored.
   */
  method FetchAndStoreSymbol(table: CandleTable, api: CandleApi, symbol: string, interval: string,
                             startTime: Option<nat>, endTime: Option<nat>, now: nat, ghost horizon: nat)
    returns (ok: bool, numStored: nat)
    requires Terminates(api, endTime, horizon)
    modifies table
    ensures var run := Run(symbol, Trace(api, symbol, interval, startTime, endTime, horizon));
      && table.rows == RunRows(old(table.rows), run, now)
      && ok == RunOutcome(run, now).Ok?
      && (ok ==> RunOutcome(run, now) == Ok(numStored))
  {
    ghost var whole := Trace(api, symbol, interval, startTime, endTime, horizon);
    var currStartTime := startTime;
    ok, numStored := true, 0;
    while true
      invariant TraceRows(old(table.rows), symbol, whole, now)
             == TraceRows(table.rows, symbol, Trace(api, symbol, interval, currStartTime, endTime, horizon), now)
      invariant Failed(whole) == Failed(Trace(api, symbol, interval, currStartTime, endTime, horizon))
      invariant TraceTotal(whole, now) == numStored + TraceTotal(Trace(api, symbol, interval, currStartTime, endTime, horizon), now)
      decreases Distance(currStartTime, Limit(endTime, horizon))
    {
      ghost var rest := Trace(api, symbol, interval, currStartTime, endTime, horizon);
      TraceStep(api, symbol, interval, currStartTime, endTime, horizon);
      TraceCons(table.rows, symbol, rest, now);
      var data := api(symbol, interval, currStartTime, endTime);
      if data == [] {
        StoredNothing(table.rows, symbol, now);
        ok := false;
        return;
      }
      var numSaved, lastRowTime := StoreCandlesticks(table, symbol, data, now);
      numStored := numStored + numSaved;
      var lastStartTime := currStartTime;
      currStartTime := Some(lastRowTime);
      if !Continues(lastRowTime, lastStartTime, endTime) {
        return;
      }
      ContinuingStepShrinksDistance(api, symbol, interval, lastStartTime, endTime, horizon);
    }
  }

  /**
   * The first fetch of a trace and what follows it: the rest of the trace
   * from the new cursor when the guard holds, nothing otherwise.
   */
  lemma TraceStep(api: CandleApi, symbol: string, interval: string, cursor: Option<nat>, endTime: Option<nat>, horizon: nat)
    requires Terminates(api, endTime, horizon)
    ensures var rows := api(symbol, interval, cursor, endTime);
      var t := Trace(api, symbol, interval, cursor, endTime, horizon);
      && t[0] == Fetch(cursor, rows)
      && (rows != [] && Continues(LastOpenTime(rows), cursor, endTime) ==>
            t[1..] == Trace(api, symbol, interval, Some(LastOpenTime(rows)), endTime, horizon))
      && (!(rows != [] && Continues(LastOpenTime(rows), cursor, endTime)) ==> t[1..] == [])
  {
    var rows := api(symbol, interval, cursor, endTime);
    var t := Trace(api, symbol, interval, cursor, endTime, horizon);
    if rows != [] && Continues(LastOpenTime(rows), cursor, endTime) {
      assert t == [Fetch(cursor, rows)] + Trace(api, symbol, interval, Some(LastOpenTime(rows)), endTime, horizon);
    }
  }

  /** TraceRows, TraceTotal and Failed on a non-empty trace, its first fetch taken off. */
  lemma TraceCons(m: map<CandleKey, Candle>, symbol: string, t: seq<Fetch>, now: nat)
    requires t != []
    ensures TraceRows(m, symbol, t, now) == TraceRows(Stored(m, symbol, t[0].rows, now), symbol, t[1..], now)
    ensures TraceTotal(t, now) == NumSaved(t[0].rows, now) + TraceTotal(t[1..], now)
    ensures t[1..] != [] ==> Failed(t) == Failed(t[1..])
    ensures t[1..] == [] ==> Failed(t) == (t[0].rows == [])
  {
  }

  /** Storing no rows leaves the table as it was. */
  lemma StoredNothing(m: map<CandleKey, Candle>, symbol: string, now: nat)
    ensures Stored(m, symbol, [], now) == m
  {
  }

  /** One symbol's do/while loop: the symbol and the fetches made for it. */
  datatype Run = Run(symbol: string, fetches: seq<Fetch>)

  /** The loops fetchAndStoreCandlesticksFinish runs: one per symbol, in order, each starting from startTime. */
  ghost function Runs(api: CandleApi, symbols: seq<string>, interval: string,
                      startTime: Option<nat>, endTime: Option<nat>, horizon: nat): (runs: seq<Run>)
    requires Terminates(api, endTime, horizon)
    ensures |runs| == |symbols|
  {
    if symbols == [] then []
    else [Run(symbols[0], Trace(api, symbols[0], interval, startTime, endTime, horizon))]
         + Runs(api, symbols[1..], interval, startTime, endTime, horizon)
  }

  /** The k-th run is the k-th symbol's loop from startTime. */
  lemma {:induction false} RunsAt(api: CandleApi, symbols: seq<string>, interval: string,
                                  startTime: Option<nat>, endTime: Option<nat>, horizon: nat, k: nat)
    requires Terminates(api, endTime, horizon)
    requires k < |symbols|
    ensures Runs(api, symbols, interval, startTime, endTime, horizon)[k]
         == Run(symbols[k], Trace(api, symbols[k], interval, startTime, endTime, horizon))
    decreases k
  {
    if k > 0 {
      RunsAt(api, symbols[1..], interval, startTime, endTime, horizon, k - 1);
    }
  }

  /** One run's part of the outcome: the saves over its fetches, or the abort. */
  ghost function RunOutcome(run: Run, now: nat): (r: Result<nat>)
    ensures r.Err? ==> r.message == UndefinedRowData
  {
    if Failed(run.fetches) then Err(UndefinedRowData) else Ok(TraceTotal(run.fetches, now))
  }

  /** The table after one run. */
  ghost function RunRows(m: map<CandleKey, Candle>, run: Run, now: nat): map<CandleKey, Candle> {
    TraceRows(m, run.symbol, run.fetches, now)
  }

  /** The table after fetchAndStoreCandlesticksFinish: each run stored in turn, stopping after the first that aborts. */
  ghost function FinishRows(m: map<CandleKey, Candle>, runs: seq<Run>, now: nat): map<CandleKey, Candle>
    decreases |runs|
  {
    if runs == [] then m
    else
      var m' := RunRows(m, runs[0], now);
      if RunOutcome(runs[0], now).Err? then m' else FinishRows(m', runs[1..], now)
  }

  /** What fetchAndStoreCandlesticksFinish returns: the saves over every run, or the first abort. */
  ghost function FinishOutcome(runs: seq<Run>, now: nat): Result<nat> {
    if runs == [] then Ok(0) else Combine(RunOutcome(runs[0], now), FinishOutcome(runs[1..], now))
  }

  /** Adds n to a successful count; an abort stays an abort. */
  function Plus(n: nat, r: Result<nat>): Result<nat> {
    match r
    case Ok(v) => Ok(n + v)
    case Err(e) => Err(e)
  }

  /** Two runs in sequence: both counts added, or the first abort. */
  function Combine(a: Result<nat>, b: Result<nat>): Result<nat> {
    match a
    case Ok(v) => Plus(v, b)
    case Err(e) => Err(e)
  }

  lemma CombineAssociates(x: Result<nat>, y: Result<nat>, z: Result<nat>)
    ensures Combine(x, Combine(y, z)) == Combine(Combine(x, y), z)
  {
  }

  /**
   * One iteration of the symbol loop, seen through FinishRows and
   * FinishOutcome on runs[k..]: an aborting run ends everything with its own
   * table, a completed one adds its saves and hands its table on.
   */
  lemma FinishStep(m: map<CandleKey, Candle>, runs: seq<Run>, k: nat, total: nat, now: nat)
    requires k < |runs|
    ensures var one := RunOutcome(runs[k], now);
      var m' := RunRows(m, runs[k], now);
      && (one.Err? ==>
            && FinishRows(m, runs[k..], now) == m'
            && Combine(Ok(total), FinishOutcome(runs[k..], now)) == Err(UndefinedRowData))
      && (one.Ok? ==>
            && FinishRows(m, runs[k..], now) == FinishRows(m', runs[k + 1..], now)
            && Combine(Ok(total), FinishOutcome(runs[k..], now)) == Combine(Ok(total + one.value), FinishOutcome(runs[k + 1..], now)))
  {
    assert runs[k..][0] == runs[k] && runs[k..][1..] == runs[k + 1..];
    CombineAssociates(Ok(total), RunOutcome(runs[k], now), FinishOutcome(runs[k + 1..], now));
  }

  /**
   * fetchAndStoreCandlesticksFinish: for each symbol in order, page through
   * the exchange from startTime and store every answer; returns the grand
   * total of saves.
   */
  method FetchAndStoreCandlesticksFinish(table: CandleTable, api: CandleApi, symbols: seq<string>, interval: string,
                                         startTime: Option<nat>, endTime: Option<nat>, now: nat, ghost horizon: nat)
    returns (r: Result<nat>)
    requires Terminates(api, endTime, horizon)
    modifies table
    ensures r == FinishOutcome(Runs(api, symbols, interval, startTime, endTime, horizon), now)
    ensures table.rows == FinishRows(old(table.rows), Runs(api, symbols, interval, startTime, endTime, horizon), now)
  {
    ghost var runs := Runs(api, symbols, interval, startTime, endTime, horizon);
    var totalNumStored := 0;
    var k := 0;
    while k < |symbols|
      invariant 0 <= k <= |symbols|
      invariant FinishRows(old(table.rows), runs, now) == FinishRows(table.rows, runs[k..], now)
      invariant FinishOutcome(runs, now) == Combine(Ok(totalNumStored), FinishOutcome(runs[k..], now))
    {
      var ok;
      ok, totalNumStored := FetchAndStoreNextSymbol(table, api, symbols, k, totalNumStored, interval, startTime, endTime, now, horizon);
      if !ok {
        return Err(UndefinedRowData);
      }
      k := k + 1;
    }
    assert runs[k..] == [];
    r := Ok(totalNumStored);
  }

  /**
   * One pass of the foreach loop: symbol k's do/while loop, and what it does
   * to the table and to the outcome of the runs from k on.
   */
  method FetchAndStoreNextSymbol(table: CandleTable, api: CandleApi, symbols: seq<string>, k: nat, total: nat, interval: string,
                                 startTime: Option<nat>, endTime: Option<nat>, now: nat, ghost horizon: nat)
    returns (ok: bool, newTotal: nat)
    requires Terminates(api, endTime, horizon)
    requires k < |symbols|
    modifies table
    ensures var runs := Runs(api, symbols, interval, startTime, endTime, horizon);
      && (ok ==>
            && FinishRows(old(table.rows), runs[k..], now) == FinishRows(table.rows, runs[k + 1..], now)
            && Combine(Ok(total), FinishOutcome(runs[k..], now)) == Combine(Ok(newTotal), FinishOutcome(runs[k + 1..], now)))
      && (!ok ==>
            && FinishRows(old(table.rows), runs[k..], now) == table.rows
            && Combine(Ok(total), FinishOutcome(runs[k..], now)) == Err(UndefinedRowData))
  {
    ghost var runs := Runs(api, symbols, interval, startTime, endTime, horizon);
    FinishStep(table.rows, runs, k, total, now);
    RunsAt(api, symbols, interval, startTime, endTime, horizon, k);
    var numStored;
    ok, numStored := FetchAndStoreSymbol(table, api, symbols[k], interval, startTime, endTime, now, horizon);
    newTotal := total + numStored;
  }

  /** The runs for two symbol lists in sequence are the runs for each, one after the other. */
  lemma {:induction false} RunsSplit(api: CandleApi, a: seq<string>, b: seq<string>, interval: string,
                                     startTime: Option<nat>, endTime: Option<nat>, horizon: nat)
    requires Terminates(api, endTime, horizon)
    ensures Runs(api, a + b, interval, startTime, endTime, horizon)
         == Runs(api, a, interval, startTime, endTime, horizon) + Runs(api, b, interval, startTime, endTime, horizon)
    decreases |a|
  {
    if a == [] {
      assert a + b == b;
    } else {
      assert (a + b)[0] == a[0] && (a + b)[1..] == a[1..] + b;
      RunsSplit(api, a[1..], b, interval, startTime, endTime, horizon);
    }
  }

  /**
   * Splitting the runs into two batches made one after the other (as the
   * queue's one-symbol jobs are) gives the sum of the two totals, or the
   * first abort.
   */
  lemma {:induction false} FinishOutcomeSplits(a: seq<Run>, b: seq<Run>, now: nat)
    ensures FinishOutcome(a + b, now) == Combine(FinishOutcome(a, now), FinishOutcome(b, now))
    decreases |a|
  {
    if a == [] {
      assert a + b == b;
    } else {
      assert (a + b)[0] == a[0] && (a + b)[1..] == a[1..] + b;
      FinishOutcomeSplits(a[1..], b, now);
      CombineAssociates(RunOutcome(a[0], now), FinishOutcome(a[1..], now), FinishOutcome(b, now));
    }
  }

  /** When the first batch completes, the table after both is the second batch stored over the first batch's table. */
  lemma {:induction false} FinishRowsSplit(m: map<CandleKey, Candle>, a: seq<Run>, b: seq<Run>, now: nat)
    requires FinishOutcome(a, now).Ok?
    ensures FinishRows(m, a + b, now) == FinishRows(FinishRows(m, a, now), b, now)
    decreases |a|
  {
    if a == [] {
      assert a + b == b;
    } else {
      assert (a + b)[0] == a[0] && (a + b)[1..] == a[1..] + b;
      assert RunOutcome(a[0], now).Ok?;
      FinishRowsSplit(RunRows(m, a[0], now), a[1..], b, now);
    }
  }

  /** One queued unit of work: `UpdateCandlesticksJob::dispatch([$symbol], $interval, $startTime, $endTime)`. */
  datatype Job = Job(symbols: seq<string>, interval: string, startTime: Option<string>, endTime: Option<string>)

  /** fetchAndStoreCandlesticksEnqueue: one job per symbol, in order, each for that symbol alone; returns true. */
  method FetchAndStoreCandlesticksEnqueue(symbols: seq<string>, interval: string, startTime: Option<string>, endTime: Option<string>)
    returns (jobs: seq<Job>, acknowledged: bool)
    ensures |jobs| == |symbols|
    ensures forall i :: 0 <= i < |jobs| ==> jobs[i] == Job([symbols[i]], interval, startTime, endTime)
    ensures acknowledged
  {
    jobs := [];
    for k := 0 to |symbols|
      invariant |jobs| == k
      invariant forall i :: 0 <= i < k ==> jobs[i] == Job([symbols[i]], interval, startTime, endTime)
    {
      jobs := jobs + [Job([symbols[k]], interval, startTime, endTime)];
    }
    acknowledged := true;
  }

  /** strtoupper($symbol) === 'ALL' holds for exactly the eight spellings of "all" in any case. */
  lemma AllSentinelAnyCase(s: string)
    ensures ToUpper(s) == "ALL" <==>
      |s| == 3 && (s[0] == 'a' || s[0] == 'A') && (s[1] == 'l' || s[1] == 'L') && (s[2] == 'l' || s[2] == 'L')
  {
    var u := ToUpper(s);
    if |s| == 3 {
      UpperCharIs(s[0], 'a', 'A');
      UpperCharIs(s[1], 'l', 'L');
      UpperCharIs(s[2], 'l', 'L');
      assert u == [u[0], u[1], u[2]];
    }
  }

  /** The validated request: the symbols to process and both bounds after parseDate. */
  datatype Plan = Plan(symbols: seq<string>, startTime: Option<string>, endTime: Option<string>)

  /**
   * The part of fetchAndStoreCandlesticksStart before any fetch or enqueue:
   * a first symbol "ALL" (in any case) stands for the whole roster, then the
   * start and the end bound go through parseDate as 'from' and 'to'.
   */
  function StartPlan(symbols: seq<string>, roster: seq<string>, startTime: Option<string>, endTime: Option<string>,
                     clock: Clock, parse: DateParser): (r: Result<Plan>)
    ensures r.Err? <==>
      symbols == [] || ParseDate(startTime, "from", clock, parse).Err? || ParseDate(endTime, "to", clock, parse).Err?
    ensures r.Err? && symbols == [] ==> r.message == UndefinedFirstSymbol
    ensures r.Err? && symbols != [] && ParseDate(startTime, "from", clock, parse).Err? ==> r.message == InvalidDateMessage("from")
    ensures r.Err? && symbols != [] && ParseDate(startTime, "from", clock, parse).Ok? ==> r.message == InvalidDateMessage("to")
    ensures r.Ok? ==> r.value.symbols == if ToUpper(symbols[0]) == "ALL" then roster else symbols
    ensures r.Ok? ==> ParseDate(startTime, "from", clock, parse) == Ok(r.value.startTime)
    ensures r.Ok? ==> ParseDate(endTime, "to", clock, parse) == Ok(r.value.endTime)
    ensures r.Ok? && endTime.Some? ==>
      r.value.endTime.Some? && AllDigits(r.value.endTime.value) && DigitsValue(r.value.endTime.value) >= 1000
  {
    if symbols == [] then Err(UndefinedFirstSymbol)
    else
      var resolved := if ToUpper(symbols[0]) == "ALL" then roster else symbols;
      match ParseDate(startTime, "from", clock, parse)
      case Err(e) => Err(e)
      case Ok(s) =>
        match ParseDate(endTime, "to", clock, parse)
        case Err(e) => Err(e)
        case Ok(e) =>
          if e.Some? then MillisecondsValue(e.value, clock); Ok(Plan(resolved, s, e))
          else Ok(Plan(resolved, s, e))
  }

  /** A normalised bound as the number the loop compares with open times. */
  function BoundValue(bound: Option<string>): Option<nat>
    requires bound.Some? ==> AllDigits(bound.value)
  {
    match bound
    case None => None
    case Some(s) => Some(DigitsValue(s))
  }

  /** What fetchAndStoreCandlesticksStart returns: the inline count, or `true` for the queue with the jobs dispatched. */
  datatype Dispatched = Counted(count: nat) | Queued(jobs: seq<Job>)

  function AsStored(r: Result<nat>): Result<Dispatched> {
    match r
    case Ok(n) => Ok(Counted(n))
    case Err(e) => Err(e)
  }

  /**
   * fetchAndStoreCandlesticksStart: validate, then run inline (skipQueue) or
   * enqueue one job per symbol. A validation error is raised before anything
   * is fetched, stored or queued.
   */
  method FetchAndStoreCandlesticksStart(table: CandleTable, api: CandleApi, roster: seq<string>, symbols: seq<string>,
                                        interval: string, startTime: Option<string>, endTime: Option<string>, skipQueue: bool,
                                        clock: Clock, parse: DateParser, ghost horizon: nat)
    returns (r: Result<Dispatched>)
    requires skipQueue ==> endTime.Some? || ApiBounded(api, horizon)
    modifies table
    ensures var plan := StartPlan(symbols, roster, startTime, endTime, clock, parse);
      && (plan.Err? ==> r == Err(plan.message) && table.rows == old(table.rows))
      && (plan.Ok? && !skipQueue ==>
            && table.rows == old(table.rows)
            && r.Ok? && r.value.Queued?
            && |r.value.jobs| == |plan.value.symbols|
            && forall i :: 0 <= i < |r.value.jobs| ==>
                 r.value.jobs[i] == Job([plan.value.symbols[i]], interval, plan.value.startTime, plan.value.endTime))
      && (plan.Ok? && skipQueue ==>
            var from, to := BoundValue(plan.value.startTime), BoundValue(plan.value.endTime);
            var runs := Runs(api, plan.value.symbols, interval, from, to, horizon);
            && r == AsStored(FinishOutcome(runs, clock.now))
            && table.rows == FinishRows(old(table.rows), runs, clock.now))
  {
    var plan := StartPlan(symbols, roster, startTime, endTime, clock, parse);
    if plan.Err? {
      return Err(plan.message);
    }
    var p := plan.value;
    if skipQueue {
      var total := FetchAndStoreCandlesticksFinish(table, api, p.symbols, interval, BoundValue(p.startTime), BoundValue(p.endTime), clock.now, horizon);
      r := AsStored(total);
    } else {
      var jobs, acknowledged := FetchAndStoreCandlesticksEnqueue(p.symbols, interval, p.startTime, p.endTime);
      r := Ok(Queued(jobs));
    }
  }
}
