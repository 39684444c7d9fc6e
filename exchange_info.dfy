/**
 * The symbol-metadata store (ExchangeInfoBll::storeExchangeInfo): every
 * trading symbol the exchange lists, except those on a fixed denylist, is
 * upserted into the `exchange_info` table keyed by its symbol name, with
 * price, quantity and notional limits taken from its first three filters.
 * All values are opaque text.
 */
module ExchangeInfo {
  import opened PhpStrings
  import Upserts

  /** One entry of a symbol's `filters` list, with the properties the store reads. */
  datatype Filter = Filter(minPrice: string, tickSize: string, minQty: string, stepSize: string, minNotional: string)

  /** One element of the exchange's `symbols` list. */
  datatype SymbolInfo = SymbolInfo(symbol: string, baseAsset: string, quoteAsset: string, filters: seq<Filter>)

  /** A symbol entry with the three filters the field mapping reads. */
  type Listing = s: SymbolInfo | |s.filters| >= 3
    witness SymbolInfo("", "", "", [Filter("", "", "", "", ""), Filter("", "", "", "", ""), Filter("", "", "", "", "")])

  /** One row of the `exchange_info` table. */
  datatype ExchangeInfoRow = ExchangeInfoRow(symbol: string, baseAsset: string, quoteAsset: string,
                                             minPrice: string, tickSize: string, minQty: string,
                                             stepSize: string, minNotional: string)

  /** The `exchange_info` table, looked up by symbol. */
  class ExchangeInfoTable {
    var rows: map<string, ExchangeInfoRow>

    constructor (rows: map<string, ExchangeInfoRow>)
      ensures this.rows == rows
    {
      this.rows := rows;
    }

    /** `firstOrNew(['symbol' => symbol])` followed by `save`: the row under symbol now holds row. */
    method Save(symbol: string, row: ExchangeInfoRow)
      modifies this
      ensures rows == old(rows)[symbol := row]
    {
      rows := rows[symbol := row];
    }
  }

  /** The symbols that are never stored. */
  const ExcludedExchanges: seq<string> := ["123456"]

  /** A non-empty run of decimal digits: the only numeric-string form this model tells apart. */
  predicate IsNumeric(s: string) {
    |s| > 0 && AllDigits(s)
  }

  /**
   * PHP 8's `==` between two strings: two numeric strings compare as numbers,
   * anything else compares as text.
   */
  predicate LooselyEqual(a: string, b: string) {
    a == b || (IsNumeric(a) && IsNumeric(b) && DigitsValue(a) == DigitsValue(b))
  }

  /**
   * Loose equality of strings is an equivalence, and two different strings
   * are loosely equal only when both are digit strings denoting one number.
   */
  lemma LooselyEqualIsEquivalence(a: string, b: string, c: string)
    ensures LooselyEqual(a, a)
    ensures LooselyEqual(a, b) ==> LooselyEqual(b, a)
    ensures LooselyEqual(a, b) && LooselyEqual(b, c) ==> LooselyEqual(a, c)
    ensures LooselyEqual(a, b) && a != b ==> IsNumeric(a) && IsNumeric(b) && DigitsValue(a) == DigitsValue(b)
  {
  }

  /** `in_array($needle, $haystack)` without its strict flag: some element is loosely equal to the needle. */
  function InArray(needle: string, haystack: seq<string>): (r: bool)
    ensures r <==> exists i :: 0 <= i < |haystack| && LooselyEqual(needle, haystack[i])
  {
    if haystack == [] then false
    else LooselyEqual(needle, haystack[0]) || InArray(needle, haystack[1..])
  }

  predicate Excluded(symbol: string) {
    InArray(symbol, ExcludedExchanges)
  }

  /** The symbol is stored: it is not on the denylist. */
  predicate IsListed(s: Listing) {
    !Excluded(s.symbol)
  }

  function SymbolKey(s: Listing): string {
    s.symbol
  }

  /** The field mapping: limits from filters 0 (price), 1 (lot size) and 2 (notional). */
  function RowOf(s: Listing): ExchangeInfoRow {
    ExchangeInfoRow(s.symbol, s.baseAsset, s.quoteAsset,
                    s.filters[0].minPrice, s.filters[0].tickSize,
                    s.filters[1].minQty, s.filters[1].stepSize,
                    s.filters[2].minNotional)
  }

  /** The table after storing symbols. */
  function Upserted(m: map<string, ExchangeInfoRow>, symbols: seq<Listing>): map<string, ExchangeInfoRow> {
    Upserts.Apply(m, symbols, IsListed, SymbolKey, RowOf)
  }

  /** The number of saves storing symbols performs. */
  function NumSaved(symbols: seq<Listing>): nat {
    Upserts.Kept(symbols, IsListed)
  }

  /** storeExchangeInfo: upserts every symbol not on the denylist and returns the number of saves. */
  method StoreExchangeInfo(table: ExchangeInfoTable, symbols: seq<Listing>) returns (numSaved: nat)
    modifies table
    ensures table.rows == Upserted(old(table.rows), symbols)
    ensures numSaved == NumSaved(symbols)
  {
    numSaved := 0;
    for i := 0 to |symbols|
      invariant table.rows == Upserted(old(table.rows), symbols[..i])
      invariant numSaved == NumSaved(symbols[..i])
    {
      var s := symbols[i];
      assert symbols[..i + 1][..i] == symbols[..i];
      if InArray(s.symbol, ExcludedExchanges) {
        continue;
      }
      var ei := ExchangeInfoRow(s.symbol, s.baseAsset, s.quoteAsset,
                                s.filters[0].minPrice, s.filters[0].tickSize,
                                s.filters[1].minQty, s.filters[1].stepSize,
                                s.filters[2].minNotional);
      table.Save(s.symbol, ei);
      numSaved := numSaved + 1;
    }
    assert symbols[..|symbols|] == symbols;
  }

  /** A denylisted symbol's entry, or its absence, survives the store. */
  lemma ExcludedNeverWritten(m: map<string, ExchangeInfoRow>, symbols: seq<Listing>, symbol: string)
    requires Excluded(symbol)
    ensures symbol in Upserted(m, symbols) <==> symbol in m
    ensures symbol in m ==> Upserted(m, symbols)[symbol] == m[symbol]
  {
    Upserts.ApplyUntouched(m, symbols, IsListed, SymbolKey, RowOf, symbol);
  }

  /** The positions of the input symbols that are not denylisted. */
  function ListedPositions(symbols: seq<Listing>): set<int> {
    set i | 0 <= i < |symbols| && IsListed(symbols[i])
  }

  /** The save count is the number of input symbols not on the denylist, repeated symbols included. */
  lemma NumSavedCountsListed(symbols: seq<Listing>)
    ensures NumSaved(symbols) == |ListedPositions(symbols)|
    ensures NumSaved(symbols) <= |symbols|
  {
    Upserts.KeptCountsPositions(symbols, IsListed);
    assert Upserts.KeptPositions(symbols, IsListed) == ListedPositions(symbols);
  }

  /**
   * A listed symbol ends up holding the fields of its last occurrence in the
   * input, mapped from that occurrence's first three filters.
   */
  lemma LastOccurrenceWins(m: map<string, ExchangeInfoRow>, symbols: seq<Listing>, i: nat)
    requires i < |symbols| && !Excluded(symbols[i].symbol)
    requires forall j :: i < j < |symbols| ==> symbols[j].symbol != symbols[i].symbol
    ensures var s := symbols[i];
      && s.symbol in Upserted(m, symbols)
      && var row := Upserted(m, symbols)[s.symbol];
      && row.symbol == s.symbol && row.baseAsset == s.baseAsset && row.quoteAsset == s.quoteAsset
      && row.minPrice == s.filters[0].minPrice && row.tickSize == s.filters[0].tickSize
      && row.minQty == s.filters[1].minQty && row.stepSize == s.filters[1].stepSize
      && row.minNotional == s.filters[2].minNotional
  {
    Upserts.ApplyLastWins(m, symbols, IsListed, SymbolKey, RowOf, i);
  }

  /** Entries of symbols that do not occur in the input are left as they were. */
  lemma AbsentSymbolsUntouched(m: map<string, ExchangeInfoRow>, symbols: seq<Listing>, symbol: string)
    requires forall j :: 0 <= j < |symbols| ==> symbols[j].symbol != symbol
    ensures symbol in Upserted(m, symbols) <==> symbol in m
    ensures symbol in m ==> Upserted(m, symbols)[symbol] == m[symbol]
  {
    Upserts.ApplyUntouched(m, symbols, IsListed, SymbolKey, RowOf, symbol);
  }

  /** Every row is stored under its own symbol: a table keyed consistently stays so. */
  lemma {:induction false} StoredRowsCarryTheirSymbol(m: map<string, ExchangeInfoRow>, symbols: seq<Listing>)
    requires forall k :: k in m ==> m[k].symbol == k
    ensures forall k :: k in Upserted(m, symbols) ==> Upserted(m, symbols)[k].symbol == k
    decreases |symbols|
  {
    if symbols != [] {
      var prior := symbols[..|symbols| - 1];
      var s := symbols[|symbols| - 1];
      StoredRowsCarryTheirSymbol(m, prior);
      assert Upserted(m, symbols) == if IsListed(s) then Upserted(m, prior)[SymbolKey(s) := RowOf(s)] else Upserted(m, prior);
    }
  }

  /** Storing the same listing twice leaves the table as storing it once. */
  lemma StoreTwiceIsStoreOnce(m: map<string, ExchangeInfoRow>, symbols: seq<Listing>)
    ensures Upserted(Upserted(m, symbols), symbols) == Upserted(m, symbols)
  {
    Upserts.ApplyIdempotent(m, symbols, IsListed, SymbolKey, RowOf);
  }

  /** Zeros in front of a digit string do not change the number it denotes. */
  lemma {:induction false} LeadingZerosIgnored(zeros: string, s: string)
    requires forall i :: 0 <= i < |zeros| ==> zeros[i] == '0'
    requires AllDigits(s)
    ensures AllDigits(zeros + s) && DigitsValue(zeros + s) == DigitsValue(s)
    decreases |s|
  {
    if s == [] {
      assert zeros + s == zeros;
      AllZerosDenoteZero(zeros);
    } else {
      var z := zeros + s;
      assert z[..|z| - 1] == zeros + s[..|s| - 1];
      LeadingZerosIgnored(zeros, s[..|s| - 1]);
    }
  }

  lemma {:induction false} AllZerosDenoteZero(zeros: string)
    requires forall i :: 0 <= i < |zeros| ==> zeros[i] == '0'
    ensures AllDigits(zeros) && DigitsValue(zeros) == 0
    decreases |zeros|
  {
    if zeros != [] {
      AllZerosDenoteZero(zeros[..|zeros| - 1]);
    }
  }

  /**
   * The loose comparison makes the denylist match by number: a digit string is
   * excluded exactly when it denotes 123456, leading zeros and all.
   */
  lemma DenylistMatchesByNumber(symbol: string)
    requires IsNumeric(symbol)
    ensures Excluded(symbol) <==> DigitsValue(symbol) == 123456
  {
    DenylistEntryValue();
  }

  /** The one denylist entry is numeric and denotes 123456. */
  lemma DenylistEntryValue()
    ensures IsNumeric(ExcludedExchanges[0]) && DigitsValue(ExcludedExchanges[0]) == 123456
  {
    var s := ExcludedExchanges[0];
    assert IsNumeric(s);
    assert s[..1][..0] == [] && DigitsValue(s[..1]) == 1;
    assert s[..2][..1] == s[..1] && DigitsValue(s[..2]) == 12;
    assert s[..3][..2] == s[..2] && DigitsValue(s[..3]) == 123;
    assert s[..4][..3] == s[..3] && DigitsValue(s[..4]) == 1234;
    assert s[..5][..4] == s[..4] && DigitsValue(s[..5]) == 12345;
    assert s[..6][..5] == s[..5] && DigitsValue(s[..6]) == 123456;
    assert s[..6] == s;
  }

  /** A zero-padded spelling of the denylist entry is excluded as well. */
  lemma ZeroPaddedEntryExcluded(zeros: string)
    requires forall i :: 0 <= i < |zeros| ==> zeros[i] == '0'
    ensures Excluded(zeros + "123456")
  {
    LeadingZerosIgnored(zeros, "123456");
    DenylistMatchesByNumber(zeros + "123456");
  }
}
