/**
 * The candlestick store (CandlesticksBll::storeCandlesticks): rows fetched
 * for one symbol are upserted into the interval's table, keyed by
 * (symbol, open time in whole seconds); a row of the minute still running is
 * skipped because its data is not complete yet.
 *
 * One table object stands for one `Candlesticks<interval>` model; the caller
 * hands in the object for the interval. Prices and volumes are opaque text.
 */
module CandleStore {
  import opened PhpStrings
  import Upserts

  /** A decimal amount exactly as the exchange sends it; no arithmetic is done on it. */
  type Amount = string

  /** One fetched candlestick row: its open time in Unix milliseconds and its OHLCV values. */
  datatype CandleRow = CandleRow(openTime: nat, open: Amount, high: Amount, low: Amount, close: Amount, volume: Amount)

  /** The stored OHLCV fields of one table row. */
  datatype Candle = Candle(open: Amount, high: Amount, low: Amount, close: Amount, volume: Amount)

  /**
   * The key `firstOrNew` looks a row up by: the symbol and the open time in
   * seconds (the source turns the seconds into a UTC date-time string, one
   * string per second).
   */
  datatype CandleKey = CandleKey(symbol: string, datetime: nat)

  /** A `Candlesticks<interval>` table. */
  class CandleTable {
    var rows: map<CandleKey, Candle>

    constructor (rows: map<CandleKey, Candle>)
      ensures this.rows == rows
    {
      this.rows := rows;
    }

    /** `firstOrNew` followed by `save`: the row under key now holds candle, whether it existed or not. */
    method Save(key: CandleKey, candle: Candle)
      modifies this
      ensures rows == old(rows)[key := candle]
    {
      rows := rows[key := candle];
    }
  }

  /**
   * `(int) substr($openTime, 0, -3)`: the open time's decimal text without its
   * last three characters, read back as an integer; a text of three characters
   * or fewer leaves "", which reads as 0.
   */
  function SecondsOf(openTime: nat): nat {
    var text := Decimal(openTime);
    if |text| <= 3 then 0 else DigitsValue(text[..|text| - 3])
  }

  /** Cutting three characters off the decimal text is division by 1000. */
  lemma SecondsOfIsDivision(openTime: nat)
    ensures SecondsOf(openTime) == OpenSecond(openTime)
  {
    DecimalShort(openTime);
    if openTime >= 1000 {
      DecimalDropThree(openTime);
      DigitsValueOfDecimal(openTime / 1000);
    }
  }

  /** The open time in whole seconds: the second the row is stored under. */
  function OpenSecond(openTime: nat): nat {
    openTime / 1000
  }

  /** `floor(now / 60) * 60`: the start of the minute now falls in. */
  function CurrentMinute(now: nat): (m: nat)
    ensures m % 60 == 0 && m <= now < m + 60
  {
    (now / 60) * 60
  }

  /** The row is saved: its open second is not the start of the running minute. */
  predicate IsSaved(row: CandleRow, now: nat) {
    OpenSecond(row.openTime) != CurrentMinute(now)
  }

  function KeyOf(symbol: string, row: CandleRow): CandleKey {
    CandleKey(symbol, OpenSecond(row.openTime))
  }

  function CandleOf(row: CandleRow): Candle {
    Candle(row.open, row.high, row.low, row.close, row.volume)
  }

  function SavedBy(now: nat): CandleRow -> bool {
    (r: CandleRow) => IsSaved(r, now)
  }

  function KeyedBy(symbol: string): CandleRow -> CandleKey {
    (r: CandleRow) => KeyOf(symbol, r)
  }

  /** The table after storing data for symbol at clock reading now. */
  function Stored(m: map<CandleKey, Candle>, symbol: string, data: seq<CandleRow>, now: nat): map<CandleKey, Candle> {
    Upserts.Apply(m, data, SavedBy(now), KeyedBy(symbol), CandleOf)
  }

  /** The number of saves storing data performs. */
  function NumSaved(data: seq<CandleRow>, now: nat): nat {
    Upserts.Kept(data, SavedBy(now))
  }

  /**
   * storeCandlesticks: upserts every row outside the running minute, counts
   * the saves, and returns the raw open time of the last input row (skipped or
   * not). An empty input leaves `$rowData` undefined, so it is excluded here
   * and handled by the caller.
   */
  method StoreCandlesticks(table: CandleTable, symbol: string, data: seq<CandleRow>, now: nat)
    returns (numSaved: nat, lastOpenTime: nat)
    requires |data| > 0
    modifies table
    ensures table.rows == Stored(old(table.rows), symbol, data, now)
    ensures numSaved == NumSaved(data, now)
    ensures lastOpenTime == data[|data| - 1].openTime
  {
    numSaved := 0;
    var i := 0;
    while i < |data|
      invariant 0 <= i <= |data|
      invariant table.rows == Stored(old(table.rows), symbol, data[..i], now)
      invariant numSaved == NumSaved(data[..i], now)
    {
      var rowData := data[i];
      assert data[..i + 1][..i] == data[..i];
      var unixTimestamp := SecondsOf(rowData.openTime);
      SecondsOfIsDivision(rowData.openTime);
      if unixTimestamp != CurrentMinute(now) {
        table.Save(CandleKey(symbol, unixTimestamp), CandleOf(rowData));
        numSaved := numSaved + 1;
      }
      i := i + 1;
    }
    assert data[..|data|] == data;
    lastOpenTime := data[|data| - 1].openTime;
  }

  /** Nothing is ever written under the running minute's key: its entry, or its absence, survives. */
  lemma RunningMinuteNeverWritten(m: map<CandleKey, Candle>, symbol: string, data: seq<CandleRow>, now: nat)
    ensures var k := CandleKey(symbol, CurrentMinute(now));
      (k in Stored(m, symbol, data, now) <==> k in m)
      && (k in m ==> Stored(m, symbol, data, now)[k] == m[k])
  {
    var k := CandleKey(symbol, CurrentMinute(now));
    Upserts.ApplyUntouched(m, data, SavedBy(now), KeyedBy(symbol), CandleOf, k);
  }

  /**
   * A saved row that no later row shares a second with ends up as the entry
   * under its (symbol, second): for duplicate keys the last occurrence wins.
   */
  lemma LastRowWins(m: map<CandleKey, Candle>, symbol: string, data: seq<CandleRow>, now: nat, i: nat)
    requires i < |data| && IsSaved(data[i], now)
    requires forall j :: i < j < |data| ==> OpenSecond(data[j].openTime) != OpenSecond(data[i].openTime)
    ensures KeyOf(symbol, data[i]) in Stored(m, symbol, data, now)
    ensures Stored(m, symbol, data, now)[KeyOf(symbol, data[i])] == CandleOf(data[i])
  {
    Upserts.ApplyLastWins(m, data, SavedBy(now), KeyedBy(symbol), CandleOf, i);
  }

  /** Entries of other symbols, and of seconds no input row opens in, are left as they were. */
  lemma OtherKeysUnchanged(m: map<CandleKey, Candle>, symbol: string, data: seq<CandleRow>, now: nat, k: CandleKey)
    requires k.symbol != symbol || forall j :: 0 <= j < |data| ==> OpenSecond(data[j].openTime) != k.datetime
    ensures k in Stored(m, symbol, data, now) <==> k in m
    ensures k in m ==> Stored(m, symbol, data, now)[k] == m[k]
  {
    Upserts.ApplyUntouched(m, data, SavedBy(now), KeyedBy(symbol), CandleOf, k);
  }

  /** Storing the same rows twice leaves the table as storing them once. */
  lemma StoreTwiceIsStoreOnce(m: map<CandleKey, Candle>, symbol: string, data: seq<CandleRow>, now: nat)
    ensures Stored(Stored(m, symbol, data, now), symbol, data, now) == Stored(m, symbol, data, now)
  {
    Upserts.ApplyIdempotent(m, data, SavedBy(now), KeyedBy(symbol), CandleOf);
  }

  /** The save count is the number of input rows outside the running minute, duplicates included. */
  lemma NumSavedCountsSavedRows(data: seq<CandleRow>, now: nat)
    ensures NumSaved(data, now) == |SavedPositions(data, now)|
    ensures NumSaved(data, now) <= |data|
  {
    var keep := SavedBy(now);
    Upserts.KeptCountsPositions(data, keep);
    assert Upserts.KeptPositions(data, keep) == SavedPositions(data, now);
  }

  /** The positions of the input rows outside the running minute. */
  function SavedPositions(data: seq<CandleRow>, now: nat): set<int> {
    set i | 0 <= i < |data| && IsSaved(data[i], now)
  }

  /**
   * Two saved rows in the same second count as two saves, and the second
   * row's values are what the table keeps.
   */
  lemma DuplicateSecondCountsTwice(m: map<CandleKey, Candle>, symbol: string, first: CandleRow, second: CandleRow, now: nat)
    requires OpenSecond(first.openTime) == OpenSecond(second.openTime) != CurrentMinute(now)
    ensures NumSaved([first, second], now) == 2
    ensures Stored(m, symbol, [first, second], now) == m[KeyOf(symbol, second) := CandleOf(second)]
  {
    var keep := SavedBy(now);
    var key := KeyedBy(symbol);
    assert [first, second][..1] == [first];
    assert [first][..0] == [];
    assert Upserts.Kept([first], keep) == 1;
    assert Upserts.Apply(m, [first], keep, key, CandleOf) == m[key(first) := CandleOf(first)];
    assert key(first) == key(second);
  }
}
