/**
 * Date normalisation of the candlestick ingestion (CandlesticksBll::parseDate
 * and CandlesticksBll::mustBeWithinThePastYear): a bound given on the command
 * line is either null, a ten- or thirteen-digit Unix epoch, or free-form text
 * for Carbon's parser; it must lie within the past year and comes out as Unix
 * seconds followed by "000".
 *
 * The clock (`Carbon::now()`, `Carbon::parse('1 year ago')`) is a parameter,
 * and Carbon's free-form parser is an arbitrary partial function.
 */
module DateParsing {
  import opened Wrappers
  import opened PhpStrings

  /** The two clock readings the validation uses, as Unix seconds. */
  datatype Clock = Clock(now: nat, oneYearAgo: nat)

  /** `Carbon::parse($text, 'UTC')->timestamp`: Unix seconds, or None where Carbon throws. */
  type DateParser = string -> Option<int>

  /** PHP's truthiness of a string: only "" and "0" are false. */
  predicate Truthy(s: string) {
    s != "" && s != "0"
  }

  /** The one message every rejected bound raises; the option name is quoted when it is truthy. */
  function InvalidDateMessage(optionName: string): string {
    "Invalid " + (if Truthy(optionName) then "'" + optionName + "' " else "") + "date/time specified"
  }

  /** The half-open window (one year ago, now]. */
  predicate WithinThePastYear(t: int, clock: Clock) {
    clock.oneYearAgo < t <= clock.now
  }

  /** mustBeWithinThePastYear: throws when t is at or before one year ago, or after now. */
  function MustBeWithinThePastYear(t: int, optionName: string, clock: Clock): (r: Result<()>)
    ensures r.Ok? <==> WithinThePastYear(t, clock)
    ensures r.Err? ==> r.message == InvalidDateMessage(optionName)
  {
    if t <= clock.oneYearAgo || t > clock.now then Err(InvalidDateMessage(optionName)) else Ok(())
  }

  /** What a successful normalisation produces: digits ending in "000", the seconds before the suffix inside the window. */
  predicate MillisecondsText(out: string, clock: Clock) {
    |out| > 3 && AllDigits(out) && out[|out| - 3..] == "000"
    && WithinThePastYear(DigitsValue(out[..|out| - 3]), clock)
  }

  /** A millisecond text denotes its seconds times 1000, so at least 1000: the window starts after 0. */
  lemma MillisecondsValue(out: string, clock: Clock)
    requires MillisecondsText(out, clock)
    ensures DigitsValue(out) == DigitsValue(out[..|out| - 3]) * 1000
    ensures DigitsValue(out) >= 1000
  {
    var n := |out|;
    assert out[n - 1] == out[n - 3..][2] && out[n - 2] == out[n - 3..][1] && out[n - 3] == out[n - 3..][0];
    assert out[..n - 1][..n - 2] == out[..n - 2];
    assert out[..n - 2][..n - 3] == out[..n - 3];
  }

  /** The epoch test as intended: ten or thirteen digits and nothing else. */
  predicate EpochText(s: string) {
    AllDigits(s) && (|s| == 10 || |s| == 13)
  }

  /** A thirteen-character epoch loses its last three characters (`substr($value, 0, -3)`). */
  function EpochSecondsText(s: string): string
    requires |s| == 10 || |s| == 13
  {
    if |s| == 13 then s[..10] else s
  }

  /** One trailing newline removed, as PHP ignores it when it reads a numeric string. */
  function WithoutFinalNewline(s: string): string {
    if |s| > 0 && s[|s| - 1] == '\n' then s[..|s| - 1] else s
  }

  /** The epoch branch: the seconds the text denotes must be in the window; the text itself gets "000" appended. */
  function FromEpochText(v: string, optionName: string, clock: Clock): Result<Option<string>>
    requires AllDigits(WithoutFinalNewline(v))
  {
    match MustBeWithinThePastYear(DigitsValue(WithoutFinalNewline(v)), optionName, clock)
    case Err(msg) => Err(msg)
    case Ok(_) => Ok(Some(v + "000"))
  }

  /** The free-form branch: Carbon's timestamp must be in the window; any failure in it raises the same message. */
  function FromParsedText(s: string, optionName: string, clock: Clock, parse: DateParser): Result<Option<string>> {
    match parse(s)
    case None => Err(InvalidDateMessage(optionName))
    case Some(t) =>
      match MustBeWithinThePastYear(t, optionName, clock)
      case Err(_) => Err(InvalidDateMessage(optionName))
      case Ok(_) => Ok(Some(Decimal(t) + "000"))
  }

  /**
   * parseDate, with the epoch test read as intended (digits only). Null passes
   * through; every other outcome is a millisecond text inside the window or
   * the "Invalid ... date/time specified" error.
   */
  function ParseDate(value: Option<string>, optionName: string, clock: Clock, parse: DateParser): (r: Result<Option<string>>)
    ensures value.None? ==> r == Ok(None)
    ensures r.Err? ==> r.message == InvalidDateMessage(optionName)
    ensures r.Ok? && r.value.Some? ==> MillisecondsText(r.value.value, clock)
  {
    match value
    case None => Ok(None)
    case Some(s) =>
      if EpochText(s) then
        var v := EpochSecondsText(s);
        assert (v + "000")[..|v|] == v && (v + "000")[|v|..] == "000";
        FromEpochText(v, optionName, clock)
      else
        var r := FromParsedText(s, optionName, clock, parse);
        if r.Ok? && r.value.Some? then
          var t := parse(s).value as nat;
          var d := Decimal(t);
          assert (d + "000")[..|d|] == d && (d + "000")[|d|..] == "000";
          DigitsValueOfDecimal(t);
          r
        else r
  }

  /** `preg_match('@^\d+$@', $s)` as PCRE reads it: digits, where `$` also matches before one final newline. */
  predicate MatchesDigitPattern(s: string) {
    (|s| > 0 && AllDigits(s)) || (|s| > 1 && s[|s| - 1] == '\n' && AllDigits(s[..|s| - 1]))
  }

  /** The pattern accepts exactly the texts that are a non-empty run of digits once one final newline is set aside. */
  lemma DigitPatternIgnoresFinalNewline(s: string)
    ensures MatchesDigitPattern(s) <==> |WithoutFinalNewline(s)| > 0 && AllDigits(WithoutFinalNewline(s))
  {
    if |s| > 0 && s[|s| - 1] == '\n' {
      assert !IsDigit(s[|s| - 1]);
    }
  }

  /** The epoch test as the source writes it: the pattern matches and strlen is 10 or 13. */
  predicate EpochTextAsWritten(s: string) {
    MatchesDigitPattern(s) && (|s| == 10 || |s| == 13)
  }

  /** parseDate exactly as written, with PCRE's reading of `$`. */
  function ParseDateAsWritten(value: Option<string>, optionName: string, clock: Clock, parse: DateParser): (r: Result<Option<string>>)
    ensures value.None? ==> r == Ok(None)
    ensures r.Err? ==> r.message == InvalidDateMessage(optionName)
  {
    match value
    case None => Ok(None)
    case Some(s) =>
      if EpochTextAsWritten(s) then
        var v := EpochSecondsText(s);
        assert AllDigits(WithoutFinalNewline(v)) by {
          if |s| == 13 {
            assert forall i :: 0 <= i < 10 ==> v[i] == s[i] && (AllDigits(s) || s[..|s| - 1][i] == s[i]);
          }
        }
        FromEpochText(v, optionName, clock)
      else FromParsedText(s, optionName, clock, parse)
  }

  /**
   * A ten- or thirteen-digit text never reaches Carbon: its first ten digits
   * are the seconds, accepted exactly when they lie in the window, and the
   * result is those ten digits followed by "000".
   */
  lemma EpochTextResult(s: string, optionName: string, clock: Clock, parse: DateParser)
    requires EpochText(s)
    ensures AllDigits(s[..10])
    ensures ParseDate(Some(s), optionName, clock, parse) ==
      if WithinThePastYear(DigitsValue(s[..10]), clock) then Ok(Some(s[..10] + "000"))
      else Err(InvalidDateMessage(optionName))
  {
    if |s| == 10 {
      assert s[..10] == s;
    }
  }

  /** Any other text is Carbon's: an unparseable one, or one outside the window, raises the error. */
  lemma FreeFormTextResult(s: string, optionName: string, clock: Clock, parse: DateParser)
    requires !EpochText(s)
    ensures parse(s).None? ==> ParseDate(Some(s), optionName, clock, parse) == Err(InvalidDateMessage(optionName))
    ensures parse(s).Some? ==>
      ParseDate(Some(s), optionName, clock, parse) ==
        if WithinThePastYear(parse(s).value, clock) then Ok(Some(Decimal(parse(s).value) + "000"))
        else Err(InvalidDateMessage(optionName))
  {
  }

  /** A ten-digit Unix time in seconds inside the window comes back as the same instant in milliseconds. */
  lemma SecondsRoundTrip(t: nat, optionName: string, clock: Clock, parse: DateParser)
    requires Pow10(9) <= t < Pow10(10)
    requires WithinThePastYear(t, clock)
    ensures ParseDate(Some(Decimal(t)), optionName, clock, parse) == Ok(Some(Decimal(t * 1000)))
  {
    DecimalLength(t, 10);
    DigitsValueOfDecimal(t);
    EpochTextResult(Decimal(t), optionName, clock, parse);
    assert Decimal(t)[..10] == Decimal(t);
    DecimalTimesThousand(t);
  }

  /**
   * A thirteen-digit Unix time in milliseconds is truncated to whole seconds:
   * when those seconds lie in the window, the result is the instant rounded
   * down to the second, in milliseconds.
   */
  lemma MillisecondsTruncated(ms: nat, optionName: string, clock: Clock, parse: DateParser)
    requires Pow10(12) <= ms < Pow10(13)
    requires WithinThePastYear(ms / 1000, clock)
    ensures ParseDate(Some(Decimal(ms)), optionName, clock, parse) == Ok(Some(Decimal(ms / 1000 * 1000)))
  {
    DecimalLength(ms, 13);
    DecimalDropThree(ms);
    DigitsValueOfDecimal(ms / 1000);
    EpochTextResult(Decimal(ms), optionName, clock, parse);
    assert Pow10(10) == 10000000000 && Pow10(12) == 1000000000000;
    DecimalTimesThousand(ms / 1000);
  }

  /**
   * As written, twelve digits followed by a newline pass the epoch test
   * (PCRE's `$` matches before a final newline, and strlen counts 13), so the
   * first ten digits are taken as seconds whatever Carbon would make of the
   * text; with the digits-only test the text goes to Carbon.
   */
  lemma NewlineTextTakenAsEpoch(d: string, optionName: string, clock: Clock, parse: DateParser)
    requires |d| == 12 && AllDigits(d)
    ensures AllDigits(d[..10])
    ensures ParseDateAsWritten(Some(d + "\n"), optionName, clock, parse) ==
      if WithinThePastYear(DigitsValue(d[..10]), clock) then Ok(Some(d[..10] + "000"))
      else Err(InvalidDateMessage(optionName))
    ensures ParseDate(Some(d + "\n"), optionName, clock, parse) == FromParsedText(d + "\n", optionName, clock, parse)
  {
    var s := d + "\n";
    assert s[..|s| - 1] == d;
    assert EpochTextAsWritten(s);
    assert !EpochText(s) by { assert !IsDigit(s[12]); }
    assert s[..10] == d[..10];
  }

  /** Without a final newline the test as written and the digits-only test agree, and so do both versions of parseDate. */
  lemma AsWrittenAgreesWithoutFinalNewline(value: Option<string>, optionName: string, clock: Clock, parse: DateParser)
    requires value.Some? && |value.value| > 0 ==> value.value[|value.value| - 1] != '\n'
    ensures ParseDateAsWritten(value, optionName, clock, parse) == ParseDate(value, optionName, clock, parse)
  {
    if value.Some? {
      var s := value.value;
      assert EpochTextAsWritten(s) == EpochText(s);
      if EpochText(s) {
        var v := EpochSecondsText(s);
        assert WithoutFinalNewline(v) == v by {
          assert IsDigit(v[|v| - 1]);
        }
      }
    }
  }
}
