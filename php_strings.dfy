/**
 * The few PHP string conversions the ingestion code relies on: rendering a
 * non-negative integer as decimal text, reading decimal text back as an
 * integer, and ASCII upper-casing (strtoupper).
 */
module PhpStrings {

  predicate IsDigit(c: char) {
    '0' <= c <= '9'
  }

  /** Every character is one of 0-9 (the empty string qualifies). */
  predicate AllDigits(s: string) {
    forall i :: 0 <= i < |s| ==> IsDigit(s[i])
  }

  function DigitChar(d: nat): (c: char)
    requires d < 10
    ensures IsDigit(c)
  {
    ('0' as int + d) as char
  }

  /** The string PHP produces for a non-negative int: decimal, no leading zeros. */
  function Decimal(n: nat): (s: string)
    ensures |s| > 0 && AllDigits(s)
    ensures n >= 10 ==> s[0] != '0'
    decreases n
  {
    if n < 10 then [DigitChar(n)] else Decimal(n / 10) + [DigitChar(n % 10)]
  }

  /** The integer a string of decimal digits denotes; the empty string denotes 0, as `(int) ""` does. */
  function DigitsValue(s: string): nat
    requires AllDigits(s)
  {
    if s == [] then 0
    else DigitsValue(s[..|s| - 1]) * 10 + (s[|s| - 1] as int - '0' as int)
  }

  /** Reading back what Decimal wrote gives the number again. */
  lemma {:induction false} DigitsValueOfDecimal(n: nat)
    ensures DigitsValue(Decimal(n)) == n
    decreases n
  {
    if n >= 10 {
      var prefix := Decimal(n / 10);
      assert (prefix + [DigitChar(n % 10)])[..|prefix|] == prefix;
      DigitsValueOfDecimal(n / 10);
    }
  }

  /** Decimal(n) has at most three characters exactly when n < 1000. */
  lemma DecimalShort(n: nat)
    ensures |Decimal(n)| <= 3 <==> n < 1000
  {
    if n >= 1000 {
      DecimalDropThree(n);
    } else if n >= 100 {
      assert n / 10 / 10 < 10;
      assert |Decimal(n / 10 / 10)| == 1;
      assert |Decimal(n / 10)| == 2;
    } else if n >= 10 {
      assert |Decimal(n / 10)| == 1;
    }
  }

  /**
   * Dropping the last three characters of Decimal(n) leaves Decimal(n / 1000):
   * PHP's `substr($n, 0, -3)` divides by 1000.
   */
  lemma DecimalDropThree(n: nat)
    requires n >= 1000
    ensures |Decimal(n)| == |Decimal(n / 1000)| + 3
    ensures Decimal(n)[..|Decimal(n)| - 3] == Decimal(n / 1000)
  {
    var a, b, c := n / 10, n / 100, n / 1000;
    assert n / 10 / 10 == b;
    assert n / 100 / 10 == c;
    assert a >= 100 && b >= 10;
    var top := Decimal(c);
    assert Decimal(b) == top + [DigitChar(b % 10)];
    assert Decimal(a) == top + [DigitChar(b % 10)] + [DigitChar(a % 10)];
    assert Decimal(n) == top + [DigitChar(b % 10)] + [DigitChar(a % 10)] + [DigitChar(n % 10)];
  }

  /** Appending "000" to Decimal(n) writes n * 1000, for every positive n. */
  lemma DecimalTimesThousand(n: nat)
    requires n >= 1
    ensures Decimal(n) + "000" == Decimal(n * 1000)
  {
    assert (n * 1000) / 10 == n * 100 && (n * 1000) % 10 == 0;
    assert (n * 100) / 10 == n * 10 && (n * 100) % 10 == 0;
    assert (n * 10) / 10 == n && (n * 10) % 10 == 0;
    assert DigitChar(0) == '0';
    assert Decimal(n * 10) == Decimal(n) + "0";
    assert Decimal(n * 100) == Decimal(n) + "0" + "0";
    assert Decimal(n * 1000) == Decimal(n) + "0" + "0" + "0";
  }

  /** Decimal(n) is ten characters long for ten-digit n, thirteen for thirteen-digit n. */
  lemma DecimalLength(n: nat, k: nat)
    requires k >= 1
    requires Pow10(k - 1) <= n < Pow10(k)
    ensures |Decimal(n)| == k
    decreases k
  {
    if k > 1 {
      assert Pow10(k - 1) == Pow10(k - 2) * 10;
      DecimalLength(n / 10, k - 1);
    }
  }

  function Pow10(k: nat): (p: nat)
    ensures p >= 1
  {
    if k == 0 then 1 else Pow10(k - 1) * 10
  }

  /** strtoupper on one byte: a-z become A-Z, everything else is kept. */
  function UpperChar(c: char): char {
    if IsLower(c) then (c as int - 32) as char else c
  }

  predicate IsLower(c: char) {
    'a' <= c <= 'z'
  }

  /**
   * strtoupper: no lower-case ASCII letter is left, each one becomes the
   * letter 32 code points below it, and every other character is kept.
   */
  function ToUpper(s: string): (u: string)
    ensures |u| == |s|
    ensures forall i :: 0 <= i < |u| ==> !IsLower(u[i])
    ensures forall i :: 0 <= i < |s| && IsLower(s[i]) ==> u[i] as int == s[i] as int - 32
    ensures forall i :: 0 <= i < |s| && !IsLower(s[i]) ==> u[i] == s[i]
  {
    seq(|s|, i requires 0 <= i < |s| => UpperChar(s[i]))
  }

  /** Upper-casing twice is upper-casing once. */
  lemma ToUpperIdempotent(s: string)
    ensures ToUpper(ToUpper(s)) == ToUpper(s)
  {
    var u := ToUpper(s);
    assert forall i :: 0 <= i < |u| ==> ToUpper(u)[i] == u[i];
  }

  /** The one lower-case letter strtoupper maps onto an upper-case letter is that letter's lower case. */
  lemma UpperCharIs(c: char, lower: char, upper: char)
    requires 'A' <= upper <= 'Z' && lower as int == upper as int + 32
    ensures UpperChar(c) == upper <==> c == lower || c == upper
  {
  }
}
