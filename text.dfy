/**
 * Decimal rendering of integers, as Java's String.valueOf(int) and
 * String.valueOf(long) produce it: an optional '-' followed by the digits of
 * the magnitude, without leading zeros.  The query builder passes every
 * numeric argument through this rendering before it becomes a positional
 * argument.
 */
module Text {

  predicate IsDigit(c: char) {
    '0' <= c <= '9'
  }

  function DigitChar(d: nat): (c: char)
    requires d < 10
    ensures IsDigit(c)
  {
    (48 + d) as char
  }

  function DigitOf(c: char): (d: nat)
    requires IsDigit(c)
    ensures d < 10 && DigitChar(d) == c
  {
    c as int - '0' as int
  }

  /** The digits of a natural number, most significant first. */
  function Digits(n: nat): (s: string)
    ensures |s| >= 1
    ensures forall i :: 0 <= i < |s| ==> IsDigit(s[i])
    ensures s[0] == '0' ==> n == 0
  {
    if n < 10 then [DigitChar(n)] else Digits(n / 10) + [DigitChar(n % 10)]
  }

  /** String.valueOf for an integer of any width. */
  function ValueOf(n: int): (s: string)
    ensures |s| >= 1
    ensures n >= 0 <==> IsDigit(s[0])
    ensures n < 0 ==> s[0] == '-'
    ensures forall i :: 0 < i < |s| ==> IsDigit(s[i])
  {
    if n < 0 then "-" + Digits(-n) else Digits(n)
  }

  /** Reads a string of digits back as a number: the inverse of Digits. */
  function DigitsValue(s: string): nat
    requires forall i :: 0 <= i < |s| ==> IsDigit(s[i])
  {
    if s == [] then 0 else DigitsValue(s[..|s| - 1]) * 10 + DigitOf(s[|s| - 1])
  }

  /** Reads back what ValueOf produced. */
  function ParseInt(s: string): int
    requires |s| >= 1
    requires s[0] == '-' || IsDigit(s[0])
    requires forall i :: 0 < i < |s| ==> IsDigit(s[i])
  {
    if s[0] == '-' then -(DigitsValue(s[1..]) as int) else DigitsValue(s)
  }

  lemma {:induction false} DigitsRoundTrip(n: nat)
    ensures DigitsValue(Digits(n)) == n
  {
    if n >= 10 {
      DigitsRoundTrip(n / 10);
      var s := Digits(n);
      assert s[..|s| - 1] == Digits(n / 10);
    }
  }

  /** Parsing the rendering gives the number back. */
  lemma ValueOfRoundTrip(n: int)
    ensures ParseInt(ValueOf(n)) == n
  {
    if n < 0 {
      DigitsRoundTrip(-n);
      assert ValueOf(n)[1..] == Digits(-n);
    } else {
      DigitsRoundTrip(n);
    }
  }

  /** Distinct numbers give distinct argument strings. */
  lemma ValueOfInjective(m: int, n: int)
    requires m != n
    ensures ValueOf(m) != ValueOf(n)
  {
    ValueOfRoundTrip(m);
    ValueOfRoundTrip(n);
  }

  /** The two bounds of the failed-status range render as "400" and "600". */
  lemma FailedBoundsText()
    ensures ValueOf(400) == "400" && ValueOf(600) == "600"
  {
    assert Digits(4) == "4" && Digits(6) == "6";
    assert Digits(40) == "40" && Digits(60) == "60";
  }
}
