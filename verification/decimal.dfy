/**
 * The decimal rendering of an integer, as Java's String.valueOf(int) writes
 * it: an optional minus sign, then digits with no leading zero except for
 * zero itself. Parsing gives the number back.
 */
module Decimal {

  predicate IsDigit(c: char)
  {
    '0' <= c <= '9'
  }

  function DigitChar(d: nat): (c: char)
    requires d < 10
    ensures IsDigit(c) && c as int - '0' as int == d
  {
    (d + '0' as int) as char
  }

  function DigitValue(c: char): (d: nat)
    requires IsDigit(c)
    ensures d < 10
  {
    c as int - '0' as int
  }

  predicate AllDigits(s: string)
  {
    forall i :: 0 <= i < |s| ==> IsDigit(s[i])
  }

  /** The digits of n, most significant first. */
  function NatToDecimal(n: nat): string
    decreases n
  {
    if n < 10 then [DigitChar(n)] else NatToDecimal(n / 10) + [DigitChar(n % 10)]
  }

  function IntToDecimal(n: int): string
  {
    if n < 0 then "-" + NatToDecimal(-n) else NatToDecimal(n)
  }

  /** The value of a string of digits, read most significant first. */
  function ParseDigits(s: string): nat
    requires AllDigits(s)
  {
    if s == [] then 0 else ParseDigits(s[..|s| - 1]) * 10 + DigitValue(s[|s| - 1])
  }

  /** Well-formed decimal text: an optional minus sign then at least one digit. */
  predicate IsDecimal(s: string)
  {
    if |s| > 0 && s[0] == '-' then |s| > 1 && AllDigits(s[1..]) else |s| > 0 && AllDigits(s)
  }

  /** The text String.valueOf writes: no leading zero except for zero itself, and no "-0". */
  predicate IsCanonical(s: string)
    requires IsDecimal(s)
  {
    (s[0] == '0' ==> s == "0") && (s[0] == '-' ==> s[1] != '0')
  }

  function ParseDecimal(s: string): int
    requires IsDecimal(s)
  {
    if s[0] == '-' then 0 - ParseDigits(s[1..]) as int else ParseDigits(s)
  }

  /** The digits of n are non-empty, have no leading zero unless n is zero, and read back as n. */
  lemma {:induction false} NatToDecimalRoundTrip(n: nat)
    ensures AllDigits(NatToDecimal(n)) && |NatToDecimal(n)| > 0
    ensures NatToDecimal(n)[0] == '0' ==> n == 0
    ensures ParseDigits(NatToDecimal(n)) == n
  {
    if n >= 10 {
      NatToDecimalRoundTrip(n / 10);
      var s := NatToDecimal(n);
      assert s[..|s| - 1] == NatToDecimal(n / 10);
      assert s[0] == NatToDecimal(n / 10)[0];
    }
  }

  /** Rendering then parsing any integer gives it back. */
  lemma IntToDecimalRoundTrip(n: int)
    ensures IsDecimal(IntToDecimal(n)) && IsCanonical(IntToDecimal(n))
    ensures ParseDecimal(IntToDecimal(n)) == n
  {
    if n < 0 {
      NatToDecimalRoundTrip(-n);
      assert IntToDecimal(n)[1..] == NatToDecimal(-n);
      assert IntToDecimal(n)[1] == NatToDecimal(-n)[0];
    } else {
      NatToDecimalRoundTrip(n);
    }
  }

  /** Digits that do not start with zero denote a positive number. */
  lemma {:induction false} LeadingDigitPositive(p: string)
    requires AllDigits(p) && |p| > 0 && p[0] != '0'
    ensures ParseDigits(p) > 0
    decreases |p|
  {
    if |p| > 1 {
      var q := p[..|p| - 1];
      assert q[0] == p[0];
      LeadingDigitPositive(q);
    }
  }

  /** Digits with no leading zero (other than "0" itself) are the rendering of their value. */
  lemma {:induction false} DigitsAreRendering(s: string)
    requires AllDigits(s) && |s| > 0 && (s[0] == '0' ==> s == "0")
    ensures NatToDecimal(ParseDigits(s)) == s
    decreases |s|
  {
    var q := s[..|s| - 1];
    var d := DigitValue(s[|s| - 1]);
    assert ParseDigits(s) == ParseDigits(q) * 10 + d;
    if |s| == 1 {
      assert q == [];
      assert DigitChar(d) == s[0];
    } else {
      assert q[0] == s[0];
      LeadingDigitPositive(q);
      DigitsAreRendering(q);
      var n := ParseDigits(s);
      assert n / 10 == ParseDigits(q) && n % 10 == d;
      assert DigitChar(d) == s[|s| - 1];
      assert s == q + [s[|s| - 1]];
    }
  }

  /** Canonical decimal text is the one rendering of the integer it denotes: rendering is onto it. */
  lemma CanonicalIsRendering(s: string)
    requires IsDecimal(s) && IsCanonical(s)
    ensures IntToDecimal(ParseDecimal(s)) == s
  {
    if s[0] == '-' {
      var t := s[1..];
      assert t[0] == s[1];
      LeadingDigitPositive(t);
      DigitsAreRendering(t);
      assert s == "-" + t;
    } else {
      DigitsAreRendering(s);
    }
  }
}
