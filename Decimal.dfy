/** Decimal rendering of integers, as JavaScript's string concatenation
    (`"salary >= " + 100`, `"$" + (n + 1)`) writes an integral number,
    and the parse that reads it back. */
module Decimal {

  predicate IsDigit(c: char) {
    '0' <= c <= '9'
  }

  predicate AllDigits(s: string) {
    forall i :: 0 <= i < |s| ==> IsDigit(s[i])
  }

  function DigitChar(d: nat): (c: char)
    requires d < 10
    ensures IsDigit(c) && c as int - '0' as int == d
  {
    (d + '0' as int) as char
  }

  function DigitValue(c: char): (d: nat)
    requires IsDigit(c)
    ensures d < 10 && DigitChar(d) == c
  {
    c as int - '0' as int
  }

  /** The canonical decimal numeral of `n`: digits only, no leading zero. */
  function NatToString(n: nat): (s: string)
    ensures |s| > 0 && AllDigits(s)
    ensures |s| > 1 ==> s[0] != '0'
    decreases n
  {
    if n < 10 then [DigitChar(n)] else NatToString(n / 10) + [DigitChar(n % 10)]
  }

  /** The value of a string of decimal digits, most significant first (a
      character that is not a digit counts as zero). */
  function ParseDigits(s: string): nat {
    if s == [] then 0
    else ParseDigits(s[..|s| - 1]) * 10 + (if IsDigit(s[|s| - 1]) then DigitValue(s[|s| - 1]) else 0)
  }

  /** A numeral as NatToString produces it: non-empty, digits only, no leading zero. */
  predicate IsCanonical(s: string) {
    |s| > 0 && AllDigits(s) && (|s| > 1 ==> s[0] != '0')
  }

  /** An integer as JavaScript writes it: a minus sign before a negative number's magnitude. */
  function IntToString(i: int): (s: string)
    ensures |s| > 0
    ensures i >= 0 <==> IsDigit(s[0])
    ensures i >= 0 ==> IsCanonical(s)
    ensures i < 0 ==> s[0] == '-' && IsCanonical(s[1..]) && s[1..] != "0"
  {
    if i < 0 then "-" + NatToString(-i) else NatToString(i)
  }

  /** A signed numeral as IntToString produces it: a canonical numeral, or a minus
      sign before a canonical numeral other than zero. */
  predicate IsCanonicalInt(s: string) {
    IsCanonical(s) || (|s| > 1 && s[0] == '-' && IsCanonical(s[1..]) && s[1..] != "0")
  }

  /** The value of an optionally signed numeral. */
  function ParseInt(s: string): int {
    if |s| > 0 && s[0] == '-' then 0 - ParseDigits(s[1..]) else ParseDigits(s)
  }

  /** Reading a rendered natural number back gives the number. */
  lemma {:induction false} ParseNatToString(n: nat)
    ensures ParseDigits(NatToString(n)) == n
    decreases n
  {
    if n >= 10 {
      var s := NatToString(n);
      ParseNatToString(n / 10);
      assert s[..|s| - 1] == NatToString(n / 10);
    }
  }

  /** A numeral whose first digit is not zero denotes a positive number. */
  lemma {:induction false} ParseLeadingNonZero(s: string)
    requires |s| > 0 && AllDigits(s) && s[0] != '0'
    ensures ParseDigits(s) > 0
    decreases |s|
  {
    if |s| > 1 {
      ParseLeadingNonZero(s[..|s| - 1]);
    }
  }

  /** Rendering a parsed canonical numeral gives the numeral back: NatToString and
      ParseDigits are inverse bijections between naturals and canonical numerals. */
  lemma {:induction false} NatToStringParse(s: string)
    requires IsCanonical(s)
    ensures NatToString(ParseDigits(s)) == s
    decreases |s|
  {
    var p, c := s[..|s| - 1], s[|s| - 1];
    if |s| > 1 {
      assert p[0] == s[0];
      ParseLeadingNonZero(p);
      NatToStringParse(p);
      var n := ParseDigits(s);
      assert n / 10 == ParseDigits(p) && n % 10 == DigitValue(c);
      assert s == p + [c];
    }
  }

  /** Reading a rendered integer back gives the integer. */
  lemma {:induction false} IntRoundTrip(i: int)
    ensures ParseInt(IntToString(i)) == i
  {
    if i < 0 {
      ParseNatToString(-i);
      assert IntToString(i)[1..] == NatToString(-i);
    } else {
      ParseNatToString(i);
    }
  }

  /** A non-zero canonical numeral has no leading zero, so its value is positive. */
  lemma NonZeroCanonicalPositive(m: string)
    requires IsCanonical(m) && m != "0"
    ensures ParseDigits(m) > 0
  {
    assert m[0] != '0' by {
      if |m| == 1 { assert m == [m[0]]; }
    }
    ParseLeadingNonZero(m);
  }

  /** Rendering the value of a canonical signed numeral gives the numeral back, so
      IntToString and ParseInt are inverse bijections between integers and
      canonical signed numerals. */
  lemma {:induction false} IntToStringParse(s: string)
    requires IsCanonicalInt(s)
    ensures IntToString(ParseInt(s)) == s
  {
    if s[0] == '-' {
      var m := s[1..];
      var p: int := ParseDigits(m);
      NatToStringParse(m);
      NonZeroCanonicalPositive(m);
      assert ParseInt(s) == -p;
      assert s == "-" + m;
    } else {
      NatToStringParse(s);
    }
  }
}
