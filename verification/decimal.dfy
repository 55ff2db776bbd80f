/**
 * Decimal rendering of non-negative integers, as Python's f-string `{n}` produces it,
 * and the parser that reads it back.
 */
module Decimal {
  import opened Options

  predicate IsDigit(c: char) {
    '0' <= c <= '9'
  }

  function DigitChar(d: nat): (c: char)
    requires d < 10
    ensures IsDigit(c)
  {
    ('0' as int + d) as char
  }

  function DigitValue(c: char): (d: nat)
    requires IsDigit(c)
    ensures d < 10
    ensures DigitChar(d) == c
  {
    c as int - '0' as int
  }

  /** The decimal digits of `n`, most significant first, with no sign and no leading zero. */
  function NatStr(n: nat): (s: string)
    ensures |s| > 0
    ensures forall i :: 0 <= i < |s| ==> IsDigit(s[i])
    ensures s[0] == '0' <==> n == 0
    decreases n
  {
    if n < 10 then [DigitChar(n)] else NatStr(n / 10) + [DigitChar(n % 10)]
  }

  /** The number of leading digit characters of `s`. */
  function LeadingDigits(s: string): (k: nat)
    ensures k <= |s|
    ensures forall i :: 0 <= i < k ==> IsDigit(s[i])
    ensures k < |s| ==> !IsDigit(s[k])
  {
    if |s| > 0 && IsDigit(s[0]) then 1 + LeadingDigits(s[1..]) else 0
  }

  /** The value of a string of decimal digits, most significant first. */
  function ValueOf(ds: string): nat
    requires forall i :: 0 <= i < |ds| ==> IsDigit(ds[i])
  {
    if |ds| == 0 then 0 else ValueOf(ds[..|ds| - 1]) * 10 + DigitValue(ds[|ds| - 1])
  }

  /** True when `s` does not continue with a digit, so a number read before it stops there. */
  predicate StopsNumber(s: string) {
    s == [] || !IsDigit(s[0])
  }

  /**
   * Reads the longest run of leading digits of `s` as a number and returns it with the
   * remainder; fails when `s` does not start with a digit.
   */
  function ParseNat(s: string): (r: Option<(nat, string)>)
    ensures r.Some? <==> |s| > 0 && IsDigit(s[0])
    ensures r.Some? ==> StopsNumber(r.value.1) && |r.value.1| < |s|
  {
    var k := LeadingDigits(s);
    if k == 0 then None else Some((ValueOf(s[..k]), s[k..]))
  }

  lemma {:induction false} LeadingDigitsOfNumber(ds: string, rest: string)
    requires forall i :: 0 <= i < |ds| ==> IsDigit(ds[i])
    requires StopsNumber(rest)
    ensures LeadingDigits(ds + rest) == |ds|
    decreases |ds|
  {
    if |ds| > 0 {
      assert (ds + rest)[1..] == ds[1..] + rest;
      LeadingDigitsOfNumber(ds[1..], rest);
    }
  }

  lemma {:induction false} ValueOfNatStr(n: nat)
    ensures ValueOf(NatStr(n)) == n
    decreases n
  {
    if n >= 10 {
      var s := NatStr(n);
      assert s[..|s| - 1] == NatStr(n / 10);
      ValueOfNatStr(n / 10);
    }
  }

  /** Reading back a rendered number, followed by anything that is not a digit, gives the number and that rest. */
  lemma ParseNatRoundTrip(n: nat, rest: string)
    requires StopsNumber(rest)
    ensures ParseNat(NatStr(n) + rest) == Some((n, rest))
  {
    var s := NatStr(n) + rest;
    LeadingDigitsOfNumber(NatStr(n), rest);
    assert s[..|NatStr(n)|] == NatStr(n);
    assert s[|NatStr(n)|..] == rest;
    ValueOfNatStr(n);
  }

  /** Distinct numbers never render to the same string. */
  lemma NatStrInjective(m: nat, n: nat)
    ensures NatStr(m) == NatStr(n) ==> m == n
  {
    ValueOfNatStr(m);
    ValueOfNatStr(n);
  }
}
