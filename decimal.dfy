/**
 * Decimal rendering of integers, as a JavaScript template literal renders an
 * integral number (`${n}`): an optional minus sign followed by the digits of
 * the magnitude, without leading zeros.
 */
module Decimal {

  predicate IsDigit(c: char) { '0' <= c <= '9' }

  function DigitChar(d: nat): (c: char)
    requires d < 10
    ensures IsDigit(c)
    ensures c as int - '0' as int == d
  {
    ('0' as int + d) as char
  }

  function DigitValue(c: char): (d: nat)
    requires IsDigit(c)
    ensures d < 10
  {
    c as int - '0' as int
  }

  predicate AllDigits(s: string) {
    forall i :: 0 <= i < |s| ==> IsDigit(s[i])
  }

  /** The digits of `n`, most significant first. */
  function RenderNat(n: nat): (s: string)
    ensures |s| >= 1 && AllDigits(s)
    ensures s[0] == '0' ==> n == 0
  {
    if n < 10 then [DigitChar(n)] else RenderNat(n / 10) + [DigitChar(n % 10)]
  }

  /** How a JavaScript template literal shows an integral number. */
  function RenderInt(n: int): (s: string)
    ensures |s| >= 1
  {
    if n < 0 then "-" + RenderNat(-n) else RenderNat(n)
  }

  /** The value of a string of digits (the inverse of RenderNat). */
  function ParseNat(s: string): (n: nat)
    requires AllDigits(s)
  {
    if s == [] then 0 else 10 * ParseNat(s[..|s| - 1]) + DigitValue(s[|s| - 1])
  }

  /** The value of an optional minus sign followed by digits. */
  function ParseInt(s: string): int
    requires |s| >= 1
    requires if s[0] == '-' then AllDigits(s[1..]) else AllDigits(s)
  {
    if s[0] == '-' then -(ParseNat(s[1..]) as int) else ParseNat(s)
  }

  /** Reading back the digits of a natural number gives the number. */
  lemma {:induction false} ParseRenderNat(n: nat)
    ensures ParseNat(RenderNat(n)) == n
  {
    var s := RenderNat(n);
    if n >= 10 {
      ParseRenderNat(n / 10);
      assert s[..|s| - 1] == RenderNat(n / 10);
    }
  }

  /** Reading back the rendering of an integer gives the integer. */
  lemma ParseRenderInt(n: int)
    ensures var s := RenderInt(n);
      (if s[0] == '-' then AllDigits(s[1..]) else AllDigits(s)) && ParseInt(s) == n
  {
    if n < 0 {
      assert RenderInt(n)[1..] == RenderNat(-n);
      ParseRenderNat(-n);
    } else {
      ParseRenderNat(n);
    }
  }

  /** Distinct numbers never render to the same string. */
  lemma RenderIntInjective(a: int, b: int)
    ensures RenderInt(a) == RenderInt(b) ==> a == b
  {
    ParseRenderInt(a);
    ParseRenderInt(b);
  }
}
