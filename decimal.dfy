/**
 * Decimal rendering of an integer, as Go's `fmt.Sprintf("%d", n)` writes an
 * `int`: the digits of |n| with no leading zeros, preceded by '-' when n is
 * negative. ParseDecimal is its inverse; the round trip is what makes the
 * status-code tag a faithful record of the response status.
 */
module Decimal {

  predicate IsDigit(c: char) {
    '0' <= c <= '9'
  }

  function DigitChar(d: nat): (c: char)
    requires d < 10
    ensures IsDigit(c)
    ensures c as int - '0' as int == d
  {
    ('0' as int + d) as char
  }

  function DigitValue(c: char): (d: nat)
    requires IsDigit(c)
    ensures d < 10
    ensures DigitChar(d) == c
  {
    c as int - '0' as int
  }

  /** True of a non-empty run of digits without a superfluous leading zero. */
  predicate IsCanonicalDigits(s: string) {
    |s| > 0 && (forall i :: 0 <= i < |s| ==> IsDigit(s[i])) && (s[0] == '0' ==> |s| == 1)
  }

  /** The decimal digits of a natural number, most significant first. */
  function NatDigits(n: nat): (s: string)
    ensures IsCanonicalDigits(s)
    decreases n
  {
    if n < 10 then [DigitChar(n)] else NatDigits(n / 10) + [DigitChar(n % 10)]
  }

  /** `fmt.Sprintf("%d", n)` for an `int` n. */
  function Render(n: int): (s: string)
    ensures |s| > 0
    ensures n < 0 <==> s[0] == '-'
    ensures n < 0 ==> IsCanonicalDigits(s[1..])
    ensures n >= 0 ==> IsCanonicalDigits(s)
  {
    if n < 0 then "-" + NatDigits(-n) else NatDigits(n)
  }

  /** The value of a run of decimal digits, most significant first. */
  function ParseDigits(s: string): nat
    requires forall i :: 0 <= i < |s| ==> IsDigit(s[i])
  {
    if s == [] then 0 else ParseDigits(s[..|s| - 1]) * 10 + DigitValue(s[|s| - 1])
  }

  /** The integer a string written by Render denotes. */
  function Parse(s: string): int
    requires |s| > 0
    requires s[0] == '-' ==> forall i :: 1 <= i < |s| ==> IsDigit(s[i])
    requires s[0] != '-' ==> forall i :: 0 <= i < |s| ==> IsDigit(s[i])
  {
    if s[0] == '-' then -(ParseDigits(s[1..]) as int) else ParseDigits(s)
  }

  lemma {:induction false} NatDigitsRoundTrip(n: nat)
    ensures ParseDigits(NatDigits(n)) == n
    decreases n
  {
    if n >= 10 {
      var s := NatDigits(n);
      NatDigitsRoundTrip(n / 10);
      assert s[..|s| - 1] == NatDigits(n / 10);
    }
  }

  /** Parsing a rendered integer gives the integer back. */
  lemma RenderRoundTrip(n: int)
    ensures Parse(Render(n)) == n
  {
    if n < 0 {
      NatDigitsRoundTrip(-n);
      assert Render(n)[1..] == NatDigits(-n);
    } else {
      NatDigitsRoundTrip(n);
    }
  }

  /** Two different integers never render to the same text. */
  lemma RenderInjective(a: int, b: int)
    ensures Render(a) == Render(b) <==> a == b
  {
    if Render(a) == Render(b) {
      RenderRoundTrip(a);
      RenderRoundTrip(b);
    }
  }
}
