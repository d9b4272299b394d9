/**
 * The two Python number conversions the pipeline relies on: `int()` applied
 * to a float, which truncates toward zero, and the decimal rendering of an
 * integer inside an f-string (`f"class_{class_id}"`), together with a parser
 * that inverts it.
 */
module Numeric {
  import opened Wrappers

  /** Python's `int(x)` for a float `x`: the integer part, rounded toward zero. */
  function Trunc(x: real): int {
    if x >= 0.0 then x.Floor else -((-x).Floor)
  }

  /** The result is the integer next to `x` on the side of zero. */
  lemma TruncTowardZero(x: real)
    ensures 0.0 <= x ==> Trunc(x) as real <= x < Trunc(x) as real + 1.0
    ensures x < 0.0 ==> Trunc(x) as real - 1.0 < x <= Trunc(x) as real
  {
  }

  /** Truncation is symmetric about zero, which `Floor` is not. */
  lemma TruncOdd(x: real)
    ensures Trunc(-x) == -Trunc(x)
  {
  }

  /** On a negative non-integer, truncation and `Floor` differ by one. */
  lemma TruncIsNotFloor()
    ensures Trunc(-2.5) == -2 && (-2.5).Floor == -3
  {
  }

  predicate IsDigit(c: char) {
    '0' <= c <= '9'
  }

  predicate AllDigits(s: string) {
    forall i :: 0 <= i < |s| ==> IsDigit(s[i])
  }

  function DigitChar(d: nat): (c: char)
    requires d < 10
    ensures IsDigit(c) && c as int - '0' as int == d
  {
    ('0' as int + d) as char
  }

  function DigitValue(c: char): (d: nat)
    requires IsDigit(c)
    ensures d < 10
  {
    c as int - '0' as int
  }

  /** The decimal digits of `n`, most significant first. */
  function NatToDecimal(n: nat): string
    decreases n
  {
    if n < 10 then [DigitChar(n)] else NatToDecimal(n / 10) + [DigitChar(n % 10)]
  }

  /** Python's `str(n)` for an integer: a minus sign before the digits of `-n` when `n` is negative. */
  function IntToDecimal(n: int): string {
    if n < 0 then "-" + NatToDecimal(-n) else NatToDecimal(n)
  }

  /** The value of a string of decimal digits. */
  function DigitsValue(s: string): nat
    requires AllDigits(s)
  {
    if s == [] then 0 else DigitsValue(s[..|s| - 1]) * 10 + DigitValue(s[|s| - 1])
  }

  /** Reads an optionally negative decimal integer; `None` for anything else. */
  function ParseInt(s: string): Option<int> {
    if 2 <= |s| && s[0] == '-' && AllDigits(s[1..]) then Some(-(DigitsValue(s[1..]) as int))
    else if 1 <= |s| && AllDigits(s) then Some(DigitsValue(s))
    else None
  }

  /** The rendering is a non-empty string of digits without a leading zero. */
  lemma {:induction false} NatToDecimalDigits(n: nat)
    ensures var s := NatToDecimal(n); 1 <= |s| && AllDigits(s) && (1 < |s| ==> s[0] != '0')
    decreases n
  {
    if n >= 10 {
      NatToDecimalDigits(n / 10);
      var s := NatToDecimal(n / 10);
      assert NatToDecimal(n) == s + [DigitChar(n % 10)];
      assert NatToDecimal(n)[0] == s[0];
    }
  }

  /** The rendering is non-empty and starts with a minus sign exactly for a negative integer. */
  lemma DecimalSign(n: int)
    ensures 1 <= |IntToDecimal(n)|
    ensures (IntToDecimal(n)[0] == '-') <==> (n < 0)
  {
    NatToDecimalDigits(if n < 0 then -n else n);
    if n < 0 {
      assert IntToDecimal(n)[0] == '-';
    } else {
      assert IsDigit(IntToDecimal(n)[0]);
    }
  }

  lemma {:induction false} NatRoundTrip(n: nat)
    ensures AllDigits(NatToDecimal(n)) && DigitsValue(NatToDecimal(n)) == n
    decreases n
  {
    NatToDecimalDigits(n);
    if n >= 10 {
      var s := NatToDecimal(n / 10);
      var t := s + [DigitChar(n % 10)];
      assert t[..|t| - 1] == s;
      NatRoundTrip(n / 10);
    }
  }

  /** Reading back the decimal rendering of any integer gives that integer. */
  lemma DecimalRoundTrip(n: int)
    ensures ParseInt(IntToDecimal(n)) == Some(n)
  {
    if n < 0 {
      var s := IntToDecimal(n);
      assert s[1..] == NatToDecimal(-n);
      NatRoundTrip(-n);
      NatToDecimalDigits(-n);
    } else {
      NatRoundTrip(n);
    }
  }

  /** Distinct integers have distinct decimal renderings. */
  lemma DecimalInjective(a: int, b: int)
    requires IntToDecimal(a) == IntToDecimal(b)
    ensures a == b
  {
    DecimalRoundTrip(a);
    DecimalRoundTrip(b);
  }
}
