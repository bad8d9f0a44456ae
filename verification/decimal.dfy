/** Decimal text of integers, as Python's `str(int)` and the zero-padded
    two-digit fields of `strftime('%y%m%d')` produce it. */
module Decimal {

  predicate IsDigit(c: char)
  {
    '0' <= c <= '9'
  }

  predicate AllDigits(s: string)
  {
    forall i :: 0 <= i < |s| ==> IsDigit(s[i])
  }

  function DigitChar(n: int): (c: char)
    requires 0 <= n <= 9
    ensures IsDigit(c)
  {
    (48 + n) as char
  }

  function DigitValue(c: char): int
    requires IsDigit(c)
  {
    c as int - 48
  }

  /** `str(n)` for a non-negative integer: no sign and no leading zero. */
  function NatDigits(n: nat): (s: string)
    ensures |s| >= 1 && AllDigits(s)
    ensures s[0] == '0' ==> n == 0
    decreases n
  {
    if n < 10 then [DigitChar(n)] else NatDigits(n / 10) + [DigitChar(n % 10)]
  }

  /** The value a string of digits denotes (the inverse of NatDigits). */
  function DigitsValue(s: string): nat
    requires AllDigits(s)
  {
    if |s| == 0 then 0 else DigitsValue(s[..|s| - 1]) * 10 + DigitValue(s[|s| - 1])
  }

  /** Reading back the digits of `n` gives `n`. */
  lemma {:induction false} NatDigitsRoundTrip(n: nat)
    ensures DigitsValue(NatDigits(n)) == n
  {
    if n >= 10 {
      var s := NatDigits(n);
      assert s[..|s| - 1] == NatDigits(n / 10);
      NatDigitsRoundTrip(n / 10);
    }
  }

  /** Python's `str(n)` for any integer. */
  function IntToDecimal(n: int): (s: string)
  {
    if n < 0 then "-" + NatDigits(-n) else NatDigits(n)
  }

  /** Distinct integers have distinct decimal texts. */
  lemma IntToDecimalInjective(a: int, b: int)
    requires IntToDecimal(a) == IntToDecimal(b)
    ensures a == b
  {
    if a < 0 && b < 0 {
      assert NatDigits(-a) == IntToDecimal(a)[1..] == NatDigits(-b);
      NatDigitsRoundTrip(-a);
      NatDigitsRoundTrip(-b);
    } else if a >= 0 && b >= 0 {
      NatDigitsRoundTrip(a);
      NatDigitsRoundTrip(b);
    }
  }

  /** A zero-padded two-digit field (`%y`, `%m`, `%d`): the value modulo 100. */
  function TwoDigits(n: int): (s: string)
    ensures |s| == 2 && AllDigits(s)
    ensures DigitsValue(s) == n % 100
  {
    var tens, units := n % 100 / 10, n % 10;
    var s := [DigitChar(tens), DigitChar(units)];
    assert s[..1] == [DigitChar(tens)] && [DigitChar(tens)][..0] == [];
    assert DigitsValue([DigitChar(tens)]) == tens;
    assert DigitsValue(s) == tens * 10 + units;
    assert n % 100 % 10 == units;
    s
  }
}
