/**
 * How JavaScript renders an integral number as text (`String(n)` and JSX
 * interpolation): an optional minus sign followed by the decimal digits,
 * most significant first, without leading zeros. `ParseInt` reads such a
 * text back and is the partner of `IntToText`.
 */
module Decimal {
  import opened Wrappers

  predicate IsDigit(c: char) {
    '0' <= c <= '9'
  }

  predicate AllDigits(s: string) {
    forall i :: 0 <= i < |s| ==> IsDigit(s[i])
  }

  function DigitValue(c: char): (d: nat)
    requires IsDigit(c)
    ensures d < 10
  {
    c as int - '0' as int
  }

  function DigitChar(d: nat): (c: char)
    requires d < 10
    ensures IsDigit(c) && DigitValue(c) == d
  {
    ('0' as int + d) as char
  }

  /** The decimal digits of `n`: at least one, and no leading zero unless `n` is 0. */
  function NatToDecimal(n: nat): (r: string)
    ensures 1 <= |r| && AllDigits(r)
    ensures |r| > 1 ==> r[0] != '0'
    decreases n
  {
    if n < 10 then [DigitChar(n)] else NatToDecimal(n / 10) + [DigitChar(n % 10)]
  }

  /** The number a string of decimal digits denotes. */
  function ValueOf(s: string): nat
    requires AllDigits(s)
    decreases |s|
  {
    if s == [] then 0 else ValueOf(s[..|s| - 1]) * 10 + DigitValue(s[|s| - 1])
  }

  lemma {:induction false} ValueOfNatToDecimal(n: nat)
    ensures ValueOf(NatToDecimal(n)) == n
    decreases n
  {
    if n >= 10 {
      var r := NatToDecimal(n);
      assert r[..|r| - 1] == NatToDecimal(n / 10);
      ValueOfNatToDecimal(n / 10);
    }
  }

  /**
   * The text JavaScript shows for the integral number `n`: a minus sign
   * exactly when `n` is negative, then one or more digits without a
   * leading zero unless the digits are just "0".
   */
  function IntToText(n: int): (r: string)
    ensures 1 <= |r| && IsDigit(r[|r| - 1])
    ensures r[0] == '-' <==> n < 0
    ensures n >= 0 ==> AllDigits(r) && (|r| > 1 ==> r[0] != '0')
    ensures n < 0 ==> 2 <= |r| && AllDigits(r[1..]) && (|r| > 2 ==> r[1] != '0')
  {
    if n < 0 then "-" + NatToDecimal(-n) else NatToDecimal(n)
  }

  /** Reads back an optional minus sign followed by one or more decimal digits. */
  function ParseInt(s: string): Option<int> {
    if 2 <= |s| && s[0] == '-' && AllDigits(s[1..]) then var v: int := ValueOf(s[1..]); Some(-v)
    else if 1 <= |s| && AllDigits(s) then Some(ValueOf(s))
    else None
  }

  lemma ParseIntToText(n: int)
    ensures ParseInt(IntToText(n)) == Some(n)
  {
    var r := IntToText(n);
    if n < 0 {
      assert r[1..] == NatToDecimal(-n);
      ValueOfNatToDecimal(-n);
    } else {
      ValueOfNatToDecimal(n);
    }
  }

  /** Distinct numbers are shown as distinct texts. */
  lemma IntToTextInjective(m: int, n: int)
    ensures IntToText(m) == IntToText(n) ==> m == n
  {
    ParseIntToText(m);
    ParseIntToText(n);
  }
}
