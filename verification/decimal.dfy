/**
 * Decimal rendering of amounts. `toFixed(2)` formats a JavaScript number
 * with two decimals; here an amount is a whole number of satang, so the
 * rendering is exact: the baht part in decimal without leading zeros, a
 * point, and exactly two digits of satang. A parser is the partner that
 * shows no two amounts render alike.
 */
module Decimal {
  import opened Types

  predicate IsDigit(c: char) {
    '0' <= c <= '9'
  }

  predicate AllDigits(s: string) {
    forall i :: 0 <= i < |s| ==> IsDigit(s[i])
  }

  function DigitChar(d: nat): (c: char)
    requires d < 10
    ensures IsDigit(c) && c as int - '0' as int == d
  {
    ('0' as int + d) as char
  }

  function DigitValue(c: char): (d: nat)
    requires IsDigit(c)
    ensures d < 10
  {
    c as int - '0' as int
  }

  /**
   * The decimal digits of `n`, as JavaScript writes an integer: at least
   * one digit, and no leading zero unless the number is zero itself.
   */
  function NatToDecimal(n: nat): (r: string)
    ensures |r| >= 1 && AllDigits(r)
    ensures |r| > 1 ==> r[0] != '0'
    ensures r[0] == '0' ==> n == 0
    decreases n
  {
    if n < 10 then [DigitChar(n)]
    else NatToDecimal(n / 10) + [DigitChar(n % 10)]
  }

  /** The number a string of decimal digits denotes. */
  function DigitsValue(s: string): nat
    requires AllDigits(s)
  {
    if s == [] then 0
    else DigitsValue(s[..|s| - 1]) * 10 + DigitValue(s[|s| - 1])
  }

  /** Reading back the digits of `n` gives `n`. */
  lemma {:induction false} DecimalRoundTrip(n: nat)
    ensures DigitsValue(NatToDecimal(n)) == n
    decreases n
  {
    var r := NatToDecimal(n);
    if n >= 10 {
      var hi := NatToDecimal(n / 10);
      assert r[..|r| - 1] == hi;
      DecimalRoundTrip(n / 10);
    }
  }

  /** `(satang / 100).toFixed(2)`. */
  function Fixed2(satang: nat): (r: string)
    ensures |r| >= 4
    ensures AllDigits(r[..|r| - 3])
    ensures r[|r| - 3] == '.'
    ensures AllDigits(r[|r| - 2..])
    ensures r[..|r| - 3] == NatToDecimal(satang / 100)
  {
    NatToDecimal(satang / 100) + "." + [DigitChar(satang % 100 / 10), DigitChar(satang % 10)]
  }

  /**
   * Reads a fixed-point rendering back as satang: digits, a point and
   * exactly two digits; anything else is `None`.
   */
  function ParseFixed2(s: string): Option<nat>
  {
    if |s| < 4 || s[|s| - 3] != '.' || !AllDigits(s[..|s| - 3]) ||
       !IsDigit(s[|s| - 2]) || !IsDigit(s[|s| - 1]) then None
    else Some(DigitsValue(s[..|s| - 3]) * 100 + DigitValue(s[|s| - 2]) * 10 + DigitValue(s[|s| - 1]))
  }

  /** Every amount renders to a string that reads back as that amount. */
  lemma Fixed2RoundTrip(satang: nat)
    ensures ParseFixed2(Fixed2(satang)) == Some(satang)
  {
    var r := Fixed2(satang);
    DecimalRoundTrip(satang / 100);
    assert r[|r| - 2] == DigitChar(satang % 100 / 10);
    assert r[|r| - 1] == DigitChar(satang % 10);
  }

  /** Two amounts render alike only when they are equal. */
  lemma Fixed2Injective(a: nat, b: nat)
    ensures Fixed2(a) == Fixed2(b) ==> a == b
  {
    Fixed2RoundTrip(a);
    Fixed2RoundTrip(b);
  }
}
