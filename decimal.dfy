/**
 * Decimal text of natural numbers, as Python's f-strings print an `int`
 * (`f'{i + 2}'`), and its inverse.
 */
module Decimal {

  predicate IsDigit(c: char) {
    '0' <= c <= '9'
  }

  predicate AllDigits(s: string) {
    forall j :: 0 <= j < |s| ==> IsDigit(s[j])
  }

  function DigitChar(d: nat): (c: char)
    requires d < 10
    ensures IsDigit(c) && c as int - '0' as int == d
  {
    ('0' as int + d) as char
  }

  function DigitValue(c: char): nat
    requires IsDigit(c)
  {
    c as int - '0' as int
  }

  /** The shortest decimal numeral of `k` (no leading zeros). */
  function FromNat(k: nat): (s: string)
    ensures |s| >= 1 && AllDigits(s)
    ensures |s| > 1 ==> s[0] != '0'
  {
    if k < 10 then [DigitChar(k)] else FromNat(k / 10) + [DigitChar(k % 10)]
  }

  /** The value of a numeral, read from its last digit backwards. */
  function ToNat(s: string): nat
    requires AllDigits(s)
  {
    if s == [] then 0 else ToNat(s[..|s| - 1]) * 10 + DigitValue(s[|s| - 1])
  }

  lemma {:induction false} RoundTrip(k: nat)
    ensures ToNat(FromNat(k)) == k
  {
    if k >= 10 {
      var s := FromNat(k);
      assert s[..|s| - 1] == FromNat(k / 10);
      RoundTrip(k / 10);
    }
  }
}
