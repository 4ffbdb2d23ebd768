/** Decimal digit strings: how JavaScript writes an integer as text (`String(n)`),
    and the inverse reading used to state what such a text denotes. */
module Decimal {

  predicate IsDigit(c: char) {
    '0' <= c <= '9'
  }

  predicate AllDigits(s: string) {
    forall i :: 0 <= i < |s| ==> IsDigit(s[i])
  }

  /** The canonical form of a natural number: at least one digit, no leading zero. */
  predicate Canonical(s: string) {
    |s| >= 1 && AllDigits(s) && (|s| > 1 ==> s[0] != '0')
  }

  function DigitChar(d: nat): (c: char)
    requires d < 10
    ensures IsDigit(c)
  {
    (('0' as int) + d) as char
  }

  function DigitValue(c: char): (d: nat)
    requires IsDigit(c)
    ensures d < 10 && DigitChar(d) == c
  {
    (c as int) - ('0' as int)
  }

  function Pow10(k: nat): (p: nat)
    ensures p >= 1
  {
    if k == 0 then 1 else 10 * Pow10(k - 1)
  }

  /** `String(n)` for a non-negative integer below 10^21; from 10^21 on, JavaScript
      switches to exponent form ("1e+21"), which this does not produce. */
  function FromNat(n: nat): (s: string)
    ensures Canonical(s)
  {
    if n < 10 then [DigitChar(n)] else FromNat(n / 10) + [DigitChar(n % 10)]
  }

  /** `String(i)` for any integer: a minus sign before the magnitude when negative. */
  function FromInt(i: int): (s: string)
    ensures |s| >= 1
    ensures i < 0 <==> s[0] == '-'
  {
    if i < 0 then "-" + FromNat(-i) else FromNat(i)
  }

  /** The number a string of decimal digits denotes (the empty string denotes 0). */
  function Parse(s: string): nat
    requires AllDigits(s)
  {
    if s == [] then 0 else 10 * Parse(s[..|s| - 1]) + DigitValue(s[|s| - 1])
  }

  lemma {:induction false} ParseFromNat(n: nat)
    ensures Parse(FromNat(n)) == n
  {
    var s := FromNat(n);
    if n >= 10 {
      assert s[..|s| - 1] == FromNat(n / 10);
      ParseFromNat(n / 10);
    }
  }

  lemma {:induction false} ParsePositive(s: string)
    requires Canonical(s) && |s| > 1
    ensures Parse(s) >= 10
  {
    var init := s[..|s| - 1];
    assert init[0] == s[0];
    if |init| > 1 {
      ParsePositive(init);
    } else {
      assert Parse(init) == 10 * Parse(init[..0]) + DigitValue(init[0]);
      assert init[..0] == [];
    }
  }

  /** The other direction of the round trip: a canonical digit string is the text of its value. */
  lemma {:induction false} FromNatParse(s: string)
    requires Canonical(s)
    ensures FromNat(Parse(s)) == s
  {
    var init := s[..|s| - 1];
    if |s| == 1 {
      assert init == [];
    } else {
      ParsePositive(s);
      assert init[0] == s[0];
      assert Canonical(init);
      FromNatParse(init);
      var n := Parse(s);
      assert n / 10 == Parse(init) && n % 10 == DigitValue(s[|s| - 1]);
      assert s == init + [s[|s| - 1]];
    }
  }

  /** A number with k + 1 digits is written with exactly k + 1 characters. */
  lemma {:induction false} FromNatLength(n: nat, k: nat)
    requires Pow10(k) <= n < Pow10(k + 1)
    ensures |FromNat(n)| == k + 1
  {
    if k > 0 {
      assert Pow10(k) == 10 * Pow10(k - 1);
      assert Pow10(k + 1) == 10 * Pow10(k);
      FromNatLength(n / 10, k - 1);
    }
  }
}
