/** Decimal rendering of integers, as Python's built-in `str` does it for an
    `int`: an optional minus sign followed by the digits of the magnitude,
    most significant first, without leading zeros. The rendering here has no
    length limit; CPython's limit on the number of digits `str` will produce
    is checked by its caller (`Alpha.MAX_STR_DIGITS`). `ParseInt` reads such
    a string back: it is a left inverse of `IntToString`. */
module Decimal {

  predicate IsDigit(c: char) {
    '0' <= c <= '9'
  }

  predicate AllDigits(s: string) {
    forall i :: 0 <= i < |s| ==> IsDigit(s[i])
  }

  /** The strings `ParseInt` reads: an optional minus sign, then digits. */
  predicate IsIntString(s: string) {
    && |s| >= 1
    && (s[0] == '-' ==> AllDigits(s[1..]))
    && (s[0] != '-' ==> AllDigits(s))
  }

  function DigitValue(c: char): (d: nat)
    requires IsDigit(c)
    ensures d < 10
  {
    (c as int) - ('0' as int)
  }

  function DigitChar(d: nat): (c: char)
    requires d < 10
    ensures IsDigit(c) && DigitValue(c) == d
  {
    (('0' as int) + d) as char
  }

  /** The digits of `n`, most significant first. */
  function NatToString(n: nat): (s: string)
    ensures |s| >= 1 && AllDigits(s)
    ensures |s| == 1 <==> n < 10
    ensures s[0] == '0' <==> n == 0
  {
    if n < 10 then [DigitChar(n)]
    else NatToString(n / 10) + [DigitChar(n % 10)]
  }

  /** Python's `str(i)` for an int `i`, within CPython's digit limit. */
  function IntToString(i: int): (s: string)
    ensures IsIntString(s)
    ensures i >= 0 ==> AllDigits(s)
    ensures i > 0 ==> s[0] != '0'
    ensures i < 0 ==> |s| >= 2 && s[0] == '-' && AllDigits(s[1..]) && s[1] != '0'
  {
    if i < 0 then "-" + NatToString(-i) else NatToString(i)
  }

  /** The value of a string of decimal digits (the empty string reads as 0). */
  function ParseNat(s: string): (n: nat)
    requires AllDigits(s)
  {
    if s == [] then 0
    else ParseNat(s[..|s| - 1]) * 10 + DigitValue(s[|s| - 1])
  }

  /** The value of a string `IntToString` may produce. */
  function ParseInt(s: string): (i: int)
    requires IsIntString(s)
  {
    if s[0] == '-' then -(ParseNat(s[1..]) as int) else ParseNat(s)
  }

  function Pow10(k: nat): (p: nat)
    ensures p >= 1
  {
    if k == 0 then 1 else 10 * Pow10(k - 1)
  }

  /** `n` has at most `k` digits exactly when it is below 10^k (for k >= 1;
      zero has the one digit "0"). */
  lemma {:induction false} NatToStringLength(n: nat, k: nat)
    requires k >= 1
    ensures |NatToString(n)| <= k <==> n < Pow10(k)
  {
    if n >= 10 {
      assert Pow10(1) == 10;
      if k >= 2 {
        NatToStringLength(n / 10, k - 1);
        assert n / 10 < Pow10(k - 1) <==> n < 10 * Pow10(k - 1);
      } else {
        assert |NatToString(n)| == |NatToString(n / 10)| + 1;
      }
    } else {
      PowMonotone(k);
    }
  }

  lemma PowMonotone(k: nat)
    requires k >= 1
    ensures Pow10(k) >= 10
  {
  }

  lemma {:induction false} ParseNatToString(n: nat)
    ensures ParseNat(NatToString(n)) == n
  {
    var s := NatToString(n);
    if n >= 10 {
      var front := NatToString(n / 10);
      assert s == front + [DigitChar(n % 10)];
      assert s[..|s| - 1] == front;
      ParseNatToString(n / 10);
    }
  }

  /** `str` on integers is undone by `ParseInt`, so distinct integers have
      distinct renderings. */
  lemma ParseIntToString(i: int)
    ensures ParseInt(IntToString(i)) == i
  {
    if i < 0 {
      assert IntToString(i)[1..] == NatToString(-i);
      ParseNatToString(-i);
    } else {
      ParseNatToString(i);
    }
  }

  lemma IntToStringInjective(i: int, j: int)
    requires IntToString(i) == IntToString(j)
    ensures i == j
  {
    ParseIntToString(i);
    ParseIntToString(j);
  }
}
