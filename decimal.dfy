/** Decimal text of integers, as JavaScript's String(n) writes it, and its inverse. */
module Decimal {
  import opened Wrappers

  predicate IsDigit(c: char) { '0' <= c <= '9' }

  predicate AllDigits(s: string) { forall i :: 0 <= i < |s| ==> IsDigit(s[i]) }

  function DigitChar(d: nat): (c: char)
    requires d < 10
    ensures IsDigit(c)
  {
    (48 + d) as char
  }

  function DigitValue(c: char): (d: nat)
    requires IsDigit(c)
    ensures d < 10
  {
    c as int - 48
  }

  /** The number a digit string denotes, most significant digit first. */
  function DigitsValue(s: string): nat
    requires AllDigits(s)
    decreases |s|
  {
    if s == [] then 0 else 10 * DigitsValue(s[..|s| - 1]) + DigitValue(s[|s| - 1])
  }

  /** String(n) for a non-negative integer: the shortest digit string denoting n. */
  function NatToString(n: nat): (r: string)
    ensures |r| >= 1 && AllDigits(r)
    ensures DigitsValue(r) == n
    ensures |r| > 1 ==> r[0] != '0'
    decreases n
  {
    if n < 10 then [DigitChar(n)]
    else
      var front := NatToString(n / 10);
      var r := front + [DigitChar(n % 10)];
      assert r[..|r| - 1] == front;
      r
  }

  /** String(i) for any integer: a leading '-' exactly for negative numbers, then the digits of |i|. */
  function IntToString(i: int): (r: string)
    ensures |r| >= 1
    ensures r[0] == '-' <==> i < 0
    ensures i >= 0 ==> AllDigits(r) && DigitsValue(r) == i
    ensures i < 0 ==> |r| >= 2 && AllDigits(r[1..]) && DigitsValue(r[1..]) == -i
  {
    if i < 0 then "-" + NatToString(-i) else NatToString(i)
  }

  lemma {:induction false} NatToStringLength(n: nat)
    ensures n < 10 ==> |NatToString(n)| == 1
    ensures 10 <= n < 100 ==> |NatToString(n)| == 2
    ensures 100 <= n < 1000 ==> |NatToString(n)| == 3
    ensures 1000 <= n < 10000 ==> |NatToString(n)| == 4
    decreases n
  {
    if n >= 10 {
      NatToStringLength(n / 10);
    }
  }

  /** A canonical array index: digits only, and no leading zero unless the text is "0". */
  predicate IsCanonicalIndex(key: string) {
    |key| >= 1 && AllDigits(key) && (|key| == 1 || key[0] != '0')
  }

  /** The array index a property key denotes, if it denotes one. */
  function ParseIndex(key: string): (r: Option<nat>)
    ensures r.Some? <==> IsCanonicalIndex(key)
  {
    if IsCanonicalIndex(key) then Some(DigitsValue(key)) else None
  }

  lemma {:induction false} LeadingDigitPositive(s: string)
    requires |s| >= 1 && AllDigits(s) && s[0] != '0'
    ensures DigitsValue(s) >= 1
  {
    if |s| > 1 {
      LeadingDigitPositive(s[..|s| - 1]);
    }
  }

  /** Canonical index keys and decimal text are the same thing: String(n) parses back to n ... */
  lemma ParseIndexOfNatToString(n: nat)
    ensures ParseIndex(NatToString(n)) == Some(n)
  {
  }

  /** ... and every key that parses to n is String(n). */
  lemma {:induction false} CanonicalIndexIsNatToString(key: string)
    requires IsCanonicalIndex(key)
    ensures NatToString(DigitsValue(key)) == key
    decreases |key|
  {
    if |key| > 1 {
      var front := key[..|key| - 1];
      LeadingDigitPositive(front);
      CanonicalIndexIsNatToString(front);
      var n := DigitsValue(key);
      assert n / 10 == DigitsValue(front) && n % 10 == DigitValue(key[|key| - 1]);
      assert DigitChar(n % 10) == key[|key| - 1];
      assert key == front + [key[|key| - 1]];
    }
  }
}
