/** Decimal digit strings: the digits of dates and of amounts of money. */
module Numerals {

  import Text

  predicate IsDigit(c: char)
  {
    '0' <= c <= '9'
  }

  predicate AllDigits(s: string)
  {
    forall i :: 0 <= i < |s| ==> IsDigit(s[i])
  }

  function DigitValue(c: char): (d: nat)
    requires IsDigit(c)
    ensures d < 10
  {
    c as int - '0' as int
  }

  function DigitChar(d: nat): (c: char)
    requires d < 10
    ensures IsDigit(c) && DigitValue(c) == d
  {
    ('0' as int + d) as char
  }

  function Pow10(n: nat): (p: nat)
    ensures p >= 1
  {
    if n == 0 then 1 else 10 * Pow10(n - 1)
  }

  /** The number a digit string denotes, most significant digit first. */
  function DigitsValue(s: string): nat
    requires AllDigits(s)
  {
    if s == [] then 0 else DigitValue(s[0]) * Pow10(|s| - 1) + DigitsValue(s[1..])
  }

  lemma {:induction false} DigitsValueBound(s: string)
    requires AllDigits(s)
    ensures DigitsValue(s) < Pow10(|s|)
  {
    if s != [] {
      DigitsValueBound(s[1..]);
      BoundStep(DigitValue(s[0]), Pow10(|s| - 1), DigitsValue(s[1..]));
    }
  }

  lemma BoundStep(d: nat, p: nat, r: nat)
    requires d <= 9 && r < p
    ensures d * p + r < 10 * p
  {
    MulLeMonotone(d, 9, p);
  }

  lemma MulLeMonotone(a: nat, b: nat, p: nat)
    requires a <= b
    ensures a * p <= b * p
  {
  }

  /** Appending a digit shifts the value one place left. */
  lemma {:induction false} DigitsValueSnoc(s: string, c: char)
    requires AllDigits(s) && IsDigit(c)
    ensures AllDigits(s + [c])
    ensures DigitsValue(s + [c]) == DigitsValue(s) * 10 + DigitValue(c)
  {
    var t := s + [c];
    if s != [] {
      assert t[0] == s[0];
      assert t[1..] == s[1..] + [c];
      DigitsValueSnoc(s[1..], c);
      assert DigitsValue(t) == DigitValue(s[0]) * Pow10(|s|) + DigitsValue(s[1..] + [c]);
      ShiftLeft(DigitValue(s[0]), Pow10(|s| - 1), DigitsValue(s[1..]), DigitValue(c));
    } else {
      assert t == [c];
    }
  }

  lemma ShiftLeft(d: nat, p: nat, r: nat, c: nat)
    ensures d * (10 * p) + (r * 10 + c) == (d * p + r) * 10 + c
  {
  }

  /** The decimal text of a natural number, as JavaScript's `toString` writes it. */
  function NatToString(n: nat): (r: string)
    ensures |r| > 0 && AllDigits(r)
    ensures DigitsValue(r) == n
    ensures n >= 10 ==> r[0] != '0'
  {
    if n < 10 then [DigitChar(n)]
    else
      var front := NatToString(n / 10);
      DigitsValueSnoc(front, DigitChar(n % 10));
      front + [DigitChar(n % 10)]
  }

  /** Equal-length digit strings that denote the same number are the same string. */
  lemma {:induction false} DigitsValueInjective(a: string, b: string)
    requires AllDigits(a) && AllDigits(b) && |a| == |b|
    requires DigitsValue(a) == DigitsValue(b)
    ensures a == b
  {
    if a != [] {
      DigitsValueBound(a[1..]);
      DigitsValueBound(b[1..]);
      LeadingDigitDecides(DigitValue(a[0]), DigitValue(b[0]), DigitsValue(a[1..]), DigitsValue(b[1..]), Pow10(|a| - 1));
      DigitsValueInjective(a[1..], b[1..]);
    }
  }

  /** With rests below `p`, the leading digit decides, then the rest. */
  lemma LeadingDigitDecides(da: nat, db: nat, ra: nat, rb: nat, p: nat)
    requires ra < p && rb < p
    ensures da * p + ra < db * p + rb <==> da < db || (da == db && ra < rb)
    ensures da * p + ra == db * p + rb <==> da == db && ra == rb
  {
    if da < db {
      assert (da + 1) * p <= db * p by { MulLeMonotone(da + 1, db, p); }
    } else if db < da {
      assert (db + 1) * p <= da * p by { MulLeMonotone(db + 1, da, p); }
    }
  }

  /** For digit strings of one length, string order is numeric order. */
  lemma {:induction false} DigitsLexLessIffLess(a: string, b: string)
    requires AllDigits(a) && AllDigits(b) && |a| == |b|
    ensures Text.LexLess(a, b) <==> DigitsValue(a) < DigitsValue(b)
  {
    if a != [] {
      DigitsValueBound(a[1..]);
      DigitsValueBound(b[1..]);
      LeadingDigitDecides(DigitValue(a[0]), DigitValue(b[0]), DigitsValue(a[1..]), DigitsValue(b[1..]), Pow10(|a| - 1));
      DigitsLexLessIffLess(a[1..], b[1..]);
    }
  }
}
