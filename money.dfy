/** Amounts of money. The app keeps `valor` as a JavaScript number; this model
    keeps it as a whole number of cents, so that sums are exact. The edit form
    holds the amount as text: `valor.toString()` on the way in, `parseFloat`
    of the number input's text on the way out. */
module Money {

  import opened Wrappers
  import opened Numerals

  /** The digits after the decimal point that `toString` writes for `f`
      hundredths: none for a whole amount, no trailing zero otherwise. */
  function FractionText(f: nat): string
    requires f < 100
  {
    if f == 0 then ""
    else if f % 10 == 0 then ['.', DigitChar(f / 10)]
    else ['.', DigitChar(f / 10), DigitChar(f % 10)]
  }

  /** `(c / 100).toString()` for an amount of `c` cents. */
  function FormatCents(c: int): string
  {
    var a := if c < 0 then -c else c;
    (if c < 0 then "-" else "") + NatToString(a / 100) + FractionText(a % 100)
  }

  /** The position of the first '.', or `|s|` when there is none. */
  function DotIndex(s: string): (k: nat)
    ensures k <= |s|
    ensures k < |s| ==> s[k] == '.'
    ensures forall i :: 0 <= i < k ==> s[i] != '.'
  {
    if s == [] || s[0] == '.' then 0 else 1 + DotIndex(s[1..])
  }

  predicate AllZeros(s: string)
  {
    forall i :: 0 <= i < |s| ==> s[i] == '0'
  }

  /** The cents denoted by the first two digits after the point. */
  function FractionCents(fp: string): (f: nat)
    requires |fp| > 0 && AllDigits(fp)
    ensures f < 100
  {
    DigitValue(fp[0]) * 10 + (if |fp| > 1 then DigitValue(fp[1]) else 0)
  }

  /** An unsigned decimal without exponent, as a number input accepts it
      (digits, optionally a point and at least one digit, at least one digit in
      all), whose value is a whole number of cents (every digit after the
      second decimal is a zero); its value in cents. `None` for any other
      text, including amounts finer than a cent: that is this model's choice,
      since whole cents cannot represent them. */
  function ParseUnsigned(s: string): Option<nat>
  {
    var k := DotIndex(s);
    var ip := s[..k];
    if !AllDigits(ip) then None
    else if k == |s| then
      if ip == [] then None else Some(DigitsValue(ip) * 100)
    else
      var fp := s[k + 1..];
      if fp != [] && AllDigits(fp) && AllZeros(fp[if |fp| < 2 then |fp| else 2..])
      then Some(DigitsValue(ip) * 100 + FractionCents(fp))
      else None
  }

  /** The amount, in cents, that `parseFloat` reads from the text of the
      amount input. `None` is this model's choice for text it does not
      represent: text that is not a plain decimal, and amounts finer than a
      cent, which the browser may let through and `parseFloat` would store. */
  function ParseCents(s: string): Option<int>
  {
    if |s| > 0 && s[0] == '-' then
      match ParseUnsigned(s[1..])
      case Some(v) => Some(-(v as int))
      case None => None
    else ParseUnsigned(s)
  }

  lemma ParseCentsEmpty()
    ensures ParseCents("") == None
  {
  }

  lemma {:induction false} DotIndexAfterDigits(d: string, r: string)
    requires AllDigits(d)
    ensures DotIndex(d + r) == |d| + DotIndex(r)
  {
    if d != [] {
      assert (d + r)[1..] == d[1..] + r;
      DotIndexAfterDigits(d[1..], r);
    } else {
      assert d + r == r;
    }
  }

  /** The fraction `toString` writes reads back as the same hundredths. */
  lemma FractionTextValue(f: nat)
    requires f < 100
    ensures var ft := FractionText(f);
            && (ft == "" <==> f == 0)
            && (ft != "" ==> ft[0] == '.' && DotIndex(ft) == 0)
            && (ft != "" ==> |ft| >= 2 && AllDigits(ft[1..]) && AllZeros(ft[1..][if |ft| - 1 < 2 then |ft| - 1 else 2..]))
            && (ft != "" ==> FractionCents(ft[1..]) == f)
  {
  }

  lemma ParseUnsignedFormat(a: nat)
    ensures ParseUnsigned(NatToString(a / 100) + FractionText(a % 100)) == Some(a)
  {
    var ip := NatToString(a / 100);
    var ft := FractionText(a % 100);
    var s := ip + ft;
    FractionTextValue(a % 100);
    DotIndexAfterDigits(ip, ft);
    assert s[..|ip|] == ip;
    if ft != "" {
      assert s[|ip| + 1..] == ft[1..];
    }
  }

  lemma ParseCentsSign(u: string)
    requires |u| > 0 && IsDigit(u[0])
    ensures ParseCents(u) == ParseUnsigned(u)
    ensures ParseCents("-" + u) == match ParseUnsigned(u) case Some(v) => Some(-(v as int)) case None => None
  {
    assert ("-" + u)[1..] == u;
  }

  lemma FormatSign(c: int)
    ensures c >= 0 ==> FormatCents(c) == NatToString(c / 100) + FractionText(c % 100)
    ensures c < 0 ==> FormatCents(c) == "-" + (NatToString((-c) / 100) + FractionText((-c) % 100))
  {
  }

  /** Reading back the text `toString` writes gives the same amount: an edit
      form that is submitted unchanged keeps `valor`. */
  lemma ParseFormatRoundTrip(c: int)
    ensures ParseCents(FormatCents(c)) == Some(c)
  {
    var a: nat := if c < 0 then -c else c;
    var u := NatToString(a / 100) + FractionText(a % 100);
    ParseUnsignedFormat(a);
    assert u[0] == NatToString(a / 100)[0];
    ParseCentsSign(u);
    FormatSign(c);
  }
}
