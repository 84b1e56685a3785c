/** Calendar dates as the app stores them: "YYYY-MM-DD" strings, compared
    through JavaScript's `new Date(...)`. */
module Dates {

  import opened Wrappers
  import opened Numerals
  import opened Text

  /** The text a date input yields and the store holds: four digits of year,
      two of month (01-12) and two of day (01-31), separated by '-'. */
  predicate IsIsoDate(s: string)
  {
    && |s| == 10
    && AllDigits(s[0..4]) && s[4] == '-'
    && AllDigits(s[5..7]) && s[7] == '-'
    && AllDigits(s[8..10])
    && 1 <= DigitsValue(s[5..7]) <= 12
    && 1 <= DigitsValue(s[8..10]) <= 31
  }

  function Year(s: string): nat
    requires IsIsoDate(s)
  {
    DigitsValue(s[0..4])
  }

  function Month(s: string): nat
    requires IsIsoDate(s)
  {
    DigitsValue(s[5..7])
  }

  function Day(s: string): nat
    requires IsIsoDate(s)
  {
    DigitsValue(s[8..10])
  }

  /** A number that orders dates as the calendar does. */
  function DayNumber(s: string): nat
    requires IsIsoDate(s)
  {
    Year(s) * 10000 + Month(s) * 100 + Day(s)
  }

  /** `new Date(s)`: a point in time, or `None` for the invalid date (NaN). */
  function ParseDate(s: string): Option<nat>
  {
    if IsIsoDate(s) then Some(DayNumber(s)) else None
  }

  /** `new Date(a) < new Date(b)`; false when either side is invalid. */
  predicate Before(a: string, b: string)
  {
    var x, y := ParseDate(a), ParseDate(b);
    x.Some? && y.Some? && x.value < y.value
  }

  /** `new Date(a) >= new Date(b)`; false when either side is invalid. */
  predicate OnOrAfter(a: string, b: string)
  {
    var x, y := ParseDate(a), ParseDate(b);
    x.Some? && y.Some? && x.value >= y.value
  }

  /** `new Date(a) <= new Date(b)`; false when either side is invalid. */
  predicate OnOrBefore(a: string, b: string)
  {
    var x, y := ParseDate(a), ParseDate(b);
    x.Some? && y.Some? && x.value <= y.value
  }

  lemma SplitIsoDate(s: string)
    requires |s| == 10
    ensures s == s[0..4] + (s[4..5] + (s[5..7] + (s[7..8] + s[8..10])))
  {
  }

  /** On well-formed dates, comparing the `Date` objects is the same as
      comparing the strings, and equal dates are equal strings. */
  lemma {:induction false} DayNumberIsStringOrder(a: string, b: string)
    requires IsIsoDate(a) && IsIsoDate(b)
    ensures DayNumber(a) < DayNumber(b) <==> LexLess(a, b)
    ensures DayNumber(a) == DayNumber(b) <==> a == b
  {
    SplitIsoDate(a);
    SplitIsoDate(b);
    LexLessConcat(a[0..4], a[4..5] + (a[5..7] + (a[7..8] + a[8..10])), b[0..4], b[4..5] + (b[5..7] + (b[7..8] + b[8..10])));
    LexLessConcat(a[4..5], a[5..7] + (a[7..8] + a[8..10]), b[4..5], b[5..7] + (b[7..8] + b[8..10]));
    LexLessConcat(a[5..7], a[7..8] + a[8..10], b[5..7], b[7..8] + b[8..10]);
    LexLessConcat(a[7..8], a[8..10], b[7..8], b[8..10]);
    assert a[4..5] == b[4..5] && a[7..8] == b[7..8];
    assert !LexLess(a[4..5], b[4..5]) && !LexLess(a[7..8], b[7..8]);
    DigitsLexLessIffLess(a[0..4], b[0..4]);
    DigitsLexLessIffLess(a[5..7], b[5..7]);
    DigitsLexLessIffLess(a[8..10], b[8..10]);
    LeadingDigitDecides(Month(a), Month(b), Day(a), Day(b), 100);
    LeadingDigitDecides(Year(a), Year(b), Month(a) * 100 + Day(a), Month(b) * 100 + Day(b), 10000);
    if Year(a) == Year(b) {
      DigitsValueInjective(a[0..4], b[0..4]);
    }
    if Month(a) == Month(b) {
      DigitsValueInjective(a[5..7], b[5..7]);
    }
    if Day(a) == Day(b) {
      DigitsValueInjective(a[8..10], b[8..10]);
    }
  }

  /** The three comparisons the app makes, restated as string comparisons. */
  lemma DateComparisonsAreStringComparisons(a: string, b: string)
    requires IsIsoDate(a) && IsIsoDate(b)
    ensures Before(a, b) <==> LexLess(a, b)
    ensures OnOrAfter(a, b) <==> !LexLess(a, b)
    ensures OnOrBefore(a, b) <==> !LexLess(b, a)
  {
    DayNumberIsStringOrder(a, b);
    DayNumberIsStringOrder(b, a);
  }

  /** Text that is not a well-formed date never compares true. */
  lemma InvalidDateComparesFalse(a: string, b: string)
    requires !IsIsoDate(a) || !IsIsoDate(b)
    ensures !Before(a, b) && !OnOrAfter(a, b) && !OnOrBefore(a, b)
  {
  }
}
