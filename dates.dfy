/**
 * Calendar arithmetic shared by every view: the proleptic Gregorian calendar,
 * a day number for comparing dates, and the "YYYY-MM-DD" text form that the
 * stored records use. Time of day and time zones are not part of this model:
 * a JavaScript Date is read at day granularity.
 */
module Dates {

  import opened Text

  datatype CalDate = CalDate(year: int, month: int, day: int)

  predicate IsLeapYear(y: int) {
    y % 4 == 0 && (y % 100 != 0 || y % 400 == 0)
  }

  function YearLength(y: int): int {
    if IsLeapYear(y) then 366 else 365
  }

  function DaysInMonth(y: int, m: int): int {
    if m == 2 then (if IsLeapYear(y) then 29 else 28)
    else if m == 4 || m == 6 || m == 9 || m == 11 then 30
    else 31
  }

  predicate ValidDate(d: CalDate) {
    1 <= d.month <= 12 && 1 <= d.day <= DaysInMonth(d.year, d.month)
  }

  /** A real calendar day, such as the current date. */
  type ValidCalDate = d: CalDate | ValidDate(d) witness CalDate(1970, 1, 1)

  /** Days from 0000-01-01 to January 1st of year y (negative before year 0). */
  function DaysBeforeYear(y: int): int {
    365 * y + (y + 3) / 4 - (y + 99) / 100 + (y + 399) / 400
  }

  /** Days from January 1st of year y to the first of month m (m = 13 is the next year). */
  function DaysBeforeMonth(y: int, m: int): int
    requires 1 <= m <= 13
    decreases m
  {
    if m == 1 then 0 else DaysBeforeMonth(y, m - 1) + DaysInMonth(y, m - 1)
  }

  /**
   * The day number of a date: consecutive calendar days get consecutive numbers.
   * A day past the end of its month rolls into the next month, as JavaScript's
   * Date constructor does.
   */
  function DayNumber(d: CalDate): int
    requires 1 <= d.month <= 12
  {
    DaysBeforeYear(d.year) + DaysBeforeMonth(d.year, d.month) + d.day - 1
  }

  /** Date.prototype.getDay of a day number: 0 is Sunday, 6 is Saturday (0000-01-01 was a Saturday). */
  function Weekday(n: int): (w: int)
    ensures 0 <= w < 7
  {
    (n + 6) % 7
  }

  /** Adding 1 to y moves ceil-style quotient (y + k - 1) / k up by one exactly at multiples of k. */
  lemma CeilStep4(y: int)
    ensures (y + 4) / 4 - (y + 3) / 4 == (if y % 4 == 0 then 1 else 0)
  {
    var q, r := y / 4, y % 4;
    assert y == 4 * q + r && 0 <= r < 4;
    assert (y + 4) / 4 == q + 1;
    assert (y + 3) / 4 == (if r == 0 then q else q + 1);
  }

  lemma CeilStep100(y: int)
    ensures (y + 100) / 100 - (y + 99) / 100 == (if y % 100 == 0 then 1 else 0)
  {
    var q, r := y / 100, y % 100;
    assert y == 100 * q + r && 0 <= r < 100;
    assert (y + 100) / 100 == q + 1;
    assert (y + 99) / 100 == (if r == 0 then q else q + 1);
  }

  lemma CeilStep400(y: int)
    ensures (y + 400) / 400 - (y + 399) / 400 == (if y % 400 == 0 then 1 else 0)
  {
    var q, r := y / 400, y % 400;
    assert y == 400 * q + r && 0 <= r < 400;
    assert (y + 400) / 400 == q + 1;
    assert (y + 399) / 400 == (if r == 0 then q else q + 1);
  }

  /** d * m leaves no remainder on division by d. */
  lemma MultipleMod(m: int, d: int, t: int)
    requires d > 0 && t == d * m
    ensures t % d == 0
  {
    var z := m - t / d;
    assert d * z == t % d;
    assert 0 <= d * z < d;
  }

  /** A multiple of 400 is a multiple of 100, and a multiple of 100 a multiple of 4. */
  lemma MultipleChain(y: int)
    ensures y % 400 == 0 ==> y % 100 == 0
    ensures y % 100 == 0 ==> y % 4 == 0
  {
    if y % 400 == 0 {
      MultipleMod(4 * (y / 400), 100, y);
    }
    if y % 100 == 0 {
      MultipleMod(25 * (y / 100), 4, y);
    }
  }

  lemma DaysBeforeYearStep(y: int)
    ensures DaysBeforeYear(y + 1) == DaysBeforeYear(y) + YearLength(y)
  {
    var a := if y % 4 == 0 then 1 else 0;
    var b := if y % 100 == 0 then 1 else 0;
    var c := if y % 400 == 0 then 1 else 0;
    CeilStep4(y);
    CeilStep100(y);
    CeilStep400(y);
    assert DaysBeforeYear(y + 1) - DaysBeforeYear(y) == 365 + a - b + c;
    MultipleChain(y);
    assert YearLength(y) == 365 + a - b + c;
  }

  lemma {:induction false} DaysBeforeMonthBounds(y: int, m: int)
    requires 1 <= m <= 13
    ensures 0 <= DaysBeforeMonth(y, m) <= DaysBeforeMonth(y, 13) == YearLength(y)
    ensures m <= 12 ==> DaysBeforeMonth(y, m) + DaysInMonth(y, m) <= YearLength(y)
    decreases 13 - m
  {
    if m < 13 {
      DaysBeforeMonthBounds(y, m + 1);
    }
  }

  lemma {:induction false} DaysBeforeMonthMonotone(y: int, m1: int, m2: int)
    requires 1 <= m1 < m2 <= 13
    ensures DaysBeforeMonth(y, m1) + DaysInMonth(y, m1) <= DaysBeforeMonth(y, m2)
    decreases m2
  {
    if m1 + 1 < m2 {
      DaysBeforeMonthMonotone(y, m1, m2 - 1);
    }
  }

  lemma {:induction false} DaysBeforeYearMonotone(y1: int, y2: int)
    requires y1 < y2
    ensures DaysBeforeYear(y1) + YearLength(y1) <= DaysBeforeYear(y2)
    decreases y2 - y1
  {
    DaysBeforeYearStep(y1);
    if y1 + 1 < y2 {
      DaysBeforeYearMonotone(y1 + 1, y2);
    }
  }

  /** Lexicographic order on (year, month, day). */
  predicate DateBefore(a: CalDate, b: CalDate) {
    a.year < b.year || (a.year == b.year && (a.month < b.month || (a.month == b.month && a.day < b.day)))
  }

  /** On valid dates the day number is strictly increasing in calendar order. */
  lemma DayNumberOrder(a: CalDate, b: CalDate)
    requires ValidDate(a) && ValidDate(b)
    ensures DateBefore(a, b) <==> DayNumber(a) < DayNumber(b)
    ensures a == b <==> DayNumber(a) == DayNumber(b)
  {
    if a.year < b.year {
      DaysBeforeMonthBounds(a.year, a.month);
      DaysBeforeMonthBounds(b.year, b.month);
      DaysBeforeYearMonotone(a.year, b.year);
    } else if b.year < a.year {
      DaysBeforeMonthBounds(a.year, a.month);
      DaysBeforeMonthBounds(b.year, b.month);
      DaysBeforeYearMonotone(b.year, a.year);
    } else if a.month < b.month {
      DaysBeforeMonthMonotone(a.year, a.month, b.month);
    } else if b.month < a.month {
      DaysBeforeMonthMonotone(a.year, b.month, a.month);
    }
  }

  /** The first and last day of a month. */
  function FirstOfMonth(d: CalDate): CalDate {
    CalDate(d.year, d.month, 1)
  }

  function LastOfMonth(d: CalDate): CalDate {
    CalDate(d.year, d.month, DaysInMonth(d.year, d.month))
  }

  /** A valid date lies between the first and last day of a month exactly when it is in that month. */
  lemma MonthWindow(today: CalDate, t: CalDate)
    requires ValidDate(today) && ValidDate(t)
    ensures DayNumber(FirstOfMonth(today)) <= DayNumber(t) <= DayNumber(LastOfMonth(today))
        <==> t.year == today.year && t.month == today.month
  {
    DayNumberOrder(FirstOfMonth(today), t);
    DayNumberOrder(t, LastOfMonth(today));
  }

  /** The date one day earlier, as `setDate(getDate() - 1)` computes it. */
  function PreviousDay(d: CalDate): (p: CalDate)
    requires ValidDate(d)
    ensures ValidDate(p)
  {
    if d.day > 1 then CalDate(d.year, d.month, d.day - 1)
    else if d.month > 1 then CalDate(d.year, d.month - 1, DaysInMonth(d.year, d.month - 1))
    else CalDate(d.year - 1, 12, 31)
  }

  lemma PreviousDayNumber(d: CalDate)
    requires ValidDate(d)
    ensures DayNumber(PreviousDay(d)) == DayNumber(d) - 1
  {
    if d.day == 1 && d.month == 1 {
      DaysBeforeYearStep(d.year - 1);
    }
  }

  /** `setMonth(getMonth() + k)`: the month moves, the day of month is kept (and may roll over). */
  function ShiftMonths(d: CalDate, k: int): (r: CalDate)
    requires 1 <= d.month <= 12
    ensures 1 <= r.month <= 12 && r.day == d.day
    ensures r.year * 12 + r.month == d.year * 12 + d.month + k
  {
    var idx := d.month - 1 + k;
    CalDate(d.year + idx / 12, idx % 12 + 1, d.day)
  }

  // ---------------------------------------------------------------
  // Text forms of dates

  /** `String(n).padStart(2, '0')`. */
  function Pad2(n: int): string {
    PadStart(IntToString(n), 2, '0')
  }

  /** `${y}-${pad2(m)}-${pad2(d)}`: the date string the recurring poster builds. */
  function FormatDate(y: int, m: int, d: int): string {
    IntToString(y) + "-" + Pad2(m) + "-" + Pad2(d)
  }

  /** `toISOString().substring(0, 7)`: the "YYYY-MM" month key. */
  function MonthKey(d: CalDate): string {
    PadStart(IntToString(d.year), 4, '0') + "-" + Pad2(d.month)
  }

  /** `toISOString().split('T')[0]`: the "YYYY-MM-DD" day key. */
  function IsoDate(d: CalDate): string {
    MonthKey(d) + "-" + Pad2(d.day)
  }

  /** The "MM-DD" suffix of a date string: `substring(5)`. */
  function DaySuffix(s: string): string {
    if |s| <= 5 then "" else s[5..]
  }

  /**
   * `new Date(s)` for the date-only form "YYYY-MM-DD" (month 1-12, day 1-31);
   * None stands for an Invalid Date, for which every comparison is false.
   */
  function ParseDate(s: string): (r: Option<CalDate>)
    ensures r.Some? ==> 1 <= r.value.month <= 12 && 1 <= r.value.day <= 31 && 0 <= r.value.year <= 9999
  {
    if |s| == 10 && s[4] == '-' && s[7] == '-' && AllDigits(s[..4]) && AllDigits(s[5..7]) && AllDigits(s[8..])
    then
      var y, m, d := DigitsValue(s[..4]), DigitsValue(s[5..7]), DigitsValue(s[8..]);
      DigitsValueBound(s[..4]);
      if 1 <= m <= 12 && 1 <= d <= 31 then Some(CalDate(y, m, d)) else None
    else None
  }

  /** The day number of a parsed date string, None when it does not parse. */
  function DateDay(s: string): Option<int> {
    var p := ParseDate(s);
    if p.Some? then Some(DayNumber(p.value)) else None
  }

  lemma TwoDigitsRoundTrip(n: int)
    requires 0 <= n <= 99
    ensures |Pad2(n)| == 2 && AllDigits(Pad2(n)) && DigitsValue(Pad2(n)) == n
  {
    NatToStringFacts(n);
    assert IntToString(n) == NatToString(n);
    if n < 10 {
      assert |IntToString(n)| == 1;
      assert Pad2(n) == ['0'] + IntToString(n);
      DigitsValueConcat(['0'], IntToString(n));
    } else {
      assert |IntToString(n)| == 2;
      assert Pad2(n) == IntToString(n);
    }
  }

  lemma FourDigitsRoundTrip(n: int)
    requires 1000 <= n <= 9999
    ensures PadStart(IntToString(n), 4, '0') == IntToString(n)
    ensures |IntToString(n)| == 4 && AllDigits(IntToString(n)) && DigitsValue(IntToString(n)) == n
  {
    NatToStringFacts(n);
  }

  /** A date string built by FormatDate parses back to the same calendar date. */
  lemma FormatDateRoundTrip(y: int, m: int, d: int)
    requires 1000 <= y <= 9999 && 1 <= m <= 12 && 1 <= d <= 31
    ensures ParseDate(FormatDate(y, m, d)) == Some(CalDate(y, m, d))
  {
    var s := FormatDate(y, m, d);
    FourDigitsRoundTrip(y);
    TwoDigitsRoundTrip(m);
    TwoDigitsRoundTrip(d);
    assert s[..4] == IntToString(y);
    assert s[5..7] == Pad2(m);
    assert s[8..] == Pad2(d);
  }

  /** Within one year, different months have different month keys. */
  lemma MonthKeyDistinct(a: CalDate, b: CalDate)
    requires a.year == b.year && 1 <= a.month <= 12 && 1 <= b.month <= 12 && a.month != b.month
    ensures MonthKey(a) != MonthKey(b)
  {
    var pre := PadStart(IntToString(a.year), 4, '0') + "-";
    TwoDigitsRoundTrip(a.month);
    TwoDigitsRoundTrip(b.month);
    assert MonthKey(a)[|pre|..] == Pad2(a.month);
    assert MonthKey(b)[|pre|..] == Pad2(b.month);
    assert Pad2(a.month) != Pad2(b.month);
  }

  /** The ISO day key of a valid date parses back to that date. */
  lemma IsoDateRoundTrip(d: CalDate)
    requires ValidDate(d) && 1000 <= d.year <= 9999
    ensures IsoDate(d) == FormatDate(d.year, d.month, d.day)
    ensures ParseDate(IsoDate(d)) == Some(d)
    ensures IsoDate(d)[..7] == MonthKey(d) && |MonthKey(d)| == 7
  {
    FourDigitsRoundTrip(d.year);
    TwoDigitsRoundTrip(d.month);
    FormatDateRoundTrip(d.year, d.month, d.day);
  }
}
