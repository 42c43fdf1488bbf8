/**
 * Calendar dates as the sprints store them (`yyyy-MM-dd`, the form date-fns
 * `format(d, "yyyy-MM-dd")` writes and a `date` column holds), their
 * position on the day line counted from 1970-01-01, and instants in
 * milliseconds since the epoch as JavaScript's `Date` holds them.
 */
module Dates {
  import opened Wrappers

  datatype CalendarDate = CalendarDate(year: int, month: int, day: int)

  predicate IsLeapYear(y: int) {
    y % 4 == 0 && (y % 100 != 0 || y % 400 == 0)
  }

  function DaysInMonth(y: int, m: int): (r: int)
    requires 1 <= m <= 12
    ensures 28 <= r <= 31
    ensures r == 29 <==> m == 2 && IsLeapYear(y)
  {
    if m == 2 then (if IsLeapYear(y) then 29 else 28)
    else if m == 4 || m == 6 || m == 9 || m == 11 then 30
    else 31
  }

  function DaysInYear(y: int): int {
    if IsLeapYear(y) then 366 else 365
  }

  /** A real day of the proleptic Gregorian calendar with a four-digit year. */
  predicate ValidDate(d: CalendarDate) {
    0 <= d.year <= 9999 && 1 <= d.month <= 12 && 1 <= d.day <= DaysInMonth(d.year, d.month)
  }

  /** Calendar order: by year, then month, then day. */
  predicate DateLess(a: CalendarDate, b: CalendarDate) {
    a.year < b.year || (a.year == b.year && (a.month < b.month || (a.month == b.month && a.day < b.day)))
  }

  predicate DateAtMost(a: CalendarDate, b: CalendarDate) {
    DateLess(a, b) || a == b
  }

  // ---------------------------------------------------------------------
  // The text form yyyy-MM-dd

  function Digit(n: int): char
    requires 0 <= n < 10
  {
    (48 + n) as char
  }

  predicate IsDigit(c: char) {
    '0' <= c <= '9'
  }

  function DigitValue(c: char): int
    requires IsDigit(c)
  {
    c as int - 48
  }

  function Pad2(n: int): string
    requires 0 <= n < 100
  {
    [Digit(n / 10), Digit(n % 10)]
  }

  function Pad4(n: int): string
    requires 0 <= n < 10000
  {
    [Digit(n / 1000), Digit(n / 100 % 10), Digit(n / 10 % 10), Digit(n % 10)]
  }

  function FormatIsoDate(d: CalendarDate): (r: string)
    requires ValidDate(d)
    ensures |r| == 10 && r[4] == '-' && r[7] == '-'
    ensures forall i :: 0 <= i < 10 && i != 4 && i != 7 ==> IsDigit(r[i])
  {
    Pad4(d.year) + "-" + Pad2(d.month) + "-" + Pad2(d.day)
  }

  function Number2(s: string): int
    requires |s| == 2 && IsDigit(s[0]) && IsDigit(s[1])
  {
    DigitValue(s[0]) * 10 + DigitValue(s[1])
  }

  function Number4(s: string): int
    requires |s| == 4 && forall i :: 0 <= i < 4 ==> IsDigit(s[i])
  {
    DigitValue(s[0]) * 1000 + DigitValue(s[1]) * 100 + DigitValue(s[2]) * 10 + DigitValue(s[3])
  }

  predicate IsoShaped(s: string) {
    |s| == 10 && s[4] == '-' && s[7] == '-' &&
    forall i :: 0 <= i < 10 && i != 4 && i != 7 ==> IsDigit(s[i])
  }

  /** Reading a stored date back; `None` for text that is not a real yyyy-MM-dd day. */
  function ParseIsoDate(s: string): (r: Option<CalendarDate>)
    ensures r.Some? ==> ValidDate(r.value)
  {
    if !IsoShaped(s) then None
    else
      var d := CalendarDate(Number4(s[0..4]), Number2(s[5..7]), Number2(s[8..10]));
      if ValidDate(d) then Some(d) else None
  }

  lemma Pad2Value(n: int)
    requires 0 <= n < 100
    ensures Number2(Pad2(n)) == n
  {
  }

  lemma Pad4Value(n: int)
    requires 0 <= n < 10000
    ensures Number4(Pad4(n)) == n
  {
    var q1, e := n / 10, n % 10;
    var q2, c := q1 / 10, q1 % 10;
    var a, b := q2 / 10, q2 % 10;
    assert n == 1000 * a + 100 * b + 10 * c + e;
    assert n / 100 == q2 && n / 1000 == a;
    var s := Pad4(n);
    assert DigitValue(s[0]) == a && DigitValue(s[1]) == b && DigitValue(s[2]) == c && DigitValue(s[3]) == e;
  }

  /** Every valid date reads back as itself. */
  lemma ParseFormat(d: CalendarDate)
    requires ValidDate(d)
    ensures ParseIsoDate(FormatIsoDate(d)) == Some(d)
  {
    var s := FormatIsoDate(d);
    assert s[0..4] == Pad4(d.year);
    assert s[5..7] == Pad2(d.month);
    assert s[8..10] == Pad2(d.day);
    Pad4Value(d.year);
    Pad2Value(d.month);
    Pad2Value(d.day);
  }

  lemma DigitRoundTrip(c: char)
    requires IsDigit(c)
    ensures 0 <= DigitValue(c) < 10 && Digit(DigitValue(c)) == c
  {
  }

  lemma Number2Pad(s: string)
    requires |s| == 2 && IsDigit(s[0]) && IsDigit(s[1])
    ensures 0 <= Number2(s) < 100 && Pad2(Number2(s)) == s
  {
    DigitRoundTrip(s[0]);
    DigitRoundTrip(s[1]);
  }

  lemma Number4Pad(s: string)
    requires |s| == 4 && forall i :: 0 <= i < 4 ==> IsDigit(s[i])
    ensures 0 <= Number4(s) < 10000 && Pad4(Number4(s)) == s
  {
    var a, b, c, e := DigitValue(s[0]), DigitValue(s[1]), DigitValue(s[2]), DigitValue(s[3]);
    DigitRoundTrip(s[0]);
    DigitRoundTrip(s[1]);
    DigitRoundTrip(s[2]);
    DigitRoundTrip(s[3]);
    var n := Number4(s);
    assert n / 1000 == a;
    assert n / 100 == a * 10 + b;
    assert n / 100 % 10 == b;
    assert n / 10 == a * 100 + b * 10 + c;
    assert n / 10 % 10 == c;
    assert n % 10 == e;
  }

  /** Text that reads as a date is exactly that date's text form. */
  lemma FormatParse(s: string)
    requires ParseIsoDate(s).Some?
    ensures FormatIsoDate(ParseIsoDate(s).value) == s
  {
    Number4Pad(s[0..4]);
    Number2Pad(s[5..7]);
    Number2Pad(s[8..10]);
    assert s == s[0..4] + "-" + s[5..7] + "-" + s[8..10];
  }

  // ---------------------------------------------------------------------
  // The day line

  /** Days from 0000-01-01 to the first day of year `y`. */
  function DaysBeforeYear(y: int): int
    requires y >= 0
  {
    365 * y + (y + 3) / 4 - (y + 99) / 100 + (y + 399) / 400
  }

  /** Days from the first of January of year `y` to the first of month `m`. */
  function DaysBeforeMonth(y: int, m: int): int
    requires 1 <= m <= 12
  {
    [0, 31, 59, 90, 120, 151, 181, 212, 243, 273, 304, 334][m - 1] + (if m > 2 && IsLeapYear(y) then 1 else 0)
  }

  /** The day number counted from 1970-01-01 (day 0); earlier days are negative. */
  function EpochDay(d: CalendarDate): int
    requires ValidDate(d)
  {
    DaysBeforeYear(d.year) - DaysBeforeYear(1970) + DaysBeforeMonth(d.year, d.month) + d.day - 1
  }

  lemma DivStep4(y: int)
    requires y >= 0
    ensures (y + 4) / 4 - (y + 3) / 4 == (if y % 4 == 0 then 1 else 0)
  {
  }

  lemma DivStep100(y: int)
    requires y >= 0
    ensures (y + 100) / 100 - (y + 99) / 100 == (if y % 100 == 0 then 1 else 0)
  {
  }

  lemma DivStep400(y: int)
    requires y >= 0
    ensures (y + 400) / 400 - (y + 399) / 400 == (if y % 400 == 0 then 1 else 0)
  {
  }

  lemma Divides(y: int)
    ensures y % 100 == 0 ==> y % 4 == 0
    ensures y % 400 == 0 ==> y % 100 == 0
  {
    if y % 100 == 0 { assert y == 100 * (y / 100); }
    if y % 400 == 0 { assert y == 400 * (y / 400); }
  }

  lemma YearStep(y: int)
    requires y >= 0
    ensures DaysBeforeYear(y + 1) == DaysBeforeYear(y) + DaysInYear(y)
  {
    DivStep4(y);
    DivStep100(y);
    DivStep400(y);
    Divides(y);
  }

  lemma {:induction false} YearsMonotone(a: int, b: int)
    requires 0 <= a < b
    ensures DaysBeforeYear(a) + DaysInYear(a) <= DaysBeforeYear(b)
    decreases b - a
  {
    YearStep(a);
    if a + 1 < b {
      YearsMonotone(a + 1, b);
      assert DaysInYear(a + 1) >= 0;
    }
  }

  lemma MonthStep(y: int, m: int)
    requires 1 <= m <= 12
    ensures m < 12 ==> DaysBeforeMonth(y, m) + DaysInMonth(y, m) == DaysBeforeMonth(y, m + 1)
    ensures m == 12 ==> DaysBeforeMonth(y, m) + DaysInMonth(y, m) == DaysInYear(y)
  {
  }

  lemma {:induction false} MonthsMonotone(y: int, m: int, n: int)
    requires 1 <= m < n <= 12
    ensures DaysBeforeMonth(y, m) + DaysInMonth(y, m) <= DaysBeforeMonth(y, n)
    decreases n - m
  {
    MonthStep(y, m);
    if m + 1 < n {
      MonthsMonotone(y, m + 1, n);
    }
  }

  /** A valid date's offset within its year lies inside the year. */
  lemma DayWithinYear(d: CalendarDate)
    requires ValidDate(d)
    ensures 0 <= DaysBeforeMonth(d.year, d.month) + d.day - 1 < DaysInYear(d.year)
  {
    MonthStep(d.year, d.month);
    if d.month < 12 { MonthsMonotone(d.year, d.month, 12); }
  }

  lemma SameYearOrder(a: CalendarDate, b: CalendarDate)
    requires ValidDate(a) && ValidDate(b) && a.year == b.year
    ensures DateLess(a, b) <==> DaysBeforeMonth(a.year, a.month) + a.day < DaysBeforeMonth(b.year, b.month) + b.day
    ensures a == b <==> DaysBeforeMonth(a.year, a.month) + a.day == DaysBeforeMonth(b.year, b.month) + b.day
  {
    if a.month < b.month {
      MonthsMonotone(a.year, a.month, b.month);
    } else if b.month < a.month {
      MonthsMonotone(a.year, b.month, a.month);
    }
  }

  lemma EarlierYearFirst(a: CalendarDate, b: CalendarDate)
    requires ValidDate(a) && ValidDate(b) && a.year < b.year
    ensures EpochDay(a) < EpochDay(b)
  {
    DayWithinYear(a);
    DayWithinYear(b);
    YearsMonotone(a.year, b.year);
  }

  /** The day number respects calendar order, so it also tells dates apart. */
  lemma EpochDayOrder(a: CalendarDate, b: CalendarDate)
    requires ValidDate(a) && ValidDate(b)
    ensures DateLess(a, b) <==> EpochDay(a) < EpochDay(b)
    ensures a == b <==> EpochDay(a) == EpochDay(b)
  {
    if a.year < b.year {
      EarlierYearFirst(a, b);
    } else if b.year < a.year {
      EarlierYearFirst(b, a);
    } else {
      SameYearOrder(a, b);
    }
  }

  lemma EpochDayOfEpoch()
    ensures EpochDay(CalendarDate(1970, 1, 1)) == 0
  {
  }

  /** The calendar day before `d`; 0000-01-01 has none. */
  function PreviousDay(d: CalendarDate): CalendarDate
    requires ValidDate(d) && d != CalendarDate(0, 1, 1)
  {
    if d.day > 1 then CalendarDate(d.year, d.month, d.day - 1)
    else if d.month > 1 then CalendarDate(d.year, d.month - 1, DaysInMonth(d.year, d.month - 1))
    else CalendarDate(d.year - 1, 12, 31)
  }

  /** `PreviousDay` is a valid date one step back on the day line. */
  lemma PreviousDayIsDayBefore(d: CalendarDate)
    requires ValidDate(d) && d != CalendarDate(0, 1, 1)
    ensures ValidDate(PreviousDay(d))
    ensures EpochDay(PreviousDay(d)) == EpochDay(d) - 1
    ensures DateLess(PreviousDay(d), d)
  {
    if d.day == 1 && d.month > 1 {
      MonthBoundary(d.year, d.month);
    } else if d.day == 1 {
      YearBoundary(d.year);
    }
  }

  /** The last day of the previous month is one day before the first of month `m`. */
  lemma MonthBoundary(y: int, m: int)
    requires 0 <= y <= 9999 && 1 < m <= 12
    ensures ValidDate(CalendarDate(y, m - 1, DaysInMonth(y, m - 1)))
    ensures EpochDay(CalendarDate(y, m - 1, DaysInMonth(y, m - 1))) == EpochDay(CalendarDate(y, m, 1)) - 1
  {
    MonthStep(y, m - 1);
  }

  /** New Year's Eve of the previous year is one day before the first of January of `y`. */
  lemma YearBoundary(y: int)
    requires 1 <= y <= 9999
    ensures EpochDay(CalendarDate(y - 1, 12, 31)) == EpochDay(CalendarDate(y, 1, 1)) - 1
  {
    YearStep(y - 1);
    MonthStep(y - 1, 12);
    var b := DaysBeforeYear(y - 1);
    assert DaysBeforeYear(y) == b + DaysInYear(y - 1);
    assert DaysBeforeMonth(y - 1, 12) + 31 == DaysInYear(y - 1);
  }

  // ---------------------------------------------------------------------
  // Instants

  const MsPerDay: int := 86_400_000
  const MsPerHour: int := 3_600_000

  /** What `new Date("yyyy-MM-dd")` holds: midnight UTC of that day. */
  function UtcMidnight(d: CalendarDate): int
    requires ValidDate(d)
  {
    EpochDay(d) * MsPerDay
  }

  /** The instant `now` lies in the UTC day `d`, which is `now.toISOString()`'s date part. */
  predicate InUtcDay(now: int, d: CalendarDate)
    requires ValidDate(d)
  {
    UtcMidnight(d) <= now < UtcMidnight(d) + MsPerDay
  }

  /**
   * The local calendar day, in a time zone `offset` milliseconds east of
   * UTC (within a day either way), of the instant `UtcMidnight(d)`: the day
   * `d` itself at or east of Greenwich, the day before west of it.
   */
  function LocalDayOfMidnight(d: CalendarDate, offset: int): (r: CalendarDate)
    requires ValidDate(d) && d != CalendarDate(0, 1, 1) && -MsPerDay < offset < MsPerDay
    ensures ValidDate(r) && InUtcDay(UtcMidnight(d) + offset, r)
  {
    PreviousDayIsDayBefore(d);
    if offset >= 0 then d else PreviousDay(d)
  }

  /** Within its day, an instant compares with every midnight as its day compares with that date. */
  lemma InstantVersusMidnight(now: int, today: CalendarDate, d: CalendarDate)
    requires ValidDate(today) && ValidDate(d) && InUtcDay(now, today)
    ensures now >= UtcMidnight(d) <==> DateAtMost(d, today)
    ensures now <= UtcMidnight(d) <==> DateLess(today, d) || (d == today && now == UtcMidnight(d))
  {
    EpochDayOrder(d, today);
    EpochDayOrder(today, d);
    var t, e := EpochDay(today), EpochDay(d);
    if e < t { assert e * MsPerDay + MsPerDay <= t * MsPerDay; }
    if t < e { assert t * MsPerDay + MsPerDay <= e * MsPerDay; }
  }
}
