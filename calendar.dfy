/** UTC calendar instants as JavaScript's `Date` and Python's `datetime`
    present them: a proleptic Gregorian date plus a time of day in
    milliseconds. `EpochMs` is the `Date.prototype.getTime()` value of an
    instant; `AddDays` is adding a whole number of 24-hour days to it. */
module Calendar {

  const DayMs: int := 86_400_000

  datatype UtcDate = UtcDate(year: int, month: int, day: int, msOfDay: int)

  predicate IsLeapYear(y: int) {
    y % 4 == 0 && (y % 100 != 0 || y % 400 == 0)
  }

  function DaysInMonth(y: int, m: int): (n: int)
    requires 1 <= m <= 12
    ensures 28 <= n <= 31
    ensures n == 29 <==> m == 2 && IsLeapYear(y)
  {
    if m == 2 then (if IsLeapYear(y) then 29 else 28)
    else if m == 4 || m == 6 || m == 9 || m == 11 then 30
    else 31
  }

  function YearLength(y: int): int {
    if IsLeapYear(y) then 366 else 365
  }

  /** A real calendar instant: the month exists, the day exists in that month,
      and the time of day is less than one day. */
  predicate Valid(d: UtcDate) {
    1 <= d.month <= 12 && 1 <= d.day <= DaysInMonth(d.year, d.month) &&
    0 <= d.msOfDay < DayMs
  }

  /** Days of year `y` before the first of month `m`. */
  function DaysBeforeMonth(y: int, m: int): (n: int)
    requires 1 <= m <= 12
    ensures 0 <= n <= 335
  {
    (if m == 1 then 0 else if m == 2 then 31 else if m == 3 then 59
     else if m == 4 then 90 else if m == 5 then 120 else if m == 6 then 151
     else if m == 7 then 181 else if m == 8 then 212 else if m == 9 then 243
     else if m == 10 then 273 else if m == 11 then 304 else 334)
    + (if m > 2 && IsLeapYear(y) then 1 else 0)
  }

  /** Month lengths add up: each month starts where the previous one ends, and
      December ends where the year does. */
  lemma MonthStep(y: int, m: int)
    requires 1 <= m <= 12
    ensures m < 12 ==> DaysBeforeMonth(y, m + 1) == DaysBeforeMonth(y, m) + DaysInMonth(y, m)
    ensures m == 12 ==> DaysBeforeMonth(y, m) + DaysInMonth(y, m) == YearLength(y)
  {
  }

  /** A month ends no later than any later month of the same year begins. */
  lemma {:induction false} MonthEndsBefore(y: int, m1: int, m2: int)
    requires 1 <= m1 < m2 <= 12
    ensures DaysBeforeMonth(y, m1) + DaysInMonth(y, m1) <= DaysBeforeMonth(y, m2)
    decreases m2 - m1
  {
    MonthStep(y, m2 - 1);
    if m1 < m2 - 1 {
      MonthEndsBefore(y, m1, m2 - 1);
    }
  }

  /** Leap years among the years before `y`, counted from a fixed origin. */
  function LeapYearsBefore(y: int): int {
    (y - 1) / 4 - (y - 1) / 100 + (y - 1) / 400
  }

  /** Day number of January 1 of year `y`, with 1970-01-01 as day 0. */
  function YearStartDay(y: int): int {
    365 * (y - 1970) + LeapYearsBefore(y) - LeapYearsBefore(1970)
  }

  /** Day number of the date of `d`, with 1970-01-01 as day 0. */
  function EpochDay(d: UtcDate): int
    requires Valid(d)
  {
    YearStartDay(d.year) + DaysBeforeMonth(d.year, d.month) + d.day - 1
  }

  /** Milliseconds since 1970-01-01T00:00:00Z (`Date.prototype.getTime()`). */
  function EpochMs(d: UtcDate): int
    requires Valid(d)
  {
    EpochDay(d) * DayMs + d.msOfDay
  }

  lemma DivStep(y: int)
    ensures y / 4 - (y - 1) / 4 == (if y % 4 == 0 then 1 else 0)
    ensures y / 100 - (y - 1) / 100 == (if y % 100 == 0 then 1 else 0)
    ensures y / 400 - (y - 1) / 400 == (if y % 400 == 0 then 1 else 0)
  {
  }

  /** Consecutive years start `YearLength` days apart. */
  lemma {:induction false} YearStartStep(y: int)
    ensures YearStartDay(y + 1) == YearStartDay(y) + YearLength(y)
  {
    DivStep(y);
  }

  /** Later years start later. */
  lemma {:induction false} YearStartIncreasing(y1: int, y2: int)
    requires y1 < y2
    ensures YearStartDay(y1 + 1) <= YearStartDay(y2)
    decreases y2 - y1
  {
    if y1 + 1 < y2 {
      YearStartIncreasing(y1 + 1, y2);
      YearStartStep(y1 + 1);
    }
  }

  /** A valid date lies within its own year. */
  lemma DayWithinYear(d: UtcDate)
    requires Valid(d)
    ensures YearStartDay(d.year) <= EpochDay(d) < YearStartDay(d.year + 1)
  {
    YearStartStep(d.year);
    if d.month < 12 {
      MonthEndsBefore(d.year, d.month, 12);
    }
    MonthStep(d.year, 12);
  }

  /** The calendar date following the date of `d`, at the same time of day. */
  function NextDay(d: UtcDate): (r: UtcDate)
    requires Valid(d)
    ensures Valid(r) && r.msOfDay == d.msOfDay
    ensures EpochDay(r) == EpochDay(d) + 1
  {
    MonthStep(d.year, d.month);
    if d.day < DaysInMonth(d.year, d.month) then d.(day := d.day + 1)
    else if d.month < 12 then d.(month := d.month + 1, day := 1)
    else
      YearStartStep(d.year);
      d.(year := d.year + 1, month := 1, day := 1)
  }

  /** The calendar date preceding the date of `d`, at the same time of day. */
  function PrevDay(d: UtcDate): (r: UtcDate)
    requires Valid(d)
    ensures Valid(r) && r.msOfDay == d.msOfDay
    ensures EpochDay(r) == EpochDay(d) - 1
  {
    if d.day > 1 then d.(day := d.day - 1)
    else if d.month > 1 then
      MonthStep(d.year, d.month - 1);
      d.(month := d.month - 1, day := DaysInMonth(d.year, d.month - 1))
    else
      YearStartStep(d.year - 1);
      MonthStep(d.year - 1, 12);
      d.(year := d.year - 1, month := 12, day := 31)
  }

  /** `d` moved by `n` whole days (backwards when `n` is negative). */
  function AddDays(d: UtcDate, n: int): (r: UtcDate)
    requires Valid(d)
    ensures Valid(r) && r.msOfDay == d.msOfDay
    ensures EpochDay(r) == EpochDay(d) + n
    decreases if n < 0 then -n else n
  {
    if n == 0 then d
    else if n > 0 then AddDays(NextDay(d), n - 1)
    else AddDays(PrevDay(d), n + 1)
  }

  /** Adding `n` days moves the instant by exactly `n` times 24 hours. */
  lemma AddDaysSpan(d: UtcDate, n: int)
    requires Valid(d)
    ensures EpochMs(AddDays(d, n)) - EpochMs(d) == n * DayMs
  {
  }

  /** Strict chronological order read off the fields: year, then month, then
      day, then time of day. */
  predicate Before(a: UtcDate, b: UtcDate) {
    a.year < b.year ||
    (a.year == b.year && (a.month < b.month ||
    (a.month == b.month && (a.day < b.day ||
    (a.day == b.day && a.msOfDay < b.msOfDay)))))
  }

  /** Comparing the fields of two valid dates is the same as comparing their
      `getTime()` values. */
  lemma EpochMsOrder(a: UtcDate, b: UtcDate)
    requires Valid(a) && Valid(b)
    ensures Before(a, b) <==> EpochMs(a) < EpochMs(b)
    ensures a == b <==> EpochMs(a) == EpochMs(b)
  {
    EpochDayOrder(a, b);
    EpochDayOrder(b, a);
  }

  lemma EpochDayOrder(a: UtcDate, b: UtcDate)
    requires Valid(a) && Valid(b)
    ensures Before(a, b) ==> EpochMs(a) < EpochMs(b)
    ensures a == b ==> EpochMs(a) == EpochMs(b)
  {
    if a.year < b.year {
      DayWithinYear(a);
      DayWithinYear(b);
      YearStartIncreasing(a.year, b.year);
    } else if a.year == b.year && a.month < b.month {
      MonthEndsBefore(a.year, a.month, b.month);
    }
  }
}
