/**
 * Calendar dates as the JavaScript `Date` setters treat them: a year, a month
 * numbered 0..11, a day of the month and a time of day in milliseconds.
 * `MakeDate` is the normalisation `new Date(y, m, d)` and the setters
 * `setDate`, `setMonth` and `setFullYear` perform: the month is reduced
 * modulo 12 into the year, then an out-of-range day rolls into the following
 * (or preceding) months. Nothing is clamped: January 31 plus one month is in
 * March. All dates are in one time zone.
 */
module Dates {

  const MsPerDay: int := 86400000

  datatype Date = Date(year: int, month: int, day: int, time: int)

  predicate IsLeapYear(y: int) {
    y % 4 == 0 && (y % 100 != 0 || y % 400 == 0)
  }

  function DaysInMonth(y: int, m: int): (n: int)
    requires 0 <= m < 12
    ensures 28 <= n <= 31
    ensures n == 29 <==> m == 1 && IsLeapYear(y)
  {
    if m == 1 then (if IsLeapYear(y) then 29 else 28)
    else if m == 3 || m == 5 || m == 8 || m == 10 then 30
    else 31
  }

  /** A date the `Date` object can hold: month in range, day within that month. */
  predicate Valid(d: Date) {
    0 <= d.month < 12 && 1 <= d.day <= DaysInMonth(d.year, d.month) && 0 <= d.time < MsPerDay
  }

  /** (year, month) is at or after (y, m). */
  predicate MonthAtOrAfter(year: int, month: int, y: int, m: int) {
    year > y || (year == y && month >= m)
  }

  /** Moves a day number >= 1 forward month by month until it fits. */
  function RollForward(y: int, m: int, day: int, t: int): (r: Date)
    requires 0 <= m < 12 && 1 <= day && 0 <= t < MsPerDay
    ensures Valid(r) && r.time == t
    ensures MonthAtOrAfter(r.year, r.month, y, m)
    ensures r.year == y && r.month == m ==> r.day == day
    decreases day
  {
    if day <= DaysInMonth(y, m) then Date(y, m, day, t)
    else if m == 11 then RollForward(y + 1, 0, day - 31, t)
    else RollForward(y, m + 1, day - DaysInMonth(y, m), t)
  }

  /** Moves a day number <= 0 back month by month until it fits. */
  function RollBackward(y: int, m: int, day: int, t: int): (r: Date)
    requires 0 <= m < 12 && day <= 0 && 0 <= t < MsPerDay
    ensures Valid(r) && r.time == t
    ensures !MonthAtOrAfter(r.year, r.month, y, m)
    decreases -day
  {
    var py := if m == 0 then y - 1 else y;
    var pm := if m == 0 then 11 else m - 1;
    var d := day + DaysInMonth(py, pm);
    if d >= 1 then Date(py, pm, d, t) else RollBackward(py, pm, d, t)
  }

  /** `new Date(y, m, day)` at time of day `t`, with JavaScript's normalisation. */
  function MakeDate(y: int, m: int, day: int, t: int): (r: Date)
    requires 0 <= t < MsPerDay
    ensures Valid(r) && r.time == t
  {
    var y' := y + m / 12;
    var m' := m % 12;
    if day >= 1 then RollForward(y', m', day, t) else RollBackward(y', m', day, t)
  }

  /** `d.setDate(d.getDate() + n)` */
  function AddDays(d: Date, n: int): Date
    requires Valid(d)
  {
    MakeDate(d.year, d.month, d.day + n, d.time)
  }

  /** `d.setMonth(d.getMonth() + n)`: keeps the day number, which may overflow. */
  function AddMonths(d: Date, n: int): Date
    requires Valid(d)
  {
    MakeDate(d.year, d.month + n, d.day, d.time)
  }

  /** `setMonth(getMonth() + 0)` leaves a valid date as it is. */
  lemma AddMonthsZero(d: Date)
    requires Valid(d)
    ensures AddMonths(d, 0) == d
  {
    assert d.month / 12 == 0 && d.month % 12 == d.month;
  }

  /** `d.setFullYear(d.getFullYear() + n)` */
  function AddYears(d: Date, n: int): Date
    requires Valid(d)
  {
    MakeDate(d.year + n, d.month, d.day, d.time)
  }

  /** `d.setDate(day)` */
  function WithDay(d: Date, day: int): Date
    requires Valid(d)
  {
    MakeDate(d.year, d.month, day, d.time)
  }

  /** Chronological order, strict. */
  predicate Before(a: Date, b: Date) {
    a.year < b.year ||
    (a.year == b.year &&
      (a.month < b.month ||
        (a.month == b.month && (a.day < b.day || (a.day == b.day && a.time < b.time)))))
  }

  /** Chronological order, `a <= b` on two `Date` objects. */
  predicate AtOrBefore(a: Date, b: Date) {
    Before(a, b) || a == b
  }

  /** `new Date(null)`: the epoch, which JavaScript substitutes for a null date. */
  const Epoch: Date := Date(1970, 0, 1, 0)

  /** `new Date(y, m, 1)`: midnight on the first of the month. */
  function MonthStart(y: int, m: int): (r: Date)
    requires 0 <= m < 12
    ensures Valid(r)
  {
    Date(y, m, 1, 0)
  }

  /** `new Date(y, m + 1, 0)`: midnight at the START of the month's last day. */
  function MonthWindowEnd(y: int, m: int): Date
    requires 0 <= m < 12
  {
    MakeDate(y, m + 1, 0, 0)
  }

  /** Both ends inclusive, as Prisma's `gte`/`lte` filter. */
  predicate InWindow(d: Date, start: Date, end: Date) {
    AtOrBefore(start, d) && AtOrBefore(d, end)
  }

  /** The window `[y-m-01 00:00, y-m-last 00:00]` a month's queries use. */
  predicate InMonthWindow(d: Date, y: int, m: int)
    requires 0 <= m < 12
  {
    InWindow(d, MonthStart(y, m), MonthWindowEnd(y, m))
  }

  // ---------------------------------------------------------------------
  // Properties

  lemma MonthWindowEndIsLastDay(y: int, m: int)
    requires 0 <= m < 12
    ensures MonthWindowEnd(y, m) == Date(y, m, DaysInMonth(y, m), 0)
  {
    if m == 11 {
      assert (m + 1) / 12 == 1 && (m + 1) % 12 == 0;
    } else {
      assert (m + 1) / 12 == 0 && (m + 1) % 12 == m + 1;
    }
  }

  /** A month window holds exactly the days of that month up to midnight of its last day. */
  lemma InMonthWindowIff(d: Date, y: int, m: int)
    requires 0 <= m < 12 && Valid(d)
    ensures InMonthWindow(d, y, m) <==>
      d.year == y && d.month == m && (d.day < DaysInMonth(y, m) || d.time == 0)
  {
    MonthWindowEndIsLastDay(y, m);
  }

  lemma {:induction false} AddDaysIsLater(d: Date, n: int)
    requires Valid(d) && n >= 1
    ensures Before(d, AddDays(d, n))
  {
    var r := RollForward(d.year, d.month, d.day + n, d.time);
    assert d.month / 12 == 0 && d.month % 12 == d.month;
    assert AddDays(d, n) == r;
  }

  lemma {:induction false} AddMonthsIsLater(d: Date, n: int)
    requires Valid(d) && n >= 1
    ensures Before(d, AddMonths(d, n))
  {
    var y' := d.year + (d.month + n) / 12;
    var m' := (d.month + n) % 12;
    assert y' > d.year || (y' == d.year && m' > d.month);
  }

  lemma {:induction false} AddYearsIsLater(d: Date, n: int)
    requires Valid(d) && n >= 1
    ensures Before(d, AddYears(d, n))
  {
    assert d.month / 12 == 0 && d.month % 12 == d.month;
  }

  /** `setMonth` does not clamp: January 31 plus one month lands in March. */
  lemma MonthlyStepOverflows()
    ensures AddMonths(Date(2024, 0, 31, 0), 1) == Date(2024, 2, 2, 0)
    ensures AddMonths(Date(2023, 0, 31, 0), 1) == Date(2023, 2, 3, 0)
  {
    assert DaysInMonth(2024, 1) == 29;
    assert RollForward(2024, 1, 31, 0) == RollForward(2024, 2, 2, 0);
    assert DaysInMonth(2023, 1) == 28;
    assert RollForward(2023, 1, 31, 0) == RollForward(2023, 2, 3, 0);
  }

  lemma WeeklyAndDailySteps()
    ensures AddDays(Date(2024, 2, 15, 0), 7) == Date(2024, 2, 22, 0)
    ensures AddDays(Date(2023, 11, 31, 5), 1) == Date(2024, 0, 1, 5)
  {
    assert RollForward(2023, 11, 32, 5) == RollForward(2024, 0, 1, 5);
  }

  /** A yearly step from February 29 rolls to March 1. */
  lemma YearlyStepFromLeapDay()
    ensures AddYears(Date(2024, 0, 1, 0), 1) == Date(2025, 0, 1, 0)
    ensures AddYears(Date(2024, 1, 29, 0), 1) == Date(2025, 2, 1, 0)
  {
    assert DaysInMonth(2025, 1) == 28;
    assert RollForward(2025, 1, 29, 0) == RollForward(2025, 2, 1, 0);
  }
}
