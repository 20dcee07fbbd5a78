/** Proleptic Gregorian calendar dates as (year, month, day) triples, with the
    day arithmetic that JavaScript's `Date` performs when a day-of-month or a
    month overflows (`setDate`, `Date.UTC`). */
module Calendar {

  /** `month` is 1-based (January is 1); `day` is 1-based. */
  datatype Date = Date(year: int, month: int, day: int)

  predicate IsLeapYear(y: int) {
    y % 4 == 0 && (y % 100 != 0 || y % 400 == 0)
  }

  function DaysInMonth(y: int, m: int): (n: int)
    requires 1 <= m <= 12
    ensures 28 <= n <= 31
    ensures n == 29 <==> m == 2 && IsLeapYear(y)
  {
    if m == 2 then (if IsLeapYear(y) then 29 else 28)
    else if m == 4 || m == 6 || m == 9 || m == 11 then 30
    else 31
  }

  predicate Valid(d: Date) {
    1 <= d.month <= 12 && 1 <= d.day <= DaysInMonth(d.year, d.month)
  }

  /** Strict chronological order: lexicographic on (year, month, day). */
  predicate Before(a: Date, b: Date) {
    a.year < b.year ||
    (a.year == b.year && (a.month < b.month || (a.month == b.month && a.day < b.day)))
  }

  /** The day after `d`, rolling over into the next month and year. */
  function NextDay(d: Date): (r: Date)
    requires Valid(d)
    ensures Valid(r) && Before(d, r)
    ensures r.day == 1 <==> d.day == DaysInMonth(d.year, d.month)
  {
    if d.day < DaysInMonth(d.year, d.month) then d.(day := d.day + 1)
    else if d.month < 12 then Date(d.year, d.month + 1, 1)
    else Date(d.year + 1, 1, 1)
  }

  /** The day before `d`, rolling back into the previous month and year. */
  function PrevDay(d: Date): (r: Date)
    requires Valid(d)
    ensures Valid(r) && Before(r, d)
    ensures d.day == 1 <==> r.day == DaysInMonth(r.year, r.month)
  {
    if d.day > 1 then d.(day := d.day - 1)
    else if d.month > 1 then Date(d.year, d.month - 1, DaysInMonth(d.year, d.month - 1))
    else Date(d.year - 1, 12, 31)
  }

  lemma PrevNextInverse(d: Date)
    requires Valid(d)
    ensures PrevDay(NextDay(d)) == d
    ensures NextDay(PrevDay(d)) == d
  {
  }

  /** NextDay is the immediate successor: no valid date lies strictly between. */
  lemma NextDayIsAdjacent(d: Date, e: Date)
    requires Valid(d) && Valid(e)
    ensures !(Before(d, e) && Before(e, NextDay(d)))
  {
  }

  /** `d` moved by `n` days (negative `n` moves backwards), the way
      `setDate(getDate() + n)` normalises an out-of-range day. */
  function AddDays(d: Date, n: int): (r: Date)
    requires Valid(d)
    ensures Valid(r)
    ensures n == 0 ==> r == d
    ensures n > 0 ==> Before(d, r)
    ensures n < 0 ==> Before(r, d)
    decreases if n < 0 then -n else n
  {
    if n == 0 then d
    else if n > 0 then AddDays(NextDay(d), n - 1)
    else AddDays(PrevDay(d), n + 1)
  }

  lemma AddDaysAfterNext(d: Date, k: int)
    requires Valid(d)
    ensures AddDays(NextDay(d), k) == AddDays(d, k + 1)
  {
    if k < 0 {
      PrevNextInverse(d);
      assert AddDays(NextDay(d), k) == AddDays(PrevDay(NextDay(d)), k + 1);
    }
  }

  lemma AddDaysAfterPrev(d: Date, k: int)
    requires Valid(d)
    ensures AddDays(PrevDay(d), k) == AddDays(d, k - 1)
  {
    if k > 0 {
      PrevNextInverse(d);
      assert AddDays(PrevDay(d), k) == AddDays(NextDay(PrevDay(d)), k - 1);
    }
  }

  /** Moving by `a` and then by `b` days is moving by `a + b` days. */
  lemma {:induction false} AddDaysCompose(d: Date, a: int, b: int)
    requires Valid(d)
    ensures AddDays(AddDays(d, a), b) == AddDays(d, a + b)
    decreases if a < 0 then -a else a
  {
    if a > 0 {
      AddDaysCompose(NextDay(d), a - 1, b);
      AddDaysAfterNext(d, a - 1 + b);
    } else if a < 0 {
      AddDaysCompose(PrevDay(d), a + 1, b);
      AddDaysAfterPrev(d, a + 1 + b);
    }
  }

  /** The first step of `Date.UTC`: a year from 0 to 99 means 1900 to 1999. */
  function MakeFullYear(y: int): int
  {
    if 0 <= y <= 99 then 1900 + y else y
  }

  /** The calendar date of `Date.UTC(y, m0, dt)`, where `m0` is a 0-based month
      that may lie outside 0..11 and `dt` a day that may lie outside the month:
      the month is folded into the year (floor division by 12) and the day is
      counted from the first of the resulting month. */
  function UtcDate(y: int, m0: int, dt: int): (r: Date)
    ensures Valid(r)
  {
    var yr := MakeFullYear(y);
    AddDays(Date(yr + m0 / 12, m0 % 12 + 1, 1), dt - 1)
  }

  /** A time of day on the UTC clock, to the millisecond. */
  datatype TimeOfDay = TimeOfDay(hour: int, minute: int, second: int, millisecond: int)

  predicate ValidTime(t: TimeOfDay) {
    0 <= t.hour < 24 && 0 <= t.minute < 60 && 0 <= t.second < 60 && 0 <= t.millisecond < 1000
  }

  const Midnight := TimeOfDay(0, 0, 0, 0)

  /** A point in time, as the calendar date and time of day it falls on. */
  datatype Instant = Instant(date: Date, time: TimeOfDay)

  predicate ValidInstant(i: Instant) {
    Valid(i.date) && ValidTime(i.time)
  }

  /** The range of instants a JavaScript `Date` can hold is ±8.64e15 ms around
      1970-01-01, that is from -271821-04-20 to +275760-09-13 (as midnights). */
  predicate InTimeRange(d: Date) {
    !Before(d, Date(-271821, 4, 20)) && !Before(Date(275760, 9, 13), d)
  }

  /** Whether a `Date` object can hold the instant; outside this range it is an
      "Invalid Date". */
  predicate InstantInRange(i: Instant) {
    InTimeRange(i.date) && (i.date == Date(275760, 9, 13) ==> i.time == Midnight)
  }
}
