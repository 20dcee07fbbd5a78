/** The date window an import covers: either the last N days up to now, or one
    whole calendar month, as the start of the run computes it. */
module DateWindow {
  import opened Wrappers
  import opened Calendar
  import opened IsoFormat

  /** The `startDate` and `endDate` handed to the transaction query. */
  datatype Window = Window(start: Instant, end: Instant)

  /** Month mode: `Date.UTC(y, m0, 1)` to `Date.UTC(y, m0 + 1, 0)`, both at
      midnight UTC; day 0 of the next month is the last day of this one. */
  function MonthWindow(year: int, month0: int): (w: Window)
    ensures ValidInstant(w.start) && ValidInstant(w.end)
    ensures w.start.time == Midnight && w.end.time == Midnight
  {
    Window(Instant(UtcDate(year, month0, 1), Midnight), Instant(UtcDate(year, month0 + 1, 0), Midnight))
  }

  /** For a 0-based month of a year outside 0..99 the window runs from the
      first to the last day of that month, and never spills into the next. */
  lemma MonthWindowSpansMonth(year: int, month0: int)
    requires !(0 <= year <= 99) && 0 <= month0 <= 11
    ensures MonthWindow(year, month0).start.date == Date(year, month0 + 1, 1)
    ensures MonthWindow(year, month0).end.date == Date(year, month0 + 1, DaysInMonth(year, month0 + 1))
  {
    var first := Date(year + (month0 + 1) / 12, (month0 + 1) % 12 + 1, 1);
    assert UtcDate(year, month0 + 1, 0) == AddDays(first, -1) == AddDays(PrevDay(first), 0);
  }

  /** `Date.UTC` reads a year from 0 to 99 as 1900 to 1999, so the window of
      such a year lies in the twentieth century. */
  lemma MonthWindowTwoDigitYear(year: int, month0: int)
    requires 0 <= year <= 99 && 0 <= month0 <= 11
    ensures MonthWindow(year, month0).start.date == Date(1900 + year, month0 + 1, 1)
    ensures MonthWindow(year, month0).end.date == Date(1900 + year, month0 + 1, DaysInMonth(1900 + year, month0 + 1))
  {
    var first := Date(1900 + year + (month0 + 1) / 12, (month0 + 1) % 12 + 1, 1);
    assert UtcDate(year, month0 + 1, 0) == AddDays(first, -1) == AddDays(PrevDay(first), 0);
  }

  /** The window of a run: a non-zero `days` option selects the last `days`
      days ending now (`setDate(getDate() - days)` keeps the time of day);
      otherwise the month given as the year and 0-based month of the month
      option. */
  function SyncWindow(days: int, year: int, month0: int, now: Instant): (w: Window)
    requires ValidInstant(now)
    ensures ValidInstant(w.start) && ValidInstant(w.end)
  {
    if days != 0 then Window(Instant(AddDays(now.date, -days), now.time), now)
    else MonthWindow(year, month0)
  }

  /** Days mode ends now and starts `days` days earlier at the same time of
      day; walking `days` days forward from the start gives today again. */
  lemma DaysWindowEndsNow(days: int, year: int, month0: int, now: Instant)
    requires ValidInstant(now) && days != 0
    ensures SyncWindow(days, year, month0, now).end == now
    ensures SyncWindow(days, year, month0, now).start.time == now.time
    ensures AddDays(SyncWindow(days, year, month0, now).start.date, days) == now.date
    ensures days > 0 ==> Before(SyncWindow(days, year, month0, now).start.date, now.date)
    ensures days < 0 ==> Before(now.date, SyncWindow(days, year, month0, now).start.date)
  {
    AddDaysCompose(now.date, -days, days);
  }

  lemma March2024Strings()
    ensures IsoDate(Date(2024, 3, 1)) == "2024-03-01"
    ensures IsoDate(Date(2024, 3, 31)) == "2024-03-31"
  {
    assert Digits(2024, 4) == "2024" by {
      assert Digits(2, 1) == "2";
      assert Digits(20, 2) == "20";
      assert Digits(202, 3) == "202";
    }
    assert Digits(3, 2) == "03" && Digits(1, 2) == "01" by {
      assert Digits(0, 1) == "0";
    }
    assert Digits(31, 2) == "31" by {
      assert Digits(3, 1) == "3";
    }
  }

  /** The month option "2024-03": March 1 to March 31, sent as 2024-03-01 and 2024-03-31. */
  lemma March2024Window()
    ensures MonthWindow(2024, 2) == Window(Instant(Date(2024, 3, 1), Midnight), Instant(Date(2024, 3, 31), Midnight))
    ensures QueryDate(MonthWindow(2024, 2).start) == Success("2024-03-01")
    ensures QueryDate(MonthWindow(2024, 2).end) == Success("2024-03-31")
  {
    MonthWindowSpansMonth(2024, 2);
    March2024Strings();
  }

  /** February of a leap year ends on the 29th. */
  lemma LeapFebruaryWindow()
    ensures MonthWindow(2024, 1).end.date == Date(2024, 2, 29)
    ensures MonthWindow(2023, 1).end.date == Date(2023, 2, 28)
  {
    MonthWindowSpansMonth(2024, 1);
    MonthWindowSpansMonth(2023, 1);
  }
}
