/** From a count of seconds back to the calendar: every second is one date, and only one. */
module CalendarTime {
  import opened Calendar

  lemma YearStep(year: int)
    ensures DaysToYear(year + 1) == DaysToYear(year) + YearDays(year)
  {
  }

  lemma {:induction false} YearsAhead(a: int, b: int)
    requires a < b
    ensures DaysToYear(a + 1) <= DaysToYear(b)
    decreases b - a
  {
    hide DaysToYear;
    if a + 1 < b {
      YearsAhead(a, b - 1);
      YearStep(b - 1);
    }
  }

  lemma {:induction false} MonthsAhead(year: int, a: nat, b: nat)
    requires a < b <= 12
    ensures DaysToMonth(year, a) + MonthDays(year, a) <= DaysToMonth(year, b)
  {
    if a + 1 < b {
      MonthsAhead(year, a, b - 1);
    }
  }

  lemma MonthsFill(year: int)
    ensures DaysToMonth(year, 12) == YearDays(year)
  {
    MonthsByTable(year, 11);
  }

  /** The first second of a year. */
  function YearStart(year: int): int
  {
    86400 * DaysToYear(year)
  }

  /** The starts of some years, from the formula. */
  lemma YearStarts()
    ensures YearStart(0) == -62_167_219_200 && YearStart(1000) == -30_610_224_000 && YearStart(10000) == 253_402_300_800
    ensures YearStart(0x8000_0000) == 67_767_976_233_532_800
  {
    YearsByFormula(0);
    YearsByFormula(1000);
    YearsByFormula(10000);
    YearsByFormula(0x8000_0000);
    hide DaysToYear;
  }

  function YearFrom(days: int, year: nat): (r: nat)
    requires DaysToYear(year) <= days
    ensures DaysToYear(r) <= days < DaysToYear(r + 1)
    decreases days - DaysToYear(year)
  {
    YearStep(year);
    if days < DaysToYear(year + 1) then year else YearFrom(days, year + 1)
  }

  function MonthFrom(year: nat, days: nat, month: nat): (r: nat)
    requires month < 12 && DaysToMonth(year, month) <= days < DaysToMonth(year, 12)
    ensures r < 12 && DaysToMonth(year, r) <= days < DaysToMonth(year, r + 1)
    decreases 12 - month
  {
    if days < DaysToMonth(year, month + 1) then month else MonthFrom(year, days, month + 1)
  }

  lemma SecondOfDay(sec: nat)
    requires sec < 86400
    ensures 3600 * (sec / 3600) + 60 * (sec % 3600 / 60) + sec % 60 == sec && sec / 3600 < 24 && sec % 3600 / 60 < 60
  {
    assert sec % 3600 % 60 == sec % 60;
  }

  lemma Counted(time: int, year: nat, month: nat, day: nat, sec: nat)
    requires month < 12 && 1 <= day <= MonthDays(year, month) && sec < 86400
    requires time == 86400 * (DaysToYear(year) + DaysToMonth(year, month) + day - 1) + sec
    ensures var d := Date(year, month, day, sec / 3600, sec % 3600 / 60, sec % 60);
      Valid(d) && Stamp(d) == time
  {
    hide DaysToYear, DaysToMonth, MonthDays;
    SecondOfDay(sec);
  }

  /** What the C library's `gmtime_r` gives for a time, from year 0 on. */
  function DateOf(time: int): (d: Date)
    requires time >= -62_167_219_200
    ensures Valid(d) && Stamp(d) == time
  {
    YearStarts();
    var days, sec := time / 86400, time % 86400;
    var year := YearFrom(days, 0);
    YearStep(year);
    MonthsFill(year);
    var month := MonthFrom(year, days - DaysToYear(year), 0);
    Counted(time, year, month, days - DaysToYear(year) - DaysToMonth(year, month) + 1, sec);
    Date(year, month, days - DaysToYear(year) - DaysToMonth(year, month) + 1, sec / 3600, sec % 3600 / 60, sec % 60)
  }

  /** Days since a Sunday, in weeks: January 1, 1970 was a Thursday. */
  function WeekDay(time: int): (r: nat)
    ensures r < 7
  {
    (time / 86400 + 4) % 7
  }

  /** A date's day lies in its year, and in its month. */
  lemma DayLies(d: Date)
    requires Valid(d)
    ensures DaysToYear(d.year) <= DayNumber(d) < DaysToYear(d.year + 1)
    ensures var n := DayNumber(d) - DaysToYear(d.year);
      DaysToMonth(d.year, d.month) <= n < DaysToMonth(d.year, d.month) + MonthDays(d.year, d.month)
  {
    hide DaysToYear;
    YearStep(d.year);
    MonthsFill(d.year);
    MonthsAhead(d.year, d.month, 12);
    MonthsByTable(d.year, d.month);
    hide DaysToMonth;
  }

  lemma SecondsSplit(d: Date)
    requires InRange(d)
    ensures DayNumber(d) == Stamp(d) / 86400
    ensures 3600 * d.hour + 60 * d.min + d.sec == Stamp(d) - 86400 * DayNumber(d)
  {
    hide DayNumber;
    var sec := 3600 * d.hour + 60 * d.min + d.sec;
    assert 0 <= sec < 86400;
  }

  lemma SameClock(a: Date, b: Date)
    requires InRange(a) && InRange(b)
    requires 3600 * a.hour + 60 * a.min + a.sec == 3600 * b.hour + 60 * b.min + b.sec
    ensures a.hour == b.hour && a.min == b.min && a.sec == b.sec
  {
    hide MonthDays;
  }

  /** Two dates of the calendar with the same count of seconds are the same date. */
  lemma OneDate(a: Date, b: Date)
    requires Valid(a) && Valid(b) && Stamp(a) == Stamp(b)
    ensures a == b
  {
    hide DaysToYear, DaysToMonth, MonthDays;
    SecondsSplit(a);
    SecondsSplit(b);
    SameClock(a, b);
    DayLies(a);
    DayLies(b);
    if a.year != b.year {
      YearsAhead(if a.year < b.year then a.year else b.year, if a.year < b.year then b.year else a.year);
      assert false;
    }
    if a.month != b.month {
      var low, high := if a.month < b.month then a.month else b.month, if a.month < b.month then b.month else a.month;
      MonthsAhead(a.year, low, high);
      assert false;
    }
  }

  /** The years of a date, by its count of seconds. */
  lemma YearRange(d: Date, year: nat)
    requires Valid(d)
    ensures YearStart(year) <= Stamp(d) <==> year <= d.year
  {
    hide DaysToYear, DaysToMonth, DayNumber, Stamp;
    DayLies(d);
    SecondsSplit(d);
    if year <= d.year {
      if year < d.year {
        YearsAhead(year, d.year);
        YearStep(year);
      }
    } else {
      YearsAhead(d.year, year);
    }
  }

  /** Every second from year 0 on is the count of exactly one date of the calendar. */
  lemma EverySecondIsOneDate(time: int)
    requires time >= -62_167_219_200
    ensures Valid(DateOf(time)) && Stamp(DateOf(time)) == time
    ensures forall d :: Valid(d) && Stamp(d) == time ==> d == DateOf(time)
    ensures forall d :: Valid(d) ==> Stamp(d) >= -62_167_219_200
  {
    hide Stamp, DateOf, YearStart;
    YearStarts();
    forall d | Valid(d) && Stamp(d) == time
      ensures d == DateOf(time)
    {
      OneDate(d, DateOf(time));
    }
    forall d | Valid(d)
      ensures Stamp(d) >= -62_167_219_200
    {
      YearRange(d, 0);
    }
  }
}
