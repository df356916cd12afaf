/** The Gregorian calendar by counting days, and the closed formula that the date parser uses. */
module Calendar {
  /** A moment in Coordinated Universal Time; months are numbered from 0. */
  datatype Date = Date(year: nat, month: nat, day: nat, hour: nat, min: nat, sec: nat)

  predicate IsLeap(year: int)
  {
    year % 4 == 0 && (year % 100 != 0 || year % 400 == 0)
  }

  function YearDays(year: int): int
  {
    if IsLeap(year) then 366 else 365
  }

  function MonthDays(year: int, month: nat): int
    requires month < 12
  {
    if month == 1 then (if IsLeap(year) then 29 else 28)
    else if month == 3 || month == 5 || month == 8 || month == 10 then 30
    else 31
  }

  /** Days from January 1, 1970 to January 1 of a year, year by year; negative before 1970. */
  function DaysToYear(year: int): int
    decreases if year >= 1970 then year - 1970 else 1970 - year
  {
    if year == 1970 then 0
    else if year > 1970 then DaysToYear(year - 1) + YearDays(year - 1)
    else DaysToYear(year + 1) - YearDays(year)
  }

  /** Days in the months of a year before this one. */
  function DaysToMonth(year: int, month: nat): int
    requires month <= 12
  {
    if month == 0 then 0 else DaysToMonth(year, month - 1) + MonthDays(year, month - 1)
  }

  predicate InRange(d: Date)
  {
    d.month < 12 && d.day <= MonthDays(d.year, d.month) && d.hour < 24 && d.min < 60 && d.sec < 60
  }

  /** A date of the calendar. */
  predicate Valid(d: Date)
  {
    InRange(d) && d.day >= 1
  }

  function DayNumber(d: Date): int
    requires d.month < 12
  {
    DaysToYear(d.year) + DaysToMonth(d.year, d.month) + d.day - 1
  }

  /** Seconds since the start of 1970, without leap seconds. */
  function Stamp(d: Date): int
    requires d.month < 12
  {
    86400 * DayNumber(d) + 3600 * d.hour + 60 * d.min + d.sec
  }

  /** The closed formula: days from March 1 of the year before year 1, for years that start in March. */
  function Gauss(year: int, month: int, day: int): int
  {
    365 * year + year / 4 - year / 100 + year / 400 + 367 * month / 12 - 30 + day - 1 - 719527 + 31 + 28
  }

  function Century(year: int): int
  {
    365 * year + year / 4 - year / 100 + year / 400
  }

  lemma CenturyStep(year: int)
    ensures Century(year) - Century(year - 1) == YearDays(year)
  {
    assert year / 4 - (year - 1) / 4 == if year % 4 == 0 then 1 else 0;
    assert year / 100 - (year - 1) / 100 == if year % 100 == 0 then 1 else 0;
    assert year / 400 - (year - 1) / 400 == if year % 400 == 0 then 1 else 0;
    assert year % 400 == 0 ==> year % 100 == 0;
    assert year % 100 == 0 ==> year % 4 == 0;
  }

  lemma {:induction false} YearsByFormula(year: int)
    ensures DaysToYear(year) == Century(year - 1) - 719162
    decreases if year >= 1970 then year - 1970 else 1970 - year
  {
    hide Century, YearDays;
    if year == 1970 {
      CenturyOf1969();
    } else if year > 1970 {
      YearsByFormula(year - 1);
      CenturyStep(year - 1);
    } else {
      YearsByFormula(year + 1);
      CenturyStep(year);
    }
  }

  lemma CenturyOf1969()
    ensures Century(1969) == 719162
  {
  }

  lemma MonthsByTable(year: int, month: nat)
    requires month <= 11
    ensures DaysToMonth(year, month) ==
      (if month == 0 then 0 else if month == 1 then 31
       else if month == 2 then 59 else if month == 3 then 90 else if month == 4 then 120 else if month == 5 then 151
       else if month == 6 then 181 else if month == 7 then 212 else if month == 8 then 243 else if month == 9 then 273
       else if month == 10 then 304 else 334)
      + if month >= 2 && IsLeap(year) then 1 else 0
  {
    assert DaysToMonth(year, 1) == 31;
    assert DaysToMonth(year, 2) == 59 + if IsLeap(year) then 1 else 0;
    assert DaysToMonth(year, 4) == 61 + DaysToMonth(year, 2);
    assert DaysToMonth(year, 6) == 61 + DaysToMonth(year, 4);
    assert DaysToMonth(year, 8) == 62 + DaysToMonth(year, 6);
    assert DaysToMonth(year, 10) == 61 + DaysToMonth(year, 8);
  }

  /** The formula counts the days, with January and February at the end of the year before. */
  lemma GaussCounts(d: Date)
    requires d.month < 12
    ensures DayNumber(d) ==
      if d.month < 2 then Gauss(d.year - 1, d.month + 11, d.day) else Gauss(d.year, d.month - 1, d.day)
  {
    hide IsLeap;
    YearsByFormula(d.year);
    MonthsByTable(d.year, d.month);
    CenturyStep(d.year);
    hide DaysToYear, DaysToMonth;
  }
}
