/** Dates as day numbers in the proleptic Gregorian calendar, numbered as Python's
    date.toordinal() numbers them (1 January of year 1 is day 1). The simulation only
    compares dates and subtracts them, so a day number carries all it needs. */
module Calendar {

  predicate IsLeapYear(y: int)
  {
    y % 4 == 0 && (y % 100 != 0 || y % 400 == 0)
  }

  /** Days in the years before year y (Python's _days_before_year). */
  function DaysBeforeYear(y: int): int
  {
    var p := y - 1;
    p * 365 + p / 4 - p / 100 + p / 400
  }

  function DaysInMonth(y: int, m: int): int
    requires 1 <= m <= 12
  {
    if m == 2 then (if IsLeapYear(y) then 29 else 28)
    else if m == 4 || m == 6 || m == 9 || m == 11 then 30
    else 31
  }

  /** Days in the months of year y before month m. */
  function DaysBeforeMonth(y: int, m: int): (days: int)
    requires 1 <= m <= 12
    decreases m
  {
    if m == 1 then 0 else DaysBeforeMonth(y, m - 1) + DaysInMonth(y, m - 1)
  }

  predicate ValidDate(y: int, m: int, d: int)
  {
    1 <= y <= 9999 && 1 <= m <= 12 && 1 <= d <= DaysInMonth(y, m)
  }

  /** The day number of a date, as Python's date(y, m, d).toordinal(). */
  function DayNumber(y: int, m: int, d: int): int
    requires ValidDate(y, m, d)
  {
    DaysBeforeYear(y) + DaysBeforeMonth(y, m) + d
  }

  /** A year y has 365 days, plus one in a leap year. */
  lemma DaysInYear(y: int)
    ensures DaysBeforeYear(y + 1) - DaysBeforeYear(y) == if IsLeapYear(y) then 366 else 365
  {
    var p := y - 1;
    assert y == p + 1;
    assert (p + 1) / 4 - p / 4 == if (p + 1) % 4 == 0 then 1 else 0;
    assert (p + 1) / 100 - p / 100 == if (p + 1) % 100 == 0 then 1 else 0;
    assert (p + 1) / 400 - p / 400 == if (p + 1) % 400 == 0 then 1 else 0;
  }

  /** The UK tax year y runs from 6 April of y to 5 April of y+1. */
  function TaxYearStart(y: int): int
    requires 1 <= y <= 9998
  {
    DayNumber(y, 4, 6)
  }

  function TaxYearEnd(y: int): int
    requires 1 <= y <= 9998
  {
    DayNumber(y + 1, 4, 5)
  }

  /** The last day of a tax year is 364 days after its first, or 365 when the February
      it contains (that of year y+1) has 29 days. */
  lemma TaxYearSpan(y: int)
    requires 1 <= y <= 9998
    ensures TaxYearEnd(y) - TaxYearStart(y) == if IsLeapYear(y + 1) then 365 else 364
    ensures 364 <= TaxYearEnd(y) - TaxYearStart(y) <= 365
  {
    DaysInYear(y);
    assert DaysBeforeMonth(y, 4) == 90 + (if IsLeapYear(y) then 1 else 0);
    assert DaysBeforeMonth(y + 1, 4) == 90 + (if IsLeapYear(y + 1) then 1 else 0);
  }

  /** Consecutive tax years follow each other without a gap. */
  lemma TaxYearsAdjoin(y: int)
    requires 1 <= y <= 9997
    ensures TaxYearStart(y + 1) == TaxYearEnd(y) + 1
  {
  }

  /** Later years start later. */
  lemma {:induction false} DaysBeforeYearGrows(a: int, b: int)
    requires a <= b
    ensures DaysBeforeYear(a) + 365 * (b - a) <= DaysBeforeYear(b)
    decreases b - a
  {
    if a < b {
      DaysBeforeYearGrows(a, b - 1);
      DaysInYear(b - 1);
    }
  }

  /** An earlier tax year ends before a later one starts. */
  lemma TaxYearsOrdered(y1: int, y2: int)
    requires 1 <= y1 < y2 <= 9998
    ensures TaxYearEnd(y1) < TaxYearStart(y2)
  {
    DaysBeforeYearGrows(y1 + 1, y2);
  }

  /** 25 October 2024, the date from which the defined-benefit pension is paid. */
  function DefinedBenefitDate(): (day: int)
    ensures TaxYearStart(2024) <= day <= TaxYearEnd(2024)
    ensures TaxYearEnd(2024) - day == 162
  {
    DayNumber(2024, 10, 25)
  }
}
