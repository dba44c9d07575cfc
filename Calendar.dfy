/**
 * The proleptic Gregorian calendar as Python's `datetime.date` counts it:
 * a date maps to its day number (`date.toordinal()`, 1 January of year 1
 * is day 1), and subtracting two dates gives the difference of their day
 * numbers. The formulas are defined for every integer year, so that the
 * JavaScript side (which accepts any year) can use them too.
 */
module Calendar {

  datatype Date = Date(year: int, month: int, day: int)

  predicate IsLeapYear(year: int)
  {
    year % 4 == 0 && (year % 100 != 0 || year % 400 == 0)
  }

  function YearLength(year: int): int
  {
    if IsLeapYear(year) then 366 else 365
  }

  /** Length of month `month` (1 = January) of `year`. */
  function DaysInMonth(year: int, month: int): (n: int)
    requires 1 <= month <= 12
    ensures 28 <= n <= 31
    ensures month == 2 ==> (n == 29 <==> IsLeapYear(year)) && n <= 29
    ensures month != 2 ==> (n == 30 <==> month in {4, 6, 9, 11}) && n >= 30
  {
    if month == 2 then (if IsLeapYear(year) then 29 else 28)
    else if month == 4 || month == 6 || month == 9 || month == 11 then 30
    else 31
  }

  predicate ValidDate(d: Date)
  {
    1 <= d.month <= 12 && 1 <= d.day <= DaysInMonth(d.year, d.month)
  }

  /** Days of the months of `year` before month `month`, summed month by month. */
  function DaysBeforeMonth(year: int, month: int): int
    requires 1 <= month <= 13
  {
    if month == 1 then 0 else DaysBeforeMonth(year, month - 1) + DaysInMonth(year, month - 1)
  }

  /** The twelve months make up the whole year. */
  lemma {:induction false} MonthsFillYear(year: int)
    ensures DaysBeforeMonth(year, 13) == YearLength(year)
  {
    var leap := if IsLeapYear(year) then 1 else 0;
    assert DaysBeforeMonth(year, 2) == 31;
    assert DaysBeforeMonth(year, 3) == 59 + leap;
    assert DaysBeforeMonth(year, 4) == 90 + leap;
    assert DaysBeforeMonth(year, 5) == 120 + leap;
    assert DaysBeforeMonth(year, 6) == 151 + leap;
    assert DaysBeforeMonth(year, 7) == 181 + leap;
    assert DaysBeforeMonth(year, 8) == 212 + leap;
    assert DaysBeforeMonth(year, 9) == 243 + leap;
    assert DaysBeforeMonth(year, 10) == 273 + leap;
    assert DaysBeforeMonth(year, 11) == 304 + leap;
    assert DaysBeforeMonth(year, 12) == 334 + leap;
  }

  /**
   * Days in the years before `year`, in closed form: the count Python's
   * `_days_before_year` makes with floor division (Dafny's `/` agrees with
   * floor division for a positive divisor).
   */
  function DaysBeforeYear(year: int): int
  {
    var y := year - 1;
    y * 365 + y / 4 - y / 100 + y / 400
  }

  /** Floor division by 4, 100 and 400 steps up by one exactly at the multiples. */
  lemma DivStep(a: int)
    ensures (a + 1) / 4 == a / 4 + (if (a + 1) % 4 == 0 then 1 else 0)
    ensures (a + 1) / 100 == a / 100 + (if (a + 1) % 100 == 0 then 1 else 0)
    ensures (a + 1) / 400 == a / 400 + (if (a + 1) % 400 == 0 then 1 else 0)
  {
  }

  /** Consecutive closed-form counts differ by exactly one year length. */
  lemma YearStep(year: int)
    ensures DaysBeforeYear(year + 1) == DaysBeforeYear(year) + YearLength(year)
  {
    DivStep(year - 1);
    CenturiesAreLeapCandidates(year);
    var leap := if IsLeapYear(year) then 1 else 0;
    assert year / 4 - year / 100 + year / 400 == (year - 1) / 4 - (year - 1) / 100 + (year - 1) / 400 + leap;
  }

  /** Multiples of 400 are multiples of 100, and multiples of 100 are multiples of 4. */
  lemma CenturiesAreLeapCandidates(year: int)
    ensures year % 100 == 0 ==> year % 4 == 0
    ensures year % 400 == 0 ==> year % 100 == 0
  {
    if year % 100 == 0 {
      var k := year / 100;
      assert year == 4 * (25 * k);
    }
    if year % 400 == 0 {
      var k := year / 400;
      assert year == 100 * (4 * k);
    }
  }

  /** Reference count: the lengths of the years 1 .. year - 1 added one by one. */
  function YearsBefore(year: int): int
    requires year >= 1
    decreases year
  {
    if year == 1 then 0 else YearsBefore(year - 1) + YearLength(year - 1)
  }

  /** The closed form is the year-by-year sum, so day 1 is 1 January of year 1. */
  lemma {:induction false} DaysBeforeYearIsSum(year: int)
    requires year >= 1
    ensures DaysBeforeYear(year) == YearsBefore(year)
    decreases year
  {
    if year > 1 {
      DaysBeforeYearIsSum(year - 1);
      YearStep(year - 1);
    }
  }

  /** Python's `date.toordinal()`. */
  function Ordinal(d: Date): int
    requires 1 <= d.month <= 12
  {
    DaysBeforeYear(d.year) + DaysBeforeMonth(d.year, d.month) + d.day
  }

  /** The calendar day after a valid date. */
  function NextDate(d: Date): (r: Date)
    requires ValidDate(d)
    ensures ValidDate(r)
  {
    if d.day < DaysInMonth(d.year, d.month) then Date(d.year, d.month, d.day + 1)
    else if d.month < 12 then Date(d.year, d.month + 1, 1)
    else Date(d.year + 1, 1, 1)
  }

  /** Day numbers count consecutive days, across month and year ends. */
  lemma OrdinalNext(d: Date)
    requires ValidDate(d)
    ensures Ordinal(NextDate(d)) == Ordinal(d) + 1
  {
    if d.day == DaysInMonth(d.year, d.month) && d.month == 12 {
      YearStep(d.year);
      MonthsFillYear(d.year);
    }
  }

  /** The last day of a month is one day before the first of the following month. */
  lemma LastDayBeforeFirst(year: int, month: int)
    requires 1 <= month <= 12
    ensures var last := Date(year, month, DaysInMonth(year, month));
            var first := if month < 12 then Date(year, month + 1, 1) else Date(year + 1, 1, 1);
            ValidDate(last) && NextDate(last) == first && Ordinal(last) + 1 == Ordinal(first)
  {
    OrdinalNext(Date(year, month, DaysInMonth(year, month)));
  }
}
