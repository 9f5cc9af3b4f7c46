/**
 * `dateToJD` of src/controllers/processing_sim_data.js: Meeus' conversion
 * of a Gregorian calendar date to the Julian Date of its 00:00 UTC. The
 * two floating products `365.25 * n` and `30.6001 * k` are floored, so they
 * are written here as exact integer divisions `1461 * n / 4` and
 * `306001 * k / 10000` (Dafny's `/` with a positive divisor floors, as
 * `Math.floor` does).
 */
module JulianDate {
  /** January and February count as months 13 and 14 of the previous year. */
  function ShiftedYear(y: int, m: int): (r: int)
    ensures m <= 2 ==> r == y - 1
    ensures m > 2 ==> r == y
  {
    if m <= 2 then y - 1 else y
  }

  function ShiftedMonth(m: int): (r: int)
    ensures m <= 2 ==> r == m + 12
    ensures m > 2 ==> r == m
  {
    if m <= 2 then m + 12 else m
  }

  /** `Math.floor(365.25 * (y + 4716))`. */
  function YearDays(y: int): int {
    (1461 * (y + 4716)) / 4
  }

  /** `Math.floor(30.6001 * (m + 1))`. */
  function MonthDays(m: int): int {
    (306001 * (m + 1)) / 10000
  }

  /** The Gregorian correction `B = 2 - A + floor(A / 4)` with `A = floor(y / 100)`. */
  function Correction(y: int): int {
    var a := y / 100;
    2 - a + a / 4
  }

  /** `dateToJD` for the numbers the date string splits into. */
  function DateToJD(year: int, month: int, day: int): (jd: real)
    ensures (jd + 0.5).Floor as real == jd + 0.5
  {
    var y := ShiftedYear(year, month);
    var m := ShiftedMonth(month);
    var n := YearDays(y) + MonthDays(m) + day + Correction(y);
    assert n as real - 1524.5 + 0.5 == (n - 1524) as real;
    n as real - 1524.5
  }

  /** The day of the month moves the Julian Date one for one. */
  lemma NextDayInMonth(year: int, month: int, day: int, k: int)
    ensures DateToJD(year, month, day + k) == DateToJD(year, month, day) + k as real
  {
  }

  predicate IsLeapYear(y: int) {
    y % 4 == 0 && (y % 100 != 0 || y % 400 == 0)
  }

  function DaysInMonth(y: int, m: int): (n: int)
    requires 1 <= m <= 12
    ensures 28 <= n <= 31
  {
    if m == 2 then (if IsLeapYear(y) then 29 else 28)
    else if m == 4 || m == 6 || m == 9 || m == 11 then 30
    else 31
  }

  predicate ValidDate(y: int, m: int, d: int) {
    1 <= m <= 12 && 1 <= d <= DaysInMonth(y, m)
  }

  /** The calendar day after a valid date. */
  function NextDay(y: int, m: int, d: int): (r: (int, int, int))
    requires ValidDate(y, m, d)
    ensures ValidDate(r.0, r.1, r.2)
  {
    if d < DaysInMonth(y, m) then (y, m, d + 1)
    else if m < 12 then (y, m + 1, 1)
    else (y + 1, 1, 1)
  }

  /** `365.25 * n` floored: 365 days a year and one more every fourth. */
  lemma YearDaysSplit(n: int)
    ensures (1461 * n) / 4 == 365 * n + n / 4
  {
    assert 1461 * n == 4 * (365 * n) + n;
  }

  /** The `365.25`-day count grows by 366 into a year divisible by four, else by 365. */
  lemma YearDaysStep(y: int)
    ensures YearDays(y) - YearDays(y - 1) == if y % 4 == 0 then 366 else 365
  {
    YearDaysSplit(y + 4716);
    YearDaysSplit(y - 1 + 4716);
    var n := y + 4716;
    assert n / 4 - (n - 1) / 4 == (if n % 4 == 0 then 1 else 0);
    assert n % 4 == y % 4;
  }

  /** The Gregorian correction drops a day into each century year not divisible by 400. */
  lemma CorrectionStep(y: int)
    ensures Correction(y) - Correction(y - 1)
         == if y % 100 == 0 && y % 400 != 0 then -1 else 0
  {
    var a := y / 100;
    if y % 100 == 0 {
      assert (y - 1) / 100 == a - 1;
      assert a / 4 - (a - 1) / 4 == (if a % 4 == 0 then 1 else 0);
      assert (a % 4 == 0) == (y % 400 == 0);
    } else {
      assert (y - 1) / 100 == a;
    }
  }

  /** A shifted year (March to February) has 366 days exactly when the February in it has 29. */
  lemma YearLength(y: int)
    ensures YearDays(y) + Correction(y) - (YearDays(y - 1) + Correction(y - 1))
         == if IsLeapYear(y) then 366 else 365
  {
    YearDaysStep(y);
    CorrectionStep(y);
  }

  /** In the shifted calendar (March is 3, February 14) each month's floored offset grows by that month's length. */
  lemma MonthStep(m: int)
    requires 3 <= m <= 13
    ensures MonthDays(m + 1) - MonthDays(m) == if m == 4 || m == 6 || m == 9 || m == 11 then 30 else 31
  {
    if m == 3 {} else if m == 4 {} else if m == 5 {} else if m == 6 {} else if m == 7 {}
    else if m == 8 {} else if m == 9 {} else if m == 10 {} else if m == 11 {} else if m == 12 {}
    else {}
  }

  /** The Julian Date as the integer day count `n` behind it. */
  function DayNumber(year: int, month: int, day: int): int {
    var y := ShiftedYear(year, month);
    YearDays(y) + MonthDays(ShiftedMonth(month)) + day + Correction(y)
  }

  lemma DateToJDIsDayNumber(year: int, month: int, day: int)
    ensures DateToJD(year, month, day) == DayNumber(year, month, day) as real - 1524.5
  {
  }

  /** The day count of the next calendar day is one more, across month and year ends and in leap years. */
  lemma NextDayNumber(y: int, m: int, d: int)
    requires ValidDate(y, m, d)
    ensures var n := NextDay(y, m, d); DayNumber(n.0, n.1, n.2) == DayNumber(y, m, d) + 1
  {
    var n := NextDay(y, m, d);
    if d < DaysInMonth(y, m) {
      assert n == (y, m, d + 1);
    } else if m == 2 {
      assert n == (y, 3, 1);
      YearLength(y);
    } else if m == 12 {
      assert n == (y + 1, 1, 1);
      MonthStep(12);
    } else if m == 1 {
      assert n == (y, 2, 1);
      MonthStep(13);
    } else {
      assert n == (y, m + 1, 1);
      MonthStep(m);
    }
  }

  /**
   * The Julian Date of the next calendar day is one more, across month
   * and year ends and in leap years: the conversion counts days.
   */
  lemma NextDayIsOneLater(y: int, m: int, d: int)
    requires ValidDate(y, m, d)
    ensures var n := NextDay(y, m, d); DateToJD(n.0, n.1, n.2) == DateToJD(y, m, d) + 1.0
  {
    var n := NextDay(y, m, d);
    DateToJDIsDayNumber(y, m, d);
    DateToJDIsDayNumber(n.0, n.1, n.2);
    NextDayNumber(y, m, d);
  }

  /** Two reference points: 2000-01-01 is JD 2451544.5, and the Modified Julian Date epoch 1858-11-17 is JD 2400000.5. */
  lemma Anchors()
    ensures DateToJD(2000, 1, 1) == 2451544.5
    ensures DateToJD(1858, 11, 17) == 2400000.5
  {
    assert YearDays(1999) == 2452653 && MonthDays(13) == 428 && Correction(1999) == -13;
    DateToJDIsDayNumber(2000, 1, 1);
    assert YearDays(1858) == 2401153 && MonthDays(11) == 367 && Correction(1858) == -12;
    DateToJDIsDayNumber(1858, 11, 17);
  }
}
