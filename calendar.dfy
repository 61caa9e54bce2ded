/**
 * Calendar dates as day numbers (days since 1970-01-01 in the proleptic Gregorian
 * calendar), and the local-time constructor `new Date(year, monthIndex, day)` of
 * JavaScript, whose month and day arguments roll over into the next month or year.
 */
module Calendar {

  predicate IsLeapYear(y: int) {
    y % 4 == 0 && (y % 100 != 0 || y % 400 == 0)
  }

  function MonthLength(y: int, m: int): nat
    requires 1 <= m <= 12
  {
    if m == 2 then (if IsLeapYear(y) then 29 else 28)
    else if m == 4 || m == 6 || m == 9 || m == 11 then 30
    else 31
  }

  /**
   * Days from 1 March of year 0 to 1 March of year `y` (a year here runs March to
   * February, so the leap day of year `y + 1` closes year `y`).
   */
  function MarchYearStart(y: int): int {
    365 * y + y / 4 - y / 100 + y / 400
  }

  /** Days from 1 March to the first of the `mp`-th month after March. */
  function MonthOffset(mp: int): int
    requires 0 <= mp < 12
  {
    (153 * mp + 2) / 5
  }

  /** Day number of year `y`, month `m` (1-12), day `d`; `d` may be any integer. */
  function DaysFromCivil(y: int, m: int, d: int): int
    requires 1 <= m <= 12
  {
    var yy := if m <= 2 then y - 1 else y;
    var mp := if m > 2 then m - 3 else m + 9;
    MarchYearStart(yy) + MonthOffset(mp) + d - 1 - 719468
  }

  /** Floor division by a positive divisor steps by one exactly at its multiples. */
  lemma DivSteps(a: int)
    ensures (a + 1) / 4 - a / 4 == if (a + 1) % 4 == 0 then 1 else 0
    ensures (a + 1) / 100 - a / 100 == if (a + 1) % 100 == 0 then 1 else 0
    ensures (a + 1) / 400 - a / 400 == if (a + 1) % 400 == 0 then 1 else 0
  {
  }

  /** A March-based year is one day longer exactly when the February it ends with is a leap one. */
  lemma MarchYearLength(z: int)
    ensures MarchYearStart(z + 1) - MarchYearStart(z) == if IsLeapYear(z + 1) then 366 else 365
  {
    DivSteps(z);
    if (z + 1) % 400 == 0 {
      assert (z + 1) % 100 == 0 && (z + 1) % 4 == 0;
    } else if (z + 1) % 100 == 0 {
      assert (z + 1) % 4 == 0;
    }
  }

  /** The first of every month lies one month length after the first of the month before. */
  lemma MonthOffsets()
    ensures MonthOffset(1) - MonthOffset(0) == 31 && MonthOffset(2) - MonthOffset(1) == 30
    ensures MonthOffset(3) - MonthOffset(2) == 31 && MonthOffset(4) - MonthOffset(3) == 30
    ensures MonthOffset(5) - MonthOffset(4) == 31 && MonthOffset(6) - MonthOffset(5) == 31
    ensures MonthOffset(7) - MonthOffset(6) == 30 && MonthOffset(8) - MonthOffset(7) == 31
    ensures MonthOffset(9) - MonthOffset(8) == 30 && MonthOffset(10) - MonthOffset(9) == 31
    ensures MonthOffset(11) - MonthOffset(10) == 31
  {
  }

  /** The first of the next month lies one month length after the first of this month. */
  lemma NextMonthStart(y: int, m: int)
    requires 1 <= m <= 12
    ensures m < 12 ==> DaysFromCivil(y, m + 1, 1) == DaysFromCivil(y, m, 1) + MonthLength(y, m)
    ensures m == 12 ==> DaysFromCivil(y + 1, 1, 1) == DaysFromCivil(y, 12, 1) + 31
  {
    MonthOffsets();
    if m == 2 {
      MarchYearLength(y - 1);
      assert MonthOffset(0) == 0 && MonthOffset(11) == 337;
    }
  }

  /** The day number of 1 January 1970 is zero. */
  lemma EpochIsDayZero()
    ensures DaysFromCivil(1970, 1, 1) == 0
  {
    assert MarchYearStart(1969) == 719162;
    assert MonthOffset(10) == 306;
  }

  /** The year `new Date` uses: two-digit years 0..99 mean 1900..1999. */
  function FullYear(y: int): (r: int)
    ensures 0 <= y <= 99 ==> r == 1900 + y
    ensures !(0 <= y <= 99) ==> r == y
  {
    if 0 <= y <= 99 then 1900 + y else y
  }

  /**
   * `new Date(y, monthIndex, day)` as a day number: the month index is brought into 0..11
   * by moving whole years, and the day counts on from the first of that month.
   */
  function LocalDate(y: int, monthIndex: int, day: int): (r: int)
    ensures 0 <= monthIndex < 12 ==> r == DaysFromCivil(FullYear(y), monthIndex + 1, day)
  {
    var year := FullYear(y) + monthIndex / 12;
    assert 0 <= monthIndex < 12 ==> year == FullYear(y) && monthIndex % 12 == monthIndex;
    DaysFromCivil(year, monthIndex % 12 + 1, 1) + day - 1
  }

  /** A year from 0 to 99 stands for the year 1900 more: `new Date(24, m, d)` falls in 1924. */
  lemma TwoDigitYear(y: int, monthIndex: int, day: int)
    requires 0 <= y <= 99
    ensures LocalDate(y, monthIndex, day) == LocalDate(1900 + y, monthIndex, day)
  {
  }

  /** Days out of range roll over: day `d` is `d - 1` days after day 1 of the same month. */
  lemma LocalDateDayRollsOver(y: int, monthIndex: int, day: int)
    ensures LocalDate(y, monthIndex, day) == LocalDate(y, monthIndex, 1) + day - 1
  {
  }

  /** Month index 12 is January of the next year (outside the two-digit year range). */
  lemma LocalDateMonthRollsOver(y: int, day: int)
    requires y >= 100 || y < -1
    ensures LocalDate(y, 12, day) == LocalDate(y + 1, 0, day)
  {
    assert 12 / 12 == 1 && 12 % 12 == 0;
  }

  /** A day within its month names the same day as the calendar date. */
  lemma LocalDateInMonth(y: int, m: int, d: int)
    requires y >= 100 && 1 <= m <= 12 && 1 <= d <= MonthLength(y, m)
    ensures LocalDate(y, m - 1, d) == DaysFromCivil(y, m, d)
    ensures d < MonthLength(y, m) ==> LocalDate(y, m - 1, d + 1) == LocalDate(y, m - 1, d) + 1
    ensures m < 12 && d == MonthLength(y, m) ==> LocalDate(y, m - 1, d + 1) == LocalDate(y, m, 1)
  {
    assert FullYear(y) == y;
    if m < 12 && d == MonthLength(y, m) {
      NextMonthStart(y, m);
      assert LocalDate(y, m - 1, d + 1) == DaysFromCivil(y, m, 1) + d;
      assert LocalDate(y, m, 1) == DaysFromCivil(y, m + 1, 1);
    }
  }
}
