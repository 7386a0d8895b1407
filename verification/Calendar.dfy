/**
 Days and civil dates as the JavaScript Date object relates them: the day numbers of
 section 21.4.1 of ECMA-262, with day 0 on 1 January 1970, proved inverse to each other
 and equal to stepping through a calendar one day at a time.
 */
module Calendar {

  /** A proleptic Gregorian date; months and days count from 1. */
  datatype Civil = Civil(year: int, month: int, day: int)

  predicate LeapYear(y: int) { y % 4 == 0 && (y % 100 != 0 || y % 400 == 0) }

  function DaysInYear(y: int): int { if LeapYear(y) then 366 else 365 }

  /** Number of the first day of a year. */
  function DayFromYear(y: int): int {
    365 * (y - 1970) + (y - 1969) / 4 - (y - 1901) / 100 + (y - 1601) / 400
  }

  /** Days of the year before month `m`, counted from 0; 12 gives the length of the year. */
  function DaysBefore(m: int, leap: bool): int
    requires 0 <= m <= 12
  {
    var l := if leap then 1 else 0;
    if m == 0 then 0 else if m == 1 then 31 else if m == 2 then 59 + l else if m == 3 then 90 + l
    else if m == 4 then 120 + l else if m == 5 then 151 + l else if m == 6 then 181 + l
    else if m == 7 then 212 + l else if m == 8 then 243 + l else if m == 9 then 273 + l
    else if m == 10 then 304 + l else if m == 11 then 334 + l else 365 + l
  }

  function DaysInMonth(m: int, leap: bool): int
    requires 1 <= m <= 12
  {
    DaysBefore(m, leap) - DaysBefore(m - 1, leap)
  }

  predicate Valid(c: Civil) {
    1 <= c.month <= 12 && 1 <= c.day <= DaysInMonth(c.month, LeapYear(c.year))
  }

  /** MakeDay: the month may lie outside the year and the day outside the month. */
  function MakeDay(year: int, month: int, date: int): int {
    var ym, mn := year + month / 12, month % 12;
    DayFromYear(ym) + DaysBefore(mn, LeapYear(ym)) + date - 1
  }

  // ---------------------------------------------------------------- years

  lemma FourYears(y: int)
    ensures (y - 1968) / 4 == (y - 1969) / 4 + if y % 4 == 0 then 1 else 0
  {
  }

  lemma HundredYears(y: int)
    ensures (y - 1900) / 100 == (y - 1901) / 100 + if y % 100 == 0 then 1 else 0
    ensures y % 100 == 0 ==> y % 4 == 0
  {
  }

  lemma FourHundredYears(y: int)
    ensures (y - 1600) / 400 == (y - 1601) / 400 + if y % 400 == 0 then 1 else 0
    ensures y % 400 == 0 ==> y % 100 == 0
  {
  }

  /** One year is as long as the leap-year rule says. */
  lemma YearLength(y: int)
    ensures DayFromYear(y + 1) == DayFromYear(y) + DaysInYear(y)
  {
    FourYears(y);
    HundredYears(y);
    FourHundredYears(y);
  }

  lemma {:induction false} YearsOrdered(a: int, b: int)
    requires a < b
    ensures DayFromYear(a) + 365 <= DayFromYear(b)
    decreases b - a
  {
    YearLength(b - 1);
    if a < b - 1 {
      YearsOrdered(a, b - 1);
    }
  }

  /** The largest year that begins on or before day `d`, searched from year `y`. */
  function YearFrom(d: int, y: int): (r: int)
    ensures DayFromYear(r) <= d < DayFromYear(r + 1)
    decreases d < DayFromYear(y), if d < DayFromYear(y) then DayFromYear(y) - d else d - DayFromYear(y)
  {
    if d < DayFromYear(y) then
      YearLength(y - 1);
      YearFrom(d, y - 1)
    else if DayFromYear(y + 1) <= d then
      YearLength(y);
      YearFrom(d, y + 1)
    else y
  }

  function YearFromDay(d: int): (r: int)
    ensures DayFromYear(r) <= d < DayFromYear(r + 1)
  {
    YearFrom(d, 1970 + d / 365)
  }

  lemma YearIs(d: int, y: int)
    requires DayFromYear(y) <= d < DayFromYear(y + 1)
    ensures YearFromDay(d) == y
  {
    hide DayFromYear, YearFromDay;
    var r := YearFromDay(d);
    if r < y {
      YearsOrdered(r + 1 - 1, y);
      if r + 1 < y {
        YearsOrdered(r + 1, y);
      }
    } else if y < r && y + 1 < r {
      YearsOrdered(y + 1, r);
    }
  }

  // ---------------------------------------------------------------- months and days

  /** The month, counted from 0, of the day `n` days into a year. */
  function MonthFrom(n: int, leap: bool): (m: int)
    requires 0 <= n < DaysBefore(12, leap)
    ensures 0 <= m < 12 && DaysBefore(m, leap) <= n < DaysBefore(m + 1, leap)
  {
    if n < DaysBefore(1, leap) then 0 else if n < DaysBefore(2, leap) then 1
    else if n < DaysBefore(3, leap) then 2 else if n < DaysBefore(4, leap) then 3
    else if n < DaysBefore(5, leap) then 4 else if n < DaysBefore(6, leap) then 5
    else if n < DaysBefore(7, leap) then 6 else if n < DaysBefore(8, leap) then 7
    else if n < DaysBefore(9, leap) then 8 else if n < DaysBefore(10, leap) then 9
    else if n < DaysBefore(11, leap) then 10 else 11
  }

  /** The date of a day number: the year, month and day the UTC getters give. */
  function CivilFromDay(d: int): (c: Civil)
    ensures Valid(c)
  {
    hide DayFromYear, YearFromDay;
    var y := YearFromDay(d);
    YearLength(y);
    var n := d - DayFromYear(y);
    var m := MonthFrom(n, LeapYear(y));
    Civil(y, m + 1, n - DaysBefore(m, LeapYear(y)) + 1)
  }

  function DayNumber(c: Civil): int
    requires 1 <= c.month <= 12
  {
    MakeDay(c.year, c.month - 1, c.day)
  }

  lemma MonthsOrdered(a: int, b: int, leap: bool)
    requires 0 <= a < b <= 12
    ensures DaysBefore(a, leap) + 28 <= DaysBefore(b, leap)
  {
  }

  lemma MonthIs(n: int, leap: bool, m: int)
    requires 0 <= m < 12 && DaysBefore(m, leap) <= n < DaysBefore(m + 1, leap)
    ensures 0 <= n < DaysBefore(12, leap) && MonthFrom(n, leap) == m
  {
    if m > 0 {
      MonthsOrdered(0, m, leap);
    }
    if m < 11 {
      MonthsOrdered(m + 1, 12, leap);
    }
    var r := MonthFrom(n, leap);
    if r < m && r + 1 < m {
      MonthsOrdered(r + 1, m, leap);
    } else if m < r && m + 1 < r {
      MonthsOrdered(m + 1, r, leap);
    }
  }

  /** Day of the year, counted from 0. */
  function DayOfYear(c: Civil): int
    requires 1 <= c.month <= 12
  {
    DaysBefore(c.month - 1, LeapYear(c.year)) + c.day - 1
  }

  lemma NumberIs(c: Civil)
    requires 1 <= c.month <= 12
    ensures DayNumber(c) == DayFromYear(c.year) + DayOfYear(c)
  {
  }

  lemma DayOfYearFits(c: Civil)
    requires Valid(c)
    ensures 0 <= DayOfYear(c) < DaysInYear(c.year)
    ensures MonthFrom(DayOfYear(c), LeapYear(c.year)) == c.month - 1
  {
    MonthIs(DayOfYear(c), LeapYear(c.year), c.month - 1);
  }

  /** Where a valid date falls in its year. */
  lemma WithinYear(c: Civil)
    requires Valid(c)
    ensures DayFromYear(c.year) <= DayNumber(c) < DayFromYear(c.year + 1)
  {
    hide DayFromYear, DayNumber, DayOfYear, MonthFrom, LeapYear;
    YearLength(c.year);
    NumberIs(c);
    DayOfYearFits(c);
  }

  /** Day numbers and valid dates are in one-to-one correspondence. */
  lemma DayRoundTrip(d: int)
    ensures DayNumber(CivilFromDay(d)) == d
  {
    hide DayFromYear, YearFromDay, MonthFrom, DaysBefore;
    NumberIs(CivilFromDay(d));
  }

  lemma CivilRoundTrip(c: Civil)
    requires Valid(c)
    ensures CivilFromDay(DayNumber(c)) == c
  {
    hide DayFromYear, YearFromDay, DayNumber, MonthFrom, DaysBefore, LeapYear;
    WithinYear(c);
    NumberIs(c);
    DayOfYearFits(c);
    YearIs(DayNumber(c), c.year);
  }

  // ---------------------------------------------------------------- one day at a time

  /** The day after, as a wall calendar has it. */
  function Tomorrow(c: Civil): Civil
    requires Valid(c)
  {
    if c.day < DaysInMonth(c.month, LeapYear(c.year)) then Civil(c.year, c.month, c.day + 1)
    else if c.month < 12 then Civil(c.year, c.month + 1, 1)
    else Civil(c.year + 1, 1, 1)
  }

  function Yesterday(c: Civil): Civil
    requires Valid(c)
  {
    if 1 < c.day then Civil(c.year, c.month, c.day - 1)
    else if 1 < c.month then Civil(c.year, c.month - 1, DaysInMonth(c.month - 1, LeapYear(c.year)))
    else Civil(c.year - 1, 12, 31)
  }

  /** `n` days on, or back, leafing one day at a time. */
  function Leaf(c: Civil, n: int): (r: Civil)
    requires Valid(c)
    ensures Valid(r)
    decreases if n < 0 then -n else n
  {
    if n == 0 then c
    else if n > 0 then Leaf(Tomorrow(c), n - 1)
    else Leaf(Yesterday(c), n + 1)
  }

  predicate LastOfYear(c: Civil) { c.month == 12 && c.day == 31 }

  lemma TomorrowInYear(c: Civil)
    requires Valid(c)
    ensures Valid(Tomorrow(c))
    ensures !LastOfYear(c) ==> Tomorrow(c).year == c.year && DayOfYear(Tomorrow(c)) == DayOfYear(c) + 1
    ensures LastOfYear(c) ==> Tomorrow(c) == Civil(c.year + 1, 1, 1) && DayOfYear(c) + 1 == DaysInYear(c.year)
  {
  }

  lemma FirstOfYear(y: int)
    ensures DayOfYear(Civil(y, 1, 1)) == 0
  {
  }

  lemma TomorrowIsNextDay(c: Civil)
    requires Valid(c)
    ensures Valid(Tomorrow(c)) && DayNumber(Tomorrow(c)) == DayNumber(c) + 1
  {
    hide DayFromYear, DayNumber, DayOfYear, DaysInYear, DaysBefore;
    var t := Tomorrow(c);
    FirstOfYear(c.year + 1);
    TomorrowInYear(c);
    NumberIs(c);
    NumberIs(t);
    YearLength(c.year);
  }

  lemma MonthsHaveDays(m: int, leap: bool)
    requires 1 <= m <= 12
    ensures 28 <= DaysInMonth(m, leap)
  {
    MonthsOrdered(m - 1, m, leap);
  }

  lemma YesterdayInverts(c: Civil)
    requires Valid(c)
    ensures Valid(Yesterday(c)) && Tomorrow(Yesterday(c)) == c
  {
    if c.day == 1 && 1 < c.month {
      MonthsHaveDays(c.month - 1, LeapYear(c.year));
    }
  }

  lemma YesterdayIsDayBefore(c: Civil)
    requires Valid(c)
    ensures Valid(Yesterday(c)) && DayNumber(Yesterday(c)) == DayNumber(c) - 1
  {
    YesterdayInverts(c);
    TomorrowIsNextDay(Yesterday(c));
  }

  lemma {:induction false} LeafReaches(c: Civil, n: int, d: int)
    requires Valid(c) && d == DayNumber(c) + n
    ensures Leaf(c, n) == CivilFromDay(d)
    decreases if n < 0 then -n else n
  {
    if n == 0 {
      CivilRoundTrip(c);
    } else if n > 0 {
      TomorrowIsNextDay(c);
      LeafReaches(Tomorrow(c), n - 1, d);
    } else {
      YesterdayIsDayBefore(c);
      LeafReaches(Yesterday(c), n + 1, d);
    }
  }

  /** Arithmetic on day numbers is leafing through the calendar. */
  lemma LeafingIsAdding(c: Civil, n: int)
    requires Valid(c)
    ensures Leaf(c, n) == CivilFromDay(DayNumber(c) + n)
  {
    LeafReaches(c, n, DayNumber(c) + n);
  }

  // ---------------------------------------------------------------- where the calendar is anchored

  /** Day 0 is the first of January 1970. */
  lemma EpochIsDayZero()
    ensures DayNumber(Civil(1970, 1, 1)) == 0
    ensures DayFromYear(1970) == 0
  {
  }

  /** The date of a day number: that many leaves on from 1 January 1970, or back. */
  lemma DateOfDay(day: int)
    ensures CivilFromDay(day) == Leaf(Civil(1970, 1, 1), day)
  {
    hide DayNumber, CivilFromDay, Leaf;
    EpochIsDayZero();
    LeafingIsAdding(Civil(1970, 1, 1), day);
  }

  /** Thirty days hath September. */
  lemma MonthLengths(y: int, m: int, d: int)
    ensures Valid(Civil(y, m, d)) <==>
            && 1 <= m <= 12 && 1 <= d <= 31
            && (m in {4, 6, 9, 11} ==> d <= 30)
            && (m == 2 ==> d <= 29 && (d == 29 ==> y % 400 == 0 || (y % 4 == 0 && y % 100 != 0)))
  {
    hide DaysInMonth, LeapYear;
    LeapRule(y);
    if 1 <= m <= 12 {
      MonthLength(m, LeapYear(y));
    }
  }

  lemma LeapRule(y: int)
    ensures LeapYear(y) <==> y % 400 == 0 || (y % 4 == 0 && y % 100 != 0)
  {
    HundredYears(y);
    FourHundredYears(y);
  }

  lemma MonthLength(m: int, leap: bool)
    requires 1 <= m <= 12
    ensures DaysInMonth(m, leap) == if m == 2 then (if leap then 29 else 28) else if m in {4, 6, 9, 11} then 30 else 31
  {
  }

  // ---------------------------------------------------------------- order

  predicate Before(a: Civil, b: Civil) {
    a.year < b.year || (a.year == b.year && (a.month < b.month || (a.month == b.month && a.day < b.day)))
  }

  lemma BeforeInYear(a: Civil, b: Civil)
    requires Valid(a) && Valid(b) && Before(a, b) && a.year == b.year
    ensures DayOfYear(a) < DayOfYear(b)
  {
    if a.month < b.month - 1 {
      MonthsOrdered(a.month, b.month - 1, LeapYear(a.year));
    }
  }

  lemma BeforeNumbers(a: Civil, b: Civil)
    requires Valid(a) && Valid(b) && Before(a, b)
    ensures DayNumber(a) < DayNumber(b)
  {
    hide DayFromYear, DayNumber, DayOfYear;
    if a.year < b.year {
      WithinYear(a);
      WithinYear(b);
      if a.year + 1 < b.year {
        YearsOrdered(a.year + 1, b.year);
      }
    } else {
      BeforeInYear(a, b);
      NumberIs(a);
      NumberIs(b);
    }
  }

  /** Comparing year, month and day is comparing day numbers. */
  lemma OrderIsChronological(a: Civil, b: Civil)
    requires Valid(a) && Valid(b)
    ensures Before(a, b) <==> DayNumber(a) < DayNumber(b)
  {
    if Before(a, b) {
      BeforeNumbers(a, b);
    } else if a != b {
      BeforeNumbers(b, a);
    }
  }
}
