/**
 * Calendar dates as the script's `Date` objects carry them, at day
 * granularity: a date is a day number, day 0 being 1970-01-01 (a Thursday).
 * `getDay`, `getDate`, `getMonth` and `getFullYear` are functions of it, and
 * `setDate(getDate() + 1)` is the step to the next day number.
 */
module Calendar {

  /** A proleptic Gregorian calendar date; months and days count from 1. */
  datatype Civil = Civil(year: int, month: nat, day: nat)

  predicate IsLeap(y: int)
  {
    y % 4 == 0 && (y % 100 != 0 || y % 400 == 0)
  }

  /** The length of month `m` of year `y` (months outside 1 to 12 do not occur in valid dates). */
  function DaysInMonth(y: int, m: nat): nat
  {
    if m == 2 then (if IsLeap(y) then 29 else 28)
    else if m == 4 || m == 6 || m == 9 || m == 11 then 30
    else 31
  }

  lemma DaysInMonthRange(y: int, m: nat)
    ensures 28 <= DaysInMonth(y, m) <= 31
    ensures m == 2 ==> (DaysInMonth(y, m) == 29 <==> IsLeap(y))
  {
  }

  predicate Valid(c: Civil)
  {
    1 <= c.month <= 12 && 1 <= c.day <= DaysInMonth(c.year, c.month)
  }

  /** Strict chronological order of civil dates (year, then month, then day). */
  predicate Before(a: Civil, b: Civil)
  {
    a.year < b.year
    || (a.year == b.year && a.month < b.month)
    || (a.year == b.year && a.month == b.month && a.day < b.day)
  }

  lemma BeforeTransitive(a: Civil, b: Civil, c: Civil)
    requires Before(a, b) && Before(b, c)
    ensures Before(a, c)
  {
  }

  /** The day after `c`. */
  function NextDay(c: Civil): Civil
  {
    if c.day < DaysInMonth(c.year, c.month) then Civil(c.year, c.month, c.day + 1)
    else if c.month < 12 then Civil(c.year, c.month + 1, 1)
    else Civil(c.year + 1, 1, 1)
  }

  /** The day before `c`. */
  function PrevDay(c: Civil): Civil
  {
    if c.day > 1 then Civil(c.year, c.month, c.day - 1)
    else if c.month > 1 then Civil(c.year, c.month - 1, DaysInMonth(c.year, c.month - 1))
    else Civil(c.year - 1, 12, 31)
  }

  /** The day after a valid date is a valid, later date. */
  lemma NextDayValid(c: Civil)
    requires Valid(c)
    ensures Valid(NextDay(c)) && Before(c, NextDay(c))
  {
  }

  /** The day before a valid date is a valid, earlier date. */
  lemma PrevDayValid(c: Civil)
    requires Valid(c)
    ensures Valid(PrevDay(c)) && Before(PrevDay(c), c)
  {
  }

  /** Stepping back and then forward returns to the same date. */
  lemma NextPrev(c: Civil)
    requires Valid(c)
    ensures NextDay(PrevDay(c)) == c
  {
  }
  const Epoch := Civil(1970, 1, 1)

  /** The calendar date of day number `d`. */
  function CivilFromDays(d: int): Civil
    decreases if d < 0 then -d else d
  {
    if d == 0 then Epoch
    else if d > 0 then NextDay(CivilFromDays(d - 1))
    else PrevDay(CivilFromDays(d + 1))
  }

  /** Every day number is a valid date. */
  lemma {:induction false} CivilValid(d: int)
    ensures Valid(CivilFromDays(d))
    decreases if d < 0 then -d else d
  {
    if d > 0 {
      CivilValid(d - 1);
      NextDayValid(CivilFromDays(d - 1));
    } else if d < 0 {
      CivilValid(d + 1);
      PrevDayValid(CivilFromDays(d + 1));
    }
  }

  /** Advancing the day number by one advances the calendar date by one day, on both sides of the epoch. */
  lemma CivilStep(d: int)
    ensures CivilFromDays(d + 1) == NextDay(CivilFromDays(d))
  {
    if d < 0 {
      CivilValid(d + 1);
      NextPrev(CivilFromDays(d + 1));
    }
  }

  /** Later day numbers are later calendar dates. */
  lemma {:induction false} CivilIncreasing(d1: int, d2: int)
    requires d1 < d2
    ensures Before(CivilFromDays(d1), CivilFromDays(d2))
    decreases d2 - d1
  {
    CivilStep(d1);
    CivilValid(d1);
    NextDayValid(CivilFromDays(d1));
    if d1 + 1 < d2 {
      CivilIncreasing(d1 + 1, d2);
      BeforeTransitive(CivilFromDays(d1), CivilFromDays(d1 + 1), CivilFromDays(d2));
    }
  }

  /** Distinct day numbers are distinct calendar dates. */
  lemma CivilInjective(d1: int, d2: int)
    requires CivilFromDays(d1) == CivilFromDays(d2)
    ensures d1 == d2
  {
    if d1 < d2 { CivilIncreasing(d1, d2); }
    if d2 < d1 { CivilIncreasing(d2, d1); }
  }

  /** `getDay()`: 0 is Sunday, 6 is Saturday; day 0 is a Thursday. */
  function DayOfWeek(d: int): (w: int)
    ensures 0 <= w < 7
    ensures d == 0 ==> w == 4
  {
    (d + 4) % 7
  }

  /** The day after a Saturday is a Sunday; otherwise the weekday goes up by one. */
  lemma DayOfWeekNext(d: int)
    ensures DayOfWeek(d + 1) == if DayOfWeek(d) == 6 then 0 else DayOfWeek(d) + 1
  {
    var q, r := (d + 4) / 7, (d + 4) % 7;
    assert d + 4 == 7 * q + r;
    if r == 6 {
      assert d + 5 == 7 * (q + 1);
    } else {
      assert d + 5 == 7 * q + (r + 1);
    }
  }
}
