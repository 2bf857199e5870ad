/** Days of the proleptic Gregorian calendar. */
module Dates {
  /** A calendar day, compared as its ISO text is. */
  datatype Day = Day(year: int, month: int, day: int)

  predicate LeapYear(year: int) {
    year % 4 == 0 && (year % 100 != 0 || year % 400 == 0)
  }

  function MonthLength(year: int, month: int): int {
    if month == 2 then (if LeapYear(year) then 29 else 28)
    else if month == 4 || month == 6 || month == 9 || month == 11 then 30
    else 31
  }

  const MAX_YEAR := 9999

  predicate ValidDay(d: Day) {
    1 <= d.year <= MAX_YEAR && 1 <= d.month <= 12 && 1 <= d.day <= MonthLength(d.year, d.month)
  }

  predicate Before(a: Day, b: Day) {
    a.year < b.year || (a.year == b.year && (a.month < b.month || (a.month == b.month && a.day < b.day)))
  }

  predicate NotAfter(a: Day, b: Day) {
    a == b || Before(a, b)
  }

  // ---- Ordinals ----

  function DaysBeforeYear(year: int): int {
    (year - 1) * 365 + (year - 1) / 4 - (year - 1) / 100 + (year - 1) / 400
  }

  function DaysBeforeMonth(year: int, month: int): int {
    var leap := if LeapYear(year) then 1 else 0;
    match month
    case 1 => 0
    case 2 => 31
    case 3 => 59 + leap
    case 4 => 90 + leap
    case 5 => 120 + leap
    case 6 => 151 + leap
    case 7 => 181 + leap
    case 8 => 212 + leap
    case 9 => 243 + leap
    case 10 => 273 + leap
    case 11 => 304 + leap
    case _ => 334 + leap
  }

  /** Days since the day before the first of January of the year 1. */
  function Ordinal(d: Day): int {
    DaysBeforeYear(d.year) + DaysBeforeMonth(d.year, d.month) + d.day
  }

  const MONDAY := 0
  const THURSDAY := 3
  const FRIDAY := 4
  const SATURDAY := 5
  const SUNDAY := 6

  /** Monday is zero. */
  function Weekday(ordinal: int): int {
    (ordinal + 6) % 7
  }

  lemma {:induction false} YearsFollowOn(year: int)
    ensures DaysBeforeYear(year + 1) == DaysBeforeYear(year) + 365 + if LeapYear(year) then 1 else 0
  {
    Carry(year, 4);
    Carry(year, 100);
    Carry(year, 400);
    CenturiesAreFours(year);
  }

  lemma {:induction false} CenturiesAreFours(year: int)
    ensures year % 100 == 0 ==> year % 4 == 0
    ensures year % 400 == 0 ==> year % 100 == 0
  {
    assert year == 4 * (25 * (year / 100)) + year % 100;
    assert year == 100 * (4 * (year / 400)) + year % 400;
  }

  lemma {:induction false} Carry(n: int, k: int)
    requires k == 4 || k == 100 || k == 400
    ensures n / k == (n - 1) / k + if n % k == 0 then 1 else 0
  {
  }

  lemma {:induction false} YearsAreOrdered(a: int, b: int)
    requires a < b
    ensures DaysBeforeYear(a + 1) <= DaysBeforeYear(b)
    decreases b - a
  {
    if a + 1 == b {
    } else {
      YearsAreOrdered(a, b - 1);
      YearsFollowOn(b - 1);
    }
  }

  lemma {:induction false} MonthEnds(year: int, month: int)
    requires 1 <= month <= 12
    ensures DaysBeforeMonth(year, month) + MonthLength(year, month) <= 365 + if LeapYear(year) then 1 else 0
  {
  }

  lemma {:induction false} MonthsAreOrdered(year: int, a: int, b: int)
    requires 1 <= a < b <= 12
    ensures DaysBeforeMonth(year, a) + MonthLength(year, a) <= DaysBeforeMonth(year, b)
  {
  }

  lemma {:induction false} OrdinalGrows(a: Day, b: Day)
    requires ValidDay(a) && ValidDay(b) && Before(a, b)
    ensures Ordinal(a) < Ordinal(b)
  {
    if a.year < b.year {
      YearsAreOrdered(a.year, b.year);
      YearsFollowOn(a.year);
      MonthEnds(a.year, a.month);
    } else if a.month < b.month {
      MonthsAreOrdered(a.year, a.month, b.month);
    }
  }

  /** Counting days loses nothing: the ordinals order and name the days exactly as the calendar does. */
  lemma {:induction false} OrdinalsAreTheCalendar(a: Day, b: Day)
    requires ValidDay(a) && ValidDay(b)
    ensures Ordinal(a) < Ordinal(b) <==> Before(a, b)
    ensures Ordinal(a) == Ordinal(b) <==> a == b
  {
    hide Ordinal;
    if Before(a, b) {
      OrdinalGrows(a, b);
    } else if Before(b, a) {
      OrdinalGrows(b, a);
    }
  }
}
