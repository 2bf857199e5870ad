/** The exchange's holidays told from month, day and day of the week alone, and Easter from the moon. */
module HolidayRules {
  import opened Prelude
  import opened Dates
  import opened ExchangeCalendar

  // ---- Easter by golden number and epact ----

  /** The age of the calendar moon on the first of January, with the two corrected ages. */
  function Epact(year: int): int {
    var golden, century := year % 19 + 1, year / 100 + 1;
    var dropped, moon := 3 * century / 4 - 12, (8 * century + 5) / 25 - 5;
    var age := (11 * golden + 20 + moon - dropped) % 30;
    if age == 24 || (age == 25 && golden > 11) then age + 1 else age
  }

  /** The ordinal of the full moon on or after the 21st of March. */
  function FullMoon(year: int): int {
    var n := 44 - Epact(year);
    Ordinal(Day(year, 3, 1)) - 1 + if n < 21 then n + 30 else n
  }

  function MoonTerm(year: int): int {
    (19 * (year % 19) + year / 100 - year / 100 / 4 - (year / 100 - (year / 100 + 8) / 25 + 1) / 3 + 15) % 30
  }

  lemma {:induction false} CenturyTerms(b: int)
    ensures 3 * (b + 1) / 4 == b - b / 4
    ensures (8 * (b + 1) + 5) / 25 == (b - (b + 8) / 25 + 1) / 3
  {
    var q, r := b / 25, b % 25;
    assert b == 25 * q + r && 0 <= r < 25;
    assert 8 * (b + 1) + 5 == 25 * (8 * q) + (8 * r + 13);
    assert (8 * (b + 1) + 5) / 25 == 8 * q + (8 * r + 13) / 25;
    var late := if r >= 17 then 1 else 0;
    assert (b + 8) / 25 == q + late;
    assert b - (b + 8) / 25 + 1 == 3 * (8 * q) + (r - late + 1);
  }

  lemma {:induction false} FullMoonLies(year: int)
    ensures
      var h := MoonTerm(year);
      FullMoon(year) == Ordinal(Day(year, 3, 21)) + h - if h == 29 || (h == 28 && year % 19 >= 11) then 1 else 0
  {
    hide DaysBeforeYear;
    var a, b := year % 19, year / 100;
    CenturyTerms(b);
    var x, z := b - b / 4, (b - (b + 8) / 25 + 1) / 3;
    var age := (11 * (a + 1) + 20 + (z - 5) - (x - 12)) % 30;
    assert MoonTerm(year) == (19 * a + x - z + 15) % 30;
    AgesAdd(11 * (a + 1) + 20 + (z - 5) - (x - 12), 19 * a + x - z + 15);
  }

  lemma {:induction false} AgesAdd(p: int, q: int)
    requires (p + q - 23) % 30 == 0
    ensures q % 30 == if p % 30 <= 23 then 23 - p % 30 else 53 - p % 30
  {
    assert p + q - 23 == 30 * ((p + q - 23) / 30);
    assert q == 30 * ((p + q - 23) / 30 - p / 30) + (23 - p % 30);
  }

  /** Easter is the first Sunday after that full moon, for every year. */
  lemma {:induction false} EasterFollowsTheFullMoon(year: int)
    ensures
      var easter := Ordinal(EasterSunday(year));
      Weekday(easter) == SUNDAY && FullMoon(year) < easter <= FullMoon(year) + 7
  {
    hide DaysBeforeYear, FullMoon;
    FullMoonLies(year);
    EasterIsASpringSunday(year);
    var h := MoonTerm(year);
    var l := (32 + 2 * (year / 100 % 4) + 2 * (year % 100 / 4) - h - year % 100 % 4) % 7;
    var m := (year % 19 + 11 * h + 22 * l) / 451;
    EasterOffset(year, h, l, m);
    LastSunday(year % 19, h, l, m);
    assert Ordinal(EasterSunday(year)) == Ordinal(Day(year, 3, 22)) + h + l - 7 * m;
  }

  lemma {:induction false} LastSunday(a: int, h: int, l: int, m: int)
    requires 0 <= a <= 18 && 0 <= h <= 29 && 0 <= l <= 6 && m == (a + 11 * h + 22 * l) / 451
    ensures m == if l == 6 && (h == 29 || (h == 28 && a >= 11)) then 1 else 0
  {
  }

  // ---- The rules ----

  function WeekdayOf(d: Day): int {
    Weekday(Ordinal(d))
  }

  /** The n-th such weekday of the month. */
  predicate IsNth(d: Day, month: int, weekday: int, n: int) {
    d.month == month && WeekdayOf(d) == weekday && 7 * (n - 1) < d.day <= 7 * n
  }

  /** The working day on which a holiday of that date is kept. */
  predicate KeptOn(d: Day, month: int, day: int) {
    && d.month == month
    && ((d.day == day && WeekdayOf(d) < SATURDAY) || (d.day == day - 1 && WeekdayOf(d) == FRIDAY)
        || (d.day == day + 1 && WeekdayOf(d) == MONDAY))
  }

  /** Two days before the first Sunday after the full moon. */
  predicate IsGoodFriday(d: Day) {
    WeekdayOf(d) == FRIDAY && FullMoon(d.year) < Ordinal(d) + 2 <= FullMoon(d.year) + 7
  }

  predicate Shut(d: Day) {
    || WeekdayOf(d) >= SATURDAY
    || d == Day(2025, 1, 9)
    || IsGoodFriday(d)
    || KeptOn(d, 12, 25)
    || (d.month == 1 && ((d.day == 1 && WeekdayOf(d) < SATURDAY) || (d.day == 2 && WeekdayOf(d) == MONDAY)))
  }

  predicate Holiday(d: Day) {
    || IsNth(d, 1, MONDAY, 3)
    || IsNth(d, 2, MONDAY, 3)
    || (d.month == 5 && WeekdayOf(d) == MONDAY && 25 <= d.day <= 31)
    || (d.year >= 2022 && KeptOn(d, 6, 19))
    || KeptOn(d, 7, 4)
    || IsNth(d, 9, MONDAY, 1)
    || IsNth(d, 11, THURSDAY, 4)
  }

  predicate Eve(d: Day) {
    || (d.month == 11 && WeekdayOf(d) == FRIDAY && 23 <= d.day <= 29)
    || (d.month == 7 && d.day == 3)
    || (d.month == 12 && d.day == 24)
  }

  // ---- The sets are the rules ----

  lemma {:induction false} SameWeek(a: int, b: int)
    requires Weekday(a) == Weekday(b) && -7 < a - b < 7
    ensures a == b
  {
    assert a - b == 7 * ((a + 6) / 7 - (b + 6) / 7);
  }

  lemma {:induction false} NthIff(d: Day, month: int, weekday: int, n: int)
    requires ValidDay(d) && 1 <= month <= 12 && 0 <= weekday < 7 && 1 <= n <= 4
    ensures Ordinal(d) == NthWeekday(d.year, month, weekday, n) <==> IsNth(d, month, weekday, n)
  {
    hide DaysBeforeYear, DaysBeforeMonth, NthWeekday, Weekday;
    var day := NthWeekday(d.year, month, weekday, n);
    NthWeekdayIsThat(d.year, month, weekday, n);
    var k := day - Ordinal(Day(d.year, month, 1)) + 1;
    assert Ordinal(Day(d.year, month, k)) == day;
    OrdinalsAreTheCalendar(d, Day(d.year, month, k));
    if IsNth(d, month, weekday, n) {
      SameWeek(Ordinal(d), day);
    }
  }

  lemma {:induction false} LastMondayOfMayIff(d: Day)
    requires ValidDay(d)
    ensures Ordinal(d) == LastWeekday(d.year, 5, MONDAY)
            <==> d.month == 5 && WeekdayOf(d) == MONDAY && 25 <= d.day <= 31
  {
    hide DaysBeforeYear, DaysBeforeMonth, LastWeekday, Weekday;
    var day := LastWeekday(d.year, 5, MONDAY);
    LastWeekdayIsThat(d.year, 5, MONDAY);
    var k := day - Ordinal(Day(d.year, 5, 31)) + 31;
    assert Ordinal(Day(d.year, 5, k)) == day;
    OrdinalsAreTheCalendar(d, Day(d.year, 5, k));
    if d.month == 5 && WeekdayOf(d) == MONDAY && 25 <= d.day <= 31 {
      SameWeek(Ordinal(d), day);
    }
  }

  lemma {:induction false} ObservedIff(d: Day, month: int, day: int)
    requires ValidDay(d) && 1 <= month <= 12 && 1 < day < 28
    ensures Ordinal(d) == Observed(Ordinal(Day(d.year, month, day))) <==> KeptOn(d, month, day)
  {
    hide DaysBeforeYear, DaysBeforeMonth;
    OrdinalsAreTheCalendar(d, Day(d.year, month, day));
    OrdinalsAreTheCalendar(d, Day(d.year, month, day - 1));
    OrdinalsAreTheCalendar(d, Day(d.year, month, day + 1));
  }

  lemma {:induction false} NewYearIff(d: Day)
    requires ValidDay(d)
    ensures
      var observed := ObservedNewYear(Ordinal(Day(d.year, 1, 1)));
      observed.Some? && Ordinal(d) == observed.value
      <==> d.month == 1 && ((d.day == 1 && WeekdayOf(d) < SATURDAY) || (d.day == 2 && WeekdayOf(d) == MONDAY))
  {
    hide DaysBeforeYear;
    OrdinalsAreTheCalendar(d, Day(d.year, 1, 1));
    OrdinalsAreTheCalendar(d, Day(d.year, 1, 2));
  }

  lemma {:induction false} GoodFridayIff(d: Day)
    requires ValidDay(d)
    ensures Ordinal(d) == GoodFriday(d.year) <==> IsGoodFriday(d)
  {
    hide Ordinal, EasterSunday, FullMoon;
    EasterFollowsTheFullMoon(d.year);
    if IsGoodFriday(d) {
      SameWeek(Ordinal(d) + 2, GoodFriday(d.year) + 2);
    }
  }

  lemma {:induction false} ClosuresAreShut(d: Day)
    requires ValidDay(d)
    ensures Shut(d)
            <==> Weekday(Ordinal(d)) >= SATURDAY || d in AD_HOC_FULL_CLOSURES || Ordinal(d) in FullClosures(d.year)
  {
    hide Ordinal, GoodFriday, Observed, ObservedNewYear, IsGoodFriday, KeptOn, Weekday;
    GoodFridayIff(d);
    ObservedIff(d, 12, 25);
    NewYearIff(d);
  }

  lemma {:induction false} AbbreviatedAreHolidays(d: Day)
    requires ValidDay(d)
    ensures Holiday(d) <==> Ordinal(d) in AbbreviatedSessions(d.year)
  {
    hide Ordinal, NthWeekday, LastWeekday, Observed, IsNth, KeptOn, Weekday;
    NthIff(d, 1, MONDAY, 3);
    NthIff(d, 2, MONDAY, 3);
    LastMondayOfMayIff(d);
    ObservedIff(d, 7, 4);
    ObservedIff(d, 6, 19);
    NthIff(d, 9, MONDAY, 1);
    NthIff(d, 11, THURSDAY, 4);
  }

  lemma {:induction false} CandidatesAreEves(d: Day)
    requires ValidDay(d)
    ensures Eve(d) <==> Ordinal(d) in EarlyCloseCandidates(d.year)
  {
    hide DaysBeforeYear, DaysBeforeMonth, NthWeekday, Weekday;
    OrdinalsAreTheCalendar(d, Day(d.year, 7, 3));
    OrdinalsAreTheCalendar(d, Day(d.year, 12, 24));
    var thanksgiving := NthWeekday(d.year, 11, THURSDAY, 4);
    NthWeekdayIsThat(d.year, 11, THURSDAY, 4);
    var k := thanksgiving - Ordinal(Day(d.year, 11, 1)) + 1;
    assert Ordinal(Day(d.year, 11, k + 1)) == thanksgiving + 1;
    OrdinalsAreTheCalendar(d, Day(d.year, 11, k + 1));
    NextDay(thanksgiving);
    if d.month == 11 && WeekdayOf(d) == FRIDAY && 23 <= d.day <= 29 {
      SameWeek(Ordinal(d), thanksgiving + 1);
    }
  }

  lemma {:induction false} NextDay(day: int)
    ensures Weekday(day) == THURSDAY ==> Weekday(day + 1) == FRIDAY
  {
  }

  /** The close of every day there is: none when shut, 13:00 on a holiday, 13:15 on an eve, and otherwise 16:00. */
  lemma {:induction false} EveryCloseIsByTheRules(d: Day)
    requires ValidDay(d)
    ensures RthClose(d) == if Shut(d) then None
                           else if Holiday(d) then Some(780)
                           else if Eve(d) then Some(795)
                           else Some(960)
  {
    hide Ordinal, FullClosures, AbbreviatedSessions, EarlyCloseCandidates, Weekday, Shut, Holiday, Eve;
    ClosuresAreShut(d);
    AbbreviatedAreHolidays(d);
    CandidatesAreEves(d);
  }
}
