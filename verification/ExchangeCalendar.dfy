/** The futures exchange's holiday rules. */
module ExchangeCalendar {
  import opened Prelude
  import opened Dates

  const REGULAR_CLOSE := 16 * 60
  const EARLY_CLOSE := 13 * 60 + 15
  const HOLIDAY_CLOSE := 13 * 60

  const AD_HOC_FULL_CLOSURES: set<Day> := {Day(2025, 1, 9)}

  function NthWeekday(year: int, month: int, weekday: int, n: int): int {
    var first := Ordinal(Day(year, month, 1));
    first + (weekday - Weekday(first)) % 7 + 7 * (n - 1)
  }

  function LastWeekday(year: int, month: int, weekday: int): int {
    var cursor := (if month == 12 then Ordinal(Day(year + 1, 1, 1)) else Ordinal(Day(year, month + 1, 1))) - 1;
    cursor - (Weekday(cursor) - weekday) % 7
  }

  /** Saturday moves to the Friday before, Sunday to the Monday after. */
  function Observed(day: int): int {
    if Weekday(day) == SATURDAY then day - 1 else if Weekday(day) == SUNDAY then day + 1 else day
  }

  /** A Saturday New Year is not observed at all. */
  function ObservedNewYear(day: int): Option<int> {
    if Weekday(day) == SATURDAY then None else Some(Observed(day))
  }

  /** The anonymous Gregorian algorithm. */
  function EasterSunday(year: int): Day {
    var a := year % 19;
    var b, c := year / 100, year % 100;
    var d, e := b / 4, b % 4;
    var f := (b + 8) / 25;
    var g := (b - f + 1) / 3;
    var h := (19 * a + b - d - g + 15) % 30;
    var i, k := c / 4, c % 4;
    var l := (32 + 2 * e + 2 * i - h - k) % 7;
    var m := (a + 11 * h + 22 * l) / 451;
    Day(year, (h + l - 7 * m + 114) / 31, (h + l - 7 * m + 114) % 31 + 1)
  }

  function GoodFriday(year: int): int {
    Ordinal(EasterSunday(year)) - 2
  }

  function FullClosures(year: int): set<int> {
    var newYear := ObservedNewYear(Ordinal(Day(year, 1, 1)));
    {GoodFriday(year), Observed(Ordinal(Day(year, 12, 25)))} + if newYear.Some? then {newYear.value} else {}
  }

  function AbbreviatedSessions(year: int): set<int> {
    {NthWeekday(year, 1, MONDAY, 3),
     NthWeekday(year, 2, MONDAY, 3),
     LastWeekday(year, 5, MONDAY),
     Observed(Ordinal(Day(year, 7, 4))),
     NthWeekday(year, 9, MONDAY, 1),
     NthWeekday(year, 11, THURSDAY, 4)}
    + if year >= 2022 then {Observed(Ordinal(Day(year, 6, 19)))} else {}
  }

  function EarlyCloseCandidates(year: int): set<int> {
    {NthWeekday(year, 11, THURSDAY, 4) + 1, Ordinal(Day(year, 7, 3)), Ordinal(Day(year, 12, 24))}
  }

  function EarlyCloses(year: int): set<int> {
    set day | day in EarlyCloseCandidates(year)
              && Weekday(day) < SATURDAY && day !in FullClosures(year) + AbbreviatedSessions(year)
  }

  /** The minute the regular session ends, or None when there is none. */
  function RthClose(d: Day): Option<int> {
    var day := Ordinal(d);
    if Weekday(day) >= SATURDAY then None
    else if d in AD_HOC_FULL_CLOSURES then None
    else if day in FullClosures(d.year) then None
    else if day in AbbreviatedSessions(d.year) then Some(HOLIDAY_CLOSE)
    else if day in EarlyCloses(d.year) then Some(EARLY_CLOSE)
    else Some(REGULAR_CLOSE)
  }

  // ---- Easter ----

  /** How far past the 21st of March the algorithm lands, and the quantities it goes through. */
  lemma {:induction false} EasterOffset(year: int, h: int, l: int, m: int)
    requires
      h == (19 * (year % 19) + year / 100 - year / 100 / 4 - (year / 100 - (year / 100 + 8) / 25 + 1) / 3 + 15) % 30
    requires l == (32 + 2 * (year / 100 % 4) + 2 * (year % 100 / 4) - h - year % 100 % 4) % 7
    requires m == (year % 19 + 11 * h + 22 * l) / 451
    ensures 0 <= h + l - 7 * m <= 34
    ensures EasterSunday(year) == Day(year, (h + l - 7 * m + 114) / 31, (h + l - 7 * m + 114) % 31 + 1)
  {
    var a := year % 19;
    assert 0 <= a <= 18 && 0 <= h <= 29 && 0 <= l <= 6;
    assert m == 0 || m == 1;
    if m == 1 {
      assert 11 * h >= 451 - 18 - 132;
    } else {
      assert a + 11 * h + 22 * l < 451;
    }
  }

  /** The 22nd of March, day by day of the week. */
  lemma {:induction false} MarchWeekday(year: int)
    ensures
      var e, i, k := year / 100 % 4, year % 100 / 4, year % 100 % 4;
      (Ordinal(Day(year, 3, 22)) - (5 * e + 5 * i + k + 3)) % 7 == 0
  {
    var b, c := year / 100, year % 100;
    var d, e, i, k := b / 4, b % 4, c / 4, c % 4;
    assert year == 100 * b + c && b == 4 * d + e && c == 4 * i + k;
    Quotients(year, b, c, d, e, i, k);
    Carry(year, 4);
    Carry(year, 100);
    Carry(year, 400);
    assert Ordinal(Day(year, 3, 22)) == 365 * (year - 1) + year / 4 - year / 100 + year / 400 + 81;
    assert Ordinal(Day(year, 3, 22)) == 365 * (100 * b + c - 1) + 25 * b + i - b + d + 81;
    SevenDivides(b, c, d, e, i, k);
  }

  lemma {:induction false} Quotients(year: int, b: int, c: int, d: int, e: int, i: int, k: int)
    requires year == 100 * b + c && 0 <= c < 100 && b == 4 * d + e && 0 <= e < 4 && c == 4 * i + k && 0 <= k < 4
    ensures year / 4 == 25 * b + i && year / 100 == b && year / 400 == d
  {
    assert year == 4 * (25 * b + i) + k;
    assert year == 400 * d + (100 * e + c);
  }

  lemma {:induction false} SevenDivides(b: int, c: int, d: int, e: int, i: int, k: int)
    requires b == 4 * d + e && c == 4 * i + k
    ensures (365 * (100 * b + c - 1) + 25 * b + i - b + d + 81 - (5 * e + 5 * i + k + 3)) % 7 == 0
  {
    assert 365 * (100 * b + c - 1) + 25 * b + i - b + d + 81 - (5 * e + 5 * i + k + 3)
        == 36524 * b + 365 * c + i + d - 287 - 5 * e - 5 * i - k;
    assert 36524 * b + 365 * c + i + d - 287 - 5 * e - 5 * i - k
        == 146097 * d + 36519 * e + 1456 * i + 364 * k - 287;
    assert 146097 * d + 36519 * e + 1456 * i + 364 * k - 287
        == 7 * (20871 * d + 5217 * e + 208 * i + 52 * k - 41);
  }

  /** For every year: a real date, from the 22nd of March to the 25th of April, and a Sunday. */
  lemma {:induction false} EasterIsASpringSunday(year: int)
    ensures
      var easter := EasterSunday(year);
      && easter.year == year
      && ((easter.month == 3 && 22 <= easter.day <= 31) || (easter.month == 4 && 1 <= easter.day <= 25))
      && (1 <= year <= MAX_YEAR ==> ValidDay(easter))
      && Weekday(Ordinal(easter)) == SUNDAY
      && 0 <= Ordinal(easter) - Ordinal(Day(year, 3, 22)) <= 34
  {
    hide DaysBeforeYear;
    var h := (19 * (year % 19) + year / 100 - year / 100 / 4 - (year / 100 - (year / 100 + 8) / 25 + 1) / 3 + 15) % 30;
    var l := (32 + 2 * (year / 100 % 4) + 2 * (year % 100 / 4) - h - year % 100 % 4) % 7;
    var m := (year % 19 + 11 * h + 22 * l) / 451;
    EasterOffset(year, h, l, m);
    var s := h + l - 7 * m;
    MarchWeekday(year);
    var easter := EasterSunday(year);
    assert Ordinal(easter) == Ordinal(Day(year, 3, 22)) + s;
    var e, i, k := year / 100 % 4, year % 100 / 4, year % 100 % 4;
    LandsOnSunday(Ordinal(Day(year, 3, 22)), e, i, k, h, l, m);
  }

  lemma {:induction false} LandsOnSunday(march: int, e: int, i: int, k: int, h: int, l: int, m: int)
    requires (march - (5 * e + 5 * i + k + 3)) % 7 == 0
    requires l == (32 + 2 * e + 2 * i - h - k) % 7
    ensures Weekday(march + h + l - 7 * m) == SUNDAY
  {
    var p := (march - (5 * e + 5 * i + k + 3)) / 7;
    assert march == 7 * p + 5 * e + 5 * i + k + 3;
    var q := (32 + 2 * e + 2 * i - h - k) / 7;
    assert 32 + 2 * e + 2 * i - h - k == 7 * q + l;
    assert march + h + l - 7 * m + 6 == 7 * (p + e + i - q - m + 5) + 6;
  }

  // ---- Holidays ----

  lemma {:induction false} GoodFridayIsAFriday(year: int)
    ensures Weekday(GoodFriday(year)) == FRIDAY
    ensures Ordinal(Day(year, 3, 20)) <= GoodFriday(year) <= Ordinal(Day(year, 4, 23))
  {
    hide EasterSunday, DaysBeforeYear;
    EasterIsASpringSunday(year);
  }

  /** The n-th such weekday: the right day of the week, with n - 1 earlier ones in its month. */
  lemma {:induction false} NthWeekdayIsThat(year: int, month: int, weekday: int, n: int)
    requires 0 <= weekday < 7
    ensures
      var day := NthWeekday(year, month, weekday, n);
      && Weekday(day) == weekday
      && 7 * (n - 1) < day - Ordinal(Day(year, month, 1)) + 1 <= 7 * n
  {
    hide Ordinal, Weekday;
    OnToWeekday(Ordinal(Day(year, month, 1)), weekday, n - 1);
  }

  lemma {:induction false} OnToWeekday(day: int, weekday: int, weeks: int)
    requires 0 <= weekday < 7
    ensures Weekday(day + (weekday - Weekday(day)) % 7 + 7 * weeks) == weekday
  {
    var w := Weekday(day);
    var r := (weekday - w) % 7;
    var k := (day + 6) / 7 - (weekday - w) / 7 + weeks;
    assert day + r + 7 * weeks + 6 == weekday + 7 * k;
    DropSevens(weekday, k);
  }

  lemma {:induction false} DropSevens(x: int, k: int)
    ensures (x + 7 * k) % 7 == x % 7
  {
    assert x + 7 * k == 7 * (x / 7 + k) + x % 7;
  }

  /** The last such weekday: within the month's final seven days. */
  lemma {:induction false} LastWeekdayIsThat(year: int, month: int, weekday: int)
    requires 1 <= month <= 12 && 0 <= weekday < 7
    ensures
      var day := LastWeekday(year, month, weekday);
      var last := Ordinal(Day(year, month, MonthLength(year, month)));
      Weekday(day) == weekday && last - 7 < day <= last
  {
    hide DaysBeforeYear, Weekday;
    YearsFollowOn(year);
    BackToWeekday(Ordinal(Day(year, month, MonthLength(year, month))), weekday);
  }

  lemma {:induction false} BackToWeekday(day: int, weekday: int)
    requires 0 <= weekday < 7
    ensures Weekday(day - (Weekday(day) - weekday) % 7) == weekday
  {
    var w := Weekday(day);
    var r := (w - weekday) % 7;
    DropSevens(weekday, (day + 6) / 7 + (w - weekday) / 7);
    assert day - r + 6 == weekday + 7 * ((day + 6) / 7 + (w - weekday) / 7);
  }

  /** An observed holiday is a working day next to, or on, its own date. */
  lemma {:induction false} ObservedIsAWorkday(day: int)
    ensures Weekday(Observed(day)) < SATURDAY && day - 1 <= Observed(day) <= day + 1
    ensures ObservedNewYear(day).Some? ==>
      Weekday(ObservedNewYear(day).value) < SATURDAY && day <= ObservedNewYear(day).value <= day + 1
  {
  }

  /** Day `day` counted from the start of `year`; the year's first day is number one. */
  function DayOfYear(year: int, day: int): int {
    day - DaysBeforeYear(year)
  }

  /** The full closures of a year are working days of that year, near Easter or at its two ends. */
  lemma {:induction false} FullClosuresLie(year: int, day: int)
    requires day in FullClosures(year)
    ensures Weekday(day) < SATURDAY
    ensures
      var n, leap := DayOfYear(year, day), if LeapYear(year) then 1 else 0;
      1 <= n <= 2 || 79 + leap <= n <= 113 + leap || 358 + leap <= n <= 360 + leap
  {
    hide EasterSunday, DaysBeforeYear;
    GoodFridayIsAFriday(year);
    ObservedIsAWorkday(Ordinal(Day(year, 12, 25)));
    ObservedIsAWorkday(Ordinal(Day(year, 1, 1)));
  }

  /** The abbreviated sessions of a year are working days of that year, in none of those places. */
  lemma {:induction false} AbbreviatedSessionsLie(year: int, day: int)
    requires day in AbbreviatedSessions(year)
    ensures Weekday(day) < SATURDAY
    ensures
      var n, leap := DayOfYear(year, day), if LeapYear(year) then 1 else 0;
      || 15 <= n <= 21 || 46 <= n <= 52 || 145 + leap <= n <= 151 + leap || 169 + leap <= n <= 171 + leap
      || 184 + leap <= n <= 186 + leap || 244 + leap <= n <= 250 + leap || 326 + leap <= n <= 332 + leap
  {
    hide DaysBeforeYear, NthWeekday, LastWeekday, Observed;
    NthWeekdayIsThat(year, 1, MONDAY, 3);
    NthWeekdayIsThat(year, 2, MONDAY, 3);
    LastWeekdayIsThat(year, 5, MONDAY);
    NthWeekdayIsThat(year, 9, MONDAY, 1);
    NthWeekdayIsThat(year, 11, THURSDAY, 4);
    ObservedIsAWorkday(Ordinal(Day(year, 7, 4)));
    ObservedIsAWorkday(Ordinal(Day(year, 6, 19)));
  }

  predicate InYear(year: int, day: int) {
    1 <= DayOfYear(year, day) <= 365 + if LeapYear(year) then 1 else 0
  }

  lemma {:induction false} YearsDoNotMeet(a: int, b: int, day: int)
    requires InYear(a, day) && InYear(b, day)
    ensures a == b
  {
    YearsFollowOn(a);
    YearsFollowOn(b);
    if a < b {
      YearsAreOrdered(a, b);
    } else if b < a {
      YearsAreOrdered(b, a);
    }
  }

  /** Whatever the years, no day is both a full closure and an abbreviated session. */
  lemma {:induction false} ClosuresNeverMeetAbbreviatedSessions(a: int, b: int)
    ensures FullClosures(a) !! AbbreviatedSessions(b)
  {
    hide FullClosures, AbbreviatedSessions;
    forall day | day in FullClosures(a)
      ensures day !in AbbreviatedSessions(b)
    {
      FullClosuresLie(a, day);
      if day in AbbreviatedSessions(b) {
        AbbreviatedSessionsLie(b, day);
        YearsDoNotMeet(a, b, day);
        assert false;
      }
    }
  }

  /** Looking a date up in its own year's rules misses no year's rules. */
  lemma {:induction false} HolidaysStayInTheirYear(year: int, d: Day)
    requires ValidDay(d)
    ensures Ordinal(d) in FullClosures(year) + AbbreviatedSessions(year) ==> year == d.year
  {
    hide FullClosures, AbbreviatedSessions, DaysBeforeYear;
    var day := Ordinal(d);
    MonthEnds(d.year, d.month);
    assert InYear(d.year, day);
    if day in FullClosures(year) {
      FullClosuresLie(year, day);
      YearsDoNotMeet(year, d.year, day);
    } else if day in AbbreviatedSessions(year) {
      AbbreviatedSessionsLie(year, day);
      YearsDoNotMeet(year, d.year, day);
    }
  }

  /** What the close of a date means, whichever order its tests are made in. */
  lemma {:induction false} CloseMeans(d: Day)
    ensures
      var day := Ordinal(d);
      var full := FullClosures(d.year);
      var abbreviated := AbbreviatedSessions(d.year);
      && (RthClose(d).None? <==> Weekday(day) >= SATURDAY || d in AD_HOC_FULL_CLOSURES || day in full)
      && (day in abbreviated && d !in AD_HOC_FULL_CLOSURES ==> RthClose(d) == Some(HOLIDAY_CLOSE))
      && (day in EarlyCloses(d.year) && d !in AD_HOC_FULL_CLOSURES ==> RthClose(d) == Some(EARLY_CLOSE))
      && (RthClose(d).Some? ==> HOLIDAY_CLOSE <= RthClose(d).value <= REGULAR_CLOSE)
  {
    hide FullClosures, AbbreviatedSessions, EarlyCloseCandidates;
    var day := Ordinal(d);
    ClosuresNeverMeetAbbreviatedSessions(d.year, d.year);
    if day in AbbreviatedSessions(d.year) {
      AbbreviatedSessionsLie(d.year, day);
    }
  }
}
