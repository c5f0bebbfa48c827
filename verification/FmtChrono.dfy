/** The ISO 8601 week date arithmetic of thirdparty/fmt/include/fmt/chrono.h, proved against the
    definition in section 4.1.4 of ISO 8601:2004: a week belongs to the year of its Thursday and is
    numbered by how many Thursdays of that year have passed. */
module FmtChrono {
  import opened Arithmetic

  // ---------------------------------------------------------------- the source's arithmetic

  /** C++ integer division by a positive constant: truncation toward zero. */
  function Quot(a: int, b: int): (q: int)
    requires b > 0
    ensures a >= 0 ==> q == a / b
  {
    if a >= 0 then a / b else -((-a) / b)
  }

  function Rem(a: int, b: int): (r: int)
    requires b > 0
    ensures a >= 0 ==> r == a % b
  {
    if a >= 0 then a % b else -((-a) % b)
  }

  function IsoYearWeeks(currYear: int): (w: int)
    ensures w == 52 || w == 53
  {
    var prevYear := currYear - 1;
    var currP := Rem(currYear + Quot(currYear, 4) - Quot(currYear, 100) + Quot(currYear, 400), 7);
    var prevP := Rem(prevYear + Quot(prevYear, 4) - Quot(prevYear, 100) + Quot(prevYear, 400), 7);
    52 + if currP == 4 || prevP == 3 then 1 else 0
  }

  function IsoWeekNum(yday: int, wday: int): int {
    Quot(yday + 11 - (if wday == 0 then 7 else wday), 7)
  }

  function TmIsoWeekYear(year: int, yday: int, wday: int): int {
    var w := IsoWeekNum(yday, wday);
    if w < 1 then year - 1 else if w > IsoYearWeeks(year) then year + 1 else year
  }

  function TmIsoWeekOfYear(year: int, yday: int, wday: int): int {
    var w := IsoWeekNum(yday, wday);
    if w < 1 then IsoYearWeeks(year - 1) else if w > IsoYearWeeks(year) then 1 else w
  }

  // ---------------------------------------------------------------- the calendar

  /** Days of the proleptic Gregorian calendar before 1 January of `year`, counted from
      1 January of year 1, which is a Monday. */
  function DaysBefore(year: int): int {
    var y := year - 1;
    365 * y + y / 4 - y / 100 + y / 400
  }

  predicate IsLeap(year: int) {
    (year % 4 == 0 && year % 100 != 0) || year % 400 == 0
  }

  /** The year that contains a day, by the calendar alone. */
  predicate InYear(day: int, year: int) {
    DaysBefore(year) <= day < DaysBefore(year + 1)
  }

  /** Days from Sunday, as in `tm_wday`. */
  function Weekday(day: int): (w: int)
    ensures 0 <= w <= 6
  {
    (day + 1) % 7
  }

  /** The Thursday of the Monday-to-Sunday week a day lies in. */
  function ThursdayOf(day: int): (t: int)
    ensures Weekday(t) == 4
    ensures day - 3 <= t <= day + 3
  {
    day - day % 7 + 3
  }

  /** `tm` fields that describe the same day. */
  predicate Consistent(day: int, year: int, yday: int, wday: int) {
    InYear(day, year) && yday == day - DaysBefore(year) && wday == Weekday(day)
  }

  /** The weeks of a year: as many as it has Thursdays, which is 53 when it begins or ends on one. */
  function WeeksOf(year: int): (w: int)
    ensures w == 52 || w == 53
  {
    52 + if Weekday(DaysBefore(year + 1) - 1) == 4 || Weekday(DaysBefore(year) - 1) == 3 then 1 else 0
  }

  lemma NextQuotients(y: int)
    ensures (y + 1) / 4 == y / 4 + if (y + 1) % 4 == 0 then 1 else 0
    ensures (y + 1) / 100 == y / 100 + if (y + 1) % 100 == 0 then 1 else 0
    ensures (y + 1) / 400 == y / 400 + if (y + 1) % 400 == 0 then 1 else 0
  {
  }

  lemma LeapDivides(y: int)
    ensures y % 400 == 0 ==> y % 100 == 0
    ensures y % 100 == 0 ==> y % 4 == 0
  {
    if y % 400 == 0 {
      DivModUnique(y, 100, 4 * (y / 400), 0);
    }
    if y % 100 == 0 {
      DivModUnique(y, 4, 25 * (y / 100), 0);
    }
  }

  lemma YearLength(year: int)
    ensures DaysBefore(year + 1) - DaysBefore(year) == if IsLeap(year) then 366 else 365
  {
    NextQuotients(year - 1);
    LeapDivides(year);
  }

  lemma DropWeeks(x: int, k: int)
    ensures (x + 7 * k) % 7 == x % 7
  {
  }

  /** The source's two remainders are the weekday of 31 December of a year. */
  lemma LastDayOfYear(year: int)
    requires year >= 0
    ensures Rem(year + Quot(year, 4) - Quot(year, 100) + Quot(year, 400), 7) == Weekday(DaysBefore(year + 1) - 1)
  {
    var leaps := year / 4 - year / 100 + year / 400;
    assert year / 100 <= year / 4;
    assert DaysBefore(year + 1) == (year + leaps) + 7 * (52 * year);
    DropWeeks(year + leaps, 52 * year);
  }

  /** `iso_year_weeks` is the number of weeks from year 0 on; before, it is always 52. */
  lemma ComputedWeeks(year: int)
    ensures IsoYearWeeks(year) == if year >= 0 then WeeksOf(year) else 52
  {
    if year > 0 {
      LastDayOfYear(year);
      LastDayOfYear(year - 1);
    } else if year < 0 {
      NotPositive(year);
      NotPositive(year - 1);
    } else {
      assert DaysBefore(0) == -366 && DaysBefore(1) == 0;
    }
  }

  /** Truncation leaves the remainder of a negative number negative or zero, and so never 3 or 4. */
  lemma NotPositive(year: int)
    requires year < 0
    ensures Rem(year + Quot(year, 4) - Quot(year, 100) + Quot(year, 400), 7) <= 0
  {
    var n := -year;
    assert n / 100 <= n;
  }

  /** The last Thursday of a year is that many weeks in. */
  lemma WeeksAreThursdays(year: int, th: int)
    requires Weekday(th) == 4 && InYear(th, year) && !InYear(th + 7, year)
    ensures WeeksOf(year) == (th - DaysBefore(year)) / 7 + 1
  {
    YearLength(year);
    LastThursday(DaysBefore(year), DaysBefore(year + 1) - DaysBefore(year), th);
  }

  /** In a stretch of 365 or 366 days there are 53 Thursdays exactly when it starts on one or ends on
      one. */
  lemma LastThursday(start: int, len: int, th: int)
    requires len == 365 || len == 366
    requires Weekday(th) == 4 && start <= th < start + len <= th + 7
    ensures (th - start) / 7 + 1 == 52 + if Weekday(start + len - 1) == 4 || Weekday(start - 1) == 3 then 1 else 0
  {
    var last := start + len - 1;
    assert Weekday(last) == (4 + (last - th)) % 7;
    assert Weekday(start - 1) == (4 + (start - 1 - th)) % 7;
  }

  /** The raw week number counts the Thursdays from the start of the calendar year up to the one of
      this week; it is below 1 when that one lies in the year before. */
  lemma RawWeekNumber(day: int, year: int, yday: int, wday: int)
    requires Consistent(day, year, yday, wday)
    ensures var ahead := ThursdayOf(day) - DaysBefore(year);
      && -3 <= ahead && IsoWeekNum(yday, wday) == (ahead + 7) / 7
  {
    hide DaysBefore, ThursdayOf;
    MondayFirst(day);
    assert ThursdayOf(day) == day - day % 7 + 3 by {
      FromThursday(day);
    }
  }

  /** The weekday numbers with Sunday moved to the end. */
  lemma MondayFirst(day: int)
    ensures (if Weekday(day) == 0 then 7 else Weekday(day)) == day % 7 + 1
  {
    var q := day / 7;
    if day % 7 == 6 {
      DivModUnique(day + 1, 7, q + 1, 0);
    } else {
      DivModUnique(day + 1, 7, q, day % 7 + 1);
    }
  }

  /** What ISO 8601 asks for: the year and the number of the week are those of its Thursday. */
  predicate IsoRight(day: int, year: int, yday: int, wday: int) {
    var th, iy := ThursdayOf(day), TmIsoWeekYear(year, yday, wday);
    InYear(th, iy) && TmIsoWeekOfYear(year, yday, wday) == (th - DaysBefore(iy)) / 7 + 1
  }

  /** The computed year and week number are right exactly when the raw number needs no year's length,
      or the year whose length it needs is not before year 0 or has 52 weeks. */
  lemma IsoRightExactlyWhen(day: int, year: int, yday: int, wday: int)
    requires Consistent(day, year, yday, wday)
    ensures var w := IsoWeekNum(yday, wday); var asked := if w < 1 then year - 1 else year;
      IsoRight(day, year, yday, wday) <==> 1 <= w <= 52 || asked >= 0 || WeeksOf(asked) == 52
  {
    hide DaysBefore, WeeksOf, IsoYearWeeks, Weekday, InYear;
    if IsoWeekNum(yday, wday) < 1 {
      EarlyWeek(day, year, yday, wday);
    } else {
      LateWeek(day, year, yday, wday);
    }
  }

  lemma EarlyWeek(day: int, year: int, yday: int, wday: int)
    requires Consistent(day, year, yday, wday) && IsoWeekNum(yday, wday) < 1
    ensures IsoRight(day, year, yday, wday) <==> year - 1 >= 0 || WeeksOf(year - 1) == 52
  {
    hide IsoYearWeeks, Weekday;
    var th := ThursdayOf(day);
    RawWeekNumber(day, year, yday, wday);
    YearLength(year - 1);
    ComputedWeeks(year - 1);
    WeeksAreThursdays(year - 1, th);
  }

  lemma LateWeek(day: int, year: int, yday: int, wday: int)
    requires Consistent(day, year, yday, wday) && IsoWeekNum(yday, wday) >= 1
    ensures IsoRight(day, year, yday, wday) <==> IsoWeekNum(yday, wday) <= 52 || year >= 0 || WeeksOf(year) == 52
  {
    hide IsoYearWeeks, WeeksOf, Weekday;
    var th, w := ThursdayOf(day), IsoWeekNum(yday, wday);
    RawWeekNumber(day, year, yday, wday);
    ComputedWeeks(year);
    ThursdayBeyond(year, th, w);
  }

  /** From year 1 on they are always right. */
  lemma IsoWeekIsThursdays(day: int, year: int, yday: int, wday: int)
    requires year >= 1 && Consistent(day, year, yday, wday)
    ensures IsoRight(day, year, yday, wday)
  {
    IsoRightExactlyWhen(day, year, yday, wday);
  }

  /** Past the last week of the year exactly when the Thursday lies in the next one. */
  lemma ThursdayBeyond(year: int, th: int, w: int)
    requires Weekday(th) == 4
    requires DaysBefore(year) <= th < DaysBefore(year + 1) + 3
    requires w == (th - DaysBefore(year) + 7) / 7
    ensures w > WeeksOf(year) <==> th >= DaysBefore(year + 1)
    ensures th >= DaysBefore(year + 1) ==> InYear(th, year + 1) && (th - DaysBefore(year + 1)) / 7 == 0
    ensures w <= 53
  {
    YearLength(year);
    YearLength(year + 1);
    if th >= DaysBefore(year + 1) {
      SameWeekday(th);
      WeeksAreThursdays(year, th - 7);
    } else {
      LastThursdayAfter(year, th, w);
    }
  }

  lemma SameWeekday(day: int)
    ensures Weekday(day - 7) == Weekday(day) && Weekday(day + 7) == Weekday(day)
  {
  }

  lemma {:induction false} LastThursdayAfter(year: int, th: int, w: int)
    requires Weekday(th) == 4 && InYear(th, year)
    requires w == (th - DaysBefore(year) + 7) / 7
    ensures w <= WeeksOf(year)
    decreases DaysBefore(year + 1) - th
  {
    if InYear(th + 7, year) {
      SameWeekday(th);
      LastThursdayAfter(year, th + 7, w + 1);
    } else {
      WeeksAreThursdays(year, th);
    }
  }

  /** Year, week number and weekday together determine the day. */
  lemma WeekDateIsUnique(d1: int, y1: int, yd1: int, w1: int, d2: int, y2: int, yd2: int, w2: int)
    requires y1 >= 1 && Consistent(d1, y1, yd1, w1)
    requires y2 >= 1 && Consistent(d2, y2, yd2, w2)
    requires TmIsoWeekYear(y1, yd1, w1) == TmIsoWeekYear(y2, yd2, w2)
    requires TmIsoWeekOfYear(y1, yd1, w1) == TmIsoWeekOfYear(y2, yd2, w2)
    requires w1 == w2
    ensures d1 == d2
  {
    hide DaysBefore, IsoYearWeeks, ThursdayOf, Weekday, IsoWeekNum, InYear;
    IsoWeekIsThursdays(d1, y1, yd1, w1);
    IsoWeekIsThursdays(d2, y2, yd2, w2);
    OneThursdayAWeek(ThursdayOf(d1), ThursdayOf(d2), DaysBefore(TmIsoWeekYear(y1, yd1, w1)));
    FromThursday(d1);
    FromThursday(d2);
  }

  lemma OneThursdayAWeek(t1: int, t2: int, start: int)
    requires Weekday(t1) == 4 && Weekday(t2) == 4
    requires (t1 - start) / 7 == (t2 - start) / 7
    ensures t1 == t2
  {
    assert (t1 - t2) % 7 == 0;
  }

  lemma FromThursday(day: int)
    ensures day == ThursdayOf(day) - 4 + if Weekday(day) == 0 then 7 else Weekday(day)
  {
  }

  /** Before year zero truncating division goes wrong: 1 January of year -1 is a Friday in the 53rd
      week of year -2, and the arithmetic answers 52. */
  lemma FailsForNegativeYears()
    ensures Consistent(DaysBefore(-1), -1, 0, 5) && !IsoRight(DaysBefore(-1), -1, 0, 5)
    ensures TmIsoWeekYear(-1, 0, 5) == -2 && TmIsoWeekOfYear(-1, 0, 5) == 52 && WeeksOf(-2) == 53
  {
    assert DaysBefore(-2) == -1096 && DaysBefore(-1) == -731 && DaysBefore(0) == -366;
    ComputedWeeks(-2);
    assert IsoWeekNum(0, 5) == 0;
  }
}
