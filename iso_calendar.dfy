/**
 * ISO 8601 week dates (ISO 8601:2004, section 4.1.4) over proleptic Gregorian day numbers.
 * Day 1 is 0001-01-01, a Monday; this is the numbering of Python's `date.toordinal`,
 * which the dashboard's dates are compared in.
 */
module IsoCalendar {

  const Monday: int := 0
  const Wednesday: int := 2
  const Thursday: int := 3

  predicate IsLeapYear(y: int) {
    y % 4 == 0 && (y % 100 != 0 || y % 400 == 0)
  }

  function DaysInYear(y: int): int {
    if IsLeapYear(y) then 366 else 365
  }

  /** Number of days in all years before year `y` (Python's `_days_before_year`). */
  function DaysBeforeYear(y: int): int {
    var p := y - 1;
    365 * p + p / 4 - p / 100 + p / 400
  }

  function Jan1(y: int): int {
    DaysBeforeYear(y) + 1
  }

  function Jan4(y: int): int {
    DaysBeforeYear(y) + 4
  }

  /** Day of the week of day number `d`: 0 is Monday, 6 is Sunday. */
  function Weekday(d: int): (r: int)
    ensures 0 <= r < 7
  {
    (d + 6) % 7
  }

  /** The Monday of the (Monday-to-Sunday) week that holds day `d`. */
  function MondayOnOrBefore(d: int): (r: int)
    ensures Weekday(r) == Monday
    ensures r <= d < r + 7
  {
    d - Weekday(d)
  }

  /** The Monday that starts ISO week 1 of ISO year `y`: the week holding 4 January. */
  function IsoWeek1Monday(y: int): (r: int)
    ensures Weekday(r) == Monday
    ensures r <= Jan4(y) < r + 7
  {
    MondayOnOrBefore(Jan4(y))
  }

  /**
   * The Monday of ISO week `w` of ISO year `y`, counted from week 1 as `strptime`'s
   * `%G-%V-%u` does; a week past the year's last one runs on into the next year.
   */
  function MondayOfIsoWeek(y: int, w: int): (r: int)
    ensures Weekday(r) == Monday
  {
    WeekdayShift(IsoWeek1Monday(y), w - 1);
    IsoWeek1Monday(y) + 7 * (w - 1)
  }

  /** Number of ISO weeks in ISO year `y`. */
  function WeeksInIsoYear(y: int): int {
    (IsoWeek1Monday(y + 1) - IsoWeek1Monday(y)) / 7
  }

  /**
   * Day `d` lies in ISO week `w` of ISO year `y`, by the Thursday rule: the Thursday of the
   * Monday-to-Sunday week holding `d` falls in calendar year `y`, in its `w`-th run of seven days.
   */
  predicate InIsoWeek(d: int, y: int, w: int) {
    var t := MondayOnOrBefore(d) + 3;
    Jan1(y) <= t < Jan1(y + 1) && w == (t - Jan1(y)) / 7 + 1
  }

  lemma WeekdayShift(d: int, k: int)
    ensures Weekday(d + 7 * k) == Weekday(d)
  {
  }

  lemma DivStep(y: int)
    ensures y / 4 - (y - 1) / 4 == if y % 4 == 0 then 1 else 0
    ensures y / 100 - (y - 1) / 100 == if y % 100 == 0 then 1 else 0
    ensures y / 400 - (y - 1) / 400 == if y % 400 == 0 then 1 else 0
  {
  }

  /** A calendar year has 366 days exactly when it is a leap year. */
  lemma YearLength(y: int)
    ensures DaysBeforeYear(y + 1) == DaysBeforeYear(y) + DaysInYear(y)
  {
    DivStep(y);
    CenturyDivisibility(y);
    var p := y - 1;
    assert DaysBeforeYear(y + 1) - DaysBeforeYear(y) ==
           365 + (y / 4 - p / 4) - (y / 100 - p / 100) + (y / 400 - p / 400);
  }

  lemma CenturyDivisibility(y: int)
    ensures y % 100 == 0 ==> y % 4 == 0
    ensures y % 400 == 0 ==> y % 100 == 0
  {
    if y % 100 == 0 {
      var k := y / 100;
      assert y == 4 * (25 * k);
    }
    if y % 400 == 0 {
      var k := y / 400;
      assert y == 100 * (4 * k);
    }
  }

  /**
   * From the week of day `j` to the week of day `j + n`, for a year's length `n`, there are
   * 52 weeks, or 53 when day `j` falls late enough in its week.
   */
  lemma WeekSpan(j: int, n: int)
    requires n == 365 || n == 366
    ensures var span := MondayOnOrBefore(j + n) - MondayOnOrBefore(j);
            (span == 364 || span == 371) &&
            (span == 371 <==> Weekday(j) == 6 || (n == 366 && Weekday(j) == 5))
    ensures Weekday(j - 3) == Thursday <==> Weekday(j) == 6
    ensures Weekday(j - 3) == Wednesday <==> Weekday(j) == 5
  {
    WeekdayShift(j + n - 7 * 52, 52);
  }

  /**
   * An ISO year has 52 or 53 whole weeks, and 53 exactly when 1 January is a Thursday,
   * or a Wednesday in a leap year.
   */
  lemma IsoYearLength(y: int)
    ensures IsoWeek1Monday(y + 1) - IsoWeek1Monday(y) == 7 * WeeksInIsoYear(y)
    ensures WeeksInIsoYear(y) == 52 || WeeksInIsoYear(y) == 53
    ensures WeeksInIsoYear(y) == 53 <==>
              Weekday(Jan1(y)) == Thursday || (IsLeapYear(y) && Weekday(Jan1(y)) == Wednesday)
  {
    YearLength(y);
    var j, n := Jan4(y), DaysInYear(y);
    assert Jan4(y + 1) == j + n;
    assert Jan1(y) == j - 3;
    WeekSpan(j, n);
    var span := IsoWeek1Monday(y + 1) - IsoWeek1Monday(y);
    assert span == MondayOnOrBefore(j + n) - MondayOnOrBefore(j);
    if span == 364 {
      assert span / 7 == 52;
    } else {
      assert span / 7 == 53;
    }
  }

  /** ISO week 1 of a later year starts no earlier than the end of any earlier ISO year. */
  lemma {:induction false} IsoWeek1MondayIncreasing(y1: int, y2: int)
    requires y1 < y2
    ensures IsoWeek1Monday(y1) < IsoWeek1Monday(y1 + 1) <= IsoWeek1Monday(y2)
    decreases y2 - y1
  {
    IsoYearSpan(y1);
    if y1 + 1 < y2 {
      IsoWeek1MondayIncreasing(y1 + 1, y2);
    }
  }

  lemma IsoYearSpan(y: int)
    ensures IsoWeek1Monday(y) + 364 <= IsoWeek1Monday(y + 1)
  {
    IsoYearLength(y);
  }

  /** 1 January moves forward from year to year. */
  lemma {:induction false} Jan1Increasing(y1: int, y2: int)
    requires y1 < y2
    ensures Jan1(y1) < Jan1(y1 + 1) <= Jan1(y2)
    decreases y2 - y1
  {
    YearLength(y1);
    if y1 + 1 < y2 {
      Jan1Increasing(y1 + 1, y2);
    }
  }

  /** The Monday of a week that the year has lies in that week of that year. */
  lemma MondayOfIsoWeekInWeek(y: int, w: int)
    requires 1 <= w
    ensures w <= WeeksInIsoYear(y) ==> InIsoWeek(MondayOfIsoWeek(y, w), y, w)
  {
    if w <= WeeksInIsoYear(y) {
      IsoYearLength(y);
      YearLength(y);
      var m := MondayOfIsoWeek(y, w);
      assert MondayOnOrBefore(m) == m;
      var a := IsoWeek1Monday(y) + 3 - Jan1(y);
      assert 0 <= a < 7;
      assert m + 3 - Jan1(y) == 7 * (w - 1) + a;
      assert m + 3 <= IsoWeek1Monday(y + 1) - 4 < Jan1(y + 1);
    }
  }

  /** A day lies in exactly one ISO week of exactly one ISO year. */
  lemma IsoWeekUnique(d: int, y1: int, w1: int, y2: int, w2: int)
    requires InIsoWeek(d, y1, w1) && InIsoWeek(d, y2, w2)
    ensures y1 == y2 && w1 == w2
  {
    if y1 < y2 {
      Jan1Increasing(y1, y2);
    } else if y2 < y1 {
      Jan1Increasing(y2, y1);
    }
  }

  /** Week 53 of a 52-week ISO year is week 1 of the next ISO year. */
  lemma Week53Rollover(y: int)
    requires WeeksInIsoYear(y) == 52
    ensures MondayOfIsoWeek(y, 53) == IsoWeek1Monday(y + 1)
    ensures InIsoWeek(MondayOfIsoWeek(y, 53), y + 1, 1)
  {
    IsoYearLength(y);
    IsoYearLength(y + 1);
    MondayOfIsoWeekInWeek(y + 1, 1);
  }

  /** Week 0 of an ISO year is the last week of the ISO year before. */
  lemma Week0Rollback(y: int)
    ensures MondayOfIsoWeek(y, 0) == MondayOfIsoWeek(y - 1, WeeksInIsoYear(y - 1))
    ensures InIsoWeek(MondayOfIsoWeek(y, 0), y - 1, WeeksInIsoYear(y - 1))
  {
    IsoYearLength(y - 1);
    MondayOfIsoWeekInWeek(y - 1, WeeksInIsoYear(y - 1));
  }

  /**
   * Where the Monday of week `w` of ISO year `y` lies, for every week `%V` accepts: in that week
   * when the year has it, in week 1 of the next year for week 53 of a 52-week year, and in the
   * last week of the year before for week 0.
   */
  lemma MondayOfIsoWeekPlaced(y: int, w: int)
    requires 0 <= w <= 53
    ensures 1 <= w <= WeeksInIsoYear(y) ==> InIsoWeek(MondayOfIsoWeek(y, w), y, w)
    ensures w > WeeksInIsoYear(y) ==>
              MondayOfIsoWeek(y, w) == IsoWeek1Monday(y + 1) && InIsoWeek(MondayOfIsoWeek(y, w), y + 1, 1)
    ensures w == 0 ==> InIsoWeek(MondayOfIsoWeek(y, w), y - 1, WeeksInIsoYear(y - 1))
  {
    IsoYearLength(y);
    if w == 0 {
      Week0Rollback(y);
    } else if w <= WeeksInIsoYear(y) {
      MondayOfIsoWeekInWeek(y, w);
    } else {
      Week53Rollover(y);
    }
  }
}
