/** When a schedule has a slot at all, and when the bounded search is sure to find it. */
module CronBound {
  import opened Calendar
  import opened CronModel

  lemma LongestIsReal(date: Date)
    requires Valid(date)
    ensures date.d <= Longest(date.m)
  {
  }

  lemma MatchIsPossible(spec: CronSpec, n: nat)
    requires WellFormed(spec) && n >= 1 && DayMatches(spec, n)
    ensures CanMatch(spec)
  {
    LongestIsReal(DateOf(n));
  }

  lemma PossibleIsMatched(spec: CronSpec) returns (n: nat)
    requires WellFormed(spec) && CanMatch(spec)
    ensures n >= 1 && DayMatches(spec, n)
  {
    var m, d := PossibleDay(spec);
    var w := Pick(spec.weekdays);
    var date := DayOnWeekday(m, d, w);
    n := Ordinal(date);
    DateOfOrdinal(date);
  }

  lemma PossibleDay(spec: CronSpec) returns (m: int, d: int)
    requires WellFormed(spec) && CanMatch(spec)
    ensures m in spec.months && 1 <= d <= Longest(m)
    ensures spec.daysAny || spec.weekdaysAny ==> d in spec.days
  {
    if !spec.daysAny && spec.weekdaysAny {
      d, m :| d in spec.days && m in spec.months && d <= Longest(m);
    } else {
      m := Pick(spec.months);
      d := 1;
    }
  }

  /** The last test of the parser rejects exactly the schedules that no date ever matches. */
  lemma CanMatchIff(spec: CronSpec)
    requires WellFormed(spec)
    ensures CanMatch(spec) <==> exists n: nat :: n >= 1 && DayMatches(spec, n)
  {
    if CanMatch(spec) {
      var n := PossibleIsMatched(spec);
    }
    if n: nat :| n >= 1 && DayMatches(spec, n) {
      MatchIsPossible(spec, n);
    }
  }

  /** The guard a caller can check: no stepped `*` and no second restriction both narrow the day. */
  predicate Eager(spec: CronSpec) {
    || (forall w :: 0 <= w < 7 ==> w in spec.weekdays)
    || (forall d :: 1 <= d <= 31 ==> d in spec.days)
    || (!spec.daysAny && !spec.weekdaysAny)
  }

  lemma DayWithinSearch(spec: CronSpec, today: nat) returns (n: nat)
    requires WellFormed(spec) && CanMatch(spec) && Eager(spec) && today >= 1
    ensures today < n <= today + 9 * 366 - 3 && DayMatches(spec, n)
  {
    var date: Date;
    if forall w :: 0 <= w < 7 ==> w in spec.weekdays {
      var m, d := PossibleDay(spec);
      date := DayComesRound(today, m, d);
    } else {
      var m := Pick(spec.months);
      var w := Pick(spec.weekdays);
      date := FirstWeek(today, m, w);
    }
    n := Ordinal(date);
    DateOfOrdinal(date);
  }

  lemma SlotOnDay(spec: CronSpec, zone: Zone, after: int, n: nat) returns (t: int)
    requires WellFormed(spec) && ValidZone(zone) && SkipsNothing(zone) && Wall(zone, after) >= 0
    requires n > DayAt(NextMinute(zone, after)) + 2 && DayMatches(spec, n)
    ensures IsSlot(spec, zone, t) && t > after && Wall(zone, t) < At(n + 1, 0, 0)
  {
    var hour := Pick(spec.hours);
    var minute := Pick(spec.minutes);
    var w := At(n, hour, minute);
    PartsOfAt(n, hour, minute);
    t := First(zone, w);
    assert Wall(zone, t) == w;
    AtOfParts(NextMinute(zone, after));
  }

  /** Nine years are enough for every accepted schedule of that kind, 29 February included. */
  lemma SearchFinds(spec: CronSpec, zone: Zone, after: int)
    requires WellFormed(spec) && ValidZone(zone) && Wall(zone, after) >= 0
    ensures CanMatch(spec) && Eager(spec) && SkipsNothing(zone) ==> !Barren(spec, zone, after)
  {
    if CanMatch(spec) && Eager(spec) && SkipsNothing(zone) {
      SlotWithinSearch(spec, zone, after);
    }
  }

  lemma SlotWithinSearch(spec: CronSpec, zone: Zone, after: int)
    requires WellFormed(spec) && ValidZone(zone) && Wall(zone, after) >= 0
    requires CanMatch(spec) && Eager(spec) && SkipsNothing(zone)
    ensures !Barren(spec, zone, after)
  {
    hide IsSlot, DayMatches, ValidZone, SkipsNothing, Wall;
    var today := DayAt(NextMinute(zone, after));
    PartsInRange(NextMinute(zone, after));
    var n := DayWithinSearch(spec, today + 2);
    var t := SlotOnDay(spec, zone, after, n);
  }

  // A schedule outside that kind: Sundays that are 29 February.

  const LEAP_SUNDAYS := CronSpec({0}, {0}, {29}, {2}, {0}, false, true)

  function Utc(): Zone {
    Zone((t: int) => 0, (w: int) => 0)
  }

  lemma LeapDaysOfWindow(date: Date)
    requires Valid(date) && date.m == 2 && date.d == 29 && 2004 <= date.y <= 2013
    ensures Ordinal(date) < 731641 || Weekday(Ordinal(date)) != 0
  {
    assert DaysBeforeMonth(date.y, 2) == 31;
    assert date.y == 2004 || date.y == 2008 || date.y == 2012;
  }

  lemma NoLeapSunday(n: nat)
    requires 731641 <= n < 731641 + SEARCH_DAYS
    ensures !DayMatches(LEAP_SUNDAYS, n)
  {
    hide Ordinal, Valid;
    var date := DateOf(n);
    OrdinalOfDate(n);
    if date.m == 2 && date.d == 29 {
      YearOfWindow(n);
      LeapDaysOfWindow(date);
    }
  }

  lemma YearOfWindow(n: nat)
    requires 731641 <= n < 731641 + SEARCH_DAYS
    ensures 2004 <= DateOf(n).y <= 2013
  {
    var date := DateOf(n);
    OrdinalOfDate(n);
    WithinYear(date);
    if date.y < 2004 {
      YearsGrow(date.y + 1, 2004);
    } else if date.y > 2013 {
      YearsGrow(2014, date.y);
    }
  }

  lemma LeapSunday()
    ensures Ordinal(Date(2032, 2, 29)) == 741867 && Ordinal(Date(2004, 3, 1)) == 731641
  {
    assert DaysBeforeMonth(2032, 2) == 31 && DaysBeforeMonth(2004, 3) == 60;
  }

  lemma LeapSundayMatches()
    ensures WellFormed(LEAP_SUNDAYS) && CanMatch(LEAP_SUNDAYS) && DayMatches(LEAP_SUNDAYS, 741867)
  {
    hide Ordinal, DateOf;
    LeapSunday();
    DateOfOrdinal(Date(2032, 2, 29));
    assert 29 in LEAP_SUNDAYS.days && 2 in LEAP_SUNDAYS.months && 29 <= Longest(2);
  }

  lemma UtcTimes(t: int)
    ensures Wall(Utc(), t) == t && First(Utc(), t) == t && Utc().offset(t) == 0
  {
  }

  lemma UtcIsPlain()
    ensures ValidZone(Utc()) && SkipsNothing(Utc())
    ensures forall t :: Wall(Utc(), t) == t
  {
    hide Wall, First;
    forall t
      ensures Wall(Utc(), t) == t && First(Utc(), t) == t && Utc().offset(t) == 0
    {
      UtcTimes(t);
    }
  }

  lemma LeapSundaysAreRare()
    ensures !Eager(LEAP_SUNDAYS)
  {
    assert 1 !in LEAP_SUNDAYS.weekdays && 1 !in LEAP_SUNDAYS.days;
  }

  lemma NoSlotInWindow(t: int)
    requires IsSlot(LEAP_SUNDAYS, Utc(), t) && t > At(731641, 0, 0)
    ensures t >= At(731641 + SEARCH_DAYS, 0, 0)
  {
    hide DayMatches, At, DayAt, WholeMinute, HourAt, MinuteAt;
    UtcIsPlain();
    if t < At(731641 + SEARCH_DAYS, 0, 0) {
      DayInWindow(t);
      NoLeapSunday(DayAt(t));
    }
  }

  /** Accepted, and 29 February 2032, day 741867, is a Sunday; yet a search that starts on
      1 March 2004, day 731641, gives up. */
  lemma SearchGivesUp()
    ensures ValidZone(Utc()) && SkipsNothing(Utc()) && !Eager(LEAP_SUNDAYS)
    ensures Barren(LEAP_SUNDAYS, Utc(), At(731641, 0, 0))
  {
    hide DayMatches, At, DayAt, IsSlot, Eager, ValidZone, SkipsNothing, NextMinute, Wall;
    UtcIsPlain();
    LeapSundaysAreRare();
    StartOfWindow();
    forall t | IsSlot(LEAP_SUNDAYS, Utc(), t) && t > At(731641, 0, 0)
      ensures Wall(Utc(), t) >= At(731641 + SEARCH_DAYS, 0, 0)
    {
      NoSlotInWindow(t);
    }
  }

  lemma DayInWindow(t: int)
    requires At(731641, 0, 0) <= t < At(731641 + SEARCH_DAYS, 0, 0)
    ensures 731641 <= DayAt(t) < 731641 + SEARCH_DAYS
  {
  }

  lemma StartOfWindow()
    ensures DayAt(NextMinute(Utc(), At(731641, 0, 0))) == 731641
  {
    PartsOfAt(731641, 0, 1);
    PartsOfAt(731641, 0, 0);
  }
}
