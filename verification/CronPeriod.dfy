/** Which schedules the bounded search can serve from every moment: exactly those without a gap
    that is too long in one cycle of the calendar. */
module CronPeriod {
  import opened Calendar
  import opened CronModel
  import opened CronBound

  /** The days of 400 years, which are whole weeks. */
  const CYCLE := 146_097

  // The calendar repeats.

  lemma FoursRepeat(y: int)
    ensures (y + 400) % 4 == y % 4
  {
  }

  lemma HundredsRepeat(y: int)
    ensures (y + 400) % 100 == y % 100
  {
  }

  lemma LeapRepeats(y: int)
    ensures IsLeap(y + 400) == IsLeap(y)
  {
    FoursRepeat(y);
    HundredsRepeat(y);
  }

  lemma {:induction false} MonthsRepeat(y: int, m: int)
    requires 1 <= m <= 13
    ensures DaysBeforeMonth(y + 400, m) == DaysBeforeMonth(y, m)
    decreases m
  {
    LeapRepeats(y);
    hide IsLeap;
    if m > 1 {
      MonthsRepeat(y, m - 1);
    }
  }

  lemma YearsRepeat(y: int)
    ensures DaysBeforeYear(y + 400) == DaysBeforeYear(y) + CYCLE
  {
    assert (y - 1 + 400) / 4 == (y - 1) / 4 + 100;
    assert (y - 1 + 400) / 100 == (y - 1) / 100 + 4;
    assert (y - 1 + 400) / 400 == (y - 1) / 400 + 1;
  }

  lemma OrdinalRepeats(date: Date)
    requires Valid(date)
    ensures Valid(date.(y := date.y + 400)) && Ordinal(date.(y := date.y + 400)) == Ordinal(date) + CYCLE
  {
    hide IsLeap, DaysBeforeYear, DaysBeforeMonth;
    LeapRepeats(date.y);
    MonthsRepeat(date.y, date.m);
    YearsRepeat(date.y);
  }

  /** Every date comes again 400 years later, on the same day of the week. */
  lemma CycleRepeats(n: nat)
    requires n >= 1
    ensures DateOf(n + CYCLE) == DateOf(n).(y := DateOf(n).y + 400)
    ensures Weekday(n + CYCLE) == Weekday(n)
  {
    hide DateOf, Ordinal, Valid;
    var date := DateOf(n);
    OrdinalOfDate(n);
    OrdinalRepeats(date);
    DateOfOrdinal(date.(y := date.y + 400));
    WeeksRepeat(n);
  }

  lemma WeeksRepeat(n: nat)
    ensures Weekday(n + CYCLE) == Weekday(n)
  {
    assert CYCLE == 7 * 20_871;
    assert (n + 7 * 20_871) % 7 == n % 7;
  }

  lemma DaysRepeat(spec: CronSpec, n: nat)
    requires n >= 1
    ensures DayMatches(spec, n + CYCLE) <==> DayMatches(spec, n)
  {
    hide DateOf, Weekday;
    CycleRepeats(n);
  }

  // What a caller can check on the schedule alone.

  /** How far the search looks past a day whose last run is over: a day further when that run is
      at 23:59, as the search begins on the next day then. */
  function Reach(spec: CronSpec): int {
    if 23 in spec.hours && 59 in spec.minutes then SEARCH_DAYS else SEARCH_DAYS - 1
  }

  ghost predicate FollowedBy(spec: CronSpec, n: nat, reach: int)
    requires n >= 1
  {
    exists b: nat :: n < b <= n + reach && DayMatches(spec, b)
  }

  /** In one cycle of the calendar, every matching day is followed by another within `reach` days. */
  ghost predicate Dense(spec: CronSpec, reach: int) {
    forall n: nat :: 1 <= n <= CYCLE && DayMatches(spec, n) ==> FollowedBy(spec, n, reach)
  }

  lemma {:induction false} DenseEverywhere(spec: CronSpec, n: nat, reach: int)
    requires Dense(spec, reach) && n >= 1 && DayMatches(spec, n)
    ensures FollowedBy(spec, n, reach)
    decreases n
  {
    if n > CYCLE {
      DaysRepeat(spec, n - CYCLE);
      DenseEverywhere(spec, n - CYCLE, reach);
      var b: nat :| n - CYCLE < b <= n - CYCLE + reach && DayMatches(spec, b);
      DaysRepeat(spec, b);
      assert DayMatches(spec, b + CYCLE);
    }
  }

  lemma {:induction false} FoldedDay(spec: CronSpec, n: nat) returns (k: nat)
    requires n >= 1 && DayMatches(spec, n)
    ensures 1 <= k <= CYCLE && DayMatches(spec, k)
    decreases n
  {
    if n <= CYCLE {
      k := n;
    } else {
      DaysRepeat(spec, n - CYCLE);
      k := FoldedDay(spec, n - CYCLE);
    }
  }

  /** The last matching day before `end`. */
  lemma {:induction false} LastBefore(spec: CronSpec, k: nat, end: nat) returns (last: nat)
    requires 1 <= k < end && DayMatches(spec, k)
    ensures k <= last < end && DayMatches(spec, last)
    ensures forall b: nat :: last < b < end ==> !DayMatches(spec, b)
    decreases end
  {
    if DayMatches(spec, end - 1) {
      last := end - 1;
    } else {
      last := LastBefore(spec, k, end - 1);
    }
  }

  /** From any day on, some matching day is near. */
  lemma DenseFrom(spec: CronSpec, today: nat, reach: int) returns (b: nat)
    requires WellFormed(spec) && CanMatch(spec) && Dense(spec, reach) && today >= 1
    ensures today <= b < today + reach && DayMatches(spec, b)
  {
    var n := PossibleIsMatched(spec);
    var k := FoldedDay(spec, n);
    var last := LastBefore(spec, k, today + CYCLE);
    DenseEverywhere(spec, last, reach);
    var next: nat :| last < next <= last + reach && DayMatches(spec, next);
    b := next - CYCLE;
    DaysRepeat(spec, b);
  }

  // The runs of one day.

  lemma {:induction false} Greatest(values: set<int>) returns (v: int)
    requires values != {}
    ensures v in values && forall u :: u in values ==> u <= v
    decreases |values|
  {
    var any := Pick(values);
    var rest := values - {any};
    if rest == {} {
      assert values == {any};
      v := any;
    } else {
      v := Greatest(rest);
      assert values == rest + {any};
      if v < any {
        v := any;
      }
    }
  }

  /** A zone whose clock never jumps: no wall time is skipped, none comes twice. */
  ghost predicate Steady(zone: Zone) {
    SkipsNothing(zone) && forall t :: First(zone, Wall(zone, t)) == t
  }

  lemma RunAt(spec: CronSpec, zone: Zone, after: int, n: nat, hour: int, minute: int) returns (t: int)
    requires WellFormed(spec) && ValidZone(zone) && Steady(zone)
    requires n >= 1 && DayMatches(spec, n) && hour in spec.hours && minute in spec.minutes
    requires At(n, hour, minute) >= NextMinute(zone, after)
    ensures IsSlot(spec, zone, t) && t > after && Wall(zone, t) == At(n, hour, minute)
  {
    hide At, DayMatches, NextMinute;
    var w := At(n, hour, minute);
    PartsOfAt(n, hour, minute);
    t := First(zone, w);
    assert Wall(zone, t) == w && First(zone, Wall(zone, after)) == after;
    assert w >= 0 && DayAt(w) == n;
  }

  lemma AtGrows(a: int, h: int, m: int, b: int, g: int, l: int)
    requires 0 <= h < 24 && 0 <= m < 60 && 0 <= g < 24 && 0 <= l < 60
    ensures a < b ==> At(a, h, m) < At(b, g, l)
    ensures At(a, h, m) < At(a, g, l) <==> h < g || (h == g && m < l)
  {
  }

  /** In a zone whose clock never jumps, the search from any moment finds a run of a schedule that
      is dense enough. */
  lemma SteadySearchFinds(spec: CronSpec, zone: Zone, after: int)
    requires WellFormed(spec) && CanMatch(spec) && ValidZone(zone) && Steady(zone) && Wall(zone, after) >= 0
    requires Dense(spec, Reach(spec))
    ensures !Barren(spec, zone, after)
  {
    hide Dense, FollowedBy, ValidZone, IsSlot, DayMatches, At;
    var w := NextMinute(zone, after);
    var today := DayAt(w);
    PartsInRange(w);
    AtOfParts(w);
    var b := DenseFrom(spec, today, Reach(spec));
    var hour := Greatest(spec.hours);
    var minute := Greatest(spec.minutes);
    if b == today && At(today, hour, minute) < w {
      LastMinuteIsNotOver(today, hour, minute, w);
      DenseEverywhere(spec, today, Reach(spec));
      b :| today < b <= today + Reach(spec) && DayMatches(spec, b);
    }
    AtGrows(today, HourAt(w), MinuteAt(w), b, hour, minute);
    var t := RunAt(spec, zone, after, b, hour, minute);
    AtGrows(b, hour, minute, today + SEARCH_DAYS, 0, 0);
  }

  lemma LastMinuteIsNotOver(today: int, hour: int, minute: int, w: int)
    requires 0 <= hour < 24 && 0 <= minute < 60 && DayAt(w) == today && WholeMinute(w) && At(today, hour, minute) < w
    ensures hour != 23 || minute != 59
  {
    AtOfParts(w);
    AtGrows(today, hour, minute, today, HourAt(w), MinuteAt(w));
  }

  /** And in any zone that skips nothing, a schedule that the search serves from every moment is
      that dense: else it fails right after the last run before a long gap. */
  lemma ServedIsDense(spec: CronSpec, zone: Zone)
    requires WellFormed(spec) && ValidZone(zone) && SkipsNothing(zone)
    requires forall after :: Wall(zone, after) >= 0 ==> !Barren(spec, zone, after)
    ensures Dense(spec, Reach(spec))
  {
    hide Barren, DayMatches;
    var hour := Greatest(spec.hours);
    var minute := Greatest(spec.minutes);
    forall n: nat | 1 <= n <= CYCLE && DayMatches(spec, n)
      ensures FollowedBy(spec, n, Reach(spec))
    {
      var after := First(zone, At(n, hour, minute));
      assert Wall(zone, after) == At(n, hour, minute) && At(n, hour, minute) >= 0;
      NextAfterLast(spec, zone, n, hour, minute);
    }
  }

  lemma NextAfterLast(spec: CronSpec, zone: Zone, n: nat, hour: int, minute: int)
    requires WellFormed(spec) && ValidZone(zone) && SkipsNothing(zone) && n >= 1
    requires hour in spec.hours && minute in spec.minutes
    requires (forall h :: h in spec.hours ==> h <= hour) && (forall m :: m in spec.minutes ==> m <= minute)
    requires !Barren(spec, zone, First(zone, At(n, hour, minute)))
    ensures FollowedBy(spec, n, Reach(spec))
  {
    hide Barren, IsSlot, DayMatches, ValidZone;
    var after := First(zone, At(n, hour, minute));
    assert Wall(zone, after) == At(n, hour, minute);
    hide SkipsNothing;
    var t := RunInSearch(spec, zone, after);
    SlotIsLater(spec, zone, t, n, hour, minute);
    SearchedUpTo(zone, after, n, hour, minute, Wall(zone, t));
    hide At, First, Wall, SearchEnd, DayAt;
    var b: nat := DayAt(Wall(zone, t));
    assert b <= n + Reach(spec);
  }

  lemma RunInSearch(spec: CronSpec, zone: Zone, after: int) returns (t: int)
    requires !Barren(spec, zone, after)
    ensures IsSlot(spec, zone, t) && t > after && Wall(zone, t) < SearchEnd(zone, after)
    ensures DayAt(Wall(zone, t)) >= 1 && DayMatches(spec, DayAt(Wall(zone, t)))
  {
    t :| IsSlot(spec, zone, t) && t > after && Wall(zone, t) < SearchEnd(zone, after);
  }

  /** A run after the last one of a day is on a later day. */
  lemma SlotIsLater(spec: CronSpec, zone: Zone, t: int, n: nat, hour: int, minute: int)
    requires WellFormed(spec) && ValidZone(zone) && SkipsNothing(zone) && n >= 1
    requires hour in spec.hours && minute in spec.minutes
    requires (forall h :: h in spec.hours ==> h <= hour) && (forall m :: m in spec.minutes ==> m <= minute)
    requires IsSlot(spec, zone, t) && t > First(zone, At(n, hour, minute))
    ensures DayAt(Wall(zone, t)) > n
  {
    var v := Wall(zone, t);
    assert v > At(n, hour, minute);
    AtOfParts(v);
    PartsInRange(v);
    AtGrows(DayAt(v), HourAt(v), MinuteAt(v), n, hour, minute);
    AtGrows(n, HourAt(v), MinuteAt(v), n, hour, minute);
  }

  lemma SearchedUpTo(zone: Zone, after: int, n: nat, hour: int, minute: int, v: int)
    requires 0 <= hour < 24 && 0 <= minute < 60 && n >= 1 && Wall(zone, after) == At(n, hour, minute)
    requires v < SearchEnd(zone, after)
    ensures DayAt(v) < n + SEARCH_DAYS || (hour == 23 && minute == 59 && DayAt(v) == n + SEARCH_DAYS)
  {
    PartsOfAt(n, hour, minute);
    assert NextMinute(zone, after) == At(n, hour, minute) + MINUTE;
    if minute < 59 {
      PartsOfAt(n, hour, minute + 1);
    } else if hour < 23 {
      PartsOfAt(n, hour + 1, 0);
    } else {
      PartsOfAt(n + 1, 0, 0);
    }
  }

  /** In a zone whose clock never jumps, the search finds a run from every moment if and only if,
      over one cycle of the calendar, no two matching days in a row are further apart than it
      looks. */
  lemma SearchServesIff(spec: CronSpec, zone: Zone)
    requires WellFormed(spec) && CanMatch(spec) && ValidZone(zone) && Steady(zone)
    ensures (forall after :: Wall(zone, after) >= 0 ==> !Barren(spec, zone, after)) <==> Dense(spec, Reach(spec))
  {
    if Dense(spec, Reach(spec)) {
      forall after | Wall(zone, after) >= 0
        ensures !Barren(spec, zone, after)
      {
        SteadySearchFinds(spec, zone, after);
      }
    }
    if forall after :: Wall(zone, after) >= 0 ==> !Barren(spec, zone, after) {
      ServedIsDense(spec, zone);
    }
  }

  /** With three days to spare the clock may also be set back. */
  lemma SpareSearchFinds(spec: CronSpec, zone: Zone, after: int)
    requires WellFormed(spec) && CanMatch(spec) && ValidZone(zone) && SkipsNothing(zone) && Wall(zone, after) >= 0
    requires Dense(spec, SEARCH_DAYS - 3)
    ensures !Barren(spec, zone, after)
  {
    hide Dense, IsSlot, DayMatches, ValidZone, SkipsNothing, Wall;
    var today := DayAt(NextMinute(zone, after));
    PartsInRange(NextMinute(zone, after));
    var n := DenseFrom(spec, today + 3, SEARCH_DAYS - 3);
    var t := SlotOnDay(spec, zone, after, n);
    AtGrows(n + 1, 0, 0, today + SEARCH_DAYS, 0, 0);
  }

  /** Every accepted schedule under the guard of `SearchFinds` has those days to spare. */
  lemma EagerIsDense(spec: CronSpec)
    requires WellFormed(spec) && CanMatch(spec) && Eager(spec)
    ensures Dense(spec, SEARCH_DAYS - 3)
  {
    hide DayMatches, WellFormed, CanMatch, Eager;
    forall n: nat | 1 <= n <= CYCLE && DayMatches(spec, n)
      ensures FollowedBy(spec, n, SEARCH_DAYS - 3)
    {
      var b := DayWithinSearch(spec, n);
    }
  }

  /** UTC is such a zone. */
  lemma UtcIsSteady()
    ensures ValidZone(Utc()) && Steady(Utc())
  {
  }
}
