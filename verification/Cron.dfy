/** The search for the next run, and the count of runs built on it. */
module Cron {
  import opened CronBound
  import opened CronModel
  import opened Options

  /** The first slot strictly after `after`, or the error that the search found none. */
  method NextAfter(spec: CronSpec, after: int, zone: Zone) returns (found: Option<int>)
    requires WellFormed(spec) && ValidZone(zone) && Wall(zone, after) >= 0
    ensures found.Some? ==> IsSlot(spec, zone, found.value) && found.value > after
    ensures found.Some? ==> forall t :: IsSlot(spec, zone, t) && t > after ==> found.value <= t
    ensures found.None? ==> Barren(spec, zone, after)
    ensures CanMatch(spec) && Eager(spec) && SkipsNothing(zone) ==> found.Some?
  {
    hide At, DayAt, HourAt, MinuteAt, Wall, ValidZone, Instant, NextMinute, IsSlot, NoneBelow, DayMatches, Sorted,
      Barren, CanMatch, Eager, SkipsNothing;
    var local := NextMinute(zone, after);
    var hours, minutes := Sorted(spec.hours, 24), Sorted(spec.minutes, 60);
    var today := DayAt(local);
    var day := today;
    PartsInRange(local);
    FirstDayCut(spec, zone, after, 0, 0);
    for k := 0 to SEARCH_DAYS
      invariant day == today + k
      invariant NoneBelow(spec, zone, after, At(day, 0, 0))
    {
      if DayMatches(spec, day) {
        var firstDay := day == today;
        for i := 0 to |hours|
          invariant NoneBelow(spec, zone, after, At(day, Past(hours, i), 0))
        {
          if firstDay && hours[i] < HourAt(local) {
            FirstDayCut(spec, zone, after, hours[i] + 1, 0);
            continue;
          }
          SkipHours(spec, zone, after, day, i);
          for j := 0 to |minutes|
            invariant NoneBelow(spec, zone, after, At(day, hours[i], Past(minutes, j)))
          {
            if firstDay && hours[i] == HourAt(local) && minutes[j] < MinuteAt(local) {
              FirstDayCut(spec, zone, after, hours[i], minutes[j] + 1);
              continue;
            }
            SkipMinutes(spec, zone, after, day, hours[i], j);
            found := Instant(zone, At(day, hours[i], minutes[j]));
            if found.Some? && found.value > after {
              FoundIsFirst(spec, zone, after, day, hours[i], minutes[j]);
              return;
            }
            SkipInstant(spec, zone, after, day, hours[i], minutes[j]);
          }
          SkipMinutes(spec, zone, after, day, hours[i], |minutes|);
          HourEnds(day, hours[i]);
        }
        SkipHours(spec, zone, after, day, |hours|);
        HourEnds(day, 24);
      } else {
        SkipDay(spec, zone, after, day);
      }
      day := day + 1;
    }
    found := None;
    NothingFound(spec, zone, after);
    SearchFinds(spec, zone, after);
  }

  /** How many slots fall in `(start, end]`, up to `limit`. */
  method RunsBetween(spec: CronSpec, start: int, end: int, zone: Zone, limit: nat) returns (runs: Option<nat>)
    requires WellFormed(spec) && ValidZone(zone) && Wall(zone, start) >= 0
    ensures runs.Some? ==> runs.value == Min(limit, |Slots(spec, zone, start, end)|)
    ensures runs.None? ==>
              exists t :: (t == start || t in Slots(spec, zone, start, end)) && Barren(spec, zone, t)
    ensures CanMatch(spec) && Eager(spec) && SkipsNothing(zone) ==> runs.Some?
  {
    hide IsSlot, ValidZone, Slots, Wall, Barren, CanMatch, Eager, SkipsNothing, WellFormed;
    var count, cursor := 0, start;
    assert Slots(spec, zone, start, start) == {} by { NoSlots(spec, zone, start); }
    while count < limit
      invariant count <= limit && start <= cursor && Wall(zone, cursor) >= 0
      invariant cursor == start || cursor in Slots(spec, zone, start, end)
      invariant cursor == start || cursor <= end
      invariant count == |Slots(spec, zone, start, cursor)|
    {
      var found := NextAfter(spec, cursor, zone);
      if found.None? {
        return None;
      }
      if found.value > end {
        CountEnds(spec, zone, start, cursor, end);
        return Some(count);
      }
      CountOneMore(spec, zone, start, cursor, found.value);
      SlotIsLater(spec, zone, start, end, found.value);
      count := count + 1;
      cursor := found.value;
    }
    CountGrows(spec, zone, start, cursor, end);
    return Some(count);
  }
}
