/** Schedules, zones and the slots a schedule has in a zone. Times are microseconds; wall
    times are counted from midnight of 1 January of year 1. */
module CronModel {
  import opened Calendar
  import opened Options

  const MINUTE := 60_000_000
  const HOUR := 3_600_000_000
  const DAY := 86_400_000_000
  const SEARCH_DAYS := 366 * 9

  datatype CronSpec = CronSpec(minutes: set<int>, hours: set<int>, days: set<int>, months: set<int>,
                               weekdays: set<int>, daysAny: bool, weekdaysAny: bool)

  predicate Within(values: set<int>, low: int, high: int) {
    values != {} && forall v :: v in values ==> low <= v <= high
  }

  lemma Pick<T>(values: set<T>) returns (v: T)
    requires values != {}
    ensures v in values
  {
    v :| v in values;
  }

  /** What `parse` establishes before it asks whether the schedule can match at all. */
  predicate WellFormed(spec: CronSpec) {
    && Within(spec.minutes, 0, 59)
    && Within(spec.hours, 0, 23)
    && Within(spec.days, 1, 31)
    && Within(spec.months, 1, 12)
    && Within(spec.weekdays, 0, 6)
    && (spec.daysAny ==> 1 in spec.days)
    && (spec.weekdaysAny ==> 0 in spec.weekdays)
  }

  predicate DayMatches(spec: CronSpec, n: nat)
    requires n >= 1
  {
    var date := DateOf(n);
    && date.m in spec.months
    && (if spec.daysAny || spec.weekdaysAny then date.d in spec.days && Weekday(n) in spec.weekdays
        else date.d in spec.days || Weekday(n) in spec.weekdays)
  }

  predicate CanMatch(spec: CronSpec) {
    !spec.daysAny && spec.weekdaysAny ==>
      exists d, m | d in spec.days && m in spec.months :: d <= Longest(m)
  }

  // Wall times.

  function At(n: int, hour: int, minute: int): int {
    (n - 1) * DAY + hour * HOUR + minute * MINUTE
  }

  function DayAt(w: int): int {
    w / DAY + 1
  }

  function HourAt(w: int): int {
    w % DAY / HOUR
  }

  function MinuteAt(w: int): int {
    w % DAY % HOUR / MINUTE
  }

  predicate WholeMinute(w: int) {
    w % MINUTE == 0
  }

  lemma PartsOfAt(n: int, hour: int, minute: int)
    requires 0 <= hour < 24 && 0 <= minute < 60
    ensures DayAt(At(n, hour, minute)) == n
    ensures HourAt(At(n, hour, minute)) == hour
    ensures MinuteAt(At(n, hour, minute)) == minute
    ensures WholeMinute(At(n, hour, minute))
  {
    MinuteParts(n, hour, minute, minute + 1, At(n, hour, minute));
    MinuteRest(((n - 1) * 24 + hour) * 60 + minute, 0);
  }

  lemma MinuteRest(count: int, rest: int)
    requires 0 <= rest < MINUTE
    ensures (count * MINUTE + rest) % MINUTE == rest
  {
  }

  lemma PartsInRange(w: int)
    ensures 0 <= HourAt(w) < 24 && 0 <= MinuteAt(w) < 60 && (w >= 0 ==> DayAt(w) >= 1)
  {
  }

  lemma AtOfParts(w: int)
    requires WholeMinute(w)
    ensures w == At(DayAt(w), HourAt(w), MinuteAt(w))
    ensures 0 <= HourAt(w) < 24 && 0 <= MinuteAt(w) < 60
  {
    var d, r := w / DAY, w % DAY;
    assert w == DAY * d + r && 0 <= r < DAY;
    var h, q := r / HOUR, r % HOUR;
    assert r == HOUR * h + q && 0 <= q < HOUR;
    var m, p := q / MINUTE, q % MINUTE;
    assert q == MINUTE * m + p && 0 <= p < MINUTE;
    MinuteRest((d * 24 + h) * 60 + m, p);
  }

  /** A zone: the offset in force at an instant, and the offset its rules give a wall time that
      is read as its first occurrence (`fold=0` in PEP 495). */
  datatype Zone = Zone(offset: int -> int, early: int -> int)

  function Wall(zone: Zone, t: int): int {
    t + zone.offset(t)
  }

  function First(zone: Zone, w: int): int {
    w - zone.early(w)
  }

  /** The wall times that occur have a first occurrence; first occurrences keep the order of
      their wall times; no offset reaches a day. */
  ghost predicate ValidZone(zone: Zone) {
    && (forall t :: Wall(zone, First(zone, Wall(zone, t))) == Wall(zone, t))
    && (forall t :: First(zone, Wall(zone, t)) <= t)
    && (forall t, u :: Wall(zone, t) < Wall(zone, u) ==> First(zone, Wall(zone, t)) < First(zone, Wall(zone, u)))
    && (forall t :: -DAY < zone.offset(t) < DAY)
  }

  ghost predicate SkipsNothing(zone: Zone) {
    forall w :: Wall(zone, First(zone, w)) == w
  }

  /** A wall time as an instant, unless the zone skips it. */
  function Instant(zone: Zone, w: int): (t: Option<int>)
    ensures t.Some? ==> Wall(zone, t.value) == w
  {
    if Wall(zone, First(zone, w)) != w then None else Some(First(zone, w))
  }

  predicate Matches(spec: CronSpec, w: int) {
    && w >= 0
    && WholeMinute(w)
    && DayMatches(spec, DayAt(w))
    && HourAt(w) in spec.hours
    && MinuteAt(w) in spec.minutes
  }

  /** An instant the schedule runs at: its wall time matches, and occurs here for the first time. */
  predicate IsSlot(spec: CronSpec, zone: Zone, t: int) {
    Matches(spec, Wall(zone, t)) && First(zone, Wall(zone, t)) == t
  }

  /** Every slot after `after` has a wall time of at least `w`. */
  ghost predicate NoneBelow(spec: CronSpec, zone: Zone, after: int, w: int) {
    forall t :: IsSlot(spec, zone, t) && t > after ==> Wall(zone, t) >= w
  }

  /** The minute after the one that `after` falls in, on the zone's clock. */
  function NextMinute(zone: Zone, after: int): (w: int)
    ensures w > Wall(zone, after) && w - MINUTE <= Wall(zone, after) && WholeMinute(w)
  {
    Wall(zone, after) - Wall(zone, after) % MINUTE + MINUTE
  }

  lemma WholeMinutesApart(w: int, v: int)
    requires WholeMinute(w) && WholeMinute(v)
    ensures w < v + MINUTE ==> w <= v
  {
    assert w == w / MINUTE * MINUTE && v == v / MINUTE * MINUTE;
  }

  lemma MinuteBefore(w: int)
    requires WholeMinute(w)
    ensures WholeMinute(w - MINUTE)
  {
  }

  lemma FirstsOrdered(zone: Zone, t: int, u: int)
    requires ValidZone(zone)
    ensures Wall(zone, t) <= Wall(zone, u) ==> First(zone, Wall(zone, t)) <= First(zone, Wall(zone, u)) <= u
  {
  }

  lemma StartsAtNextMinute(spec: CronSpec, zone: Zone, after: int)
    requires ValidZone(zone)
    ensures NoneBelow(spec, zone, after, NextMinute(zone, after))
  {
    hide ValidZone, NextMinute;
    var w := NextMinute(zone, after);
    MinuteBefore(w);
    forall t | IsSlot(spec, zone, t) && t > after
      ensures Wall(zone, t) >= w
    {
      WholeMinutesApart(Wall(zone, t), w - MINUTE);
      FirstsOrdered(zone, t, after);
    }
  }

  /** On the first day, the hours before the current one and its minutes before the next one
      hold no later slot. */
  lemma FirstDayCut(spec: CronSpec, zone: Zone, after: int, hour: int, minute: int)
    requires ValidZone(zone)
    requires 0 <= hour <= HourAt(NextMinute(zone, after)) && 0 <= minute
    requires hour == HourAt(NextMinute(zone, after)) ==> minute <= MinuteAt(NextMinute(zone, after))
    requires hour < HourAt(NextMinute(zone, after)) ==> minute <= 60
    ensures NoneBelow(spec, zone, after, At(DayAt(NextMinute(zone, after)), hour, minute))
  {
    StartsAtNextMinute(spec, zone, after);
    AtOfParts(NextMinute(zone, after));
  }

  lemma Advance(spec: CronSpec, zone: Zone, after: int, v: int, w: int)
    requires NoneBelow(spec, zone, after, v)
    requires forall u :: v <= u < w ==> !Matches(spec, u)
    ensures NoneBelow(spec, zone, after, w)
  {
  }

  lemma DayParts(n: int, u: int)
    requires At(n, 0, 0) <= u < At(n + 1, 0, 0)
    ensures DayAt(u) == n
  {
  }

  lemma HourParts(n: int, a: int, b: int, u: int)
    requires 0 <= a && b <= 24 && At(n, a, 0) <= u < At(n, b, 0)
    ensures DayAt(u) == n && a <= HourAt(u) < b
  {
    DayParts(n, u);
    assert u % DAY == u - (n - 1) * DAY;
  }

  lemma MinuteParts(n: int, hour: int, a: int, b: int, u: int)
    requires 0 <= hour < 24 && 0 <= a && b <= 60 && At(n, hour, a) <= u < At(n, hour, b)
    ensures DayAt(u) == n && HourAt(u) == hour && a <= MinuteAt(u) < b
  {
    HourParts(n, hour, hour + 1, u);
    assert u % DAY == u - (n - 1) * DAY;
  }

  lemma HourEnds(n: int, hour: int)
    ensures At(n, hour, 60) == At(n, hour + 1, 0)
    ensures At(n, 24, 0) == At(n + 1, 0, 0)
  {
  }

  lemma SkipDay(spec: CronSpec, zone: Zone, after: int, n: int)
    requires n >= 1 && !DayMatches(spec, n)
    requires NoneBelow(spec, zone, after, At(n, 0, 0))
    ensures NoneBelow(spec, zone, after, At(n + 1, 0, 0))
  {
    forall u | At(n, 0, 0) <= u < At(n + 1, 0, 0)
      ensures !Matches(spec, u)
    {
      DayParts(n, u);
    }
    Advance(spec, zone, after, At(n, 0, 0), At(n + 1, 0, 0));
  }

  /** Between two neighbouring hours of the schedule, and after the last, nothing runs. */
  lemma SkipHours(spec: CronSpec, zone: Zone, after: int, n: int, i: nat)
    requires Within(spec.hours, 0, 23) && i <= |Sorted(spec.hours, 24)|
    requires NoneBelow(spec, zone, after, At(n, Past(Sorted(spec.hours, 24), i), 0))
    ensures NoneBelow(spec, zone, after, At(n, Upcoming(Sorted(spec.hours, 24), i, 24), 0))
  {
    var a, b := Past(Sorted(spec.hours, 24), i), Upcoming(Sorted(spec.hours, 24), i, 24);
    forall u | At(n, a, 0) <= u < At(n, b, 0)
      ensures !Matches(spec, u)
    {
      HourParts(n, a, b, u);
      BetweenSorted(spec.hours, 24, i, HourAt(u));
    }
    Advance(spec, zone, after, At(n, a, 0), At(n, b, 0));
  }

  lemma SkipMinutes(spec: CronSpec, zone: Zone, after: int, n: int, hour: int, i: nat)
    requires 0 <= hour < 24 && Within(spec.minutes, 0, 59) && i <= |Sorted(spec.minutes, 60)|
    requires NoneBelow(spec, zone, after, At(n, hour, Past(Sorted(spec.minutes, 60), i)))
    ensures NoneBelow(spec, zone, after, At(n, hour, Upcoming(Sorted(spec.minutes, 60), i, 60)))
  {
    var a, b := Past(Sorted(spec.minutes, 60), i), Upcoming(Sorted(spec.minutes, 60), i, 60);
    forall u | At(n, hour, a) <= u < At(n, hour, b)
      ensures !Matches(spec, u)
    {
      MinuteParts(n, hour, a, b, u);
      BetweenSorted(spec.minutes, 60, i, MinuteAt(u));
    }
    Advance(spec, zone, after, At(n, hour, a), At(n, hour, b));
  }

  /** A wall time that is skipped, or came before `after`, carries no later slot. */
  lemma SkipInstant(spec: CronSpec, zone: Zone, after: int, n: int, hour: int, minute: int)
    requires 0 <= hour < 24 && 0 <= minute < 60
    requires NoneBelow(spec, zone, after, At(n, hour, minute))
    requires Instant(zone, At(n, hour, minute)).Some? ==> Instant(zone, At(n, hour, minute)).value <= after
    ensures NoneBelow(spec, zone, after, At(n, hour, minute + 1))
  {
    var w := At(n, hour, minute);
    PartsOfAt(n, hour, minute);
    forall t | IsSlot(spec, zone, t) && t > after
      ensures Wall(zone, t) >= At(n, hour, minute + 1)
    {
      WholeMinutesApart(Wall(zone, t), w);
    }
  }

  /** What the search finds is a slot, and the first one after `after`. */
  lemma FoundIsFirst(spec: CronSpec, zone: Zone, after: int, n: int, hour: int, minute: int)
    requires ValidZone(zone) && 1 <= n && 0 <= hour < 24 && 0 <= minute < 60
    requires DayMatches(spec, n) && hour in spec.hours && minute in spec.minutes
    requires NoneBelow(spec, zone, after, At(n, hour, minute))
    requires Instant(zone, At(n, hour, minute)).Some?
    ensures IsSlot(spec, zone, Instant(zone, At(n, hour, minute)).value)
    ensures forall u :: IsSlot(spec, zone, u) && u > after ==> Instant(zone, At(n, hour, minute)).value <= u
  {
    PartsOfAt(n, hour, minute);
    FirstIsLeast(spec, zone, after, Instant(zone, At(n, hour, minute)).value);
  }

  lemma FirstIsLeast(spec: CronSpec, zone: Zone, after: int, t: int)
    requires ValidZone(zone) && IsSlot(spec, zone, t)
    requires NoneBelow(spec, zone, after, Wall(zone, t))
    ensures forall u :: IsSlot(spec, zone, u) && u > after ==> t <= u
  {
  }

  /** Where the search that starts after `after` stops looking. */
  function SearchEnd(zone: Zone, after: int): int {
    At(DayAt(NextMinute(zone, after)) + SEARCH_DAYS, 0, 0)
  }

  /** No slot after `after` comes before the end of the search. */
  ghost predicate Barren(spec: CronSpec, zone: Zone, after: int) {
    NoneBelow(spec, zone, after, SearchEnd(zone, after))
  }

  lemma NothingFound(spec: CronSpec, zone: Zone, after: int)
    requires NoneBelow(spec, zone, after, At(DayAt(NextMinute(zone, after)) + SEARCH_DAYS, 0, 0))
    ensures Barren(spec, zone, after)
  {
  }

  ghost function Slots(spec: CronSpec, zone: Zone, start: int, end: int): set<int> {
    set t | start < t <= end && IsSlot(spec, zone, t)
  }

  lemma OneMore(a: set<int>, x: int)
    requires x !in a
    ensures |a + {x}| == |a| + 1
  {
  }

  lemma CountOneMore(spec: CronSpec, zone: Zone, start: int, cursor: int, found: int)
    requires start <= cursor < found && IsSlot(spec, zone, found)
    requires forall t :: IsSlot(spec, zone, t) && t > cursor ==> found <= t
    ensures |Slots(spec, zone, start, found)| == |Slots(spec, zone, start, cursor)| + 1
  {
    hide IsSlot;
    OneMore(Slots(spec, zone, start, cursor), found);
    assert Slots(spec, zone, start, found) == Slots(spec, zone, start, cursor) + {found};
  }

  lemma {:induction false} SubsetIsSmaller(a: set<int>, b: set<int>)
    requires a <= b
    ensures |a| <= |b|
  {
    if a != {} {
      var x := Pick(a);
      SubsetIsSmaller(a - {x}, b - {x});
    }
  }

  lemma CountGrows(spec: CronSpec, zone: Zone, start: int, cursor: int, end: int)
    requires cursor <= end || cursor <= start
    ensures |Slots(spec, zone, start, cursor)| <= |Slots(spec, zone, start, end)|
  {
    hide IsSlot;
    SubsetIsSmaller(Slots(spec, zone, start, cursor), Slots(spec, zone, start, end));
  }

  lemma CountEnds(spec: CronSpec, zone: Zone, start: int, cursor: int, end: int)
    requires start <= cursor && (cursor <= end || cursor == start)
    requires forall t :: IsSlot(spec, zone, t) && t > cursor ==> end < t
    ensures |Slots(spec, zone, start, cursor)| == |Slots(spec, zone, start, end)|
  {
    hide IsSlot;
    assert Slots(spec, zone, start, cursor) == Slots(spec, zone, start, end);
  }

  lemma NoSlots(spec: CronSpec, zone: Zone, start: int)
    ensures Slots(spec, zone, start, start) == {}
  {
  }

  lemma SlotIsLater(spec: CronSpec, zone: Zone, start: int, end: int, t: int)
    requires IsSlot(spec, zone, t) && start < t <= end
    ensures t in Slots(spec, zone, start, end) && Wall(zone, t) >= 0
  {
  }

  function Min(a: nat, b: nat): nat {
    if a <= b then a else b
  }

  /** The elements of `values` below `n`, in order. */
  function Sorted(values: set<int>, n: nat): (sorted: seq<int>)
    ensures forall i :: 0 <= i < |sorted| ==> sorted[i] in values && 0 <= sorted[i] < n
    ensures forall v :: v in values && 0 <= v < n ==> v in sorted
    ensures forall i, j :: 0 <= i < j < |sorted| ==> sorted[i] < sorted[j]
  {
    if n == 0 then [] else Sorted(values, n - 1) + if n - 1 in values then [n - 1] else []
  }

  /** How far the first `i` elements of a sorted field reach. */
  function Past(sorted: seq<int>, i: nat): int
    requires i <= |sorted|
  {
    if i == 0 then 0 else sorted[i - 1] + 1
  }

  /** Where its next element is, or the end of the field. */
  function Upcoming(sorted: seq<int>, i: nat, end: int): int {
    if i < |sorted| then sorted[i] else end
  }

  lemma BetweenSorted(values: set<int>, n: nat, i: nat, v: int)
    requires i <= |Sorted(values, n)|
    requires Past(Sorted(values, n), i) <= v < Upcoming(Sorted(values, n), i, n)
    ensures v !in values
  {
    var sorted := Sorted(values, n);
    assert v !in sorted;
    assert 0 <= v < n;
  }
}
