/** What a slot is, in terms of dates, weekdays and clock times alone. */
module CronLaws {
  import opened Calendar
  import opened CronModel

  /** The schedule without its weekday field, and without its day field. */
  function DatesOnly(spec: CronSpec): CronSpec {
    spec.(weekdays := {0, 1, 2, 3, 4, 5, 6}, weekdaysAny := true)
  }

  function WeekdaysOnly(spec: CronSpec): CronSpec {
    spec.(days := {1, 2, 3, 4, 5, 6, 7, 8, 9, 10, 11, 12, 13, 14, 15, 16, 17, 18, 19, 20,
                   21, 22, 23, 24, 25, 26, 27, 28, 29, 30, 31},
          daysAny := true)
  }

  lemma AllDaysMatch(n: nat)
    requires n >= 1
    ensures 1 <= DateOf(n).d <= 31 && Weekday(n) in {0, 1, 2, 3, 4, 5, 6}
  {
  }

  /** With both day fields restricted, a schedule runs exactly when one of its two halves does. */
  lemma EitherDayField(spec: CronSpec, zone: Zone, t: int)
    requires !spec.daysAny && !spec.weekdaysAny
    ensures IsSlot(spec, zone, t) <==> IsSlot(DatesOnly(spec), zone, t) || IsSlot(WeekdaysOnly(spec), zone, t)
  {
    hide DateOf, Weekday, DayAt, HourAt, MinuteAt, WholeMinute;
    DayAtLeastOne(Wall(zone, t));
    if Wall(zone, t) >= 0 {
      AllDaysMatch(DayAt(Wall(zone, t)));
    }
  }

  /** With a starred day field it runs exactly when both do. */
  lemma BothDayFields(spec: CronSpec, zone: Zone, t: int)
    requires spec.daysAny || spec.weekdaysAny
    ensures IsSlot(spec, zone, t) <==> IsSlot(DatesOnly(spec), zone, t) && IsSlot(WeekdaysOnly(spec), zone, t)
  {
    hide DateOf, Weekday, DayAt, HourAt, MinuteAt, WholeMinute;
    DayAtLeastOne(Wall(zone, t));
    if Wall(zone, t) >= 0 {
      AllDaysMatch(DayAt(Wall(zone, t)));
    }
  }

  lemma DayAtLeastOne(w: int)
    ensures w >= 0 ==> DayAt(w) >= 1
  {
  }

  /** No earlier instant shows the same time on the clock. */
  ghost predicate Earliest(zone: Zone, t: int) {
    forall u :: Wall(zone, u) == Wall(zone, t) ==> t <= u
  }

  lemma FirstIsEarliest(zone: Zone, t: int)
    requires ValidZone(zone)
    ensures First(zone, Wall(zone, t)) == t <==> Earliest(zone, t)
  {
    assert Wall(zone, First(zone, Wall(zone, t))) == Wall(zone, t);
    assert forall u :: First(zone, Wall(zone, u)) <= u;
  }

  /** The date half: on any date of the calendar, at any time of the clock, it runs exactly when the
      month, the day of the month, the hour and the minute are all listed, and the clock shows that
      time for the first time. */
  lemma DatesOnlyRuns(spec: CronSpec, zone: Zone, t: int, date: Date, hour: int, minute: int)
    requires ValidZone(zone) && Calendar.Valid(date) && Ordinal(date) >= 1 && 0 <= hour < 24 && 0 <= minute < 60
    requires Wall(zone, t) == At(Ordinal(date), hour, minute)
    ensures IsSlot(DatesOnly(spec), zone, t)
            <==> Earliest(zone, t)
                 && date.m in spec.months && date.d in spec.days && hour in spec.hours && minute in spec.minutes
  {
    hide Ordinal, DateOf, Weekday, DayAt, HourAt, MinuteAt, WholeMinute, ValidZone, Wall, First, Earliest, At;
    DateOfOrdinal(date);
    AtIsLater(Ordinal(date), hour, minute);
    PartsOfAt(Ordinal(date), hour, minute);
    AllDaysMatch(Ordinal(date));
    FirstIsEarliest(zone, t);
  }

  lemma AtIsLater(n: int, hour: int, minute: int)
    requires n >= 1 && 0 <= hour && 0 <= minute
    ensures At(n, hour, minute) >= 0
  {
  }

  /** The weekday half: on the `n`th day from Monday, 1 January of year 1, it runs exactly when the
      month, the weekday (Sunday is 0), the hour and the minute are all listed, and the clock shows
      that time for the first time. */
  lemma WeekdaysOnlyRuns(spec: CronSpec, zone: Zone, t: int, n: nat, hour: int, minute: int)
    requires ValidZone(zone) && n >= 1 && 0 <= hour < 24 && 0 <= minute < 60
    requires Wall(zone, t) == At(n, hour, minute)
    ensures IsSlot(WeekdaysOnly(spec), zone, t)
            <==> Earliest(zone, t)
                 && DateOf(n).m in spec.months && n % 7 in spec.weekdays && hour in spec.hours && minute in spec.minutes
  {
    hide DateOf, DayAt, HourAt, MinuteAt, WholeMinute, ValidZone, Wall, First, Earliest, At;
    AtIsLater(n, hour, minute);
    PartsOfAt(n, hour, minute);
    AllDaysMatch(n);
    FirstIsEarliest(zone, t);
  }

  /** Every slot is at a whole minute of some day, so the two lemmas above say what all slots are. */
  lemma SlotsAreWhole(spec: CronSpec, zone: Zone, t: int)
    requires IsSlot(spec, zone, t)
    ensures var w := Wall(zone, t);
            && DayAt(w) >= 1 && 0 <= HourAt(w) < 24 && 0 <= MinuteAt(w) < 60
            && w == At(DayAt(w), HourAt(w), MinuteAt(w))
  {
    hide DateOf, DayMatches, First;
    AtOfParts(Wall(zone, t));
    DayAtLeastOne(Wall(zone, t));
  }

  /** The days of the calendar: January, March, May, July, August, October and December end on the
      31st, April, June, September and November on the 30th, and February on the 28th, or on the
      29th in a year that 4 divides, unless 100 divides it and 400 does not. */
  lemma MonthsEnd(n: nat)
    requires n >= 1
    ensures DateOf(1) == Date(1, 1, 1)
    ensures var a := DateOf(n);
            var ends := (a.m in {1, 3, 5, 7, 8, 10, 12} && a.d == 31) || (a.m in {4, 6, 9, 11} && a.d == 30)
                        || (a.m == 2 && a.d == if a.y % 4 == 0 && (a.y % 100 != 0 || a.y % 400 == 0) then 29 else 28);
            DateOf(n + 1)
            == (if !ends then Date(a.y, a.m, a.d + 1)
                else if a.m < 12 then Date(a.y, a.m + 1, 1)
                else Date(a.y + 1, 1, 1))
  {
  }

  /** `t` is the schedule's first run after `after`. */
  ghost predicate FirstRun(spec: CronSpec, zone: Zone, after: int, t: int) {
    IsSlot(spec, zone, t) && t > after && forall u :: IsSlot(spec, zone, u) && u > after ==> t <= u
  }

  /** So with both day fields restricted, the next run is the earlier of the next listed date and the
      next listed weekday. */
  lemma NextOfEither(spec: CronSpec, zone: Zone, after: int, a: int, b: int)
    requires !spec.daysAny && !spec.weekdaysAny
    requires FirstRun(DatesOnly(spec), zone, after, a) && FirstRun(WeekdaysOnly(spec), zone, after, b)
    ensures FirstRun(spec, zone, after, if a <= b then a else b)
  {
    hide IsSlot;
    forall u
      ensures IsSlot(spec, zone, u) <==> IsSlot(DatesOnly(spec), zone, u) || IsSlot(WeekdaysOnly(spec), zone, u)
    {
      EitherDayField(spec, zone, u);
    }
  }
}
