/** One routine: its row, the jobs its slots got, and the sweeps that are under way. */
module RoutinesModel {
  import opened Calendar
  import opened CronModel
  import opened CronBound
  import opened Options

  datatype Schedule = Schedule(spec: CronSpec, zone: Zone)

  datatype Status = Active | Paused(budget: bool) | Cancelled

  datatype Row = Row(status: Status, schedule: Schedule, next: Option<int>, last: Option<int>, resumed: Option<int>)

  /** What a sweep has done with its slot: read it, found no job for it on a bot that runs, or
      finished with it, having queued its job or not. */
  datatype Phase = Found | Free | Handled(queued: bool)

  /** A sweep works from the row as it read it. */
  datatype Sweep = Sweep(slot: int, now: int, schedule: Schedule, following: int, phase: Phase)

  datatype World = World(row: Row, jobs: seq<int>, sweeps: map<nat, Sweep>, clock: int)

  /** `t` is the schedule's first run after `after`. */
  ghost predicate Follows(schedule: Schedule, after: int, t: int) {
    && IsSlot(schedule.spec, schedule.zone, t) && t > after
    && forall u :: IsSlot(schedule.spec, schedule.zone, u) && u > after ==> t <= u
  }

  /** `day` is the start of the day whose budget is over: a routine that its owner resumed on that day
      stays running. */
  datatype Step =
    | Tick(clock: int)
    | Begin(k: nat, now: int, following: int)
    | Look(k: nat, botPaused: bool)
    | Queue(k: nat)
    | Move(k: nat)
    | Drop(k: nat)
    | Crash
    | Pause
    | Resume(next: int)
    | Cancel
    | Reschedule(schedule: Schedule, next: int)
    | OverBudget(day: int)
    | WithinBudget(now: int, next: int)

  // The transactions on the row.

  function Stopped(row: Row, budget: bool): Row {
    row.(status := Paused(budget), next := None)
  }

  function Resumed(row: Row, now: int, next: int): Row {
    row.(status := Active, next := Some(next),
         resumed := if row.status == Paused(true) then Some(now) else row.resumed)
  }

  function Ended(row: Row): Row {
    row.(status := Cancelled, next := None)
  }

  function Rescheduled(row: Row, schedule: Schedule, next: int): Row {
    if row.status.Active? then row.(schedule := schedule, next := Some(next)) else row.(schedule := schedule)
  }

  /** The cursor moves only if it is still at the slot the sweep read. */
  function Moved(row: Row, sweep: Sweep): Row
    requires sweep.phase.Handled?
  {
    if row.next == Some(sweep.slot)
    then row.(next := Some(sweep.following), last := if sweep.phase.queued then Some(sweep.now) else row.last)
    else row
  }

  ghost predicate Enabled(w: World, step: Step) {
    match step
    case Tick(clock) => clock >= w.clock
    case Begin(k, now, following) =>
      && k !in w.sweeps && now <= w.clock && w.row.status.Active?
      && w.row.next.Some? && w.row.next.value <= now && Follows(w.row.schedule, now, following)
    case Look(k, _) => k in w.sweeps && w.sweeps[k].phase.Found?
    case Queue(k) => k in w.sweeps && w.sweeps[k].phase.Free?
    case Move(k) => k in w.sweeps && w.sweeps[k].phase.Handled?
    case Drop(k) => k in w.sweeps
    case Crash => true
    case Pause => !w.row.status.Cancelled?
    case Resume(next) => !w.row.status.Cancelled? && Follows(w.row.schedule, w.clock, next)
    case Cancel => !w.row.status.Cancelled?
    case Reschedule(schedule, next) =>
      !w.row.status.Cancelled? && (w.row.status.Active? ==> Follows(schedule, w.clock, next))
    case OverBudget(day) =>
      && day <= w.clock && w.row.status.Active?
      && (w.row.resumed.Some? ==> w.row.resumed.value < day)
    case WithinBudget(now, next) => w.row.status == Paused(true) && now <= w.clock && Follows(w.row.schedule, now, next)
  }

  ghost function Do(w: World, step: Step): World
    requires Enabled(w, step)
  {
    match step
    case Tick(clock) => w.(clock := clock)
    case Begin(k, now, following) =>
      w.(sweeps := w.sweeps[k := Sweep(w.row.next.value, now, w.row.schedule, following, Found)])
    case Look(k, botPaused) =>
      var sweep := w.sweeps[k];
      w.(sweeps := w.sweeps[k := sweep.(phase := if botPaused || sweep.slot in w.jobs then Handled(false) else Free)])
    case Queue(k) =>
      var sweep := w.sweeps[k];
      if sweep.slot in w.jobs then w.(sweeps := w.sweeps[k := sweep.(phase := Handled(false))])
      else w.(sweeps := w.sweeps[k := sweep.(phase := Handled(true))], jobs := w.jobs + [sweep.slot])
    case Move(k) => w.(row := Moved(w.row, w.sweeps[k]), sweeps := w.sweeps - {k})
    case Drop(k) => w.(sweeps := w.sweeps - {k})
    case Crash => w.(sweeps := map[])
    case Pause => w.(row := Stopped(w.row, false))
    case Resume(next) => w.(row := Resumed(w.row, w.clock, next))
    case Cancel => w.(row := Ended(w.row))
    case Reschedule(schedule, next) => w.(row := Rescheduled(w.row, schedule, next))
    case OverBudget(_) => w.(row := Stopped(w.row, true))
    case WithinBudget(_, next) => w.(row := w.row.(status := Active, next := Some(next)))
  }

  /** A sweep settles the budgets before it reads any slot, and sweeps do not overtake: the time
      it works with is not before a slot another sweep is still busy with. */
  ghost predicate Timely(w: World, step: Step) {
    step.WithinBudget? ==> forall k :: k in w.sweeps ==> w.sweeps[k].slot <= step.now
  }

  // The invariant.

  ghost predicate SweepFits(w: World, sweep: Sweep) {
    && sweep.slot <= sweep.now <= w.clock
    && Follows(sweep.schedule, sweep.now, sweep.following)
    && (w.row.next.Some? ==> sweep.slot <= w.row.next.value)
    && (w.row.next == Some(sweep.slot) ==> w.row.schedule == sweep.schedule)
  }

  ghost predicate NoTwice(jobs: seq<int>) {
    forall i, j :: 0 <= i < j < |jobs| ==> jobs[i] != jobs[j]
  }

  ghost predicate Inv(w: World) {
    && NoTwice(w.jobs)
    && (forall slot :: slot in w.jobs ==> slot <= w.clock)
    && (w.row.next.Some? ==> w.row.status.Active? && IsSlot(w.row.schedule.spec, w.row.schedule.zone, w.row.next.value))
    && (forall k :: k in w.sweeps ==> SweepFits(w, w.sweeps[k]))
  }

  /** A new cursor after the clock is at no slot that a sweep is busy with. */
  lemma NewCursorFits(w: World, row: Row)
    requires Inv(w)
    requires row.next.Some? ==> forall k :: k in w.sweeps ==> w.sweeps[k].slot < row.next.value
    ensures forall k :: k in w.sweeps ==> SweepFits(w.(row := row), w.sweeps[k])
  {
    hide Follows, IsSlot;
    forall k | k in w.sweeps
      ensures SweepFits(w.(row := row), w.sweeps[k])
    {
      assert SweepFits(w, w.sweeps[k]);
    }
  }

  lemma AppendNoTwice(jobs: seq<int>, slot: int)
    requires NoTwice(jobs) && slot !in jobs
    ensures NoTwice(jobs + [slot])
  {
  }

  lemma InvRowStep(w: World, step: Step)
    requires Inv(w) && Enabled(w, step) && Timely(w, step)
    requires step.Pause? || step.Resume? || step.Cancel? || step.Reschedule? || step.OverBudget? || step.WithinBudget?
    ensures Inv(Do(w, step))
  {
    hide IsSlot, NoTwice;
    if step.Reschedule? && !w.row.status.Active? {
      NewCursorFits(w, Do(w, step).row);
    } else {
      assert forall k :: k in w.sweeps ==> SweepFits(w, w.sweeps[k]);
      NewCursorFits(w, Do(w, step).row);
    }
  }

  lemma InvMove(w: World, step: Step)
    requires Inv(w) && Enabled(w, step) && step.Move?
    ensures Inv(Do(w, step))
  {
    hide IsSlot, NoTwice;
    var sweep := w.sweeps[step.k];
    assert SweepFits(w, sweep);
    if w.row.next == Some(sweep.slot) {
      forall k | k in w.sweeps && k != step.k
        ensures SweepFits(Do(w, step), w.sweeps[k])
      {
        assert SweepFits(w, w.sweeps[k]);
      }
    } else {
      assert Do(w, step) == w.(sweeps := w.sweeps - {step.k});
      assert forall k :: k in w.sweeps ==> SweepFits(w, w.sweeps[k]);
    }
  }

  lemma InvSweepStep(w: World, step: Step)
    requires Inv(w) && Enabled(w, step)
    requires step.Tick? || step.Begin? || step.Look? || step.Queue? || step.Drop? || step.Crash?
    ensures Inv(Do(w, step))
  {
    hide IsSlot, NoTwice;
    var r := Do(w, step);
    if step.Queue? && w.sweeps[step.k].slot !in w.jobs {
      AppendNoTwice(w.jobs, w.sweeps[step.k].slot);
    }
    forall k | k in r.sweeps
      ensures SweepFits(r, r.sweeps[k])
    {
      assert k in w.sweeps ==> SweepFits(w, w.sweeps[k]);
    }
    assert step.Queue? ==> SweepFits(w, w.sweeps[step.k]);
  }

  lemma InvStep(w: World, step: Step)
    requires Inv(w) && Enabled(w, step) && Timely(w, step)
    ensures Inv(Do(w, step))
  {
    hide Inv, Enabled, Timely, Do;
    if step.Move? {
      InvMove(w, step);
    } else if step.Tick? || step.Begin? || step.Look? || step.Queue? || step.Drop? || step.Crash? {
      InvSweepStep(w, step);
    } else {
      InvRowStep(w, step);
    }
  }

  // Whole runs.

  ghost predicate Runs(w: World, steps: seq<Step>)
    decreases |steps|
  {
    steps == [] || (Enabled(w, steps[0]) && Runs(Do(w, steps[0]), steps[1..]))
  }

  ghost function Run(w: World, steps: seq<Step>): World
    requires Runs(w, steps)
    decreases |steps|
  {
    if steps == [] then w else Run(Do(w, steps[0]), steps[1..])
  }

  /** A run whose sweeps do not overtake each other. */
  ghost predicate Punctual(w: World, steps: seq<Step>)
    requires Runs(w, steps)
    decreases |steps|
  {
    steps == [] || (Timely(w, steps[0]) && Punctual(Do(w, steps[0]), steps[1..]))
  }

  lemma {:induction false} RunInv(w: World, steps: seq<Step>)
    requires Inv(w) && Runs(w, steps) && Punctual(w, steps)
    ensures Inv(Run(w, steps))
    decreases |steps|
  {
    hide Inv, Enabled, Timely, Do;
    if steps != [] {
      InvStep(w, steps[0]);
      RunInv(Do(w, steps[0]), steps[1..]);
    }
  }

  // What every run keeps, whatever overtakes what.

  ghost predicate SweepSane(w: World, sweep: Sweep) {
    sweep.slot <= sweep.now <= w.clock && Follows(sweep.schedule, sweep.now, sweep.following)
  }

  ghost predicate Sane(w: World) {
    && NoTwice(w.jobs)
    && (forall slot :: slot in w.jobs ==> slot <= w.clock)
    && (w.row.next.Some? ==> w.row.status.Active?)
    && (forall k :: k in w.sweeps ==> SweepSane(w, w.sweeps[k]))
  }

  lemma SaneStep(w: World, step: Step)
    requires Sane(w) && Enabled(w, step)
    ensures Sane(Do(w, step))
  {
    hide IsSlot, NoTwice, Follows;
    if step.Queue? && w.sweeps[step.k].slot !in w.jobs {
      AppendNoTwice(w.jobs, w.sweeps[step.k].slot);
      assert SweepSane(w, w.sweeps[step.k]);
    }
    var r := Do(w, step);
    forall k | k in r.sweeps
      ensures SweepSane(r, r.sweeps[k])
    {
      assert k in w.sweeps ==> SweepSane(w, w.sweeps[k]);
    }
  }

  lemma {:induction false} RunSane(w: World, steps: seq<Step>)
    requires Sane(w) && Runs(w, steps)
    ensures Sane(Run(w, steps))
    decreases |steps|
  {
    hide Sane, Enabled, Do;
    if steps != [] {
      SaneStep(w, steps[0]);
      RunSane(Do(w, steps[0]), steps[1..]);
    }
  }

  /** A routine just created: at its first run after now, with no job and no sweep. */
  ghost predicate Created(w: World) {
    && w.row.status.Active? && w.row.next.Some? && Follows(w.row.schedule, w.clock, w.row.next.value)
    && w.jobs == [] && w.sweeps == map[]
  }

  lemma CreatedInv(w: World)
    requires Created(w)
    ensures Inv(w) && Sane(w)
  {
  }

  /** However sweeps crash, compete, overtake each other and cross with pauses, resumes, updates,
      cancels and budgets, a slot gets at most one job, and none before it is due. */
  lemma OneJobPerSlot(w: World, steps: seq<Step>)
    requires Created(w) && Runs(w, steps)
    ensures NoTwice(Run(w, steps).jobs)
    ensures forall slot :: slot in Run(w, steps).jobs ==> slot <= Run(w, steps).clock
  {
    CreatedInv(w);
    RunSane(w, steps);
  }

  /** Two schedules that have the same first run after `now`. */
  ghost predicate SameNext(a: Schedule, b: Schedule, now: int) {
    forall t :: Follows(a, now, t) <==> Follows(b, now, t)
  }

  /** A sweep leaves the row alone, or takes the cursor from the slot it read to the first run after
      its own time. That is the first run of the stored schedule if and only if the schedule the
      sweep read has the same one. */
  lemma CursorMoves(w: World, steps: seq<Step>, step: Step)
    requires Created(w) && Runs(w, steps) && step.Move? && Enabled(Run(w, steps), step)
    ensures var before, sweep := Run(w, steps).row, Run(w, steps).sweeps[step.k];
            var after := Do(Run(w, steps), step).row;
            if before.next == Some(sweep.slot)
            then after.next.Some? && Follows(sweep.schedule, sweep.now, after.next.value) && sweep.slot <= sweep.now &&
                 after == before.(next := after.next, last := after.last) &&
                 (Follows(before.schedule, sweep.now, after.next.value)
                  <==> SameNext(before.schedule, sweep.schedule, sweep.now))
            else after == before
  {
    hide Follows, SameNext;
    CreatedInv(w);
    RunSane(w, steps);
    var r := Run(w, steps);
    var sweep := r.sweeps[step.k];
    assert SweepSane(r, sweep);
    SameNextIff(r.row.schedule, sweep.schedule, sweep.now, sweep.following);
    hide Sane;
  }

  lemma SameNextIff(a: Schedule, b: Schedule, now: int, following: int)
    requires Follows(b, now, following)
    ensures Follows(a, now, following) <==> SameNext(a, b, now)
  {
    hide IsSlot;
    if Follows(a, now, following) {
      forall t
        ensures Follows(a, now, t) <==> Follows(b, now, t)
      {
        assert Follows(a, now, t) ==> t == following;
        assert Follows(b, now, t) ==> t == following;
      }
    }
  }

  /** When sweeps do not overtake each other, it is always the first run of the stored schedule. */
  lemma PunctualCursorMoves(w: World, steps: seq<Step>, step: Step)
    requires Created(w) && Runs(w, steps) && Punctual(w, steps) && step.Move? && Enabled(Run(w, steps), step)
    requires Run(w, steps).row.next == Some(Run(w, steps).sweeps[step.k].slot)
    ensures var r := Run(w, steps);
            var next := Do(r, step).row.next;
            next.Some? && Follows(r.row.schedule, r.sweeps[step.k].now, next.value)
  {
    hide Follows, IsSlot;
    CreatedInv(w);
    RunInv(w, steps);
    assert SweepFits(Run(w, steps), Run(w, steps).sweeps[step.k]);
  }

  /** A routine that is paused or cancelled is not started again by a sweep that read it before. */
  lemma SweepRestartsNothing(w: World, steps: seq<Step>, step: Step)
    requires Created(w) && Runs(w, steps) && step.Move? && Enabled(Run(w, steps), step)
    requires !Run(w, steps).row.status.Active?
    ensures Do(Run(w, steps), step).row == Run(w, steps).row
  {
    hide Follows, IsSlot;
    CreatedInv(w);
    RunSane(w, steps);
  }

  // A sweep that nothing interrupts.

  ghost function Alone(w: World, k: nat, now: int, following: int, botPaused: bool): World
    requires w.sweeps == map[] && Enabled(w, Begin(k, now, following))
  {
    var begun := Do(w, Begin(k, now, following));
    var looked := Do(begun, Look(k, botPaused));
    Do(if looked.sweeps[k].phase.Free? then Do(looked, Queue(k)) else looked, Move(k))
  }

  /** One sweep queues the one slot the cursor stands at, unless it has its job or the bot is
      paused, and moves the cursor past every slot up to now. */
  lemma AloneIs(w: World, k: nat, now: int, following: int, botPaused: bool)
    requires w.sweeps == map[] && Enabled(w, Begin(k, now, following))
    ensures var queues := !botPaused && w.row.next.value !in w.jobs;
            Alone(w, k, now, following, botPaused)
            == w.(row := w.row.(next := Some(following), last := if queues then Some(now) else w.row.last),
                  jobs := if queues then w.jobs + [w.row.next.value] else w.jobs)
  {
    hide IsSlot, Follows;
    var sweep := Sweep(w.row.next.value, now, w.row.schedule, following, Found);
    assert map[k := sweep] - {k} == map[];
  }

  /** Until the next slot is due, further sweeps find nothing to do. */
  lemma NothingDueUntilFollowing(w: World, k: nat, now: int, following: int, botPaused: bool,
                                 k': nat, now': int, following': int)
    requires Inv(w) && w.sweeps == map[] && Enabled(w, Begin(k, now, following)) && now' < following
    ensures !Enabled(Alone(w, k, now, following, botPaused), Begin(k', now', following'))
  {
    hide IsSlot, Alone;
    AloneIs(w, k, now, following, botPaused);
  }

  /** A sweep that crashed after it queued its job, before it moved the cursor, is finished by the
      next one: no second job, and the cursor moves. */
  lemma CrashAfterQueue(w: World, k: nat, now: int, following: int, k': nat, now': int, following': int,
                        botPaused: bool)
    requires Inv(w) && w.sweeps == map[] && Enabled(w, Begin(k, now, following)) && w.row.next.value !in w.jobs
    requires now' <= w.clock && w.row.next.value <= now' && Follows(w.row.schedule, now', following')
    ensures var looked := Do(Do(w, Begin(k, now, following)), Look(k, false));
            && Enabled(looked, Queue(k))
            && Enabled(Do(Do(looked, Queue(k)), Crash), Begin(k', now', following'))
            && Alone(Do(Do(looked, Queue(k)), Crash), k', now', following', botPaused).jobs
               == w.jobs + [w.row.next.value]
            && Alone(Do(Do(looked, Queue(k)), Crash), k', now', following', botPaused).row.next == Some(following')
  {
    hide IsSlot, Follows;
    var crashed := Do(Do(Do(Do(w, Begin(k, now, following)), Look(k, false)), Queue(k)), Crash);
    assert crashed == w.(jobs := w.jobs + [w.row.next.value]);
  }

  // After an outage.

  /** Every sweep of `steps` begins, and settles the budgets, at `since` or later. */
  ghost predicate Since(steps: seq<Step>, since: int) {
    forall step :: step in steps ==> (step.Begin? || step.WithinBudget? ==> step.now >= since)
  }

  /** Up to `since`, the cursor and every sweep are at `slot` or nowhere, and `slot` alone was
      added to the jobs. */
  ghost predicate OnlyAt(w: World, jobs: seq<int>, slot: Option<int>, since: int) {
    && since <= w.clock
    && (w.row.next.Some? && w.row.next.value <= since ==> w.row.next == slot)
    && (forall k :: k in w.sweeps ==>
          since < w.sweeps[k].following && (w.sweeps[k].slot <= since ==> Some(w.sweeps[k].slot) == slot))
    && jobs <= w.jobs
    && (forall i :: |jobs| <= i < |w.jobs| && w.jobs[i] <= since ==> Some(w.jobs[i]) == slot)
  }

  lemma OnlyAtStep(w: World, step: Step, jobs: seq<int>, slot: Option<int>, since: int)
    requires OnlyAt(w, jobs, slot, since) && Enabled(w, step)
    requires step.Begin? || step.WithinBudget? ==> step.now >= since
    ensures OnlyAt(Do(w, step), jobs, slot, since)
  {
    hide IsSlot;
  }

  lemma {:induction false} OnlyAtRun(w: World, steps: seq<Step>, jobs: seq<int>, slot: Option<int>, since: int)
    requires OnlyAt(w, jobs, slot, since) && Runs(w, steps) && Since(steps, since)
    ensures OnlyAt(Run(w, steps), jobs, slot, since)
    decreases |steps|
  {
    hide OnlyAt, Enabled, Do;
    if steps != [] {
      assert steps[0] in steps;
      OnlyAtStep(w, steps[0], jobs, slot, since);
      OnlyAtRun(Do(w, steps[0]), steps[1..], jobs, slot, since);
    }
  }

  /** After any outage, when the sweeps that begin from then on crash, compete, and cross with
      pauses, resumes, updates, cancels and budgets in whatever way: of all the slots up to the end
      of the outage, the one the cursor stood at may still get its job, once, and no other. */
  lemma CatchUpIsOneRun(w: World, steps: seq<Step>)
    requires Sane(w) && w.sweeps == map[] && Runs(w, steps) && Since(steps, w.clock)
    ensures var r := Run(w, steps);
            && w.jobs <= r.jobs && NoTwice(r.jobs)
            && forall i :: |w.jobs| <= i < |r.jobs| && r.jobs[i] <= w.clock ==> Some(r.jobs[i]) == w.row.next
  {
    hide Runs, Run, NoTwice, Since, IsSlot;
    OnlyAtRun(w, steps, w.jobs, w.row.next, w.clock);
    RunSane(w, steps);
  }

  // Sweeps that overtake each other.

  /** A budget stage restarts the routine while a sweep is about to move the cursor. The cursor ends
      on a first run of the stored schedule, after the one time or the other, if and only if the
      stage did not put it back on the sweep's slot, or the sweep read a schedule with the same
      next run. */
  lemma LaggingBudgetIff(w: World, now: int, next: int, k: nat)
    requires Sane(w) && Enabled(w, WithinBudget(now, next)) && k in w.sweeps && w.sweeps[k].phase.Handled?
    ensures var sweep, plan := w.sweeps[k], w.row.schedule;
            var r := Do(Do(w, WithinBudget(now, next)), Move(k)).row;
            && r.schedule == plan && r.next.Some?
            && (Follows(plan, now, r.next.value) || Follows(plan, sweep.now, r.next.value)
                <==> sweep.slot != next || SameNext(plan, sweep.schedule, sweep.now))
  {
    hide Follows, SameNext, NoTwice;
    var sweep, plan := w.sweeps[k], w.row.schedule;
    assert SweepSane(w, sweep);
    SameNextIff(plan, sweep.schedule, sweep.now, sweep.following);
    FollowsLater(sweep.schedule, sweep.now, sweep.following);
    if Follows(plan, now, sweep.following) {
      FollowsOnce(plan, now, next, sweep.following);
    }
  }

  lemma FollowsLater(schedule: Schedule, after: int, t: int)
    requires Follows(schedule, after, t)
    ensures t > after
  {
    hide IsSlot;
  }

  lemma FollowsOnce(schedule: Schedule, after: int, t: int, u: int)
    requires Follows(schedule, after, t) && Follows(schedule, after, u)
    ensures t == u
  {
    hide IsSlot;
  }

  const ALL_DAYS := CronSpec({0}, {0},
                             {1, 2, 3, 4, 5, 6, 7, 8, 9, 10, 11, 12, 13, 14, 15, 16, 17, 18, 19, 20, 21, 22, 23, 24,
                              25, 26, 27, 28, 29, 30, 31},
                             {1, 2, 3, 4, 5, 6, 7, 8, 9, 10, 11, 12}, {0, 1, 2, 3, 4, 5, 6}, true, true)

  /** `0 0 * * *` and `0,1 0 * * *` in UTC. */
  function Midnight(): Schedule {
    Schedule(ALL_DAYS, Utc())
  }

  function MidnightTwice(): Schedule {
    Schedule(ALL_DAYS.(minutes := {0, 1}), Utc())
  }

  lemma DailySlots(spec: CronSpec, t: int)
    requires spec == ALL_DAYS.(minutes := spec.minutes) && t >= 0
    ensures IsSlot(spec, Utc(), t) <==> WholeMinute(t) && HourAt(t) == 0 && MinuteAt(t) in spec.minutes
  {
    hide DayMatches, WholeMinute, HourAt, MinuteAt, DayAt;
    PartsInRange(t);
    UtcTimes(t);
    EveryDayMatches(spec, DayAt(t));
  }

  lemma EveryDayMatches(spec: CronSpec, n: nat)
    requires spec == ALL_DAYS.(minutes := spec.minutes) && n >= 1
    ensures DayMatches(spec, n)
  {
    hide DateOf;
    var date := DateOf(n);
    assert 1 <= date.m <= 12 && 1 <= date.d <= 31;
    assert 0 <= Weekday(n) < 7;
  }

  lemma NoSlotBefore(spec: CronSpec, t: int)
    requires spec == ALL_DAYS.(minutes := spec.minutes) && spec.minutes <= {0, 1} && DAY - MINUTE < t
    requires IsSlot(spec, Utc(), t)
    ensures t >= DAY && (t > DAY ==> t >= DAY + MINUTE)
  {
    DailySlots(spec, t);
    AtOfParts(t);
  }

  lemma FirstRuns()
    ensures Follows(MidnightTwice(), DAY - MINUTE, DAY) && Follows(Midnight(), DAY - MINUTE, DAY)
    ensures Follows(MidnightTwice(), DAY, DAY + MINUTE)
    ensures !IsSlot(ALL_DAYS, Utc(), DAY + MINUTE)
  {
    hide IsSlot, WholeMinute, HourAt, MinuteAt;
    var twice := ALL_DAYS.(minutes := {0, 1});
    PartsOfAt(2, 0, 0);
    PartsOfAt(2, 0, 1);
    DailySlots(ALL_DAYS, DAY);
    DailySlots(ALL_DAYS, DAY + MINUTE);
    DailySlots(twice, DAY);
    DailySlots(twice, DAY + MINUTE);
    forall t
      ensures IsSlot(ALL_DAYS, Utc(), t) && t > DAY - MINUTE ==> t >= DAY
      ensures IsSlot(twice, Utc(), t) && t > DAY - MINUTE ==> t >= DAY && (t > DAY ==> t >= DAY + MINUTE)
    {
      if t > DAY - MINUTE {
        if IsSlot(ALL_DAYS, Utc(), t) {
          NoSlotBefore(ALL_DAYS, t);
        }
        if IsSlot(twice, Utc(), t) {
          NoSlotBefore(twice, t);
        }
      }
    }
  }

  /** A minute before midnight, a routine that runs twice then. */
  function AtNight(): World {
    World(Row(Active, MidnightTwice(), Some(DAY), None, None), [], map[], DAY - MINUTE)
  }

  /** A sweep queues the midnight run; before it moves the cursor, the routine is paused by its
      budget, gets another schedule, and is restarted by a sweep that began before midnight. */
  function Overtaken(): seq<Step> {
    [Tick(DAY), Begin(0, DAY, DAY + MINUTE), Look(0, false), Queue(0), OverBudget(DAY), Reschedule(Midnight(), 0),
     WithinBudget(DAY - MINUTE, DAY)]
  }

  /** The sweep of that run, as it found the midnight slot. */
  function NightSweep(phase: Phase): Sweep {
    Sweep(DAY, DAY, MidnightTwice(), DAY + MINUTE, phase)
  }

  function Night(row: Row, jobs: seq<int>, phase: Phase): World {
    World(row, jobs, map[0 := NightSweep(phase)], DAY)
  }

  lemma RunsNext(w: World, step: Step, rest: seq<Step>)
    requires Enabled(w, step) && Runs(Do(w, step), rest)
    ensures Runs(w, [step] + rest) && Run(w, [step] + rest) == Run(Do(w, step), rest)
  {
    hide Enabled, Do;
    assert ([step] + rest)[0] == step && ([step] + rest)[1..] == rest;
  }

  lemma OvertakenSweep()
    ensures var w, row := AtNight(), AtNight().row;
            && Do(w, Tick(DAY)) == w.(clock := DAY)
            && Enabled(w.(clock := DAY), Begin(0, DAY, DAY + MINUTE))
            && Do(w.(clock := DAY), Begin(0, DAY, DAY + MINUTE)) == Night(row, [], Found)
            && Do(Night(row, [], Found), Look(0, false)) == Night(row, [], Free)
            && Do(Night(row, [], Free), Queue(0)) == Night(row, [DAY], Handled(true))
  {
    hide Follows, MidnightTwice;
    FirstRuns();
  }

  lemma OvertakenRow()
    ensures var row := AtNight().row;
            var stopped := Stopped(row, true);
            var changed := stopped.(schedule := Midnight());
            var last := Handled(true);
            && Do(Night(row, [DAY], last), OverBudget(DAY)) == Night(stopped, [DAY], last)
            && Enabled(Night(stopped, [DAY], last), Reschedule(Midnight(), 0))
            && Do(Night(stopped, [DAY], last), Reschedule(Midnight(), 0)) == Night(changed, [DAY], last)
            && Enabled(Night(changed, [DAY], last), WithinBudget(DAY - MINUTE, DAY))
            && Do(Night(changed, [DAY], last), WithinBudget(DAY - MINUTE, DAY))
               == Night(Row(Active, Midnight(), Some(DAY), None, None), [DAY], last)
  {
    hide Follows, Midnight, MidnightTwice;
    FirstRuns();
  }

  lemma OvertakenRuns()
    ensures Runs(AtNight(), Overtaken())
    ensures Run(AtNight(), Overtaken())
            == Night(Row(Active, Midnight(), Some(DAY), None, None), [DAY], Handled(true))
  {
    hide Do, Midnight, MidnightTwice, Follows;
    OvertakenSweep();
    OvertakenRow();
    var w, row := AtNight(), AtNight().row;
    var last, stopped := Handled(true), Stopped(row, true);
    var changed := stopped.(schedule := Midnight());
    var restart := WithinBudget(DAY - MINUTE, DAY);
    var s6 := [restart] + [];
    var s5 := [Reschedule(Midnight(), 0)] + s6;
    var s4 := [OverBudget(DAY)] + s5;
    var s3 := [Queue(0)] + s4;
    var s2 := [Look(0, false)] + s3;
    var s1 := [Begin(0, DAY, DAY + MINUTE)] + s2;
    RunsNext(Night(changed, [DAY], last), restart, []);
    RunsNext(Night(stopped, [DAY], last), Reschedule(Midnight(), 0), s6);
    RunsNext(Night(row, [DAY], last), OverBudget(DAY), s5);
    RunsNext(Night(row, [], Free), Queue(0), s4);
    RunsNext(Night(row, [], Found), Look(0, false), s3);
    RunsNext(w.(clock := DAY), Begin(0, DAY, DAY + MINUTE), s2);
    RunsNext(w, Tick(DAY), s1);
    assert [Tick(DAY)] + s1 == Overtaken();
  }

  /** Then the sweep moves the cursor, and it stands at a time the stored schedule never runs at. */
  lemma OvertakenMisplaces()
    ensures Created(AtNight()) && Runs(AtNight(), Overtaken())
    ensures var w := Run(AtNight(), Overtaken());
            && Enabled(w, Move(0))
            && var row := Do(w, Move(0)).row;
               row.status.Active? && row.schedule == Midnight() && row.next == Some(DAY + MINUTE)
               && !IsSlot(row.schedule.spec, row.schedule.zone, DAY + MINUTE)
  {
    FirstRuns();
    OvertakenRuns();
    hide Run, Runs, IsSlot;
  }
}

module Routines {
  import Cron
  import opened CronModel
  import opened RoutinesModel
  import opened Options

  /** The answer of a change: done, refused because the routine is cancelled, or failed because
      the schedule has no run the search can find. */
  datatype Answer = Done | AlreadyCancelled | NoRun

  ghost predicate Usable(schedule: Schedule, after: int) {
    WellFormed(schedule.spec) && ValidZone(schedule.zone) && Wall(schedule.zone, after) >= 0
  }

  class Routine {
    var status: Status
    var schedule: Schedule
    var next: Option<int>
    var last: Option<int>
    var resumed: Option<int>
    var jobs: seq<int>

    function Value(): Row
      reads this
    {
      Row(status, schedule, next, last, resumed)
    }

    method First(plan: Schedule, after: int) returns (next: Option<int>)
      requires Usable(plan, after)
      ensures next.Some? ==> Follows(plan, after, next.value)
      ensures next.None? ==> Barren(plan.spec, plan.zone, after)
    {
      next := Cron.NextAfter(plan.spec, after, plan.zone);
    }

    method Pause() returns (answer: Answer)
      modifies this
      ensures answer == if old(status).Cancelled? then AlreadyCancelled else Done
      ensures Value() == (if old(status).Cancelled? then old(Value()) else Stopped(old(Value()), false))
      ensures jobs == old(jobs)
    {
      if status.Cancelled? {
        return AlreadyCancelled;
      }
      status, next := Status.Paused(false), None;
      return Done;
    }

    method Resume(now: int) returns (answer: Answer)
      requires Usable(schedule, now)
      modifies this
      ensures answer.AlreadyCancelled? <==> old(status).Cancelled?
      ensures answer.Done? ==> next.Some? && Follows(old(schedule), now, next.value)
      ensures answer.Done? ==> Value() == Resumed(old(Value()), now, next.value)
      ensures !answer.Done? ==> Value() == old(Value())
      ensures jobs == old(jobs)
    {
      if status.Cancelled? {
        return AlreadyCancelled;
      }
      var found := First(schedule, now);
      if found.None? {
        return NoRun;
      }
      if status == Status.Paused(true) {
        resumed := Some(now);
      }
      status, next := Active, found;
      return Done;
    }

    method Cancel() returns (answer: Answer)
      modifies this
      ensures answer == if old(status).Cancelled? then AlreadyCancelled else Done
      ensures Value() == (if old(status).Cancelled? then old(Value()) else Ended(old(Value()))) && jobs == old(jobs)
    {
      if status.Cancelled? {
        return AlreadyCancelled;
      }
      status, next := Status.Cancelled, None;
      return Done;
    }

    method Update(plan: Schedule, now: int) returns (answer: Answer)
      requires Usable(plan, now)
      modifies this
      ensures answer.AlreadyCancelled? <==> old(status).Cancelled?
      ensures answer.Done? && old(status).Active? ==> next.Some? && Follows(plan, now, next.value)
      ensures answer.Done? ==> Value() == Rescheduled(old(Value()), plan, if next.Some? then next.value else 0)
      ensures !answer.Done? ==> Value() == old(Value())
      ensures jobs == old(jobs)
    {
      if status.Cancelled? {
        return AlreadyCancelled;
      }
      if status.Active? {
        var found := First(plan, now);
        if found.None? {
          return NoRun;
        }
        next := found;
      }
      schedule := plan;
      return Done;
    }

    predicate Due(now: int)
      reads this
    {
      status.Active? && next.Some? && next.value <= now
    }

    /** One sweep of this routine, from reading its slot to moving its cursor. */
    method RunDue(now: int, botPaused: bool, ghost sweeping: nat) returns (failed: bool)
      requires Usable(schedule, now)
      modifies this
      ensures failed ==> Barren(old(schedule).spec, old(schedule).zone, now)
      ensures failed || !old(Due(now)) ==> Value() == old(Value()) && jobs == old(jobs)
      ensures !failed && old(Due(now)) ==> next.Some? && Follows(old(schedule), now, next.value)
      ensures !failed && old(Due(now)) ==>
                World(Value(), jobs, map[], now)
                == Alone(World(old(Value()), old(jobs), map[], now), sweeping, now, next.value, botPaused)
    {
      hide Follows, Usable, Barren, Alone;
      if !status.Active? || next.None? || next.value > now {
        return false;
      }
      var slot := next.value;
      var found := First(schedule, now);
      if found.None? {
        return true;
      }
      AloneIs(World(Value(), jobs, map[], now), sweeping, now, found.value, botPaused);
      if !botPaused && slot !in jobs {
        jobs := jobs + [slot];
        last := Some(now);
      }
      next := found;
      return false;
    }
  }
}
