/** What decides, in every run, whether a routine is running, what it runs by, and what its row says. */
module RoutineRuns {
  import opened CronModel
  import opened RoutinesModel
  import opened Options

  /** The status that the steps so far have decided on: the last call or budget stage to decide it wins.
      No sweep is among them. */
  function Decided(first: Status, steps: seq<Step>): Status {
    if steps == [] then first
    else
      match steps[|steps| - 1]
      case Pause => Paused(false)
      case OverBudget(_) => Paused(true)
      case Cancel => Cancelled
      case Resume(_) => Active
      case WithinBudget(_, _) => Active
      case _ => Decided(first, steps[..|steps| - 1])
  }

  /** The schedule of the last update. */
  function Planned(first: Schedule, steps: seq<Step>): Schedule {
    if steps == [] then first
    else if steps[|steps| - 1].Reschedule? then steps[|steps| - 1].schedule
    else Planned(first, steps[..|steps| - 1])
  }

  lemma {:induction false} RunsSplit(w: World, steps: seq<Step>)
    requires Runs(w, steps) && steps != []
    ensures var front, last := steps[..|steps| - 1], steps[|steps| - 1];
            Runs(w, front) && Enabled(Run(w, front), last) && Run(w, steps) == Do(Run(w, front), last)
    decreases |steps|
  {
    hide Enabled, Do;
    var front, last := steps[..|steps| - 1], steps[|steps| - 1];
    if |steps| > 1 {
      assert front[0] == steps[0] && front[1..] == steps[1..][..|steps| - 2];
      RunsSplit(Do(w, steps[0]), steps[1..]);
    } else {
      assert steps[1..] == [];
    }
  }

  /** A routine runs exactly while it has a cursor. */
  predicate CursorFits(row: Row) {
    row.status.Active? <==> row.next.Some?
  }

  lemma RowStep(w: World, step: Step)
    requires Enabled(w, step) && CursorFits(w.row)
    ensures CursorFits(Do(w, step).row)
    ensures Do(w, step).row.status == Decided(w.row.status, [step])
    ensures Do(w, step).row.schedule == Planned(w.row.schedule, [step])
    ensures Do(w, step).row.resumed
            == if step.Resume? && w.row.status == Paused(true) then Some(w.clock) else w.row.resumed
  {
    hide Follows, IsSlot;
    assert [step][..0] == [];
  }

  lemma DecidedLast(first: Status, plan: Schedule, steps: seq<Step>)
    requires steps != []
    ensures var front, last := steps[..|steps| - 1], steps[|steps| - 1];
            && Decided(first, steps) == Decided(Decided(first, front), [last])
            && Planned(plan, steps) == Planned(Planned(plan, front), [last])
  {
    assert [steps[|steps| - 1]][..0] == [];
  }

  /** In every run with whatever sweeps, crashes and budget stages: the routine is active, paused by the
      user, paused by its budget or cancelled exactly as the last step that decides it said; it goes by
      the schedule of the last update; and it has a cursor exactly while it is active. */
  lemma {:induction false} RowIsDecided(w: World, steps: seq<Step>)
    requires Created(w) && Runs(w, steps)
    ensures var row := Run(w, steps).row;
            && row.status == Decided(Active, steps) && row.schedule == Planned(w.row.schedule, steps)
            && (row.status.Active? <==> row.next.Some?)
    decreases |steps|
  {
    hide Enabled, Do, Follows, Decided, Planned;
    if steps != [] {
      var front := steps[..|steps| - 1];
      RunsSplit(w, steps);
      RowIsDecided(w, front);
      RowStep(Run(w, front), steps[|steps| - 1]);
      DecidedLast(Active, w.row.schedule, steps);
    } else {
      NothingDecided(w.row);
    }
  }

  lemma NothingDecided(row: Row)
    ensures Decided(row.status, []) == row.status && Planned(row.schedule, []) == row.schedule
  {
  }

  lemma {:induction false} DecidedSince(first: Status, steps: seq<Step>, i: nat)
    requires i < |steps| && forall k :: i < k < |steps| ==> !steps[k].Resume?
    requires steps[i].Pause? || steps[i].Cancel?
    requires forall k :: i < k < |steps| && (steps[k].OverBudget? || steps[k].WithinBudget?) ==>
               Decided(first, steps[..k]) == if steps[k].OverBudget? then Active else Paused(true)
    ensures Decided(first, steps) == Paused(false) || Decided(first, steps).Cancelled?
    decreases |steps|
  {
    var front, last := steps[..|steps| - 1], steps[|steps| - 1];
    if i < |steps| - 1 {
      forall k | i < k < |front|
        ensures front[..k] == steps[..k] && front[k] == steps[k]
      {
      }
      DecidedSince(first, front, i);
      assert front == steps[..|steps| - 1];
    }
  }

  lemma {:induction false} BudgetsDecide(w: World, steps: seq<Step>, k: nat)
    requires Created(w) && Runs(w, steps) && k < |steps| && (steps[k].OverBudget? || steps[k].WithinBudget?)
    ensures Decided(Active, steps[..k]) == if steps[k].OverBudget? then Active else Paused(true)
    decreases |steps|
  {
    hide Follows, IsSlot, Do, Decided, Created;
    RunsSplit(w, steps);
    var front := steps[..|steps| - 1];
    if k < |steps| - 1 {
      assert front[..k] == steps[..k];
      BudgetsDecide(w, front, k);
    } else {
      RowIsDecided(w, front);
    }
  }

  /** In every run: from a pause by the user on, until the user resumes it, the routine is not active and
      has no cursor, so no sweep finds it due, whatever sweeps and budget stages run meanwhile. */
  lemma PauseHolds(w: World, steps: seq<Step>, i: nat)
    requires Created(w) && Runs(w, steps) && i < |steps| && steps[i].Pause?
    requires forall k :: i < k < |steps| ==> !steps[k].Resume?
    ensures var r := Run(w, steps);
            && !r.row.status.Active? && r.row.next.None?
            && forall k, now, following :: !Enabled(r, Begin(k, now, following))
  {
    hide Created, Run, Runs, Decided;
    forall k | i < k < |steps| && (steps[k].OverBudget? || steps[k].WithinBudget?)
      ensures Decided(Active, steps[..k]) == if steps[k].OverBudget? then Active else Paused(true)
    {
      BudgetsDecide(w, steps, k);
    }
    DecidedSince(Active, steps, i);
    RowIsDecided(w, steps);
  }

  lemma {:induction false} CancelledStays(w: World, steps: seq<Step>)
    requires w.row.status.Cancelled? && w.row.next.None? && Runs(w, steps)
    ensures Run(w, steps).row == w.row
    decreases |steps|
  {
    hide Follows, IsSlot;
    if steps != [] {
      CancelledStays(Do(w, steps[0]), steps[1..]);
    }
  }

  /** A cancelled routine stays so, with its row as it was left. */
  lemma CancelIsFinal(w: World, steps: seq<Step>)
    requires Enabled(w, Cancel) && Runs(Do(w, Cancel), steps)
    ensures var row := Run(Do(w, Cancel), steps).row;
            && row.status.Cancelled? && row.next.None?
            && row.schedule == w.row.schedule && row.last == w.row.last && row.resumed == w.row.resumed
  {
    hide Follows, IsSlot, Runs, Run;
    CancelledStays(Do(w, Cancel), steps);
  }

  /** In every run: a resume starts the routine at the first run of its schedule after now, and marks the
      time exactly when it overrides a budget pause. */
  lemma ResumeStarts(w: World, steps: seq<Step>, next: int)
    requires Created(w) && Runs(w, steps) && Enabled(Run(w, steps), Resume(next))
    ensures var before, after := Run(w, steps), Do(Run(w, steps), Resume(next));
            && after.row.status.Active? && after.row.next == Some(next)
            && Follows(Planned(w.row.schedule, steps), before.clock, next)
            && after.row.resumed
               == (if Decided(Active, steps) == Paused(true) then Some(before.clock) else before.row.resumed)
            && after.row.last == before.row.last && after.jobs == before.jobs && after.sweeps == before.sweeps
  {
    hide Created, Run, Runs, Decided, Planned, Follows;
    RowIsDecided(w, steps);
  }

  /** In every run: when a budget is over, an active routine stops with no cursor; the stage that finds it
      no longer over starts it again at the first run of its schedule, and nothing else of it changes. */
  lemma BudgetPauseEnds(w: World, steps: seq<Step>, day: int, now: int, next: int)
    requires Created(w) && Runs(w, steps) && Enabled(Run(w, steps), OverBudget(day))
    requires now <= Run(w, steps).clock && Follows(Run(w, steps).row.schedule, now, next)
    ensures var before := Run(w, steps);
            var stopped := Do(before, OverBudget(day));
            && !stopped.row.status.Active? && stopped.row.next.None?
            && Enabled(stopped, WithinBudget(now, next))
            && Do(stopped, WithinBudget(now, next)) == before.(row := before.row.(next := Some(next)))
  {
    hide Created, Run, Runs, Follows;
  }

  lemma KeptRunning(w: World, step: Step, since: int)
    requires w.row.status.Active? && w.row.resumed == Some(since) && Enabled(w, step)
    requires !step.Pause? && !step.Cancel? && (step.OverBudget? ==> step.day <= since)
    ensures Do(w, step).row.status.Active? && Do(w, step).row.resumed == Some(since)
  {
    hide Follows, IsSlot;
  }

  /** In every run: once the owner resumes a routine that its budget had paused, no budget stage of that day
      or an earlier one pauses it again, however long the run goes on; only the owner's own calls stop it. */
  lemma {:induction false} ResumedKeepsRunning(w: World, steps: seq<Step>, i: nat)
    requires Created(w) && Runs(w, steps) && i < |steps| && steps[i].Resume? && Runs(w, steps[..i])
    requires Decided(Active, steps[..i]) == Paused(true)
    requires forall k :: i < k < |steps| ==>
               && !steps[k].Pause? && !steps[k].Cancel?
               && (steps[k].OverBudget? ==> steps[k].day <= Run(w, steps[..i]).clock)
    ensures Run(w, steps).row.status.Active? && Run(w, steps).row.resumed == Some(Run(w, steps[..i]).clock)
    decreases |steps|
  {
    hide Created, Follows, IsSlot, Decided, Do, Enabled;
    var front, last := steps[..|steps| - 1], steps[|steps| - 1];
    RunsSplit(w, steps);
    if i < |steps| - 1 {
      assert front[..i] == steps[..i];
      ResumedKeepsRunning(w, front, i);
      KeptRunning(Run(w, front), last, Run(w, steps[..i]).clock);
    } else {
      ResumeStarts(w, front, last.next);
    }
  }

  // The time of the last run.

  ghost predicate LastFits(w: World) {
    && (w.row.last.Some? ==> exists slot :: slot in w.jobs && slot <= w.row.last.value)
    && (forall k :: k in w.sweeps && w.sweeps[k].phase == Handled(true) ==>
          w.sweeps[k].slot in w.jobs && w.sweeps[k].slot <= w.sweeps[k].now)
    && (forall k :: k in w.sweeps ==> w.sweeps[k].slot <= w.sweeps[k].now)
  }

  lemma LastStep(w: World, step: Step)
    requires LastFits(w) && Enabled(w, step)
    ensures LastFits(Do(w, step))
  {
    hide Follows, IsSlot;
    var r := Do(w, step);
    assert w.jobs <= r.jobs;
    assert forall slot :: slot in w.jobs ==> slot in r.jobs;
    if step.Queue? && w.sweeps[step.k].slot !in w.jobs {
      assert r.jobs[|w.jobs|] == w.sweeps[step.k].slot;
    }
    if r.row.last.Some? && r.row.last == w.row.last {
      var slot :| slot in w.jobs && slot <= w.row.last.value;
      assert slot in r.jobs;
    }
  }

  /** In every run: a last run is recorded only for a job that was queued for a slot due by then. */
  lemma {:induction false} LastRunHasItsJob(w: World, steps: seq<Step>)
    requires Created(w) && w.row.last.None? && Runs(w, steps)
    ensures LastFits(Run(w, steps))
    decreases |steps|
  {
    hide Enabled, Do;
    if steps != [] {
      RunsSplit(w, steps);
      LastRunHasItsJob(w, steps[..|steps| - 1]);
      LastStep(Run(w, steps[..|steps| - 1]), steps[|steps| - 1]);
    }
  }
}
