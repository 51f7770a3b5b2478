/** Who wrote what: every outcome of a job in a run is owed to a step, and every step writes its own. */
module LifecycleOutcomes {
  import opened LifecycleModel
  import opened Lifecycle
  import opened LifecycleSafety
  import opened LifecycleResults
  import opened Options

  lemma {:induction false} SafeRunSplit(w: World, steps: seq<Step>)
    requires SafeRun(w, steps) && steps != []
    ensures var front, last := steps[..|steps| - 1], steps[|steps| - 1];
            SafeRun(w, front) && Enabled(Run(w, front), last) && Run(w, steps) == Do(Run(w, front), last)
    decreases |steps|
  {
    hide Enabled, Do, Safe;
    var front, last := steps[..|steps| - 1], steps[|steps| - 1];
    if |steps| > 1 {
      assert front[0] == steps[0] && front[1..] == steps[1..][..|steps| - 2];
      SafeRunSplit(Do(w, steps[0]), steps[1..]);
    } else {
      assert steps[1..] == [];
    }
  }

  lemma {:induction false} SafeRunPrefix(w: World, steps: seq<Step>, k: nat)
    requires SafeRun(w, steps) && k <= |steps|
    ensures SafeRun(w, steps[..k])
    decreases |steps|
  {
    hide Enabled, Do, Safe;
    if k < |steps| {
      SafeRunSplit(w, steps);
      assert steps[..|steps| - 1][..k] == steps[..k];
      SafeRunPrefix(w, steps[..|steps| - 1], k);
    } else {
      assert steps[..k] == steps;
    }
  }

  // The steps that decide a job.

  /** The step that gives a job this status. A turn that was cancelled no longer counts. */
  ghost predicate DecidesJob(w: World, step: Step, status: JobStatus) {
    match status
    case JobQueued => step.Reroute? || step.Sweep?
    case JobStarted => step.MarkStarted?
    case JobWaiting => false
    case JobDone => step.CloseQuestions? || (step.PersistDone? && !HasStatus(w.rows, step.t, Cancelled))
    case JobFailed => step.RecordFailure?
    case JobCancelled =>
      || step.DropQueued? || step.Sweep?
      || (step.PersistCancelled? && !HasStatus(w.rows, step.t, Cancelled))
      || (step.CancelRunning? && HasStatus(w.rows, step.t, Running))
      || (step.CancelWaiting? && HasStatus(w.rows, step.t, Waiting))
      || (step.CancelQueued? && HasStatus(w.rows, step.t, Queued))
  }

  lemma JobStep(w: World, step: Step)
    requires Enabled(w, step)
    ensures Do(w, step).rows.status == w.rows.status || DecidesJob(w, step, Do(w, step).rows.status)
  {
    hide HasWaiting, HasUser, Finds, Interrupts, Answered, Stalled, Stopped, Closable;
  }

  /** In every run: the status a job has in the end, if it is not the one it started with, was written by
      a step that decides it, and has stood since. In particular a job has failed only when a failure was
      recorded for it, and is done only by the result of a turn that was not cancelled, or by the answers
      to its questions. */
  lemma {:induction false} JobStatusIsOwed(w: World, steps: seq<Step>) returns (i: nat)
    requires SafeRun(w, steps) && Run(w, steps).rows.status != w.rows.status
    ensures i < |steps| && SafeRun(w, steps[..i])
    ensures DecidesJob(Run(w, steps[..i]), steps[i], Run(w, steps).rows.status)
    ensures forall k :: i < k <= |steps| ==>
              SafeRun(w, steps[..k]) && Run(w, steps[..k]).rows.status == Run(w, steps).rows.status
    decreases |steps|
  {
    hide Enabled, Do, Safe, DecidesJob;
    SafeRunSplit(w, steps);
    var front, last := steps[..|steps| - 1], steps[|steps| - 1];
    JobStep(Run(w, front), last);
    if Run(w, front).rows.status == Run(w, steps).rows.status {
      i := JobStatusIsOwed(w, front);
      assert steps[..i] == front[..i];
      StandsOn(w, steps, i);
    } else {
      i := |steps| - 1;
      assert steps[..|steps|] == steps;
    }
  }

  lemma StandsOn(w: World, steps: seq<Step>, i: nat)
    requires SafeRun(w, steps) && i < |steps| - 1
    requires var front := steps[..|steps| - 1];
             forall k :: i < k <= |front| ==>
               SafeRun(w, front[..k]) && Run(w, front[..k]).rows.status == Run(w, steps).rows.status
    ensures forall k :: i < k <= |steps| ==>
              SafeRun(w, steps[..k]) && Run(w, steps[..k]).rows.status == Run(w, steps).rows.status
  {
    hide SafeRun, Run;
    var front := steps[..|steps| - 1];
    forall k | i < k <= |steps|
      ensures SafeRun(w, steps[..k]) && Run(w, steps[..k]).rows.status == Run(w, steps).rows.status
    {
      if k < |steps| {
        assert steps[..k] == front[..k];
      } else {
        assert steps[..k] == steps;
      }
    }
  }

  // The steps that decide a turn.

  ghost predicate DecidesTurn(w: World, step: Step, t: TurnId, status: TurnStatus) {
    match status
    case Queued =>
      || (step.Attach? && step.t == t && !step.consumed)
      || (step.Reroute? && step.retry == t) || (step.Sweep? && step.retry == t)
    case Running => (step.Register? && step.t == t) || (step.Resume? && step.t == t)
    case Waiting => (step.PersistWaiting? && step.t == t) || (step.Ask? && step.t == t && step.blocking)
    case Done => (step.PersistDone? && step.t == t) || step.CloseQuestions?
        || (step.Attach? && step.t == t && step.consumed)
    case Failed => (step.RecordFailure? && step.found == Some(t)) || step.Sweep?
    case Cancelled =>
      || (step.PersistCancelled? && step.t == t) || (step.CancelRunning? && step.t == t)
      || (step.CancelWaiting? && step.t == t) || (step.CancelQueued? && step.t == t)
      || (step.Reroute? && step.live == Some(t))
    case Interrupted => step.Sweep? && step.claude
  }

  lemma AttemptTurns(w: World, step: Step, t: TurnId)
    requires Enabled(w, step) && t in Do(w, step).rows.turns
    requires step.PersistDone? || step.PersistWaiting? || step.PersistCancelled? || step.Ask? || step.Raise?
    ensures t !in w.rows.turns || Do(w, step).rows.turns[t].status != w.rows.turns[t].status ==>
              DecidesTurn(w, step, t, Do(w, step).rows.turns[t].status)
  {
    hide LifecycleModel.PersistDone, LifecycleModel.PersistWaiting, LifecycleModel.PersistCancelled, LifecycleModel.Ask,
      HasWaiting, WithMessage;
    if !step.Ask? && HasStatus(w.rows, step.t, Cancelled) {
      SilentStep(w, step, step.t);
    } else {
      match step
      case PersistDone(u, m, time, result) => DoneIs(w.rows, u, m, time, result);
      case PersistWaiting(u, m, time, result, approvals) => WaitingIs(w.rows, u, m, time, result, approvals);
      case PersistCancelled(u, m, time) => CancelledIs(w.rows, u, m, time);
      case Ask(u, p, blocking) => AskedIs(w.rows, u, p, blocking);
      case Raise(_, _) =>
    }
  }

  lemma ClaimTurns(w: World, step: Step, t: TurnId)
    requires Enabled(w, step) && t in Do(w, step).rows.turns
    requires step.Attach? || step.MarkStarted? || step.Register? || step.Resume? || step.RaiseClaim? || step.Crash?
    ensures t !in w.rows.turns || Do(w, step).rows.turns[t].status != w.rows.turns[t].status ==>
              DecidesTurn(w, step, t, Do(w, step).rows.turns[t].status)
  {
    hide LifecycleModel.Attach, LifecycleModel.Register, LifecycleModel.Resume, QueuedTurns;
    match step
    case Attach(u, m, time, consumed) => AttachedIs(w.rows, u, m, time, consumed);
    case Register(u) => RegisteredIs(w.rows, u);
    case Resume(u) => ResumedIs(w.rows, u);
    case _ =>
  }

  lemma CancelTurns(w: World, step: Step, t: TurnId)
    requires Enabled(w, step) && t in Do(w, step).rows.turns
    requires step.CancelQueued? || step.CancelWaiting? || step.CancelRunning? || step.DropQueued?
    ensures t !in w.rows.turns || Do(w, step).rows.turns[t].status != w.rows.turns[t].status ==>
              DecidesTurn(w, step, t, Do(w, step).rows.turns[t].status)
  {
    hide LifecycleModel.CancelQueued, LifecycleModel.CancelWaiting, LifecycleModel.CancelRunning, WithMessage,
      SettledOf;
    match step
    case CancelQueued(u) => CancelPausedIs(w.rows, u);
    case CancelWaiting(u) => CancelPausedIs(w.rows, u);
    case CancelRunning(u, m, time) => CancelledIs(w.rows, u, m, time);
    case _ =>
  }

  lemma OtherTurns(w: World, step: Step, t: TurnId)
    requires Enabled(w, step) && t in Do(w, step).rows.turns
    requires step.RecordFailure? || step.Answer? || step.CloseQuestions?
    ensures t !in w.rows.turns || Do(w, step).rows.turns[t].status != w.rows.turns[t].status ==>
              DecidesTurn(w, step, t, Do(w, step).rows.turns[t].status)
  {
    hide Fail, LifecycleModel.CloseQuestions, Finds, WithMessage, Free, SettledOf;
    match step
    case RecordFailure(_, found, m, time) => FailedIs(w.rows, found, m, time);
    case CloseQuestions(lane) => ClosedIs(w.rows, lane);
    case _ =>
  }

  lemma MoveTurns(w: World, step: Step, t: TurnId)
    requires Enabled(w, step) && t in Do(w, step).rows.turns && step.Reroute?
    ensures t !in w.rows.turns || Do(w, step).rows.turns[t].status != w.rows.turns[t].status ==>
              DecidesTurn(w, step, t, Do(w, step).rows.turns[t].status)
  {
    hide Stopped, Park, OnOldLane, WithMessage, SettledOf;
    StoppedIs(w.rows, step.live, step.m, step.time);
    ParkedIs(Stopped(w.rows, step.live, step.m, step.time), step.lane, step.retry);
  }

  lemma RestartTurns(w: World, step: Step, t: TurnId)
    requires Enabled(w, step) && t in Do(w, step).rows.turns && step.Sweep?
    ensures t !in w.rows.turns || Do(w, step).rows.turns[t].status != w.rows.turns[t].status ==>
              DecidesTurn(w, step, t, Do(w, step).rows.turns[t].status)
  {
    hide HasWaiting, Answered, Stalled;
  }

  lemma TurnStep(w: World, step: Step, t: TurnId)
    requires Enabled(w, step) && t in Do(w, step).rows.turns
    ensures t !in w.rows.turns || Do(w, step).rows.turns[t].status != w.rows.turns[t].status ==>
              DecidesTurn(w, step, t, Do(w, step).rows.turns[t].status)
  {
    hide Enabled, Do, DecidesTurn;
    if step.PersistDone? || step.PersistWaiting? || step.PersistCancelled? || step.Ask? || step.Raise? {
      AttemptTurns(w, step, t);
    } else if step.Attach? || step.MarkStarted? || step.Register? || step.Resume? || step.RaiseClaim? || step.Crash? {
      ClaimTurns(w, step, t);
    } else if step.CancelQueued? || step.CancelWaiting? || step.CancelRunning? || step.DropQueued? {
      CancelTurns(w, step, t);
    } else if step.RecordFailure? || step.Answer? || step.CloseQuestions? {
      OtherTurns(w, step, t);
    } else if step.Reroute? {
      MoveTurns(w, step, t);
    } else {
      RestartTurns(w, step, t);
    }
  }

  /** In every run: the status a turn has in the end was written by a step of its own that decides it. */
  lemma {:induction false} TurnStatusIsOwed(w: World, steps: seq<Step>, t: TurnId) returns (i: nat)
    requires Enqueued(w) && SafeRun(w, steps) && t in Run(w, steps).rows.turns
    ensures i < |steps| && SafeRun(w, steps[..i])
    ensures DecidesTurn(Run(w, steps[..i]), steps[i], t, Run(w, steps).rows.turns[t].status)
    decreases |steps|
  {
    hide Enabled, Do, Safe, DecidesTurn;
    SafeRunSplit(w, steps);
    var front, last := steps[..|steps| - 1], steps[|steps| - 1];
    TurnStep(Run(w, front), last, t);
    if t in Run(w, front).rows.turns && Run(w, front).rows.turns[t].status == Run(w, steps).rows.turns[t].status {
      i := TurnStatusIsOwed(w, front, t);
      assert steps[..i] == front[..i];
    } else {
      i := |steps| - 1;
    }
  }

  /** The step leaves a failure to record, by turn if a resumed run raised, else by job. */
  predicate Raises(step: Step, named: Option<TurnId>) {
    if named.Some? then step == Raise(named.value, true) else step.RaiseClaim? || (step.Raise? && !step.resumed)
  }

  /** In every run: a failure waits to be recorded for a turn only if the resumed run of that turn raised,
      and by job only if a claim or a first run did, with no crash since. */
  lemma {:induction false} FailureIsOwed(w: World, steps: seq<Step>, named: Option<TurnId>) returns (i: nat)
    requires Enqueued(w) && SafeRun(w, steps) && named in Run(w, steps).failing
    ensures i < |steps| && Raises(steps[i], named)
    ensures forall k :: i < k < |steps| ==>
              !steps[k].Crash? && !(steps[k].RecordFailure? && steps[k].named == named)
    decreases |steps|
  {
    hide Enabled, Safe;
    SafeRunSplit(w, steps);
    var front, last := steps[..|steps| - 1], steps[|steps| - 1];
    FailingStep(Run(w, front), last, named);
    if Raises(last, named) {
      i := |steps| - 1;
    } else {
      i := FailureIsOwed(w, front, named);
    }
  }

  lemma FailingStep(w: World, step: Step, named: Option<TurnId>)
    requires Enabled(w, step) && named in Do(w, step).failing
    ensures named in w.failing || Raises(step, named)
    ensures !step.Crash? && (step.RecordFailure? ==> step.named != named)
  {
  }

  predicate EndsRun(step: Step, t: TurnId) {
    || step.Crash? || (step.Raise? && step.t == t) || (step.PersistDone? && step.t == t)
    || (step.PersistWaiting? && step.t == t) || (step.PersistCancelled? && step.t == t)
  }

  /** In every run: a turn has a run in memory if and only if it was started or resumed, and since then the
      host did not crash and no run of it raised or stored its end. */
  lemma {:induction false} RunsInMemoryIff(w: World, steps: seq<Step>, t: TurnId)
    requires Enqueued(w) && SafeRun(w, steps)
    ensures t in Run(w, steps).attempts
            <==> exists i :: 0 <= i < |steps| && (steps[i] == Register(t) || steps[i] == Resume(t))
                             && forall k :: i < k < |steps| ==> !EndsRun(steps[k], t)
    decreases |steps|
  {
    hide Enabled, Safe, Do;
    if steps != [] {
      SafeRunSplit(w, steps);
      var front, last := steps[..|steps| - 1], steps[|steps| - 1];
      RunsInMemoryIff(w, front, t);
      AttemptStep(Run(w, front), last, t);
      assert forall i :: 0 <= i < |front| ==> steps[i] == front[i];
    }
  }

  lemma AttemptStep(w: World, step: Step, t: TurnId)
    requires Enabled(w, step)
    ensures t in Do(w, step).attempts
            <==> step == Register(t) || step == Resume(t) || (t in w.attempts && !EndsRun(step, t))
  {
  }

  /** The step stores this conversation with the turn. */
  predicate Stores(step: Step, t: TurnId, result: Messages) {
    || (step.PersistDone? && step.t == t && step.result == result)
    || (step.PersistWaiting? && step.t == t && step.result == result)
  }

  lemma AttemptResults(w: World, step: Step, t: TurnId)
    requires Enabled(w, step) && t in Do(w, step).rows.turns && Do(w, step).rows.turns[t].result.Some?
    requires step.PersistDone? || step.PersistWaiting? || step.PersistCancelled? || step.Ask? || step.Raise?
    ensures (t in w.rows.turns && w.rows.turns[t].result == Do(w, step).rows.turns[t].result)
            || (Stores(step, t, Do(w, step).rows.turns[t].result.value) && !HasStatus(w.rows, t, Cancelled))
  {
    hide LifecycleModel.PersistDone, LifecycleModel.PersistWaiting, LifecycleModel.PersistCancelled, LifecycleModel.Ask,
      HasWaiting, WithMessage, SettledOf;
    if !step.Ask? && HasStatus(w.rows, step.t, Cancelled) {
      SilentStep(w, step, step.t);
    } else {
      match step
      case PersistDone(u, m, time, result) => DoneIs(w.rows, u, m, time, result);
      case PersistWaiting(u, m, time, result, approvals) => WaitingIs(w.rows, u, m, time, result, approvals);
      case PersistCancelled(u, m, time) => CancelledIs(w.rows, u, m, time);
      case Ask(u, p, blocking) => AskedIs(w.rows, u, p, blocking);
      case Raise(_, _) =>
    }
  }

  lemma ClaimResults(w: World, step: Step, t: TurnId)
    requires Enabled(w, step) && t in Do(w, step).rows.turns && Do(w, step).rows.turns[t].result.Some?
    requires step.Attach? || step.MarkStarted? || step.Register? || step.Resume? || step.RaiseClaim? || step.Crash?
    ensures (t in w.rows.turns && w.rows.turns[t].result == Do(w, step).rows.turns[t].result)
            || (Stores(step, t, Do(w, step).rows.turns[t].result.value) && !HasStatus(w.rows, t, Cancelled))
  {
    hide LifecycleModel.Attach, LifecycleModel.Register, LifecycleModel.Resume, QueuedTurns;
    match step
    case Attach(u, m, time, consumed) => AttachedIs(w.rows, u, m, time, consumed);
    case Register(u) => RegisteredIs(w.rows, u);
    case Resume(u) => ResumedIs(w.rows, u);
    case _ =>
  }

  lemma CancelResults(w: World, step: Step, t: TurnId)
    requires Enabled(w, step) && t in Do(w, step).rows.turns && Do(w, step).rows.turns[t].result.Some?
    requires step.CancelQueued? || step.CancelWaiting? || step.CancelRunning? || step.DropQueued?
    ensures (t in w.rows.turns && w.rows.turns[t].result == Do(w, step).rows.turns[t].result)
            || (Stores(step, t, Do(w, step).rows.turns[t].result.value) && !HasStatus(w.rows, t, Cancelled))
  {
    hide LifecycleModel.CancelQueued, LifecycleModel.CancelWaiting, LifecycleModel.CancelRunning, WithMessage,
      SettledOf;
    match step
    case CancelQueued(u) => CancelPausedIs(w.rows, u);
    case CancelWaiting(u) => CancelPausedIs(w.rows, u);
    case CancelRunning(u, m, time) => CancelledIs(w.rows, u, m, time);
    case _ =>
  }

  lemma OtherResults(w: World, step: Step, t: TurnId)
    requires Enabled(w, step) && t in Do(w, step).rows.turns && Do(w, step).rows.turns[t].result.Some?
    requires step.RecordFailure? || step.Answer? || step.CloseQuestions?
    ensures (t in w.rows.turns && w.rows.turns[t].result == Do(w, step).rows.turns[t].result)
            || (Stores(step, t, Do(w, step).rows.turns[t].result.value) && !HasStatus(w.rows, t, Cancelled))
  {
    hide Fail, LifecycleModel.CloseQuestions, Finds, WithMessage, Free, SettledOf;
    match step
    case RecordFailure(_, found, m, time) => FailedIs(w.rows, found, m, time);
    case CloseQuestions(lane) => ClosedIs(w.rows, lane);
    case _ =>
  }

  lemma MoveResults(w: World, step: Step, t: TurnId)
    requires Enabled(w, step) && t in Do(w, step).rows.turns && Do(w, step).rows.turns[t].result.Some? && step.Reroute?
    ensures (t in w.rows.turns && w.rows.turns[t].result == Do(w, step).rows.turns[t].result)
            || (Stores(step, t, Do(w, step).rows.turns[t].result.value) && !HasStatus(w.rows, t, Cancelled))
  {
    hide Stopped, Park, OnOldLane, WithMessage, SettledOf;
    StoppedIs(w.rows, step.live, step.m, step.time);
    ParkedIs(Stopped(w.rows, step.live, step.m, step.time), step.lane, step.retry);
  }

  lemma RestartResults(w: World, step: Step, t: TurnId)
    requires Enabled(w, step) && t in Do(w, step).rows.turns && Do(w, step).rows.turns[t].result.Some? && step.Sweep?
    ensures (t in w.rows.turns && w.rows.turns[t].result == Do(w, step).rows.turns[t].result)
            || (Stores(step, t, Do(w, step).rows.turns[t].result.value) && !HasStatus(w.rows, t, Cancelled))
  {
    hide HasWaiting, Answered, Stalled;
  }

  lemma ResultStep(w: World, step: Step, t: TurnId)
    requires Enabled(w, step) && t in Do(w, step).rows.turns && Do(w, step).rows.turns[t].result.Some?
    ensures (t in w.rows.turns && w.rows.turns[t].result == Do(w, step).rows.turns[t].result)
            || (Stores(step, t, Do(w, step).rows.turns[t].result.value) && !HasStatus(w.rows, t, Cancelled))
  {
    hide Enabled, Do, Stores, HasStatus;
    if step.PersistDone? || step.PersistWaiting? || step.PersistCancelled? || step.Ask? || step.Raise? {
      AttemptResults(w, step, t);
    } else if step.Attach? || step.MarkStarted? || step.Register? || step.Resume? || step.RaiseClaim? || step.Crash? {
      ClaimResults(w, step, t);
    } else if step.CancelQueued? || step.CancelWaiting? || step.CancelRunning? || step.DropQueued? {
      CancelResults(w, step, t);
    } else if step.RecordFailure? || step.Answer? || step.CloseQuestions? {
      OtherResults(w, step, t);
    } else if step.Reroute? {
      MoveResults(w, step, t);
    } else {
      RestartResults(w, step, t);
    }
  }

  /** In every run: the conversation stored with a turn is one that a pause or the end of that very turn
      gave it, while it was not cancelled. */
  lemma {:induction false} ResultIsOwed(w: World, steps: seq<Step>, t: TurnId) returns (i: nat)
    requires Enqueued(w) && SafeRun(w, steps)
    requires t in Run(w, steps).rows.turns && Run(w, steps).rows.turns[t].result.Some?
    ensures i < |steps| && SafeRun(w, steps[..i]) && !HasStatus(Run(w, steps[..i]).rows, t, Cancelled)
    ensures Stores(steps[i], t, Run(w, steps).rows.turns[t].result.value)
    decreases |steps|
  {
    hide Enabled, Do, Safe, Stores, HasStatus;
    SafeRunSplit(w, steps);
    var front, last := steps[..|steps| - 1], steps[|steps| - 1];
    ResultStep(Run(w, front), last, t);
    if t in Run(w, front).rows.turns && Run(w, front).rows.turns[t].result == Run(w, steps).rows.turns[t].result {
      i := ResultIsOwed(w, front, t);
      assert steps[..i] == front[..i];
    } else {
      i := |steps| - 1;
    }
  }

  // Requests.

  /** A request keeps its turn, kind and call, and an answer it has got stands. */
  ghost predicate KeepsRequests(rows: Rows, r: Rows) {
    forall p :: p in rows.pendings ==>
      && p in r.pendings
      && r.pendings[p].turn == rows.pendings[p].turn && r.pendings[p].kind == rows.pendings[p].kind
      && r.pendings[p].call == rows.pendings[p].call
      && (!rows.pendings[p].open ==> r.pendings[p] == rows.pendings[p])
  }

  /** Every approval was one before. */
  ghost predicate NoneApproved(rows: Rows, r: Rows) {
    forall p :: p in r.pendings && r.pendings[p].approved ==> p in rows.pendings && rows.pendings[p].approved
  }

  lemma SettledRequests(rows: Rows, r: Rows, t: TurnId)
    requires SettledOf(rows, r, t)
    ensures KeepsRequests(rows, r) && NoneApproved(rows, r)
  {
  }

  lemma SameRequests(rows: Rows, r: Rows)
    requires r.pendings == rows.pendings
    ensures KeepsRequests(rows, r) && NoneApproved(rows, r)
  {
  }

  lemma CancelSettles(w: World, step: Step)
    requires Enabled(w, step)
    requires step.CancelQueued? || step.CancelWaiting? || step.CancelRunning? || step.DropQueued?
    ensures var r := Do(w, step).rows;
            r.pendings == w.rows.pendings || (!step.DropQueued? && SettledOf(w.rows, r, step.t))
  {
    hide LifecycleModel.CancelQueued, LifecycleModel.CancelWaiting, LifecycleModel.CancelRunning, WithMessage, OnlyTurn,
      SettledOf;
    match step
    case CancelQueued(u) => CancelPausedIs(w.rows, u);
    case CancelWaiting(u) => CancelPausedIs(w.rows, u);
    case CancelRunning(u, m, time) => CancelledIs(w.rows, u, m, time);
    case _ =>
  }

  lemma AttemptAnswers(w: World, step: Step)
    requires Enabled(w, step)
    requires step.PersistDone? || step.PersistWaiting? || step.PersistCancelled? || step.Ask? || step.Raise?
    ensures KeepsRequests(w.rows, Do(w, step).rows)
    ensures forall p :: p in Do(w, step).rows.pendings && Do(w, step).rows.pendings[p].approved ==>
              (p in w.rows.pendings && w.rows.pendings[p].approved) || step == Step.Answer(p, true)
  {
    hide LifecycleModel.PersistDone, LifecycleModel.PersistWaiting, LifecycleModel.PersistCancelled, LifecycleModel.Ask,
      HasWaiting, WithMessage, OnlyTurn;
    if !step.Ask? && HasStatus(w.rows, step.t, Cancelled) {
      SilentStep(w, step, step.t);
    } else {
      match step
      case PersistDone(u, m, time, result) => DoneIs(w.rows, u, m, time, result);
      case PersistWaiting(u, m, time, result, approvals) => WaitingIs(w.rows, u, m, time, result, approvals);
      case PersistCancelled(u, m, time) => CancelledIs(w.rows, u, m, time);
      case Ask(u, p, blocking) => AskedIs(w.rows, u, p, blocking);
      case Raise(_, _) =>
    }
  }

  lemma ClaimAnswers(w: World, step: Step)
    requires Enabled(w, step)
    requires step.Attach? || step.MarkStarted? || step.Register? || step.Resume? || step.RaiseClaim? || step.Crash?
    ensures KeepsRequests(w.rows, Do(w, step).rows)
    ensures forall p :: p in Do(w, step).rows.pendings && Do(w, step).rows.pendings[p].approved ==>
              (p in w.rows.pendings && w.rows.pendings[p].approved) || step == Step.Answer(p, true)
  {
    hide LifecycleModel.Attach, LifecycleModel.Register, LifecycleModel.Resume, QueuedTurns;
    match step
    case Attach(u, m, time, consumed) => AttachedIs(w.rows, u, m, time, consumed);
    case Register(u) => RegisteredIs(w.rows, u);
    case Resume(u) => ResumedIs(w.rows, u);
    case _ =>
  }

  lemma CancelAnswers(w: World, step: Step)
    requires Enabled(w, step)
    requires step.CancelQueued? || step.CancelWaiting? || step.CancelRunning? || step.DropQueued?
    ensures KeepsRequests(w.rows, Do(w, step).rows)
    ensures forall p :: p in Do(w, step).rows.pendings && Do(w, step).rows.pendings[p].approved ==>
              (p in w.rows.pendings && w.rows.pendings[p].approved) || step == Step.Answer(p, true)
  {
    hide Do, Enabled, SettledOf, KeepsRequests;
    CancelSettles(w, step);
    if Do(w, step).rows.pendings == w.rows.pendings {
      SameRequests(w.rows, Do(w, step).rows);
    } else {
      SettledRequests(w.rows, Do(w, step).rows, step.t);
    }
  }

  lemma OtherAnswers(w: World, step: Step)
    requires Enabled(w, step)
    requires step.RecordFailure? || step.Answer? || step.CloseQuestions?
    ensures KeepsRequests(w.rows, Do(w, step).rows)
    ensures forall p :: p in Do(w, step).rows.pendings && Do(w, step).rows.pendings[p].approved ==>
              (p in w.rows.pendings && w.rows.pendings[p].approved) || step == Step.Answer(p, true)
  {
    hide Fail, LifecycleModel.CloseQuestions, Finds, WithMessage, Free, OnlyTurn;
    match step
    case RecordFailure(_, found, m, time) => FailedIs(w.rows, found, m, time);
    case CloseQuestions(lane) => ClosedIs(w.rows, lane);
    case _ =>
  }

  lemma MoveAnswers(w: World, step: Step)
    requires Enabled(w, step) && step.Reroute?
    ensures KeepsRequests(w.rows, Do(w, step).rows)
    ensures forall p :: p in Do(w, step).rows.pendings && Do(w, step).rows.pendings[p].approved ==>
              (p in w.rows.pendings && w.rows.pendings[p].approved) || step == Step.Answer(p, true)
  {
    hide Stopped, Park, OnOldLane, WithMessage;
    StoppedIs(w.rows, step.live, step.m, step.time);
    ParkedIs(Stopped(w.rows, step.live, step.m, step.time), step.lane, step.retry);
  }

  lemma SweptRequests(rows: Rows, claude: bool, retry: TurnId, source: TurnId)
    ensures var r := SweepJob(rows, claude, retry, source).rows;
            forall p :: p in rows.pendings ==>
              p in r.pendings
              && (r.pendings[p] == rows.pendings[p]
                  || (rows.pendings[p].open && r.pendings[p] == rows.pendings[p].(open := false, approved := false)))
    ensures SweepJob(rows, claude, retry, source).rows.pendings.Keys == rows.pendings.Keys
  {
    hide Answered, Stalled, HasStatus;
  }

  lemma RestartAnswers(w: World, step: Step)
    requires Enabled(w, step) && step.Sweep?
    ensures KeepsRequests(w.rows, Do(w, step).rows)
    ensures forall p :: p in Do(w, step).rows.pendings && Do(w, step).rows.pendings[p].approved ==>
              (p in w.rows.pendings && w.rows.pendings[p].approved) || step == Step.Answer(p, true)
  {
    hide SweepJob, Enabled;
    SweptRequests(w.rows, step.claude, step.retry, step.source);
  }

  lemma RequestStep(w: World, step: Step)
    requires Enabled(w, step)
    ensures KeepsRequests(w.rows, Do(w, step).rows)
    ensures forall p :: p in Do(w, step).rows.pendings && Do(w, step).rows.pendings[p].approved ==>
              (p in w.rows.pendings && w.rows.pendings[p].approved) || step == Step.Answer(p, true)
  {
    hide Enabled, Do, KeepsRequests;
    if step.PersistDone? || step.PersistWaiting? || step.PersistCancelled? || step.Ask? || step.Raise? {
      AttemptAnswers(w, step);
    } else if step.Attach? || step.MarkStarted? || step.Register? || step.Resume? || step.RaiseClaim? || step.Crash? {
      ClaimAnswers(w, step);
    } else if step.CancelQueued? || step.CancelWaiting? || step.CancelRunning? || step.DropQueued? {
      CancelAnswers(w, step);
    } else if step.RecordFailure? || step.Answer? || step.CloseQuestions? {
      OtherAnswers(w, step);
    } else if step.Reroute? {
      MoveAnswers(w, step);
    } else {
      RestartAnswers(w, step);
    }
  }

  /** In every run: a request that was answered keeps that answer for good. */
  lemma {:induction false} AnswersStand(w: World, steps: seq<Step>)
    requires SafeRun(w, steps)
    ensures KeepsRequests(w.rows, Run(w, steps).rows)
    decreases |steps|
  {
    hide Enabled, Do, Safe;
    if steps != [] {
      RequestStep(w, steps[0]);
      AnswersStand(Do(w, steps[0]), steps[1..]);
    }
  }

  /** In every run: an approval that counts as given was given, by an answer that said so. */
  lemma {:induction false} ApprovedWasApproved(w: World, steps: seq<Step>, p: PendingId)
    requires Enqueued(w) && SafeRun(w, steps)
    requires p in Run(w, steps).rows.pendings && Run(w, steps).rows.pendings[p].approved
    ensures Step.Answer(p, true) in steps
    decreases |steps|
  {
    hide Enabled, Do, Safe;
    SafeRunSplit(w, steps);
    var front, last := steps[..|steps| - 1], steps[|steps| - 1];
    RequestStep(Run(w, front), last);
    if last != Step.Answer(p, true) {
      ApprovedWasApproved(w, front, p);
    }
  }

  /** And an answer is stored as it was given: from then on the request is settled with that answer, in
      every continuation of the run. */
  lemma AnswerIsKept(w: World, p: PendingId, approved: bool, steps: seq<Step>)
    requires Enabled(w, Step.Answer(p, approved)) && SafeRun(Do(w, Step.Answer(p, approved)), steps)
    ensures var r := Run(Do(w, Step.Answer(p, approved)), steps).rows;
            p in r.pendings && !r.pendings[p].open && r.pendings[p].approved == approved
  {
    AnswersStand(Do(w, Step.Answer(p, approved)), steps);
    hide SafeRun, Run;
  }

  // What each transaction writes.

  /** Nothing but the turn, its message, the requests and the job's status may differ. */
  ghost predicate OnlyTurn(rows: Rows, r: Rows, t: TurnId, turn: Turn) {
    r.agent == rows.agent && r.turns == rows.turns[t := turn]
  }

  /** The turn's message is kept, or one is stored with it now. */
  ghost predicate WithMessage(rows: Rows, r: Rows, t: TurnId, m: MessageId, time: nat)
    requires t in rows.turns
  {
    r.user == if exists n :: n in rows.user && rows.user[n].turn == t then rows.user
              else rows.user[m := UserMessage(t, rows.turns[t].agent, time)]
  }

  /** Every open request of the turn is settled without approval, and no other changes. */
  ghost predicate SettledOf(rows: Rows, r: Rows, t: TurnId) {
    && r.pendings.Keys == rows.pendings.Keys
    && forall p :: p in rows.pendings ==>
         r.pendings[p]
         == if rows.pendings[p].open && rows.pendings[p].turn == t
            then Pending(t, rows.pendings[p].kind, rows.pendings[p].call, false, false) else rows.pendings[p]
  }

  /** A run that ends with a result leaves its turn done with that very result, its job done, and its
      message stored. */
  lemma DoneIs(rows: Rows, t: TurnId, m: MessageId, time: nat, result: Messages)
    requires t in rows.turns && !rows.turns[t].status.Cancelled?
    ensures var r := LifecycleModel.PersistDone(rows, t, m, time, result);
            && r.status.JobDone? && OnlyTurn(rows, r, t, Turn(rows.turns[t].agent, Done, Some(result)))
            && WithMessage(rows, r, t, m, time) && r.pendings == rows.pendings
  {
    SameUser(rows, t, Done, Some(result), m, time);
  }

  /** A run that pauses leaves its turn waiting with its checkpoint, the job as it was, and one open
      approval for each call that asked for one. */
  lemma WaitingIs(rows: Rows, t: TurnId, m: MessageId, time: nat, result: Messages, approvals: map<PendingId, CallId>)
    requires t in rows.turns && !rows.turns[t].status.Cancelled? && approvals.Keys !! rows.pendings.Keys
    ensures var r := LifecycleModel.PersistWaiting(rows, t, m, time, result, approvals);
            && r.status == rows.status && OnlyTurn(rows, r, t, Turn(rows.turns[t].agent, Waiting, Some(result)))
            && WithMessage(rows, r, t, m, time)
            && r.pendings.Keys == rows.pendings.Keys + approvals.Keys
            && (forall p :: p in rows.pendings ==> r.pendings[p] == rows.pendings[p])
            && (forall p :: p in approvals ==> r.pendings[p] == Pending(t, Approval, Some(approvals[p]), true, false))
  {
    SameUser(rows, t, Waiting, Some(result), m, time);
  }

  /** A turn that is cancelled while it runs loses its checkpoint, keeps or gets its message, and leaves
      none of its requests open; its job is cancelled. */
  lemma CancelledIs(rows: Rows, t: TurnId, m: MessageId, time: nat)
    requires t in rows.turns
    ensures var r := LifecycleModel.PersistCancelled(rows, t, m, time);
            !rows.turns[t].status.Cancelled? ==>
              && r.status.JobCancelled? && OnlyTurn(rows, r, t, Turn(rows.turns[t].agent, Cancelled, None))
              && WithMessage(rows, r, t, m, time) && SettledOf(rows, r, t)
    ensures var r := LifecycleModel.CancelRunning(rows, t, m, time);
            if rows.turns[t].status.Running? then
              && r.status.JobCancelled? && OnlyTurn(rows, r, t, Turn(rows.turns[t].agent, Cancelled, None))
              && WithMessage(rows, r, t, m, time) && SettledOf(rows, r, t)
            else r == rows
  {
    SameUser(rows, t, Cancelled, None, m, time);
  }

  /** A paused turn that is cancelled loses its checkpoint and its open requests; a queued one keeps what
      it has. Any other turn is left alone. */
  lemma CancelPausedIs(rows: Rows, t: TurnId)
    requires t in rows.turns
    ensures var r := LifecycleModel.CancelWaiting(rows, t);
            if rows.turns[t].status.Waiting? then
              && r.status.JobCancelled? && OnlyTurn(rows, r, t, Turn(rows.turns[t].agent, Cancelled, None))
              && r.user == rows.user && SettledOf(rows, r, t)
            else r == rows
    ensures var r := LifecycleModel.CancelQueued(rows, t);
            if rows.turns[t].status.Queued? then
              && r.status.JobCancelled?
              && OnlyTurn(rows, r, t, Turn(rows.turns[t].agent, Cancelled, rows.turns[t].result))
              && r.user == rows.user && r.pendings == rows.pendings
            else r == rows
  {
  }

  /** A recorded failure: a live turn that does not wait for the user fails, with its checkpoint gone, its
      requests settled and its message stored. A job that is to run or running fails, unless the turn found
      has ended or waits for the user. */
  lemma FailedIs(rows: Rows, found: Option<TurnId>, m: MessageId, time: nat)
    ensures var r := Fail(rows, found, m, time);
            var failed := if rows.status.JobQueued? || rows.status.JobStarted? then JobFailed else rows.status;
            if found.None? || found.value !in rows.turns then
              r == Rows(failed, rows.agent, rows.turns, rows.user, rows.pendings)
            else
              var t, turn := found.value, rows.turns[found.value];
              var held := exists p :: p in rows.pendings && rows.pendings[p].open && rows.pendings[p].turn == t
                                      && rows.pendings[p].kind != Question(false);
              if turn.status.Queued? then r == Rows(failed, rows.agent, rows.turns, rows.user, rows.pendings)
              else if turn.status.Running? || (turn.status.Waiting? && !held) then
                && r.status == failed && OnlyTurn(rows, r, t, Turn(turn.agent, Failed, None))
                && WithMessage(rows, r, t, m, time) && SettledOf(rows, r, t)
              else r == rows
  {
    if found.Some? && found.value in rows.turns {
      SameUser(rows, found.value, Failed, None, m, time);
      HeldIs(rows, found.value);
      hide HasWaiting, HasUser;
    }
  }

  /** What holds a turn: an open approval, or an open question that was asked to block. */
  lemma HeldIs(rows: Rows, t: TurnId)
    ensures HasWaiting(rows, t)
            <==> exists p :: p in rows.pendings && rows.pendings[p].open && rows.pendings[p].turn == t
                             && rows.pendings[p].kind != Question(false)
  {
    if p :| p in rows.pendings && rows.pendings[p].open && rows.pendings[p].turn == t
            && rows.pendings[p].kind != Question(false) {
      assert OpenFor(rows.pendings[p], t) && Blocks(rows.pendings[p].kind);
    }
    if HasWaiting(rows, t) {
      var p :| p in rows.pendings && OpenFor(rows.pendings[p], t) && Blocks(rows.pendings[p].kind);
      assert rows.pendings[p].kind != Question(false);
    }
  }

  /** A question: it is open from then on, and the turn waits for it exactly when it blocks. */
  lemma AskedIs(rows: Rows, t: TurnId, p: PendingId, blocking: bool)
    requires t in rows.turns
    ensures var r := LifecycleModel.Ask(rows, t, p, blocking);
            && r.status == rows.status && r.user == rows.user
            && r.pendings == rows.pendings[p := Pending(t, Question(blocking), None, true, false)]
            && OnlyTurn(rows, r, t, if blocking then rows.turns[t].(status := Waiting) else rows.turns[t])
  {
  }

  /** A claimed job runs on its own lane: the queued turn it had, with its messages, or a new one. */
  lemma RegisteredIs(rows: Rows, t: TurnId)
    ensures var r := LifecycleModel.Register(rows, t);
            && r.status == rows.status && r.pendings == rows.pendings
            && OnlyTurn(rows, r, t, Turn(rows.agent, Running, if t in rows.turns then rows.turns[t].result else None))
            && r.user.Keys == rows.user.Keys
            && (forall n :: n in rows.user ==>
                  r.user[n] == if t in rows.turns && rows.user[n].turn == t
                               then UserMessage(t, rows.agent, rows.user[n].time) else rows.user[n])
  {
  }

  /** A turn resumed from its answers runs again, with its checkpoint. */
  lemma ResumedIs(rows: Rows, t: TurnId)
    requires LiveTurn(rows, t)
    ensures var r := LifecycleModel.Resume(rows, t);
            && r.status == rows.status && r.user == rows.user && r.pendings == rows.pendings
            && OnlyTurn(rows, r, t, Turn(rows.turns[t].agent, Running, rows.turns[t].result))
  {
    assert rows.turns[t := rows.turns[t]] == rows.turns;
  }

  /** A routed message comes with its turn: queued to run, or done when the message was an answer. */
  lemma AttachedIs(rows: Rows, t: TurnId, m: MessageId, time: nat, consumed: bool)
    ensures var r := LifecycleModel.Attach(rows, t, m, time, consumed);
            && r.status == rows.status && r.pendings == rows.pendings
            && OnlyTurn(rows, r, t, Turn(rows.agent, if consumed then Done else Queued, None))
            && r.user == rows.user[m := UserMessage(t, rows.agent, time)]
  {
  }

  /** Once the questions of a lane are answered, exactly its paused turns with nothing open that holds them
      and no approval among the calls of their latest response are done, each with its checkpoint; the job
      is done with them if it was to run or running. */
  lemma ClosedIs(rows: Rows, lane: AgentId)
    ensures var r := LifecycleModel.CloseQuestions(rows, lane);
            && r.agent == rows.agent && r.user == rows.user && r.pendings == rows.pendings
            && r.turns.Keys == rows.turns.Keys
            && (forall t :: t in rows.turns ==>
                  r.turns[t] == if Free(rows, lane, t) then rows.turns[t].(status := Done) else rows.turns[t])
            && r.status == if (rows.status.JobQueued? || rows.status.JobStarted?)
                              && exists t :: t in rows.turns && Free(rows, lane, t) then JobDone else rows.status
  {
    forall t | t in rows.turns
      ensures Closable(rows, lane, t) <==> Free(rows, lane, t)
    {
      FreeIs(rows, lane, t);
    }
    hide Closable, Free;
  }

  predicate Free(rows: Rows, lane: AgentId, t: TurnId)
    requires t in rows.turns
  {
    var turn := rows.turns[t];
    && turn.agent == lane && turn.status.Waiting?
    && (forall p :: p in rows.pendings && rows.pendings[p].turn == t ==>
          && (rows.pendings[p].open ==> rows.pendings[p].kind == Question(false))
          && (rows.pendings[p].kind.Approval? ==>
                && turn.result.Some? && turn.result.value.Response?
                && (rows.pendings[p].call.None? || rows.pendings[p].call.value !in turn.result.value.calls)))
  }

  lemma FreeIs(rows: Rows, lane: AgentId, t: TurnId)
    requires t in rows.turns
    ensures Closable(rows, lane, t) <==> Free(rows, lane, t)
  {
    hide HasWaiting;
    HeldIs(rows, t);
  }

  /** A job that is moved is queued on the other lane. Its queued turn goes there with its messages; the
      messages of an attempt that was cancelled on the old lane go to a new queued turn there; every other
      turn and message stays, with the time every message has. */
  lemma ParkedIs(rows: Rows, lane: AgentId, retry: TurnId)
    requires retry !in rows.turns
    ensures var r := Park(rows, lane, retry);
            var left := exists n :: n in rows.user && OnOldLane(rows, rows.user[n].turn, Cancelled);
            && r.status.JobQueued? && r.agent == lane && r.pendings == rows.pendings
            && r.turns.Keys == rows.turns.Keys + (if left then {retry} else {})
            && (left ==> r.turns[retry] == Turn(lane, Queued, None))
            && (forall t :: t in rows.turns ==>
                  r.turns[t] == if OnOldLane(rows, t, Queued) then rows.turns[t].(agent := lane) else rows.turns[t])
            && r.user.Keys == rows.user.Keys
            && (forall n :: n in rows.user ==>
                  var m := rows.user[n];
                  r.user[n] == if OnOldLane(rows, m.turn, Queued) then UserMessage(m.turn, lane, m.time)
                               else if OnOldLane(rows, m.turn, Cancelled) then UserMessage(retry, lane, m.time)
                               else m)
  {
    forall t
      ensures OnOldLane(rows, t, Cancelled) <==> CarriedCancelled(rows, t)
      ensures OnOldLane(rows, t, Queued) <==> Carried(rows, t) && rows.turns[t].status.Queued?
    {
    }
    hide CarriedCancelled, Carried, OnOldLane;
  }

  predicate OnOldLane(rows: Rows, t: TurnId, status: TurnStatus) {
    t in rows.turns && rows.turns[t].agent == rows.agent && rows.turns[t].status == status
  }

  /** What a reroute finds running or waiting is cancelled first. */
  lemma StoppedIs(rows: Rows, live: Option<TurnId>, m: MessageId, time: nat)
    requires live.Some? ==> LiveTurn(rows, live.value)
    ensures var r := Stopped(rows, live, m, time);
            if live.None? then r == rows
            else
              && r.status.JobCancelled?
              && OnlyTurn(rows, r, live.value, Turn(rows.turns[live.value].agent, Cancelled, None))
              && SettledOf(rows, r, live.value)
              && (r.user == rows.user || WithMessage(rows, r, live.value, m, time))
  {
    hide LifecycleModel.CancelWaiting, LifecycleModel.CancelRunning, WithMessage;
    if live.Some? {
      CancelPausedIs(rows, live.value);
      CancelledIs(LifecycleModel.CancelWaiting(rows, live.value), live.value, m, time);
    }
  }

  // The startup sweep of one job.

  predicate AskedOpen(rows: Rows, t: TurnId) {
    exists p :: p in rows.pendings && rows.pendings[p].open && rows.pendings[p].turn == t
  }

  /** A request of the turn that was settled, and is a call of its latest response if it has one. */
  predicate Saved(rows: Rows, t: TurnId, p: PendingId)
    requires t in rows.turns && p in rows.pendings && rows.turns[t].result.Some?
  {
    var q, calls := rows.pendings[p], rows.turns[t].result.value;
    q.turn == t && q.call.Some? && !q.open && (calls.NoResponse? || q.call.value in calls.calls)
  }

  /** A Claude turn that a restart cannot bring back: it ran, waited, or has something open. */
  predicate Cut(rows: Rows, t: TurnId) {
    t in rows.turns && (rows.turns[t].status.Running? || rows.turns[t].status.Waiting? || AskedOpen(rows, t))
  }

  lemma CutIs(rows: Rows, t: TurnId)
    ensures Cut(rows, t) <==> Stalled(rows, t)
    ensures AskedOpen(rows, t) <==> HasOpen(rows, t)
  {
    if p :| p in rows.pendings && rows.pendings[p].open && rows.pendings[p].turn == t {
      assert OpenFor(rows.pendings[p], t);
    }
  }

  /** After a restart a turn is resumed if and only if its job was started and no Claude run was cut off, no
      paused turn of the job still has an open request, and the turn ran or waited with a checkpoint and
      some request settled for a call it really paused on. */
  lemma ResumedIff(rows: Rows, claude: bool, retry: TurnId, source: TurnId, t: TurnId)
    ensures t in SweepJob(rows, claude, retry, source).resume
            <==> rows.status.JobStarted? && !(claude && exists u :: Cut(rows, u))
                 && (forall u :: u in rows.turns && rows.turns[u].status.Waiting? ==> !AskedOpen(rows, u))
                 && t in rows.turns && (rows.turns[t].status.Running? || rows.turns[t].status.Waiting?)
                 && rows.turns[t].result.Some? && exists p :: p in rows.pendings && Saved(rows, t, p)
  {
    forall u
      ensures Cut(rows, u) <==> Stalled(rows, u)
      ensures AskedOpen(rows, u) <==> HasOpen(rows, u)
    {
      CutIs(rows, u);
    }
    ReadyIs(rows, t);
    hide Cut, AskedOpen, HasOpen, Stalled, Ready, Saved, Interrupt, PreserveMessage, CloseCrashed;
  }

  lemma ReadyIs(rows: Rows, t: TurnId)
    ensures Ready(rows, t)
            <==> t in rows.turns && (rows.turns[t].status.Running? || rows.turns[t].status.Waiting?)
                 && rows.turns[t].result.Some? && exists p :: p in rows.pendings && Saved(rows, t, p)
  {
    if t in rows.turns && rows.turns[t].result.Some? {
      forall p | p in rows.pendings
        ensures SavedFor(rows.pendings[p], t, rows.turns[t].result) <==> Saved(rows, t, p)
      {
      }
    }
  }

  /** The decisions a turn is resumed with: for each saved call, whether it was approved. */
  function Decisions(rows: Rows, t: TurnId): set<(CallId, bool)>
    requires t in rows.turns && rows.turns[t].result.Some?
  {
    set p | p in rows.pendings && Saved(rows, t, p) :: (rows.pendings[p].call.value, rows.pendings[p].approved)
  }

  /** In every run: a turn is resumed with an approval of a call only if that call was approved. */
  lemma ResumedAsAnswered(w: World, steps: seq<Step>, t: TurnId, call: CallId)
    requires Enqueued(w) && SafeRun(w, steps)
    requires t in Run(w, steps).rows.turns && Run(w, steps).rows.turns[t].result.Some?
    requires (call, true) in Decisions(Run(w, steps).rows, t)
    ensures exists p :: p in Run(w, steps).rows.pendings && Step.Answer(p, true) in steps
                        && Run(w, steps).rows.pendings[p].turn == t && Run(w, steps).rows.pendings[p].call == Some(call)
  {
    hide Run, SafeRun, Enqueued;
    var rows := Run(w, steps).rows;
    var p :| && p in rows.pendings && Saved(rows, t, p)
             && (rows.pendings[p].call.value, rows.pendings[p].approved) == (call, true);
    ApprovedWasApproved(w, steps, p);
  }

  /** A job of a Claude bot whose run was cut off is cancelled: exactly the turns that were cut off are
      interrupted, and exactly their open requests are settled, without approval. */
  lemma InterruptedIs(rows: Rows, retry: TurnId, source: TurnId)
    requires rows.status.JobStarted? && exists t :: Cut(rows, t)
    ensures var r := SweepJob(rows, true, retry, source).rows;
            && r.status.JobCancelled? && r.agent == rows.agent && r.user == rows.user
            && r.turns.Keys == rows.turns.Keys && r.pendings.Keys == rows.pendings.Keys
            && (forall t :: t in rows.turns ==>
                  r.turns[t] == if Cut(rows, t) then rows.turns[t].(status := Interrupted) else rows.turns[t])
            && (forall p :: p in rows.pendings ==>
                  r.pendings[p] == if rows.pendings[p].open && Cut(rows, rows.pendings[p].turn)
                                   then rows.pendings[p].(open := false, approved := false) else rows.pendings[p])
  {
    forall u
      ensures Cut(rows, u) <==> Stalled(rows, u)
    {
      CutIs(rows, u);
    }
    hide Cut, Stalled;
  }

  /** A crashed attempt has left nothing to go on from. */
  predicate NothingLeft(rows: Rows) {
    && rows.status.JobStarted?
    && (forall t :: t in rows.turns ==> !rows.turns[t].status.Waiting? && rows.turns[t].result.None?)
    && (rows.turns == map[] || exists t :: t in rows.turns && !rows.turns[t].status.Cancelled?)
  }

  /** A started job with nothing waiting and no checkpoint is queued again. Its running turns have failed;
      the messages of its failed attempts go to one new queued turn, on the lane of the attempt it copies,
      each with its time; and no other turn, message or request changes. */
  lemma RequeuedIs(rows: Rows, claude: bool, retry: TurnId, source: TurnId)
    requires NothingLeft(rows) && !(claude && exists t :: Cut(rows, t)) && retry !in rows.turns
    requires source in rows.turns
    ensures var r := SweepJob(rows, claude, retry, source);
            var left := exists n :: n in rows.user && HasFailed(rows, rows.user[n].turn);
            && r.resume == {}
            && r.rows.status.JobQueued? && r.rows.agent == rows.agent && r.rows.pendings == rows.pendings
            && r.rows.turns.Keys == rows.turns.Keys + (if left then {retry} else {})
            && (left ==> r.rows.turns[retry] == Turn(rows.turns[source].agent, Queued, None))
            && (forall t :: t in rows.turns ==>
                  r.rows.turns[t] == if rows.turns[t].status.Running? then rows.turns[t].(status := Failed)
                      else rows.turns[t])
            && r.rows.user.Keys == rows.user.Keys
            && (forall n :: n in rows.user ==>
                  r.rows.user[n] == if HasFailed(rows, rows.user[n].turn)
                                    then UserMessage(retry, rows.user[n].agent, rows.user[n].time) else rows.user[n])
  {
    forall u
      ensures Cut(rows, u) <==> Stalled(rows, u)
      ensures HasFailed(rows, u) <==> HasStatus(CloseCrashed(rows), u, Failed)
    {
      CutIs(rows, u);
    }
    hide Cut, Stalled, HasFailed, HasStatus, StillAsked;
  }

  predicate HasFailed(rows: Rows, t: TurnId) {
    t in rows.turns && (rows.turns[t].status.Running? || rows.turns[t].status.Failed?)
  }

  /** Every other started job is left alone, but for one all of whose attempts were cancelled: it is
      cancelled too. */
  lemma LeftAloneIs(rows: Rows, claude: bool, retry: TurnId, source: TurnId)
    requires !NothingLeft(rows) && !(rows.status.JobStarted? && claude && exists t :: Cut(rows, t))
    ensures var r := SweepJob(rows, claude, retry, source).rows;
            r == if rows.status.JobStarted? && SweepJob(rows, claude, retry, source).resume == {}
                    && rows.turns != map[] && (forall t :: t in rows.turns ==> rows.turns[t].status.Cancelled?)
                 then Rows(JobCancelled, rows.agent, rows.turns, rows.user, rows.pendings) else rows
  {
    forall u
      ensures Cut(rows, u) <==> Stalled(rows, u)
    {
      CutIs(rows, u);
    }
    hide Cut, Stalled, StillAsked;
  }
}
