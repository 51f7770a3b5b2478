/** What holds in every run of one job, and exactly when the exceptions bite. */
module LifecycleResults {
  import opened LifecycleModel
  import opened Lifecycle
  import opened LifecycleSafety
  import opened LifecycleRuns
  import opened Options

  ghost predicate SafeRun(w: World, steps: seq<Step>)
    decreases |steps|
  {
    steps == [] || (Enabled(w, steps[0]) && Safe(w, steps[0]) && SafeRun(Do(w, steps[0]), steps[1..]))
  }

  ghost function Run(w: World, steps: seq<Step>): World
    requires SafeRun(w, steps)
    decreases |steps|
  {
    if steps == [] then w else Run(Do(w, steps[0]), steps[1..])
  }

  /** A job just enqueued: to run, to wait for the user's choice, or already consumed. */
  predicate Enqueued(w: World) {
    && (w.rows.status.JobQueued? || w.rows.status.JobWaiting? || w.rows.status.JobDone?)
    && w.rows.turns == map[] && w.rows.user == map[] && w.rows.pendings == map[]
    && w.attempts == {} && w.failing == {} && !w.claiming
  }

  lemma {:induction false} RunInv(w: World, steps: seq<Step>)
    requires Inv(w) && SafeRun(w, steps)
    ensures Inv(Run(w, steps))
    decreases |steps|
  {
    hide Inv, Do, Enabled, Safe;
    if steps != [] {
      InvStep(w, steps[0]);
      RunInv(Do(w, steps[0]), steps[1..]);
    }
  }

  lemma EnqueuedInv(w: World)
    requires Enqueued(w)
    ensures Inv(w)
  {
  }

  // One open turn.

  predicate OneOpen(rows: Rows) {
    forall t, u :: t in rows.turns && u in rows.turns && Open(rows.turns[t].status) && Open(rows.turns[u].status) ==>
      t == u
  }

  predicate OneMessage(rows: Rows) {
    forall m, n :: m in rows.user && n in rows.user ==> m == n
  }

  lemma InvOne(w: World)
    requires Inv(w)
    ensures OneOpen(w.rows) && OneMessage(w.rows)
  {
    forall t, u | t in w.rows.turns && u in w.rows.turns && Open(w.rows.turns[t].status) && Open(w.rows.turns[u].status)
      ensures t == u
    {
      assert Active(w, t) && Active(w, u);
    }
  }

  /** Through claims, pauses, cancels, failures, reroutes, crashes and sweeps, and with late
      attempts writing at any time, a job has at most one open turn and one user message. */
  lemma OneOpenTurn(w: World, steps: seq<Step>)
    requires Enqueued(w) && SafeRun(w, steps)
    ensures OneOpen(Run(w, steps).rows) && OneMessage(Run(w, steps).rows)
  {
    EnqueuedInv(w);
    RunInv(w, steps);
    InvOne(Run(w, steps));
  }

  /** A job that is to run has its message on the turn that will run. */
  lemma QueuedJobHasItsMessage(w: World, steps: seq<Step>, m: MessageId)
    requires Enqueued(w) && SafeRun(w, steps) && m in Run(w, steps).rows.user
    requires Run(w, steps).rows.status.JobQueued?
    ensures HasStatus(Run(w, steps).rows, Run(w, steps).rows.user[m].turn, Queued)
  {
    EnqueuedInv(w);
    RunInv(w, steps);
    var r := Run(w, steps);
    assert Active(r, r.rows.user[m].turn);
  }

  // The message.

  predicate KeepsMessages(rows: Rows, r: Rows) {
    forall m :: m in rows.user ==> m in r.user && r.user[m].time == rows.user[m].time
  }

  lemma MessageKeptByStep(w: World, step: Step)
    requires Enabled(w, step) && Safe(w, step)
    ensures KeepsMessages(w.rows, Do(w, step).rows)
  {
    hide KeepsMessages, Do, Enabled, Safe;
    if ByAttempt(step) {
      KeptByAttempt(w, step);
    } else if ByCancel(step) {
      KeptByCancel(w, step);
    } else if step.Sweep? {
      MessagesKeptBySweep(w, step);
    } else {
      KeptByOthers(w, step);
    }
  }

  /** A message that was stored is never lost, and keeps its id and time. */
  lemma {:induction false} MessageKept(w: World, steps: seq<Step>)
    requires SafeRun(w, steps)
    ensures KeepsMessages(w.rows, Run(w, steps).rows)
    decreases |steps|
  {
    hide Do, Enabled, Safe;
    if steps != [] {
      MessageKeptByStep(w, steps[0]);
      MessageKept(Do(w, steps[0]), steps[1..]);
    }
  }

  // Cancelled turns.

  ghost predicate KeepsCancelled(rows: Rows, r: Rows) {
    forall t :: HasStatus(rows, t, Cancelled) ==> t in r.turns && r.turns[t] == rows.turns[t]
  }

  predicate ByAttempt(step: Step) {
    step.PersistDone? || step.PersistWaiting? || step.PersistCancelled? || step.Ask? || step.Raise?
  }

  predicate ByCancel(step: Step) {
    step.CancelQueued? || step.CancelWaiting? || step.CancelRunning? || step.Reroute? || step.DropQueued?
  }

  /** What no transaction but a blocking question of a cancelled attempt may do. */
  ghost predicate Keeps(rows: Rows, r: Rows) {
    KeepsCancelled(rows, r) && KeepsMessages(rows, r)
  }

  lemma SetTurnKeeps(rows: Rows, t: TurnId, status: TurnStatus, result: Option<Messages>)
    requires t in rows.turns && !rows.turns[t].status.Cancelled?
    ensures Keeps(rows, SetTurn(rows, t, status, result))
  {
  }

  lemma WithUserKeeps(rows: Rows, r: Rows, t: TurnId, m: MessageId, agent: AgentId, time: nat)
    requires Keeps(rows, r) && m !in r.user
    ensures Keeps(rows, WithUser(r, t, m, agent, time))
  {
    hide HasUser;
  }

  lemma ResolvedKeeps(rows: Rows, r: Rows, t: TurnId)
    requires Keeps(rows, r)
    ensures Keeps(rows, Resolved(r, t))
  {
  }

  /** Only turns and messages matter. */
  lemma KeepsBut(rows: Rows, r: Rows, s: Rows)
    requires Keeps(rows, r) && s.turns == r.turns && s.user == r.user
    ensures Keeps(rows, s)
  {
  }

  lemma PersistKeeps(rows: Rows, t: TurnId, m: MessageId, time: nat, result: Messages,
                     approvals: map<PendingId, CallId>)
    requires t in rows.turns && m !in rows.user
    ensures Keeps(rows, LifecycleModel.PersistDone(rows, t, m, time, result))
    ensures Keeps(rows, LifecycleModel.PersistWaiting(rows, t, m, time, result, approvals))
  {
    hide Keeps, WithUser;
    SameRowsKeep(rows);
    if !rows.turns[t].status.Cancelled? {
      SetTurnKeeps(rows, t, Done, Some(result));
      SetTurnKeeps(rows, t, Waiting, Some(result));
      var done, paused := SetTurn(rows, t, Done, Some(result)), SetTurn(rows, t, Waiting, Some(result));
      WithUserKeeps(rows, done, t, m, rows.turns[t].agent, time);
      WithUserKeeps(rows, paused, t, m, rows.turns[t].agent, time);
      KeepsBut(rows, WithUser(done, t, m, rows.turns[t].agent, time),
               LifecycleModel.PersistDone(rows, t, m, time, result));
      KeepsBut(rows, WithUser(paused, t, m, rows.turns[t].agent, time),
               LifecycleModel.PersistWaiting(rows, t, m, time, result, approvals));
    }
  }

  lemma SameRowsKeep(rows: Rows)
    ensures Keeps(rows, rows)
  {
  }

  lemma CancelKeeps(rows: Rows, t: TurnId, m: MessageId, time: nat)
    requires t in rows.turns && m !in rows.user
    ensures Keeps(rows, LifecycleModel.PersistCancelled(rows, t, m, time))
    ensures Keeps(rows, LifecycleModel.CancelRunning(rows, t, m, time))
  {
    hide Keeps, WithUser, Resolved;
    SameRowsKeep(rows);
    if !rows.turns[t].status.Cancelled? {
      var cancelled := SetTurn(rows, t, Cancelled, None);
      SetTurnKeeps(rows, t, Cancelled, None);
      WithUserKeeps(rows, cancelled, t, m, rows.turns[t].agent, time);
      var with := WithUser(cancelled, t, m, rows.turns[t].agent, time);
      KeepsBut(rows, with, with.(status := JobCancelled));
      ResolvedKeeps(rows, with.(status := JobCancelled), t);
    }
  }

  lemma CancelPausedKeeps(rows: Rows, t: TurnId)
    requires t in rows.turns
    ensures Keeps(rows, LifecycleModel.CancelWaiting(rows, t)) && Keeps(rows, LifecycleModel.CancelQueued(rows, t))
  {
    hide Resolved;
    if rows.turns[t].status.Waiting? {
      var cancelled := SetTurn(rows, t, Cancelled, None).(status := JobCancelled);
      assert Keeps(rows, cancelled);
      ResolvedKeeps(rows, cancelled, t);
    }
  }

  lemma KeptByAttempt(w: World, step: Step)
    requires Enabled(w, step) && Safe(w, step) && ByAttempt(step)
    ensures Keeps(w.rows, Do(w, step).rows)
  {
    hide Keeps, LifecycleModel.PersistDone, LifecycleModel.PersistWaiting, LifecycleModel.PersistCancelled, HasWaiting;
    SameRowsKeep(w.rows);
    match step
    case PersistDone(t, m, time, result) => PersistKeeps(w.rows, t, m, time, result, map[]);
    case PersistWaiting(t, m, time, result, approvals) => PersistKeeps(w.rows, t, m, time, result, approvals);
    case PersistCancelled(t, m, time) => CancelKeeps(w.rows, t, m, time);
    case Ask(t, p, blocking) => AskKeeps(w.rows, t, p, blocking);
    case Raise(_, _) =>
  }

  lemma AskKeeps(rows: Rows, t: TurnId, p: PendingId, blocking: bool)
    requires t in rows.turns && !rows.turns[t].status.Cancelled?
    ensures Keeps(rows, LifecycleModel.Ask(rows, t, p, blocking))
  {
  }

  lemma KeptByCancel(w: World, step: Step)
    requires Enabled(w, step) && ByCancel(step)
    ensures Keeps(w.rows, Do(w, step).rows)
  {
    hide Keeps, LifecycleModel.CancelRunning, LifecycleModel.CancelWaiting, LifecycleModel.CancelQueued, Stopped, Park;
    SameRowsKeep(w.rows);
    match step
    case CancelQueued(t) => CancelPausedKeeps(w.rows, t);
    case CancelWaiting(t) => CancelPausedKeeps(w.rows, t);
    case CancelRunning(t, m, time) => CancelKeeps(w.rows, t, m, time);
    case Reroute(lane, retry, live, m, time) =>
      StoppedKeeps(w.rows, live, m, time);
      var stopped := Stopped(w.rows, live, m, time);
      ParkKeeps(stopped, lane, retry);
      KeepsOn(w.rows, stopped, Park(stopped, lane, retry));
    case DropQueued => KeepsBut(w.rows, w.rows, w.rows.(status := JobCancelled));
  }

  lemma StoppedKeeps(rows: Rows, live: Option<TurnId>, m: MessageId, time: nat)
    requires (live.Some? ==> live.value in rows.turns) && m !in rows.user
    ensures Keeps(rows, Stopped(rows, live, m, time)) && Stopped(rows, live, m, time).turns.Keys == rows.turns.Keys
  {
    hide Keeps, HasUser;
    SameRowsKeep(rows);
    if live.Some? {
      CancelPausedKeeps(rows, live.value);
      var paused := LifecycleModel.CancelWaiting(rows, live.value);
      CancelKeeps(paused, live.value, m, time);
      KeepsOn(rows, paused, LifecycleModel.CancelRunning(paused, live.value, m, time));
    }
  }

  lemma KeepsOn(rows: Rows, r: Rows, s: Rows)
    requires Keeps(rows, r) && Keeps(r, s)
    ensures Keeps(rows, s)
  {
  }

  lemma ParkKeeps(rows: Rows, lane: AgentId, retry: TurnId)
    requires retry !in rows.turns
    ensures Keeps(rows, Park(rows, lane, retry))
  {
  }

  lemma CancelledKeptBySweep(w: World, step: Step)
    requires RequestsFit(w.rows) && Enabled(w, step) && step.Sweep?
    ensures KeepsCancelled(w.rows, Do(w, step).rows)
  {
    hide HasOpen, RequestsFit, SweepJob;
    forall t | HasStatus(w.rows, t, Cancelled)
      ensures !Stalled(w.rows, t)
    {
      CancelledAsksNothing(w.rows, t);
    }
    SweepKeepsCancelled(w.rows, step.claude, step.retry, step.source);
  }

  lemma SweepKeepsCancelled(rows: Rows, claude: bool, retry: TurnId, source: TurnId)
    requires retry !in rows.turns && forall t :: HasStatus(rows, t, Cancelled) ==> !Stalled(rows, t)
    ensures KeepsCancelled(rows, SweepJob(rows, claude, retry, source).rows)
  {
    hide Answered, Stalled;
  }

  lemma MessagesKeptBySweep(w: World, step: Step)
    requires Enabled(w, step) && step.Sweep?
    ensures KeepsMessages(w.rows, Do(w, step).rows)
  {
    hide Answered, Stalled, HasStatus;
  }

  lemma KeptByOthers(w: World, step: Step)
    requires Enabled(w, step) && !ByAttempt(step) && !ByCancel(step) && !step.Sweep?
    ensures Keeps(w.rows, Do(w, step).rows)
  {
    hide Keeps, Fail, LifecycleModel.CloseQuestions, Finds;
    SameRowsKeep(w.rows);
    match step
    case RecordFailure(_, found, m, time) => FailKeeps(w.rows, found, m, time);
    case CloseQuestions(lane) => ClosingKeeps(w.rows, lane);
    case Attach(t, m, time, consumed) => StartKeeps(w.rows, t, m, time, consumed);
    case Register(t) => RegisterKeeps(w.rows, t);
    case Resume(t) => StartKeeps(w.rows, t, 0, 0, false);
    case MarkStarted(_) => KeepsBut(w.rows, w.rows, Do(w, step).rows);
    case Answer(_, _) => KeepsBut(w.rows, w.rows, Do(w, step).rows);
    case _ =>
  }

  lemma FailKeeps(rows: Rows, t: Option<TurnId>, m: MessageId, time: nat)
    requires m !in rows.user
    ensures Keeps(rows, Fail(rows, t, m, time))
  {
    hide HasWaiting, HasUser;
  }

  lemma ClosingKeeps(rows: Rows, lane: AgentId)
    ensures Keeps(rows, LifecycleModel.CloseQuestions(rows, lane))
  {
    hide HasWaiting, HasDeferredApproval;
  }

  lemma StartKeeps(rows: Rows, t: TurnId, m: MessageId, time: nat, consumed: bool)
    ensures t !in rows.turns && m !in rows.user ==> Keeps(rows, LifecycleModel.Attach(rows, t, m, time, consumed))
    ensures t in rows.turns ==> Keeps(rows, LifecycleModel.Resume(rows, t))
  {
  }

  lemma RegisterKeeps(rows: Rows, t: TurnId)
    requires t in rows.turns ==> rows.turns[t].status.Queued?
    ensures Keeps(rows, LifecycleModel.Register(rows, t))
  {
  }

  lemma CancelledKeptByStep(w: World, step: Step)
    requires Inv(w) && Enabled(w, step) && Safe(w, step)
    ensures KeepsCancelled(w.rows, Do(w, step).rows)
  {
    hide TurnsFit, MessageFits, RequestsFit, KeepsCancelled, Do, Enabled, Safe;
    if ByAttempt(step) {
      KeptByAttempt(w, step);
    } else if ByCancel(step) {
      KeptByCancel(w, step);
    } else if step.Sweep? {
      CancelledKeptBySweep(w, step);
    } else {
      KeptByOthers(w, step);
    }
  }

  lemma CancelledAsksNothing(rows: Rows, t: TurnId)
    requires RequestsFit(rows) && HasStatus(rows, t, Cancelled)
    ensures !HasOpen(rows, t)
  {
    forall p | p in rows.pendings
      ensures !OpenFor(rows.pendings[p], t)
    {
      assert RequestFits(rows, rows.pendings[p]);
    }
  }

  /** A cancel is final: whatever comes later, the turn's row stays as the cancel left it. */
  lemma {:induction false} CancelIsFinal(w: World, steps: seq<Step>)
    requires Inv(w) && SafeRun(w, steps)
    ensures KeepsCancelled(w.rows, Run(w, steps).rows)
    decreases |steps|
  {
    hide Inv, Do, Enabled, Safe;
    if steps != [] {
      InvStep(w, steps[0]);
      CancelledKeptByStep(w, steps[0]);
      CancelIsFinal(Do(w, steps[0]), steps[1..]);
    }
  }

  /** A step that an attempt takes at its end: it persists, or raises and records its failure. */
  predicate EndOf(step: Step, t: TurnId) {
    match step
    case PersistDone(u, _, _, _) => u == t
    case PersistWaiting(u, _, _, _, _) => u == t
    case PersistCancelled(u, _, _) => u == t
    case Raise(u, _) => u == t
    case RecordFailure(named, _, _, _) => named == Some(t)
    case _ => false
  }

  /** Whatever a cancelled attempt does at its end, however late and often, no row changes: not
      its turn, nor the job, the message or a request, requeued or not. */
  lemma {:induction false} CancelledAttemptIsSilent(w: World, steps: seq<Step>, t: TurnId)
    requires HasStatus(w.rows, t, Cancelled) && SafeRun(w, steps) && forall step :: step in steps ==> EndOf(step, t)
    ensures Run(w, steps).rows == w.rows
    decreases |steps|
  {
    hide Do, Enabled, Safe, EndOf;
    if steps != [] {
      assert steps[0] in steps;
      SilentStep(w, steps[0], t);
      CancelledAttemptIsSilent(Do(w, steps[0]), steps[1..], t);
    }
  }

  lemma SilentStep(w: World, step: Step, t: TurnId)
    requires HasStatus(w.rows, t, Cancelled) && Enabled(w, step) && EndOf(step, t)
    ensures Do(w, step).rows == w.rows
  {
    hide HasWaiting, HasUser;
  }

  // Approvals.

  /** No finished turn has an unanswered approval. */
  lemma FinishedTurnHasNoApproval(w: World, steps: seq<Step>, p: PendingId)
    requires Enqueued(w) && SafeRun(w, steps)
    requires p in Run(w, steps).rows.pendings && Run(w, steps).rows.pendings[p].open
    requires Run(w, steps).rows.pendings[p].kind.Approval?
    ensures LiveTurn(Run(w, steps).rows, Run(w, steps).rows.pendings[p].turn)
  {
    EnqueuedInv(w);
    RunInv(w, steps);
    assert RequestFits(Run(w, steps).rows, Run(w, steps).rows.pendings[p]);
  }

  // The steps that a run leaves out, and exactly when they are harmless.

  /** Attaching a message to a job keeps one open turn and one message just when the job has no
      open turn and no message yet: a job that was claimed in between has. */
  lemma AttachKeepsOneIff(rows: Rows, t: TurnId, m: MessageId, time: nat)
    requires OneOpen(rows) && OneMessage(rows) && t !in rows.turns && m !in rows.user
    ensures OneOpen(LifecycleModel.Attach(rows, t, m, time, false))
            && OneMessage(LifecycleModel.Attach(rows, t, m, time, false))
            <==> rows.user == map[] && forall u :: u in rows.turns ==> !Open(rows.turns[u].status)
  {
    var r := LifecycleModel.Attach(rows, t, m, time, false);
    assert t in r.turns && Open(r.turns[t].status) && m in r.user;
    if u :| u in rows.turns && Open(rows.turns[u].status) {
      assert u in r.turns && r.turns[u] == rows.turns[u];
    }
    if rows.user != map[] {
      assert rows.user.Keys != {};
      var n :| n in rows.user;
      assert n in r.user;
    }
  }

  /** Queueing on a lane stores the job before its message. A worker that claims it in between
      makes a turn of its own: two turns run one job, and it gets a second message. */
  lemma ClaimBeforeAttach(lane: AgentId, t: TurnId, u: TurnId, m: MessageId, n: MessageId, time: nat, result: Messages)
    requires t != u && m != n
    ensures var rows := Rows(JobQueued, lane, map[], map[], map[]);
            var running := LifecycleModel.Register(rows.(status := JobStarted), t);
            var attached := LifecycleModel.Attach(running, u, m, time, false);
            var done := LifecycleModel.PersistDone(attached, t, n, time, result);
            !OneOpen(attached) && !OneMessage(done)
  {
    var rows := Rows(JobQueued, lane, map[], map[], map[]);
    var running := LifecycleModel.Register(rows.(status := JobStarted), t);
    var attached := LifecycleModel.Attach(running, u, m, time, false);
    var done := LifecycleModel.PersistDone(attached, t, n, time, result);
    assert attached.turns[t].status.Running? && attached.turns[u].status.Queued?;
    assert forall x :: x in attached.user ==> x == m;
    assert !HasUser(attached, t);
    assert m in done.user && n in done.user;
  }

  /** A question of a cancelled attempt keeps its turn cancelled just when it does not block. One
      that blocks keeps one open turn just when the job has none: a requeued job has. */
  lemma AskKeepsOneIff(rows: Rows, t: TurnId, p: PendingId, blocking: bool)
    requires OneOpen(rows) && HasStatus(rows, t, Cancelled)
    ensures var r := LifecycleModel.Ask(rows, t, p, blocking);
            && (HasStatus(r, t, Cancelled) <==> !blocking)
            && (OneOpen(r) <==> !blocking || forall u :: u in rows.turns ==> !Open(rows.turns[u].status))
  {
    var r := LifecycleModel.Ask(rows, t, p, blocking);
    if blocking {
      assert OpenTurn(r, t);
      forall u | u in rows.turns && Open(rows.turns[u].status)
        ensures u != t && OpenTurn(r, u)
      {
        assert r.turns[u] == rows.turns[u];
      }
    } else {
      assert r.turns == rows.turns;
    }
  }

  /** A failure recorded by job spares every row just when the job is not to run, or the live
      turn it finds waits for the user. It may be a later attempt's turn. */
  lemma FailureByJobSparesIff(w: World, step: Step)
    requires Inv(w) && step.RecordFailure? && step.named.None? && Enabled(w, step)
    ensures Do(w, step).rows == w.rows
            <==> if step.found.None? then !(w.rows.status.JobQueued? || w.rows.status.JobStarted?)
                 else w.rows.turns[step.found.value].status.Waiting? && HasWaiting(w.rows, step.found.value)
  {
    hide Inv;
    if step.found.Some? {
      var t := step.found.value;
      if !(w.rows.turns[t].status.Waiting? && HasWaiting(w.rows, t)) {
        assert Do(w, step).rows.turns[t].status.Failed?;
      }
    }
  }

  /** The failure of a cancelled attempt, recorded late, fails the attempt that replaced it. */
  lemma LateFailureFailsRetry(w: World, t: TurnId, m: MessageId, time: nat)
    requires Inv(w) && None in w.failing && w.rows.status.JobStarted?
    requires HasStatus(w.rows, t, Running) && m !in w.rows.user
    ensures Enabled(w, RecordFailure(None, Some(t), m, time))
    ensures var r := Do(w, RecordFailure(None, Some(t), m, time));
            HasStatus(r.rows, t, Failed) && r.rows.status.JobFailed? && r.attempts == w.attempts
  {
    assert Active(w, t);
  }

  // The startup sweep.

  /** Every job that was started ends up queued with nothing running, cancelled, waiting, in the
      list to resume, or with a stored result. */
  lemma SweepClassifies(w: World, step: Step)
    requires Inv(w) && step.Sweep? && Enabled(w, step) && w.rows.status.JobStarted?
    ensures var r := SweepJob(w.rows, step.claude, step.retry, step.source);
            || (r.rows.status.JobQueued? && (forall t :: t in r.rows.turns ==> !Live(r.rows.turns[t].status)))
            || r.rows.status.JobCancelled?
            || (exists t :: t in r.rows.turns && r.rows.turns[t].status.Waiting?)
            || r.resume != {}
            || (exists t :: t in r.rows.turns && r.rows.turns[t].result.Some?)
  {
    hide Inv, Answered;
  }

  /** A turn is resumed only from answers that are all there, to calls it really paused on. */
  lemma ResumedIsAnswered(w: World, step: Step, t: TurnId)
    requires step.Sweep? && Enabled(w, step) && t in SweepJob(w.rows, step.claude, step.retry, step.source).resume
    ensures LiveTurn(w.rows, t) && w.rows.turns[t].result.Some?
    ensures HasStatus(w.rows, t, Waiting) ==> !HasOpen(w.rows, t)
    ensures exists p :: p in w.rows.pendings && SavedFor(w.rows.pendings[p], t, w.rows.turns[t].result)
  {
  }

  /** A second sweep changes nothing and finds the same work. */
  lemma SweepTwice(rows: Rows, claude: bool, retry: TurnId, source: TurnId, retry': TurnId, source': TurnId)
    ensures var once := SweepJob(rows, claude, retry, source);
            SweepJob(once.rows, claude, retry', source') == once
  {
    hide Answered, PreserveMessage, CloseCrashed, Stalled;
    assert Interrupt(rows).status.JobCancelled?;
    hide Interrupt;
  }
}
