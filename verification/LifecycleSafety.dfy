/** One open turn, one user message, final cancels: what every step keeps. */
module LifecycleSafety {
  import opened LifecycleModel
  import opened Lifecycle
  import opened Options

  /** A turn that is open, or that an attempt in memory may still write to. */
  predicate Active(w: World, t: TurnId) {
    t in w.rows.turns && (Open(w.rows.turns[t].status) || (t in w.attempts && !w.rows.turns[t].status.Cancelled?))
  }

  predicate Resting(status: JobStatus) {
    status.JobQueued? || status.JobWaiting? || status.JobCancelled?
  }

  predicate Undecided(status: JobStatus) {
    status.JobQueued? || status.JobWaiting? || status.JobStarted?
  }

  predicate Over(status: JobStatus) {
    status.JobDone? || status.JobFailed?
  }

  ghost predicate OneActive(w: World) {
    forall t, u :: Active(w, t) && Active(w, u) ==> t == u
  }

  /** What an active turn looks like, by the state of its job. */
  ghost predicate ActiveFits(w: World, t: TurnId) {
    && t in w.rows.turns
    && ((Resting(w.rows.status) || w.claiming) ==> w.rows.turns[t].status.Queued?)
    && (!w.rows.turns[t].status.Queued? ==> w.rows.turns[t].agent == w.rows.agent)
    && (t in w.attempts ==> !w.rows.turns[t].status.Queued?)
    && (!Open(w.rows.turns[t].status) ==> Over(w.rows.status))
  }

  ghost predicate TurnsFit(w: World) {
    && w.attempts <= w.rows.turns.Keys
    && (w.claiming ==> w.rows.status.JobStarted? || w.rows.status.JobFailed?)
    && OneActive(w)
    && (forall t :: Active(w, t) ==> ActiveFits(w, t))
  }

  /** The user's message is the only one; it is with the active turn, and a job still to be
      decided has it with an open turn. */
  ghost predicate MessageFits(w: World) {
    && (forall m, n :: m in w.rows.user && n in w.rows.user ==> m == n)
    && (forall m :: m in w.rows.user ==> w.rows.user[m].turn in w.rows.turns)
    && (forall m, t :: m in w.rows.user && Active(w, t) ==> w.rows.user[m].turn == t)
    && (forall m :: m in w.rows.user && (Undecided(w.rows.status) || w.claiming) ==>
          OpenTurn(w.rows, w.rows.user[m].turn))
  }

  /** An unanswered approval belongs to a live turn with a stored checkpoint; turns that are
      queued or cancelled have no unanswered request at all. */
  ghost predicate RequestFits(rows: Rows, p: Pending) {
    p.open ==>
      && p.turn in rows.turns
      && (p.kind.Approval? ==> Live(rows.turns[p.turn].status) && rows.turns[p.turn].result.Some?)
      && !rows.turns[p.turn].status.Queued? && !rows.turns[p.turn].status.Cancelled?
  }

  ghost predicate RequestsFit(rows: Rows) {
    forall p :: p in rows.pendings ==> RequestFits(rows, rows.pendings[p])
  }

  ghost predicate Inv(w: World) {
    TurnsFit(w) && MessageFits(w) && RequestsFit(w.rows)
  }

  /** Routing attaches its message before the job has a turn; a cancelled attempt asks nothing. */
  ghost predicate Safe(w: World, step: Step) {
    match step
    case Attach(_, _, _, _) => w.rows.user == map[] && forall t :: !Active(w, t)
    case Ask(t, _, _) => t in w.rows.turns && !w.rows.turns[t].status.Cancelled?
    case _ => true
  }

  // The common shape of most steps: one turn that was active changes.

  /** `r` has turn `t` changed to `turn`, and otherwise the turns and the messages of `w`, but
      for a message put with `t` when it had none. */
  ghost predicate Moves(w: World, r: World, t: TurnId, turn: Turn) {
    && r.rows.agent == w.rows.agent && r.claiming == w.claiming
    && r.rows.turns == w.rows.turns[t := turn]
    && r.attempts <= w.attempts + {t} && w.attempts - {t} <= r.attempts
    && (forall m :: m in w.rows.user ==> m in r.rows.user && r.rows.user[m].turn == w.rows.user[m].turn)
    && (forall m :: m in r.rows.user && m !in w.rows.user ==> r.rows.user[m].turn == t && !HasUser(w.rows, t))
    && (forall m, n :: m in r.rows.user && n in r.rows.user && m !in w.rows.user && n !in w.rows.user ==> m == n)
  }

  lemma MoveKeeps(w: World, r: World, t: TurnId, turn: Turn)
    requires TurnsFit(w) && MessageFits(w) && Moves(w, r, t, turn) && Active(w, t)
    requires r.claiming ==> r.rows.status.JobStarted? || r.rows.status.JobFailed?
    requires Active(r, t) ==> ActiveFits(r, t)
    requires Undecided(r.rows.status) || r.claiming ==> Open(turn.status)
    ensures TurnsFit(r) && MessageFits(r)
  {
    forall u | Active(r, u)
      ensures u == t
    {
      assert u != t ==> Active(w, u);
    }
  }

  lemma UserMoves(rows: Rows, t: TurnId, m: MessageId, agent: AgentId, time: nat)
    ensures forall n :: n in rows.user && m !in rows.user ==>
              n in WithUser(rows, t, m, agent, time).user && WithUser(rows, t, m, agent, time).user[n] == rows.user[n]
    ensures forall n :: n in WithUser(rows, t, m, agent, time).user && n !in rows.user ==>
              n == m && !HasUser(rows, t) && WithUser(rows, t, m, agent, time).user[n].turn == t
  {
  }

  ghost predicate Placed(w: World) {
    TurnsFit(w) && MessageFits(w)
  }

  // Steps of attempts.

  lemma AttachPlaced(w: World, step: Step)
    requires Placed(w) && step.Attach? && Enabled(w, step) && Safe(w, step)
    ensures Placed(Do(w, step))
  {
    var r := Do(w, step);
    forall u | Active(r, u)
      ensures u == step.t
    {
      assert u != step.t ==> Active(w, u);
    }
  }

  lemma MarkPlaced(w: World, step: Step)
    requires Placed(w) && step.MarkStarted? && Enabled(w, step)
    ensures Placed(Do(w, step))
  {
    assert forall u :: Active(Do(w, step), u) ==> Active(w, u);
  }

  /** While a job is being claimed, its one active turn is queued and has the message. */
  lemma ClaimFindsQueued(w: World)
    requires Placed(w) && w.claiming
    ensures forall u :: Active(w, u) <==> u in QueuedTurns(w.rows)
    ensures forall u, v :: u in QueuedTurns(w.rows) && v in QueuedTurns(w.rows) ==> u == v
    ensures forall m :: m in w.rows.user ==> w.rows.user[m].turn in QueuedTurns(w.rows)
  {
    forall u | u in QueuedTurns(w.rows)
      ensures Active(w, u)
    {
    }
    forall m | m in w.rows.user
      ensures w.rows.user[m].turn in QueuedTurns(w.rows)
    {
      assert Active(w, w.rows.user[m].turn);
    }
  }

  lemma RegisterPlaced(w: World, step: Step)
    requires Placed(w) && step.Register? && Enabled(w, step)
    ensures Placed(Do(w, step))
  {
    var r := Do(w, step);
    ClaimFindsQueued(w);
    forall u | Active(r, u)
      ensures u == step.t
    {
      assert u != step.t ==> Active(w, u);
    }
  }

  lemma ResumePlaced(w: World, step: Step)
    requires Placed(w) && step.Resume? && Enabled(w, step)
    ensures Placed(Do(w, step))
  {
    var r := Do(w, step);
    assert Active(w, step.t);
    MoveKeeps(w, r, step.t, r.rows.turns[step.t]);
  }

  lemma AskPlaced(w: World, step: Step)
    requires Placed(w) && step.Ask? && Enabled(w, step) && Safe(w, step)
    ensures Placed(Do(w, step))
  {
    var r := Do(w, step);
    assert Active(w, step.t);
    MoveKeeps(w, r, step.t, r.rows.turns[step.t]);
  }

  lemma PersistPlaced(w: World, step: Step)
    requires Placed(w) && (step.PersistDone? || step.PersistWaiting? || step.PersistCancelled?) && Enabled(w, step)
    ensures Placed(Do(w, step))
  {
    var r := Do(w, step);
    var t := step.t;
    if w.rows.turns[t].status.Cancelled? {
      AttemptEnds(w, t);
    } else {
      UserMoves(w.rows, t, step.m, w.rows.turns[t].agent, step.time);
      assert Active(w, t);
      PersistMoves(w, step);
      MoveKeeps(w, r, t, r.rows.turns[t]);
    }
  }

  /** The turn and the message a persist writes, when the turn is not cancelled. */
  lemma PersistIs(w: World, step: Step)
    requires (step.PersistDone? || step.PersistWaiting? || step.PersistCancelled?) && Enabled(w, step)
    requires !w.rows.turns[step.t].status.Cancelled?
    ensures step.m !in w.rows.user
    ensures var r, turn := Do(w, step), w.rows.turns[step.t];
            && step.t in r.rows.turns && r.rows.turns == w.rows.turns[step.t := r.rows.turns[step.t]]
            && r.rows.user == WithUser(w.rows, step.t, step.m, turn.agent, step.time).user
            && r.rows.agent == w.rows.agent && r.claiming == w.claiming && r.attempts == w.attempts - {step.t}
  {
    hide HasWaiting, HasUser, WithUser;
    var rows, t := w.rows, step.t;
    match step
    case PersistDone(_, m, time, result) => SameUser(rows, t, Done, Some(result), m, time);
    case PersistWaiting(_, m, time, result, _) => SameUser(rows, t, Waiting, Some(result), m, time);
    case PersistCancelled(_, m, time) => SameUser(rows, t, Cancelled, None, m, time);
  }

  lemma SameUser(rows: Rows, t: TurnId, status: TurnStatus, result: Option<Messages>, m: MessageId, time: nat)
    requires t in rows.turns
    ensures var put := SetTurn(rows, t, status, result);
            var r := WithUser(put, t, m, rows.turns[t].agent, time);
            && r.user == WithUser(rows, t, m, rows.turns[t].agent, time).user
            && r == put.(user := r.user)
  {
    assert HasUser(SetTurn(rows, t, status, result), t) == HasUser(rows, t);
  }

  lemma PersistMoves(w: World, step: Step)
    requires (step.PersistDone? || step.PersistWaiting? || step.PersistCancelled?) && Enabled(w, step)
    requires !w.rows.turns[step.t].status.Cancelled?
    ensures Moves(w, Do(w, step), step.t, Do(w, step).rows.turns[step.t])
  {
    hide HasWaiting, WithUser, SetTurn, Resolved, HasUser;
    var rows, t := w.rows, step.t;
    PersistIs(w, step);
    UserMoves(rows, t, step.m, rows.turns[t].agent, step.time);
  }

  /** The run of a cancelled turn, or one that raised, leaves memory. */
  lemma AttemptEnds(w: World, t: TurnId)
    requires Placed(w)
    ensures forall failing :: Placed(w.(attempts := w.attempts - {t}, failing := failing))
  {
    forall failing
      ensures Placed(w.(attempts := w.attempts - {t}, failing := failing))
    {
      var r := w.(attempts := w.attempts - {t}, failing := failing);
      assert forall u :: Active(r, u) ==> Active(w, u);
    }
  }

  lemma RaisePlaced(w: World, step: Step)
    requires Placed(w) && step.Raise? && Enabled(w, step)
    ensures Placed(Do(w, step))
  {
    AttemptEnds(w, step.t);
  }

  /** A run that raises before its turn is registered leaves the claimed job as it is. */
  lemma RaiseClaimPlaced(w: World)
    requires Placed(w) && Enabled(w, RaiseClaim)
    ensures Placed(Do(w, RaiseClaim))
  {
    assert forall u :: Active(Do(w, RaiseClaim), u) <==> Active(w, u);
  }

  // Failures, answers and cancels.

  lemma JobFailsPlaced(w: World, failing: set<Option<TurnId>>)
    requires Placed(w)
    ensures Placed(w.(rows := w.rows.(status := FailedJob(w.rows.status)), failing := failing))
  {
    var r := w.(rows := w.rows.(status := FailedJob(w.rows.status)), failing := failing);
    assert forall u :: Active(r, u) <==> Active(w, u);
  }

  lemma SamePlaced(w: World, failing: set<Option<TurnId>>)
    requires Placed(w)
    ensures Placed(w.(failing := failing))
  {
    assert forall u :: Active(w.(failing := failing), u) <==> Active(w, u);
  }

  lemma FailurePlaced(w: World, step: Step)
    requires Placed(w) && step.RecordFailure? && Enabled(w, step)
    ensures Placed(Do(w, step))
  {
    var rows := w.rows;
    var failing := w.failing - {step.named};
    JobFailsPlaced(w, failing);
    SamePlaced(w, failing);
    if step.found.Some? && LiveTurn(rows, step.found.value) {
      var t := step.found.value;
      if !(rows.turns[t].status.Waiting? && HasWaiting(rows, t)) {
        UserMoves(rows, t, step.m, rows.turns[t].agent, step.time);
        FailureMoves(w, step);
        assert Active(w, t);
        MoveKeeps(w, Do(w, step), t, Do(w, step).rows.turns[t]);
      }
    }
  }

  lemma FailureMoves(w: World, step: Step)
    requires step.RecordFailure? && Enabled(w, step) && step.found.Some? && LiveTurn(w.rows, step.found.value)
    requires !(w.rows.turns[step.found.value].status.Waiting? && HasWaiting(w.rows, step.found.value))
    ensures Moves(w, Do(w, step), step.found.value, Do(w, step).rows.turns[step.found.value])
  {
    var rows, t := w.rows, step.found.value;
    UserMoves(rows, t, step.m, rows.turns[t].agent, step.time);
    assert WithUser(SetTurn(rows, t, Failed, None), t, step.m, rows.turns[t].agent, step.time).user
        == WithUser(rows, t, step.m, rows.turns[t].agent, step.time).user;
  }

  lemma AnswerPlaced(w: World, step: Step)
    requires Placed(w) && step.Answer? && Enabled(w, step)
    ensures Placed(Do(w, step))
  {
    assert forall u :: Active(Do(w, step), u) <==> Active(w, u);
  }

  lemma ClosePlaced(w: World, step: Step)
    requires Placed(w) && step.CloseQuestions?
    ensures Placed(Do(w, step))
  {
    var rows, r := w.rows, Do(w, step);
    if t :| t in rows.turns && Closable(rows, step.lane, t) {
      assert Active(w, t);
      forall u | u in rows.turns && Closable(rows, step.lane, u)
        ensures u == t
      {
        assert Active(w, u);
      }
      assert r.rows.turns == rows.turns[t := rows.turns[t].(status := Done)];
      MoveKeeps(w, r, t, r.rows.turns[t]);
    } else {
      assert r.rows.turns == rows.turns;
      assert r == w;
    }
  }

  lemma CancelPlaced(w: World, step: Step)
    requires Placed(w) && (step.CancelQueued? || step.CancelWaiting? || step.CancelRunning?) && Enabled(w, step)
    ensures Placed(Do(w, step))
  {
    var rows, r, t := w.rows, Do(w, step), step.t;
    if r.rows != rows {
      assert Active(w, t);
      if step.CancelRunning? {
        UserMoves(rows, t, step.m, rows.turns[t].agent, step.time);
        assert WithUser(SetTurn(rows, t, Cancelled, None), t, step.m, rows.turns[t].agent, step.time).user
            == WithUser(rows, t, step.m, rows.turns[t].agent, step.time).user;
      }
      MoveKeeps(w, r, t, r.rows.turns[t]);
    } else {
      assert r == w;
    }
  }

  lemma DropPlaced(w: World, step: Step)
    requires Placed(w) && step.DropQueued? && Enabled(w, step)
    ensures Placed(Do(w, step))
  {
    assert forall u :: Active(Do(w, step), u) <==> Active(w, u);
  }

  lemma CrashPlaced(w: World, step: Step)
    requires Placed(w) && step.Crash?
    ensures Placed(Do(w, step))
  {
    assert forall u :: Active(Do(w, step), u) ==> Active(w, u);
  }

  // Rerouting.

  /** Nothing of the job runs, and its message is where a move finds it. */
  ghost predicate Movable(w: World) {
    && !w.claiming && !Over(w.rows.status)
    && (forall t :: t in w.rows.turns ==> !Live(w.rows.turns[t].status))
    && (forall m :: m in w.rows.user ==>
          HasStatus(w.rows, w.rows.user[m].turn, Queued) || CarriedCancelled(w.rows, w.rows.user[m].turn))
  }

  lemma StoppedMovable(w: World, step: Step)
    requires Placed(w) && step.Reroute? && Enabled(w, step)
    ensures Placed(w.(rows := Stopped(w.rows, step.live, step.m, step.time)))
    ensures Movable(w.(rows := Stopped(w.rows, step.live, step.m, step.time)))
    ensures Stopped(w.rows, step.live, step.m, step.time).turns.Keys == w.rows.turns.Keys
  {
    hide Stopped, TurnsFit, MessageFits;
    var rows := w.rows;
    if step.live.Some? {
      var t := step.live.value;
      StopsLive(rows, t, step.m, step.time);
      var cancel := if rows.turns[t].status.Waiting? then CancelWaiting(t) else CancelRunning(t, step.m, step.time);
      CancelPlaced(w, cancel);
      StopMoves(w, t, Stopped(rows, step.live, step.m, step.time));
    } else {
      NoneStopped(w, step.m, step.time);
    }
  }

  lemma NoneStopped(w: World, m: MessageId, time: nat)
    requires Placed(w) && !w.claiming && Undecided(w.rows.status)
    requires forall t :: t in w.rows.turns ==> !Live(w.rows.turns[t].status)
    ensures Stopped(w.rows, None, m, time) == w.rows && Movable(w)
  {
    hide TurnsFit;
  }

  /** Where the only active turn was live and is cancelled, the message is with it. */
  lemma StopMoves(w: World, t: TurnId, r: Rows)
    requires Placed(w) && !w.claiming && Undecided(w.rows.status) && LiveTurn(w.rows, t) && r.status.JobCancelled?
    requires r.agent == w.rows.agent
    requires r.turns == w.rows.turns[t := w.rows.turns[t].(status := Cancelled, result := None)]
    requires forall m :: m in r.user ==>
               r.user[m].turn == t || (m in w.rows.user && r.user[m].turn == w.rows.user[m].turn)
    ensures Movable(w.(rows := r))
  {
    assert Active(w, t);
    assert forall u :: u in w.rows.turns && Live(w.rows.turns[u].status) ==> Active(w, u);
  }

  /** A live turn is stopped by the one cancel that fits it. */
  lemma StopsLive(rows: Rows, t: TurnId, m: MessageId, time: nat)
    requires LiveTurn(rows, t)
    ensures Stopped(rows, Some(t), m, time)
            == if rows.turns[t].status.Waiting? then LifecycleModel.CancelWaiting(rows, t)
               else LifecycleModel.CancelRunning(rows, t, m, time)
    ensures var r := Stopped(rows, Some(t), m, time);
            && r.status == JobCancelled && r.agent == rows.agent
            && r.turns == rows.turns[t := rows.turns[t].(status := Cancelled, result := None)]
            && forall n :: n in r.user ==>
                 r.user[n].turn == t || (n in rows.user && r.user[n].turn == rows.user[n].turn)
  {
  }

  lemma ParkPlaced(w: World, lane: AgentId, retry: TurnId)
    requires Placed(w) && Movable(w) && retry !in w.rows.turns
    ensures Placed(w.(rows := Park(w.rows, lane, retry)))
  {
    var rows := w.rows;
    var r := w.(rows := Park(rows, lane, retry));
    assert forall u :: u in rows.turns ==> r.rows.turns[u].status == rows.turns[u].status;
    forall u | Active(r, u)
      ensures u == retry || (Active(w, u) && rows.turns[u].status.Queued?)
    {
      if u != retry {
        assert Active(w, u);
      }
    }
    if m :| m in rows.user && CarriedCancelled(rows, rows.user[m].turn) {
      var home := rows.user[m].turn;
      forall u | Active(r, u)
        ensures u == retry
      {
        assert u != retry ==> home == u;
      }
    } else {
      assert retry !in r.rows.turns;
    }
  }

  lemma ReroutePlaced(w: World, step: Step)
    requires Placed(w) && step.Reroute? && Enabled(w, step)
    ensures Placed(Do(w, step))
  {
    StoppedMovable(w, step);
    var stopped := w.(rows := Stopped(w.rows, step.live, step.m, step.time));
    ParkPlaced(stopped, step.lane, step.retry);
    assert Do(w, step) == stopped.(rows := Park(stopped.rows, step.lane, step.retry));
  }

  // The startup sweep.

  lemma InterruptPlaced(w: World)
    requires Placed(w) && w.attempts == {} && !w.claiming && RequestsFit(w.rows)
    ensures Placed(w.(rows := Interrupt(w.rows)))
  {
    var r := w.(rows := Interrupt(w.rows));
    forall u | Active(r, u)
      ensures Active(w, u) && r.rows.turns[u] == w.rows.turns[u]
    {
    }
  }

  lemma JobCancelledPlaced(w: World)
    requires Placed(w) && w.attempts == {} && !w.claiming && w.rows.turns != map[]
    requires forall t :: t in w.rows.turns ==> w.rows.turns[t].status.Cancelled?
    ensures Placed(w.(rows := w.rows.(status := JobCancelled)))
  {
    assert forall u :: !Active(w.(rows := w.rows.(status := JobCancelled)), u);
  }

  lemma RequeuePlaced(w: World, retry: TurnId, source: TurnId)
    requires Placed(w) && w.attempts == {} && !w.claiming && w.rows.status.JobStarted? && retry !in w.rows.turns
    requires forall t :: t in w.rows.turns ==> !w.rows.turns[t].status.Waiting?
    ensures Placed(w.(rows := PreserveMessage(CloseCrashed(w.rows), retry, source).(status := JobQueued)))
  {
    var closed := CloseCrashed(w.rows);
    var r := w.(rows := PreserveMessage(closed, retry, source).(status := JobQueued));
    forall u | Active(r, u)
      ensures u == retry || (Active(w, u) && w.rows.turns[u].status.Queued?)
    {
    }
    if m :| m in closed.user && HasStatus(closed, closed.user[m].turn, Failed) {
      var home := closed.user[m].turn;
      assert Active(w, home);
      assert w.rows.turns[home].status.Running?;
      forall u | Active(r, u)
        ensures u == retry
      {
        assert u != retry ==> Active(w, u) && u == home;
      }
    } else {
      assert retry !in r.rows.turns;
    }
  }

  lemma SweepPlaced(w: World, step: Step)
    requires Placed(w) && RequestsFit(w.rows) && step.Sweep? && Enabled(w, step)
    ensures Placed(Do(w, step))
  {
    hide TurnsFit, MessageFits, Answered, Stalled;
    var rows := w.rows;
    if rows.status.JobStarted? && !(step.claude && exists t :: t in rows.turns && Stalled(rows, t))
       && Answered(rows) == {}
       && (forall t :: t in rows.turns ==> !rows.turns[t].status.Waiting?)
       && (forall t :: t in rows.turns ==> rows.turns[t].result.None?) {
      RequeuePlaced(w, step.retry, step.source);
    }
    InterruptPlaced(w);
    if rows.turns != map[] && forall t :: t in rows.turns ==> rows.turns[t].status.Cancelled? {
      JobCancelledPlaced(w);
    }
  }
}
