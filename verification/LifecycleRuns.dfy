/** The pending requests of a job, the invariant over whole runs, and what it gives. */
module LifecycleRuns {
  import opened LifecycleModel
  import opened Lifecycle
  import opened LifecycleSafety
  import opened Options

  // Requests under one changed turn.

  lemma ResolvedFits(rows: Rows, before: Rows, t: TurnId)
    requires RequestsFit(before) && rows.pendings == before.pendings && t in before.turns
    requires rows.turns.Keys == before.turns.Keys
    requires forall u :: u in before.turns && u != t ==> rows.turns[u] == before.turns[u]
    ensures RequestsFit(Resolved(rows, t))
  {
    var r := Resolved(rows, t);
    forall p | p in r.pendings
      ensures RequestFits(r, r.pendings[p])
    {
      assert RequestFits(before, before.pendings[p]);
    }
  }

  lemma AttachRequests(w: World, step: Step)
    requires Inv(w) && step.Attach? && Enabled(w, step)
    ensures RequestsFit(Do(w, step).rows)
  {
    hide TurnsFit, MessageFits;
    var r := Do(w, step).rows;
    forall p | p in r.pendings
      ensures RequestFits(r, r.pendings[p])
    {
      assert RequestFits(w.rows, w.rows.pendings[p]);
    }
  }

  lemma RegisterRequests(w: World, step: Step)
    requires Inv(w) && step.Register? && Enabled(w, step)
    ensures RequestsFit(Do(w, step).rows)
  {
    hide TurnsFit, MessageFits;
    var r := Do(w, step).rows;
    forall p | p in r.pendings
      ensures RequestFits(r, r.pendings[p])
    {
      assert RequestFits(w.rows, w.rows.pendings[p]);
      assert step.t in w.rows.turns ==> step.t in QueuedTurns(w.rows);
    }
  }

  lemma ResumeRequests(w: World, step: Step)
    requires Inv(w) && step.Resume? && Enabled(w, step)
    ensures RequestsFit(Do(w, step).rows)
  {
    hide TurnsFit, MessageFits;
    var r := Do(w, step).rows;
    forall p | p in r.pendings
      ensures RequestFits(r, r.pendings[p])
    {
      assert RequestFits(w.rows, w.rows.pendings[p]);
    }
  }

  lemma AskRequests(w: World, step: Step)
    requires Inv(w) && step.Ask? && Enabled(w, step) && Safe(w, step)
    ensures RequestsFit(Do(w, step).rows)
  {
    hide MessageFits;
    assert Active(w, step.t);
    assert !w.rows.turns[step.t].status.Queued?;
    hide TurnsFit, Active;
    var r := Do(w, step).rows;
    forall p | p in r.pendings
      ensures RequestFits(r, r.pendings[p])
    {
      assert p in w.rows.pendings ==> RequestFits(w.rows, w.rows.pendings[p]);
    }
  }

  lemma PersistRequests(w: World, step: Step)
    requires Inv(w) && (step.PersistDone? || step.PersistWaiting? || step.PersistCancelled?) && Enabled(w, step)
    ensures RequestsFit(Do(w, step).rows)
  {
    hide TurnsFit, MessageFits, RequestsFit, LifecycleModel.PersistDone, LifecycleModel.PersistWaiting,
      LifecycleModel.PersistCancelled;
    match step
    case PersistDone(t, m, time, result) => DoneRequests(w.rows, t, m, time, result);
    case PersistWaiting(t, m, time, result, approvals) => WaitingRequests(w.rows, t, m, time, result, approvals);
    case PersistCancelled(t, m, time) => CancelledRequests(w.rows, t, m, time);
  }

  lemma CancelledRequests(rows: Rows, t: TurnId, m: MessageId, time: nat)
    requires RequestsFit(rows) && t in rows.turns && m !in rows.user
    ensures RequestsFit(LifecycleModel.PersistCancelled(rows, t, m, time))
  {
    if !rows.turns[t].status.Cancelled? {
      var cancelled := SetTurn(rows, t, Cancelled, None);
      var ended := WithUser(cancelled, t, m, rows.turns[t].agent, time).(status := JobCancelled);
      ResolvedFits(ended, rows, t);
    }
  }

  lemma DoneRequests(rows: Rows, t: TurnId, m: MessageId, time: nat, result: Messages)
    requires RequestsFit(rows) && t in rows.turns && !HasWaiting(rows, t)
    ensures RequestsFit(LifecycleModel.PersistDone(rows, t, m, time, result))
  {
    hide HasUser;
    var r := LifecycleModel.PersistDone(rows, t, m, time, result);
    forall p | p in r.pendings
      ensures RequestFits(r, r.pendings[p])
    {
      assert RequestFits(rows, rows.pendings[p]);
      assert OpenFor(rows.pendings[p], t) ==> !rows.pendings[p].kind.Approval?;
    }
  }

  lemma WaitingRequests(rows: Rows, t: TurnId, m: MessageId, time: nat, result: Messages,
                        approvals: map<PendingId, CallId>)
    requires RequestsFit(rows) && t in rows.turns && approvals.Keys !! rows.pendings.Keys
    ensures RequestsFit(LifecycleModel.PersistWaiting(rows, t, m, time, result, approvals))
  {
    hide HasUser;
    var r := LifecycleModel.PersistWaiting(rows, t, m, time, result, approvals);
    forall p | p in r.pendings
      ensures RequestFits(r, r.pendings[p])
    {
      if p in rows.pendings {
        assert RequestFits(rows, rows.pendings[p]);
      }
    }
  }

  lemma FailureRequests(w: World, step: Step)
    requires Inv(w) && step.RecordFailure? && Enabled(w, step)
    ensures RequestsFit(Do(w, step).rows)
  {
    hide TurnsFit, MessageFits;
    var rows, r := w.rows, Do(w, step).rows;
    if r.turns == rows.turns && r.pendings == rows.pendings {
      forall p | p in r.pendings
        ensures RequestFits(r, r.pendings[p])
      {
        assert RequestFits(rows, rows.pendings[p]);
      }
    } else {
      var t := step.found.value;
      var ended := WithUser(SetTurn(rows, t, Failed, None), t, step.m, rows.turns[t].agent, step.time)
                   .(status := FailedJob(rows.status));
      ResolvedFits(ended, rows, t);
    }
  }

  lemma AnswerRequests(w: World, step: Step)
    requires Inv(w) && step.Answer? && Enabled(w, step)
    ensures RequestsFit(Do(w, step).rows)
  {
    hide TurnsFit, MessageFits;
    var r := Do(w, step).rows;
    forall p | p in r.pendings
      ensures RequestFits(r, r.pendings[p])
    {
      assert RequestFits(w.rows, w.rows.pendings[p]);
    }
  }

  lemma CloseRequests(w: World, step: Step)
    requires Inv(w) && step.CloseQuestions?
    ensures RequestsFit(Do(w, step).rows)
  {
    hide TurnsFit, MessageFits;
    var rows, r := w.rows, Do(w, step).rows;
    forall p | p in r.pendings
      ensures RequestFits(r, r.pendings[p])
    {
      assert RequestFits(rows, rows.pendings[p]);
      var t := rows.pendings[p].turn;
      assert t in rows.turns && OpenFor(rows.pendings[p], t) && Closable(rows, step.lane, t)
             ==> !rows.pendings[p].kind.Approval?;
    }
  }

  lemma CancelRequests(w: World, step: Step)
    requires Inv(w) && (step.CancelQueued? || step.CancelWaiting? || step.CancelRunning?) && Enabled(w, step)
    ensures RequestsFit(Do(w, step).rows)
  {
    hide TurnsFit, MessageFits;
    var rows, r, t := w.rows, Do(w, step).rows, step.t;
    if r != rows {
      if step.CancelQueued? {
        forall p | p in r.pendings
          ensures RequestFits(r, r.pendings[p])
        {
          assert RequestFits(rows, rows.pendings[p]);
        }
      } else if step.CancelWaiting? {
        ResolvedFits(SetTurn(rows, t, Cancelled, None).(status := JobCancelled), rows, t);
      } else {
        var cancelled := SetTurn(rows, t, Cancelled, None);
        var ended := WithUser(cancelled, t, step.m, rows.turns[t].agent, step.time).(status := JobCancelled);
        ResolvedFits(ended, rows, t);
      }
    }
  }

  lemma ParkRequests(rows: Rows, lane: AgentId, retry: TurnId)
    requires RequestsFit(rows) && retry !in rows.turns
    ensures RequestsFit(Park(rows, lane, retry))
  {
    var r := Park(rows, lane, retry);
    forall p | p in r.pendings
      ensures RequestFits(r, r.pendings[p])
    {
      assert RequestFits(rows, rows.pendings[p]);
    }
  }

  lemma RerouteRequests(w: World, step: Step)
    requires Inv(w) && step.Reroute? && Enabled(w, step)
    ensures RequestsFit(Do(w, step).rows)
  {
    hide Inv, RequestsFit;
    var rows := w.rows;
    if step.live.Some? {
      var t := step.live.value;
      if rows.turns[t].status.Waiting? {
        CancelRequests(w, CancelWaiting(t));
      } else {
        CancelRequests(w, CancelRunning(t, step.m, step.time));
      }
    }
    StoppedKeeps(rows, step.live, step.m, step.time);
    assert RequestsFit(Stopped(rows, step.live, step.m, step.time)) by {
      if step.live.None? {
        assert RequestsFit(rows) by { InvRequests(w); }
      }
    }
    ParkRequests(Stopped(rows, step.live, step.m, step.time), step.lane, step.retry);
  }

  lemma InvRequests(w: World)
    requires Inv(w)
    ensures RequestsFit(w.rows)
  {
  }

  lemma StoppedKeeps(rows: Rows, live: Option<TurnId>, m: MessageId, time: nat)
    requires live.Some? ==> LiveTurn(rows, live.value)
    ensures Stopped(rows, live, m, time).turns.Keys == rows.turns.Keys
    ensures live.Some? && rows.turns[live.value].status.Waiting? ==>
              Stopped(rows, live, m, time) == LifecycleModel.CancelWaiting(rows, live.value)
    ensures live.Some? && rows.turns[live.value].status.Running? ==>
              Stopped(rows, live, m, time) == LifecycleModel.CancelRunning(rows, live.value, m, time)
  {
  }

  lemma SweepRequests(w: World, step: Step)
    requires Inv(w) && step.Sweep? && Enabled(w, step)
    ensures RequestsFit(Do(w, step).rows)
  {
    hide TurnsFit, MessageFits;
    var rows, r := w.rows, Do(w, step).rows;
    forall p | p in r.pendings
      ensures RequestFits(r, r.pendings[p])
    {
      assert RequestFits(rows, rows.pendings[p]);
      if r == Interrupt(rows) {
      } else if r.status.JobQueued? && !rows.status.JobQueued? {
        RequeuedRequest(rows, r, step.retry, step.source, p);
      } else {
        assert r.turns == rows.turns && r.pendings == rows.pendings;
      }
    }
  }

  lemma RequeuedRequest(rows: Rows, r: Rows, retry: TurnId, source: TurnId, p: PendingId)
    requires r == PreserveMessage(CloseCrashed(rows), retry, source).(status := JobQueued)
    requires retry !in rows.turns && p in rows.pendings && RequestFits(rows, rows.pendings[p])
    requires forall t :: t in rows.turns ==> rows.turns[t].result.None?
    ensures RequestFits(r, r.pendings[p])
  {
  }

  lemma InvStep(w: World, step: Step)
    requires Inv(w) && Enabled(w, step) && Safe(w, step)
    ensures Inv(Do(w, step))
  {
    hide TurnsFit, MessageFits, RequestsFit, Enabled, Safe, Do;
    match step
    case Attach(_, _, _, _) => AttachPlaced(w, step); AttachRequests(w, step);
    case MarkStarted(_) => MarkPlaced(w, step); MarkRequests(w, step);
    case Register(_) => RegisterPlaced(w, step); RegisterRequests(w, step);
    case Resume(_) => ResumePlaced(w, step); ResumeRequests(w, step);
    case Ask(_, _, _) => AskPlaced(w, step); AskRequests(w, step);
    case PersistDone(_, _, _, _) => PersistPlaced(w, step); PersistRequests(w, step);
    case PersistWaiting(_, _, _, _, _) => PersistPlaced(w, step); PersistRequests(w, step);
    case PersistCancelled(_, _, _) => PersistPlaced(w, step); PersistRequests(w, step);
    case Raise(_, _) => RaisePlaced(w, step); MarkRequests(w, step);
    case RaiseClaim => RaiseClaimPlaced(w); MarkRequests(w, step);
    case RecordFailure(_, _, _, _) => FailurePlaced(w, step); FailureRequests(w, step);
    case Answer(_, _) => AnswerPlaced(w, step); AnswerRequests(w, step);
    case CloseQuestions(_) => ClosePlaced(w, step); CloseRequests(w, step);
    case CancelQueued(_) => CancelPlaced(w, step); CancelRequests(w, step);
    case CancelWaiting(_) => CancelPlaced(w, step); CancelRequests(w, step);
    case CancelRunning(_, _, _) => CancelPlaced(w, step); CancelRequests(w, step);
    case DropQueued => DropPlaced(w, step); MarkRequests(w, step);
    case Reroute(_, _, _, _, _) => ReroutePlaced(w, step); RerouteRequests(w, step);
    case Crash => CrashPlaced(w, step); MarkRequests(w, step);
    case Sweep(_, _, _) => SweepPlaced(w, step); SweepRequests(w, step);
  }

  lemma MarkRequests(w: World, step: Step)
    requires Inv(w) && Enabled(w, step)
    requires step.MarkStarted? || step.Raise? || step.RaiseClaim? || step.DropQueued? || step.Crash?
    ensures RequestsFit(Do(w, step).rows)
  {
    hide TurnsFit, MessageFits;
    var r := Do(w, step).rows;
    forall p | p in r.pendings
      ensures RequestFits(r, r.pendings[p])
    {
      assert RequestFits(w.rows, w.rows.pendings[p]);
    }
  }
}
