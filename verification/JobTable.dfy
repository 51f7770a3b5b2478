/** The rows of one job as the host changes them in place. */
module JobTable {
  import opened LifecycleModel
  import opened Options

  class JobRows {
    var status: JobStatus
    var agent: AgentId
    var turns: map<TurnId, Turn>
    var user: map<MessageId, UserMessage>
    var pendings: map<PendingId, Pending>

    function Value(): Rows
      reads this
    {
      Rows(status, agent, turns, user, pendings)
    }

    /** A job as it is enqueued. */
    constructor (status: JobStatus, agent: AgentId)
      ensures Value() == Rows(status, agent, map[], map[], map[])
    {
      this.status, this.agent, turns, user, pendings := status, agent, map[], map[], map[];
    }

    /** Settles every unanswered request of a turn that ends. */
    method ResolveOpenPendings(t: TurnId)
      modifies this`pendings
      ensures Value() == Resolved(old(Value()), t)
    {
      ghost var before := pendings;
      var left := pendings.Keys;
      while left != {}
        invariant left <= before.Keys && pendings.Keys == before.Keys
        invariant forall p :: p in left ==> pendings[p] == before[p]
        invariant forall p :: p in before.Keys - left ==> pendings[p] == Settle(before[p], t)
      {
        var p :| p in left;
        left := left - {p};
        if pendings[p].open && pendings[p].turn == t {
          pendings := pendings[p := pendings[p].(open := false, approved := false)];
        }
      }
    }

    /** Stores the user's message with a turn that has none. */
    method KeepUserMessage(t: TurnId, m: MessageId, lane: AgentId, time: nat)
      modifies this`user
      ensures Value() == WithUser(old(Value()), t, m, lane, time)
    {
      if !HasUser(Value(), t) {
        user := user[m := UserMessage(t, lane, time)];
      }
    }

    method PersistRunningCancel(t: TurnId, m: MessageId, time: nat) returns (wrote: bool)
      modifies this
      ensures if t !in old(turns) then Value() == old(Value()) && !wrote
              else Value() == CancelRunning(old(Value()), t, m, time) && wrote == HasStatus(old(Value()), t, Running)
    {
      if t !in turns || turns[t].status != Running {
        return false;
      }
      turns := turns[t := turns[t].(status := Cancelled, result := None)];
      KeepUserMessage(t, m, turns[t].agent, time);
      status := JobCancelled;
      ResolveOpenPendings(t);
      return true;
    }

    method PersistQueuedCancel(t: TurnId) returns (wrote: bool)
      modifies this
      ensures if t !in old(turns) then Value() == old(Value()) && !wrote
              else Value() == CancelQueued(old(Value()), t) && wrote == HasStatus(old(Value()), t, Queued)
    {
      if t !in turns || turns[t].status != Queued {
        return false;
      }
      turns := turns[t := turns[t].(status := Cancelled)];
      status := JobCancelled;
      return true;
    }

    method CancelPersistedWaiting(t: TurnId) returns (wrote: bool)
      modifies this
      ensures if t !in old(turns) then Value() == old(Value()) && !wrote
              else Value() == CancelWaiting(old(Value()), t) && wrote == HasStatus(old(Value()), t, Waiting)
    {
      if t !in turns || turns[t].status != Waiting {
        return false;
      }
      turns := turns[t := turns[t].(status := Cancelled, result := None)];
      status := JobCancelled;
      ResolveOpenPendings(t);
      return true;
    }

    /** The three cancel paths in the order they are tried: exactly one applies to an open turn. */
    method Cancel(t: TurnId, m: MessageId, time: nat) returns (wrote: bool)
      modifies this
      ensures wrote == OpenTurn(old(Value()), t)
      ensures wrote ==> HasStatus(Value(), t, Cancelled) && status.JobCancelled?
      ensures !wrote ==> Value() == old(Value())
    {
      wrote := CancelPersistedWaiting(t);
      if !wrote {
        wrote := PersistQueuedCancel(t);
      }
      if !wrote {
        wrote := PersistRunningCancel(t, m, time);
      }
    }

    method RecordFailure(found: Option<TurnId>, m: MessageId, time: nat)
      modifies this
      ensures Value() == Fail(old(Value()), found, m, time)
    {
      var known := found.Some? && found.value in turns;
      if known {
        var at := turns[found.value].status;
        if at.Done? || at.Cancelled? || at.Failed? || at.Interrupted? ||
           (at.Waiting? && HasWaiting(Value(), found.value)) {
          return;
        }
      }
      if status.JobQueued? || status.JobStarted? {
        status := JobFailed;
      }
      if known && Live(turns[found.value].status) {
        var t := found.value;
        turns := turns[t := turns[t].(status := Failed, result := None)];
        ResolveOpenPendings(t);
        KeepUserMessage(t, m, turns[t].agent, time);
        assert HasUser(Resolved(SetTurn(old(Value()), t, Failed, None), t), t) == HasUser(old(Value()), t);
      }
    }

    method AddApprovals(t: TurnId, approvals: map<PendingId, CallId>)
      modifies this`pendings
      ensures pendings
              == old(pendings) + map p | p in approvals :: Pending(t, Approval, Some(approvals[p]), true, false)
    {
      ghost var before := pendings;
      var left := approvals.Keys;
      while left != {}
        invariant left <= approvals.Keys && pendings.Keys == before.Keys + (approvals.Keys - left)
        invariant forall p :: p in pendings ==>
                    if p in approvals.Keys - left
                    then pendings[p] == Pending(t, Approval, Some(approvals[p]), true, false)
                    else pendings[p] == before[p]
      {
        var p :| p in left;
        left := left - {p};
        pendings := pendings[p := Pending(t, Approval, Some(approvals[p]), true, false)];
      }
    }

    /** The end of a run: nothing at all when the turn was cancelled meanwhile. */
    method PersistDone(t: TurnId, m: MessageId, time: nat, result: Messages)
      requires t in turns
      modifies this
      ensures Value() == LifecycleModel.PersistDone(old(Value()), t, m, time, result)
    {
      if turns[t].status.Cancelled? {
        return;
      }
      turns := turns[t := turns[t].(status := Done, result := Some(result))];
      KeepUserMessage(t, m, turns[t].agent, time);
      status := JobDone;
    }

    method PersistWaiting(t: TurnId, m: MessageId, time: nat, result: Messages, approvals: map<PendingId, CallId>)
      requires t in turns
      modifies this
      ensures Value() == LifecycleModel.PersistWaiting(old(Value()), t, m, time, result, approvals)
    {
      if turns[t].status.Cancelled? {
        return;
      }
      turns := turns[t := turns[t].(status := Waiting, result := Some(result))];
      KeepUserMessage(t, m, turns[t].agent, time);
      AddApprovals(t, approvals);
    }

    method PersistCancelled(t: TurnId, m: MessageId, time: nat)
      requires t in turns
      modifies this
      ensures Value() == LifecycleModel.PersistCancelled(old(Value()), t, m, time)
    {
      if turns[t].status.Cancelled? {
        return;
      }
      turns := turns[t := turns[t].(status := Cancelled, result := None)];
      KeepUserMessage(t, m, turns[t].agent, time);
      status := JobCancelled;
      ResolveOpenPendings(t);
    }

    /** Closes the lane's turns that paused on questions alone, once those are answered. */
    method CloseQuestionTurns(lane: AgentId)
      modifies this`turns, this`status
      ensures Value() == CloseQuestions(old(Value()), lane)
    {
      hide HasWaiting, HasDeferredApproval, ClosedBut, CloseQuestions;
      ghost var before := Value();
      ghost var closes := false;
      var left := turns.Keys;
      ClosedNone(before, lane);
      while left != {}
        invariant left <= turns.Keys && ClosedBut(before, lane, left, turns, closes)
        invariant status == if closes && (before.status.JobQueued? || before.status.JobStarted?) then JobDone
                            else before.status
      {
        var t :| t in left;
        StillClosable(Value(), before, lane, left, t, closes);
        ClosedNext(before, lane, left, t, turns, closes);
        left := left - {t};
        if turns[t].agent == lane && turns[t].status.Waiting? {
          if !HasDeferredApproval(Value(), t) && !HasWaiting(Value(), t) {
            turns := turns[t := turns[t].(status := Done)];
            closes := true;
            if status.JobQueued? || status.JobStarted? {
              status := JobDone;
            }
          }
        }
      }
      ClosedAll(before, lane, turns, closes);
    }

    /** One turn of a move, with the turns in `seen` moved before. */
    method ParkTurn(t: TurnId, lane: AgentId, retries: map<TurnId, TurnId>, ghost before: Rows, ghost seen: set<TurnId>)
      requires FreshIds(before, retries) && t !in seen
      requires HasStatus(before, t, Queued) || HasStatus(before, t, Cancelled)
      requires turns == ParkedTurns(before, seen, lane, retries) && user == ParkedMessages(before, seen, lane, retries)
      modifies this`turns, this`user
      ensures turns == ParkedTurns(before, seen + {t}, lane, retries)
      ensures user == ParkedMessages(before, seen + {t}, lane, retries)
    {
      hide ParkedTurns, ParkedMessages, MessagesMoved;
      assert HasStatus(before, t, Cancelled) ==> t in retries;
      hide FreshIds;
      StillThere(before, seen, t, lane, retries);
      if turns[t].status.Cancelled? {
        if !HasMessages(user, t) {
          ParkNothing(before, seen, t, lane, retries);
          return;
        }
        ParkCancelled(before, seen, t, lane, retries);
        ParkCancelledMessages(before, seen, t, lane, retries);
        turns := turns[retries[t] := Turn(lane, Queued, None)];
        user := MessagesMoved(user, t, retries[t], lane);
      } else {
        ParkQueued(before, seen, t, lane, retries);
        ParkQueuedMessages(before, seen, t, lane, retries);
        turns := turns[t := turns[t].(agent := lane)];
        user := MessagesMoved(user, t, t, lane);
      }
    }

    /** Moves the job to another lane: its queued turn goes along, and the messages left on each
        cancelled attempt go to a fresh queued turn. */
    method ParkJob(lane: AgentId, retries: map<TurnId, TurnId>) returns (moved: bool)
      requires FreshIds(Value(), retries)
      modifies this
      ensures moved == !(old(status).JobDone? || old(status).JobFailed?)
      ensures Value() == if moved then ParkEach(old(Value()), lane, retries) else old(Value())
    {
      hide ParkedTurns, ParkedMessages, FreshIds;
      if status.JobDone? || status.JobFailed? {
        return false;
      }
      ghost var before := Value();
      hide Carried;
      var carried := CarriedTurns(Value());
      agent := lane;
      status := JobQueued;
      ParkTurns(carried, lane, retries, before);
      return true;
    }

    method ParkTurns(carried: set<TurnId>, lane: AgentId, retries: map<TurnId, TurnId>, ghost before: Rows)
      requires FreshIds(before, retries)
      requires turns == before.turns && user == before.user
      requires forall t :: t in carried ==> HasStatus(before, t, Queued) || HasStatus(before, t, Cancelled)
      modifies this`turns, this`user
      ensures turns == ParkedTurns(before, carried, lane, retries)
      ensures user == ParkedMessages(before, carried, lane, retries)
    {
      ParkedNone(before, lane, retries);
      hide ParkedTurns, ParkedMessages, FreshIds, HasStatus;
      var left := carried;
      assert carried - left == {};
      while left != {}
        invariant left <= carried
        invariant turns == ParkedTurns(before, carried - left, lane, retries)
        invariant user == ParkedMessages(before, carried - left, lane, retries)
      {
        var t :| t in left;
        assert carried - left == carried - (left - {t}) - {t};
        left := left - {t};
        ParkTurn(t, lane, retries, before, carried - left - {t});
        assert (carried - left - {t}) + {t} == carried - left;
      }
      assert carried - left == carried;
    }

    // The startup sweep.

    method CloseCrashedTurns()
      modifies this`turns
      ensures Value() == CloseCrashed(old(Value()))
    {
      ghost var before := turns;
      var left := turns.Keys;
      while left != {}
        invariant left <= before.Keys && turns.Keys == before.Keys
        invariant forall t :: t in left ==> turns[t] == before[t]
        invariant forall t :: t in before.Keys - left ==>
                    turns[t] == if before[t].status.Running? then before[t].(status := Failed) else before[t]
      {
        var t :| t in left;
        left := left - {t};
        if turns[t].status.Running? {
          turns := turns[t := turns[t].(status := Failed)];
        }
      }
    }

    method PreserveRetryMessage(retry: TurnId, source: TurnId)
      modifies this`turns, this`user
      ensures Value() == PreserveMessage(old(Value()), retry, source)
    {
      ghost var before := user;
      var messages := set m | m in user && HasStatus(Value(), user[m].turn, Failed);
      if messages == {} {
        assert forall m :: m in user ==> m !in messages;
        return;
      }
      var first :| first in messages;
      assert HasStatus(Value(), user[first].turn, Failed);
      var left := messages;
      while left != {}
        invariant left <= messages && user.Keys == before.Keys && turns == old(turns)
        invariant forall m :: m in user ==>
                    user[m] == if m in messages - left then before[m].(turn := retry) else before[m]
      {
        var m :| m in left;
        left := left - {m};
        user := user[m := user[m].(turn := retry)];
      }
      turns := turns[retry := Turn(if source in turns then turns[source].agent else agent, Queued, None)];
    }

    /** Sorts a job out after a restart; returns the turns to resume. */
    method Recover(claude: bool, retry: TurnId, source: TurnId) returns (resume: set<TurnId>)
      modifies this
      ensures (Value(), resume) == (SweepJob(old(Value()), claude, retry, source).rows,
                                    SweepJob(old(Value()), claude, retry, source).resume)
    {
      hide Answered, Stalled, PreserveMessage, CloseCrashed, Interrupt;
      resume := {};
      if !status.JobStarted? {
        return;
      }
      if claude && exists t :: t in turns && Stalled(Value(), t) {
        var interrupted := Interrupt(Value());
        InterruptKeepsLane(Value());
        status, turns, pendings := interrupted.status, interrupted.turns, interrupted.pendings;
        return;
      }
      resume := Answered(Value());
      if resume != {} || exists t :: t in turns && turns[t].status.Waiting? {
        return;
      }
      if turns != map[] && forall t :: t in turns ==> turns[t].status.Cancelled? {
        status := JobCancelled;
        return;
      }
      if exists t :: t in turns && turns[t].result.Some? {
        return;
      }
      CloseCrashedTurns();
      PreserveRetryMessage(retry, source);
      status := JobQueued;
    }
  }

  lemma InterruptKeepsLane(rows: Rows)
    ensures Interrupt(rows).agent == rows.agent && Interrupt(rows).user == rows.user
  {
  }

  function CarriedTurns(rows: Rows): set<TurnId> {
    set t | t in rows.turns && Carried(rows, t)
  }

  lemma SameClosable(rows: Rows, before: Rows, lane: AgentId, t: TurnId)
    requires rows.pendings == before.pendings
    requires t in rows.turns && t in before.turns && rows.turns[t] == before.turns[t]
    ensures Closable(rows, lane, t) == Closable(before, lane, t)
    ensures HasWaiting(rows, t) == HasWaiting(before, t)
    ensures HasDeferredApproval(rows, t) == HasDeferredApproval(before, t)
  {
  }

  // Closing with the turns in `left` still to visit.

  ghost predicate ClosedBut(before: Rows, lane: AgentId, left: set<TurnId>, turns: map<TurnId, Turn>, closes: bool) {
    && turns.Keys == before.turns.Keys
    && (forall t :: t in turns ==>
          turns[t] == if t !in left && Closable(before, lane, t) then before.turns[t].(status := Done)
                      else before.turns[t])
    && (closes <==> exists t :: t in before.turns && t !in left && Closable(before, lane, t))
  }

  lemma ClosedNone(before: Rows, lane: AgentId)
    ensures ClosedBut(before, lane, before.turns.Keys, before.turns, false)
  {
    hide Closable;
  }

  lemma StillClosable(rows: Rows, before: Rows, lane: AgentId, left: set<TurnId>, t: TurnId, closes: bool)
    requires ClosedBut(before, lane, left, rows.turns, closes) && t in left && t in rows.turns
    requires rows.pendings == before.pendings
    ensures t in before.turns && rows.turns[t] == before.turns[t]
    ensures Closable(rows, lane, t) == Closable(before, lane, t)
  {
    hide HasWaiting, HasDeferredApproval;
    assert rows.turns[t] == before.turns[t];
    SameClosable(rows, before, lane, t);
  }

  lemma ClosedNext(before: Rows, lane: AgentId, left: set<TurnId>, t: TurnId, turns: map<TurnId, Turn>, closes: bool)
    requires ClosedBut(before, lane, left, turns, closes) && t in left && t in turns
    ensures t in before.turns
    ensures if Closable(before, lane, t)
            then ClosedBut(before, lane, left - {t}, turns[t := turns[t].(status := Done)], true)
            else ClosedBut(before, lane, left - {t}, turns, closes)
  {
    hide Closable;
  }

  lemma ClosedAll(before: Rows, lane: AgentId, turns: map<TurnId, Turn>, closes: bool)
    requires ClosedBut(before, lane, {}, turns, closes)
    ensures CloseQuestions(before, lane).turns == turns
    ensures CloseQuestions(before, lane)
            == before.(turns := turns,
                       status := if closes && (before.status.JobQueued? || before.status.JobStarted?) then JobDone
                                 else before.status)
  {
    hide Closable;
  }

  // A move with only some of the turns visited.

  /** New ids for the turns that may have to be made, one for each cancelled turn. */
  predicate FreshIds(rows: Rows, retries: map<TurnId, TurnId>) {
    && (forall t :: t in rows.turns && rows.turns[t].status.Cancelled? ==> t in retries)
    && (forall t :: t in retries ==> retries[t] !in rows.turns)
    && (forall t, u :: t in retries && u in retries && t != u ==> retries[t] != retries[u])
  }

  /** A cancelled turn among `seen` that has messages. */
  predicate Retried(before: Rows, seen: set<TurnId>, t: TurnId) {
    t in seen && HasStatus(before, t, Cancelled) && HasMessages(before.user, t)
  }

  function RetryIds(before: Rows, seen: set<TurnId>, retries: map<TurnId, TurnId>): set<TurnId> {
    set t | t in retries && Retried(before, seen, t) :: retries[t]
  }

  function MovedTurns(before: Rows, seen: set<TurnId>, lane: AgentId): map<TurnId, Turn> {
    map t | t in before.turns ::
      if t in seen && before.turns[t].status.Queued? then before.turns[t].(agent := lane) else before.turns[t]
  }

  function FreshTurns(ids: set<TurnId>, lane: AgentId): map<TurnId, Turn> {
    map r | r in ids :: Turn(lane, Queued, None)
  }

  function ParkedTurns(before: Rows, seen: set<TurnId>, lane: AgentId, retries: map<TurnId, TurnId>)
    : map<TurnId, Turn>
  {
    MovedTurns(before, seen, lane) + FreshTurns(RetryIds(before, seen, retries), lane)
  }

  function ParkedMessages(before: Rows, seen: set<TurnId>, lane: AgentId, retries: map<TurnId, TurnId>)
    : map<MessageId, UserMessage>
  {
    map m | m in before.user ::
      if before.user[m].turn !in seen then before.user[m]
      else if HasStatus(before, before.user[m].turn, Cancelled) && before.user[m].turn in retries
      then UserMessage(retries[before.user[m].turn], lane, before.user[m].time)
      else before.user[m].(agent := lane)
  }

  /** The rows after a move. */
  function ParkEach(rows: Rows, lane: AgentId, retries: map<TurnId, TurnId>): Rows {
    Rows(JobQueued, lane, ParkedTurns(rows, CarriedTurns(rows), lane, retries),
         ParkedMessages(rows, CarriedTurns(rows), lane, retries), rows.pendings)
  }

  /** The messages still to move with a turn are the ones it had. */
  lemma StillThere(before: Rows, seen: set<TurnId>, t: TurnId, lane: AgentId, retries: map<TurnId, TurnId>)
    requires FreshIds(before, retries) && t in before.turns && t !in seen
    ensures var user := ParkedMessages(before, seen, lane, retries);
            forall m :: m in user && user[m].turn == t <==> m in before.user && before.user[m].turn == t
    ensures var turns := ParkedTurns(before, seen, lane, retries); t in turns && turns[t] == before.turns[t]
  {
  }

  predicate HasMessages(user: map<MessageId, UserMessage>, t: TurnId) {
    exists m :: m in user && user[m].turn == t
  }

  lemma SameMessages(before: Rows, seen: set<TurnId>, t: TurnId, lane: AgentId, retries: map<TurnId, TurnId>)
    requires FreshIds(before, retries) && t in before.turns && t !in seen
    ensures HasMessages(ParkedMessages(before, seen, lane, retries), t) <==> HasMessages(before.user, t)
  {
    hide ParkedMessages, ParkedTurns;
    StillThere(before, seen, t, lane, retries);
    if m :| m in before.user && before.user[m].turn == t {
      var moved := ParkedMessages(before, seen, lane, retries);
      assert m in moved && moved[m].turn == t;
    }
  }

  lemma RetryOne(before: Rows, seen: set<TurnId>, t: TurnId, retries: map<TurnId, TurnId>)
    requires FreshIds(before, retries)
    ensures RetryIds(before, seen + {t}, retries)
            == if t in retries && Retried(before, {t}, t) then RetryIds(before, seen, retries) + {retries[t]}
               else RetryIds(before, seen, retries)
  {
    hide HasMessages, FreshIds;
    forall u | u in retries
      ensures Retried(before, seen + {t}, u) <==> Retried(before, seen, u) || (u == t && Retried(before, {t}, t))
    {
    }
  }

  lemma ParkNothing(before: Rows, seen: set<TurnId>, t: TurnId, lane: AgentId, retries: map<TurnId, TurnId>)
    requires FreshIds(before, retries) && HasStatus(before, t, Cancelled) && t !in seen
    requires !HasMessages(ParkedMessages(before, seen, lane, retries), t)
    ensures ParkedTurns(before, seen + {t}, lane, retries) == ParkedTurns(before, seen, lane, retries)
    ensures ParkedMessages(before, seen + {t}, lane, retries) == ParkedMessages(before, seen, lane, retries)
  {
    SameMessages(before, seen, t, lane, retries);
    RetryOne(before, seen, t, retries);
    assert MovedTurns(before, seen + {t}, lane) == MovedTurns(before, seen, lane);
  }

  lemma ParkCancelled(before: Rows, seen: set<TurnId>, t: TurnId, lane: AgentId, retries: map<TurnId, TurnId>)
    requires FreshIds(before, retries) && HasStatus(before, t, Cancelled) && t !in seen
    requires HasMessages(ParkedMessages(before, seen, lane, retries), t)
    ensures t in retries
    ensures ParkedTurns(before, seen + {t}, lane, retries)
            == ParkedTurns(before, seen, lane, retries)[retries[t] := Turn(lane, Queued, None)]
  {
    hide RetryIds, ParkedMessages, HasMessages;
    SameMessages(before, seen, t, lane, retries);
    RetryOne(before, seen, t, retries);
    assert MovedTurns(before, seen + {t}, lane) == MovedTurns(before, seen, lane);
    hide MovedTurns, FreshIds;
    assert Retried(before, {t}, t);
  }

  lemma ParkCancelledMessages(before: Rows, seen: set<TurnId>, t: TurnId, lane: AgentId, retries: map<TurnId, TurnId>)
    requires FreshIds(before, retries) && HasStatus(before, t, Cancelled) && t !in seen && t in retries
    ensures ParkedMessages(before, seen + {t}, lane, retries)
            == MessagesMoved(ParkedMessages(before, seen, lane, retries), t, retries[t], lane)
  {
    hide FreshIds, ParkedTurns;
    StillThere(before, seen, t, lane, retries);
  }

  lemma ParkQueued(before: Rows, seen: set<TurnId>, t: TurnId, lane: AgentId, retries: map<TurnId, TurnId>)
    requires FreshIds(before, retries) && HasStatus(before, t, Queued) && t !in seen
    ensures ParkedTurns(before, seen + {t}, lane, retries)
            == ParkedTurns(before, seen, lane, retries)[t := before.turns[t].(agent := lane)]
  {
    hide RetryIds, MovedTurns, FreshIds, Retried;
    RetryOne(before, seen, t, retries);
    QueuedStays(before, seen, t, retries);
    MovedOne(before, seen, t, lane);
  }

  lemma MovedOne(before: Rows, seen: set<TurnId>, t: TurnId, lane: AgentId)
    requires HasStatus(before, t, Queued)
    ensures MovedTurns(before, seen + {t}, lane) == MovedTurns(before, seen, lane)[t := before.turns[t].(agent := lane)]
  {
  }

  lemma QueuedStays(before: Rows, seen: set<TurnId>, t: TurnId, retries: map<TurnId, TurnId>)
    requires FreshIds(before, retries) && HasStatus(before, t, Queued)
    ensures t !in RetryIds(before, seen, retries) && !Retried(before, {t}, t)
  {
  }

  lemma ParkQueuedMessages(before: Rows, seen: set<TurnId>, t: TurnId, lane: AgentId, retries: map<TurnId, TurnId>)
    requires FreshIds(before, retries) && HasStatus(before, t, Queued) && t !in seen
    ensures ParkedMessages(before, seen + {t}, lane, retries)
            == MessagesMoved(ParkedMessages(before, seen, lane, retries), t, t, lane)
  {
    hide FreshIds, ParkedTurns;
    StillThere(before, seen, t, lane, retries);
  }

  /** The messages of turn `t` go to turn `to` on the lane. */
  function MessagesMoved(user: map<MessageId, UserMessage>, t: TurnId, to: TurnId, lane: AgentId)
    : map<MessageId, UserMessage>
  {
    map m | m in user :: if user[m].turn == t then UserMessage(to, lane, user[m].time) else user[m]
  }

  lemma ParkedNone(before: Rows, lane: AgentId, retries: map<TurnId, TurnId>)
    ensures ParkedTurns(before, {}, lane, retries) == before.turns
    ensures ParkedMessages(before, {}, lane, retries) == before.user
  {
    assert RetryIds(before, {}, retries) == {};
  }

  lemma RetriesOne(rows: Rows, retries: map<TurnId, TurnId>, t: TurnId)
    requires FreshIds(rows, retries) && t in retries
    requires forall m :: m in rows.user && CarriedCancelled(rows, rows.user[m].turn) ==> rows.user[m].turn == t
    ensures RetryIds(rows, CarriedTurns(rows), retries)
            == if exists m :: m in rows.user && CarriedCancelled(rows, rows.user[m].turn) then {retries[t]} else {}
  {
    hide FreshIds;
    var all := CarriedTurns(rows);
    forall u | u in retries && Retried(rows, all, u)
      ensures u == t && exists m :: m in rows.user && CarriedCancelled(rows, rows.user[m].turn)
    {
      var m :| m in rows.user && rows.user[m].turn == u;
      assert CarriedCancelled(rows, rows.user[m].turn);
    }
    if m :| m in rows.user && CarriedCancelled(rows, rows.user[m].turn) {
      assert Retried(rows, all, t);
    }
  }

  lemma ParkEachTurns(rows: Rows, lane: AgentId, retries: map<TurnId, TurnId>, t: TurnId)
    requires FreshIds(rows, retries) && t in retries
    requires forall m :: m in rows.user && CarriedCancelled(rows, rows.user[m].turn) ==> rows.user[m].turn == t
    ensures ParkedTurns(rows, CarriedTurns(rows), lane, retries) == Park(rows, lane, retries[t]).turns
  {
    hide FreshIds, RetryIds;
    RetriesOne(rows, retries, t);
    assert MovedTurns(rows, CarriedTurns(rows), lane).Keys == rows.turns.Keys;
  }

  lemma ParkEachMessages(rows: Rows, lane: AgentId, retries: map<TurnId, TurnId>, t: TurnId)
    requires FreshIds(rows, retries) && t in retries
    requires forall m :: m in rows.user && CarriedCancelled(rows, rows.user[m].turn) ==> rows.user[m].turn == t
    ensures ParkedMessages(rows, CarriedTurns(rows), lane, retries) == Park(rows, lane, retries[t]).user
  {
    hide FreshIds;
    assert Park(rows, lane, retries[t]).user.Keys == rows.user.Keys;
  }

  lemma ParkRest(rows: Rows, lane: AgentId, retry: TurnId)
    ensures var r := Park(rows, lane, retry); r.status == JobQueued && r.agent == lane && r.pendings == rows.pendings
  {
  }

  /** While one cancelled attempt at most has messages, as in every run, one fresh turn is made at
      most, and the move is the one the runs take. */
  lemma ParkEachIsPark(rows: Rows, lane: AgentId, retries: map<TurnId, TurnId>, t: TurnId)
    requires FreshIds(rows, retries) && t in retries
    requires forall m :: m in rows.user && CarriedCancelled(rows, rows.user[m].turn) ==> rows.user[m].turn == t
    ensures ParkEach(rows, lane, retries) == Park(rows, lane, retries[t])
  {
    hide ParkedTurns, ParkedMessages, FreshIds, CarriedTurns, Park;
    ParkEachTurns(rows, lane, retries, t);
    ParkEachMessages(rows, lane, retries, t);
    ParkRest(rows, lane, retries[t]);
  }
}
