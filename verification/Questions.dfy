/** Answering the questions of a lane: which paused turns close, and when the lane is released. */
module QuestionsModel {
  import opened LifecycleModel
  import opened RecoveryModel

  /** A question that is still to be answered. */
  predicate Asked(rows: Rows, p: PendingId) {
    p in rows.pendings && rows.pendings[p].open && rows.pendings[p].kind.Question?
  }

  /** The questions among `ps` that are still open are answered. */
  function Settled(rows: Rows, ps: set<PendingId>): Rows {
    rows.(pendings := map p | p in rows.pendings ::
                        if p in ps && Asked(rows, p) then rows.pendings[p].(open := false, approved := false)
                        else rows.pendings[p])
  }

  /** One answer: the question is settled, then whatever paused turn of the lane can close closes.
      An answer to anything but an open question is refused. */
  function AnswerOne(rows: Rows, lane: AgentId, p: PendingId): Rows {
    if Asked(rows, p) then CloseQuestions(Settled(rows, {p}), lane) else rows
  }

  function AnswerEach(rows: Rows, lane: AgentId, ps: seq<PendingId>): Rows
    decreases |ps|
  {
    if ps == [] then rows else AnswerOne(AnswerEach(rows, lane, ps[..|ps| - 1]), lane, ps[|ps| - 1])
  }

  /** A chat answer settles every question of the lane at once. */
  function AnswerAll(rows: Rows, lane: AgentId, ps: set<PendingId>): Rows {
    CloseQuestions(Settled(rows, ps), lane)
  }

  // What settling does to the requests that hold a turn.

  lemma SettledDefers(rows: Rows, ps: set<PendingId>, t: TurnId)
    requires t in rows.turns
    ensures HasDeferredApproval(Settled(rows, ps), t) == HasDeferredApproval(rows, t)
  {
    var r := Settled(rows, ps);
    forall p | p in rows.pendings
      ensures (r.pendings[p].turn == t && r.pendings[p].kind.Approval? && OnLatest(r.pendings[p], r.turns[t].result))
              == (rows.pendings[p].turn == t && rows.pendings[p].kind.Approval?
                  && OnLatest(rows.pendings[p], rows.turns[t].result))
    {
    }
  }

  /** Every unanswered request that holds the turn is a question among `ps`. */
  predicate HeldOnlyBy(rows: Rows, ps: set<PendingId>, t: TurnId) {
    forall p :: p in rows.pendings && OpenFor(rows.pendings[p], t) && Blocks(rows.pendings[p].kind) ==>
      rows.pendings[p].kind.Question? && p in ps
  }

  lemma SettledWaitsIff(rows: Rows, ps: set<PendingId>, t: TurnId)
    ensures HasWaiting(Settled(rows, ps), t) <==> !HeldOnlyBy(rows, ps, t)
  {
    var r := Settled(rows, ps);
    if p :| p in rows.pendings && OpenFor(rows.pendings[p], t) && Blocks(rows.pendings[p].kind)
            && !(rows.pendings[p].kind.Question? && p in ps) {
      assert r.pendings[p] == rows.pendings[p];
    }
    if p :| p in r.pendings && OpenFor(r.pendings[p], t) && Blocks(r.pendings[p].kind) {
      assert r.pendings[p] == rows.pendings[p];
    }
  }

  lemma SettledClosable(rows: Rows, ps: set<PendingId>, lane: AgentId, t: TurnId)
    requires t in rows.turns
    ensures Closable(Settled(rows, ps), lane, t)
            <==> rows.turns[t].agent == lane && rows.turns[t].status.Waiting? && HeldOnlyBy(rows, ps, t)
                 && !HasDeferredApproval(rows, t)
  {
    hide HasWaiting, HasDeferredApproval, HeldOnlyBy;
    SettledDefers(rows, ps, t);
    SettledWaitsIff(rows, ps, t);
  }

  lemma SettledTwice(rows: Rows, ps: set<PendingId>, qs: set<PendingId>)
    ensures Settled(Settled(rows, ps), qs) == Settled(rows, ps + qs)
  {
  }

  lemma SettledNothing(rows: Rows, ps: set<PendingId>)
    requires forall p :: p in ps ==> !Asked(rows, p)
    ensures Settled(rows, ps) == rows
  {
    assert Settled(rows, ps).pendings == rows.pendings;
  }

  /** Closing early and settling more afterwards comes to the same as settling it all first. */
  lemma CloseThenSettle(rows: Rows, lane: AgentId, ps: set<PendingId>, qs: set<PendingId>)
    ensures CloseQuestions(Settled(CloseQuestions(Settled(rows, ps), lane), qs), lane)
            == CloseQuestions(Settled(rows, ps + qs), lane)
  {
    hide Closable;
    var some, all := Settled(rows, ps), Settled(rows, ps + qs);
    var early := CloseQuestions(some, lane);
    var later := Settled(early, qs);
    SettledTwice(rows, ps, qs);
    assert later.pendings == all.pendings;
    forall t | t in rows.turns
      ensures Closable(some, lane, t) ==> Closable(all, lane, t)
      ensures Closable(later, lane, t) == (Closable(all, lane, t) && !Closable(some, lane, t))
    {
      SettledClosable(rows, ps, lane, t);
      SettledClosable(rows, ps + qs, lane, t);
      SettledDefers(rows, ps, t);
      SettledDefers(rows, ps + qs, t);
      LaterClosable(later, all, some, lane, t);
    }
    assert CloseQuestions(later, lane).turns == CloseQuestions(all, lane).turns;
  }

  lemma LaterClosable(later: Rows, all: Rows, some: Rows, lane: AgentId, t: TurnId)
    requires t in all.turns && some.turns == all.turns && later.pendings == all.pendings
    requires later.turns == CloseQuestions(some, lane).turns
    requires HasDeferredApproval(some, t) == HasDeferredApproval(all, t)
    requires Closable(some, lane, t) ==> Closable(all, lane, t)
    ensures Closable(later, lane, t) == (Closable(all, lane, t) && !Closable(some, lane, t))
  {
    assert HasWaiting(later, t) == HasWaiting(all, t);
    if !Closable(some, lane, t) {
      assert later.turns[t] == all.turns[t];
      assert HasDeferredApproval(later, t) == HasDeferredApproval(all, t);
    }
  }

  function Elements(ps: seq<PendingId>): set<PendingId> {
    set p | p in ps
  }

  predicate AnyAsked(rows: Rows, ps: seq<PendingId>) {
    exists p :: p in ps && Asked(rows, p)
  }

  lemma SameAsked(rows: Rows, lane: AgentId, ps: set<PendingId>, p: PendingId)
    ensures Asked(CloseQuestions(Settled(rows, ps), lane), p) <==> Asked(rows, p) && p !in ps
  {
  }

  /** Questions answered one by one, in any order, some of them twice or too late, close the same
      turns and end the same jobs as one answer to all of them; if none was open, nothing changes. */
  lemma {:induction false} AnyOrderSameEnd(rows: Rows, lane: AgentId, ps: seq<PendingId>)
    ensures AnswerEach(rows, lane, ps) == if AnyAsked(rows, ps) then AnswerAll(rows, lane, Elements(ps)) else rows
    decreases |ps|
  {
    hide CloseQuestions, Settled, Asked;
    if ps != [] {
      var front, last := ps[..|ps| - 1], ps[|ps| - 1];
      assert ps == front + [last] && Elements(ps) == Elements(front) + {last};
      AnyOrderSameEnd(rows, lane, front);
      if AnyAsked(rows, front) {
        SameAsked(rows, lane, Elements(front), last);
        if Asked(rows, last) && last !in front {
          CloseThenSettle(rows, lane, Elements(front), {last});
        } else {
          SettledMore(rows, Elements(front), last);
        }
      } else {
        SettledNothing(rows, Elements(front));
        SettledTwice(rows, Elements(front), {last});
      }
    }
  }

  lemma SettledMore(rows: Rows, ps: set<PendingId>, p: PendingId)
    requires p in ps || !Asked(rows, p)
    ensures Settled(rows, ps + {p}) == Settled(rows, ps)
  {
    assert Settled(rows, ps + {p}).pendings == Settled(rows, ps).pendings;
  }

  /** Whatever the order of the answers: a paused turn of the job is done in the end if and only if
      it is on the lane, nothing but the questions answered holds it, and its latest response has
      no call that waits for an approval to be carried out. */
  lemma {:induction false} ClosesIff(rows: Rows, lane: AgentId, ps: seq<PendingId>, t: TurnId)
    requires HasStatus(rows, t, Waiting) && AnyAsked(rows, ps)
    ensures HasStatus(AnswerEach(rows, lane, ps), t, Done)
            <==> rows.turns[t].agent == lane && HeldOnlyBy(rows, Elements(ps), t) && !HasDeferredApproval(rows, t)
    ensures HasStatus(AnswerEach(rows, lane, ps), t, Done) || HasStatus(AnswerEach(rows, lane, ps), t, Waiting)
  {
    hide HeldOnlyBy, HasDeferredApproval, Closable, AnyAsked, AnswerEach;
    AnyOrderSameEnd(rows, lane, ps);
    SettledClosable(rows, Elements(ps), lane, t);
  }

  /** And exactly the open questions among those answered are settled, none of them as an approval; every
      other request is as it was. */
  lemma {:induction false} AnswersSettle(rows: Rows, lane: AgentId, ps: seq<PendingId>, p: PendingId)
    requires p in rows.pendings
    ensures p in AnswerEach(rows, lane, ps).pendings
    ensures var before := rows.pendings[p];
            AnswerEach(rows, lane, ps).pendings[p]
            == if p in ps && before.open && before.kind.Question?
               then Pending(before.turn, before.kind, before.call, false, false) else before
  {
    hide AnswerEach, Closable;
    AnyOrderSameEnd(rows, lane, ps);
  }

  // The lane.

  predicate WaitsOnLane(rows: Rows, a: AgentId) {
    exists t :: t in rows.turns && rows.turns[t].agent == a && rows.turns[t].status.Waiting?
  }

  predicate WaitsOn(jobs: map<JobId, Rows>, a: AgentId) {
    exists j :: j in jobs && WaitsOnLane(jobs[j], a)
  }

  function Release(host: Host, a: AgentId): Host {
    if a in host.agents && host.agents[a].status.AgentWaiting? && !WaitsOn(host.jobs, a)
    then host.(agents := host.agents[a := host.agents[a].(status := Idle)])
    else host
  }

  datatype Answer = Answer(job: JobId, question: PendingId)

  /** An answer is for an open question of a job. */
  predicate AsksFor(host: Host, q: Answer) {
    q.job in host.jobs && Asked(host.jobs[q.job], q.question)
  }

  /** The questions of one job that the answers are for. */
  function For(qs: seq<Answer>, j: JobId): set<PendingId> {
    set q | q in qs && q.job == j :: q.question
  }

  /** One answer claimed on a lane, over every job with turns on it. */
  function Claim(host: Host, a: AgentId, q: Answer): Host {
    if AsksFor(host, q) then
      Release(host.(jobs := map k | k in host.jobs :: CloseQuestions(Settled(host.jobs[k], For([q], k)), a)), a)
    else host
  }

  function ClaimEach(host: Host, a: AgentId, qs: seq<Answer>): Host
    decreases |qs|
  {
    if qs == [] then host else Claim(ClaimEach(host, a, qs[..|qs| - 1]), a, qs[|qs| - 1])
  }

  predicate AnyAsksFor(host: Host, qs: seq<Answer>) {
    exists q :: q in qs && AsksFor(host, q)
  }

  /** All the answers at once. */
  function ClaimedJobs(host: Host, a: AgentId, qs: seq<Answer>): map<JobId, Rows> {
    map k | k in host.jobs :: CloseQuestions(Settled(host.jobs[k], For(qs, k)), a)
  }

  lemma ForMore(qs: seq<Answer>, q: Answer, k: JobId)
    ensures For(qs + [q], k) == For(qs, k) + For([q], k)
  {
  }

  lemma ClaimedAgain(host: Host, a: AgentId, front: seq<Answer>, q: Answer)
    ensures ClaimedJobs(host.(jobs := ClaimedJobs(host, a, front)), a, [q]) == ClaimedJobs(host, a, front + [q])
  {
    hide CloseQuestions, Settled, For;
    var all := ClaimedJobs(host, a, front + [q]);
    var twice := ClaimedJobs(host.(jobs := ClaimedJobs(host, a, front)), a, [q]);
    forall k | k in host.jobs
      ensures twice[k] == all[k]
    {
      ForMore(front, q, k);
      CloseThenSettle(host.jobs[k], a, For(front, k), For([q], k));
    }
  }

  lemma ClaimedRefused(host: Host, a: AgentId, front: seq<Answer>, q: Answer)
    requires !AsksFor(host, q) || q in front
    ensures ClaimedJobs(host, a, front + [q]) == ClaimedJobs(host, a, front)
  {
    hide CloseQuestions, Settled;
    forall k | k in host.jobs
      ensures Settled(host.jobs[k], For(front + [q], k)) == Settled(host.jobs[k], For(front, k))
    {
      ForMore(front, q, k);
      if q.job == k {
        assert For([q], k) == {q.question};
        SettledMore(host.jobs[k], For(front, k), q.question);
      } else {
        assert For([q], k) == {};
        assert For(front, k) + {} == For(front, k);
      }
    }
    hide For;
  }

  lemma ClaimedFirst(host: Host, a: AgentId, front: seq<Answer>, q: Answer)
    requires !AnyAsksFor(host, front)
    ensures ClaimedJobs(host, a, front + [q]) == ClaimedJobs(host, a, [q])
  {
    hide CloseQuestions, Settled;
    forall k | k in host.jobs
      ensures Settled(host.jobs[k], For(front + [q], k)) == Settled(host.jobs[k], For([q], k))
    {
      ForMore(front, q, k);
      forall p | p in For(front, k)
        ensures !Asked(host.jobs[k], p)
      {
        assert Answer(k, p) in front;
        assert AsksFor(host, Answer(k, p)) == Asked(host.jobs[k], p);
      }
      SettledNothing(host.jobs[k], For(front, k));
      SettledTwice(host.jobs[k], For(front, k), For([q], k));
    }
    hide For;
  }

  /** A turn that waits after more answers waited after fewer. */
  lemma WaitsLess(host: Host, a: AgentId, qs: seq<Answer>)
    requires WaitsOn(ClaimedJobs(host, a, qs), a)
    ensures WaitsOn(host.jobs, a)
  {
    hide Closable;
    var j :| j in host.jobs && WaitsOnLane(ClaimedJobs(host, a, qs)[j], a);
    assert WaitsOnLane(host.jobs[j], a);
  }

  lemma AskedAfter(host: Host, a: AgentId, front: seq<Answer>, q: Answer)
    ensures AsksFor(host.(jobs := ClaimedJobs(host, a, front)), q) <==> AsksFor(host, q) && q !in front
  {
    if q.job in host.jobs {
      SameAsked(host.jobs[q.job], a, For(front, q.job), q.question);
      assert q.question in For(front, q.job) <==> q in front by {
        if q.question in For(front, q.job) {
          assert q == Answer(q.job, q.question);
        }
      }
    }
  }

  function ReleaseAt(host: Host, jobs: map<JobId, Rows>, a: AgentId): Host {
    Release(host.(jobs := jobs), a)
  }

  lemma ReleaseTwice(host: Host, jobs: map<JobId, Rows>, later: map<JobId, Rows>, a: AgentId)
    requires WaitsOn(later, a) ==> WaitsOn(jobs, a)
    ensures ReleaseAt(ReleaseAt(host, jobs, a), later, a) == ReleaseAt(host, later, a)
  {
  }

  /** Answers across the jobs of a lane, in any order, come to all of them at once; the lane is
      looked at after each, and that comes to looking at it in the end. */
  lemma {:induction false} ClaimEachIs(host: Host, a: AgentId, qs: seq<Answer>)
    ensures ClaimEach(host, a, qs)
            == if AnyAsksFor(host, qs) then ReleaseAt(host, ClaimedJobs(host, a, qs), a) else host
    decreases |qs|
  {
    if qs != [] {
      var front, q := qs[..|qs| - 1], qs[|qs| - 1];
      assert qs == front + [q];
      ClaimEachIs(host, a, front);
      hide CloseQuestions, Settled, For, ClaimedJobs, AsksFor, WaitsOn;
      if AnyAsksFor(host, front) {
        ClaimOnTop(host, a, front, q);
      } else {
        ClaimedFirst(host, a, front, q);
        ClaimIs(host, a, q);
      }
    }
  }

  lemma ClaimIs(host: Host, a: AgentId, q: Answer)
    ensures Claim(host, a, q) == if AsksFor(host, q) then ReleaseAt(host, ClaimedJobs(host, a, [q]), a) else host
  {
  }

  lemma ClaimOnTop(host: Host, a: AgentId, front: seq<Answer>, q: Answer)
    ensures Claim(ReleaseAt(host, ClaimedJobs(host, a, front), a), a, q)
            == ReleaseAt(host, ClaimedJobs(host, a, front + [q]), a)
  {
    var jobs := ClaimedJobs(host, a, front);
    var mid := ReleaseAt(host, jobs, a);
    var bare := host.(jobs := jobs);
    assert mid.jobs == jobs;
    ClaimIs(mid, a, q);
    AskedAfter(host, a, front, q);
    assert AsksFor(mid, q) == AsksFor(bare, q);
    assert ClaimedJobs(mid, a, [q]) == ClaimedJobs(bare, a, [q]);
    if AsksFor(mid, q) {
      ClaimedAgain(host, a, front, q);
      if WaitsOn(ClaimedJobs(bare, a, [q]), a) {
        WaitsLess(bare, a, [q]);
      }
      ReleaseTwice(host, jobs, ClaimedJobs(host, a, front + [q]), a);
    } else {
      ClaimedRefused(host, a, front, q);
    }
  }

  /** A paused turn of the lane that the answers do not free: a request that is none of the
      questions answered holds it, or its latest response has a deferred approval. */
  predicate StillHeld(host: Host, a: AgentId, qs: seq<Answer>, j: JobId, t: TurnId)
    requires j in host.jobs && t in host.jobs[j].turns
  {
    var rows := host.jobs[j];
    rows.turns[t].agent == a && rows.turns[t].status.Waiting? &&
    (!HeldOnlyBy(rows, For(qs, j), t) || HasDeferredApproval(rows, t))
  }

  /** After any answers, in any order, to questions of any jobs of the lane, a lane that waited is
      released if and only if the answers free every paused turn on it. A lane that did not wait is left
      as it was, and so is every other one, and all of them when no answer is for an open question. */
  lemma {:induction false} ReleasedIff(host: Host, a: AgentId, qs: seq<Answer>)
    requires a in host.agents
    ensures var r := ClaimEach(host, a, qs);
            && r.agents.Keys == host.agents.Keys
            && (if host.agents[a].status.AgentWaiting? && AnyAsksFor(host, qs)
                   && forall j, t :: j in host.jobs && t in host.jobs[j].turns ==> !StillHeld(host, a, qs, j, t)
                then r.agents[a] == host.agents[a].(status := Idle)
                else r.agents[a] == host.agents[a])
            && (forall b :: b in host.agents && b != a ==> r.agents[b] == host.agents[b])
  {
    ClaimEachIs(host, a, qs);
    WaitsIff(host, a, qs);
    hide ClaimEach, ClaimedJobs, StillHeld, WaitsOn;
  }

  lemma WaitsIff(host: Host, a: AgentId, qs: seq<Answer>)
    ensures WaitsOn(ClaimedJobs(host, a, qs), a)
            <==> exists j, t :: j in host.jobs && t in host.jobs[j].turns && StillHeld(host, a, qs, j, t)
  {
    hide For;
    var jobs := ClaimedJobs(host, a, qs);
    forall j, t | j in host.jobs && t in host.jobs[j].turns
      ensures t in jobs[j].turns
      ensures jobs[j].turns[t].agent == a && jobs[j].turns[t].status.Waiting? <==> StillHeld(host, a, qs, j, t)
    {
      SettledClosable(host.jobs[j], For(qs, j), a, t);
      hide HeldOnlyBy, HasDeferredApproval, Closable;
    }
    hide CloseQuestions, Settled, StillHeld;
    if WaitsOn(jobs, a) {
      var j :| j in jobs && WaitsOnLane(jobs[j], a);
      var t :| t in jobs[j].turns && jobs[j].turns[t].agent == a && jobs[j].turns[t].status.Waiting?;
      assert t in host.jobs[j].turns by {
        ClaimedTurns(host, a, qs, j);
      }
    }
    if j, t :| j in host.jobs && t in host.jobs[j].turns && StillHeld(host, a, qs, j, t) {
      assert WaitsOnLane(jobs[j], a);
    }
  }

  lemma ClaimedTurns(host: Host, a: AgentId, qs: seq<Answer>, j: JobId)
    requires j in host.jobs
    ensures ClaimedJobs(host, a, qs)[j].turns.Keys == host.jobs[j].turns.Keys
  {
  }
}
