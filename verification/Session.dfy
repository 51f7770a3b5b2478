/** One protocol session: its outbound queue, and the two places that keep frames back from it. */
module SessionModel {
  import opened Outbox

  datatype Reply =
    | Page(hostSeq: nat, nextSeq: nat, more: bool)
    | Resync(minSeq: nat)
    | Failed
    | Other

  datatype Frame =
    | Welcome(hostSeq: nat)
    | Evt(e: Event)
    | Tick
    | Res(reply: Reply)

  datatype Phase = Hello | Auth | Ready | Paired

  datatype SessionState = SessionState(
    phase: Phase,
    pending: seq<Frame>,
    deferred: seq<Frame>,
    held: seq<Frame>,
    holdLive: bool,
    replaying: bool,
    inRequest: bool,
    closing: bool,
    limit: nat)

  const FRESH_PHASE := Hello

  function Fresh(limit: nat): SessionState {
    SessionState(FRESH_PHASE, [], [], [], false, false, false, false, limit)
  }

  /** The outbound queue is bounded: a frame that does not fit starts the slow-consumer close. */
  function Enqueue(s: SessionState, f: Frame): SessionState {
    if s.closing then s
    else if |s.pending| >= s.limit then s.(closing := true)
    else s.(pending := s.pending + [f])
  }

  function EnqueueAll(s: SessionState, fs: seq<Frame>): SessionState {
    if fs == [] then s else Enqueue(EnqueueAll(s, fs[..|fs| - 1]), fs[|fs| - 1])
  }

  function Deliver(s: SessionState, f: Frame): SessionState {
    if s.closing || s.phase != Ready then s
    else if s.holdLive && !s.replaying then s.(held := s.held + [f])
    else if s.inRequest then s.(deferred := s.deferred + [f])
    else Enqueue(s, f)
  }

  function DeliverAll(s: SessionState, fs: seq<Frame>): SessionState {
    if fs == [] then s else Deliver(DeliverAll(s, fs[..|fs| - 1]), fs[|fs| - 1])
  }

  function HoldLive(s: SessionState): SessionState {
    s.(holdLive := true)
  }

  function Replay(s: SessionState, f: Frame): SessionState {
    Deliver(s.(replaying := true), f).(replaying := false)
  }

  function ReplayAll(s: SessionState, es: seq<Event>): SessionState {
    if es == [] then s else Replay(ReplayAll(s, es[..|es| - 1]), Evt(es[|es| - 1]))
  }

  /** Whether a held frame is still wanted once the page reaches `high`. */
  predicate Survives(f: Frame, high: nat) {
    f.Evt? ==> f.e.s > high
  }

  function Surviving(fs: seq<Frame>, high: nat): seq<Frame> {
    if fs == [] then []
    else
      var rest := Surviving(fs[..|fs| - 1], high);
      if Survives(fs[|fs| - 1], high) then rest + [fs[|fs| - 1]] else rest
  }

  function ReleaseLive(s: SessionState, high: nat): SessionState {
    DeliverAll(s.(holdLive := false, held := []), Surviving(s.held, high))
  }

  function BeginRequest(s: SessionState): SessionState {
    s.(inRequest := true)
  }

  /** The response goes out first, then whatever was deferred while the request ran. */
  function EndRequest(s: SessionState, reply: Reply): SessionState {
    EnqueueAll(s.(inRequest := false, deferred := []), [Res(reply)] + s.deferred)
  }

  function EnterReady(s: SessionState, hostSeq: nat): SessionState {
    Enqueue(s.(phase := Ready), Welcome(hostSeq))
  }

  function Frames(es: seq<Event>): (fs: seq<Frame>)
    ensures |fs| == |es| && forall i :: 0 <= i < |es| ==> fs[i] == Evt(es[i])
  {
    seq(|es|, i requires 0 <= i < |es| => Evt(es[i]))
  }

  // ---- what the queue operations amount to ------------------------------------------------

  /** A session that is still open after queueing has queued everything, in order. */
  lemma {:induction false} EnqueueAllAppends(s: SessionState, fs: seq<Frame>)
    ensures var t := EnqueueAll(s, fs);
            && (s.closing ==> t == s)
            && t == s.(pending := t.pending, closing := t.closing)
            && (!t.closing ==> t.pending == s.pending + fs)
            && s.pending <= t.pending <= s.pending + fs
            && (!s.closing && |s.pending| + |fs| <= s.limit ==> !t.closing)
  {
    if fs != [] {
      EnqueueAllAppends(s, fs[..|fs| - 1]);
      assert fs == fs[..|fs| - 1] + [fs[|fs| - 1]];
      assert s.pending + fs == s.pending + fs[..|fs| - 1] + [fs[|fs| - 1]];
    } else {
      assert s.pending + fs == s.pending;
    }
  }

  lemma {:induction false} UnreadyGetsNothing(s: SessionState, fs: seq<Frame>)
    requires s.phase != Ready
    ensures DeliverAll(s, fs) == s
  {
    if fs != [] {
      UnreadyGetsNothing(s, fs[..|fs| - 1]);
    }
  }

  lemma {:induction false} DeliverAllQueues(s: SessionState, fs: seq<Frame>)
    requires s.phase == Ready && !s.holdLive && !s.inRequest
    ensures DeliverAll(s, fs) == EnqueueAll(s, fs)
  {
    if fs != [] {
      DeliverAllQueues(s, fs[..|fs| - 1]);
      EnqueueAllAppends(s, fs[..|fs| - 1]);
    }
  }

  /** How a session opens: nothing fanned out before it is ready reaches it; the welcome is the
      first frame it queues, and then come the frames fanned out from there on, in order. */
  lemma OpensWithWelcome(limit: nat, early: seq<Frame>, hostSeq: nat, later: seq<Frame>)
    ensures var t := DeliverAll(EnterReady(DeliverAll(Fresh(limit), early), hostSeq), later);
            && t.phase == Ready && t.held == [] && t.deferred == []
            && t.pending <= [Welcome(hostSeq)] + later && (limit > 0 ==> t.pending != [])
            && (!t.closing ==> t.pending == [Welcome(hostSeq)] + later)
            && (limit > |later| ==> !t.closing)
  {
    UnreadyGetsNothing(Fresh(limit), early);
    var s := EnterReady(Fresh(limit), hostSeq);
    DeliverAllQueues(s, later);
    EnqueueAllAppends(s, later);
    assert limit > 0 ==> s.pending == [Welcome(hostSeq)];
  }

  lemma EnqueueOne(s: SessionState, fs: seq<Frame>)
    requires fs != []
    ensures EnqueueAll(s, fs[..1]) == Enqueue(s, fs[0])
  {
    assert fs[..1][..0] == [];
  }

  lemma EnqueueNext(s: SessionState, fs: seq<Frame>, i: nat)
    requires i < |fs|
    ensures EnqueueAll(s, fs[..i + 1]) == Enqueue(EnqueueAll(s, fs[..i]), fs[i])
  {
    assert fs[..i + 1][..i] == fs[..i];
  }

  /** While a request runs and nothing is held, delivered frames wait behind its response. */
  lemma {:induction false} DeliverAllDefers(s: SessionState, fs: seq<Frame>)
    requires s.phase == Ready && s.inRequest && !s.holdLive && !s.closing
    ensures DeliverAll(s, fs) == s.(deferred := s.deferred + fs)
  {
    if fs == [] {
      assert s.deferred + fs == s.deferred;
    } else {
      DeliverAllDefers(s, fs[..|fs| - 1]);
      assert s.deferred + fs == s.deferred + fs[..|fs| - 1] + [fs[|fs| - 1]];
    }
  }

  lemma {:induction false} DeliverAllHolds(s: SessionState, fs: seq<Frame>)
    requires s.phase == Ready && s.holdLive && !s.replaying && !s.closing
    ensures DeliverAll(s, fs) == s.(held := s.held + fs)
  {
    if fs == [] {
      assert s.held + fs == s.held;
    } else {
      DeliverAllHolds(s, fs[..|fs| - 1]);
      assert s.held + fs == s.held + fs[..|fs| - 1] + [fs[|fs| - 1]];
    }
  }

  lemma {:induction false} ReplayAllDefers(s: SessionState, es: seq<Event>)
    requires s.phase == Ready && s.inRequest && !s.replaying && !s.closing
    ensures ReplayAll(s, es) == s.(deferred := s.deferred + Frames(es))
  {
    if es == [] {
      assert s.deferred + Frames(es) == s.deferred;
    } else {
      ReplayAllDefers(s, es[..|es| - 1]);
      assert Frames(es) == Frames(es[..|es| - 1]) + [Evt(es[|es| - 1])];
      assert s.deferred + Frames(es) == s.deferred + Frames(es[..|es| - 1]) + [Evt(es[|es| - 1])];
    }
  }

  /** A session that is closing stays so. */
  lemma {:induction false} ClosedReplays(s: SessionState, es: seq<Event>)
    requires s.closing
    ensures ReplayAll(s, es).closing
  {
    if es != [] {
      ClosedReplays(s, es[..|es| - 1]);
    }
  }

  lemma {:induction false} ClosedDelivers(s: SessionState, fs: seq<Frame>)
    requires s.closing
    ensures DeliverAll(s, fs).closing
  {
    if fs != [] {
      ClosedDelivers(s, fs[..|fs| - 1]);
    }
  }

  /** The filter keeps exactly the wanted frames, each as often as it was held. */
  lemma {:induction false} SurvivingCounts(fs: seq<Frame>, high: nat, f: Frame)
    ensures multiset(Surviving(fs, high))[f] == if Survives(f, high) then multiset(fs)[f] else 0
  {
    if fs != [] {
      SurvivingCounts(fs[..|fs| - 1], high, f);
      assert fs == fs[..|fs| - 1] + [fs[|fs| - 1]];
    }
  }

  lemma SurvivingMembers(fs: seq<Frame>, high: nat, f: Frame)
    ensures f in Surviving(fs, high) <==> f in fs && Survives(f, high)
  {
    SurvivingCounts(fs, high, f);
    assert f in Surviving(fs, high) <==> f in multiset(Surviving(fs, high));
    assert f in fs <==> f in multiset(fs);
  }
}

/** The session object: the same fields, changed in place. */
module Session {
  import opened SessionModel
  import Model = SessionModel

  class SessionPeer {
    var phase: Phase
    var pending: seq<Frame>
    var deferred: seq<Frame>
    var held: seq<Frame>
    var holdLive: bool
    var replaying: bool
    var inRequest: bool
    var closing: bool
    const limit: nat

    function Value(): SessionState
      reads this
    {
      SessionState(phase, pending, deferred, held, holdLive, replaying, inRequest, closing, limit)
    }

    constructor (queueLimit: nat)
      ensures Value() == Fresh(queueLimit)
    {
      phase, pending, deferred, held := FRESH_PHASE, [], [], [];
      holdLive, replaying, inRequest, closing := false, false, false, false;
      limit := queueLimit;
    }

    method Enqueue(f: Frame)
      modifies this
      ensures Value() == Model.Enqueue(old(Value()), f)
    {
      if closing { return; }
      if |pending| >= limit {
        closing := true;
        return;
      }
      pending := pending + [f];
    }

    method Deliver(f: Frame)
      modifies this
      ensures Value() == Model.Deliver(old(Value()), f)
    {
      if closing || phase != Ready { return; }
      if holdLive && !replaying {
        held := held + [f];
        return;
      }
      if inRequest {
        deferred := deferred + [f];
        return;
      }
      Enqueue(f);
    }

    method HoldLive()
      modifies this
      ensures Value() == Model.HoldLive(old(Value()))
    {
      holdLive := true;
    }

    method Replay(f: Frame)
      modifies this
      ensures Value() == Model.Replay(old(Value()), f)
    {
      replaying := true;
      Deliver(f);
      replaying := false;
    }

    method ReleaseLive(high: nat)
      modifies this
      ensures Value() == Model.ReleaseLive(old(Value()), high)
    {
      holdLive := false;
      var frames := held;
      held := [];
      ghost var start := Value();
      var i := 0;
      while i < |frames|
        invariant 0 <= i <= |frames|
        invariant Value() == DeliverAll(start, Surviving(frames[..i], high))
      {
        assert frames[..i + 1][..i] == frames[..i];
        ghost var kept := Surviving(frames[..i], high);
        if !(frames[i].Evt? && frames[i].e.s <= high) {
          assert Surviving(frames[..i + 1], high) == kept + [frames[i]];
          assert (kept + [frames[i]])[..|kept|] == kept;
          Deliver(frames[i]);
        }
        i := i + 1;
      }
      assert frames[..i] == frames;
    }

    method BeginRequest()
      modifies this
      ensures Value() == Model.BeginRequest(old(Value()))
    {
      inRequest := true;
    }

    method EndRequest(reply: Reply)
      modifies this
      ensures Value() == Model.EndRequest(old(Value()), reply)
    {
      inRequest := false;
      var frames := deferred;
      deferred := [];
      ghost var start := Value();
      ghost var all := [Res(reply)] + frames;
      Enqueue(Res(reply));
      EnqueueOne(start, all);
      var i := 0;
      while i < |frames|
        invariant 0 <= i <= |frames|
        invariant Value() == EnqueueAll(start, all[..i + 1])
      {
        EnqueueNext(start, all, i + 1);
        Enqueue(frames[i]);
        i := i + 1;
      }
      assert all[..i + 1] == all;
    }

    method EnterReady(hostSeq: nat)
      modifies this
      ensures Value() == Model.EnterReady(old(Value()), hostSeq)
    {
      phase := Ready;
      Enqueue(Welcome(hostSeq));
    }

    /** One round of the send loop. Nothing leaves a session that is closing. */
    method SendOne() returns (sent: seq<Frame>)
      modifies this
      ensures old(closing) || old(pending) == [] ==> sent == [] && Value() == old(Value())
      ensures !old(closing) && old(pending) != [] ==>
                sent + pending == old(pending) && |sent| == 1 && Value() == old(Value()).(pending := pending)
    {
      sent := [];
      if !closing && pending != [] {
        sent := [pending[0]];
        pending := pending[1..];
      }
    }
  }
}
