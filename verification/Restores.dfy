/** What a host that was restored from an older log does to the client: exactly when it matters. */
module Restores {
  import opened Outbox
  import opened SessionModel
  import opened ClientModel
  import opened Replication
  import opened ReplicationSafety
  import opened CatchUpRounds
  import opened ServingRuns
  import opened CatchUpRuns

  // ---- runs without a harmful cut ---------------------------------------------------------

  /** No host stop of the run cuts the log below a position that the client holds then. */
  ghost predicate Uncut(w: World, actions: seq<Action>)
    requires w.box.Valid()
    decreases |actions|
  {
    actions == [] ||
    (var front, last := actions[..|actions| - 1], actions[|actions| - 1];
     && Uncut(w, front)
     && (last.HostStop? ==> Reaches(last.kept, Run(w, front).cl)))
  }

  lemma {:induction false} UncutIsNeverStale(w: World, actions: seq<Action>)
    requires w.box.Valid() && !w.stale && Uncut(w, actions)
    ensures !Run(w, actions).stale
    decreases |actions|
  {
    hide Do, Reaches;
    if actions != [] {
      UncutIsNeverStale(w, actions[..|actions| - 1]);
      UncutStep(Run(w, actions[..|actions| - 1]), actions[|actions| - 1]);
    }
  }

  lemma {:induction false} UncutStep(w: World, a: Action)
    requires w.box.Valid() && !w.stale && (a.HostStop? ==> Reaches(a.kept, w.cl))
    ensures !Do(w, a).stale
  {
    hide Reaches, OnFrame, Deliver, ReplayAll, ReleaseLive, EndRequest, EnterReady, AtPage;
  }

  /** Whatever else happens, as long as the client starts within the log and no stop of the host
      loses a position the client holds, the client hands over the log. */
  lemma {:induction false} HandsOverUnlessCut(box: Box, lastSeq: nat, actions: seq<Action>)
    requires box.Valid() && lastSeq <= box.Head() && Uncut(Start(box, lastSeq), actions)
    ensures InOrder(Run(Start(box, lastSeq), actions))
  {
    UncutIsNeverStale(Start(box, lastSeq), actions);
    HandsOverTheLog(box, lastSeq, actions);
  }

  // ---- one restore, and the next welcome --------------------------------------------------

  function Emits(es: seq<Event>): seq<Action> {
    if es == [] then [] else Emits(es[..|es| - 1]) + [Emit(es[|es| - 1].kind, es[|es| - 1].data)]
  }

  lemma {:induction false} EmitStep(w: World, e: Event)
    requires w.box.Valid() && e.s == w.box.Head() + 1
    ensures var d := Do(w, Emit(e.kind, e.data)); d == w.(box := Box(w.box.log + [e], w.box.base), todo := d.todo)
  {
  }

  lemma {:induction false} EmitsRun(w: World, es: seq<Event>)
    requires w.box.Valid() && Numbered(w.box.log + es)
    ensures var d := Run(w, Emits(es)); d == w.(box := Box(w.box.log + es, w.box.base), todo := d.todo)
    decreases |es|
  {
    hide Do, Run;
    if es == [] {
      RunNone(w);
      assert w.box.log + es == w.box.log;
    } else {
      var front, last := es[..|es| - 1], es[|es| - 1];
      EmitsFront(w.box.log, es);
      EmitsRun(w, front);
      EmitStep(Run(w, Emits(front)), last);
      RunNext(w, Emits(front), Emit(last.kind, last.data));
    }
  }

  lemma {:induction false} EmitsFront(log: seq<Event>, es: seq<Event>)
    requires es != [] && Numbered(log + es)
    ensures var front, last := es[..|es| - 1], es[|es| - 1];
            Numbered(log + front) && last.s == |log + front| + 1 && log + front + [last] == log + es
  {
    var front, last := es[..|es| - 1], es[|es| - 1];
    assert log + front + [last] == log + es;
    assert (log + es)[|log + front|] == last;
    assert forall i :: 0 <= i < |log + front| ==> (log + front)[i] == (log + es)[i];
  }

  function Reconnect(limit: nat): seq<Action> {
    [Connect(limit), Attach] + PASS
  }

  lemma {:induction false} ReconnectSteps(w: World, limit: nat)
    requires w.box.Valid() && !w.up && limit > 0
    ensures var head := w.box.Head();
            var w1 := w.(up := true, link := NoLink().(ss := Open(limit, []), hello := head));
            && Do(w, Connect(limit)) == w1
            && Do(w1, Attach) == w1.(link := w1.link.(attached := true, ss := Open(limit, [Welcome(head)])))
  {
    hide OnFrame, ReplayAll, EndRequest, ReleaseLive;
  }

  /** The client comes back to a host that is at the end of its log. */
  lemma {:induction false} ReconnectRun(w: World, limit: nat)
    requires w.box.Valid() && !w.up && w.cl.flight.NoFlight? && limit > 0
    ensures var d := Run(w, Reconnect(limit));
            && d.box == w.box && d.cl == OnWelcome(w.cl, w.box.Head()).cl
            && d.stale == (w.stale && w.cl.lastSeq <= w.box.Head())
            && Resting(d) && d.link.ss.limit == limit
  {
    hide Do;
    var head := w.box.Head();
    ReconnectSteps(w, limit);
    RunOne(w, Connect(limit));
    RunNext(w, [Connect(limit)], Attach);
    assert [Connect(limit)] + [Attach] == [Connect(limit), Attach];
    RunConcat(w, [Connect(limit), Attach], PASS);
    assert [Welcome(head)] + [] == [Welcome(head)];
    PassFrame(Run(w, [Connect(limit), Attach]), Welcome(head), []);
    assert forall c: nat :: [] + [c] == [c];
  }

  /** The host is stopped and comes back with its first `kept` entries, of which the first `base`
      are pruned, emits `es`, and the client connects again. */
  function Restore(kept: nat, base: nat, es: seq<Event>, limit: nat): seq<Action> {
    [HostStop(kept, base)] + Emits(es) + Reconnect(limit)
  }

  /** A log the host can come back with: a backup may hold rows that were pruned since. */
  predicate Kept(box: Box, kept: nat, base: nat) {
    base <= kept <= box.Head() && base <= box.base
  }

  lemma {:induction false} StopStep(w: World, kept: nat, base: nat)
    requires w.box.Valid() && Kept(w.box, kept, base)
    ensures var d := Do(w, HostStop(kept, base));
            && d.box.Valid() && d.box == Box(w.box.log[..kept], base)
            && !d.up && d.cl == OnClose(w.cl) && d.cl.flight.NoFlight? && d.cl.lastSeq == w.cl.lastSeq
            && d.stale == (w.stale || !Reaches(kept, w.cl))
  {
  }

  lemma {:induction false} RestoreRun(w: World, kept: nat, base: nat, es: seq<Event>, limit: nat)
    requires w.box.Valid() && Kept(w.box, kept, base) && Numbered(w.box.log[..kept] + es) && limit > 0
    ensures var d := Run(w, Restore(kept, base, es, limit));
            && d.box == Box(w.box.log[..kept] + es, base)
            && d.cl == OnWelcome(OnClose(w.cl), kept + |es|).cl
            && d.stale == ((w.stale || !Reaches(kept, w.cl)) && w.cl.lastSeq <= kept + |es|)
            && Resting(d) && d.link.ss.limit == limit
  {
    hide Do, Run, OnWelcome, Resting, Reaches, OnClose;
    StopStep(w, kept, base);
    var w1 := Do(w, HostStop(kept, base));
    RunOne(w, HostStop(kept, base));
    EmitsRun(w1, es);
    var w2 := Run(w1, Emits(es));
    ReconnectRun(w2, limit);
    RunConcat(w, [HostStop(kept, base)], Emits(es));
    RunConcat(w, [HostStop(kept, base)] + Emits(es), Reconnect(limit));
  }

  /** The events that the client handed over above `kept` were emitted again just as they were. */
  ghost predicate Rewritten(w: World, kept: nat, es: seq<Event>) {
    forall s :: kept < s && w.cl.from < s <= w.cl.lastSeq && s <= w.box.Head() && s <= kept + |es| ==>
      es[s - kept - 1] == w.box.At(s)
  }

  /** What was handed over is in the log `log`. */
  ghost predicate Handed(c: ClientState, log: seq<Event>) {
    c.from + |c.handed| == c.lastSeq <= |log| && forall i :: 0 <= i < |c.handed| ==> c.handed[i] == log[c.from + i]
  }

  lemma {:induction false} AgreedIsHanded(c: ClientState, log: seq<Event>)
    requires Agrees(c, log)
    ensures Handed(c, log)
  {
  }

  lemma {:induction false} RewrittenIsHanded(w: World, kept: nat, es: seq<Event>)
    requires Handed(w.cl, w.box.log) && kept <= w.box.Head() && w.cl.lastSeq <= kept + |es| && Rewritten(w, kept, es)
    ensures Handed(w.cl, w.box.log[..kept] + es)
  {
    var log, c := w.box.log[..kept] + es, w.cl;
    forall i | 0 <= i < |c.handed|
      ensures c.handed[i] == log[c.from + i]
    {
      var s := c.from + i + 1;
      assert c.handed[i] == w.box.At(s);
      if s > kept {
        assert log[s - 1] == es[s - kept - 1];
      }
    }
  }

  lemma {:induction false} HandedIsRewritten(w: World, kept: nat, es: seq<Event>)
    requires Handed(w.cl, w.box.log) && kept <= w.box.Head() && Handed(w.cl, w.box.log[..kept] + es)
    ensures Rewritten(w, kept, es)
  {
    var log, c := w.box.log[..kept] + es, w.cl;
    forall s | kept < s && c.from < s <= c.lastSeq && s <= w.box.Head() && s <= kept + |es|
      ensures es[s - kept - 1] == w.box.At(s)
    {
      var i := s - 1 - c.from;
      assert c.handed[i] == w.box.At(s) && c.handed[i] == log[s - 1];
    }
  }

  lemma {:induction false} InOrderIsHanded(w: World)
    ensures InOrder(w) <==> Handed(w.cl, w.box.log)
  {
    if InOrder(w) {
      forall i | 0 <= i < |w.cl.handed|
        ensures w.cl.handed[i] == w.box.log[w.cl.from + i]
      {
        assert w.cl.handed[i] == w.box.At(w.cl.from + 1 + i);
      }
    }
  }

  lemma {:induction false} ReturnInOrderIff(w: World, d: World, kept: nat, es: seq<Event>)
    requires Handed(w.cl, w.box.log) && kept <= w.box.Head() && w.cl.lastSeq <= kept + |es|
    requires d.box.log == w.box.log[..kept] + es && d.cl == OnWelcome(OnClose(w.cl), kept + |es|).cl
    ensures InOrder(d) <==> Rewritten(w, kept, es)
  {
    WelcomeKeepsHanded(w.cl, kept + |es|);
    InOrderIsHanded(d);
    hide OnWelcome, OnClose, InOrder, Rewritten;
    if d.cl.handed == [] {
      NothingHanded(w, kept, es);
    } else if Rewritten(w, kept, es) {
      RewrittenIsHanded(w, kept, es);
    } else if Handed(w.cl, d.box.log) {
      HandedIsRewritten(w, kept, es);
    }
  }

  /** A restore, any growth and the next welcome, from any state that was in order. The client is
      in order again if and only if it is ahead of the host by then, so that the welcome resets it,
      or all it handed over above the cut was emitted again just as it was. */
  lemma {:induction false} RestoreNoticedIff(w: World, kept: nat, base: nat, es: seq<Event>, limit: nat)
    requires Safe(w) && !w.stale && Kept(w.box, kept, base) && Numbered(w.box.log[..kept] + es) && limit > 0
    ensures InOrder(Run(w, Restore(kept, base, es, limit)))
            <==> w.cl.lastSeq > kept + |es| || Rewritten(w, kept, es)
  {
    hide Run, Restore, Resting, Rewritten, InOrder, OnWelcome, OnClose, LinkOk, Reaches, Handed, Agrees;
    RestoreRun(w, kept, base, es, limit);
    RunSafe(w, Restore(kept, base, es, limit));
    AgreedIsHanded(w.cl, w.box.log);
    var d := Run(w, Restore(kept, base, es, limit));
    if w.cl.lastSeq > kept + |es| {
      SafeIsInOrder(d);
    } else {
      ReturnInOrderIff(w, d, kept, es);
    }
  }

  lemma {:induction false} NothingHanded(w: World, kept: nat, es: seq<Event>)
    requires w.cl.from + |w.cl.handed| == w.cl.lastSeq && w.cl.handed == []
    ensures Rewritten(w, kept, es)
  {
  }

  /** The client stays marked if and only if the cut lost a position it holds and the host has
      grown to its cursor by then; otherwise it agrees with the host again. */
  lemma {:induction false} RestoreMarksIff(w: World, kept: nat, base: nat, es: seq<Event>, limit: nat)
    requires Safe(w) && !w.stale && Kept(w.box, kept, base) && Numbered(w.box.log[..kept] + es) && limit > 0
    ensures var d := Run(w, Restore(kept, base, es, limit));
            && (d.stale <==> !Reaches(kept, w.cl) && w.cl.lastSeq <= kept + |es|)
            && (!d.stale ==> Agrees(d.cl, d.box.log))
  {
    hide Run, Restore, Resting, Agrees, OnWelcome, LinkOk, Reaches;
    RestoreRun(w, kept, base, es, limit);
    RunSafe(w, Restore(kept, base, es, limit));
  }

  /** A welcome at or above the cursor leaves what was handed over, unless it is the first one. */
  lemma {:induction false} WelcomeKeepsHanded(c: ClientState, hostSeq: nat)
    requires c.lastSeq <= hostSeq && c.lastSeq == c.from + |c.handed|
    ensures var d := OnWelcome(OnClose(c), hostSeq).cl;
            || (d.lastSeq == c.lastSeq && d.from == c.from && d.handed == c.handed)
            || (c.lastSeq == 0 && d.lastSeq == d.from == hostSeq && d.handed == [] && c.handed == [])
  {
  }

  // ---- only the buffer is ahead -----------------------------------------------------------

  /** The host's log with the events the client keeps put in their places. */
  function Mixed(log: seq<Event>, kept: map<nat, Event>): (own: seq<Event>)
    ensures |own| == |log|
  {
    seq(|log|, i requires 0 <= i < |log| => if i + 1 in kept then kept[i + 1] else log[i])
  }

  /** Where the two logs differ, the client has handed over its own event, or keeps it. */
  ghost predicate HoldsDiff(c: ClientState, log: seq<Event>, own: seq<Event>) {
    |log| == |own| && forall i :: 0 <= i < |log| && log[i] != own[i] ==> i + 1 <= c.lastSeq || i + 1 in c.buffered
  }

  lemma {:induction false} AcceptNext(c: ClientState, own: seq<Event>, log: seq<Event>, b: nat)
    requires Agrees(c, own) && HoldsDiff(c, log, own) && |c.buffered| < EVENT_BUFFER_CAP
    requires c.nextSeq == b && 1 <= b <= |own|
    ensures log[b - 1] == own[b - 1] && HoldsDiff(AcceptEvent(c, own[b - 1]).cl, log, own)
  {
    KeepNear(c, own, own[b - 1]);
    SettleAgrees(Keep(c, own[b - 1]), own);
    assert forall k :: k in c.buffered ==> k in Keep(c, own[b - 1]).buffered;
  }

  /** The host's events arrive in order: what the client keeps of its own is handed over instead. */
  lemma {:induction false} ArriveMixed(c: ClientState, log: seq<Event>, own: seq<Event>, a: nat, b: nat)
    requires Agrees(c, own) && Numbered(log) && HoldsDiff(c, log, own) && |c.buffered| < EVENT_BUFFER_CAP
    requires a <= b <= |own| && a <= c.lastSeq
    ensures Arrive(c, log, a, b) == Arrive(c, own, a, b) && HoldsDiff(Arrive(c, own, a, b), log, own)
    decreases b
  {
    hide AcceptEvent, HoldsDiff, Near;
    HoldsDiffSize(c, log, own);
    if a < b {
      ArriveMixed(c, log, own, a, b - 1);
      ArriveInOrder(c, own, a, b - 1);
      var d := Arrive(c, own, a, b - 1);
      AgreesInFlight(d, own, d.flight, d.again);
      if b <= d.lastSeq {
        AcceptKnown(d, log[b - 1]);
        AcceptKnown(d, own[b - 1]);
      } else {
        AcceptNext(d, own, log, b);
      }
    }
  }

  lemma {:induction false} HoldsDiffSize(c: ClientState, log: seq<Event>, own: seq<Event>)
    requires HoldsDiff(c, log, own)
    ensures |log| == |own|
  {
  }

  lemma {:induction false} AcceptKnown(c: ClientState, e: Event)
    requires e.s < c.nextSeq
    ensures AcceptEvent(c, e).cl == c
  {
  }

  lemma {:induction false} DrainKeepsFrom(c: ClientState)
    ensures Drain(c).from == c.from
    decreases c.buffered.Keys
  {
    if c.nextSeq in c.buffered {
      DrainKeepsFrom(HandOver(c));
    }
  }

  lemma AcceptKeepsFrom(c: ClientState, e: Event)
    ensures AcceptEvent(c, e).cl.from == c.from
  {
    hide Drain;
    DrainKeepsFrom(Keep(c, e));
    DrainKeepsFrom(Keep(CatchUp(c).cl, e));
  }

  lemma {:induction false} ArriveKeepsFrom(c: ClientState, log: seq<Event>, a: nat, b: nat)
    requires a <= b <= |log|
    ensures Arrive(c, log, a, b).from == c.from
    decreases b
  {
    hide AcceptEvent;
    if a < b {
      ArriveKeepsFrom(c, log, a, b - 1);
      AcceptKeepsFrom(Arrive(c, log, a, b - 1), log[b - 1]);
    }
  }

  /** A flight at or below the cursor, with room in the buffer. */
  ghost predicate Roomy(c: ClientState, own: seq<Event>, base: nat) {
    && Agrees(c, own) && |c.buffered| < EVENT_BUFFER_CAP
    && (c.flight.Flying? ==> base <= c.flight.cursor <= c.lastSeq && !c.again)
  }

  lemma {:induction false} MixedPage(c: ClientState, log: seq<Event>, own: seq<Event>, base: nat)
    requires Box(log, base).Valid() && Box(own, base).Valid()
    requires Roomy(c, own, base) && HoldsDiff(c, log, own)
    ensures var d := AfterPage(c, Box(own, base));
            && AfterPage(c, Box(log, base)) == d && d.from == c.from
            && Roomy(d, own, base) && HoldsDiff(d, log, own)
  {
    hide Arrive, AfterPage, Agrees;
    HoldsDiffSize(c, log, own);
    AgreesWithin(c, own);
    if c.flight.Flying? {
      var k := c.flight.cursor;
      PageAt(c, Box(log, base), k);
      PageAt(c, Box(own, base), k);
      var asked := OnReply(c, ReplyAt(own, k)).cl;
      AgreesInFlight(c, own, asked.flight, asked.again);
      ArriveInOrder(asked, own, k, PageEnd(own, k));
      ArriveKeepsFrom(asked, own, k, PageEnd(own, k));
      ArriveMixed(asked, log, own, k, PageEnd(own, k));
    } else {
      LandedPage(c, Box(log, base));
      LandedPage(c, Box(own, base));
    }
  }

  lemma {:induction false} MixedPages(c: ClientState, log: seq<Event>, own: seq<Event>, base: nat, n: nat)
    requires Box(log, base).Valid() && Box(own, base).Valid()
    requires Roomy(c, own, base) && HoldsDiff(c, log, own)
    ensures var d := AfterPages(c, Box(own, base), n);
            && AfterPages(c, Box(log, base), n) == d && d.from == c.from
            && Roomy(d, own, base) && HoldsDiff(d, log, own)
  {
    hide AfterPage, Roomy, HoldsDiff;
    if n > 0 {
      MixedPages(c, log, own, base, n - 1);
      MixedPage(AfterPages(c, Box(own, base), n - 1), log, own, base);
    }
  }

  lemma {:induction false} MixedAgrees(c: ClientState, old_: seq<Event>, log: seq<Event>, kept: nat)
    requires Agrees(c, old_) && Numbered(log) && c.lastSeq <= kept <= |old_| && kept <= |log|
    requires log[..kept] == old_[..kept] && forall k :: k in c.buffered ==> k <= |log|
    ensures var own := Mixed(log, c.buffered); Agrees(c, own) && HoldsDiff(c, log, own)
  {
    hide Numbered, Mixed, Stocked, Placed, HoldsDiff;
    MixedPlaced(c, old_, log, kept);
    MixedStocked(c.buffered, c.nextSeq, old_, log);
    MixedNumbered(c.buffered, c.nextSeq, old_, log);
    MixedDiffers(c, log);
  }

  lemma {:induction false} MixedPlaced(c: ClientState, old_: seq<Event>, log: seq<Event>, kept: nat)
    requires Agrees(c, old_) && c.lastSeq <= kept <= |old_| && kept <= |log| && log[..kept] == old_[..kept]
    ensures Placed(c, Mixed(log, c.buffered))
  {
    var own := Mixed(log, c.buffered);
    forall i | 0 <= i < c.lastSeq
      ensures own[i] == old_[i]
    {
      assert i + 1 !in c.buffered;
      assert log[..kept][i] == old_[..kept][i];
    }
    assert own[c.from..c.lastSeq] == old_[c.from..c.lastSeq];
  }

  lemma {:induction false} MixedStocked(kept: map<nat, Event>, next: nat, old_: seq<Event>, log: seq<Event>)
    requires Stocked(kept, next, old_) && forall k :: k in kept ==> k <= |log|
    ensures Stocked(kept, next, Mixed(log, kept))
  {
  }

  lemma {:induction false} MixedNumbered(kept: map<nat, Event>, next: nat, old_: seq<Event>, log: seq<Event>)
    requires Stocked(kept, next, old_) && Numbered(old_) && Numbered(log)
    ensures Numbered(Mixed(log, kept))
  {
    var own := Mixed(log, kept);
    forall i | 0 <= i < |own|
      ensures own[i].s == i + 1
    {
      assert i + 1 in kept ==> kept[i + 1] == old_[i];
    }
  }

  lemma {:induction false} MixedDiffers(c: ClientState, log: seq<Event>)
    ensures HoldsDiff(c, log, Mixed(log, c.buffered))
  {
  }

  lemma {:induction false} WelcomedAgain(c: ClientState, hostSeq: nat)
    requires c.welcomed && c.lastSeq <= hostSeq
    ensures OnWelcome(OnClose(c), hostSeq).cl == c.(flight := Flying(c.lastSeq), again := false)
  {
  }

  /** The client went through pages of a host with the log `log`, and has everything up to its end. */
  lemma {:induction false} MixedOrderIff(c: ClientState, r: World)
    requires var own := Mixed(r.box.log, c.buffered);
             CaughtUp(r.cl, own) && r.cl.from <= c.lastSeq && forall k :: k in c.buffered ==> c.lastSeq < k <= |own|
    ensures r.cl.lastSeq == r.box.Head()
    ensures InOrder(r) <==> forall k :: k in c.buffered ==> 1 <= k <= r.box.Head() && c.buffered[k] == r.box.At(k)
  {
    hide InOrder, Agrees, Mixed;
    InOrderIsHanded(r);
    AgreedIsHanded(r.cl, Mixed(r.box.log, c.buffered));
    MixedHandedIff(c, r.cl, r.box.log);
  }

  lemma {:induction false} MixedHandedIff(c: ClientState, d: ClientState, log: seq<Event>)
    requires Handed(d, Mixed(log, c.buffered)) && d.from <= c.lastSeq && d.lastSeq == |log|
    requires forall k :: k in c.buffered ==> c.lastSeq < k <= |log|
    ensures Handed(d, log) <==> forall k :: k in c.buffered ==> 1 <= k <= |log| && c.buffered[k] == log[k - 1]
  {
    var own := Mixed(log, c.buffered);
    if Handed(d, log) {
      forall k | k in c.buffered
        ensures c.buffered[k] == log[k - 1]
      {
        assert d.handed[k - 1 - d.from] == own[k - 1];
      }
    } else {
      var i :| 0 <= i < |d.handed| && d.handed[i] != log[d.from + i];
      assert own[d.from + i] != log[d.from + i] && d.from + i + 1 in c.buffered;
    }
  }

  lemma {:induction false} KeepsAbove(c: ClientState, log: seq<Event>)
    requires Agrees(c, log)
    ensures c.from <= c.lastSeq && forall k :: k in c.buffered ==> c.lastSeq < k
  {
  }

  /** The cursor of the client is within the restored log, only its buffer is not, and the host has
      grown past the buffer when it serves the client again. However it serves: the client lands at
      the head as if all were well, with the events it kept handed over in place of the host's. So
      it is in order if and only if the host emitted each of them again just as it was. */
  lemma {:induction false} BufferOutlivesRestore(w: World, kept: nat, base: nat, es: seq<Event>, limit: nat,
                                                 actions: seq<Action>)
    requires Safe(w) && !w.stale && w.cl.welcomed && Kept(w.box, kept, base)
    requires Numbered(w.box.log[..kept] + es) && limit > 0 && Serves(actions)
    requires base <= w.cl.lastSeq <= kept && |w.cl.buffered| < EVENT_BUFFER_CAP
    requires forall k :: k in w.cl.buffered ==> k <= kept + |es|
    ensures var d := Run(w, Restore(kept, base, es, limit));
            var r := Run(d, actions);
            && (limit > 2 * SYNC_LIMIT ==> !r.link.ss.closing)
            && (!r.link.ss.closing && AtEnd(r) ==>
                  && r.box == d.box && r.cl.flight.NoFlight? && r.cl.lastSeq == r.box.Head()
                  && (InOrder(r) <==>
                        forall k :: k in w.cl.buffered ==> 1 <= k <= r.box.Head() && w.cl.buffered[k] == r.box.At(k)))
  {
    hide Run, Restore, Resting, Agrees, OnWelcome, OnClose, LinkOk, Reaches, InOrder, Serves, AtEnd, AfterPages,
      HoldsDiff, Mixed, Effective;
    var c, log := w.cl, w.box.log[..kept] + es;
    var own, plain := Mixed(log, c.buffered), c.(flight := Flying(c.lastSeq), again := false);
    RestoreRun(w, kept, base, es, limit);
    WelcomedAgain(c, kept + |es|);
    assert log[..kept] == w.box.log[..kept];
    AgreesInFlight(c, w.box.log, plain.flight, false);
    KeepsAbove(c, w.box.log);
    MixedAgrees(plain, w.box.log, log, kept);
    var n := MixedLands(plain, log, own, base);
    var d := Run(w, Restore(kept, base, es, limit));
    ServingLands(d, actions, n);
    var r := Run(d, actions);
    if !r.link.ss.closing && AtEnd(r) {
      MixedOrderIff(c, r);
    }
  }

  lemma {:induction false} MixedLands(c: ClientState, log: seq<Event>, own: seq<Event>, base: nat) returns (n: nat)
    requires Numbered(log) && Agrees(c, own) && HoldsDiff(c, log, own) && base <= c.lastSeq
    requires c.flight == Flying(c.lastSeq) && !c.again && |c.buffered| < EVENT_BUFFER_CAP
    ensures Box(log, base).Valid()
    ensures var d := AfterPages(c, Box(log, base), n); CaughtUp(d, own) && d.from == c.from
  {
    hide AfterPages, Near, HoldsDiff;
    HoldsDiffSize(c, log, own);
    AgreesWithin(c, own);
    AgreesInFlight(c, own, c.flight, c.again);
    assert Box(own, base).Valid() && Box(log, base).Valid();
    n := PagesToHead(c, Box(own, base));
    MixedPages(c, log, own, base, n);
  }

  /** A client that waits for the first event and keeps the second is reached from the start. */
  lemma {:induction false} BufferedSecond(w: World, e1: Event, e2: Event, limit: nat)
    requires Unused(w) && e1.s == 1 && e2.s == 2 && limit > 0
    ensures w.box.Valid()
    ensures var d := Run(w, Opens(limit, e1) + Lives(e2));
            && Safe(d) && !d.stale && d.box == Box([e1, e2], 0) && Resting(d) && d.cl.welcomed
            && d.cl.lastSeq == 0 && d.cl.buffered == map[2 := e2]
  {
    hide Run, Opens, Resting, Safe, Reaches;
    OpensPastFirst(limit, e1);
    var w1 := Run(w, Opens(limit, e1));
    assert w1.cl == ClientState(0, 1, true, map[], Flying(0), false, 0, []);
    LiveEvent(w1, e2);
    assert [e1] + [e2] == [e1, e2];
    RunConcat(w, Opens(limit, e1), Lives(e2));
    StartSafe(Box([], 0), 0);
    RunSafe(w, Opens(limit, e1) + Lives(e2));
  }
}
