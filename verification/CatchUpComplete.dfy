/** Every run of the protocol: a client with nothing left on its way has everything. */
module CatchUpComplete {
  import opened Outbox
  import opened SessionModel
  import opened HubModel
  import opened ClientModel
  import opened Replication
  import opened ReplicationSafety
  import opened CatchUpFlow

  /** A socket that has welcomed its client and is not being closed. */
  predicate Served(w: World) {
    w.up && w.link.greeted && !w.link.ss.closing
  }

  ghost predicate Owes(w: World) {
    Served(w) ==> Place(FlowOf(w)) && (!w.stale ==> Complete(FlowOf(w)))
  }

  /** From `w` to `w'` the flow goes over into `g`, which is no worse. */
  lemma OwesOnto(w: World, w': World, g: Flow)
    requires Owes(w) && (Served(w') ==> Served(w) && FlowOf(w') == g && w'.stale == w.stale)
    requires Place(FlowOf(w)) ==> Place(g)
    requires Place(FlowOf(w)) && Complete(FlowOf(w)) ==> Complete(g)
    ensures Owes(w')
  {
    hide Place, Complete, FlowOf;
  }

  lemma EmitFlow(w: World, kind: string, data: string)
    requires Safe(w)
    ensures var f, e, w' := FlowOf(w), Event(w.box.Head() + 1, kind, data), Do(w, Emit(kind, data));
            && f.log == w.box.log && Served(w') == Served(w) && w'.stale == w.stale
            && (Served(w) ==> FlowOf(w') == f.(log := f.log + [e], todo := f.todo + {|f.log| + 1}))
  {
    hide Agrees, GreetingOk, FlagsOk, SessionOk, WorkSafe, AllOk;
  }

  lemma OwesEmit(w: World, kind: string, data: string)
    requires Safe(w) && Owes(w)
    ensures Owes(Do(w, Emit(kind, data)))
  {
    hide Place, Complete, Safe, FlowOf, Do;
    var f, e := FlowOf(w), Event(w.box.Head() + 1, kind, data);
    EmitFlow(w, kind, data);
    if Served(w) {
      EmitPlace(f, e);
      if !w.stale {
        EmitKeeps(f, e);
      }
    }
  }

  lemma EmitPlace(f: Flow, e: Event)
    requires Place(f)
    ensures Place(f.(log := f.log + [e], todo := f.todo + {|f.log| + 1}))
  {
  }

  /** Where a live frame lands that leaves the socket open. */
  lemma LiveFlow(w: World, x: Frame, todo: set<nat>)
    requires Safe(w) && w.up && w.link.attached
    ensures var f, late := FlowOf(w), Above(todo, w.link.mark);
            var w' := w.(todo := todo, link := w.link.(ss := Deliver(w.link.ss, x)));
            Served(w') ==>
              && Served(w) && (HoldWork(f.work) <==> w.link.ss.holdLive) && (!f.work.Idle? <==> w.link.ss.inRequest)
              && FlowOf(w') == if w.link.ss.holdLive then f.(h := f.h + [x], todo := late)
                               else if w.link.ss.inRequest then f.(d := f.d + [x], todo := late)
                               else f.(q := f.q + [x], todo := late)
  {
    hide Agrees, GreetingOk, WorkSafe, AllOk, Live, Above;
    assert w.link.wire + (w.link.ss.pending + [x]) == Queue(w.link) + [x];
  }

  /** A live frame that leaves the socket open lands in one of the three places. */
  lemma OwesLive(w: World, x: Frame, todo: set<nat>)
    requires Safe(w) && Owes(w) && w.up && w.link.attached && Fanned(FlowOf(w), x, Above(todo, w.link.mark))
    ensures Owes(w.(todo := todo, link := w.link.(ss := Deliver(w.link.ss, x))))
  {
    hide Place, Complete, Fanned, Above, FlowOf, Safe, Deliver;
    var w' := w.(todo := todo, link := w.link.(ss := Deliver(w.link.ss, x)));
    var f, ss, late := FlowOf(w), w.link.ss, Above(todo, w.link.mark);
    LiveFlow(w, x, todo);
    if Served(w') {
      if ss.holdLive {
        HoldKeeps(f, x, late);
      } else if ss.inRequest {
        DeferKeeps(f, x, late);
      } else {
        QueueKeeps(f, x, late);
      }
    }
  }

  lemma OwesCall(w: World)
    requires w.box.Valid() && Owes(w) && w.up && w.link.greeted && w.link.work.Idle?
    ensures Owes(Do(w, BeginCall))
  {
    hide Place, Complete, Above;
    if Served(w) {
      CallKeeps(FlowOf(w));
    }
  }

  lemma OwesSync(w: World)
    requires w.box.Valid() && Owes(w) && w.up && w.link.work.Idle? && w.link.asks != []
    ensures Owes(Do(w, BeginSync))
  {
    hide Place, Complete, Above;
    if Served(w) {
      BeginKeeps(FlowOf(w));
    }
  }

  lemma OwesHold(w: World)
    requires w.box.Valid() && Owes(w) && w.up && w.link.work.Serving?
    ensures Owes(Do(w, Hold))
  {
    hide Place, Complete, Above;
    if Served(w) {
      HoldBegins(FlowOf(w));
    }
  }

  lemma OwesHead(w: World)
    requires w.box.Valid() && Owes(w) && w.up && w.link.work.Holding?
    ensures Owes(Do(w, ReadHead))
  {
    hide Place, Complete, Above;
    if Served(w) {
      HeadKeeps(FlowOf(w), Above(w.todo, w.box.Head()));
    }
  }

  lemma OwesFail(w: World)
    requires w.box.Valid() && Owes(w) && w.up && (w.link.work.Holding? || w.link.work.Headed?)
    ensures Owes(Do(w, FailRead))
  {
    hide Place, Complete, Above;
    if Served(w) {
      FailKeeps(FlowOf(w));
    }
  }

  lemma OwesBegin(w: World, a: Action)
    requires Safe(w) && Owes(w)
    requires a.BeginCall? || a.BeginSync? || a.Hold? || a.ReadHead? || a.FailRead?
    ensures Owes(Do(w, a))
  {
    hide Owes, Do, LinkOk, Agrees;
    var work := w.link.work;
    if a.BeginCall? && w.up && w.link.greeted && work.Idle? {
      OwesCall(w);
    } else if a.BeginSync? && w.up && work.Idle? && w.link.asks != [] {
      OwesSync(w);
    } else if a.Hold? && w.up && work.Serving? {
      OwesHold(w);
    } else if a.ReadHead? && w.up && work.Holding? {
      OwesHead(w);
    } else if a.FailRead? && w.up && (work.Holding? || work.Headed?) {
      OwesFail(w);
    } else {
      NotBegun(w, a);
    }
  }

  lemma NotBegun(w: World, a: Action)
    requires w.box.Valid()
    requires a.BeginCall? || a.BeginSync? || a.Hold? || a.ReadHead? || a.FailRead?
    requires a.BeginCall? ==> !(w.up && w.link.greeted && w.link.work.Idle?)
    requires a.BeginSync? ==> !(w.up && w.link.work.Idle? && w.link.asks != [])
    requires a.Hold? ==> !(w.up && w.link.work.Serving?)
    requires a.ReadHead? ==> !(w.up && w.link.work.Holding?)
    requires a.FailRead? ==> !(w.up && (w.link.work.Holding? || w.link.work.Headed?))
    ensures Do(w, a) == w
  {
  }

  lemma ReadFlow(w: World)
    requires Safe(w) && w.up && w.link.work.Headed?
    ensures var f, w' := FlowOf(w), Do(w, ReadPage);
            var c := f.work.cursor;
            var r := Serve(f.work.head, w.box, c, SYNC_LIMIT);
            var emptied := r.reply.Page? && r.page == [] && c <= f.work.head && c < |f.log|;
            Served(w') ==>
              && Served(w) && w'.stale == w.stale
              && FlowOf(w') == f.(work := Paged(c, r.reply, r.high), d := f.d + Frames(r.page),
                                  blind := if emptied then |f.log| else f.blind)
  {
    hide Serve, Agrees, GreetingOk, AllOk, Live, Surviving, Frames, ReplayAll, Above;
    var ss, r := w.link.ss, AtPage(w);
    if ss.closing {
      ClosedReplays(ss, r.page);
    } else {
      ReplayAllDefers(ss, r.page);
    }
  }

  lemma OwesReadPage(w: World)
    requires Safe(w) && Owes(w) && w.up && w.link.work.Headed?
    ensures Owes(Do(w, ReadPage))
  {
    hide Place, Complete, Serve, LinkOk, Agrees, Do, Above, Frames;
    ReadFlow(w);
    if Served(Do(w, ReadPage)) {
      PageKeeps(FlowOf(w), w.box);
    }
  }

  lemma ReleaseFlow(w: World)
    requires Safe(w) && w.up && w.link.work.Paged?
    ensures var f, w' := FlowOf(w), Do(w, Release);
            Served(w') ==>
              && Served(w) && w'.stale == w.stale
              && FlowOf(w') == f.(work := Released(f.work.cursor, f.work.reply),
                                  d := f.d + Surviving(f.h, f.work.high), h := [])
  {
    hide Agrees, GreetingOk, AllOk, Live, Surviving, DeliverAll, Above;
    var ss := w.link.ss;
    var open, late := ss.(holdLive := false, held := []), Surviving(ss.held, w.link.work.high);
    if ss.closing {
      ClosedDelivers(open, late);
    } else {
      DeliverAllDefers(open, late);
    }
  }

  lemma OwesRelease(w: World)
    requires Safe(w) && Owes(w) && w.up && w.link.work.Paged?
    ensures Owes(Do(w, Release))
  {
    hide Place, Complete, LinkOk, Agrees, Do, FlowOf;
    ReleaseFlow(w);
    var f := FlowOf(w);
    if Served(Do(w, Release)) {
      assert f.work == w.link.work by {
        FlowWork(w);
      }
      ReleaseKeeps(f);
    }
  }

  lemma FlowWork(w: World)
    ensures FlowOf(w).work == w.link.work && FlowOf(w).log == w.box.log && FlowOf(w).d == w.link.ss.deferred
  {
  }

  lemma EndFlow(w: World, reply: Reply)
    requires w.box.Valid() && w.up && (w.link.work.Released? || w.link.work.Calling?)
    requires reply == if w.link.work.Released? then w.link.work.reply else Other
    ensures var f, w' := FlowOf(w), Do(w, End);
            Served(w') ==>
              && Served(w) && w'.stale == w.stale
              && FlowOf(w') == f.(work := Idle, q := f.q + ([Res(reply)] + f.d), d := [])
  {
    hide EnqueueAll, Above;
    var ss := w.link.ss;
    var fs := [Res(reply)] + ss.deferred;
    EnqueueAllAppends(ss.(inRequest := false, deferred := []), fs);
    assert w.link.wire + (ss.pending + fs) == w.link.wire + ss.pending + fs;
  }

  lemma OwesEnd(w: World)
    requires Safe(w) && Owes(w) && w.up && (w.link.work.Released? || w.link.work.Calling?)
    ensures Owes(Do(w, End))
  {
    hide Place, Complete, Do, FlowOf, Agrees, FrameOk, SessionOk, GreetingOk, FlagsOk, AllOk;
    var reply := if w.link.work.Released? then w.link.work.reply else Other;
    EndFlow(w, reply);
    FlowWork(w);
    if Served(Do(w, End)) {
      if w.link.work.Released? {
        EndKeeps(FlowOf(w));
      } else {
        EndCallKeeps(FlowOf(w));
      }
    }
  }

  lemma SendFlow(w: World)
    requires w.box.Valid()
    ensures var w' := Do(w, Send); Served(w') == Served(w) && w'.stale == w.stale && FlowOf(w') == FlowOf(w)
  {
    hide Above;
    var l := w.link;
    if w.up && !l.ss.closing && l.ss.pending != [] {
      assert (l.wire + [l.ss.pending[0]]) + l.ss.pending[1..] == l.wire + l.ss.pending;
    }
  }

  lemma OwesSend(w: World)
    requires w.box.Valid() && Owes(w)
    ensures Owes(Do(w, Send))
  {
    hide Place, Complete, Do, FlowOf;
    SendFlow(w);
  }

  /** The welcome starts the first flight of a socket. */
  lemma OwesWelcome(w: World)
    requires Safe(w) && w.up && w.link.wire != [] && !w.link.greeted
    ensures Owes(Do(w, Receive))
  {
    hide Safe, Place, Complete, Do, FlowOf;
    ReceiveLink(w);
    SafeReceive(w);
    SafeIsValid(w);
    WelcomeFlow(w);
    var w' := Do(w, Receive);
    if Served(w') && !w'.stale {
      CompleteAtWelcome(w');
    }
  }

  lemma WelcomeFlow(w: World)
    requires Safe(w) && w.up && w.link.wire != [] && !w.link.greeted && w.link.wire[0].Welcome?
    ensures w.box.Valid()
    ensures var w' := Do(w, Receive);
            && w'.cl.flight == Flying(w'.cl.lastSeq) && w'.link.asks == [w'.cl.lastSeq]
            && (Served(w') ==> Place(FlowOf(w')))
  {
    hide Agrees, AllOk, Above, WorkSafe, CatchUp;
    var w' := Do(w, Receive);
    WelcomeAsks(w.cl, w.link.wire[0].hostSeq);
    assert forall k: nat :: [] + [k] == [k];
    assert Queue(w.link)[0] == w.link.wire[0];
    assert Queue(w'.link) == Queue(w.link)[1..];
  }

  lemma WelcomeAsks(c: ClientState, hostSeq: nat)
    requires c.flight.NoFlight?
    ensures var m := OnWelcome(c, hostSeq); m.cl.flight == Flying(m.cl.lastSeq) && m.sent == Ask(m.cl.lastSeq)
  {
  }

  lemma CompleteAtWelcome(w: World)
    requires Safe(w) && Served(w) && !w.stale
    requires w.cl.flight == Flying(w.cl.lastSeq) && w.link.asks == [w.cl.lastSeq]
    ensures Complete(FlowOf(w))
  {
  }

  lemma FlowGot(w: World)
    requires w.box.Valid() && w.up && w.link.wire != []
    ensures FlowOf(w).q != [] && FlowOf(w).q[0] == w.link.wire[0]
    ensures FlowOf(Do(w, Receive)) == Got(FlowOf(w))
  {
    hide OnFrame;
    assert Queue(w.link)[1..] == w.link.wire[1..] + w.link.ss.pending;
  }

  lemma GotKeepsPlace(f: Flow)
    requires Place(f) && f.q != [] && !f.q[0].Welcome?
    ensures Place(Got(f))
  {
    hide AcceptEvent;
    if SyncRes(f.q[0]) {
      ReplyKeepsPlace(f);
    } else if f.q[0].Evt? {
      if f.cl.flight.NoFlight? {
        EventKeepsPlace(f);
      } else {
        EventDuringFlight(f);
      }
    } else if f.cl.flight.NoFlight? {
      assert NoReply(f.q[1..]);
    } else {
      PlaceDuringFlight(f, f.cl);
    }
  }

  lemma GotKeeps(f: Flow)
    requires Place(f) && Complete(f) && f.q != [] && !f.q[0].Welcome?
    ensures var g := Got(f);
            if g.cl.flight.NoFlight? then g.gaveUp || Settled(g) else InAir(g, g.cl.flight.cursor)
  {
    if SyncRes(f.q[0]) {
      ReplyKeeps(f);
    } else if f.q[0].Evt? {
      if f.cl.flight.NoFlight? {
        EventWithoutFlight(f);
      } else {
        EventDuringFlight(f);
      }
    } else if f.cl.flight.NoFlight? {
      if !f.gaveUp {
        QuietAfter(f);
      }
    } else {
      InAirAfter(f, f.cl);
      InAirIgnoresGaveUp(f.(q := f.q[1..]), false);
      assert Got(f) == f.(q := f.q[1..], gaveUp := false);
    }
  }

  /** A resync restarts the flight at a cursor that any log agrees with. */
  lemma ResyncKeeps(f: Flow)
    requires Place(f) && f.q != [] && SyncRes(f.q[0]) && f.q[0].reply.Resync?
    requires 1 <= f.q[0].reply.minSeq <= |f.log|
    ensures var g := Got(f); g.cl.flight.Flying? && InAir(g, g.cl.flight.cursor)
  {
    ReplyIsFirst(f);
    assert f.asks + [f.q[0].reply.minSeq - 1] == [f.q[0].reply.minSeq - 1];
  }

  lemma GotOwes(f: Flow, stale: bool)
    requires Place(f) && f.q != [] && !f.q[0].Welcome? && FrameOk(f.q[0], f.log)
    requires if stale then f.q[0].Res? && f.q[0].reply.Resync? else Complete(f)
    ensures var g := Got(f);
            if g.cl.flight.NoFlight? then g.gaveUp || Settled(g) else InAir(g, g.cl.flight.cursor)
  {
    hide Got, Place, InAir, Settled, Complete;
    if stale {
      ResyncKeeps(f);
    } else {
      GotKeeps(f);
    }
  }

  /** What the client agrees with and what is queued, as the safety invariant has it. */
  lemma SafeFlow(w: World)
    requires Safe(w) && w.up && !w.stale
    ensures var f := FlowOf(w);
            && Agrees(f.cl, f.log) && f.blind <= |f.log|
            && AllOk(f.q, f.log) && AllOk(f.d, f.log) && AllOk(f.h, f.log)
  {
    hide Agrees, GreetingOk, FlagsOk, FrameOk, Above;
  }

  lemma ReceiveStale(w: World)
    requires w.box.Valid() && w.up && w.link.wire != []
    ensures var w' := Do(w, Receive);
            && w'.up && w'.link.ss == w.link.ss && (w.link.greeted ==> w'.link.greeted)
            && (w'.stale ==> w.stale)
            && (w.stale && !w'.stale && !w.link.wire[0].Welcome? ==>
                  w.link.wire[0].Res? && w.link.wire[0].reply.Resync?)
  {
    hide OnFrame;
  }

  lemma OwesReceive(w: World)
    requires Safe(w) && Owes(w) && w.up && w.link.wire != [] && w.link.greeted
    ensures Owes(Do(w, Receive))
  {
    hide Safe, Place, Complete, Do, FlowOf, Got, InAir, Settled, FrameOk, LinkOk;
    SafeIsValid(w);
    ReceiveLink(w);
    SafeReceive(w);
    FlowGot(w);
    ReceiveStale(w);
    FlowWork(w);
    var f, w' := FlowOf(w), Do(w, Receive);
    if Served(w') {
      GotKeepsPlace(f);
      if !w'.stale {
        GotOwes(f, w.stale);
        SafeFlow(w');
        FlowCompletes(w');
      }
    }
  }

  lemma FlowCompletes(w: World)
    requires var f := FlowOf(w);
             && Agrees(f.cl, f.log) && f.blind <= |f.log|
             && AllOk(f.q, f.log) && AllOk(f.d, f.log) && AllOk(f.h, f.log)
             && (if f.cl.flight.NoFlight? then f.gaveUp || Settled(f) else InAir(f, f.cl.flight.cursor))
    ensures Complete(FlowOf(w))
  {
    hide FlowOf, Agrees, AllOk, Settled, InAir;
  }

  /** Steps outside a served socket, or that no client sees. */
  lemma OwesOutside(w: World, a: Action)
    requires Safe(w) && Owes(w)
    requires a.Prune? || a.HostStop? || a.Connect? || a.Disconnect? || a.Attach?
    ensures Owes(Do(w, a))
  {
    hide Place, Complete, Above, LinkOk, Agrees;
    if Served(w) {
      GreetedIsAttached(w);
    }
  }

  lemma GreetedIsAttached(w: World)
    requires Safe(w) && w.up && w.link.greeted
    ensures w.link.attached
  {
    hide Agrees, SessionOk, AllOk, FlagsOk, WorkSafe;
  }

  lemma OwesFanout(w: World, s: nat)
    requires Safe(w) && Owes(w)
    ensures Owes(Do(w, Fanout(s)))
  {
    hide Place, Complete, LinkOk, Agrees, Deliver;
    if Served(w) {
      GreetedIsAttached(w);
    }
    if 1 <= s <= w.box.Head() && w.up && w.link.attached {
      assert Evt(w.box.At(s)) == At(w.box.log, s);
      assert Above(w.todo - {s}, w.link.mark) == FlowOf(w).todo - {s};
      OwesLive(w, Evt(w.box.At(s)), w.todo - {s});
    }
  }

  lemma OwesTick(w: World)
    requires Safe(w) && Owes(w)
    ensures Owes(Do(w, TickOut))
  {
    hide Place, Complete, LinkOk, Agrees, Deliver;
    if w.up && w.link.attached {
      OwesLive(w, Tick, w.todo);
    }
  }

  lemma OwesServing(w: World, a: Action)
    requires Safe(w) && Owes(w) && (a.ReadPage? || a.Release? || a.End?)
    ensures Owes(Do(w, a))
  {
    hide Owes, LinkOk, Agrees, AtPage, ReplayAll, ReleaseLive, EndRequest;
    if a.ReadPage? && w.up && w.link.work.Headed? {
      OwesReadPage(w);
    } else if a.Release? && w.up && w.link.work.Paged? {
      OwesRelease(w);
    } else if a.End? && w.up && (w.link.work.Released? || w.link.work.Calling?) {
      OwesEnd(w);
    }
  }

  lemma OwesGets(w: World)
    requires Safe(w) && Owes(w)
    ensures Owes(Do(w, Receive))
  {
    hide Owes, LinkOk, Agrees, OnFrame;
    if w.up && w.link.wire != [] {
      if w.link.greeted {
        OwesReceive(w);
      } else {
        OwesWelcome(w);
      }
    }
  }

  lemma SafeIsValid(w: World)
    requires Safe(w)
    ensures w.box.Valid()
  {
    hide LinkOk, Agrees;
  }

  lemma OwesStep(w: World, a: Action)
    requires Safe(w) && Owes(w)
    ensures Owes(Do(w, a))
  {
    hide Owes, Safe, Do;
    SafeIsValid(w);
    match a
    case Emit(kind, data) => OwesEmit(w, kind, data);
    case Fanout(s) => OwesFanout(w, s);
    case TickOut => OwesTick(w);
    case BeginCall => OwesBegin(w, a);
    case BeginSync => OwesBegin(w, a);
    case Hold => OwesBegin(w, a);
    case ReadHead => OwesBegin(w, a);
    case FailRead => OwesBegin(w, a);
    case ReadPage => OwesServing(w, a);
    case Release => OwesServing(w, a);
    case End => OwesServing(w, a);
    case Send => OwesSend(w);
    case Receive => OwesGets(w);
    case _ => OwesOutside(w, a);
  }

  lemma {:induction false} RunOwes(w: World, actions: seq<Action>)
    requires Safe(w) && Owes(w)
    ensures Safe(Run(w, actions)) && Owes(Run(w, actions))
  {
    hide Owes, Do, Safe;
    SafeIsValid(w);
    if actions != [] {
      var before := Run(w, actions[..|actions| - 1]);
      RunOwes(w, actions[..|actions| - 1]);
      SafeStep(before, actions[|actions| - 1]);
      OwesStep(before, actions[|actions| - 1]);
    }
  }

  /** Nothing is on its way: no frame, no request, no flight, and every event was fanned out. */
  predicate Quiescent(w: World) {
    && Served(w)
    && Queue(w.link) == [] && w.link.asks == [] && w.link.work.Idle?
    && w.cl.flight.NoFlight?
    && w.todo == {}
  }

  lemma QuietMeansDone(w: World)
    requires Safe(w) && Owes(w) && Quiescent(w) && !w.stale && !w.gaveUp
    ensures w.cl.lastSeq == w.box.Head() || w.blind == w.box.Head()
  {
    var f := FlowOf(w);
    assert Settled(f);
    assert f.q + f.d == [];
    if w.cl.lastSeq < w.box.Head() {
      assert w.cl.nextSeq in w.cl.buffered || Due(f, f.q + f.d, w.cl.nextSeq);
      assert w.box.Head() in w.cl.buffered || Due(f, f.q + f.d, w.box.Head());
    }
  }

  /** A page is read below the head, and every row has been pruned. */
  predicate FindsEmptied(w: World, a: Action) {
    && a.ReadPage? && w.up && w.link.work.Headed?
    && w.link.work.cursor <= w.link.work.head && w.link.work.cursor < w.box.Head() == w.box.base
  }

  /** No read of the run found the store emptied. */
  ghost predicate NeverEmptied(w: World, actions: seq<Action>)
    requires w.box.Valid()
  {
    forall i :: 0 <= i < |actions| ==> !FindsEmptied(Run(w, actions[..i]), actions[i])
  }

  lemma BlindStep(w: World, a: Action)
    requires w.box.Valid() && !FindsEmptied(w, a)
    ensures Do(w, a).blind == w.blind || Do(w, a).blind == 0
  {
    hide Deliver, OnFrame, ReplayAll, ReleaseLive, EndRequest;
  }

  lemma {:induction false} NeverBlind(w: World, actions: seq<Action>)
    requires w.box.Valid() && w.blind == 0 && NeverEmptied(w, actions)
    ensures Run(w, actions).blind == 0
  {
    hide Do, FindsEmptied;
    if actions != [] {
      var front := actions[..|actions| - 1];
      assert forall i :: 0 <= i < |front| ==> front[..i] == actions[..i] && front[i] == actions[i];
      NeverBlind(w, front);
      BlindStep(Run(w, front), actions[|front|]);
    }
  }

  /** In every run, whatever was reordered, duplicated, dropped with a socket or thrown away by
      an overflow: once nothing is on its way and the last flight did not end in an error, the
      client has handed over everything up to the host's position, unless a read found a store
      with no row left and so asked for no resync. */
  lemma QuiescentClientIsCaughtUp(box: Box, lastSeq: nat, actions: seq<Action>)
    requires box.Valid()
    ensures var w := Run(Start(box, lastSeq), actions);
            Quiescent(w) && !w.stale && !w.gaveUp ==>
              && (w.cl.lastSeq == w.box.Head() || w.blind == w.box.Head())
              && (NeverEmptied(Start(box, lastSeq), actions) ==> w.cl.lastSeq == w.box.Head())
  {
    hide Run, Quiescent, NeverEmptied;
    StartSafe(box, lastSeq);
    RunOwes(Start(box, lastSeq), actions);
    if NeverEmptied(Start(box, lastSeq), actions) {
      NeverBlind(Start(box, lastSeq), actions);
    }
    var w := Run(Start(box, lastSeq), actions);
    assert Safe(w) ==> w.cl.lastSeq <= w.box.Head() || w.stale;
    hide Safe, Owes;
    if Quiescent(w) && !w.stale && !w.gaveUp {
      QuietMeansDone(w);
    }
  }

  // ---- the position the last page told ----------------------------------------------------

  ghost predicate PagesUpTo(fs: seq<Frame>, mark: nat) {
    forall f :: f in fs && f.Res? && f.reply.Page? ==> f.reply.hostSeq <= mark
  }

  /** No page, received or on its way, tells a position above the one that was read last. */
  ghost predicate ToldOk(l: Link) {
    && l.told <= l.mark
    && PagesUpTo(Queue(l), l.mark)
    && (l.work.Headed? ==> l.work.head <= l.mark)
    && (l.work.Paged? || l.work.Released? ==> PagesUpTo([Res(l.work.reply)], l.mark))
  }

  lemma ToldGrows(l: Link, t: SessionState, fs: seq<Frame>)
    requires ToldOk(l) && Grew(l.ss, t, fs) && PagesUpTo(fs, l.mark)
    ensures ToldOk(l.(ss := t))
  {
    var extra := t.pending[|l.ss.pending|..];
    assert t.pending == l.ss.pending + extra;
    assert Queue(l.(ss := t)) == Queue(l) + extra;
  }

  lemma ToldLive(w: World, f: Frame)
    requires Safe(w) && w.up && ToldOk(w.link) && FrameOk(f, w.box.log) && (f.Evt? || f.Tick?)
    ensures ToldOk(w.link.(ss := Deliver(w.link.ss, f)))
  {
    hide FrameOk, Agrees, ToldOk, GreetingOk, FlagsOk;
    DeliverKeeps(w.link.ss, f, w.box.log);
    ToldGrows(w.link, Deliver(w.link.ss, f), [f]);
  }

  lemma ToldBegin(w: World, a: Action)
    requires Safe(w) && w.up && ToldOk(w.link)
    requires a.BeginCall? || a.BeginSync? || a.Hold? || a.ReadHead? || a.FailRead?
    ensures ToldOk(Do(w, a).link)
  {
    hide Agrees, AllOk, GreetingOk, FlagsOk;
    assert Queue(Do(w, a).link) == Queue(w.link);
  }

  lemma PageTells(w: World)
    requires w.box.Valid() && w.link.work.Headed? && w.link.work.head <= w.box.Head()
    ensures PagesUpTo([Res(AtPage(w).reply)], w.link.work.head)
  {
    hide Serve;
    ServedPage(w.link.work.head, w.box, w.link.work.cursor, SYNC_LIMIT);
  }

  lemma ToldReadPage(w: World)
    requires Safe(w) && w.up && ToldOk(w.link) && w.link.work.Headed?
    ensures ToldOk(Do(w, ReadPage).link)
  {
    hide Agrees, AtPage, FrameOk, GreetingOk, FlagsOk;
    PageOk(w);
    PageTells(w);
    var r := AtPage(w);
    ReplayAllKeeps(w.link.ss, r.page, w.box.log);
    hide SessionOk, LinkOk, Frames;
    ToldGrows(w.link, ReplayAll(w.link.ss, r.page), Frames(r.page));
  }

  lemma ToldRelease(w: World)
    requires Safe(w) && w.up && ToldOk(w.link) && w.link.work.Paged?
    ensures ToldOk(Do(w, Release).link)
  {
    hide Agrees, FrameOk, GreetingOk, FlagsOk;
    var ss, high := w.link.ss, w.link.work.high;
    SurvivingAreHeld(ss.held, high);
    DeliverAllKeeps(ss.(holdLive := false, held := []), Surviving(ss.held, high), w.box.log);
    ToldGrows(w.link, ReleaseLive(ss, high), Surviving(ss.held, high));
  }

  lemma ToldEnd(w: World)
    requires Safe(w) && w.up && ToldOk(w.link) && (w.link.work.Released? || w.link.work.Calling?)
    ensures ToldOk(Do(w, End).link)
  {
    hide Agrees, GreetingOk, FlagsOk;
    var reply := if w.link.work.Released? then w.link.work.reply else Other;
    assert FrameOk(Res(reply), w.box.log);
    hide FrameOk;
    EndQueues(w.link.ss, reply, w.box.log);
    ToldGrows(w.link, EndRequest(w.link.ss, reply), [Res(reply)] + w.link.ss.deferred);
  }

  lemma ToldSend(w: World)
    requires w.box.Valid() && w.up && ToldOk(w.link)
    ensures ToldOk(Do(w, Send).link)
  {
    var l, m := w.link, Do(w, Send).link;
    if !l.ss.closing && l.ss.pending != [] {
      assert (l.wire + [l.ss.pending[0]]) + l.ss.pending[1..] == l.wire + l.ss.pending;
      assert Queue(m) == Queue(l);
    }
  }

  lemma ToldReceive(w: World)
    requires w.box.Valid() && w.up && ToldOk(w.link)
    ensures ToldOk(Do(w, Receive).link)
  {
    hide OnFrame;
    var l, m := w.link, Do(w, Receive).link;
    if l.wire != [] {
      assert l.wire[0] in Queue(l);
      assert Queue(m) == Queue(l)[1..];
    }
  }

  lemma ToldOutside(w: World, a: Action)
    requires Safe(w) && w.up && ToldOk(w.link)
    requires a.Emit? || a.Prune? || a.HostStop? || a.Connect? || a.Disconnect? || a.Attach? || a.Fanout? || a.TickOut?
    ensures Do(w, a).up ==> ToldOk(Do(w, a).link)
  {
    hide ToldOk, LinkOk, Agrees;
    if a.Fanout? && 1 <= a.s <= w.box.Head() && w.link.attached {
      ToldLive(w, Evt(w.box.At(a.s)));
    } else if a.TickOut? && w.link.attached {
      ToldLive(w, Tick);
    } else if a.Attach? && !w.link.attached {
      ToldAttached(w.link);
      ToldGrows(w.link.(attached := true), EnterReady(w.link.ss, w.link.hello), [Welcome(w.link.hello)]);
    }
  }

  lemma ToldAttached(l: Link)
    requires ToldOk(l)
    ensures ToldOk(l.(attached := true))
  {
    assert Queue(l.(attached := true)) == Queue(l);
  }

  lemma ToldServes(w: World, a: Action)
    requires Safe(w) && w.up && ToldOk(w.link) && (a.ReadPage? || a.Release? || a.End?)
    ensures Do(w, a).up && ToldOk(Do(w, a).link)
  {
    hide ToldOk, LinkOk, Agrees;
    if a.ReadPage? && w.link.work.Headed? {
      ToldReadPage(w);
    } else if a.Release? && w.link.work.Paged? {
      ToldRelease(w);
    } else if a.End? && (w.link.work.Released? || w.link.work.Calling?) {
      ToldEnd(w);
    }
  }

  lemma ToldStep(w: World, a: Action)
    requires Safe(w) && (w.up ==> ToldOk(w.link))
    ensures Do(w, a).up ==> ToldOk(Do(w, a).link)
  {
    hide ToldOk, Safe, Do;
    if w.up {
      SafeIsValid(w);
      match a
      case ReadPage => ToldServes(w, a);
      case Release => ToldServes(w, a);
      case End => ToldServes(w, a);
      case Send => ToldSend(w);
      case Receive => ToldReceive(w);
      case BeginCall => ToldBegin(w, a);
      case BeginSync => ToldBegin(w, a);
      case Hold => ToldBegin(w, a);
      case ReadHead => ToldBegin(w, a);
      case FailRead => ToldBegin(w, a);
      case _ => ToldOutside(w, a);
    } else {
      ToldOffline(w, a);
    }
  }

  lemma ToldOffline(w: World, a: Action)
    requires Safe(w) && !w.up
    ensures Do(w, a).up ==> ToldOk(Do(w, a).link)
  {
    hide LinkOk, Agrees, OnFrame, Deliver, ReplayAll, ReleaseLive, EndRequest, EnterReady, AtPage;
  }

  lemma {:induction false} RunTold(w: World, actions: seq<Action>)
    requires Safe(w) && (w.up ==> ToldOk(w.link))
    ensures Run(w, actions).up ==> ToldOk(Run(w, actions).link)
  {
    assert w.box.Valid();
    if actions != [] {
      RunTold(w, actions[..|actions| - 1]);
      RunSafe(w, actions[..|actions| - 1]);
      hide Safe, ToldOk, Do;
      ToldStep(Run(w, actions[..|actions| - 1]), actions[|actions| - 1]);
    }
  }

  /** The last catch-up of this socket landed, and no event up to the position its last page told
      is still on its way. Later events may be queued, waiting for their fan-out, or deferred. */
  ghost predicate Landed(w: World) {
    && Served(w) && w.cl.flight.NoFlight? && !w.gaveUp
    && forall f :: f in Queue(w.link) + w.link.ss.deferred && f.Evt? ==> f.e.s > w.link.told
  }

  lemma LandedMeansTold(w: World)
    requires Safe(w) && Owes(w) && ToldOk(w.link) && Landed(w) && !w.stale
    ensures w.link.told <= w.cl.lastSeq || w.link.told <= w.blind
  {
    var f, told := FlowOf(w), w.link.told;
    assert Settled(f);
    if w.cl.lastSeq < told {
      forall s | w.cl.lastSeq < s <= told
        ensures s in w.cl.buffered || s <= w.blind
      {
        assert s in f.cl.buffered || Due(f, f.q + f.d, s);
      }
      assert w.cl.nextSeq <= w.blind && (told in w.cl.buffered || told <= w.blind);
    }
  }

  /** In every run: when a catch-up has landed and the events up to the `host_seq` of its last page
      that were sent have arrived, the client has handed over every event up to there, unless a
      read found a store with no row left. Events that still wait for their fan-out, and rows that
      were pruned in any other way, do not matter. */
  lemma LandedCatchUpIsComplete(box: Box, lastSeq: nat, actions: seq<Action>)
    requires box.Valid()
    ensures var w := Run(Start(box, lastSeq), actions);
            Landed(w) && !w.stale ==>
              && (w.link.told <= w.cl.lastSeq || w.link.told <= w.blind)
              && (NeverEmptied(Start(box, lastSeq), actions) ==> w.link.told <= w.cl.lastSeq)
  {
    hide Run, Safe, Landed, ToldOk, NeverEmptied;
    StartSafe(box, lastSeq);
    RunOwes(Start(box, lastSeq), actions);
    RunTold(Start(box, lastSeq), actions);
    if NeverEmptied(Start(box, lastSeq), actions) {
      NeverBlind(Start(box, lastSeq), actions);
    }
    hide Owes;
    var w := Run(Start(box, lastSeq), actions);
    if Landed(w) && !w.stale {
      assert w.up by {
        LandedIsUp(w);
      }
      LandedMeansTold(w);
    }
  }

  lemma LandedIsUp(w: World)
    requires Landed(w)
    ensures w.up
  {
  }

  /** That exception is real: over a store with no row left, the answer to any cursor below the
      host's position lands the flight where it started. */
  lemma EmptiedStoreLandsEarly(c: ClientState, box: Box)
    requires box.Valid() && box.base == box.Head()
    requires c.flight.Flying? && c.flight.cursor < box.Head() && !c.again
    ensures OnReply(c, Serve(box.Head(), box, c.flight.cursor, SYNC_LIMIT).reply).cl == c.(flight := NoFlight)
  {
    ServedPage(box.Head(), box, c.flight.cursor, SYNC_LIMIT);
  }
}
