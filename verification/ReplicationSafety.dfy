/** Every run of the protocol: what the client hands over is the log, in order, without a gap. */
module ReplicationSafety {
  import opened Outbox
  import opened SessionModel
  import opened HubModel
  import opened ClientModel
  import opened Replication

  /** What a session operation may do to the queue: append some of `fs`, nothing when closing. */
  ghost predicate Grew(ss: SessionState, t: SessionState, fs: seq<Frame>) {
    && ss.pending <= t.pending
    && (forall i :: |ss.pending| <= i < |t.pending| ==> t.pending[i] in fs)
    && (ss.closing ==> t.pending == ss.pending && t.closing)
  }

  /** `r` is `q` with frames of `fs` behind it. */
  ghost predicate Behind(q: seq<Frame>, r: seq<Frame>, fs: seq<Frame>) {
    q <= r && forall i :: |q| <= i < |r| ==> r[i] in fs
  }

  lemma QueueGrew(l: Link, t: SessionState, fs: seq<Frame>)
    requires Grew(l.ss, t, fs)
    ensures Behind(Queue(l), Queue(l.(ss := t)), fs)
  {
    var q, r := Queue(l), Queue(l.(ss := t));
    forall i | |q| <= i < |r|
      ensures r[i] in fs
    {
      assert r[i] == t.pending[i - |l.wire|];
    }
  }

  lemma StaysUnwelcomed(q: seq<Frame>, r: seq<Frame>, fs: seq<Frame>)
    requires Behind(q, r, fs) && NoWelcome(q) && NoWelcome(fs)
    ensures NoWelcome(r)
  {
    forall f | f in r
      ensures !f.Welcome?
    {
      var i :| 0 <= i < |r| && r[i] == f;
      assert i < |q| ==> f == q[i];
    }
  }

  lemma StaysLive(q: seq<Frame>, r: seq<Frame>, fs: seq<Frame>)
    requires Behind(q, r, fs) && q != [] && Live(q[1..]) && Live(fs)
    ensures Live(r[1..])
  {
    forall f | f in r[1..]
      ensures f.Evt? || f.Tick?
    {
      var i :| 0 <= i < |r[1..]| && r[1..][i] == f;
      assert i + 1 < |q| ==> f == q[1..][i];
    }
  }

  lemma GreetingKept(l: Link, t: SessionState, fs: seq<Frame>)
    requires GreetingOk(l) && l.attached && Grew(l.ss, t, fs) && NoWelcome(fs)
    requires l.greeted || Live(fs)
    ensures GreetingOk(l.(ss := t))
  {
    hide NoWelcome, Live, Queue;
    var q, r := Queue(l), Queue(l.(ss := t));
    QueueGrew(l, t, fs);
    if l.greeted {
      StaysUnwelcomed(q, r, fs);
    } else if q != [] {
      StaysLive(q, r, fs);
    } else {
      ClosedStaysEmpty(l, t, fs);
    }
  }

  lemma ClosedStaysEmpty(l: Link, t: SessionState, fs: seq<Frame>)
    requires Grew(l.ss, t, fs) && l.ss.closing && Queue(l) == []
    ensures Queue(l.(ss := t)) == []
  {
  }

  /** Delivering a live frame keeps the session honest and its flags as they were. */
  lemma DeliverKeeps(ss: SessionState, f: Frame, log: seq<Event>)
    requires SessionOk(ss, log) && FrameOk(f, log) && (f.Evt? || f.Tick?)
    ensures var t := Deliver(ss, f);
            && SessionOk(t, log) && Grew(ss, t, [f])
            && t.inRequest == ss.inRequest && t.holdLive == ss.holdLive
            && (ss.closing ==> t.closing)
            && (!ss.inRequest ==> t.deferred == ss.deferred)
            && (!ss.holdLive ==> t.held == ss.held)
  {
  }

  lemma {:induction false} DeliverAllKeeps(ss: SessionState, fs: seq<Frame>, log: seq<Event>)
    requires SessionOk(ss, log) && AllOk(fs, log) && Live(fs)
    ensures var t := DeliverAll(ss, fs);
            && SessionOk(t, log) && Grew(ss, t, fs)
            && t.inRequest == ss.inRequest && t.holdLive == ss.holdLive
            && (ss.closing ==> t.closing)
            && (!ss.holdLive ==> t.held == ss.held)
  {
    hide Deliver, FrameOk;
    if fs != [] {
      var front, last := fs[..|fs| - 1], fs[|fs| - 1];
      assert last in fs && forall f :: f in front ==> f in fs;
      DeliverAllKeeps(ss, front, log);
      DeliverKeeps(DeliverAll(ss, front), last, log);
    }
  }

  lemma ReplayKeeps(ss: SessionState, f: Frame, log: seq<Event>)
    requires SessionOk(ss, log) && FrameOk(f, log) && f.Evt?
    ensures var t := Replay(ss, f);
            && SessionOk(t, log) && Grew(ss, t, [f])
            && t.inRequest == ss.inRequest && t.holdLive == ss.holdLive
            && (ss.closing ==> t.closing) && t.held == ss.held
  {
    hide FrameOk;
  }

  lemma {:induction false} ReplayAllKeeps(ss: SessionState, es: seq<Event>, log: seq<Event>)
    requires SessionOk(ss, log)
    requires forall i :: 0 <= i < |es| ==> FrameOk(Evt(es[i]), log)
    ensures var t := ReplayAll(ss, es);
            && SessionOk(t, log) && Grew(ss, t, Frames(es))
            && t.inRequest == ss.inRequest && t.holdLive == ss.holdLive
            && (ss.closing ==> t.closing) && t.held == ss.held
  {
    hide FrameOk, Replay;
    if es != [] {
      var front := es[..|es| - 1];
      ReplayAllKeeps(ss, front, log);
      var last := Evt(es[|es| - 1]);
      assert Frames(es) == Frames(front) + [last];
      assert last in Frames(es) && FrameOk(last, log);
      ReplayKeeps(ReplayAll(ss, front), last, log);
    }
  }

  lemma {:induction false} SurvivingAreHeld(fs: seq<Frame>, high: nat)
    ensures forall f :: f in Surviving(fs, high) ==> f in fs
  {
    forall f | f in Surviving(fs, high)
      ensures f in fs
    {
      SurvivingMembers(fs, high, f);
    }
  }

  lemma EndQueues(ss: SessionState, reply: Reply, log: seq<Event>)
    requires SessionOk(ss, log) && FrameOk(Res(reply), log)
    ensures var t := EndRequest(ss, reply);
            && SessionOk(t, log) && Grew(ss, t, [Res(reply)] + ss.deferred)
            && !t.inRequest && t.holdLive == ss.holdLive && t.deferred == [] && t.held == ss.held
            && (ss.closing ==> t.closing)
  {
    var fs := [Res(reply)] + ss.deferred;
    var s0 := ss.(inRequest := false, deferred := []);
    EnqueueAllAppends(s0, fs);
    var t := EndRequest(ss, reply);
    assert forall f :: f in t.pending ==> f in ss.pending + fs;
  }

  // ---- one lemma per kind of step ---------------------------------------------------------

  lemma SafeLog(w: World, a: Action)
    requires Safe(w) && (a.Emit? || a.Prune?)
    ensures Safe(Do(w, a))
  {
    var w' := Do(w, a);
    assert w.box.log <= w'.box.log;
    if !w.stale {
      AgreesGrows(w.cl, w.box.log, w'.box.log);
    }
    if w.up {
      hide GreetingOk, FlagsOk;
      AllOkGrows(w.link.wire, w.box.log, w'.box.log);
      AllOkGrows(w.link.ss.pending, w.box.log, w'.box.log);
      AllOkGrows(w.link.ss.deferred, w.box.log, w'.box.log);
      AllOkGrows(w.link.ss.held, w.box.log, w'.box.log);
    }
  }

  lemma SafeLive(w: World, f: Frame)
    requires Safe(w) && w.up && w.link.attached && FrameOk(f, w.box.log) && (f.Evt? || f.Tick?)
    ensures LinkOk(w.link.(ss := Deliver(w.link.ss, f)), w.box.log)
  {
    hide FrameOk, Agrees;
    DeliverKeeps(w.link.ss, f, w.box.log);
    GreetingKept(w.link, Deliver(w.link.ss, f), [f]);
  }

  /** What a log that is cut back contradicts: exactly the clients that hold a later position. */
  lemma CutAgreesIff(c: ClientState, log: seq<Event>, kept: nat)
    requires Agrees(c, log) && kept <= |log|
    ensures Agrees(c, log[..kept]) <==> Reaches(kept, c)
  {
    if c.lastSeq <= kept {
      assert log[..kept][c.from..c.lastSeq] == log[c.from..c.lastSeq];
    }
  }

  lemma SafeOutside(w: World, a: Action)
    requires Safe(w) && (a.HostStop? || a.Connect? || a.Disconnect?)
    ensures Safe(Do(w, a))
  {
    if a.HostStop? && Do(w, a) != w {
      hide LinkOk;
      var w' := Do(w, a);
      assert w'.box.Valid();
      if !w'.stale {
        CutAgreesIff(w.cl, w.box.log, a.kept);
      }
    }
  }

  lemma SafeAttach(w: World)
    requires Safe(w) && w.up && !w.link.attached
    ensures Safe(Do(w, Attach))
  {
    hide Agrees, LinkOk, EnterReady;
    Unattached(w.link, w.box.log);
    AttachKeeps(w.link, w.box.log);
  }

  lemma Unattached(l: Link, log: seq<Event>)
    requires LinkOk(l, log) && !l.attached
    ensures !l.greeted && l.wire == [] && l.ss.pending == [] && !l.ss.closing
  {
    hide SessionOk, AllOk, WorkSafe, FlagsOk, NoWelcome, Live;
    assert Queue(l) == [] ==> |l.wire + l.ss.pending| == 0;
  }

  lemma AttachKeeps(l: Link, log: seq<Event>)
    requires LinkOk(l, log) && !l.attached
    ensures LinkOk(l.(attached := true, ss := EnterReady(l.ss, l.hello)), log)
  {
    hide WorkSafe, NoWelcome;
    Unattached(l, log);
    var m := l.(attached := true, ss := EnterReady(l.ss, l.hello));
    assert m.ss == l.ss.(pending := m.ss.pending, closing := m.ss.closing);
    if l.ss.limit > 0 {
      assert m.ss.pending == [Welcome(l.hello)];
      assert Queue(m) == [Welcome(l.hello)];
    } else {
      assert m.ss.pending == [] && m.ss.closing;
      assert Queue(m) == [];
    }
  }

  lemma SafeBegin(w: World, a: Action)
    requires Safe(w) && (a.BeginCall? || a.BeginSync? || a.Hold? || a.ReadHead? || a.FailRead?)
    ensures Safe(Do(w, a))
  {
    hide Safe, Do;
    match a
    case BeginCall => SafeCalls(w, a);
    case BeginSync => SafeCalls(w, a);
    case Hold => SafeReads(w, a);
    case ReadHead => SafeReads(w, a);
    case FailRead => SafeFails(w);
  }

  lemma SafeCalls(w: World, a: Action)
    requires Safe(w) && (a.BeginCall? || a.BeginSync?)
    ensures Safe(Do(w, a))
  {
    hide Agrees, AllOk, Live, NoWelcome;
    assert Queue(Do(w, a).link) == Queue(w.link);
  }

  lemma SafeReads(w: World, a: Action)
    requires Safe(w) && (a.Hold? || a.ReadHead?)
    ensures Safe(Do(w, a))
  {
    hide Agrees, AllOk, Live, NoWelcome;
    assert Queue(Do(w, a).link) == Queue(w.link);
  }

  lemma SafeFails(w: World)
    requires Safe(w)
    ensures Safe(Do(w, FailRead))
  {
    hide Agrees, AllOk, Live, NoWelcome;
    assert Queue(Do(w, FailRead).link) == Queue(w.link);
  }

  lemma PageOk(w: World)
    requires w.box.Valid() && w.link.work.Headed? && w.link.work.head <= w.box.Head()
    ensures var r := AtPage(w);
            && (forall i :: 0 <= i < |r.page| ==> FrameOk(Evt(r.page[i]), w.box.log))
            && FrameOk(Res(r.reply), w.box.log) && !r.reply.Other?
            && (r.reply.Page? && r.page == [] && w.link.work.cursor <= w.link.work.head ==>
                  w.link.work.cursor < w.box.Head() ==> w.box.base == w.box.Head())
  {
    hide Serve;
    ServedPage(w.link.work.head, w.box, w.link.work.cursor, SYNC_LIMIT);
  }

  lemma SafeReadPage(w: World)
    requires Safe(w) && w.up && w.link.work.Headed?
    ensures Safe(Do(w, ReadPage))
  {
    hide Agrees, AtPage, FrameOk;
    var r := AtPage(w);
    PageOk(w);
    ReplayAllKeeps(w.link.ss, r.page, w.box.log);
    if !w.link.ss.closing {
      ReplayAllDefers(w.link.ss, r.page);
    }
    GreetingKept(w.link, ReplayAll(w.link.ss, r.page), Frames(r.page));
  }

  lemma SafeRelease(w: World)
    requires Safe(w) && w.up && w.link.work.Paged?
    ensures Safe(Do(w, Release))
  {
    hide Agrees, FrameOk;
    var ss, high := w.link.ss, w.link.work.high;
    SurvivingAreHeld(ss.held, high);
    var s0 := ss.(holdLive := false, held := []);
    DeliverAllKeeps(s0, Surviving(ss.held, high), w.box.log);
    GreetingKept(w.link, ReleaseLive(ss, high), Surviving(ss.held, high));
  }

  lemma SafeEnd(w: World)
    requires Safe(w) && w.up && (w.link.work.Released? || w.link.work.Calling?)
    ensures Safe(Do(w, End))
  {
    hide Agrees;
    var reply := if w.link.work.Released? then w.link.work.reply else Other;
    assert FrameOk(Res(reply), w.box.log);
    hide FrameOk;
    EndQueues(w.link.ss, reply, w.box.log);
    GreetingKept(w.link, EndRequest(w.link.ss, reply), [Res(reply)] + w.link.ss.deferred);
  }

  lemma SafeSend(w: World)
    requires Safe(w)
    ensures Safe(Do(w, Send))
  {
    hide Agrees, FrameOk, AllOk, Queue, Live, NoWelcome, WorkSafe;
    var l := w.link;
    if w.up && !l.ss.closing && l.ss.pending != [] {
      SendMoves(l, Do(w, Send).link, w.box.log);
    }
  }

  lemma SendMoves(l: Link, m: Link, log: seq<Event>)
    requires AllOk(l.wire, log) && AllOk(l.ss.pending, log) && l.ss.pending != []
    requires m.wire == l.wire + [l.ss.pending[0]] && m.ss.pending == l.ss.pending[1..]
    ensures Queue(m) == Queue(l) && AllOk(m.wire, log) && AllOk(m.ss.pending, log)
  {
    hide FrameOk;
    assert (l.wire + [l.ss.pending[0]]) + l.ss.pending[1..] == l.wire + l.ss.pending;
  }

  lemma WelcomeAgrees(c: ClientState, hostSeq: nat, log: seq<Event>)
    requires Agrees(c, log) && hostSeq <= |log| && (!c.welcomed ==> c.buffered == map[])
    ensures Agrees(OnWelcome(c, hostSeq).cl, log)
  {
    hide Agrees, Reset;
    AgreesWithin(c, log);
    ResetIsEmpty(c, 0, log);
    ResetIsEmpty(c, hostSeq, log);
    assert !c.welcomed ==> Reset(c, hostSeq, hostSeq + 1) == Reset(c, hostSeq, hostSeq + 1).(buffered := map[]) by {
      ResetKeepsBuffer(c, hostSeq);
    }
    var placed :=
      if hostSeq < c.lastSeq then Reset(c, 0, 1).(buffered := map[])
      else if !c.welcomed && c.lastSeq == 0 && hostSeq > 0 then Reset(c, hostSeq, hostSeq + 1)
      else c;
    AgreesAside(placed, log, OnWelcome(c, hostSeq).cl);
  }

  lemma ResetKeepsBuffer(c: ClientState, n: nat)
    ensures Reset(c, n, n + 1).buffered == c.buffered
  {
  }

  lemma ResetIsEmpty(c: ClientState, n: nat, log: seq<Event>)
    requires Numbered(log) && n <= |log|
    ensures Agrees(Reset(c, n, n + 1).(buffered := map[]), log)
  {
    assert log[n..n] == [];
  }

  lemma AgreesAside(c: ClientState, log: seq<Event>, d: ClientState)
    requires Agrees(c, log) && d == c.(welcomed := d.welcomed, flight := d.flight, again := d.again)
    ensures Agrees(d, log)
  {
  }

  lemma ReplyAgrees(c: ClientState, reply: Reply, log: seq<Event>)
    requires Agrees(c, log) && (reply.Resync? ==> 1 <= reply.minSeq <= |log|)
    ensures Agrees(OnReply(c, reply).cl, log)
  {
    if reply.Resync? {
      assert log[reply.minSeq - 1..reply.minSeq - 1] == [];
    }
  }

  lemma ReceiveAgrees(c: ClientState, f: Frame, log: seq<Event>)
    requires FrameOk(f, log) && Agrees(c, log) && (!c.welcomed ==> c.buffered == map[])
    ensures Agrees(OnFrame(c, f).cl, log)
  {
    hide AcceptEvent, OnWelcome, OnReply, Agrees;
    match f
    case Evt(e) => AcceptAgrees(c, log, e);
    case Welcome(hostSeq) => WelcomeAgrees(c, hostSeq, log);
    case Res(reply) => ReplyAgrees(c, reply, log);
    case Tick =>
  }

  /** A cursor reset needs no earlier agreement: a welcome below the cursor or a resync makes the
      client agree with whatever log the host now has. */
  lemma ResetAgrees(c: ClientState, f: Frame, log: seq<Event>)
    requires FrameOk(f, log) && Resets(c, f) && Numbered(log)
    ensures Agrees(OnFrame(c, f).cl, log)
  {
    assert log[0..0] == [];
    if f.Res? {
      assert log[f.reply.minSeq - 1..f.reply.minSeq - 1] == [];
    }
  }

  lemma ReceiveKeepsWelcome(c: ClientState, f: Frame)
    requires !c.welcomed ==> c.buffered == map[]
    requires f.Evt? ==> c.welcomed
    ensures var d := OnFrame(c, f).cl;
            && (!d.welcomed ==> d.buffered == map[])
            && (c.welcomed || f.Welcome? ==> d.welcomed)
            && (f.Evt? || f.Welcome? || c.flight.Flying? || OnFrame(c, f).sent.Silent?)
            && (!f.Evt? && !f.Welcome? && c.flight.NoFlight? ==> d.flight.NoFlight?)
  {
    if f.Evt? && f.e.s >= c.nextSeq {
      DrainKeepsWelcomed(Keep(c, f.e));
      DrainKeepsWelcomed(Keep(CatchUp(c).cl, f.e));
    }
  }

  lemma {:induction false} DrainKeepsWelcomed(c: ClientState)
    ensures Drain(c).welcomed == c.welcomed
    decreases c.buffered.Keys
  {
    if c.nextSeq in c.buffered {
      DrainKeepsWelcomed(HandOver(c));
    }
  }

  lemma ReceiveLink(w: World)
    requires Safe(w) && w.up && w.link.wire != []
    ensures var f := w.link.wire[0];
            && FrameOk(f, w.box.log)
            && (w.link.greeted ==> !f.Welcome?)
            && (!w.link.greeted ==> f.Welcome? && w.link.attached)
            && LinkOk(Received(w, f).link, w.box.log)
  {
    hide Agrees, OnFrame, FrameOk;
    var l, f := w.link, w.link.wire[0];
    assert f in l.wire;
    assert Queue(l)[0] == f && Queue(l)[1..] == l.wire[1..] + l.ss.pending;
    var l' := Received(w, f).link;
    assert Queue(l') == Queue(l)[1..];
    assert NoWelcome(Queue(l')) by {
      assert forall g :: g in Queue(l') ==> g in Queue(l);
    }
    assert GreetingOk(l');
  }

  lemma SafeReceive(w: World)
    requires Safe(w) && w.up && w.link.wire != []
    ensures Safe(Do(w, Receive))
  {
    hide LinkOk, GreetingOk, FrameOk;
    var f := w.link.wire[0];
    ReceiveLink(w);
    if !w.stale {
      ReceiveAgrees(w.cl, f, w.box.log);
    } else if Resets(w.cl, f) {
      ResetAgrees(w.cl, f, w.box.log);
    }
    ReceiveKeepsWelcome(w.cl, f);
  }

  /** No step of any party breaks the safety invariant. */
  lemma SafeStep(w: World, a: Action)
    requires Safe(w)
    ensures Safe(Do(w, a))
  {
    hide Safe, Do;
    match a
    case Emit(_, _) => SafeLog(w, a);
    case Prune(_) => SafeLog(w, a);
    case Fanout(s) => SafeFans(w, a);
    case TickOut => SafeFans(w, a);
    case HostStop(_, _) => SafeOutside(w, a);
    case Connect(_) => SafeOutside(w, a);
    case Disconnect => SafeOutside(w, a);
    case Attach => SafeAttaches(w);
    case BeginCall => SafeBegin(w, a);
    case BeginSync => SafeBegin(w, a);
    case Hold => SafeBegin(w, a);
    case ReadHead => SafeBegin(w, a);
    case FailRead => SafeBegin(w, a);
    case ReadPage => SafeServes(w, a);
    case Release => SafeServes(w, a);
    case End => SafeServes(w, a);
    case Send => SafeSend(w);
    case Receive => SafeGets(w);
  }

  lemma SafeFans(w: World, a: Action)
    requires Safe(w) && (a.Fanout? || a.TickOut?)
    ensures Safe(Do(w, a))
  {
    hide LinkOk, Agrees, Deliver;
    if a.Fanout? && 1 <= a.s <= w.box.Head() && w.up && w.link.attached {
      SafeLive(w, Evt(w.box.At(a.s)));
    } else if a.TickOut? && w.up && w.link.attached {
      SafeLive(w, Tick);
    }
  }

  lemma SafeAttaches(w: World)
    requires Safe(w)
    ensures Safe(Do(w, Attach))
  {
    hide LinkOk, Agrees, EnterReady;
    if w.up && !w.link.attached {
      SafeAttach(w);
    }
  }

  lemma SafeServes(w: World, a: Action)
    requires Safe(w) && (a.ReadPage? || a.Release? || a.End?)
    ensures Safe(Do(w, a))
  {
    hide LinkOk, Agrees, AtPage, ReplayAll, ReleaseLive, EndRequest;
    if a.ReadPage? && w.up && w.link.work.Headed? {
      SafeReadPage(w);
    } else if a.Release? && w.up && w.link.work.Paged? {
      SafeRelease(w);
    } else if a.End? && w.up && (w.link.work.Released? || w.link.work.Calling?) {
      SafeEnd(w);
    }
  }

  lemma SafeGets(w: World)
    requires Safe(w)
    ensures Safe(Do(w, Receive))
  {
    hide LinkOk, Agrees, Received;
    if w.up && w.link.wire != [] {
      SafeReceive(w);
    }
  }

  lemma {:induction false} RunSafe(w: World, actions: seq<Action>)
    requires Safe(w)
    ensures Safe(Run(w, actions))
  {
    if actions != [] {
      RunSafe(w, actions[..|actions| - 1]);
      SafeStep(Run(w, actions[..|actions| - 1]), actions[|actions| - 1]);
    }
  }

  /** What the handlers got since the last cursor reset is the log from there to the cursor. */
  ghost predicate InOrder(w: World) {
    && w.cl.from + |w.cl.handed| == w.cl.lastSeq <= w.box.Head()
    && forall i :: 0 <= i < |w.cl.handed| ==> w.cl.handed[i] == w.box.At(w.cl.from + 1 + i)
  }

  lemma SafeIsInOrder(w: World)
    requires Safe(w)
    ensures w.stale || InOrder(w)
  {
    hide LinkOk;
  }

  /** In every run, from any outbox and any saved cursor: the events handed over since the last
      cursor reset are exactly the consecutive log entries from there to the cursor. The only way
      out is a host restored to a log that contradicts the client, until the next reset. */
  lemma HandsOverTheLog(box: Box, lastSeq: nat, actions: seq<Action>)
    requires box.Valid()
    ensures var w := Run(Start(box, lastSeq), actions);
            w.stale || InOrder(w)
  {
    hide Safe, Run, InOrder;
    StartSafe(box, lastSeq);
    RunSafe(Start(box, lastSeq), actions);
    SafeIsInOrder(Run(Start(box, lastSeq), actions));
  }

  /** A client that has handed over `handed` from position 0 and is offline. */
  function Steady(log: seq<Event>, handed: seq<Event>): World {
    World(Box(log, 0), {}, false, NoLink(),
          ClientState(|handed|, |handed| + 1, true, map[], NoFlight, false, 0, handed), false, 0, false)
  }

  lemma RestoredHost(old_: Event, kind: string, data: string)
    requires old_.s == 1
    ensures var w := Do(Do(Steady([old_], [old_]), HostStop(0, 0)), Emit(kind, data));
            && Safe(Steady([old_], [old_]))
            && w == Steady([Event(1, kind, data)], [old_]).(todo := {1}, stale := true)
  {
    hide LinkOk, OnFrame, Deliver, ReplayAll, ReleaseLive, EndRequest, EnterReady, AtPage;
    var w1 := Do(Steady([old_], [old_]), HostStop(0, 0));
    assert w1.box == Box([], 0) && w1.stale;
  }

  /** A socket that the host has opened and welcomed. */
  function Opened(w: World): World {
    var ss := Fresh(1).(phase := Ready, pending := [Welcome(w.box.Head())]);
    w.(up := true, link := NoLink().(ss := ss, attached := true, hello := w.box.Head()))
  }

  lemma OpensAt(w: World)
    requires w.box.Valid() && !w.up
    ensures Do(Do(w, Connect(1)), Attach) == Opened(w)
  {
    var d1 := w.(up := true, link := NoLink().(ss := Fresh(1).(phase := Ready), hello := w.box.Head()));
    assert Do(w, Connect(1)) == d1;
  }

  lemma GetsWelcome(w: World)
    requires w.box.Valid()
    ensures var d := Do(Do(Opened(w), Send), Receive);
            && d.cl == OnWelcome(w.cl, w.box.Head()).cl && d.box == w.box
            && d.stale == (w.stale && w.cl.lastSeq <= w.box.Head())
  {
    hide OnWelcome;
    var w1 := Opened(w);
    var w2 := w1.(link := w1.link.(wire := [Welcome(w.box.Head())], ss := w1.link.ss.(pending := [])));
    assert Do(w1, Send) == w2;
  }

  lemma GreetedAt(w: World)
    requires w.box.Valid() && !w.up
    ensures var d := Do(Do(Do(Do(w, Connect(1)), Attach), Send), Receive);
            && d.cl == OnWelcome(w.cl, w.box.Head()).cl && d.box == w.box
            && d.stale == (w.stale && w.cl.lastSeq <= w.box.Head())
  {
    hide OnWelcome, Do;
    OpensAt(w);
    GetsWelcome(w);
  }

  /** A host restored to a shorter log is noticed only if its position is still below the cursor
      at the next welcome. Here it has caught up by then: the client keeps its cursor, and what it
      handed over is not the host's log. */
  lemma RestoreGoesUnnoticed(old_: Event, kind: string, data: string)
    requires old_.s == 1 && Event(1, kind, data) != old_
    ensures var w2 := Do(Do(Steady([old_], [old_]), HostStop(0, 0)), Emit(kind, data));
            var w := Do(Do(Do(Do(w2, Connect(1)), Attach), Send), Receive);
            && Safe(Steady([old_], [old_]))
            && w.cl.handed == [old_] && w.cl.lastSeq == w.box.Head() == 1
            && w.stale && !InOrder(w)
  {
    hide Safe;
    RestoredHost(old_, kind, data);
    var w2 := Do(Do(Steady([old_], [old_]), HostStop(0, 0)), Emit(kind, data));
    GreetedAt(w2);
    hide Do;
    var w := Do(Do(Do(Do(w2, Connect(1)), Attach), Send), Receive);
    assert w.cl.handed[0] != w.box.At(1);
  }
}
