/** The replication protocol as one state machine: outbox, hub, one session, one client. */
module Replication {
  import opened Outbox
  import opened SessionModel
  import opened HubModel
  import opened ClientModel

  /** How far the session is with the request it runs. A request other than `sync.since` holds
      nothing back. */
  datatype Work =
    | Idle
    | Calling
    | Serving(cursor: nat)
    | Holding(cursor: nat)
    | Headed(cursor: nat, head: nat)
    | Paged(cursor: nat, reply: Reply, high: nat)
    | Released(cursor: nat, reply: Reply)

  /** One socket. `hello` is the host position read when the session became ready; `asks` are
      `sync.since` cursors on their way to the host, `wire` frames on their way to the client.
      The last two fields only record history: `mark` is the host position that was read last for
      a page, `told` the `host_seq` of the last page that reached the client's catch-up. */
  datatype Link = Link(
    ss: SessionState,
    attached: bool,
    hello: nat,
    work: Work,
    asks: seq<nat>,
    wire: seq<Frame>,
    greeted: bool,
    mark: nat,
    told: nat)

  /** `todo` are events stored but not fanned out yet. The last three fields only record history:
      the host was cut back below a position the client holds, and no reset followed; the position
      up to which a read found an emptied store; the last flight ended with an error. */
  datatype World = World(
    box: Box,
    todo: set<nat>,
    up: bool,
    link: Link,
    cl: ClientState,
    stale: bool,
    blind: nat,
    gaveUp: bool)

  datatype Action =
    | Emit(kind: string, data: string)
    | Prune(upTo: nat)
    | Fanout(s: nat)
    | TickOut
    | HostStop(kept: nat, base: nat)
    | Connect(limit: nat)
    | Attach
    | BeginCall
    | BeginSync
    | Hold
    | ReadHead
    | ReadPage
    | FailRead
    | Release
    | End
    | Send
    | Receive
    | Disconnect

  function Start(box: Box, lastSeq: nat): World {
    World(box, {}, false, NoLink(), Started(lastSeq), lastSeq > box.Head(), 0, false)
  }

  function NoLink(): Link {
    Link(Fresh(0), false, 0, Idle, [], [], false, 0, 0)
  }

  predicate SyncWork(work: Work) {
    !work.Idle? && !work.Calling?
  }

  predicate HoldWork(work: Work) {
    work.Holding? || work.Headed? || work.Paged?
  }

  /** Whether a frame resets the cursor to a place that any log agrees with. */
  predicate Resets(c: ClientState, f: Frame) {
    || (f.Welcome? && f.hostSeq < c.lastSeq)
    || (f.Res? && f.reply.Resync? && c.flight.Flying?)
  }

  function AtPage(w: World): HubModel.Served
    requires w.link.work.Headed? && w.box.base <= |w.box.log|
  {
    Serve(w.link.work.head, w.box, w.link.work.cursor, SYNC_LIMIT)
  }

  /** A log cut back to `kept` entries still has every position the client holds. */
  predicate Reaches(kept: nat, c: ClientState) {
    c.lastSeq <= kept && forall k :: k in c.buffered ==> k <= kept
  }

  /** A disabled action changes nothing. A host that stops comes back with the first `kept` entries
      of its log; a restored store may still hold rows that were pruned since. */
  ghost function Do(w: World, a: Action): World
    requires w.box.Valid()
  {
    var l := w.link;
    match a
    case Emit(kind, data) =>
      w.(box := w.box.Append(kind, data), todo := w.todo + {w.box.Head() + 1})
    case Prune(upTo) =>
      w.(box := w.box.Prune(upTo))
    case Fanout(s) =>
      if 1 <= s <= w.box.Head() then
        w.(todo := w.todo - {s},
           link := if w.up && l.attached then l.(ss := Deliver(l.ss, Evt(w.box.At(s)))) else l)
      else w
    case TickOut =>
      if w.up && l.attached then w.(link := l.(ss := Deliver(l.ss, Tick))) else w
    case HostStop(kept, base) =>
      if base <= kept <= w.box.Head() && base <= w.box.base then
        w.(box := Box(w.box.log[..kept], base), todo := {}, up := false, cl := OnClose(w.cl), blind := 0,
           stale := w.stale || !Reaches(kept, w.cl))
      else w
    case Connect(limit) =>
      if w.up then w
      else w.(up := true, link := NoLink().(ss := Fresh(limit).(phase := Ready), hello := w.box.Head()))
    case Attach =>
      if w.up && !l.attached then
        w.(link := l.(attached := true, ss := EnterReady(l.ss, l.hello)))
      else w
    case BeginCall =>
      if w.up && l.greeted && l.work.Idle? then
        w.(link := l.(work := Calling, ss := BeginRequest(l.ss)))
      else w
    case BeginSync =>
      if w.up && l.work.Idle? && l.asks != [] then
        w.(link := l.(work := Serving(l.asks[0]), asks := l.asks[1..], ss := BeginRequest(l.ss)))
      else w
    case Hold =>
      if w.up && l.work.Serving? then
        w.(link := l.(work := Holding(l.work.cursor), ss := HoldLive(l.ss)))
      else w
    case ReadHead =>
      if w.up && l.work.Holding? then
        w.(link := l.(work := Headed(l.work.cursor, w.box.Head()), mark := w.box.Head()))
      else w
    case ReadPage =>
      if w.up && l.work.Headed? then
        var r := AtPage(w);
        var emptied := r.reply.Page? && r.page == [] && l.work.cursor <= l.work.head
                       && l.work.cursor < w.box.Head();
        w.(link := l.(work := Paged(l.work.cursor, r.reply, r.high), ss := ReplayAll(l.ss, r.page)),
           blind := if emptied then w.box.Head() else w.blind)
      else w
    case FailRead =>
      if w.up && l.work.Holding? then
        w.(link := l.(work := Paged(l.work.cursor, Failed, l.work.cursor)))
      else if w.up && l.work.Headed? then
        w.(link := l.(work := Paged(l.work.cursor, Failed, l.work.head)))
      else w
    case Release =>
      if w.up && l.work.Paged? then
        w.(link := l.(work := Released(l.work.cursor, l.work.reply), ss := ReleaseLive(l.ss, l.work.high)))
      else w
    case End =>
      if w.up && l.work.Released? then
        w.(link := l.(work := Idle, ss := EndRequest(l.ss, l.work.reply)))
      else if w.up && l.work.Calling? then
        w.(link := l.(work := Idle, ss := EndRequest(l.ss, Other)))
      else w
    case Send =>
      if w.up && !l.ss.closing && l.ss.pending != [] then
        w.(link := l.(wire := l.wire + [l.ss.pending[0]], ss := l.ss.(pending := l.ss.pending[1..])))
      else w
    case Receive =>
      if w.up && l.wire != [] then Received(w, l.wire[0]) else w
    case Disconnect =>
      if w.up then w.(up := false, cl := OnClose(w.cl)) else w
  }

  function Received(w: World, f: Frame): World
    requires w.link.wire != []
  {
    var l := w.link;
    var m := OnFrame(w.cl, f);
    w.(cl := m.cl,
       link := l.(wire := l.wire[1..],
                  asks := if m.sent.Ask? then l.asks + [m.sent.cursor] else l.asks,
                  greeted := l.greeted || f.Welcome?,
                  told := if f.Res? && f.reply.Page? && w.cl.flight.Flying? then f.reply.hostSeq else l.told),
       stale := w.stale && !Resets(w.cl, f),
       gaveUp := if f == Res(Failed) && w.cl.flight.Flying? then true
                 else w.gaveUp && !m.cl.flight.Flying?)
  }

  ghost function Run(w: World, actions: seq<Action>): World
    requires w.box.Valid()
    ensures Run(w, actions).box.Valid()
  {
    if actions == [] then w
    else
      var before := Run(w, actions[..|actions| - 1]);
      DoKeepsBox(before, actions[|actions| - 1]);
      Do(before, actions[|actions| - 1])
  }

  lemma DoKeepsBox(w: World, a: Action)
    requires w.box.Valid()
    ensures Do(w, a).box.Valid()
  {
    hide OnFrame, Deliver, AtPage, ReplayAll, ReleaseLive, EndRequest, EnterReady, Reaches;
  }

  // ---- safety -----------------------------------------------------------------------------

  /** A frame tells the truth about `log`. */
  predicate FrameOk(f: Frame, log: seq<Event>) {
    match f
    case Evt(e) => 1 <= e.s <= |log| && log[e.s - 1] == e
    case Welcome(hostSeq) => hostSeq <= |log|
    case Tick => true
    case Res(reply) => reply.Resync? ==> 1 <= reply.minSeq <= |log|
  }

  ghost predicate AllOk(fs: seq<Frame>, log: seq<Event>) {
    forall f :: f in fs ==> FrameOk(f, log)
  }

  ghost predicate NoWelcome(fs: seq<Frame>) {
    forall f :: f in fs ==> !f.Welcome?
  }

  ghost predicate Live(fs: seq<Frame>) {
    forall f :: f in fs ==> f.Evt? || f.Tick?
  }

  /** Everything queued for the client, in the order it will arrive. */
  function Queue(l: Link): seq<Frame> {
    l.wire + l.ss.pending
  }

  ghost predicate SessionOk(ss: SessionState, log: seq<Event>) {
    && AllOk(ss.pending, log) && AllOk(ss.deferred, log) && AllOk(ss.held, log)
    && Live(ss.deferred) && Live(ss.held)
    && ss.phase == Ready && !ss.replaying
  }

  ghost predicate WorkSafe(work: Work, log: seq<Event>) {
    && (work.Headed? ==> work.head <= |log|)
    && (work.Paged? ==> FrameOk(Res(work.reply), log) && !work.reply.Other?)
    && (work.Released? ==> FrameOk(Res(work.reply), log) && !work.reply.Other?)
  }

  /** The welcome is the first frame of a socket, the only one of its kind, and no request is
      answered before it. */
  ghost predicate GreetingOk(l: Link) {
    if l.greeted then l.attached && NoWelcome(Queue(l))
    else
      && (!l.attached ==> Queue(l) == [] && !l.ss.closing)
      && (l.attached ==>
            if Queue(l) == [] then l.ss.closing
            else Queue(l)[0].Welcome? && Live(Queue(l)[1..]))
      && l.asks == [] && l.work.Idle?
  }

  /** What a running request means for the session's flags. */
  ghost predicate FlagsOk(l: Link) {
    && (l.ss.inRequest <==> !l.work.Idle?)
    && (l.ss.holdLive <==> HoldWork(l.work))
    && (!l.ss.inRequest ==> l.ss.deferred == [])
    && (!l.ss.holdLive ==> l.ss.held == [])
  }

  ghost predicate LinkOk(l: Link, log: seq<Event>) {
    && SessionOk(l.ss, log)
    && AllOk(l.wire, log)
    && l.hello <= |log| && l.mark <= |log|
    && WorkSafe(l.work, log)
    && GreetingOk(l)
    && (!l.ss.closing ==> FlagsOk(l))
  }

  ghost predicate Safe(w: World) {
    && w.box.Valid()
    && w.blind <= w.box.base
    && (w.up ==> LinkOk(w.link, w.box.log))
    && (!w.up ==> w.cl.flight.NoFlight?)
    && (w.up && !w.link.greeted ==> w.cl.flight.NoFlight?)
    && (w.up && w.link.greeted ==> w.cl.welcomed)
    && (!w.cl.welcomed ==> w.cl.buffered == map[])
    && (!w.stale ==> Agrees(w.cl, w.box.log))
  }

  lemma StartSafe(box: Box, lastSeq: nat)
    requires box.Valid()
    ensures Safe(Start(box, lastSeq))
  {
  }

  lemma AllOkGrows(fs: seq<Frame>, log: seq<Event>, more: seq<Event>)
    requires AllOk(fs, log) && log <= more
    ensures AllOk(fs, more)
  {
  }

  lemma AgreesGrows(c: ClientState, log: seq<Event>, more: seq<Event>)
    requires Agrees(c, log) && log <= more && Numbered(more)
    ensures Agrees(c, more)
  {
    assert log[c.from..c.lastSeq] == more[c.from..c.lastSeq];
  }
}
