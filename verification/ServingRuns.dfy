/** Serving alone, in any order the host and the channel may take: where a run of it leads. */
module ServingRuns {
  import opened Outbox
  import opened SessionModel
  import opened HubModel
  import opened ClientModel
  import opened Replication
  import opened CatchUpFlow
  import opened CatchUpRounds

  lemma {:induction false} RunConcat(w: World, a: seq<Action>, b: seq<Action>)
    requires w.box.Valid()
    ensures Run(w, a + b) == Run(Run(w, a), b)
    decreases |b|
  {
    hide Do;
    if b == [] {
      assert a + b == a;
    } else {
      assert (a + b)[..|a + b| - 1] == a + b[..|b| - 1];
      RunConcat(w, a, b[..|b| - 1]);
    }
  }

  lemma {:induction false} RunOne(w: World, a: Action)
    requires w.box.Valid()
    ensures Run(w, [a]) == Do(w, a)
  {
    hide Do;
    assert [a][..0] == [];
  }

  lemma {:induction false} RunNext(w: World, actions: seq<Action>, a: Action)
    requires w.box.Valid()
    ensures Run(w, actions + [a]) == Do(Run(w, actions), a)
  {
    RunConcat(w, actions, [a]);
    RunOne(Run(w, actions), a);
  }

  lemma {:induction false} RunNone(w: World)
    requires w.box.Valid()
    ensures Run(w, []) == w
  {
  }

  // ---- what serving is --------------------------------------------------------------------

  /** A step of the request the host serves, or of the channel: nothing is emitted, fanned out,
      refused or cut. */
  predicate ServeStep(a: Action) {
    || a.BeginSync? || a.Hold? || a.ReadHead? || a.ReadPage? || a.Release? || a.End?
    || a.Send? || a.Receive?
  }

  ghost predicate Serves(actions: seq<Action>) {
    forall a :: a in actions ==> ServeStep(a)
  }

  /** Every step of the run does something. */
  ghost predicate Effective(w: World, actions: seq<Action>)
    requires w.box.Valid()
  {
    forall i :: 0 <= i < |actions| ==> Do(Run(w, actions[..i]), actions[i]) != Run(w, actions[..i])
  }

  /** Serving can go no further. */
  ghost predicate AtEnd(w: World)
    requires w.box.Valid()
  {
    forall a :: ServeStep(a) ==> Do(w, a) == w
  }

  function AsksOf(c: ClientState): seq<nat> {
    if c.flight.Flying? then [c.flight.cursor] else []
  }

  function Open(limit: nat, pending: seq<Frame>): SessionState {
    Fresh(limit).(phase := Ready, pending := pending)
  }

  /** A welcomed socket with nothing on its way but the request of the flight, if there is one. */
  predicate Resting(w: World) {
    && w.up && w.link.attached && w.link.greeted
    && w.link.work.Idle? && w.link.wire == [] && w.link.asks == AsksOf(w.cl)
    && w.link.ss == Open(w.link.ss.limit, [])
  }

  // ---- the client page by page ------------------------------------------------------------

  function PageStart(box: Box, k: nat): (start: nat)
    ensures start <= box.Head()
  {
    if k <= box.Head() then k else box.Head()
  }

  /** What the host answers to the cursor `k` while nothing is emitted. */
  ghost function Answer(box: Box, k: nat): (r: HubModel.Served)
    requires box.Valid()
    ensures r.reply.Page? || r.reply.Resync?
    ensures |r.page| <= SYNC_LIMIT && PageStart(box, k) + |r.page| <= box.Head()
  {
    ServedPage(box.Head(), box, k, SYNC_LIMIT);
    Serve(box.Head(), box, k, SYNC_LIMIT)
  }

  lemma {:induction false} AnswerPage(box: Box, k: nat)
    requires box.Valid()
    ensures Answer(box, k).page == box.log[PageStart(box, k)..PageStart(box, k) + |Answer(box, k).page|]
  {
    ServedPage(box.Head(), box, k, SYNC_LIMIT);
  }

  /** The client once the answer to its request, and the page behind it, have arrived. */
  ghost function AfterPage(c: ClientState, box: Box): ClientState
    requires box.Valid()
  {
    if c.flight.NoFlight? then c
    else
      var r, start := Answer(box, c.flight.cursor), PageStart(box, c.flight.cursor);
      Arrive(OnReply(c, r.reply).cl, box.log, start, start + |r.page|)
  }

  ghost function AfterPages(c: ClientState, box: Box, n: nat): ClientState
    requires box.Valid()
  {
    if n == 0 then c else AfterPage(AfterPages(c, box, n - 1), box)
  }

  lemma {:induction false} LandedStays(c: ClientState, box: Box, m: nat, n: nat)
    requires box.Valid() && m <= n && AfterPages(c, box, m).flight.NoFlight?
    ensures AfterPages(c, box, n) == AfterPages(c, box, m)
  {
    hide AfterPage;
    if m < n {
      LandedStays(c, box, m, n - 1);
      assert AfterPage(AfterPages(c, box, m), box) == AfterPages(c, box, m) by {
        LandedPage(AfterPages(c, box, m), box);
      }
    }
  }

  lemma {:induction false} LandedPage(c: ClientState, box: Box)
    requires box.Valid() && c.flight.NoFlight?
    ensures AfterPage(c, box) == c
  {
  }

  lemma {:induction false} PagesConcat(c: ClientState, box: Box, m: nat, n: nat)
    requires box.Valid()
    ensures AfterPages(AfterPages(c, box, m), box, n) == AfterPages(c, box, m + n)
  {
    hide AfterPage;
    if n > 0 {
      PagesConcat(c, box, m, n - 1);
    }
  }

  // ---- the frames that serving will bring -------------------------------------------------

  ghost function AnswerFrames(box: Box, k: nat): seq<Frame>
    requires box.Valid()
  {
    [Res(Answer(box, k).reply)] + Frames(Answer(box, k).page)
  }

  /** What the flight will still bring. */
  ghost function ToCome(c: ClientState, box: Box): seq<Frame>
    requires box.Valid()
  {
    if c.flight.Flying? then AnswerFrames(box, c.flight.cursor) else []
  }

  /** The answer to the outstanding request, as long as it is not queued. */
  ghost function Unsent(w: World): seq<Frame>
    requires w.box.Valid()
  {
    match w.link.work
    case Idle => if w.link.asks == [] then [] else AnswerFrames(w.box, w.link.asks[0])
    case Calling => []
    case Serving(k) => AnswerFrames(w.box, k)
    case Holding(k) => AnswerFrames(w.box, k)
    case Headed(k, _) => AnswerFrames(w.box, k)
    case Paged(_, reply, _) => [Res(reply)] + w.link.ss.deferred
    case Released(_, reply) => [Res(reply)] + w.link.ss.deferred
  }

  /** An open session that runs at most one `sync.since` and gets no live frame. */
  ghost predicate Orderly(l: Link, head: nat) {
    && !l.work.Calling? && |l.asks| <= 1 && (l.asks != [] ==> l.work.Idle?)
    && (l.work.Headed? ==> l.work.head == head)
    && l.ss == SessionState(Ready, l.ss.pending, l.ss.deferred, [], HoldWork(l.work), false, !l.work.Idle?,
                            false, l.ss.limit)
    && |l.ss.deferred| <= SYNC_LIMIT && (l.ss.deferred != [] ==> l.work.Paged? || l.work.Released?)
  }

  /** All that is on its way: the events after `a` up to `b`, then the answer to the flight. */
  ghost predicate Feeds(w: World, a: nat, b: nat) {
    && w.box.Valid() && a <= b <= w.box.Head() && b <= a + SYNC_LIMIT
    && w.up && w.link.greeted && Orderly(w.link, w.box.Head())
    && Queue(w.link) + Unsent(w) == Frames(w.box.log[a..b]) + ToCome(w.cl, w.box)
  }

  lemma {:induction false} RestingFeeds(w: World)
    requires w.box.Valid() && Resting(w)
    ensures Feeds(w, 0, 0)
  {
    assert Frames(w.box.log[0..0]) == [];
    assert Queue(w.link) == [];
  }

  // ---- how much is left -------------------------------------------------------------------

  /** Bounds the effective steps until the next answer is received. */
  function Weight(w: World): nat {
    var stage := match w.link.work
      case Serving(_) => 407
      case Holding(_) => 406
      case Headed(_, _) => 405
      case Paged(_, _, _) => 404
      case Released(_, _) => 403
      case _ => 0;
    (if w.cl.flight.Flying? then 0 else 408) + 408 * |w.link.asks| + stage
    + 2 * |w.link.ss.pending| + |w.link.wire|
  }

  /** A step that changed nothing but the session and the channel, and came nearer to the answer. */
  ghost predicate Onward(w: World, d: World, x: nat, y: nat) {
    && Feeds(d, x, y) && d == w.(link := d.link, blind := d.blind) && d.link.ss.limit == w.link.ss.limit
    && Weight(d) < Weight(w)
  }

  // ---- one step ---------------------------------------------------------------------------

  lemma {:induction false} SendQueue(l: Link, m: Link)
    requires l.ss.pending != []
    requires m.wire == l.wire + [l.ss.pending[0]] && m.ss.pending == l.ss.pending[1..]
    ensures Queue(m) == Queue(l)
  {
    assert l.ss.pending == [l.ss.pending[0]] + l.ss.pending[1..];
  }

  lemma {:induction false} EndQueue(l: Link, m: Link, fs: seq<Frame>)
    requires m.wire == l.wire && m.ss.pending == l.ss.pending + fs
    ensures Queue(m) + [] == Queue(l) + fs
  {
  }

  lemma {:induction false} ReceiveQueue(l: Link, m: Link)
    requires l.wire != [] && m.wire == l.wire[1..] && m.ss.pending == l.ss.pending
    ensures Queue(l) != [] && Queue(l)[0] == l.wire[0] && Queue(m) == Queue(l)[1..] && Queue(m) + [] == Queue(m)
  {
  }

  /** The steps that prepare the page take nothing away and add nothing. */
  lemma {:induction false} PrepareFeeds(w: World, a: Action, x: nat, y: nat)
    requires Feeds(w, x, y) && (a.BeginSync? || a.Hold? || a.ReadHead?)
    requires a.BeginSync? ==> w.link.work.Idle? && w.link.asks != []
    requires (a.Hold? ==> w.link.work.Serving?) && (a.ReadHead? ==> w.link.work.Holding?)
    ensures Onward(w, Do(w, a), x, y)
  {
    hide AnswerFrames, Frames, ToCome;
  }

  lemma {:induction false} PageDefers(ss: SessionState, page: seq<Event>)
    requires ss.phase == Ready && ss.inRequest && !ss.replaying && !ss.closing && ss.deferred == []
    ensures ReplayAll(ss, page) == ss.(deferred := Frames(page))
  {
    ReplayAllDefers(ss, page);
    hide ReplayAll, Frames;
    assert [] + Frames(page) == Frames(page);
  }

  lemma {:induction false} DoReadPage(w: World)
    requires w.box.Valid() && w.up && w.link.work.Headed? && Orderly(w.link, w.box.Head())
    ensures var r, d := Answer(w.box, w.link.work.cursor), Do(w, ReadPage);
            d == w.(blind := d.blind, link := w.link.(work := Paged(w.link.work.cursor, r.reply, r.high),
                                                      ss := w.link.ss.(deferred := Frames(r.page))))
  {
    assert AtPage(w) == Answer(w.box, w.link.work.cursor);
    PageDefers(w.link.ss, AtPage(w).page);
    hide Answer, AtPage, Frames, ReplayAll, Orderly, HoldWork;
  }

  lemma {:induction false} ReadFeeds(w: World, x: nat, y: nat)
    requires Feeds(w, x, y) && w.link.work.Headed?
    ensures Onward(w, Do(w, ReadPage), x, y)
  {
    DoReadPage(w);
    var d := Do(w, ReadPage);
    assert Unsent(d) == Unsent(w);
    hide Do, Answer, Frames, ToCome, Unsent;
  }

  lemma {:induction false} ReleaseFeeds(w: World, x: nat, y: nat)
    requires Feeds(w, x, y) && w.link.work.Paged?
    ensures Onward(w, Do(w, Release), x, y)
  {
    hide AnswerFrames, Frames, ToCome;
  }

  /** The whole answer is queued, or the socket is closed for the slow client. */
  lemma {:induction false} EndFeeds(w: World, x: nat, y: nat)
    requires Feeds(w, x, y) && w.link.work.Released?
    ensures var d := Do(w, End);
            && (w.link.ss.limit > 2 * SYNC_LIMIT ==> !d.link.ss.closing)
            && (!d.link.ss.closing ==> Onward(w, d, x, y))
  {
    hide AnswerFrames, Frames, ToCome, EnqueueAll, Queue, Received, Deliver, EnterReady, AtPage, ReplayAll;
    var l := w.link;
    var fs := [Res(l.work.reply)] + l.ss.deferred;
    EnqueueAllAppends(l.ss.(inRequest := false, deferred := []), fs);
    FeedsFew(w, x, y);
    var d := Do(w, End);
    if !d.link.ss.closing {
      EndQueue(l, d.link, fs);
    }
  }

  lemma {:induction false} FeedsFew(w: World, x: nat, y: nat)
    requires Feeds(w, x, y)
    ensures |w.link.ss.pending| + |Unsent(w)| <= 2 * SYNC_LIMIT + 1
  {
    assert |ToCome(w.cl, w.box)| <= SYNC_LIMIT + 1;
    hide Unsent, ToCome;
    assert |Queue(w.link) + Unsent(w)| == |Frames(w.box.log[x..y]) + ToCome(w.cl, w.box)|;
  }

  lemma {:induction false} SendFeeds(w: World, x: nat, y: nat)
    requires Feeds(w, x, y) && w.link.ss.pending != []
    ensures Onward(w, Do(w, Send), x, y)
  {
    hide AnswerFrames, Frames, ToCome, Queue;
    SendQueue(w.link, Do(w, Send).link);
  }

  lemma {:induction false} UnsentIsReply(w: World)
    requires w.box.Valid() && Orderly(w.link, w.box.Head())
    ensures if Unsent(w) == [] then w.link.work.Idle? && w.link.asks == [] else Unsent(w)[0].Res?
  {
  }

  /** Behind the frame that is received nothing but events are due, so no request is open. */
  lemma {:induction false} NoneOpen(w: World, x: nat, y: nat)
    requires Feeds(w, x, y) && w.link.wire != []
    requires w.cl.flight.NoFlight? || x == y
    ensures w.link.work.Idle? && w.link.asks == [] && Unsent(w) == []
  {
    UnsentIsReply(w);
    var q, u := Queue(w.link), Unsent(w);
    var s := Frames(w.box.log[x..y]) + ToCome(w.cl, w.box);
    assert forall i :: 0 < i < |s| ==> s[i].Evt?;
    hide Unsent, ToCome;
    assert u == s[|q|..];
  }

  lemma {:induction false} EventIsNext(w: World, x: nat, y: nat)
    requires Feeds(w, x, y) && w.link.wire != [] && x < y
    ensures w.link.wire[0] == Evt(w.box.log[x])
    ensures Queue(w.link)[1..] + Unsent(w) == Frames(w.box.log[x + 1..y]) + ToCome(w.cl, w.box)
  {
    hide Unsent, ToCome;
    var q := Queue(w.link);
    assert Frames(w.box.log[x..y]) == [Evt(w.box.log[x])] + Frames(w.box.log[x + 1..y]);
    assert q[0] == (q + Unsent(w))[0];
    assert q[1..] + Unsent(w) == (q + Unsent(w))[1..];
  }

  lemma {:induction false} ReceiveEvent(w: World, e: Event)
    requires w.box.Valid() && w.up && w.link.greeted && w.link.wire != [] && w.link.wire[0] == Evt(e)
    ensures var d := Do(w, Receive);
            && d == w.(cl := d.cl, link := d.link, gaveUp := d.gaveUp)
            && d.cl == AcceptEvent(w.cl, e).cl
            && d.link == w.link.(wire := w.link.wire[1..], asks := d.link.asks)
            && (if w.cl.flight.Flying? then d.cl.flight == w.cl.flight && d.link.asks == w.link.asks
                else w.link.asks == [] ==> d.link.asks == AsksOf(d.cl))
  {
    hide AcceptEvent;
    AcceptAsks(w.cl, e);
    assert forall k: nat :: [] + [k] == [k];
  }

  /** An event reaches the client. A flight it starts adds the answer behind all other frames. */
  lemma {:induction false} EventFeeds(w: World, x: nat, y: nat)
    requires Feeds(w, x, y) && w.link.wire != [] && x < y
    ensures var d := Do(w, Receive);
            && Feeds(d, x + 1, y)
            && d == w.(cl := d.cl, link := d.link, gaveUp := d.gaveUp)
            && d.link == w.link.(wire := w.link.wire[1..], asks := d.link.asks)
            && d.cl == AcceptEvent(w.cl, w.box.log[x]).cl
            && (if w.cl.flight.Flying? then d.cl.flight == w.cl.flight && d.link.asks == w.link.asks
                else |d.link.asks| == |AsksOf(d.cl)|)
  {
    hide AcceptEvent, AnswerFrames, Frames, Queue, Do;
    EventIsNext(w, x, y);
    ReceiveEvent(w, w.box.log[x]);
    var d, rest := Do(w, Receive), Frames(w.box.log[x + 1..y]);
    ReceiveQueue(w.link, d.link);
    if w.cl.flight.NoFlight? {
      NoneOpen(w, x, y);
      assert rest + [] == rest && Queue(w.link)[1..] + [] == Queue(w.link)[1..];
    }
  }

  lemma {:induction false} ReplyIsNext(w: World, x: nat)
    requires Feeds(w, x, x) && w.link.wire != []
    ensures w.cl.flight.Flying?
    ensures var r := Answer(w.box, w.cl.flight.cursor);
            w.link.wire[0] == Res(r.reply) && Queue(w.link)[1..] == Frames(r.page)
  {
    NoneOpen(w, x, x);
    hide Answer, Unsent, Frames;
    var q := Queue(w.link);
    assert Frames(w.box.log[x..x]) == [];
    assert q == q + Unsent(w) == ToCome(w.cl, w.box);
    assert q[0] == w.link.wire[0];
  }

  lemma {:induction false} AnswerSends(c: ClientState, reply: Reply)
    requires c.flight.Flying? && (reply.Page? || reply.Resync?)
    ensures var m := OnReply(c, reply); m.sent == if m.cl.flight.Flying? then Ask(m.cl.flight.cursor) else Silent
  {
  }

  lemma {:induction false} ReceiveReply(w: World, reply: Reply)
    requires w.box.Valid() && w.up && w.link.greeted && w.cl.flight.Flying? && (reply.Page? || reply.Resync?)
    requires w.link.asks == [] && w.link.wire != [] && w.link.wire[0] == Res(reply)
    ensures var d := Do(w, Receive);
            && d == w.(cl := d.cl, link := d.link, gaveUp := d.gaveUp, stale := d.stale)
            && d.stale == (w.stale && !reply.Resync?) && d.cl == OnReply(w.cl, reply).cl
            && d.link == w.link.(wire := w.link.wire[1..], asks := AsksOf(d.cl), told := d.link.told)
  {
    AnswerSends(w.cl, reply);
    hide OnReply;
    assert forall k: nat :: [] + [k] == [k];
  }

  /** The answer reaches the client, and with it begins the page. */
  lemma {:induction false} ReplyFeeds(w: World, x: nat)
    requires Feeds(w, x, x) && w.link.wire != []
    ensures w.cl.flight.Flying?
    ensures var d, k := Do(w, Receive), w.cl.flight.cursor;
            && Feeds(d, PageStart(w.box, k), PageStart(w.box, k) + |Answer(w.box, k).page|)
            && d == w.(cl := d.cl, link := d.link, gaveUp := d.gaveUp, stale := d.stale)
            && d.stale == (w.stale && !Answer(w.box, k).reply.Resync?)
            && d.cl == OnReply(w.cl, Answer(w.box, k).reply).cl
            && d.link == w.link.(wire := w.link.wire[1..], asks := AsksOf(d.cl), told := d.link.told)
  {
    hide Answer, AnswerFrames, Frames, OnReply, Do, Queue;
    NoneOpen(w, x, x);
    ReplyIsNext(w, x);
    ReceiveReply(w, Answer(w.box, w.cl.flight.cursor).reply);
    var d := Do(w, Receive);
    assert Unsent(d) == ToCome(d.cl, d.box);
    ReceiveQueue(w.link, d.link);
    AnswerPage(w.box, w.cl.flight.cursor);
  }

  /** A step of serving that receives an answer. */
  predicate Replies(w: World, a: Action) {
    a.Receive? && w.link.wire != [] && w.link.wire[0].Res?
  }

  lemma {:induction false} Disabled(w: World, a: Action)
    requires w.box.Valid() && w.up && !w.link.ss.closing && !w.link.work.Calling?
    requires a.BeginSync? ==> !w.link.work.Idle? || w.link.asks == []
    requires a.Hold? ==> !w.link.work.Serving?
    requires a.ReadHead? ==> !w.link.work.Holding?
    requires a.ReadPage? ==> !w.link.work.Headed?
    requires a.Release? ==> !w.link.work.Paged?
    requires a.End? ==> !w.link.work.Released?
    requires a.Send? ==> w.link.ss.pending == []
    requires a.Receive? ==> w.link.wire == []
    requires ServeStep(a)
    ensures Do(w, a) == w
  {
  }

  lemma {:induction false} QuietStep(w: World, a: Action, x: nat, y: nat)
    requires Feeds(w, x, y) && ServeStep(a) && !a.Receive? && !Do(w, a).link.ss.closing
    ensures Do(w, a) == w || Onward(w, Do(w, a), x, y)
  {
    FeedsIsOrderly(w, x, y);
    var work := w.link.work;
    hide Feeds, Do, Onward, Weight, Orderly;
    if a.BeginSync? && work.Idle? && w.link.asks != [] {
      PrepareFeeds(w, a, x, y);
    } else if (a.Hold? && work.Serving?) || (a.ReadHead? && work.Holding?) {
      PrepareFeeds(w, a, x, y);
    } else if a.ReadPage? && work.Headed? {
      ReadFeeds(w, x, y);
    } else if a.Release? && work.Paged? {
      ReleaseFeeds(w, x, y);
    } else if a.End? && work.Released? {
      EndFeeds(w, x, y);
    } else if a.Send? && w.link.ss.pending != [] {
      SendFeeds(w, x, y);
    } else {
      Disabled(w, a);
    }
  }

  lemma {:induction false} FeedsIsOrderly(w: World, x: nat, y: nat)
    requires Feeds(w, x, y)
    ensures w.box.Valid() && w.up && x <= y <= w.box.Head()
    ensures Orderly(w.link, w.box.Head()) && !w.link.ss.closing && !w.link.work.Calling?
  {
  }

  // ---- whole runs of it -------------------------------------------------------------------

  /** From `w`, serving has brought the client `d.cl`: once what is on its way has arrived, it is
      the client after `m` pages. */
  ghost predicate Played(w: World, d: World, m: nat, x: nat, y: nat) {
    && d.box == w.box && d.todo == w.todo && d.link.ss.limit == w.link.ss.limit && (d.stale ==> w.stale)
    && Feeds(d, x, y) && Arrive(d.cl, d.box.log, x, y) == AfterPages(w.cl, w.box, m)
  }

  lemma {:induction false} PlayedFeeds(w: World, d: World, m: nat, x: nat, y: nat)
    requires Played(w, d, m, x, y)
    ensures w.box.Valid() && d.box == w.box && x <= y <= d.box.Head() && Feeds(d, x, y)
    ensures d.up && Orderly(d.link, d.box.Head()) && !d.link.ss.closing && !d.link.work.Calling?
  {
  }

  lemma {:induction false} PlayedEvent(w: World, d: World, m: nat, x: nat, y: nat)
    requires Played(w, d, m, x, y) && d.link.wire != [] && x < y
    ensures Played(w, Do(d, Receive), m, x + 1, y) && Weight(Do(d, Receive)) < Weight(d)
  {
    hide AcceptEvent, AfterPages, Do, Arrive;
    EventFeeds(d, x, y);
    ArriveFrom(d.cl, d.box.log, x, y);
    hide Feeds;
  }

  lemma {:induction false} ArriveNothing(c: ClientState, log: seq<Event>, a: nat)
    requires a <= |log|
    ensures Arrive(c, log, a, a) == c
  {
  }

  lemma {:induction false} PlayedReply(w: World, d: World, m: nat, x: nat)
    requires Played(w, d, m, x, x) && d.link.wire != []
    ensures d.cl.flight.Flying? && AfterPages(w.cl, w.box, m).flight.Flying?
    ensures var start := PageStart(w.box, d.cl.flight.cursor);
            && Played(w, Do(d, Receive), m + 1, start, start + |Answer(w.box, d.cl.flight.cursor).page|)
            && Weight(Do(d, Receive)) < Weight(d) + 408
  {
    hide Do, Feeds, OnReply, Answer, Arrive;
    PlayedFeeds(w, d, m, x, x);
    ReplyFeeds(d, x);
    ArriveNothing(d.cl, d.box.log, x);
  }

  lemma {:induction false} PlayedQuiet(w: World, d: World, a: Action, m: nat, x: nat, y: nat)
    requires Played(w, d, m, x, y) && Onward(d, Do(d, a), x, y)
    ensures Played(w, Do(d, a), m, x, y) && Weight(Do(d, a)) < Weight(d)
  {
    hide Do, Feeds, AfterPages, Arrive, Weight;
  }

  /** One step of serving plays no more than one page on. */
  lemma {:induction false} PlayedStep(w: World, d: World, a: Action, m: nat, x: nat, y: nat)
      returns (m': nat, x': nat, y': nat)
    requires Played(w, d, m, x, y) && d.box.Valid() && ServeStep(a) && !Do(d, a).link.ss.closing
    ensures Played(w, Do(d, a), m', x', y') && m <= m' <= m + 1
    ensures m' > m ==> AfterPages(w.cl, w.box, m).flight.Flying?
    ensures Do(d, a) == d || Weight(Do(d, a)) < Weight(d) + 408 * (m' - m)
  {
    hide Do, Feeds, Weight, Answer, Arrive, AfterPages, Orderly, Onward, Played;
    m', x', y' := m, x, y;
    PlayedFeeds(w, d, m, x, y);
    if !a.Receive? {
      QuietStep(d, a, x, y);
      if Do(d, a) != d {
        PlayedQuiet(w, d, a, m, x, y);
      }
    } else if d.link.wire == [] {
      Disabled(d, a);
    } else if x < y {
      PlayedEvent(w, d, m, x, y);
      x' := x + 1;
    } else {
      PlayedReply(w, d, m, x);
      m', x' := m + 1, PageStart(w.box, d.cl.flight.cursor);
      y' := x' + |Answer(w.box, d.cl.flight.cursor).page|;
    }
  }

  lemma {:induction false} ClosedEnds(s: SessionState, reply: Reply)
    requires s.closing
    ensures EndRequest(s, reply).closing
  {
    EnqueueAllAppends(s.(inRequest := false, deferred := []), [Res(reply)] + s.deferred);
  }

  lemma {:induction false} ClosedStays(w: World, a: Action)
    requires w.box.Valid() && ServeStep(a) && w.link.ss.closing
    ensures Do(w, a).link.ss.closing
  {
    hide Do;
    if a.ReadPage? || a.Release? || a.End? {
      ClosedWorks(w, a);
    } else {
      ClosedMoves(w, a);
    }
  }

  lemma {:induction false} ClosedMoves(w: World, a: Action)
    requires w.box.Valid() && w.link.ss.closing
    requires a.BeginSync? || a.Hold? || a.ReadHead? || a.Send? || a.Receive?
    ensures Do(w, a).link.ss.closing
  {
    hide OnFrame;
  }

  lemma {:induction false} ClosedWorks(w: World, a: Action)
    requires w.box.Valid() && w.link.ss.closing && (a.ReadPage? || a.Release? || a.End?)
    ensures Do(w, a).link.ss.closing
  {
    hide AtPage, ReplayAll, DeliverAll, EndRequest, Surviving;
    var ss := w.link.ss;
    if a.ReadPage? && w.link.work.Headed? {
      ClosedReplays(ss, AtPage(w).page);
    } else if a.Release? && w.link.work.Paged? {
      ClosedDelivers(ss.(holdLive := false, held := []), Surviving(ss.held, w.link.work.high));
    } else if a.End? && w.link.work.Released? {
      ClosedEnds(ss, w.link.work.reply);
    } else if a.End? && w.link.work.Calling? {
      ClosedEnds(ss, Other);
    }
  }

  lemma {:induction false} RoomyStays(w: World, a: Action, x: nat, y: nat)
    requires Feeds(w, x, y) && ServeStep(a) && w.link.ss.limit > 2 * SYNC_LIMIT
    ensures !Do(w, a).link.ss.closing
  {
    hide Feeds, AtPage, ReplayAll, EndRequest, OnFrame, Deliver, EnterReady, Onward;
    FeedsIsOrderly(w, x, y);
    if a.End? && w.link.work.Released? {
      EndFeeds(w, x, y);
    } else if a.ReadPage? && w.link.work.Headed? {
      DoReadPage(w);
    }
  }

  /** However the steps of serving interleave: as long as the socket is not closed for a slow
      client, what the client got and will still get are the pages of its own requests, one after
      the other. If they land after `n` pages, `408 * (n + 1)` bounds the steps that do something. */
  lemma {:induction false} ServingPlays(w: World, actions: seq<Action>, n: nat) returns (m: nat, x: nat, y: nat)
    requires w.box.Valid() && Resting(w) && Serves(actions)
    ensures var d := Run(w, actions);
            && (w.link.ss.limit > 2 * SYNC_LIMIT ==> !d.link.ss.closing)
            && (!d.link.ss.closing ==>
                  && Played(w, d, m, x, y)
                  && (AfterPages(w.cl, w.box, n).flight.NoFlight? && Effective(w, actions) ==>
                        m <= n && |actions| + 408 * (n - m) + Weight(d) <= 408 * (n + 1)))
    decreases |actions|
  {
    m, x, y := 0, 0, 0;
    if actions == [] {
      RunNone(w);
      RestingPlayed(w);
      hide Resting, Feeds, Played, Effective;
    } else {
      var front, a := actions[..|actions| - 1], actions[|actions| - 1];
      m, x, y := ServingPlays(w, front, n);
      var d := Run(w, front);
      assert Run(w, actions) == Do(d, a);
      assert ServeStep(a);
      if Effective(w, actions) {
        EffectiveFront(w, actions);
      }
      hide Do, Run, Resting, Feeds, Effective, Weight, ServeStep;
      if d.link.ss.closing {
        ClosedStays(d, a);
      } else {
        assert Feeds(d, x, y);
        if w.link.ss.limit > 2 * SYNC_LIMIT {
          RoomyStays(d, a, x, y);
        }
        if !Do(d, a).link.ss.closing {
          var before := m;
          m, x, y := PlayedStep(w, d, a, m, x, y);
          if m > before && AfterPages(w.cl, w.box, n).flight.NoFlight? && n <= before {
            LandedStays(w.cl, w.box, n, before);
          }
        }
      }
    }
  }

  lemma {:induction false} RestingPlayed(w: World)
    requires w.box.Valid() && Resting(w)
    ensures Played(w, w, 0, 0, 0) && Weight(w) <= 408
  {
    RestingFeeds(w);
  }

  lemma {:induction false} EffectiveFront(w: World, actions: seq<Action>)
    requires w.box.Valid() && actions != [] && Effective(w, actions)
    ensures Effective(w, actions[..|actions| - 1])
    ensures Run(w, actions) != Run(w, actions[..|actions| - 1])
  {
    hide Do;
    var front := actions[..|actions| - 1];
    assert forall i :: 0 <= i < |front| ==> front[..i] == actions[..i] && front[i] == actions[i];
  }

  /** Where serving can go no further, the client has landed, after some number of pages. */
  lemma {:induction false} EndIsLanded(w: World, d: World, m: nat, x: nat, y: nat)
    requires Played(w, d, m, x, y) && d.box.Valid() && AtEnd(d)
    ensures d.cl.flight.NoFlight? && d.cl == AfterPages(w.cl, w.box, m)
  {
    assert Queue(d.link) == [] && Unsent(d) == [] by {
      NothingIsEnd(d, x, y);
    }
    assert |Frames(d.box.log[x..y]) + ToCome(d.cl, d.box)| == 0;
    hide AfterPages, Orderly, Unsent, AtEnd;
    assert x == y && ToCome(d.cl, d.box) == [];
  }

  lemma {:induction false} NothingIsEnd(d: World, x: nat, y: nat)
    requires Feeds(d, x, y) && AtEnd(d)
    ensures Queue(d.link) == [] && Unsent(d) == []
  {
    FeedsIsOrderly(d, x, y);
    SomethingGoesOn(d);
    UnsentIsReply(d);
    hide Do, Feeds, Orderly, Unsent;
    assert forall a :: ServeStep(a) ==> Do(d, a) == d;
  }

  /** A step that is enabled does something. */
  lemma {:induction false} SomethingGoesOn(d: World)
    requires d.box.Valid() && d.up && Orderly(d.link, d.box.Head())
    ensures d.link.wire != [] ==> Do(d, Receive) != d
    ensures d.link.ss.pending != [] ==> Do(d, Send) != d
    ensures d.link.asks != [] ==> Do(d, BeginSync) != d
    ensures !d.link.work.Idle? ==> Do(d, Hold) != d || Do(d, ReadHead) != d || Do(d, ReadPage) != d ||
                                   Do(d, Release) != d || Do(d, End) != d
  {
    hide Do;
    ChannelGoesOn(d);
    RequestGoesOn(d);
    PageGoesOn(d);
  }

  lemma {:induction false} ChannelGoesOn(d: World)
    requires d.box.Valid() && d.up && !d.link.ss.closing
    ensures d.link.wire != [] ==> |Do(d, Receive).link.wire| < |d.link.wire|
    ensures d.link.ss.pending != [] ==> |Do(d, Send).link.wire| > |d.link.wire|
  {
    hide OnFrame;
  }

  lemma {:induction false} RequestGoesOn(d: World)
    requires d.box.Valid() && d.up
    ensures d.link.work.Idle? && d.link.asks != [] ==> !Do(d, BeginSync).link.work.Idle?
    ensures d.link.work.Serving? ==> Do(d, Hold).link.work.Holding?
    ensures d.link.work.Holding? ==> Do(d, ReadHead).link.work.Headed?
  {
  }

  lemma {:induction false} PageGoesOn(d: World)
    requires d.box.Valid() && d.up
    ensures d.link.work.Headed? ==> Do(d, ReadPage).link.work.Paged?
    ensures d.link.work.Paged? ==> Do(d, Release).link.work.Released?
    ensures d.link.work.Released? ==> Do(d, End).link.work.Idle?
  {
    hide AtPage, ReplayAll, ReleaseLive, EndRequest;
  }
}
