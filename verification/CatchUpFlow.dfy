/** What is still owed to a connected client, and where it is. */
module CatchUpFlow {
  import opened Outbox
  import opened SessionModel
  import opened HubModel
  import opened ClientModel
  import opened Replication

  /** The part of a world that decides what the client still gets: `q` is all that is queued for
      it, `d` and `h` what the running request keeps back, `todo` the events above the position of
      the last page that are not fanned out yet. */
  datatype Flow = Flow(
    log: seq<Event>,
    todo: set<nat>,
    blind: nat,
    q: seq<Frame>,
    d: seq<Frame>,
    h: seq<Frame>,
    work: Work,
    asks: seq<nat>,
    cl: ClientState,
    gaveUp: bool)

  function Above(todo: set<nat>, mark: nat): set<nat> {
    set s | s in todo && s > mark
  }

  function FlowOf(w: World): Flow {
    Flow(w.box.log, Above(w.todo, w.link.mark), w.blind, Queue(w.link), w.link.ss.deferred, w.link.ss.held,
         w.link.work, w.link.asks, w.cl, w.gaveUp)
  }

  predicate SyncRes(f: Frame) {
    f.Res? && !f.reply.Other?
  }

  ghost predicate NoReply(q: seq<Frame>) {
    forall f :: f in q ==> !SyncRes(f)
  }

  ghost predicate OneReplyAt(q: seq<Frame>, i: nat) {
    i < |q| && SyncRes(q[i]) && NoReply(q[..i]) && NoReply(q[i + 1..])
  }

  /** A flight has exactly one outstanding request: on its way, being served, or answered. */
  ghost predicate Place(f: Flow) {
    && (f.cl.flight.NoFlight? ==> f.asks == [] && !SyncWork(f.work) && NoReply(f.q))
    && (f.cl.flight.Flying? ==>
          if f.asks != [] then f.asks == [f.cl.flight.cursor] && !SyncWork(f.work) && NoReply(f.q)
          else if SyncWork(f.work) then f.work.cursor == f.cl.flight.cursor && NoReply(f.q)
          else exists i :: OneReplyAt(f.q, i))
    && (f.work.Idle? ==> f.d == [])
    && (!HoldWork(f.work) ==> f.h == [])
    && Live(f.d) && Live(f.h)
  }

  function At(log: seq<Event>, s: nat): Frame
    requires 1 <= s <= |log|
  {
    Evt(log[s - 1])
  }

  /** Event `s` will be fanned out, is in `fs`, or was pruned before a read found nothing left. */
  predicate Due(f: Flow, fs: seq<Frame>, s: nat)
    requires 1 <= s <= |f.log|
  {
    s in f.todo || s <= f.blind || At(f.log, s) in fs
  }

  ghost predicate DueAfter(f: Flow, fs: seq<Frame>, from: nat) {
    forall s :: from < s <= |f.log| ==> Due(f, fs, s)
  }

  /** The client will reach `c`, or will ask once more before this flight lands. */
  ghost predicate Ahead(f: Flow, q: seq<Frame>, c: nat) {
    c <= |f.log| && (f.cl.again || c <= f.cl.lastSeq || At(f.log, c) in q)
  }

  /** Nothing the client knows of lies beyond a blind read that could end the flight. */
  ghost predicate BlindOk(f: Flow, q: seq<Frame>, c: nat) {
    || f.blind <= c
    || ((forall k :: k in f.cl.buffered ==> k <= f.blind) && (forall x :: x in q && x.Evt? ==> x.e.s <= f.blind))
  }

  /** What a reply to cursor `c` promises about the frames behind it. */
  ghost predicate ReplyOk(f: Flow, c: nat, reply: Reply, ahead: seq<Frame>, behind: seq<Frame>) {
    match reply
    case Page(_, nextSeq, more) =>
      if more then c < nextSeq <= |f.log| && At(f.log, nextSeq) in behind
      else DueAfter(f, behind, c) && BlindOk(f, ahead, c)
    case Resync(minSeq) => 1 <= minSeq <= |f.log|
    case Failed => true
    case Other => false
  }

  ghost predicate WorkOk(f: Flow, c: nat) {
    match f.work
    case Headed(_, head) => c <= head <= |f.log|
    case Paged(_, reply, high) =>
      && high <= |f.log|
      && ReplyOk(f, c, reply, f.q, f.d + Surviving(f.h, high))
      && (reply.Page? && !reply.more ==>
            forall s :: c < s <= high && s <= |f.log| ==> s <= f.blind || At(f.log, s) in f.d)
    case Released(_, reply) => ReplyOk(f, c, reply, f.q, f.d)
    case _ => true
  }

  ghost predicate AnsweredOk(f: Flow, c: nat, i: nat)
    requires i < |f.q| && f.q[i].Res?
  {
    Ahead(f, f.q[..i], c) && ReplyOk(f, c, f.q[i].reply, f.q[..i], f.q[i + 1..] + f.d)
  }

  ghost predicate InAir(f: Flow, c: nat) {
    if f.asks != [] then Ahead(f, f.q + f.d, c)
    else if SyncWork(f.work) then Ahead(f, f.q, c) && WorkOk(f, c)
    else exists i :: OneReplyAt(f.q, i) && AnsweredOk(f, c, i)
  }

  /** Without a flight, everything above the cursor is kept, queued, or still to be fanned out. */
  ghost predicate Settled(f: Flow) {
    && (forall s :: f.cl.lastSeq < s <= |f.log| ==> s in f.cl.buffered || Due(f, f.q + f.d, s))
    && (f.cl.lastSeq < f.blind ==> forall k :: k in f.cl.buffered ==> k <= f.blind)
  }

  ghost predicate Complete(f: Flow) {
    && Agrees(f.cl, f.log)
    && f.blind <= |f.log|
    && AllOk(f.q, f.log) && AllOk(f.d, f.log) && AllOk(f.h, f.log)
    && (if f.cl.flight.NoFlight? then f.gaveUp || Settled(f) else InAir(f, f.cl.flight.cursor))
  }

  // ---- the log grows, frames are queued ---------------------------------------------------

  /** Whatever `f` owed through `b`, and every event it did not have, `g` owes through `b'`. */
  ghost predicate Covers(f: Flow, b: seq<Frame>, g: Flow, b': seq<Frame>) {
    && f.log <= g.log
    && (forall x :: x in b ==> x in b')
    && (forall s :: 1 <= s <= |g.log| && (s <= |f.log| ==> Due(f, b, s)) ==> Due(g, b', s))
  }

  lemma ReplyMoves(f: Flow, g: Flow, c: nat, r: Reply, a: seq<Frame>, a': seq<Frame>,
                   b: seq<Frame>, b': seq<Frame>)
    requires g.cl == f.cl && g.blind == f.blind && Covers(f, b, g, b')
    requires forall x :: x in a' ==> x in a
    requires ReplyOk(f, c, r, a, b)
    ensures ReplyOk(g, c, r, a', b')
  {
    if r.Page? && !r.more {
      forall s | c < s <= |g.log|
        ensures Due(g, b', s)
      {
        assert s <= |f.log| ==> Due(f, b, s);
      }
    } else if r.Page? {
      assert At(g.log, r.nextSeq) == At(f.log, r.nextSeq);
    }
  }

  lemma AheadMoves(f: Flow, g: Flow, q: seq<Frame>, q': seq<Frame>, c: nat)
    requires f.log <= g.log && g.cl == f.cl && (forall x :: x in q ==> x in q')
    requires Ahead(f, q, c)
    ensures Ahead(g, q', c)
  {
  }

  lemma SettledMoves(f: Flow, g: Flow)
    requires g.cl == f.cl && g.blind == f.blind && Covers(f, f.q + f.d, g, g.q + g.d)
    requires Settled(f)
    ensures Settled(g)
  {
    forall s | g.cl.lastSeq < s <= |g.log|
      ensures s in g.cl.buffered || Due(g, g.q + g.d, s)
    {
      if s !in g.cl.buffered {
        assert s <= |f.log| ==> Due(f, f.q + f.d, s);
      }
    }
  }

  /** A new event owes itself: it is still to be fanned out. */
  lemma EmitCovers(f: Flow, e: Event, b: seq<Frame>)
    ensures var g := f.(log := f.log + [e], todo := f.todo + {|f.log| + 1}); Covers(f, b, g, b)
  {
    var g := f.(log := f.log + [e], todo := f.todo + {|f.log| + 1});
    assert forall s :: 1 <= s <= |f.log| ==> At(g.log, s) == At(f.log, s);
  }

  lemma EmitKeeps(f: Flow, e: Event)
    requires Place(f) && Complete(f) && e.s == |f.log| + 1
    ensures var g := f.(log := f.log + [e], todo := f.todo + {|f.log| + 1}); Place(g) && Complete(g)
  {
    hide Agrees, FrameOk, Surviving, Covers, Due, ReplyOk, Ahead, Settled;
    var g := f.(log := f.log + [e], todo := f.todo + {|f.log| + 1});
    AgreesGrowsBy(f.cl, f.log, e);
    assert forall fs: seq<Frame> :: AllOk(fs, f.log) ==> AllOk(fs, g.log) by {
      FramesGrow(f.log, e);
    }
    if f.cl.flight.NoFlight? {
      if !f.gaveUp {
        EmitCovers(f, e, f.q + f.d);
        SettledMoves(f, g);
      }
    } else {
      EmitInAir(f, e);
    }
  }

  lemma AgreesGrowsBy(c: ClientState, log: seq<Event>, e: Event)
    requires Agrees(c, log) && e.s == |log| + 1
    ensures Agrees(c, log + [e])
  {
    assert log[c.from..c.lastSeq] == (log + [e])[c.from..c.lastSeq];
  }

  lemma FramesGrow(log: seq<Event>, e: Event)
    ensures forall fs: seq<Frame> :: AllOk(fs, log) ==> AllOk(fs, log + [e])
  {
  }

  lemma EmitInAir(f: Flow, e: Event)
    requires f.cl.flight.Flying? && InAir(f, f.cl.flight.cursor)
    ensures InAir(f.(log := f.log + [e], todo := f.todo + {|f.log| + 1}), f.cl.flight.cursor)
  {
    hide Surviving, Covers, Due, ReplyOk, Ahead, Settled;
    var g := f.(log := f.log + [e], todo := f.todo + {|f.log| + 1});
    var c := f.cl.flight.cursor;
    if f.asks != [] {
      AheadMoves(f, g, f.q + f.d, f.q + f.d, c);
    } else if SyncWork(f.work) {
      AheadMoves(f, g, f.q, f.q, c);
      EmitWork(f, e, c);
    } else {
      var i: nat :| OneReplyAt(f.q, i) && AnsweredOk(f, c, i);
      var ahead, behind := f.q[..i], f.q[i + 1..] + f.d;
      AheadMoves(f, g, ahead, ahead, c);
      EmitCovers(f, e, behind);
      ReplyMoves(f, g, c, f.q[i].reply, ahead, ahead, behind, behind);
      assert AnsweredOk(g, c, i);
    }
  }

  lemma EmitWork(f: Flow, e: Event, c: nat)
    requires WorkOk(f, c)
    ensures WorkOk(f.(log := f.log + [e], todo := f.todo + {|f.log| + 1}), c)
  {
    hide Surviving, Covers, Due, ReplyOk;
    var g := f.(log := f.log + [e], todo := f.todo + {|f.log| + 1});
    match f.work
    case Paged(_, reply, high) =>
      var behind := f.d + Surviving(f.h, high);
      EmitCovers(f, e, behind);
      ReplyMoves(f, g, c, reply, f.q, f.q, behind, behind);
      assert forall s :: 1 <= s <= high ==> At(g.log, s) == At(f.log, s);
    case Released(_, reply) =>
      EmitCovers(f, e, f.d);
      ReplyMoves(f, g, c, reply, f.q, f.q, f.d, f.d);
    case _ =>
  }

  // ---- a live frame reaches the session ---------------------------------------------------

  /** `x` is fanned out: an event that leaves `todo`, or a tick. */
  ghost predicate Fanned(f: Flow, x: Frame, todo: set<nat>) {
    || (x == Tick && todo == f.todo)
    || (exists s :: 1 <= s <= |f.log| && x == At(f.log, s) && todo == f.todo - {s})
  }

  lemma FannedCovers(f: Flow, g: Flow, x: Frame, b: seq<Frame>, b': seq<Frame>)
    requires Fanned(f, x, g.todo) && g.log == f.log && g.blind == f.blind
    requires x in b' && forall y :: y in b ==> y in b'
    ensures Covers(f, b, g, b')
  {
  }

  /** With no request running the frame goes straight to the queue. */
  lemma QueueKeeps(f: Flow, x: Frame, todo: set<nat>)
    requires Place(f) && f.work.Idle? && Fanned(f, x, todo)
    ensures var g := f.(q := f.q + [x], todo := todo);
            Place(g) && (Complete(f) ==> Complete(g))
  {
    hide Covers, Due, ReplyOk, Ahead, Settled;
    var g := f.(q := f.q + [x], todo := todo);
    if Complete(f) {
      FannedOk(f, x, todo);
    }
    hide Agrees;
    assert !SyncRes(x);
    assert f.d == [] && g.q + g.d == g.q && f.q + f.d == f.q;
    if f.cl.flight.Flying? && f.asks == [] {
      var i: nat :| OneReplyAt(f.q, i) && (Complete(f) ==> AnsweredOk(f, f.cl.flight.cursor, i));
      QueueBehindReply(f, g, x, i);
    } else if Complete(f) && f.cl.flight.Flying? {
      AheadMoves(f, g, f.q + f.d, g.q + g.d, f.cl.flight.cursor);
    } else if Complete(f) && !f.gaveUp {
      FannedCovers(f, g, x, f.q + f.d, g.q + g.d);
      SettledMoves(f, g);
    }
  }

  lemma FannedOk(f: Flow, x: Frame, todo: set<nat>)
    requires Fanned(f, x, todo) && Numbered(f.log)
    ensures FrameOk(x, f.log)
  {
  }

  lemma QueueBehindReply(f: Flow, g: Flow, x: Frame, i: nat)
    requires f.cl.flight.Flying? && Fanned(f, x, g.todo) && OneReplyAt(f.q, i)
    requires g == f.(q := f.q + [x], todo := g.todo)
    ensures OneReplyAt(g.q, i)
    ensures AnsweredOk(f, f.cl.flight.cursor, i) ==> AnsweredOk(g, f.cl.flight.cursor, i)
  {
    hide Covers, Due, ReplyOk, Ahead;
    assert g.q[..i] == f.q[..i] && g.q[i + 1..] == f.q[i + 1..] + [x];
    if AnsweredOk(f, f.cl.flight.cursor, i) {
      var b, b' := f.q[i + 1..] + f.d, g.q[i + 1..] + g.d;
      FannedCovers(f, g, x, b, b');
      AheadMoves(f, g, f.q[..i], f.q[..i], f.cl.flight.cursor);
      ReplyMoves(f, g, f.cl.flight.cursor, f.q[i].reply, f.q[..i], f.q[..i], b, b');
    }
  }

  /** Behind a running request that holds nothing, the frame waits for its response. */
  lemma DeferKeeps(f: Flow, x: Frame, todo: set<nat>)
    requires Place(f) && !f.work.Idle? && !HoldWork(f.work) && Fanned(f, x, todo)
    ensures var g := f.(d := f.d + [x], todo := todo);
            Place(g) && (Complete(f) ==> Complete(g))
  {
    hide Covers, Due, ReplyOk, Ahead, Settled;
    var g := f.(d := f.d + [x], todo := todo);
    if Complete(f) {
      FannedOk(f, x, todo);
    }
    hide Agrees;
    if Complete(f) {
      if f.cl.flight.NoFlight? {
        if !f.gaveUp {
          FannedCovers(f, g, x, f.q + f.d, g.q + g.d);
          SettledMoves(f, g);
        }
      } else if f.asks != [] {
        AheadMoves(f, g, f.q + f.d, g.q + g.d, f.cl.flight.cursor);
      } else if SyncWork(f.work) {
        AheadMoves(f, g, f.q, f.q, f.cl.flight.cursor);
        if f.work.Released? {
          FannedCovers(f, g, x, f.d, g.d);
          ReplyMoves(f, g, f.cl.flight.cursor, f.work.reply, f.q, f.q, f.d, g.d);
        }
      } else {
        DeferBehindReply(f, g, x);
      }
    }
  }

  lemma DeferBehindReply(f: Flow, g: Flow, x: Frame)
    requires f.cl.flight.Flying? && Fanned(f, x, g.todo) && g == f.(d := f.d + [x], todo := g.todo)
    requires exists i: nat :: OneReplyAt(f.q, i) && AnsweredOk(f, f.cl.flight.cursor, i)
    ensures exists i: nat :: OneReplyAt(g.q, i) && AnsweredOk(g, f.cl.flight.cursor, i)
  {
    hide Covers, Due, ReplyOk, Ahead;
    var c := f.cl.flight.cursor;
    var i: nat :| OneReplyAt(f.q, i) && AnsweredOk(f, c, i);
    var b, b' := f.q[i + 1..] + f.d, g.q[i + 1..] + g.d;
    FannedCovers(f, g, x, b, b');
    AheadMoves(f, g, f.q[..i], f.q[..i], c);
    ReplyMoves(f, g, c, f.q[i].reply, f.q[..i], f.q[..i], b, b');
    assert AnsweredOk(g, c, i);
  }

  /** While live frames are held, the frame is kept aside; the release will drop it only if the
      page that was read already carries it. */
  lemma HoldKeeps(f: Flow, x: Frame, todo: set<nat>)
    requires Place(f) && HoldWork(f.work) && Fanned(f, x, todo)
    ensures var g := f.(h := f.h + [x], todo := todo);
            Place(g) && (Complete(f) ==> Complete(g))
  {
    var g := f.(h := f.h + [x], todo := todo);
    if Complete(f) {
      FannedOk(f, x, todo);
      hide Agrees, Covers, Due, ReplyOk, Ahead, Settled, Surviving;
      AheadMoves(f, g, f.q, f.q, f.cl.flight.cursor);
      if f.work.Paged? {
        HoldBehindPage(f, g, x);
      }
    }
  }

  lemma HoldBehindPage(f: Flow, g: Flow, x: Frame)
    requires f.work.Paged? && f.cl.flight.Flying? && Fanned(f, x, g.todo)
    requires g == f.(h := f.h + [x], todo := g.todo) && Numbered(f.log)
    requires WorkOk(f, f.cl.flight.cursor)
    ensures WorkOk(g, f.cl.flight.cursor)
  {
    hide Surviving, Due, Covers, Fanned, Survives;
    var c, reply, high := f.cl.flight.cursor, f.work.reply, f.work.high;
    var b, b' := f.d + Surviving(f.h, high), g.d + Surviving(g.h, high);
    SurvivingAppend(f.h, x, high);
    if Survives(x, high) {
      assert x in b' && forall y :: y in b ==> y in b';
      FannedCovers(f, g, x, b, b');
      ReplyMoves(f, g, c, reply, f.q, f.q, b, b');
    } else if reply.Page? && !reply.more {
      forall s | c < s <= |g.log|
        ensures Due(g, b, s)
      {
        assert Due(f, b, s);
        DroppedIsPaged(f, g, x, s);
      }
    }
  }

  lemma SurvivingAppend(h: seq<Frame>, x: Frame, high: nat)
    ensures Surviving(h + [x], high) == if Survives(x, high) then Surviving(h, high) + [x] else Surviving(h, high)
  {
    assert (h + [x])[..|h|] == h;
  }

  /** An event that the release will drop is in the page, or was pruned. */
  lemma DroppedIsPaged(f: Flow, g: Flow, x: Frame, s: nat)
    requires f.work.Paged? && f.cl.flight.Flying? && Fanned(f, x, g.todo) && !Survives(x, f.work.high)
    requires g == f.(h := f.h + [x], todo := g.todo) && Numbered(f.log) && WorkOk(f, f.cl.flight.cursor)
    requires f.work.reply.Page? && !f.work.reply.more && f.cl.flight.cursor < s <= |f.log|
    requires Due(f, f.d + Surviving(f.h, f.work.high), s)
    ensures Due(g, f.d + Surviving(f.h, f.work.high), s)
  {
    hide Surviving, ReplyOk;
  }

  // ---- the host serves a request ----------------------------------------------------------

  lemma CallKeeps(f: Flow)
    requires Place(f) && f.work.Idle?
    ensures var g := f.(work := Calling); Place(g) && (Complete(f) ==> Complete(g))
  {
    hide Agrees, FrameOk, Ahead, ReplyOk;
    var g := f.(work := Calling);
    if Complete(f) && f.cl.flight.Flying? {
      var c := f.cl.flight.cursor;
      if f.asks == [] {
        var i: nat :| OneReplyAt(f.q, i) && AnsweredOk(f, c, i);
        AheadIsLocal(f, g, f.q[..i], c);
        ReplyIsLocal(f, g, c, f.q[i].reply, f.q[..i], f.q[i + 1..] + f.d);
        assert AnsweredOk(g, c, i);
      } else {
        AheadIsLocal(f, g, f.q + f.d, c);
      }
    }
  }

  lemma BeginKeeps(f: Flow)
    requires Place(f) && f.work.Idle? && f.asks != []
    ensures var g := f.(work := Serving(f.asks[0]), asks := f.asks[1..]);
            Place(g) && (Complete(f) ==> Complete(g))
  {
    hide Agrees, AllOk, Due, ReplyOk;
    assert f.q + f.d == f.q;
  }

  lemma HoldBegins(f: Flow)
    requires Place(f) && f.work.Serving?
    ensures var g := f.(work := Holding(f.work.cursor)); Place(g) && (Complete(f) ==> Complete(g))
  {
    hide Agrees, AllOk, Due, ReplyOk;
  }

  /** While the position is read, nothing but the flight's own request accounts for the events
      that are not fanned out yet. */
  lemma HeadKeeps(f: Flow, todo: set<nat>)
    requires Place(f) && f.work.Holding?
    ensures var g := f.(work := Headed(f.work.cursor, |f.log|), todo := todo);
            Place(g) && (Complete(f) ==> Complete(g))
  {
    hide Agrees, AllOk, Due, ReplyOk;
  }

  lemma FailKeeps(f: Flow)
    requires Place(f) && (f.work.Holding? || f.work.Headed?)
    ensures var g := f.(work := Paged(f.work.cursor, Failed, if f.work.Holding? then f.work.cursor else f.work.head));
            Place(g) && (Complete(f) ==> Complete(g))
  {
    hide Agrees, AllOk, Due, Surviving;
  }

  /** A consecutive page has every event up to its end. */
  lemma PageHas(log: seq<Event>, c: nat, page: seq<Event>)
    requires c + |page| <= |log| && forall i :: 0 <= i < |page| ==> page[i] == log[c + i]
    ensures forall s :: c < s <= c + |page| ==> At(log, s) in Frames(page)
  {
    forall s | c < s <= c + |page|
      ensures At(log, s) in Frames(page)
    {
      assert Frames(page)[s - c - 1] == At(log, s);
    }
  }

  /** The page covers everything above the cursor, or the store had nothing left to read. */
  lemma PageCovers(f: Flow, box: Box)
    requires box.Valid() && box.log == f.log && f.blind <= box.base
    requires f.work.Headed? && f.work.cursor <= f.work.head <= |f.log|
    requires Stocked(f.cl.buffered, f.cl.nextSeq, f.log) && AllOk(f.q, f.log)
    ensures var c := f.work.cursor;
            var r := Serve(f.work.head, box, c, SYNC_LIMIT);
            var emptied := r.reply.Page? && r.page == [] && c < |f.log|;
            var g := f.(work := Paged(c, r.reply, r.high), d := f.d + Frames(r.page),
                        blind := if emptied then |f.log| else f.blind);
            WorkOk(g, c)
  {
    hide Serve, Surviving;
    var c := f.work.cursor;
    ServedPage(f.work.head, box, c, SYNC_LIMIT);
    var r := Serve(f.work.head, box, c, SYNC_LIMIT);
    var emptied := r.reply.Page? && r.page == [] && c < |f.log|;
    var g := f.(work := Paged(c, r.reply, r.high), d := f.d + Frames(r.page),
                blind := if emptied then |f.log| else f.blind);
    if r.reply.Page? {
      assert c + |r.page| <= |f.log|;
      PageHas(f.log, c, r.page);
      if !r.reply.more {
        assert DueAfter(g, g.d + Surviving(g.h, r.high), c);
        assert BlindOk(g, g.q, c);
      }
    }
  }

  lemma PageKeeps(f: Flow, box: Box)
    requires Place(f) && box.Valid() && box.log == f.log && f.blind <= box.base
    requires f.work.Headed?
    ensures var c := f.work.cursor;
            var r := Serve(f.work.head, box, c, SYNC_LIMIT);
            var emptied := r.reply.Page? && r.page == [] && c <= f.work.head && c < |f.log|;
            var g := f.(work := Paged(c, r.reply, r.high), d := f.d + Frames(r.page),
                        blind := if emptied then |f.log| else f.blind);
            Place(g) && (Complete(f) ==> Complete(g))
  {
    hide Serve, Surviving, Due, ReplyOk;
    var c := f.work.cursor;
    var r := Serve(f.work.head, box, c, SYNC_LIMIT);
    if Complete(f) {
      PageCovers(f, box);
      PageFramesOk(f, box);
    }
  }

  lemma PageFramesOk(f: Flow, box: Box)
    requires box.Valid() && box.log == f.log && f.work.Headed? && f.work.head <= |f.log|
    ensures AllOk(Frames(Serve(f.work.head, box, f.work.cursor, SYNC_LIMIT).page), f.log)
  {
    hide Serve;
    ServedPage(f.work.head, box, f.work.cursor, SYNC_LIMIT);
  }

  lemma ReleaseKeeps(f: Flow)
    requires Place(f) && f.work.Paged?
    ensures var g := f.(work := Released(f.work.cursor, f.work.reply), d := f.d + Surviving(f.h, f.work.high), h := []);
            Place(g) && (Complete(f) ==> Complete(g))
  {
    hide Agrees, FrameOk, Surviving, Due;
    forall x | x in Surviving(f.h, f.work.high)
      ensures x in f.h
    {
      SurvivingMembers(f.h, f.work.high, x);
    }
    hide Ahead;
    if Complete(f) {
      var g := f.(work := Released(f.work.cursor, f.work.reply), d := f.d + Surviving(f.h, f.work.high), h := []);
      assert forall fs, s :: 1 <= s <= |f.log| && Due(f, fs, s) ==> Due(g, fs, s) by {
        DueIgnoresWork(f, g);
      }
    }
  }

  lemma DueIgnoresWork(f: Flow, g: Flow)
    requires g.log == f.log && g.todo == f.todo && g.blind == f.blind
    ensures forall fs, s :: 1 <= s <= |f.log| && Due(f, fs, s) ==> Due(g, fs, s)
  {
  }

  lemma {:induction false} NoReplyIn(q: seq<Frame>, fs: seq<Frame>)
    requires NoReply(q) && Live(fs)
    ensures NoReply(q + fs)
  {
    assert forall x :: x in fs ==> !SyncRes(x);
  }

  /** The response joins the queue, with everything that waited for it right behind. */
  lemma EndKeeps(f: Flow)
    requires Place(f) && f.work.Released? && !f.work.reply.Other? && FrameOk(Res(f.work.reply), f.log)
    ensures var g := f.(work := Idle, q := f.q + ([Res(f.work.reply)] + f.d), d := []);
            Place(g) && (Complete(f) ==> Complete(g))
  {
    hide Agrees, FrameOk, Ahead;
    var x := Res(f.work.reply);
    var g := f.(work := Idle, q := f.q + ([x] + f.d), d := []);
    var i := |f.q|;
    assert g.q[..i] == f.q && g.q[i] == x && g.q[i + 1..] == f.d;
    assert OneReplyAt(g.q, i) by {
      NoReplyIn([], f.d);
      assert [] + f.d == f.d;
    }
    if Complete(f) {
      var c := f.cl.flight.cursor;
      AheadMoves(f, g, f.q, f.q, c);
      assert Covers(f, f.d, g, f.d + []);
      ReplyMoves(f, g, c, x.reply, f.q, f.q, f.d, g.q[i + 1..] + g.d);
      assert AnsweredOk(g, c, i);
    }
  }

  lemma EndCallKeeps(f: Flow)
    requires Place(f) && f.work.Calling?
    ensures var g := f.(work := Idle, q := f.q + ([Res(Other)] + f.d), d := []);
            Place(g) && (Complete(f) ==> Complete(g))
  {
    hide Agrees, Ahead, Settled, ReplyOk;
    var x := Res(Other);
    var g := f.(work := Idle, q := f.q + ([x] + f.d), d := []);
    assert NoReply([x] + f.d);
    assert Covers(f, f.q + f.d, g, g.q + g.d);
    hide FrameOk, Covers;
    if f.cl.flight.NoFlight? {
      if Complete(f) && !f.gaveUp {
        SettledMoves(f, g);
      }
    } else if f.asks != [] {
      if Complete(f) {
        AheadMoves(f, g, f.q + f.d, g.q + g.d, f.cl.flight.cursor);
      }
    } else {
      var i: nat :| OneReplyAt(f.q, i) && (Complete(f) ==> AnsweredOk(f, f.cl.flight.cursor, i));
      CallBehindReply(f, g, i);
    }
  }

  lemma CallBehindReply(f: Flow, g: Flow, i: nat)
    requires Place(f) && f.cl.flight.Flying? && OneReplyAt(f.q, i)
    requires g == f.(work := Idle, q := f.q + ([Res(Other)] + f.d), d := [])
    ensures OneReplyAt(g.q, i)
    ensures AnsweredOk(f, f.cl.flight.cursor, i) ==> AnsweredOk(g, f.cl.flight.cursor, i)
  {
    var x := Res(Other);
    assert g.q[..i] == f.q[..i] && g.q[i + 1..] == f.q[i + 1..] + ([x] + f.d);
    var b, b' := f.q[i + 1..] + f.d, g.q[i + 1..] + g.d;
    assert Covers(f, b, g, b');
    hide Covers, ReplyOk, Ahead, Due;
    if AnsweredOk(f, f.cl.flight.cursor, i) {
      AheadMoves(f, g, f.q[..i], f.q[..i], f.cl.flight.cursor);
      ReplyMoves(f, g, f.cl.flight.cursor, f.q[i].reply, f.q[..i], f.q[..i], b, b');
    }
  }

  // ---- the client receives the head of the queue ------------------------------------------

  /** What one received frame does to the flow. */
  function Got(f: Flow): Flow
    requires f.q != []
  {
    var m := OnFrame(f.cl, f.q[0]);
    f.(q := f.q[1..], cl := m.cl,
       asks := if m.sent.Ask? then f.asks + [m.sent.cursor] else f.asks,
       gaveUp := if f.q[0] == Res(Failed) && f.cl.flight.Flying? then true
                 else f.gaveUp && !m.cl.flight.Flying?)
  }

  /** The client moved on without losing sight of anything in `ahead` that a flight needs. */
  ghost predicate Moves(c: ClientState, d: ClientState, x: Frame) {
    && d.flight == c.flight
    && (c.again ==> d.again) && c.lastSeq <= d.lastSeq
    && (x.Evt? ==> d.again || x.e.s <= d.lastSeq)
    && (forall k :: k in d.buffered ==> k in c.buffered || (x.Evt? && k == x.e.s))
  }

  lemma AheadAfter(f: Flow, d: ClientState, q: seq<Frame>, c: nat)
    requires q != [] && Moves(f.cl, d, q[0]) && Ahead(f, q, c) && Numbered(f.log)
    ensures Ahead(f.(cl := d), q[1..], c)
  {
    if !f.cl.again && f.cl.lastSeq < c && At(f.log, c) !in q[1..] {
      assert forall x :: x in q ==> x == q[0] || x in q[1..];
    }
  }

  lemma ReplyAfter(f: Flow, d: ClientState, c: nat, r: Reply, a: seq<Frame>, b: seq<Frame>)
    requires a != [] && Moves(f.cl, d, a[0]) && ReplyOk(f, c, r, a, b)
    ensures ReplyOk(f.(cl := d), c, r, a[1..], b)
  {
    if r.Page? && !r.more {
      assert forall s :: 1 <= s <= |f.log| && Due(f, b, s) ==> Due(f.(cl := d), b, s);
    }
  }

  /** A frame that does not end the flight keeps everything that is owed. */
  lemma InAirAfter(f: Flow, d: ClientState)
    requires Place(f) && f.q != [] && f.cl.flight.Flying? && !SyncRes(f.q[0])
    requires Moves(f.cl, d, f.q[0])
    ensures var g := f.(q := f.q[1..], cl := d);
            && Place(g)
            && (Numbered(f.log) && InAir(f, f.cl.flight.cursor) ==> InAir(g, f.cl.flight.cursor))
  {
    hide Ahead, ReplyOk, Due, Surviving;
    var g := f.(q := f.q[1..], cl := d);
    var c := f.cl.flight.cursor;
    assert NoReply(f.q) ==> NoReply(g.q);
    hide Moves;
    if f.asks == [] && !SyncWork(f.work) {
      var i: nat :| OneReplyAt(f.q, i) && (InAir(f, c) ==> AnsweredOk(f, c, i));
      AnswerAfter(f, g, d, i);
    } else if Numbered(f.log) && InAir(f, c) {
      if f.asks != [] {
        assert (f.q + f.d)[1..] == g.q + g.d && (f.q + f.d)[0] == f.q[0];
        AheadAfter(f, d, f.q + f.d, c);
        AheadIsLocal(f.(cl := d), g, g.q + g.d, c);
      } else {
        AheadAfter(f, d, f.q, c);
        AheadIsLocal(f.(cl := d), g, g.q, c);
        WorkAfter(f, g, d);
      }
    }
  }

  lemma AheadIsLocal(f: Flow, g: Flow, q: seq<Frame>, c: nat)
    requires g.log == f.log && g.cl == f.cl && Ahead(f, q, c)
    ensures Ahead(g, q, c)
  {
  }

  lemma ReplyIsLocal(f: Flow, g: Flow, c: nat, r: Reply, a: seq<Frame>, b: seq<Frame>)
    requires g.log == f.log && g.cl == f.cl && g.todo == f.todo && g.blind == f.blind
    requires ReplyOk(f, c, r, a, b)
    ensures ReplyOk(g, c, r, a, b)
  {
    DueIgnoresWork(f, g);
  }

  lemma WorkAfter(f: Flow, g: Flow, d: ClientState)
    requires f.q != [] && g == f.(q := f.q[1..], cl := d) && f.cl.flight.Flying?
    requires Moves(f.cl, d, f.q[0]) && WorkOk(f, f.cl.flight.cursor)
    ensures WorkOk(g, f.cl.flight.cursor)
  {
    hide ReplyOk, Moves, Surviving;
    var c := f.cl.flight.cursor;
    if f.work.Paged? {
      var b := f.d + Surviving(f.h, f.work.high);
      ReplyAfter(f, d, c, f.work.reply, f.q, b);
      ReplyIsLocal(f.(cl := d), g, c, f.work.reply, g.q, b);
    } else if f.work.Released? {
      ReplyAfter(f, d, c, f.work.reply, f.q, f.d);
      ReplyIsLocal(f.(cl := d), g, c, f.work.reply, g.q, f.d);
    }
  }

  lemma AnswerAfter(f: Flow, g: Flow, d: ClientState, i: nat)
    requires f.q != [] && f.cl.flight.Flying? && g == f.(q := f.q[1..], cl := d)
    requires OneReplyAt(f.q, i) && !SyncRes(f.q[0]) && Moves(f.cl, d, f.q[0])
    ensures i > 0 && OneReplyAt(g.q, i - 1)
    ensures Numbered(f.log) && AnsweredOk(f, f.cl.flight.cursor, i) ==>
              AnsweredOk(g, f.cl.flight.cursor, i - 1)
  {
    hide Ahead, ReplyOk, Moves;
    var c := f.cl.flight.cursor;
    assert g.q[..i - 1] == f.q[..i][1..] && g.q[i..] == f.q[i + 1..] && f.q[..i][0] == f.q[0];
    if Numbered(f.log) && AnsweredOk(f, c, i) {
      AheadAfter(f, d, f.q[..i], c);
      AheadIsLocal(f.(cl := d), g, g.q[..i - 1], c);
      ReplyAfter(f, d, c, f.q[i].reply, f.q[..i], f.q[i + 1..] + f.d);
      ReplyIsLocal(f.(cl := d), g, c, f.q[i].reply, g.q[..i - 1], g.q[i..] + g.d);
    }
  }

  lemma QuietAfter(f: Flow)
    requires Place(f) && f.q != [] && (f.q[0].Tick? || f.q[0] == Res(Other))
    requires Complete(f) && f.cl.flight.NoFlight? && !f.gaveUp
    ensures Settled(f.(q := f.q[1..]))
  {
    var g := f.(q := f.q[1..]);
    forall s | g.cl.lastSeq < s <= |g.log|
      ensures s in g.cl.buffered || Due(g, g.q + g.d, s)
    {
      assert s in f.cl.buffered || Due(f, f.q + f.d, s);
      assert forall x :: x in f.q ==> x == f.q[0] || x in g.q;
    }
  }

  /** An event that arrives without a flight settles, or starts one. */
  lemma EventWithoutFlight(f: Flow)
    requires Place(f) && f.q != [] && f.q[0].Evt? && f.cl.flight.NoFlight? && Complete(f)
    ensures Got(f).cl.flight.Flying? ==>
              var c := Got(f).cl.flight.cursor;
              Got(f).asks == [c] && c <= Got(f).cl.lastSeq <= |f.log|
    ensures Got(f).cl.flight.NoFlight? ==> Got(f).asks == [] && (f.gaveUp || Settled(Got(f)))
  {
    hide AcceptEvent, Near, Settled, FrameOk;
    var e := f.q[0].e;
    FrameOfLog(f, f.q[0]);
    AcceptAgrees(f.cl, f.log, e);
    AcceptWithoutFlight(f.cl, f.log, e);
    AgreesWithin(AcceptEvent(f.cl, e).cl, f.log);
    AcceptAsks(f.cl, e);
    assert [] + [0] == [0];
    var g := Got(f);
    if g.cl.flight.NoFlight? && !f.gaveUp {
      EventSettles(f, AcceptEvent(f.cl, e).cl);
    }
  }

  lemma FrameOfLog(f: Flow, x: Frame)
    requires AllOk(f.q, f.log) && x in f.q && x.Evt?
    ensures 1 <= x.e.s <= |f.log| && f.log[x.e.s - 1] == x.e
  {
  }

  /** The first frame was an event that the client handed over; all it lacked otherwise is still
      kept, or still due. */
  lemma EventSettles(f: Flow, d: ClientState)
    requires f.q != [] && f.q[0].Evt? && Settled(f) && AllOk(f.q, f.log) && Numbered(f.log)
    requires f.q[0].e.s <= d.lastSeq && f.cl.lastSeq <= d.lastSeq && f.blind <= |f.log|
    requires forall k :: k in f.cl.buffered ==> k <= d.lastSeq || k in d.buffered
    requires forall k :: k in d.buffered ==> k in f.cl.buffered || k == f.q[0].e.s
    ensures Settled(f.(q := f.q[1..], cl := d))
  {
    hide FrameOk;
    var g := f.(q := f.q[1..], cl := d);
    FrameOfLog(f, f.q[0]);
    forall s | d.lastSeq < s <= |g.log|
      ensures s in d.buffered || Due(g, g.q + g.d, s)
    {
      assert s in f.cl.buffered || Due(f, f.q + f.d, s);
      assert forall x :: x in f.q ==> x == f.q[0] || x in g.q;
    }
  }

  lemma EventKeepsPlace(f: Flow)
    requires Place(f) && f.q != [] && f.q[0].Evt? && f.cl.flight.NoFlight?
    ensures Place(Got(f))
  {
    hide AcceptEvent;
    AcceptAsks(f.cl, f.q[0].e);
    assert NoReply(f.q[1..]);
  }

  /** Whatever the client agrees with, a new flight sends its own cursor, and only then. */
  lemma AcceptAsks(c: ClientState, e: Event)
    ensures var m := AcceptEvent(c, e);
            && (c.flight.NoFlight? ==>
                  if m.cl.flight.Flying? then m.sent == Ask(m.cl.flight.cursor) else m.sent.Silent?)
            && (c.flight.Flying? ==> m.cl.flight == c.flight && m.sent.Silent?)
  {
    DrainFlight(Keep(c, e));
    DrainFlight(Keep(CatchUp(c).cl, e));
  }

  lemma {:induction false} DrainFlight(c: ClientState)
    ensures Drain(c).flight == c.flight
    decreases c.buffered.Keys
  {
    if c.nextSeq in c.buffered {
      DrainFlight(HandOver(c));
    }
  }

  lemma EventDuringFlight(f: Flow)
    requires Place(f) && f.q != [] && f.q[0].Evt? && f.cl.flight.Flying?
    ensures Place(Got(f))
    ensures Complete(f) ==> InAir(Got(f), f.cl.flight.cursor) && Got(f).cl.flight == f.cl.flight
  {
    hide Got, AcceptEvent, Place, InAir, Moves;
    GotDuringFlight(f);
    var d := AcceptEvent(f.cl, f.q[0].e).cl;
    PlaceDuringFlight(f, d);
    if Complete(f) {
      MovesDuringFlight(f);
      InAirAfter(f, d);
      InAirIgnoresGaveUp(f.(q := f.q[1..], cl := d), false);
    }
  }

  lemma GotDuringFlight(f: Flow)
    requires f.q != [] && f.q[0].Evt? && f.cl.flight.Flying?
    ensures var d := AcceptEvent(f.cl, f.q[0].e).cl;
            Got(f) == f.(q := f.q[1..], cl := d, gaveUp := false) && d.flight == f.cl.flight
  {
    hide AcceptEvent;
    AcceptAsks(f.cl, f.q[0].e);
  }

  lemma MovesDuringFlight(f: Flow)
    requires Complete(f) && f.q != [] && f.q[0].Evt? && f.cl.flight.Flying?
    ensures Moves(f.cl, AcceptEvent(f.cl, f.q[0].e).cl, f.q[0]) && Numbered(f.log)
  {
    hide AcceptEvent, InAir;
    assert FrameOk(f.q[0], f.log);
    AcceptAgrees(f.cl, f.log, f.q[0].e);
    AcceptDuringFlight(f.cl, f.log, f.q[0].e);
  }

  lemma InAirIgnoresGaveUp(f: Flow, gaveUp: bool)
    requires f.cl.flight.Flying? && InAir(f, f.cl.flight.cursor)
    ensures InAir(f.(gaveUp := gaveUp), f.cl.flight.cursor)
  {
    hide Ahead, ReplyOk, Surviving;
    var g := f.(gaveUp := gaveUp);
    var c := f.cl.flight.cursor;
    assert forall r, a, b :: ReplyOk(f, c, r, a, b) ==> ReplyOk(g, c, r, a, b) by {
      forall r, a, b | ReplyOk(f, c, r, a, b)
        ensures ReplyOk(g, c, r, a, b)
      {
        ReplyIsLocal(f, g, c, r, a, b);
      }
    }
    assert forall q :: Ahead(f, q, c) ==> Ahead(g, q, c) by {
      forall q | Ahead(f, q, c)
        ensures Ahead(g, q, c)
      {
        AheadIsLocal(f, g, q, c);
      }
    }
    if f.asks == [] && !SyncWork(f.work) {
      var i: nat :| OneReplyAt(f.q, i) && AnsweredOk(f, c, i);
      assert AnsweredOk(g, c, i);
    }
  }

  lemma PlaceDuringFlight(f: Flow, d: ClientState)
    requires Place(f) && f.q != [] && f.cl.flight.Flying? && !SyncRes(f.q[0]) && d.flight == f.cl.flight
    ensures Place(f.(q := f.q[1..], cl := d, gaveUp := false))
  {
    assert NoReply(f.q) ==> NoReply(f.q[1..]);
    if f.asks == [] && !SyncWork(f.work) {
      var i: nat :| OneReplyAt(f.q, i);
      assert f.q[1..][..i - 1] == f.q[..i][1..] && f.q[1..][i..] == f.q[i + 1..];
      assert OneReplyAt(f.q[1..], i - 1);
    }
  }

  /** The answer to the flight is the first frame exactly when nothing is ahead of it. */
  lemma ReplyIsFirst(f: Flow)
    requires Place(f) && f.q != [] && SyncRes(f.q[0])
    ensures f.cl.flight.Flying? && f.asks == [] && !SyncWork(f.work) && NoReply(f.q[1..])
    ensures InAir(f, f.cl.flight.cursor) ==> AnsweredOk(f, f.cl.flight.cursor, 0)
  {
    hide Ahead, ReplyOk;
    assert f.q[0] in f.q;
    if InAir(f, f.cl.flight.cursor) {
      var i: nat :| OneReplyAt(f.q, i) && AnsweredOk(f, f.cl.flight.cursor, i);
      assert i == 0;
    } else {
      var i: nat :| OneReplyAt(f.q, i);
      assert i == 0;
    }
  }

  lemma ReplyKeepsPlace(f: Flow)
    requires Place(f) && f.q != [] && SyncRes(f.q[0])
    ensures Place(Got(f))
  {
    ReplyIsFirst(f);
    assert f.asks + [0] == [0];
  }

  /** A reply moves the flight on, or lands it with everything above the cursor accounted for. */
  lemma ReplyKeeps(f: Flow)
    requires Place(f) && f.q != [] && SyncRes(f.q[0]) && Complete(f)
    ensures var g := Got(f);
            if g.cl.flight.NoFlight? then g.gaveUp || Settled(g) else InAir(g, g.cl.flight.cursor)
  {
    ReplyIsFirst(f);
    var g, c := Got(f), f.cl.flight.cursor;
    assert f.q[..0] == [];
    assert f.q[1..] + f.d == g.q + g.d;
    assert ReplyOk(f, c, f.q[0].reply, [], g.q + g.d);
    if f.q[0].reply.Page? {
      if f.q[0].reply.more || f.cl.again {
        assert g.asks == [g.cl.flight.cursor];
      } else {
        PageLands(f);
      }
    }
  }

  lemma PageLands(f: Flow)
    requires f.q != [] && f.q[0].Res? && f.q[0].reply.Page? && !f.q[0].reply.more
    requires f.cl.flight.Flying? && !f.cl.again && Ahead(f, [], f.cl.flight.cursor)
    requires ReplyOk(f, f.cl.flight.cursor, f.q[0].reply, [], f.q[1..] + f.d)
    ensures Settled(Got(f))
  {
    var g := Got(f);
    assert g == f.(q := f.q[1..], cl := f.cl.(flight := NoFlight));
    forall s | g.cl.lastSeq < s <= |g.log|
      ensures s in g.cl.buffered || Due(g, g.q + g.d, s)
    {
      assert Due(f, f.q[1..] + f.d, s);
    }
  }
}
