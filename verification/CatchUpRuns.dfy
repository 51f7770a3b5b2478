/** Where serving alone takes a client: to the head of the log, unless it is wedged. */
module CatchUpRuns {
  import opened Outbox
  import opened SessionModel
  import opened HubModel
  import opened ClientModel
  import opened Replication
  import opened CatchUpFlow
  import opened CatchUpComplete
  import opened CatchUpRounds
  import opened ServingRuns

  /** With nothing else on its way, a client in flight waits for a page at or below its cursor, or
      is ahead of a gap with a hint to come back (`RoundReturns`). */
  lemma {:induction false} RestingWaits(w: World)
    requires Safe(w) && Owes(w) && Resting(w) && !w.stale && w.cl.flight.Flying?
    ensures w.cl.flight.cursor <= w.box.Head()
    ensures Waiting(w.cl, w.box.log) || (Agrees(w.cl, w.box.log) && w.cl.again && w.cl.lastSeq < w.cl.flight.cursor)
  {
    var f := FlowOf(w);
    assert f.q + f.d == [];
    assert Ahead(f, f.q + f.d, w.cl.flight.cursor);
  }

  // ---- the pages of a round ---------------------------------------------------------------

  /** A flight is started at the cursor, wherever the event that starts it belongs. */
  lemma {:induction false} AcceptAsksAtCursor(c: ClientState, e: Event)
    ensures var d := AcceptEvent(c, e).cl;
            c.flight.NoFlight? && d.flight.Flying? ==> d.flight.cursor == c.lastSeq
  {
    DrainFlight(Keep(c, e));
    DrainFlight(Keep(CatchUp(c).cl, e));
  }

  /** The client agrees with the log, and asks for nothing below `floor`. */
  ghost predicate Floored(c: ClientState, log: seq<Event>, floor: nat) {
    && Agrees(c, log) && floor <= c.lastSeq <= |log|
    && (c.flight.Flying? ==> floor <= c.flight.cursor <= |log|)
  }

  lemma {:induction false} AcceptFloored(c: ClientState, log: seq<Event>, b: nat, floor: nat)
    requires Floored(c, log, floor) && 0 < b <= |log|
    ensures var d := AcceptEvent(c, log[b - 1]).cl;
            Floored(d, log, floor) && (c.flight.Flying? ==> d.flight == c.flight)
  {
    assert log[b - 1].s == b;
    AcceptAgrees(c, log, log[b - 1]);
    AcceptAsks(c, log[b - 1]);
    AcceptAsksAtCursor(c, log[b - 1]);
    AgreesWithin(AcceptEvent(c, log[b - 1]).cl, log);
    hide AcceptEvent, Agrees;
  }

  lemma {:induction false} ArriveFloored(c: ClientState, log: seq<Event>, a: nat, b: nat, floor: nat)
    requires Floored(c, log, floor) && a <= b <= |log|
    ensures var d := Arrive(c, log, a, b);
            Floored(d, log, floor) && (c.flight.Flying? ==> d.flight == c.flight)
    decreases b
  {
    hide AcceptEvent, Floored;
    if a < b {
      ArriveFloored(c, log, a, b - 1, floor);
      AcceptFloored(Arrive(c, log, a, b - 1), log, b, floor);
    }
  }

  /** The page a log in full gives at `k`, and where it ends. */
  function PageEnd(log: seq<Event>, k: nat): (end: nat)
    requires k <= |log|
    ensures k <= end <= |log| && end <= k + SYNC_LIMIT
  {
    if |log| - k > SYNC_LIMIT then k + SYNC_LIMIT else |log|
  }

  function ReplyAt(log: seq<Event>, k: nat): Reply
    requires k <= |log|
  {
    Page(|log|, PageEnd(log, k), |log| - k > SYNC_LIMIT)
  }

  lemma {:induction false} PageAt(c: ClientState, box: Box, k: nat)
    requires box.Valid() && c.flight == Flying(k) && box.base <= k <= box.Head()
    ensures Answer(box, k).reply == ReplyAt(box.log, k)
    ensures AfterPage(c, box) == Arrive(OnReply(c, ReplyAt(box.log, k)).cl, box.log, k, PageEnd(box.log, k))
  {
    hide Serve, Arrive, OnReply;
    RoundPlaysServe(box.log, box.base, k);
  }

  lemma {:induction false} AfterPageFloored(c: ClientState, box: Box, k: nat)
    requires box.Valid() && Floored(c, box.log, box.base) && c.flight == Flying(k)
    ensures Floored(AfterPage(c, box), box.log, box.base)
    ensures box.Head() - k > SYNC_LIMIT ==> AfterPage(c, box).flight == Flying(PageEnd(box.log, k))
  {
    hide Arrive, AfterPage, Agrees;
    PageAt(c, box, k);
    var asked := OnReply(c, ReplyAt(box.log, k)).cl;
    AgreesInFlight(c, box.log, asked.flight, asked.again);
    ArriveFloored(asked, box.log, k, PageEnd(box.log, k), box.base);
  }

  /** A page over a log in full brings the next two hundred events, and the flight goes on exactly if there
      were more. */
  lemma {:induction false} PageOfTwoHundred(c: ClientState, box: Box, k: nat)
    requires box.Valid() && Floored(c, box.log, box.base) && c.flight == Flying(k) && box.base <= k <= box.Head()
    ensures var left := box.Head() - k;
            && Answer(box, k).page == box.log[k..k + if left > 200 then 200 else left]
            && Answer(box, k).reply == Page(box.Head(), if left > 200 then k + 200 else box.Head(), left > 200)
            && (left > 200 ==> AfterPage(c, box).flight == Flying(k + 200))
  {
    hide Serve, AfterPage;
    PageAt(c, box, k);
    RoundPlaysServe(box.log, box.base, k);
    AfterPageFloored(c, box, k);
  }

  lemma {:induction false} RoundByPage(c: ClientState, box: Box, k: nat)
    requires box.Valid() && c.flight == Flying(k) && box.base <= k <= box.Head()
    ensures Round(c, box.log, k)
            == if box.Head() - k > SYNC_LIMIT then Round(AfterPage(c, box), box.log, PageEnd(box.log, k))
               else AfterPage(c, box)
  {
    hide Arrive, OnReply, AfterPage;
    PageAt(c, box, k);
  }

  /** A round is a number of pages. */
  lemma {:induction false} PagesOfRound(c: ClientState, box: Box, k: nat) returns (n: nat)
    requires box.Valid() && Floored(c, box.log, box.base) && c.flight == Flying(k)
    ensures k <= box.Head() && AfterPages(c, box, n) == Round(c, box.log, k)
    ensures Floored(Round(c, box.log, k), box.log, box.base)
    decreases box.Head() - k
  {
    hide AfterPage, Round, Agrees;
    AfterPageFloored(c, box, k);
    RoundByPage(c, box, k);
    assert AfterPages(c, box, 0) == c;
    assert AfterPages(c, box, 1) == AfterPage(c, box);
    n := 1;
    if box.Head() - k > SYNC_LIMIT {
      n := PagesOfRound(AfterPage(c, box), box, PageEnd(box.log, k));
      PagesConcat(c, box, 1, n);
      n := 1 + n;
    }
  }

  lemma {:induction false} PagesOfRounds(c: ClientState, box: Box, rounds: nat) returns (n: nat)
    requires box.Valid() && Floored(c, box.log, box.base)
    ensures AfterPages(c, box, n) == Rounds(c, box.log, rounds)
    ensures Floored(Rounds(c, box.log, rounds), box.log, box.base)
  {
    hide AfterPage, Round;
    n := 0;
    if rounds > 0 {
      n := PagesOfRounds(c, box, rounds - 1);
      var d := Rounds(c, box.log, rounds - 1);
      if d.flight.Flying? {
        var more := PagesOfRound(d, box, d.flight.cursor);
        PagesConcat(c, box, n, more);
        n := n + more;
      }
    }
  }

  // ---- serving ends the catch-up ----------------------------------------------------------

  /** The client has everything, and asks for nothing. */
  ghost predicate CaughtUp(c: ClientState, log: seq<Event>) {
    c.flight.NoFlight? && c.lastSeq == |log| && Agrees(c, log)
  }

  lemma {:induction false} PagesToHead(c: ClientState, box: Box) returns (n: nat)
    requires box.Valid() && Waiting(c, box.log) && !Wedged(c, box.log) && box.base <= c.flight.cursor
    ensures CaughtUp(AfterPages(c, box, n), box.log)
  {
    hide AfterPages, Rounds, Wedged, Agrees;
    AgreesWithin(c, box.log);
    CatchUpEndsUnlessWedged(c, box.log);
    n := PagesOfRounds(c, box, 2);
  }

  /** A cursor below the pruned rows is moved to the oldest one, with an empty buffer. */
  lemma {:induction false} PageResyncs(c: ClientState, box: Box)
    requires box.Valid() && Waiting(c, box.log) && c.flight.cursor < box.base < box.Head()
    ensures var d := AfterPage(c, box);
            Waiting(d, box.log) && !Wedged(d, box.log) && d.flight == Flying(box.base)
  {
    hide Serve;
    ServedPage(box.Head(), box, c.flight.cursor, SYNC_LIMIT);
    assert box.log[box.base..box.base] == [];
  }

  /** Every way to serve a resting client ends with everything delivered, after a bounded number
      of steps, if its buffer is not wedged. A cursor below the pruned rows may be wedged too; what
      it needs is a row to be sent to. */
  lemma {:induction false} ServingEndsCatchUp(w: World) returns (n: nat)
    requires w.box.Valid() && Resting(w) && Waiting(w.cl, w.box.log)
    requires if w.box.base <= w.cl.flight.cursor then !Wedged(w.cl, w.box.log) else w.box.base < w.box.Head()
    ensures forall actions :: Serves(actions) ==>
              var d := Run(w, actions);
              && (w.link.ss.limit > 2 * SYNC_LIMIT ==> !d.link.ss.closing)
              && (!d.link.ss.closing && Effective(w, actions) ==> |actions| <= 408 * (n + 1))
              && (!d.link.ss.closing && AtEnd(d) ==> CaughtUp(d.cl, w.box.log))
  {
    hide Resting, AfterPages, AfterPage, Wedged, Serves, Effective, Agrees, AtEnd, Run;
    var c := w.cl;
    n := 0;
    if c.flight.cursor < w.box.base {
      PageResyncs(c, w.box);
      n := PagesToHead(AfterPage(c, w.box), w.box);
      OnePage(c, w.box);
      PagesConcat(c, w.box, 1, n);
      n := 1 + n;
    } else {
      n := PagesToHead(c, w.box);
    }
    forall actions | Serves(actions)
      ensures var d := Run(w, actions);
              && (w.link.ss.limit > 2 * SYNC_LIMIT ==> !d.link.ss.closing)
              && (!d.link.ss.closing && Effective(w, actions) ==> |actions| <= 408 * (n + 1))
              && (!d.link.ss.closing && AtEnd(d) ==> CaughtUp(d.cl, w.box.log))
    {
      ServingLands(w, actions, n);
    }
  }

  lemma {:induction false} OnePage(c: ClientState, box: Box)
    requires box.Valid()
    ensures AfterPages(c, box, 1) == AfterPage(c, box)
  {
    hide AfterPage;
    assert AfterPages(c, box, 0) == c;
  }

  lemma {:induction false} ServingLands(w: World, actions: seq<Action>, n: nat)
    requires w.box.Valid() && Resting(w) && Serves(actions) && AfterPages(w.cl, w.box, n).flight.NoFlight?
    ensures var d := Run(w, actions);
            && (w.link.ss.limit > 2 * SYNC_LIMIT ==> !d.link.ss.closing)
            && (!d.link.ss.closing && Effective(w, actions) ==> |actions| <= 408 * (n + 1))
            && (!d.link.ss.closing && AtEnd(d) ==> d.box == w.box && d.cl == AfterPages(w.cl, w.box, n))
  {
    hide Resting, AfterPages, Serves, Effective, AtEnd, Run, Agrees, Played;
    var m, x, y := ServingPlays(w, actions, n);
    var d := Run(w, actions);
    if !d.link.ss.closing && AtEnd(d) {
      PlayedFeeds(w, d, m, x, y);
      EndIsLanded(w, d, m, x, y);
      if m <= n {
        LandedStays(w.cl, w.box, m, n);
      } else {
        LandedStays(w.cl, w.box, n, m);
      }
    }
  }

  // ---- serving a wedged client ------------------------------------------------------------

  /** Between its pages, a client that the rest of the log will not help: its buffer is full where
      the awaited event comes, or will be full at the end of the log. */
  ghost predicate Vain(c: ClientState, box: Box) {
    && Agrees(c, box.log) && c.flight.Flying? && box.base <= c.flight.cursor <= box.Head() && box.base <= c.lastSeq
    && c.nextSeq <= box.Head() && Filled(0, box.Head() - c.nextSeq) == EVENT_BUFFER_CAP
    && (if c.flight.cursor <= c.lastSeq then |c.buffered| == EVENT_BUFFER_CAP
        else c.again && (forall i :: i in c.buffered ==> i <= c.flight.cursor) &&
             Filled(|c.buffered|, box.Head() - c.flight.cursor) == EVENT_BUFFER_CAP)
  }

  lemma {:induction false} WedgedIsVain(c: ClientState, box: Box)
    requires Waiting(c, box.log) && Wedged(c, box.log) && box.base <= c.flight.cursor
    ensures Vain(c, box)
  {
    hide Filled, Near;
    BufferFitsLog(c, box.log);
    FilledWraps(0, box.Head() - c.nextSeq);
  }

  /** The client gets another page of the same kind of round. */
  ghost predicate VainPlay(c: ClientState, d: ClientState) {
    d.lastSeq == c.lastSeq && d.handed == c.handed && d.flight.Flying?
  }

  /** A full buffer that meets a page: either all of it is known, or the awaited event is in it
      and is thrown away. */
  lemma {:induction false} FullPage(c: ClientState, box: Box)
    requires box.Valid() && Vain(c, box) && c.flight.cursor <= c.lastSeq
    ensures var k := c.flight.cursor;
            var d := Arrive(OnReply(c, ReplyAt(box.log, k)).cl, box.log, k, PageEnd(box.log, k));
            Vain(d, box) && VainPlay(c, d)
    ensures OnReply(c, ReplyAt(box.log, c.flight.cursor)).cl.flight.Flying?
  {
    hide Arrive, Filled, Near;
    var log, k := box.log, c.flight.cursor;
    BufferFitsLog(c, log);
    var next := PageEnd(log, k);
    assert next == k + SYNC_LIMIT;
    var asked := c.(flight := Flying(next), again := false);
    assert OnReply(c, ReplyAt(log, k)).cl == asked;
    AgreesInFlight(c, log, Flying(next), false);
    if next <= c.lastSeq {
      ArriveAgain(asked, log, k, next);
    } else {
      PageOverflows(asked, log, k, next);
      FilledInTwo(0, next - c.nextSeq, |log| - next);
    }
  }

  /** Ahead of the awaited event the page only fills the buffer, up to the end of the log. */
  lemma {:induction false} FillingPage(c: ClientState, box: Box)
    requires box.Valid() && Vain(c, box) && c.flight.cursor > c.lastSeq
    ensures var k := c.flight.cursor;
            var d := Arrive(OnReply(c, ReplyAt(box.log, k)).cl, box.log, k, PageEnd(box.log, k));
            Vain(d, box) && VainPlay(c, d)
    ensures OnReply(c, ReplyAt(box.log, c.flight.cursor)).cl.flight.Flying?
  {
    hide Arrive, Filled, Near;
    var log, k := box.log, c.flight.cursor;
    var next := PageEnd(log, k);
    var asked := OnReply(c, ReplyAt(log, k)).cl;
    AgreesInFlight(c, log, asked.flight, asked.again);
    ArriveBehindGap(asked, log, k, next);
    FilledInTwo(|c.buffered|, next - k, |log| - next);
    if next == |log| {
      FillingEnds(c, Arrive(asked, log, k, next), box);
    }
  }

  lemma {:induction false} FillingEnds(c: ClientState, d: ClientState, box: Box)
    requires Vain(c, box) && c.flight.cursor > c.lastSeq && Agrees(d, box.log) && d.lastSeq == c.lastSeq
    requires d.flight == Flying(c.lastSeq) && |d.buffered| == Filled(|c.buffered|, box.Head() - c.flight.cursor)
    ensures Vain(d, box)
  {
    hide Near, Filled;
    BufferFitsLog(c, box.log);
    BufferFitsLog(d, box.log);
  }

  lemma {:induction false} VainPage(c: ClientState, box: Box)
    requires box.Valid() && Vain(c, box)
    ensures Vain(AfterPage(c, box), box) && VainPlay(c, AfterPage(c, box))
    ensures VainPlay(c, OnReply(c, Answer(box, c.flight.cursor).reply).cl)
  {
    hide Vain, AfterPage, Arrive, Answer;
    VainIsWithin(c, box);
    PageAt(c, box, c.flight.cursor);
    if c.flight.cursor <= c.lastSeq {
      FullPage(c, box);
    } else {
      FillingPage(c, box);
    }
  }

  lemma {:induction false} VainIsWithin(c: ClientState, box: Box)
    requires Vain(c, box)
    ensures c.flight.Flying? && box.base <= c.flight.cursor <= box.Head() && Agrees(c, box.log)
  {
  }

  lemma {:induction false} VainPages(c: ClientState, box: Box, m: nat)
    requires box.Valid() && Vain(c, box)
    ensures Vain(AfterPages(c, box, m), box) && VainPlay(c, AfterPages(c, box, m))
  {
    hide Vain, AfterPage;
    VainIsWithin(c, box);
    if m > 0 {
      VainPages(c, box, m - 1);
      VainPage(AfterPages(c, box, m - 1), box);
    }
  }

  lemma {:induction false} ArriveAgrees(c: ClientState, log: seq<Event>, a: nat, b: nat)
    requires Agrees(c, log) && a <= b <= |log|
    ensures var d := Arrive(c, log, a, b); Agrees(d, log) && c.handed <= d.handed && c.lastSeq <= d.lastSeq
    decreases b
  {
    hide AcceptEvent, Near;
    if a < b {
      ArriveAgrees(c, log, a, b - 1);
      AgreesInFlight(c, log, c.flight, c.again);
      AcceptAgrees(Arrive(c, log, a, b - 1), log, log[b - 1]);
    }
  }

  /** While the frames on their way end in vain, so does each of them. */
  lemma {:induction false} VainEvent(w: World, d: World, m: nat, x: nat, y: nat)
    requires Played(w, d, m, x, y) && d.link.wire != [] && x < y
    requires Agrees(d.cl, d.box.log) && VainPlay(w.cl, d.cl) && VainPlay(w.cl, AfterPages(w.cl, w.box, m))
    ensures var d' := Do(d, Receive); Agrees(d'.cl, d'.box.log) && VainPlay(w.cl, d'.cl)
  {
    hide Do, AfterPages, Agrees, AcceptEvent, Arrive;
    EventFeeds(d, x, y);
    ArriveFrom(d.cl, d.box.log, x, y);
    var c, e := d.cl, d.box.log[x];
    NumberedAt(d.box, x);
    AcceptAgrees(c, d.box.log, e);
    ArriveAgrees(AcceptEvent(c, e).cl, d.box.log, x + 1, y);
  }

  lemma {:induction false} NumberedAt(box: Box, x: nat)
    requires box.Valid() && x < box.Head()
    ensures box.log[x].s == x + 1
  {
  }

  lemma {:induction false} VainReply(w: World, d: World, m: nat, x: nat)
    requires Played(w, d, m, x, x) && d.link.wire != [] && Vain(AfterPages(w.cl, w.box, m), w.box)
    requires Agrees(d.cl, d.box.log) && VainPlay(w.cl, d.cl)
    ensures var d' := Do(d, Receive); Agrees(d'.cl, d'.box.log) && VainPlay(w.cl, d'.cl)
  {
    hide Do, AfterPages, Vain, Arrive, Feeds, Answer;
    PlayedFeeds(w, d, m, x, x);
    ReplyFeeds(d, x);
    ArriveNothing(d.cl, d.box.log, x);
    VainPage(d.cl, d.box);
    VainIsWithin(d.cl, d.box);
    PageAt(d.cl, d.box, d.cl.flight.cursor);
  }

  lemma {:induction false} VainQuiet(w: World, d: World, a: Action, m: nat, x: nat, y: nat)
    requires Played(w, d, m, x, y) && ServeStep(a) && (a.Receive? ==> d.link.wire == [])
    requires d.box.Valid() && !Do(d, a).link.ss.closing
    ensures Do(d, a).cl == d.cl && Do(d, a).box == d.box
  {
    hide Do, Feeds, Orderly, Played, Weight;
    PlayedFeeds(w, d, m, x, y);
    if a.Receive? {
      Disabled(d, a);
    } else {
      QuietStep(d, a, x, y);
    }
  }

  /** However a wedged client is served, it hands over nothing, and there is always more to serve. */
  lemma {:induction false} ServingWedgedIsVain(w: World, actions: seq<Action>)
    requires w.box.Valid() && Resting(w) && Waiting(w.cl, w.box.log) && Wedged(w.cl, w.box.log)
    requires w.box.base <= w.cl.flight.cursor && Serves(actions)
    ensures var d := Run(w, actions);
            && (w.link.ss.limit > 2 * SYNC_LIMIT ==> !d.link.ss.closing)
            && (!d.link.ss.closing ==>
                  && d.cl.handed == w.cl.handed && d.cl.lastSeq == w.cl.lastSeq && d.cl.flight.Flying?
                  && d.box == w.box && !AtEnd(d))
  {
    hide Resting, AfterPages, Serves, AtEnd, Run, Agrees, Played, Wedged, Vain;
    WedgedIsVain(w.cl, w.box);
    var m, x, y := VainRun(w, actions);
    var d := Run(w, actions);
    if !d.link.ss.closing {
      PlayedFeeds(w, d, m, x, y);
      if AtEnd(d) {
        EndIsLanded(w, d, m, x, y);
        assert false;
      }
    }
  }

  lemma {:induction false} VainRun(w: World, actions: seq<Action>) returns (m: nat, x: nat, y: nat)
    requires w.box.Valid() && Resting(w) && Vain(w.cl, w.box) && Serves(actions)
    ensures var d := Run(w, actions);
            && (w.link.ss.limit > 2 * SYNC_LIMIT ==> !d.link.ss.closing)
            && (!d.link.ss.closing ==>
                  Played(w, d, m, x, y) && Agrees(d.cl, w.box.log) && VainPlay(w.cl, d.cl))
    decreases |actions|
  {
    hide Resting, AfterPages, Do, Effective, Vain, Agrees, Played, ServeStep;
    m, x, y := ServingPlays(w, actions, 0);
    VainIsWithin(w.cl, w.box);
    if actions == [] {
      RunNone(w);
    } else {
      var front, a := actions[..|actions| - 1], actions[|actions| - 1];
      var d := Run(w, front);
      if !Run(w, actions).link.ss.closing {
        assert ServeStep(a);
        if d.link.ss.closing {
          ClosedStays(d, a);
        } else {
          var m', x', y' := VainRun(w, front);
          VainStep(w, d, a, m', x', y');
        }
      }
    }
  }

  lemma {:induction false} VainStep(w: World, d: World, a: Action, m: nat, x: nat, y: nat)
    requires w.box.Valid() && Vain(w.cl, w.box) && Played(w, d, m, x, y) && d.box.Valid()
    requires Agrees(d.cl, w.box.log) && VainPlay(w.cl, d.cl) && ServeStep(a) && !Do(d, a).link.ss.closing
    ensures Agrees(Do(d, a).cl, w.box.log) && VainPlay(w.cl, Do(d, a).cl)
  {
    hide Do, AfterPages, Vain, Agrees, Played;
    PlayedFeeds(w, d, m, x, y);
    VainPages(w.cl, w.box, m);
    if !a.Receive? || d.link.wire == [] {
      VainQuiet(w, d, a, m, x, y);
    } else if x < y {
      VainEvent(w, d, m, x, y);
      EventFeeds(d, x, y);
    } else {
      VainReply(w, d, m, x);
      ReplyFeeds(d, x);
    }
  }

  // ---- how a client gets there ------------------------------------------------------------

  const PASS: seq<Action> := [Send, Receive]

  lemma {:induction false} SendStep(w: World, f: Frame, rest: seq<Frame>)
    requires w.box.Valid() && w.up && w.link.wire == [] && w.link.ss == Open(w.link.ss.limit, [f] + rest)
    ensures Do(w, Send) == w.(link := w.link.(wire := [f], ss := Open(w.link.ss.limit, rest)))
  {
    assert ([f] + rest)[1..] == rest && [] + [f] == [f];
  }

  lemma {:induction false} ReceiveStep(w: World, f: Frame)
    requires w.box.Valid() && w.up && w.link.wire == [f]
    ensures Do(w, Receive) == Received(w, f)
  {
    hide Received;
  }

  /** One frame goes through the channel to the client. */
  lemma {:induction false} PassFrame(w: World, f: Frame, rest: seq<Frame>)
    requires w.box.Valid() && w.up && w.link.wire == [] && w.link.ss == Open(w.link.ss.limit, [f] + rest)
    ensures Run(w, PASS) == Received(w.(link := w.link.(wire := [f], ss := Open(w.link.ss.limit, rest))), f)
  {
    hide Do, Received;
    SendStep(w, f, rest);
    var w1 := w.(link := w.link.(wire := [f], ss := Open(w.link.ss.limit, rest)));
    ReceiveStep(w1, f);
    RunOne(w, Send);
    RunOne(w1, Receive);
    RunConcat(w, [Send], [Receive]);
    assert [Send] + [Receive] == PASS;
  }

  /** An event is emitted and fanned out, and reaches the client. */
  function Lives(e: Event): seq<Action> {
    [Emit(e.kind, e.data), Fanout(e.s), Send, Receive]
  }

  /** The same for the events after `a`, up to `b`. */
  function LiveRun(log: seq<Event>, a: nat, b: nat): seq<Action>
    requires a <= b <= |log|
    decreases b
  {
    if a == b then [] else LiveRun(log, a, b - 1) + Lives(log[b - 1])
  }

  lemma {:induction false} LiveSteps(w: World, e: Event)
    requires w.box.Valid() && Resting(w) && e.s == w.box.Head() + 1 && w.todo == {} && w.link.ss.limit > 0
    ensures var box := Box(w.box.log + [e], w.box.base);
            && Do(w, Emit(e.kind, e.data)) == w.(box := box, todo := {e.s})
            && Do(w.(box := box, todo := {e.s}), Fanout(e.s))
               == w.(box := box, link := w.link.(ss := Open(w.link.ss.limit, [Evt(e)])))
  {
    hide OnFrame, ReplayAll, EndRequest, ReleaseLive;
    assert {e.s} - {e.s} == w.todo;
    assert (w.box.log + [e])[e.s - 1] == e && [] + [Evt(e)] == [Evt(e)];
  }

  lemma {:induction false} LiveEvent(w: World, e: Event)
    requires w.box.Valid() && Resting(w) && e.s == w.box.Head() + 1 && w.todo == {} && w.link.ss.limit > 0
    ensures var d := Run(w, Lives(e));
            && d.box == Box(w.box.log + [e], w.box.base) && Resting(d) && d.todo == {}
            && d.stale == w.stale && d.link.ss.limit == w.link.ss.limit && d.cl == AcceptEvent(w.cl, e).cl
  {
    hide Do, AcceptEvent;
    var l := w.link;
    var box := Box(w.box.log + [e], w.box.base);
    var w1 := w.(box := box, todo := {e.s});
    var w2 := w.(box := box, link := l.(ss := Open(l.ss.limit, [Evt(e)])));
    LiveSteps(w, e);
    RunOne(w, Emit(e.kind, e.data));
    RunNext(w, [Emit(e.kind, e.data)], Fanout(e.s));
    RunConcat(w, [Emit(e.kind, e.data)] + [Fanout(e.s)], PASS);
    assert [Emit(e.kind, e.data)] + [Fanout(e.s)] + PASS == Lives(e);
    assert [Evt(e)] + [] == [Evt(e)];
    PassFrame(w2, Evt(e), []);
    AcceptAsks(w.cl, e);
    assert [] + [0] == [0];
  }

  lemma {:induction false} ArrivePrefix(c: ClientState, log: seq<Event>, more: seq<Event>, a: nat, b: nat)
    requires a <= b <= |log| && log <= more
    ensures Arrive(c, log, a, b) == Arrive(c, more, a, b)
    decreases b
  {
    hide AcceptEvent;
    if a < b {
      ArrivePrefix(c, log, more, a, b - 1);
    }
  }

  lemma {:induction false} LiveEvents(w: World, log: seq<Event>, b: nat)
    requires w.box.Valid() && Resting(w) && w.todo == {} && w.link.ss.limit > 0 && Numbered(log)
    requires w.box.Head() <= b <= |log| && w.box.log == log[..w.box.Head()]
    ensures var d := Run(w, LiveRun(log, w.box.Head(), b));
            && d.box == Box(log[..b], w.box.base) && Resting(d) && d.todo == {}
            && d.stale == w.stale && d.link.ss.limit == w.link.ss.limit
            && d.cl == Arrive(w.cl, log, w.box.Head(), b)
    decreases b
  {
    hide Resting, AcceptEvent, Do;
    var a := w.box.Head();
    if a < b {
      LiveEvents(w, log, b - 1);
      assert log[..b] == log[..b - 1] + [log[b - 1]];
      LiveEvent(Run(w, LiveRun(log, a, b - 1)), log[b - 1]);
      RunConcat(w, LiveRun(log, a, b - 1), Lives(log[b - 1]));
    }
  }

  /** A socket that is opened, and misses what is emitted and fanned out before it is attached. */
  function Opens(limit: nat, e: Event): seq<Action> {
    [Connect(limit), Emit(e.kind, e.data), Fanout(e.s), Attach] + PASS
  }

  lemma {:induction false} OpenSteps(limit: nat, e: Event)
    requires limit > 0 && e.s == 1
    ensures var w := Start(Box([], 0), 0);
            var w1 := w.(up := true, link := NoLink().(ss := Open(limit, [])));
            var w3 := w1.(box := Box([e], 0));
            && Do(w, Connect(limit)) == w1
            && Do(w1, Emit(e.kind, e.data)) == w1.(box := Box([e], 0), todo := {1})
            && Do(w1.(box := Box([e], 0), todo := {1}), Fanout(1)) == w3
            && Do(w3, Attach) == w3.(link := w3.link.(attached := true, ss := Open(limit, [Welcome(0)])))
  {
    hide OnFrame, ReplayAll, EndRequest, ReleaseLive;
    assert {1} - {1} == {};
  }

  lemma {:induction false} OpensPastFirst(limit: nat, e: Event)
    requires limit > 0 && e.s == 1
    ensures var d := Run(Start(Box([], 0), 0), Opens(limit, e));
            && d.box == Box([e], 0) && Resting(d) && d.todo == {} && !d.stale
            && d.link.ss.limit == limit && d.cl == Greeted()
  {
    hide Do;
    var w := Start(Box([], 0), 0);
    OpenSteps(limit, e);
    RunOne(w, Connect(limit));
    RunNext(w, [Connect(limit)], Emit(e.kind, e.data));
    RunNext(w, [Connect(limit)] + [Emit(e.kind, e.data)], Fanout(e.s));
    RunNext(w, [Connect(limit)] + [Emit(e.kind, e.data)] + [Fanout(e.s)], Attach);
    var open := [Connect(limit)] + [Emit(e.kind, e.data)] + [Fanout(e.s)] + [Attach];
    assert open == [Connect(limit), Emit(e.kind, e.data), Fanout(e.s), Attach];
    RunConcat(w, open, PASS);
    assert [Welcome(0)] + [] == [Welcome(0)];
    PassFrame(Run(w, open), Welcome(0), []);
    assert [] + [0] == [0];
  }

  /** The first event is fanned out before the new socket is attached, the next ones arrive. */
  function MissesFirst(log: seq<Event>, limit: nat): seq<Action>
    requires log != []
  {
    Opens(limit, log[0]) + LiveRun(log, 1, |log|)
  }

  /** An empty host and a client that was never connected. */
  ghost predicate Unused(w: World) {
    w == Start(Box([], 0), 0)
  }

  lemma {:induction false} MissesFirstRun(w: World, log: seq<Event>, limit: nat)
    requires Unused(w) && log != [] && Numbered(log) && limit > 0
    ensures w.box.Valid()
    ensures var d := Run(w, MissesFirst(log, limit));
            && d.box == Box(log, 0) && d.todo == {} && !d.stale && Resting(d) && d.link.ss.limit == limit
            && d.cl == Arrive(Greeted(), log, 1, |log|)
  {
    hide Resting, Run, Arrive, Greeted, Opens, LiveRun;
    assert log[..1] == [log[0]] && log[..|log|] == log;
    OpensPastFirst(limit, log[0]);
    LiveEvents(Run(w, Opens(limit, log[0])), log, |log|);
    RunConcat(w, Opens(limit, log[0]), LiveRun(log, 1, |log|));
  }

  /** Nothing exotic leads to the wedge: an empty host, a fresh client, and 501 events of which the
      first is missed. From there the host may serve as it will: the client never hands over an
      event, and never stops asking. */
  lemma {:induction false} WedgeIsReached(w: World, log: seq<Event>, limit: nat, actions: seq<Action>)
    requires Unused(w) && |log| == 501 && Numbered(log) && limit > 0 && Serves(actions)
    ensures w.box.Valid()
    ensures var d := Run(w, MissesFirst(log, limit) + actions);
            && (limit > 2 * SYNC_LIMIT ==> !d.link.ss.closing)
            && (!d.link.ss.closing ==>
                  d.box == Box(log, 0) && d.cl.handed == [] && d.cl.lastSeq == 0 && d.cl.flight.Flying? && !AtEnd(d))
  {
    hide Resting, Run, Wedged, Arrive, MissesFirst, Unused, Greeted, Serves, AtEnd, Agrees;
    MissesFirstRun(w, log, limit);
    MissingFirstWedges(log);
    ServingWedgedIsVain(Run(w, MissesFirst(log, limit)), actions);
    RunConcat(w, MissesFirst(log, limit), actions);
  }
}
