/** What the hub answers to `sync.since`, and what that does to the session's queue. */
module HubModel {
  import opened Outbox
  import opened SessionModel

  /** One answered `sync.since`: the response, the replayed page, and the release mark. */
  datatype Served = Served(reply: Reply, page: seq<Event>, high: nat)

  /** `head` was read first; `read` is the store as the later page read saw it. */
  function Serve(head: nat, read: Box, cursor: nat, limit: nat): Served
    requires read.base <= |read.log|
  {
    if cursor > head then Served(Page(head, head, false), [], head)
    else
      match read.Since(cursor, limit + 1)
      case Gone(minSeq) => Served(Reply.Resync(minSeq), [], head)
      case Found(rows) =>
        var more := |rows| > limit;
        var page := if more then rows[..limit] else rows;
        var high := if page == [] then head else page[|page| - 1].s;
        Served(Page(head, if more then high else head, more), page, high)
  }

  /** A whole request on one session: `pre` reaches it before live frames are held, `live`
      while they are held, `post` between the release and the response. */
  function ServeRequest(s: SessionState, head: nat, read: Box, cursor: nat, limit: nat,
                        pre: seq<Frame>, live: seq<Frame>, post: seq<Frame>): SessionState
    requires read.base <= |read.log|
  {
    var served := Serve(head, read, cursor, limit);
    var holding := HoldLive(DeliverAll(BeginRequest(s), pre));
    var paged := ReplayAll(DeliverAll(holding, live), served.page);
    EndRequest(DeliverAll(ReleaseLive(paged, served.high), post), served.reply)
  }

  /** The page is consecutive from the cursor; an empty page above an older head means that the
      store asked for a resync or had no row left. */
  lemma ServedPage(head: nat, read: Box, cursor: nat, limit: nat)
    requires read.Valid() && head <= read.Head() && limit > 0
    ensures var r := Serve(head, read, cursor, limit);
            && (forall i :: 0 <= i < |r.page| ==>
                  cursor + 1 + i <= read.Head() && r.page[i] == read.At(cursor + 1 + i))
            && (r.page != [] ==> r.high == cursor + |r.page| && r.high <= read.Head())
            && (r.page == [] ==> r.high == head)
            && (r.page == [] && cursor < head ==>
                  r.reply == Reply.Resync(read.base + 1) || read.base == read.Head())
            && (r.reply.Resync? ==>
                  r.page == [] && r.reply.minSeq == read.base + 1
                  && cursor < read.base < read.Head())
            && (r.reply.Page? ==>
                  && r.reply.hostSeq == head && (!r.reply.more ==> r.reply.nextSeq == head)
                  && (r.reply.more ==> r.page != [] && r.reply.nextSeq == r.high > cursor && cursor >= read.base)
                  && (!r.reply.more && cursor < read.Head() ==>
                        cursor + |r.page| == read.Head() || cursor > head || read.base == read.Head()))
            && (r.reply.Page? && cursor <= head ==> cursor >= read.base || (read.base == read.Head() && r.page == []))
            && (r.reply.Page? || r.reply.Resync?)
  {
    SinceIsConsecutive(read, cursor, limit + 1);
  }

  /** The queue after one request: the response, what was deferred before the hold, the page in
      ascending order, the surviving held frames, and what came after the release. */
  lemma RequestOrder(s: SessionState, head: nat, read: Box, cursor: nat, limit: nat,
                     pre: seq<Frame>, live: seq<Frame>, post: seq<Frame>)
    requires read.base <= |read.log|
    requires s.phase == Ready && !s.closing && !s.inRequest && !s.holdLive && !s.replaying
    requires s.deferred == [] && s.held == []
    ensures var r := Serve(head, read, cursor, limit);
            var t := ServeRequest(s, head, read, cursor, limit, pre, live, post);
            var queued := [Res(r.reply)] + (pre + Frames(r.page) + Surviving(live, r.high) + post);
            && (!t.closing ==> t == s.(pending := s.pending + queued))
            && (|s.pending| + |queued| <= s.limit ==> !t.closing)
  {
    hide Serve, DeliverAll, ReplayAll, Surviving, EnqueueAll, Frames;
    var r := Serve(head, read, cursor, limit);
    var s1 := BeginRequest(s);
    DeliverAllDefers(s1, pre);
    var s2 := HoldLive(DeliverAll(s1, pre));
    DeliverAllHolds(s2, live);
    var s3 := DeliverAll(s2, live);
    ReplayAllDefers(s3, r.page);
    var s4 := ReplayAll(s3, r.page);
    assert s4.held == live && s4.deferred == pre + Frames(r.page);
    DeliverAllDefers(s4.(holdLive := false, held := []), Surviving(s4.held, r.high));
    var s5 := ReleaseLive(s4, r.high);
    DeliverAllDefers(s5, post);
    var s6 := DeliverAll(s5, post);
    assert s6.deferred == pre + Frames(r.page) + Surviving(live, r.high) + post;
    EnqueueAllAppends(s6.(inRequest := false, deferred := []), [Res(r.reply)] + s6.deferred);
  }

  lemma {:induction false} PageCounts(es: seq<Event>, first: nat, e: Event)
    requires forall i :: 0 <= i < |es| ==> es[i].s == first + i
    ensures multiset(Frames(es))[Evt(e)] == if e in es then 1 else 0
  {
    if es != [] {
      var front := es[..|es| - 1];
      PageCounts(front, first, e);
      assert Frames(es) == Frames(front) + [Evt(es[|es| - 1])];
      assert es == front + [es[|es| - 1]];
    }
  }

  lemma CountsAdd(a: seq<Frame>, b: seq<Frame>, f: Frame)
    ensures multiset(a + b)[f] == multiset(a)[f] + multiset(b)[f]
  {
  }

  lemma PageCarries(head: nat, read: Box, cursor: nat, limit: nat, e: Event)
    requires read.Valid() && head <= read.Head() && limit > 0 && cursor < e.s
    requires e.s <= read.Head() ==> read.At(e.s) == e
    ensures var r := Serve(head, read, cursor, limit);
            && (e in r.page <==> e.s <= cursor + |r.page|)
            && forall i :: 0 <= i < |r.page| ==> r.page[i].s == cursor + 1 + i
  {
    hide Serve;
    ServedPage(head, read, cursor, limit);
    var r := Serve(head, read, cursor, limit);
    if e.s <= cursor + |r.page| {
      assert r.page[e.s - cursor - 1] == e;
    }
  }

  /** An event above the cursor that was fanned out once while live frames were held reaches the
      queue at most once, and exactly once if it is above the head that was read or the cursor is
      not below the pruned rows; else the hold drops it and nothing replays it. */
  lemma HeldEventOnce(head: nat, read: Box, later: Box, cursor: nat, limit: nat,
                      live: seq<Frame>, e: Event)
    requires read.Valid() && later.Valid() && head <= read.Head() && read.log <= later.log && limit > 0
    requires cursor < e.s <= later.Head() && later.At(e.s) == e
    requires multiset(live)[Evt(e)] == 1
    ensures var r := Serve(head, read, cursor, limit);
            var copies := multiset(Frames(r.page) + Surviving(live, r.high))[Evt(e)];
            && copies <= 1
            && (copies == 1 <==> e.s > head || cursor >= read.base)
  {
    hide Surviving, Frames;
    ServedPage(head, read, cursor, limit);
    PageCarries(head, read, cursor, limit, e);
    var r := Serve(head, read, cursor, limit);
    PageCounts(r.page, cursor + 1, e);
    SurvivingCounts(live, r.high, Evt(e));
    CountsAdd(Frames(r.page), Surviving(live, r.high), Evt(e));
  }

  /** What the release drops: with a page, exactly the held events at or below the cursor and
      those the page already carries. */
  lemma DroppedAreCovered(head: nat, read: Box, cursor: nat, limit: nat, live: seq<Frame>, f: Frame)
    requires read.Valid() && head <= read.Head() && limit > 0 && f in live
    requires f.Evt? ==> 1 <= f.e.s && (f.e.s <= read.Head() ==> read.At(f.e.s) == f.e)
    ensures var r := Serve(head, read, cursor, limit);
            r.page != [] ==>
              (f !in Surviving(live, r.high) <==> f.Evt? && (f.e.s <= cursor || f.e in r.page))
  {
    ServedPage(head, read, cursor, limit);
    var r := Serve(head, read, cursor, limit);
    SurvivingMembers(live, r.high, f);
    if r.page != [] && f.Evt? && cursor < f.e.s <= r.high {
      assert r.page[f.e.s - cursor - 1] == f.e;
    }
  }

  /** The gap in the rule above is real: a store pruned to nothing answers an empty page, and the
      release drops an event the client has not seen. */
  lemma EmptiedStoreDropsHeldEvent()
    ensures var read := Box([Event(1, "k", "d")], 1);
            var r := Serve(1, read, 0, 200);
            && read.Valid()
            && r.reply == Page(1, 1, false) && r.page == []
            && Surviving([Evt(read.At(1))], r.high) == []
  {
    var live := [Evt(Event(1, "k", "d"))];
    assert live[..0] == [];
  }
}

/** The hub object: the outbox, the attached sessions, and the calls that change both. */
module Hub {
  import opened Outbox
  import opened SessionModel
  import opened HubModel
  import opened Session

  class Hub {
    var box: Box
    var peers: seq<SessionPeer>

    ghost predicate Valid()
      reads this
    {
      box.Valid() && forall i, j :: 0 <= i < j < |peers| ==> peers[i] != peers[j]
    }

    constructor ()
      ensures Valid() && box == Box([], 0) && peers == []
    {
      box, peers := Box([], 0), [];
    }

    method Attach(peer: SessionPeer)
      requires Valid()
      modifies this
      ensures Valid() && box == old(box)
      ensures peer in peers && forall p :: p in peers <==> p == peer || p in old(peers)
    {
      if peer !in peers {
        peers := peers + [peer];
      }
    }

    method Fanout(frame: Frame)
      requires Valid()
      modifies peers
      ensures forall p :: p in peers ==> p.Value() == Deliver(old(p.Value()), frame)
    {
      var i := 0;
      while i < |peers|
        invariant 0 <= i <= |peers|
        invariant forall j :: 0 <= j < i ==> peers[j].Value() == Deliver(old(peers[j].Value()), frame)
        invariant forall j :: i <= j < |peers| ==> peers[j].Value() == old(peers[j].Value())
      {
        peers[i].Deliver(frame);
        i := i + 1;
      }
    }

    /** The row is stored first, so a session that misses the frame can still read it. */
    method Emit(kind: string, data: string) returns (event: Event)
      requires Valid()
      modifies this, peers
      ensures Valid() && peers == old(peers)
      ensures box == old(box).Append(kind, data) && event == box.At(box.Head())
      ensures forall p :: p in peers ==> p.Value() == Deliver(old(p.Value()), Evt(event))
    {
      event := Event(|box.log| + 1, kind, data);
      box := box.Append(kind, data);
      Fanout(Evt(event));
    }

    /** `atHead` and `atRead` are the outbox at the two reads; `first` and `second` are the frames
        fanned out to the session while those reads were awaited. */
    method SyncSince(peer: SessionPeer, cursor: nat, limit: nat,
                     atHead: Box, first: seq<Frame>, atRead: Box, second: seq<Frame>)
      returns (reply: Reply)
      requires atRead.base <= |atRead.log|
      requires peer.phase == Ready && peer.inRequest && !peer.closing
      requires !peer.holdLive && !peer.replaying && peer.held == []
      modifies peer
      ensures var r := Serve(atHead.Head(), atRead, cursor, limit);
              && reply == r.reply
              && peer.Value() == old(peer.Value()).(
                   deferred := old(peer.deferred) + Frames(r.page) + Surviving(first + second, r.high))
    {
      hide DeliverAll, ReplayAll, Surviving, Frames;
      ghost var start := peer.Value();
      peer.HoldLive();
      Arrive(peer, first);
      var head := atHead.Head();
      Arrive(peer, second);
      DeliverAllHolds(HoldLive(start), first);
      assert start.held + first == first;
      DeliverAllHolds(HoldLive(start).(held := first), second);
      ghost var holding := HoldLive(start).(held := first + second);
      assert peer.Value() == holding;
      var high, page := head, [];
      reply := Page(head, head, false);
      if cursor <= head {
        match atRead.Since(cursor, limit + 1)
        case Gone(minSeq) =>
          reply := Reply.Resync(minSeq);
        case Found(rows) =>
          var more := |rows| > limit;
          page := if more then rows[..limit] else rows;
          if page != [] {
            high := page[|page| - 1].s;
          }
          reply := Page(head, if more then high else head, more);
      }
      ReplayPage(peer, page);
      ReplayAllDefers(holding, page);
      ghost var paged := holding.(deferred := start.deferred + Frames(page));
      assert peer.Value() == paged;
      peer.ReleaseLive(high);
      DeliverAllDefers(paged.(holdLive := false, held := []), Surviving(first + second, high));
    }

    method ReplayPage(peer: SessionPeer, page: seq<Event>)
      modifies peer
      ensures peer.Value() == ReplayAll(old(peer.Value()), page)
    {
      var i := 0;
      while i < |page|
        invariant 0 <= i <= |page|
        invariant peer.Value() == ReplayAll(old(peer.Value()), page[..i])
      {
        assert page[..i + 1][..i] == page[..i];
        peer.Replay(Evt(page[i]));
        i := i + 1;
      }
      assert page[..i] == page;
    }

    method Arrive(peer: SessionPeer, frames: seq<Frame>)
      modifies peer
      ensures peer.Value() == DeliverAll(old(peer.Value()), frames)
    {
      var i := 0;
      while i < |frames|
        invariant 0 <= i <= |frames|
        invariant peer.Value() == DeliverAll(old(peer.Value()), frames[..i])
      {
        assert frames[..i + 1][..i] == frames[..i];
        peer.Deliver(frames[i]);
        i := i + 1;
      }
      assert frames[..i] == frames;
    }
  }
}
