/** The web client's event cursor: what each frame does to it, as a function of the old state. */
module ClientModel {
  import opened Outbox
  import opened SessionModel

  const EVENT_BUFFER_CAP: nat := 500
  const SYNC_LIMIT: nat := 200

  /** No catch-up flight, or one whose outstanding request asked for events after `cursor`. */
  datatype Flight = NoFlight | Flying(cursor: nat)

  /** `handed` is what the event handlers got since the cursor was last reset, to `from`. */
  datatype ClientState = ClientState(
    lastSeq: nat,
    nextSeq: nat,
    welcomed: bool,
    buffered: map<nat, Event>,
    flight: Flight,
    again: bool,
    from: nat,
    handed: seq<Event>)

  /** The `sync.since` request a step sends, if it sends one. */
  datatype Sent = Silent | Ask(cursor: nat)

  datatype Moved = Moved(cl: ClientState, sent: Sent)

  function Started(lastSeq: nat): ClientState {
    ClientState(lastSeq, lastSeq + 1, false, map[], NoFlight, false, lastSeq, [])
  }

  function Reset(c: ClientState, lastSeq: nat, nextSeq: nat): ClientState {
    c.(lastSeq := lastSeq, nextSeq := nextSeq, from := lastSeq, handed := [])
  }

  function Fly(c: ClientState, cursor: nat): Moved {
    Moved(c.(flight := Flying(cursor), again := false), Ask(cursor))
  }

  function CatchUp(c: ClientState): Moved {
    if c.flight.Flying? then Moved(c.(again := true), Silent) else Fly(c, c.lastSeq)
  }

  function HandOver(c: ClientState): ClientState
    requires c.nextSeq in c.buffered
  {
    var e := c.buffered[c.nextSeq];
    c.(buffered := c.buffered - {c.nextSeq}, nextSeq := c.nextSeq + 1, lastSeq := e.s,
       handed := c.handed + [e])
  }

  /** Hands over the run of buffered events that starts at the cursor. */
  function Drain(c: ClientState): ClientState
    decreases c.buffered.Keys
  {
    if c.nextSeq in c.buffered then Drain(HandOver(c)) else c
  }

  function Keep(c: ClientState, e: Event): ClientState {
    c.(buffered := c.buffered[e.s := e])
  }

  /** A buffer over its cap is thrown away and fetched again; otherwise the run is handed over. */
  function Settle(c: ClientState): Moved {
    if |c.buffered| > EVENT_BUFFER_CAP then CatchUp(c.(buffered := map[]))
    else Moved(Drain(c), Silent)
  }

  function AcceptEvent(c: ClientState, e: Event): Moved {
    if e.s < c.nextSeq then Moved(c, Silent)
    else if e.s == c.nextSeq then Settle(Keep(c, e))
    else
      var gap := CatchUp(c);
      var settled := Settle(Keep(gap.cl, e));
      Moved(settled.cl, if gap.sent.Ask? then gap.sent else settled.sent)
  }

  function OnWelcome(c: ClientState, hostSeq: nat): Moved {
    var placed :=
      if hostSeq < c.lastSeq then Reset(c, 0, 1).(buffered := map[])
      else if !c.welcomed && c.lastSeq == 0 && hostSeq > 0 then Reset(c, hostSeq, hostSeq + 1)
      else c;
    CatchUp(placed.(welcomed := true))
  }

  /** The replay loop's continuation, once its outstanding request is answered. */
  function OnReply(c: ClientState, reply: Reply): Moved {
    if c.flight.NoFlight? then Moved(c, Silent)
    else
      match reply
      case Page(_, nextSeq, more) =>
        if more && nextSeq > c.flight.cursor then Fly(c, nextSeq)
        else if c.again then Fly(c, c.lastSeq)
        else Moved(c.(flight := NoFlight), Silent)
      case Resync(minSeq) =>
        var lastSeq := if minSeq == 0 then 0 else minSeq - 1;
        Fly(Reset(c, lastSeq, minSeq).(buffered := map[]), lastSeq)
      case Failed => Moved(c.(flight := NoFlight), Silent)
      case Other => Moved(c, Silent)
  }

  function OnFrame(c: ClientState, f: Frame): Moved {
    match f
    case Welcome(hostSeq) => OnWelcome(c, hostSeq)
    case Evt(e) => AcceptEvent(c, e)
    case Tick => Moved(c, Silent)
    case Res(reply) => OnReply(c, reply)
  }

  /** Every waiter of a closed socket is rejected, which ends the flight. */
  function OnClose(c: ClientState): ClientState {
    c.(flight := NoFlight)
  }

  // ---- agreement with a log ---------------------------------------------------------------

  ghost predicate Numbered(log: seq<Event>) {
    forall i :: 0 <= i < |log| ==> log[i].s == i + 1
  }

  /** What was handed over since the last reset is the log from there to the cursor. */
  ghost predicate Placed(c: ClientState, log: seq<Event>) {
    && c.nextSeq == c.lastSeq + 1
    && c.lastSeq == c.from + |c.handed|
    && c.lastSeq <= |log|
    && c.handed == log[c.from..c.lastSeq]
  }

  /** What is kept are entries of the log, at `next` or later. */
  ghost predicate Stocked(kept: map<nat, Event>, next: nat, log: seq<Event>) {
    forall k :: k in kept ==> next <= k <= |log| && k > 0 && kept[k] == log[k - 1]
  }

  ghost predicate Near(c: ClientState, log: seq<Event>) {
    Numbered(log) && Placed(c, log) && Stocked(c.buffered, c.nextSeq, log)
  }

  /** The client agrees with `log`, and waits for the event its cursor names. */
  ghost predicate Agrees(c: ClientState, log: seq<Event>) {
    && Near(c, log)
    && c.nextSeq !in c.buffered
    && |c.buffered| <= EVENT_BUFFER_CAP
  }

  lemma AgreesWithin(c: ClientState, log: seq<Event>)
    requires Agrees(c, log)
    ensures c.lastSeq <= |log| && Numbered(log)
  {
  }

  lemma MapPutSize<K, V>(m: map<K, V>, k: K, v: V)
    ensures |m[k := v]| == if k in m then |m| else |m| + 1
  {
    assert m[k := v].Keys == m.Keys + {k};
  }

  lemma MapDropSize<K, V>(m: map<K, V>, k: K)
    requires k in m
    ensures |m - {k}| == |m| - 1
  {
    assert m.Keys == (m - {k}).Keys + {k};
  }

  /** A delivery may only move a client forward: nothing it kept is lost, nothing is invented. */
  ghost predicate Forward(c: ClientState, d: ClientState) {
    && c.lastSeq <= d.lastSeq
    && d.from == c.from && c.handed <= d.handed
    && (forall k :: k in d.buffered ==> k in c.buffered)
    && (forall k :: k in c.buffered ==> k <= d.lastSeq || k in d.buffered)
  }

  lemma HandOverAgrees(c: ClientState, log: seq<Event>)
    requires Near(c, log) && c.nextSeq in c.buffered
    ensures Near(HandOver(c), log) && Forward(c, HandOver(c))
    ensures |HandOver(c).buffered| < |c.buffered|
  {
    hide Stocked;
    HandOverPlaced(c, log);
    HandOverStocked(c.buffered, c.nextSeq, log);
    MapDropSize(c.buffered, c.nextSeq);
    assert c.buffered[c.nextSeq].s == c.nextSeq by {
      StockedAt(c.buffered, c.nextSeq, log, c.nextSeq);
    }
  }

  lemma StockedAt(kept: map<nat, Event>, next: nat, log: seq<Event>, k: nat)
    requires Stocked(kept, next, log) && Numbered(log) && k in kept
    ensures kept[k].s == k && 0 < k <= |log| && kept[k] == log[k - 1]
  {
  }

  lemma HandOverPlaced(c: ClientState, log: seq<Event>)
    requires Near(c, log) && c.nextSeq in c.buffered
    ensures Placed(HandOver(c), log)
  {
    hide Stocked;
    StockedAt(c.buffered, c.nextSeq, log, c.nextSeq);
    assert log[c.from..c.lastSeq + 1] == log[c.from..c.lastSeq] + [log[c.lastSeq]];
  }

  lemma HandOverStocked(kept: map<nat, Event>, next: nat, log: seq<Event>)
    requires Stocked(kept, next, log)
    ensures Stocked(kept - {next}, next + 1, log)
  {
  }

  lemma {:induction false} DrainAgrees(c: ClientState, log: seq<Event>)
    requires Near(c, log)
    ensures var d := Drain(c);
            && Near(d, log) && d.nextSeq !in d.buffered && |d.buffered| <= |c.buffered|
            && Forward(c, d)
            && d.flight == c.flight && d.again == c.again && d.welcomed == c.welcomed
            && (c.nextSeq in c.buffered ==> |d.buffered| < |c.buffered|)
    decreases c.buffered.Keys
  {
    if c.nextSeq in c.buffered {
      HandOverAgrees(c, log);
      DrainAgrees(HandOver(c), log);
    }
  }

  /** Storing an event of the log next to what is kept already. */
  lemma KeepNear(c: ClientState, log: seq<Event>, e: Event)
    requires Agrees(c, log) && c.nextSeq <= e.s <= |log| && log[e.s - 1] == e
    ensures Near(Keep(c, e), log) && |Keep(c, e).buffered| <= |c.buffered| + 1
  {
    assert Placed(Keep(c, e), log);
    hide Placed;
    MapPutSize(c.buffered, e.s, e);
  }

  /** What a settled buffer keeps, and when it asks again. */
  lemma SettleAgrees(c: ClientState, log: seq<Event>)
    requires Near(c, log)
    ensures var d := Settle(c);
            && Agrees(d.cl, log) && d.cl.welcomed == c.welcomed
            && d.cl.from == c.from && c.handed <= d.cl.handed && c.lastSeq <= d.cl.lastSeq
            && (forall k :: k in d.cl.buffered ==> k in c.buffered)
            && (|c.buffered| <= EVENT_BUFFER_CAP ==>
                  Forward(c, d.cl) && d.cl.flight == c.flight && d.cl.again == c.again && d.sent.Silent?)
            && (|c.buffered| > EVENT_BUFFER_CAP ==> d == CatchUp(c.(buffered := map[])))
  {
    DrainAgrees(c, log);
  }

  /** A client that agrees, and has reached or keeps the event it waited for, has reached it. */
  lemma ReachesNext(c: ClientState, d: ClientState, log: seq<Event>)
    requires Agrees(c, log) && Agrees(d, log) && c.lastSeq <= d.lastSeq
    requires c.nextSeq <= d.lastSeq || c.nextSeq in d.buffered
    ensures c.nextSeq <= d.lastSeq
  {
  }

  lemma NextIsAfter(c: ClientState, log: seq<Event>)
    requires Agrees(c, log)
    ensures c.nextSeq == c.lastSeq + 1
  {
  }

  lemma AgreesInGap(c: ClientState, log: seq<Event>)
    requires Agrees(c, log)
    ensures var d := CatchUp(c).cl; Agrees(d, log) && d == c.(flight := d.flight, again := d.again)
  {
  }

  lemma AcceptNextAgrees(c: ClientState, log: seq<Event>, e: Event)
    requires Agrees(c, log) && e.s == c.nextSeq && 1 <= e.s <= |log| && log[e.s - 1] == e
    ensures var d := AcceptEvent(c, e).cl;
            && Agrees(d, log)
            && d.from == c.from && c.handed <= d.handed && c.lastSeq <= d.lastSeq
            && d.welcomed == c.welcomed
            && (|c.buffered| < EVENT_BUFFER_CAP ==> e.s <= d.lastSeq)
            && (forall k :: k in d.buffered ==> k in c.buffered || k == e.s)
  {
    hide Near, Settle;
    KeepNear(c, log, e);
    SettleAgrees(Keep(c, e), log);
    assert e.s in Keep(c, e).buffered;
    var d := AcceptEvent(c, e).cl;
    if |c.buffered| < EVENT_BUFFER_CAP {
      ReachesNext(c, d, log);
    }
  }

  lemma AcceptLaterAgrees(c: ClientState, log: seq<Event>, e: Event)
    requires Agrees(c, log) && e.s > c.nextSeq && 1 <= e.s <= |log| && log[e.s - 1] == e
    ensures var d := AcceptEvent(c, e).cl;
            && Agrees(d, log)
            && d.from == c.from && c.handed <= d.handed && c.lastSeq <= d.lastSeq
            && d.welcomed == c.welcomed
            && (forall k :: k in d.buffered ==> k in c.buffered || k == e.s)
  {
    hide Near, Settle;
    AgreesInGap(c, log);
    KeepNear(CatchUp(c).cl, log, e);
    SettleAgrees(Keep(CatchUp(c).cl, e), log);
  }

  /** One event of the log keeps the agreement, and the event the cursor waits for is handed
      over whenever the buffer has room for it. */
  lemma AcceptAgrees(c: ClientState, log: seq<Event>, e: Event)
    requires Agrees(c, log) && 1 <= e.s <= |log| && log[e.s - 1] == e
    ensures var d := AcceptEvent(c, e).cl;
            && Agrees(d, log)
            && d.from == c.from && c.handed <= d.handed && c.lastSeq <= d.lastSeq
            && d.welcomed == c.welcomed
            && (e.s == c.nextSeq && |c.buffered| < EVENT_BUFFER_CAP ==> e.s <= d.lastSeq)
            && (forall k :: k in d.buffered ==> k in c.buffered || k == e.s)
  {
    hide Agrees, Settle;
    if e.s == c.nextSeq {
      AcceptNextAgrees(c, log, e);
    } else if e.s > c.nextSeq {
      AcceptLaterAgrees(c, log, e);
    }
  }

  /** With no flight in the air, a gap or an overflow starts one; any other event loses nothing
      that the client keeps. */
  lemma AcceptWithoutFlight(c: ClientState, log: seq<Event>, e: Event)
    requires Agrees(c, log) && 1 <= e.s <= |log| && log[e.s - 1] == e
    requires c.flight.NoFlight?
    ensures var d := AcceptEvent(c, e);
            && (d.cl.flight.NoFlight? ==>
                  && e.s <= d.cl.lastSeq && e.s <= c.nextSeq && d.sent.Silent?
                  && (forall k :: k in c.buffered ==> k <= d.cl.lastSeq || k in d.cl.buffered))
            && (d.cl.flight.Flying? ==>
                  d.cl.flight.cursor <= d.cl.lastSeq && d.sent == Ask(d.cl.flight.cursor))
  {
    hide Near, Settle;
    NextIsAfter(c, log);
    if e.s == c.nextSeq {
      KeepNear(c, log, e);
      SettleAgrees(Keep(c, e), log);
      assert e.s in Keep(c, e).buffered;
      if |Keep(c, e).buffered| <= EVENT_BUFFER_CAP {
        ReachesNext(c, Settle(Keep(c, e)).cl, log);
      }
    } else if e.s > c.nextSeq {
      AgreesInGap(c, log);
      KeepNear(CatchUp(c).cl, log, e);
      SettleAgrees(Keep(CatchUp(c).cl, e), log);
    }
  }

  /** During a flight, an event either ends up handed over or makes the loop run once more. */
  lemma AcceptDuringFlight(c: ClientState, log: seq<Event>, e: Event)
    requires Agrees(c, log) && 1 <= e.s <= |log| && log[e.s - 1] == e
    requires c.flight.Flying?
    ensures var d := AcceptEvent(c, e);
            && d.sent.Silent? && d.cl.flight == c.flight
            && (c.again ==> d.cl.again)
            && (d.cl.again || e.s <= d.cl.lastSeq)
  {
    hide Near, Settle;
    NextIsAfter(c, log);
    if e.s == c.nextSeq {
      KeepNear(c, log, e);
      SettleAgrees(Keep(c, e), log);
      assert e.s in Keep(c, e).buffered;
      if |Keep(c, e).buffered| <= EVENT_BUFFER_CAP {
        ReachesNext(c, Settle(Keep(c, e)).cl, log);
      }
    } else if e.s > c.nextSeq {
      AgreesInGap(c, log);
      KeepNear(CatchUp(c).cl, log, e);
      SettleAgrees(Keep(CatchUp(c).cl, e), log);
    }
  }
}

/** The connection's closure variables and the handlers that change them. */
module Client {
  import opened Outbox
  import opened SessionModel
  import opened ClientModel
  import Model = ClientModel

  class Connection {
    var lastSeq: nat
    var nextSeq: nat
    var welcomed: bool
    var buffered: map<nat, Event>
    var flight: Flight
    var again: bool
    ghost var from: nat
    var handed: seq<Event>

    ghost function Value(): ClientState
      reads this
    {
      ClientState(lastSeq, nextSeq, welcomed, buffered, flight, again, from, handed)
    }

    constructor (start: nat)
      ensures Value() == Started(start)
    {
      lastSeq, nextSeq, welcomed, buffered := start, start + 1, false, map[];
      flight, again, from, handed := NoFlight, false, start, [];
    }

    /** Begins a flight, or tells the one in the air to look again. */
    method CatchUp() returns (sent: Sent)
      modifies this
      ensures Moved(Value(), sent) == Model.CatchUp(old(Value()))
    {
      if flight.Flying? {
        again := true;
        sent := Silent;
      } else {
        again := false;
        flight := Flying(lastSeq);
        sent := Ask(lastSeq);
      }
    }

    method AcceptEvent(e: Event) returns (sent: Sent)
      modifies this
      ensures Moved(Value(), sent) == Model.AcceptEvent(old(Value()), e)
    {
      sent := Silent;
      if e.s < nextSeq { return; }
      if e.s > nextSeq {
        sent := CatchUp();
      }
      buffered := buffered[e.s := e];
      if |buffered| > EVENT_BUFFER_CAP {
        buffered := map[];
        var more := CatchUp();
        sent := if sent.Ask? then sent else more;
        return;
      }
      HandOverRun();
    }

    method HandOverRun()
      modifies this
      ensures Value() == Model.Drain(old(Value()))
    {
      while nextSeq in buffered
        invariant Model.Drain(Value()) == Model.Drain(old(Value()))
        decreases buffered.Keys
      {
        var event := buffered[nextSeq];
        buffered := buffered - {nextSeq};
        nextSeq := nextSeq + 1;
        lastSeq := event.s;
        handed := handed + [event];
      }
    }

    method OnWelcome(hostSeq: nat) returns (sent: Sent)
      modifies this
      ensures Moved(Value(), sent) == Model.OnWelcome(old(Value()), hostSeq)
    {
      if hostSeq < lastSeq {
        lastSeq, nextSeq, buffered := 0, 1, map[];
        from, handed := 0, [];
      } else if !welcomed && lastSeq == 0 && hostSeq > 0 {
        lastSeq, nextSeq := hostSeq, hostSeq + 1;
        from, handed := hostSeq, [];
      }
      welcomed := true;
      sent := CatchUp();
    }

    method OnReply(reply: Reply) returns (sent: Sent)
      modifies this
      ensures Moved(Value(), sent) == Model.OnReply(old(Value()), reply)
    {
      sent := Silent;
      if flight.NoFlight? { return; }
      match reply
      case Resync(minSeq) =>
        lastSeq := if minSeq == 0 then 0 else minSeq - 1;
        nextSeq := minSeq;
        from, handed := lastSeq, [];
        buffered := map[];
        sent := AskFor(lastSeq);
      case Failed =>
        flight := NoFlight;
      case Other =>
      case Page(_, next, more) =>
        if more && next > flight.cursor {
          sent := AskFor(next);
        } else if again {
          sent := AskFor(lastSeq);
        } else {
          flight := NoFlight;
        }
    }

    /** One round of the replay loop: forget older hints, then ask for the page at `cursor`. */
    method AskFor(cursor: nat) returns (sent: Sent)
      modifies this
      ensures Moved(Value(), sent) == Fly(old(Value()), cursor)
    {
      again := false;
      flight := Flying(cursor);
      sent := Ask(cursor);
    }

    method OnClose()
      modifies this
      ensures Value() == Model.OnClose(old(Value()))
    {
      flight := NoFlight;
    }
  }
}
