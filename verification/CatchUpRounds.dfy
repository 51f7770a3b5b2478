/** Does catching up end once nothing new is emitted? Not always: the exact condition. */
module CatchUpRounds {
  import opened Outbox
  import opened SessionModel
  import opened HubModel
  import opened ClientModel

  /** The client receives the events after `a` up to `b`, in order. */
  function Arrive(c: ClientState, log: seq<Event>, a: nat, b: nat): ClientState
    requires a <= b <= |log|
    decreases b
  {
    if a == b then c else AcceptEvent(Arrive(c, log, a, b - 1), log[b - 1]).cl
  }

  /** All pages of one flight, in the order the session sends them: each response, then its
      events. `k` is the cursor of the outstanding request. */
  function Round(c: ClientState, log: seq<Event>, k: nat): ClientState
    requires k <= |log|
    decreases |log| - k
  {
    var more := |log| - k > SYNC_LIMIT;
    var next := if more then k + SYNC_LIMIT else |log|;
    var after := Arrive(OnReply(c, Page(|log|, next, more)).cl, log, k, next);
    if more then Round(after, log, next) else after
  }

  /** The response and page a full log gives for one request are the ones `Round` plays. */
  lemma RoundPlaysServe(log: seq<Event>, base: nat, k: nat)
    requires base <= k <= |log| && Box(log, base).Valid()
    ensures var more := |log| - k > SYNC_LIMIT;
            var next := if more then k + SYNC_LIMIT else |log|;
            var r := Serve(|log|, Box(log, base), k, SYNC_LIMIT);
            r.reply == Page(|log|, next, more) && r.page == log[k..next]
  {
    var more := |log| - k > SYNC_LIMIT;
    var rows := Box(log, base).Since(k, SYNC_LIMIT + 1).rows;
    if more {
      assert rows == log[k..k + SYNC_LIMIT + 1];
      assert rows[..SYNC_LIMIT] == log[k..k + SYNC_LIMIT];
    }
  }

  /** Rounds follow one another while the flight is in the air. */
  function Rounds(c: ClientState, log: seq<Event>, n: nat): ClientState {
    if n == 0 then c
    else
      var d := Rounds(c, log, n - 1);
      if d.flight.Flying? && d.flight.cursor <= |log| then Round(d, log, d.flight.cursor) else d
  }

  /** A client whose only hope is the page it asked for: nothing else is on its way. */
  ghost predicate Waiting(c: ClientState, log: seq<Event>) {
    Agrees(c, log) && c.flight.Flying? && c.flight.cursor <= c.lastSeq
  }

  lemma AgreesInFlight(c: ClientState, log: seq<Event>, flight: Flight, again: bool)
    requires Agrees(c, log)
    ensures Agrees(c.(flight := flight, again := again), log) && Numbered(log) && c.nextSeq == c.lastSeq + 1
  {
  }

  lemma AcceptInOrder(c: ClientState, log: seq<Event>, b: nat)
    requires Agrees(c, log) && 1 <= b <= c.nextSeq && b <= |log|
    requires |c.buffered| < EVENT_BUFFER_CAP
    ensures var d := AcceptEvent(c, log[b - 1]).cl;
            && |d.buffered| < EVENT_BUFFER_CAP && b <= d.lastSeq
            && d.flight == c.flight && d.again == c.again
  {
    if b == c.nextSeq {
      KeepNear(c, log, log[b - 1]);
      assert b in Keep(c, log[b - 1]).buffered;
      DrainAgrees(Keep(c, log[b - 1]), log);
    }
  }

  lemma {:induction false} ArriveInOrder(c: ClientState, log: seq<Event>, a: nat, b: nat)
    requires Agrees(c, log) && a <= b <= |log| && a <= c.lastSeq
    requires |c.buffered| < EVENT_BUFFER_CAP
    ensures var d := Arrive(c, log, a, b);
            && Agrees(d, log) && |d.buffered| < EVENT_BUFFER_CAP
            && b <= d.lastSeq && c.lastSeq <= d.lastSeq
            && d.flight == c.flight && d.again == c.again
    decreases b
  {
    hide AcceptEvent, Near;
    if a < b {
      ArriveInOrder(c, log, a, b - 1);
      AgreesInFlight(Arrive(c, log, a, b - 1), log, c.flight, c.again);
      AcceptInOrder(Arrive(c, log, a, b - 1), log, b);
      AcceptAgrees(Arrive(c, log, a, b - 1), log, log[b - 1]);
    }
  }

  /** The size of a buffer that starts with `size` events after `n` more that it cannot use:
      the 501st empties it. */
  function Filled(size: nat, n: nat): nat
  {
    if n == 0 then size
    else
      var before := Filled(size, n - 1);
      if before == EVENT_BUFFER_CAP then 0 else before + 1
  }

  lemma NextModulo(x: nat)
    ensures (x + 1) % 501 == if x % 501 == 500 then 0 else x % 501 + 1
  {
  }

  lemma {:induction false} FilledWraps(size: nat, n: nat)
    requires size <= EVENT_BUFFER_CAP
    ensures Filled(size, n) == (size + n) % (EVENT_BUFFER_CAP + 1)
  {
    if n > 0 {
      FilledWraps(size, n - 1);
      NextModulo(size + n - 1);
    }
  }

  lemma {:induction false} FilledInTwo(size: nat, m: nat, n: nat)
    ensures Filled(Filled(size, m), n) == Filled(size, m + n)
  {
    if n > 0 {
      FilledInTwo(size, m, n - 1);
    }
  }

  lemma AcceptBehindGap(c: ClientState, log: seq<Event>, b: nat)
    requires Agrees(c, log) && c.flight.Flying? && c.nextSeq < b <= |log|
    requires forall k :: k in c.buffered ==> k < b
    ensures var d := AcceptEvent(c, log[b - 1]).cl;
            && d == c.(buffered := d.buffered, again := true)
            && (forall k :: k in d.buffered ==> k <= b)
            && |d.buffered| == if |c.buffered| == EVENT_BUFFER_CAP then 0 else |c.buffered| + 1
  {
    var kept := Keep(CatchUp(c).cl, log[b - 1]);
    assert kept.buffered.Keys == c.buffered.Keys + {b};
    assert |kept.buffered| == |c.buffered| + 1;
  }

  /** Behind a missing event the buffer only fills, and empties at every 501st arrival. */
  lemma {:induction false} ArriveBehindGap(c: ClientState, log: seq<Event>, a: nat, b: nat)
    requires Agrees(c, log) && c.flight.Flying? && c.nextSeq <= a <= b <= |log|
    requires forall k :: k in c.buffered ==> k <= a
    ensures var d := Arrive(c, log, a, b);
            && Agrees(d, log)
            && d == c.(buffered := d.buffered, again := d.again)
            && (forall k :: k in d.buffered ==> k <= b)
            && |d.buffered| == Filled(|c.buffered|, b - a)
            && (a < b ==> d.again)
    decreases b
  {
    hide AcceptEvent;
    if a < b {
      ArriveBehindGap(c, log, a, b - 1);
      var d := Arrive(c, log, a, b - 1);
      AcceptBehindGap(d, log, b);
      AcceptAgrees(d, log, log[b - 1]);
    }
  }

  /** A round that starts with room in the buffer delivers the whole log and lands. */
  lemma {:induction false} RoundLands(c: ClientState, log: seq<Event>, k: nat)
    requires Agrees(c, log) && c.flight == Flying(k) && k <= c.lastSeq && !c.again
    requires |c.buffered| < EVENT_BUFFER_CAP
    ensures var d := Round(c, log, k);
            d.flight.NoFlight? && d.lastSeq == |log| && Agrees(d, log)
    decreases |log| - k
  {
    var more := |log| - k > SYNC_LIMIT;
    var next := if more then k + SYNC_LIMIT else |log|;
    var asked := OnReply(c, Page(|log|, next, more)).cl;
    ArriveInOrder(asked, log, k, next);
    if more {
      RoundLands(Arrive(asked, log, k, next), log, next);
    }
  }

  lemma {:induction false} RoundBehindGap(c: ClientState, log: seq<Event>, k: nat)
    requires Agrees(c, log) && c.flight == Flying(k) && c.nextSeq <= k <= |log| && c.again
    requires forall i :: i in c.buffered ==> i <= k
    ensures var d := Round(c, log, k);
            && Agrees(d, log)
            && d == c.(buffered := d.buffered, again := d.again, flight := Flying(c.lastSeq))
            && |d.buffered| == Filled(|c.buffered|, |log| - k)
    decreases |log| - k
  {
    hide Arrive, Near, Filled;
    var more := |log| - k > SYNC_LIMIT;
    var next := if more then k + SYNC_LIMIT else |log|;
    var asked := OnReply(c, Page(|log|, next, more)).cl;
    AgreesInFlight(c, log, asked.flight, asked.again);
    ArriveBehindGap(asked, log, k, next);
    var after := Arrive(asked, log, k, next);
    if more {
      RoundBehindGap(after, log, next);
      FilledInTwo(|c.buffered|, next - k, |log| - next);
    }
  }

  /** Keys of a client that agrees with a log lie between its cursor and the end of the log. */
  lemma BufferFitsLog(c: ClientState, log: seq<Event>)
    requires Agrees(c, log)
    ensures c.nextSeq == c.lastSeq + 1 && c.lastSeq + |c.buffered| <= |log|
    ensures |c.buffered| > 0 ==> c.nextSeq + |c.buffered| <= |log|
  {
    KeysInRange(c.buffered.Keys, c.nextSeq, |log|);
  }

  lemma {:induction false} KeysInRange(keys: set<nat>, a: nat, b: nat)
    requires forall k :: k in keys ==> a < k <= b
    ensures |keys| <= if a < b then b - a else 0
    decreases b
  {
    if a < b {
      KeysInRange(keys - {b}, a, b - 1);
      if b in keys {
        assert keys == (keys - {b}) + {b};
      } else {
        assert keys == keys - {b};
      }
    } else {
      assert keys == {};
    }
  }

  lemma AcceptOverflows(c: ClientState, log: seq<Event>)
    requires Agrees(c, log) && c.flight.Flying? && |c.buffered| == EVENT_BUFFER_CAP
    requires c.lastSeq < |log|
    ensures AcceptEvent(c, log[c.lastSeq]).cl == c.(buffered := map[], again := true)
  {
    assert Keep(c, log[c.lastSeq]).buffered.Keys == c.buffered.Keys + {c.nextSeq};
  }

  lemma {:induction false} ArriveSplit(c: ClientState, log: seq<Event>, a: nat, m: nat, b: nat)
    requires a <= m <= b <= |log|
    ensures Arrive(c, log, a, b) == Arrive(Arrive(c, log, a, m), log, m, b)
    decreases b
  {
    hide AcceptEvent;
    if m < b {
      ArriveSplit(c, log, a, m, b - 1);
    }
  }

  /** Events the client has handed over before change nothing. */
  lemma {:induction false} ArriveAgain(c: ClientState, log: seq<Event>, a: nat, b: nat)
    requires Numbered(log) && a <= b <= |log| && b < c.nextSeq
    ensures Arrive(c, log, a, b) == c
    decreases b
  {
    if a < b {
      ArriveAgain(c, log, a, b - 1);
    }
  }

  /** A page that holds the awaited event, read into a full buffer. */
  lemma PageOverflows(c: ClientState, log: seq<Event>, a: nat, next: nat)
    requires Agrees(c, log) && c.flight.Flying? && |c.buffered| == EVENT_BUFFER_CAP
    requires a <= c.lastSeq && c.nextSeq <= next <= |log|
    ensures var d := Arrive(c, log, a, next);
            && d == c.(buffered := d.buffered, again := true)
            && Agrees(d, log)
            && (forall i :: i in d.buffered ==> i <= next)
            && |d.buffered| == Filled(0, next - c.nextSeq)
  {
    hide AcceptEvent;
    ArriveSplit(c, log, a, c.lastSeq, next);
    ArriveAgain(c, log, a, c.lastSeq);
    AcceptOverflows(c, log);
    ArriveFrom(c, log, c.lastSeq, next);
    var first := c.(buffered := map[], again := true);
    ArriveBehindGap(first, log, c.nextSeq, next);
  }

  /** A round that starts with a full buffer throws away the very event it waited for. */
  lemma {:induction false} RoundOverflows(c: ClientState, log: seq<Event>, k: nat)
    requires Waiting(c, log) && c.flight == Flying(k) && |c.buffered| == EVENT_BUFFER_CAP
    ensures c.nextSeq <= |log| && k <= |log|
    ensures var d := Round(c, log, k);
            && Agrees(d, log)
            && d == c.(buffered := d.buffered, again := d.again, flight := Flying(c.lastSeq))
            && |d.buffered| == Filled(0, |log| - c.nextSeq)
    decreases |log| - k
  {
    hide Arrive, Filled, Near;
    assert c.nextSeq == c.lastSeq + 1 && c.nextSeq + EVENT_BUFFER_CAP <= |log| by {
      BufferFitsLog(c, log);
    }
    var next := k + SYNC_LIMIT;
    var asked := c.(flight := Flying(next), again := false);
    assert OnReply(c, Page(|log|, next, true)).cl == asked;
    AgreesInFlight(c, log, Flying(next), false);
    if next <= c.lastSeq {
      ArriveAgain(asked, log, k, next);
      RoundOverflows(asked, log, next);
    } else {
      PageOverflows(asked, log, k, next);
      RoundBehindGap(Arrive(asked, log, k, next), log, next);
      FilledInTwo(0, next - c.nextSeq, |log| - next);
    }
  }

  lemma {:induction false} ArriveFrom(c: ClientState, log: seq<Event>, a: nat, b: nat)
    requires a < b <= |log|
    ensures Arrive(c, log, a, b) == Arrive(AcceptEvent(c, log[a]).cl, log, a + 1, b)
    decreases b
  {
    hide AcceptEvent;
    if a + 1 < b {
      ArriveFrom(c, log, a, b - 1);
    } else {
      assert Arrive(c, log, a, a) == c;
    }
  }

  /** The client will never leave this state while nothing new is emitted. */
  predicate Wedged(c: ClientState, log: seq<Event>) {
    |c.buffered| == EVENT_BUFFER_CAP && (|log| - c.nextSeq) % (EVENT_BUFFER_CAP + 1) == EVENT_BUFFER_CAP
  }

  lemma WedgedStays(c: ClientState, log: seq<Event>)
    requires Waiting(c, log) && Wedged(c, log)
    ensures c.flight.cursor <= |log|
    ensures var d := Round(c, log, c.flight.cursor);
            && Waiting(d, log) && Wedged(d, log)
            && d.flight == Flying(c.lastSeq) && d.lastSeq == c.lastSeq && d.handed == c.handed
  {
    hide Round, Filled, Near;
    RoundOverflows(c, log, c.flight.cursor);
    FilledWraps(0, |log| - c.nextSeq);
  }

  lemma {:induction false} WedgedForever(c: ClientState, log: seq<Event>, n: nat)
    requires Waiting(c, log) && Wedged(c, log)
    ensures var d := Rounds(c, log, n);
            && Waiting(d, log) && Wedged(d, log)
            && d.lastSeq == c.lastSeq && d.handed == c.handed
            && d.flight == if n == 0 then c.flight else Flying(c.lastSeq)
  {
    hide Near, Round;
    if n > 0 {
      WedgedForever(c, log, n - 1);
      WedgedStays(Rounds(c, log, n - 1), log);
    }
  }

  /** A waiting client with room in its buffer is caught up by the next round. A hint left over
      from before is forgotten unless that round is a single page. */
  lemma LandsInOneRound(c: ClientState, log: seq<Event>)
    requires Waiting(c, log) && |c.buffered| < EVENT_BUFFER_CAP
    requires c.again ==> |log| - c.flight.cursor > SYNC_LIMIT
    ensures c.flight.cursor <= |log|
    ensures var d := Round(c, log, c.flight.cursor);
            d.flight.NoFlight? && d.lastSeq == |log| && Agrees(d, log)
  {
    hide Arrive;
    RoundLands(c.(again := false), log, c.flight.cursor);
  }

  /** A hint left over makes a single page be followed by one more request, and all arrives. */
  lemma LandsAfterHint(c: ClientState, log: seq<Event>)
    requires Waiting(c, log) && |c.buffered| < EVENT_BUFFER_CAP
    requires c.again && |log| - c.flight.cursor <= SYNC_LIMIT
    ensures c.flight.cursor <= |log|
    ensures var d := Round(c, log, c.flight.cursor);
            && d.flight == Flying(c.lastSeq) && c.lastSeq <= |log|
            && var e := Round(d, log, c.lastSeq);
            && e.flight.NoFlight? && e.lastSeq == |log| && Agrees(e, log)
  {
    hide Arrive;
    ArriveInOrder(Fly(c, c.lastSeq).cl, log, c.flight.cursor, |log|);
    RoundLands(Round(c, log, c.flight.cursor), log, c.lastSeq);
  }

  /** A round that starts with a full buffer is followed by one that lands, unless the buffer is
      full again. */
  lemma LandsInTwoRounds(c: ClientState, log: seq<Event>)
    requires Waiting(c, log) && |c.buffered| == EVENT_BUFFER_CAP && !Wedged(c, log)
    ensures c.flight.cursor <= |log|
    ensures var d := Round(c, log, c.flight.cursor);
            && d.flight == Flying(c.lastSeq) && c.lastSeq <= |log|
            && var e := Round(d, log, c.lastSeq);
            && e.flight.NoFlight? && e.lastSeq == |log| && Agrees(e, log)
  {
    hide Round, Filled, Near;
    BufferFitsLog(c, log);
    RoundOverflows(c, log, c.flight.cursor);
    FilledWraps(0, |log| - c.nextSeq);
    LandsInOneRound(Round(c, log, c.flight.cursor), log);
  }

  lemma TwoRounds(c: ClientState, log: seq<Event>, k: nat)
    requires c.flight == Flying(k) && k <= |log|
    ensures var d := Round(c, log, k);
            && Rounds(c, log, 1) == d
            && (d.flight.NoFlight? ==> Rounds(c, log, 2) == d)
            && (d.flight.Flying? && d.flight.cursor <= |log| ==> Rounds(c, log, 2) == Round(d, log, d.flight.cursor))
  {
    hide Round;
    assert Rounds(c, log, 0) == c;
    assert Rounds(c, log, 1) == Round(c, log, k);
  }

  /** Without new events, a waiting client is caught up after at most two rounds, exactly unless
      it is wedged; a wedged one asks for the same page in every round and hands over nothing. */
  lemma CatchUpEndsUnlessWedged(c: ClientState, log: seq<Event>)
    requires Waiting(c, log)
    ensures Wedged(c, log) <==> Rounds(c, log, 2).flight.Flying?
    ensures !Wedged(c, log) ==>
              Rounds(c, log, 2).lastSeq == |log| && Agrees(Rounds(c, log, 2), log)
    ensures Wedged(c, log) ==>
              forall n: nat :: n > 0 ==>
                Rounds(c, log, n).flight == Flying(c.lastSeq) && Rounds(c, log, n).handed == c.handed
  {
    hide Round, Rounds, Near;
    assert c.lastSeq <= |log| by {
      BufferFitsLog(c, log);
    }
    TwoRounds(c, log, c.flight.cursor);
    if Wedged(c, log) {
      forall n: nat | n > 0
        ensures Rounds(c, log, n).flight == Flying(c.lastSeq) && Rounds(c, log, n).handed == c.handed
      {
        WedgedForever(c, log, n);
      }
      assert Rounds(c, log, 2).flight.Flying?;
    } else if |c.buffered| == EVENT_BUFFER_CAP {
      LandsInTwoRounds(c, log);
    } else if c.again && |log| - c.flight.cursor <= SYNC_LIMIT {
      LandsAfterHint(c, log);
    } else {
      LandsInOneRound(c, log);
    }
  }

  lemma AcceptPastGap(c: ClientState, log: seq<Event>, b: nat)
    requires Agrees(c, log) && c.flight.Flying? && c.nextSeq < b <= |log|
    ensures var d := AcceptEvent(c, log[b - 1]).cl;
            d == c.(buffered := d.buffered, again := true) && Agrees(d, log)
  {
    AcceptAgrees(c, log, log[b - 1]);
  }

  lemma {:induction false} ArrivePastGap(c: ClientState, log: seq<Event>, a: nat, b: nat)
    requires Agrees(c, log) && c.flight.Flying? && c.nextSeq <= a <= b <= |log|
    ensures var d := Arrive(c, log, a, b);
            d == c.(buffered := d.buffered, again := c.again || a < b) && Agrees(d, log)
    decreases b
  {
    hide AcceptEvent, Agrees;
    if a < b {
      ArrivePastGap(c, log, a, b - 1);
      AcceptPastGap(Arrive(c, log, a, b - 1), log, b);
    }
  }

  /** A flight that is ahead of a gap comes back to the gap: after its last page the client waits
      for the page at its own cursor. */
  lemma {:induction false} RoundReturns(c: ClientState, log: seq<Event>, k: nat)
    requires Agrees(c, log) && c.flight == Flying(k) && c.lastSeq < k <= |log| && c.again
    ensures var d := Round(c, log, k);
            && Waiting(d, log)
            && d == c.(buffered := d.buffered, again := d.again, flight := Flying(c.lastSeq))
    decreases |log| - k
  {
    hide Arrive, Near;
    var more := |log| - k > SYNC_LIMIT;
    var next := if more then k + SYNC_LIMIT else |log|;
    var asked := OnReply(c, Page(|log|, next, more)).cl;
    AgreesInFlight(c, log, asked.flight, false);
    ArrivePastGap(asked, log, k, next);
    if more {
      RoundReturns(Arrive(asked, log, k, next), log, next);
    }
  }

  /** A fresh client that was welcomed by an empty host. */
  function Greeted(): ClientState {
    OnWelcome(Started(0), 0).cl
  }

  /** It got every event but the first. */
  lemma MissingFirstWedges(log: seq<Event>)
    requires |log| == 501 && Numbered(log)
    ensures var c := Arrive(Greeted(), log, 1, |log|);
            Waiting(c, log) && Wedged(c, log) && c.flight == Flying(0) && c.handed == [] && c.lastSeq == 0
  {
    hide Arrive, Filled;
    assert Greeted() == ClientState(0, 1, true, map[], Flying(0), false, 0, []);
    assert log[0..0] == [];
    ArriveBehindGap(Greeted(), log, 1, |log|);
    FilledWraps(0, |log| - 1);
  }
}
