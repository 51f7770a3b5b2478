/** Where the client's cursor is put in every run, and what is therefore never handed over. */
module ClientPlaces {
  import opened Outbox
  import opened SessionModel
  import opened ClientModel
  import opened Replication
  import opened ReplicationSafety

  /** What was handed over since the last reset is numbered on from there, and what is kept is kept
      under its own number; no log is needed to say so. */
  ghost predicate Numbers(c: ClientState) {
    && c.nextSeq == c.lastSeq + 1 && c.lastSeq == c.from + |c.handed|
    && (forall i :: 0 <= i < |c.handed| ==> c.handed[i].s == c.from + 1 + i)
    && (forall k :: k in c.buffered ==> c.buffered[k].s == k)
  }

  ghost predicate Advances(c: ClientState, d: ClientState) {
    d.from == c.from && c.handed <= d.handed && c.lastSeq <= d.lastSeq
  }

  lemma {:induction false} DrainNumbers(c: ClientState)
    requires Numbers(c)
    ensures Numbers(Drain(c)) && Advances(c, Drain(c))
    decreases c.buffered.Keys
  {
    if c.nextSeq in c.buffered {
      DrainNumbers(HandOver(c));
    }
  }

  lemma SettleNumbers(c: ClientState)
    requires Numbers(c)
    ensures Numbers(Settle(c).cl) && Advances(c, Settle(c).cl)
  {
    hide Drain;
    DrainNumbers(c);
  }

  lemma AcceptNumbers(c: ClientState, e: Event)
    requires Numbers(c)
    ensures Numbers(AcceptEvent(c, e).cl) && Advances(c, AcceptEvent(c, e).cl)
  {
    hide Settle;
    if e.s == c.nextSeq {
      SettleNumbers(Keep(c, e));
    } else if e.s > c.nextSeq {
      SettleNumbers(Keep(CatchUp(c).cl, e));
    }
  }

  lemma WelcomeNumbers(c: ClientState, hostSeq: nat)
    requires Numbers(c)
    ensures var d := OnWelcome(c, hostSeq).cl;
            && Numbers(d) && d.welcomed
            && (hostSeq >= c.lastSeq && (c.welcomed || c.lastSeq > 0) ==> Advances(c, d))
  {
  }

  lemma ReplyNumbers(c: ClientState, reply: Reply)
    requires Numbers(c) && (reply.Resync? ==> reply.minSeq >= 1)
    ensures Numbers(OnReply(c, reply).cl) && OnReply(c, reply).cl.welcomed == c.welcomed
    ensures (reply.Resync? && c.flight.Flying?) || Advances(c, OnReply(c, reply).cl)
  {
  }

  /** A frame that does not place the cursor anew only lets the client go on. */
  lemma FrameNumbers(c: ClientState, f: Frame)
    requires Numbers(c) && (f.Res? && f.reply.Resync? ==> f.reply.minSeq >= 1)
    ensures Numbers(OnFrame(c, f).cl)
    ensures !Resets(c, f) && (f.Welcome? ==> c.welcomed || c.lastSeq > 0) ==> Advances(c, OnFrame(c, f).cl)
  {
    hide AcceptEvent, OnWelcome, OnReply, Numbers;
    match f
    case Evt(e) => AcceptNumbers(c, e);
    case Welcome(hostSeq) => WelcomeNumbers(c, hostSeq);
    case Res(reply) => ReplyNumbers(c, reply);
    case Tick =>
  }

  /** A client that was never welcomed is as it started. */
  predicate Untouched(c: ClientState, n: nat) {
    !c.welcomed ==> c == Started(n)
  }

  ghost predicate Fits(w: World, n: nat) {
    Safe(w) && Numbers(w.cl) && Untouched(w.cl, n)
  }

  lemma OthersLeaveClient(w: World, a: Action)
    requires w.box.Valid() && !a.Receive?
    ensures Do(w, a).cl == w.cl || Do(w, a).cl == OnClose(w.cl)
  {
    hide Deliver, AtPage, ReplayAll, ReleaseLive, EndRequest, EnterReady, Reaches;
  }

  lemma FitsReceive(w: World, n: nat)
    requires Fits(w, n) && w.up && w.link.wire != []
    ensures Numbers(Do(w, Receive).cl) && Untouched(Do(w, Receive).cl, n)
  {
    hide Safe, OnFrame, Numbers;
    WireFits(w);
    FrameNumbers(w.cl, w.link.wire[0]);
    ReceiveKeepsWelcome(w.cl, w.link.wire[0]);
  }

  /** The first frame of a socket is its welcome, and a client that was never welcomed gets no
      other. */
  lemma WireFits(w: World)
    requires Safe(w) && w.up && w.link.wire != []
    ensures FrameOk(w.link.wire[0], w.box.log)
    ensures !w.cl.welcomed ==> w.link.wire[0].Welcome? && w.cl.buffered == map[] && w.link.asks == []
    ensures w.link.wire[0].Welcome? ==> w.cl.flight.NoFlight? && w.link.asks == []
  {
    hide Agrees, FlagsOk, WorkSafe;
    assert w.link.wire[0] in w.link.wire && Queue(w.link)[0] == w.link.wire[0];
  }

  lemma FitsStep(w: World, n: nat, a: Action)
    requires Fits(w, n)
    ensures Fits(Do(w, a), n)
  {
    hide Safe, Numbers, Received;
    SafeStep(w, a);
    assert w.box.Valid() by { BoxOf(w); }
    if !a.Receive? {
      OthersLeaveClient(w, a);
      CloseFits(w.cl, n);
    } else if w.up && w.link.wire != [] {
      FitsReceive(w, n);
    }
  }

  lemma BoxOf(w: World)
    requires Safe(w)
    ensures w.box.Valid()
  {
  }

  lemma StartFits(box: Box, n: nat)
    requires box.Valid()
    ensures Fits(Start(box, n), n)
  {
    StartSafe(box, n);
  }

  lemma {:induction false} RunFits(box: Box, n: nat, actions: seq<Action>)
    requires box.Valid()
    ensures Fits(Run(Start(box, n), actions), n)
  {
    hide Fits;
    StartFits(box, n);
    if actions != [] {
      RunFits(box, n, actions[..|actions| - 1]);
      FitsStep(Run(Start(box, n), actions[..|actions| - 1]), n, actions[|actions| - 1]);
    }
  }

  /** In every run, even over hosts restored to other logs: what was handed over since the last
      reset of the cursor is numbered on from there without a gap, up to the cursor. */
  lemma HandedInOrder(box: Box, n: nat, actions: seq<Action>)
    requires box.Valid()
    ensures var c := Run(Start(box, n), actions).cl;
            && c.lastSeq == c.from + |c.handed| && c.nextSeq == c.lastSeq + 1
            && forall i :: 0 <= i < |c.handed| ==> c.handed[i].s == c.from + 1 + i
  {
    hide Run, Safe;
    RunFits(box, n, actions);
  }

  // Where the cursor is put.

  /** The cursor is at `at`, nothing is handed over from there yet and nothing kept, and the
      events after it are being asked for. */
  ghost predicate PutAt(w: World, r: World, at: nat) {
    && r.cl.lastSeq == r.cl.from == at && r.cl.nextSeq == at + 1 && r.cl.handed == [] && r.cl.buffered == map[]
    && r.cl.flight == Flying(at) && r.link.asks == w.link.asks + [at]
  }

  /** The cursor, what was handed over and what is kept are as before, and the events after the
      cursor are being asked for. */
  ghost predicate LeftAt(w: World, r: World) {
    && r.cl == w.cl.(welcomed := true, flight := Flying(w.cl.lastSeq), again := false)
    && r.link.asks == w.link.asks + [w.cl.lastSeq]
  }

  /** In every run, a frame that arrives does one of five things to the place of the client. A
      welcome below the cursor starts over from 0. The first welcome of a client that had no saved
      cursor skips to the host's position; every other welcome leaves the place alone. A resync
      goes right below the oldest row, and a refusal ends the catch-up where it is. Anything else only lets the
      client go on. */
  lemma ArrivalPlaces(box: Box, n: nat, actions: seq<Action>)
    requires box.Valid() && Run(Start(box, n), actions).up && Run(Start(box, n), actions).link.wire != []
    ensures var w := Run(Start(box, n), actions);
            var f, r := w.link.wire[0], Do(w, Receive);
            if f.Welcome? then
              if f.hostSeq < w.cl.lastSeq then PutAt(w, r, 0)
              else if !w.cl.welcomed && n == 0 then PutAt(w, r, f.hostSeq)
              else LeftAt(w, r)
            else if f.Res? && f.reply.Resync? && w.cl.flight.Flying? then
              f.reply.minSeq >= 1 && PutAt(w, r, f.reply.minSeq - 1)
            else if f == Res(Failed) && w.cl.flight.Flying? then
              r.cl == w.cl.(flight := NoFlight) && r.link.asks == w.link.asks
            else Advances(w.cl, r.cl)
  {
    hide Run, AcceptEvent, Safe;
    var w := Run(Start(box, n), actions);
    RunFits(box, n, actions);
    WireFits(w);
    var f := w.link.wire[0];
    if f.Welcome? {
      WelcomePlaces(w, n);
    } else {
      FrameNumbers(w.cl, f);
      hide Numbers;
      assert Do(w, Receive).cl == OnFrame(w.cl, f).cl;
    }
  }

  /** Whatever page a host sends, the client asks on only from above the place it asked last, or once more
      from its cursor for a hint that came up meanwhile and is forgotten with that: no page can keep it asking. */
  lemma PagesLeadOn(c: ClientState, hostSeq: nat, nextSeq: nat, more: bool)
    requires c.flight.Flying?
    ensures var r := OnReply(c, Page(hostSeq, nextSeq, more));
            && (r.sent.Ask? ==>
                  && r.cl.flight == Flying(r.sent.cursor) && !r.cl.again
                  && (r.sent.cursor > c.flight.cursor || (r.sent.cursor == c.lastSeq && c.again)))
            && (r.sent.Silent? ==> r.cl.flight.NoFlight? && !c.again)
            && (more && nextSeq > c.flight.cursor ==> r.sent == Ask(nextSeq))
  {
  }

  lemma WelcomePlaces(w: World, n: nat)
    requires w.box.Valid() && w.up && w.link.wire != [] && w.link.wire[0].Welcome?
    requires w.cl.flight.NoFlight? && Untouched(w.cl, n) && w.cl.nextSeq == w.cl.lastSeq + 1
    ensures var h, r := w.link.wire[0].hostSeq, Do(w, Receive);
            if h < w.cl.lastSeq then PutAt(w, r, 0)
            else if !w.cl.welcomed && n == 0 then PutAt(w, r, h)
            else LeftAt(w, r)
  {
  }

  /** The action is the arrival of a frame that resets the cursor. */
  ghost predicate ResetsAt(start: World, actions: seq<Action>, k: nat)
    requires start.box.Valid() && k < |actions|
  {
    var w := Run(start, actions[..k]);
    actions[k].Receive? && w.up && w.link.wire != [] && Resets(w.cl, w.link.wire[0])
  }

  lemma RunAt(start: World, actions: seq<Action>, k: nat)
    requires start.box.Valid() && k < |actions|
    ensures Run(start, actions[..k + 1]) == Do(Run(start, actions[..k]), actions[k])
  {
    assert actions[..k + 1][..k] == actions[..k];
  }

  lemma StepAdvances(w: World, n: nat, a: Action)
    requires Fits(w, n) && w.cl.welcomed
    requires !(a.Receive? && w.up && w.link.wire != [] && Resets(w.cl, w.link.wire[0]))
    ensures Advances(w.cl, Do(w, a).cl) && Do(w, a).cl.welcomed
  {
    hide Safe, Numbers, OnFrame;
    assert w.box.Valid() by { BoxOf(w); }
    if !a.Receive? {
      OthersLeaveClient(w, a);
    } else if w.up && w.link.wire != [] {
      WireFits(w);
      FrameNumbers(w.cl, w.link.wire[0]);
      ReceiveKeepsWelcome(w.cl, w.link.wire[0]);
    }
  }

  lemma {:induction false} AdvancesFrom(box: Box, n: nat, actions: seq<Action>, i: nat, j: nat)
    requires box.Valid() && i <= j <= |actions| && Run(Start(box, n), actions[..i]).cl.welcomed
    requires forall k :: i <= k < j ==> !ResetsAt(Start(box, n), actions, k)
    ensures Advances(Run(Start(box, n), actions[..i]).cl, Run(Start(box, n), actions[..j]).cl)
    ensures Run(Start(box, n), actions[..j]).cl.welcomed
    decreases j
  {
    hide Run, Fits;
    if i < j {
      AdvancesFrom(box, n, actions, i, j - 1);
      RunFits(box, n, actions[..j - 1]);
      RunAt(Start(box, n), actions, j - 1);
      assert !ResetsAt(Start(box, n), actions, j - 1);
      StepAdvances(Run(Start(box, n), actions[..j - 1]), n, actions[j - 1]);
    }
  }

  ghost predicate WelcomeArrives(w: World, a: Action) {
    a.Receive? && w.up && w.link.wire != [] && w.link.wire[0].Welcome?
  }

  ghost predicate WelcomedAt(box: Box, n: nat, actions: seq<Action>, k: nat)
    requires box.Valid() && k < |actions|
  {
    WelcomeArrives(Run(Start(box, n), actions[..k]), actions[k])
  }

  /** The action is the arrival of the first welcome. */
  ghost predicate FirstWelcomed(box: Box, n: nat, actions: seq<Action>, i: nat)
    requires box.Valid() && i < |actions|
  {
    WelcomedAt(box, n, actions, i) && forall k :: 0 <= k < i ==> !WelcomedAt(box, n, actions, k)
  }

  lemma WelcomedStep(w: World, a: Action)
    requires w.box.Valid()
    ensures Do(w, a).cl.welcomed <==> w.cl.welcomed || WelcomeArrives(w, a)
  {
    hide OnFrame;
    if !a.Receive? {
      OthersLeaveClient(w, a);
      hide Do;
    } else if w.up && w.link.wire != [] {
      FrameWelcomes(w.cl, w.link.wire[0]);
    }
  }

  lemma FrameWelcomes(c: ClientState, f: Frame)
    ensures OnFrame(c, f).cl.welcomed <==> c.welcomed || f.Welcome?
  {
    hide Drain;
    if f.Evt? {
      DrainKeepsWelcomed(Keep(c, f.e));
      DrainKeepsWelcomed(Keep(CatchUp(c).cl, f.e));
    }
  }

  /** In every run: the client counts as welcomed if and only if a welcome arrived. */
  lemma {:induction false} WelcomedIff(box: Box, n: nat, actions: seq<Action>, i: nat)
    requires box.Valid() && i <= |actions|
    ensures Run(Start(box, n), actions[..i]).cl.welcomed
            <==> exists k :: 0 <= k < i && WelcomedAt(box, n, actions, k)
    decreases i
  {
    hide Run, Do, WelcomeArrives;
    if i > 0 {
      WelcomedIff(box, n, actions, i - 1);
      RunAt(Start(box, n), actions, i - 1);
      WelcomedStep(Run(Start(box, n), actions[..i - 1]), actions[i - 1]);
      assert WelcomedAt(box, n, actions, i - 1)
             <==> WelcomeArrives(Run(Start(box, n), actions[..i - 1]), actions[i - 1]);
    } else {
      StartsUnwelcomed(box, n);
      assert actions[..0] == [];
    }
  }

  lemma StartsUnwelcomed(box: Box, n: nat)
    requires box.Valid()
    ensures !Run(Start(box, n), []).cl.welcomed
  {
  }

  lemma FirstIsArrival(box: Box, n: nat, actions: seq<Action>, i: nat)
    requires box.Valid() && i < |actions| && FirstWelcomed(box, n, actions, i)
    ensures var w := Run(Start(box, n), actions[..i]);
            && w.up && w.link.wire != [] && w.link.wire[0].Welcome? && w.cl == Started(n) && w.link.asks == []
            && Run(Start(box, n), actions[..i + 1]) == Do(w, Receive)
    ensures Run(Start(box, n), actions[..i + 1]).cl.welcomed
  {
    hide Run, Received, Safe;
    WelcomedIff(box, n, actions, i);
    WelcomedIff(box, n, actions, i + 1);
    var w := Run(Start(box, n), actions[..i]);
    RunFits(box, n, actions[..i]);
    RunAt(Start(box, n), actions, i);
    WireFits(w);
  }

  /** In every run: the first welcome puts a client without a saved cursor at the host's position,
      whatever it is, and however the run goes on, no event up to there is handed over before a
      welcome below the cursor or a resync. A saved cursor above 0 the first welcome leaves where it
      is, unless the host is below it; then the client starts over. */
  lemma FirstWelcomeSkips(box: Box, n: nat, actions: seq<Action>, i: nat)
    requires box.Valid() && i < |actions| && FirstWelcomed(box, n, actions, i)
    requires forall k :: i < k < |actions| ==> !ResetsAt(Start(box, n), actions, k)
    ensures Run(Start(box, n), actions[..i]).link.wire != []
    ensures var f := Run(Start(box, n), actions[..i]).link.wire[0];
            var met, now := Run(Start(box, n), actions[..i + 1]).cl, Run(Start(box, n), actions).cl;
            && f.Welcome?
            && met.lastSeq == (if n == 0 then f.hostSeq else if f.hostSeq < n then 0 else n)
            && met.nextSeq == met.lastSeq + 1 && met.handed == [] && met.buffered == map[]
            && met.flight == Flying(met.lastSeq)
            && now.from == met.lastSeq && forall e :: e in now.handed ==> e.s > met.lastSeq
  {
    hide Run, Numbers, FirstWelcomed;
    FirstIsArrival(box, n, actions, i);
    WelcomePlaces(Run(Start(box, n), actions[..i]), n);
    AdvancesFrom(box, n, actions, i + 1, |actions|);
    assert actions[..|actions|] == actions;
    HandedInOrder(box, n, actions);
  }

  lemma CloseFits(c: ClientState, n: nat)
    requires Numbers(c) && Untouched(c, n)
    ensures Numbers(OnClose(c)) && Untouched(OnClose(c), n)
  {
  }
}
