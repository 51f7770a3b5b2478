/** What a run does to the log: it holds what was emitted, and loses what was pruned. */
module LogRuns {
  import opened Outbox
  import opened SessionModel
  import opened ClientModel
  import opened Replication
  import opened ReplicationSafety

  /** The host is never set back to an earlier log. */
  predicate KeepsHost(actions: seq<Action>) {
    forall a :: a in actions ==> !a.HostStop?
  }

  function Emits(actions: seq<Action>): (emits: seq<Action>)
    ensures forall i :: 0 <= i < |emits| ==> emits[i].Emit?
  {
    if actions == [] then []
    else
      var last := actions[|actions| - 1];
      Emits(actions[..|actions| - 1]) + if last.Emit? then [last] else []
  }

  lemma BoxStep(w: World, a: Action)
    requires w.box.Valid() && !a.HostStop?
    ensures Do(w, a).box
            == if a.Emit? then Box(w.box.log + [Event(|w.box.log| + 1, a.kind, a.data)], w.box.base)
               else if a.Prune? && w.box.base < a.upTo <= |w.box.log| then Box(w.box.log, a.upTo)
               else w.box
  {
    hide Deliver, AtPage, ReplayAll, ReleaseLive, EndRequest, EnterReady, OnFrame;
  }

  /** As long as the host keeps its log, the log is what it was at the start and then exactly the
      events that were emitted, in their order, each with its kind and data under the next number. */
  lemma {:induction false} LogIsEmitted(box: Box, lastSeq: nat, actions: seq<Action>)
    requires box.Valid() && KeepsHost(actions)
    ensures var log, emits := Run(Start(box, lastSeq), actions).box.log, Emits(actions);
            && |log| == |box.log| + |emits| && box.log <= log
            && forall i :: 0 <= i < |emits| ==>
                 log[|box.log| + i] == Event(|box.log| + i + 1, emits[i].kind, emits[i].data)
  {
    hide Do;
    if actions != [] {
      var front := actions[..|actions| - 1];
      LogIsEmitted(box, lastSeq, front);
      BoxStep(Run(Start(box, lastSeq), front), actions[|actions| - 1]);
    }
  }

  /** So the handlers of a client get what was emitted: each event after the place the cursor was
      last put at, with its kind and data. */
  lemma HandsOverTheEmitted(box: Box, lastSeq: nat, actions: seq<Action>, i: nat)
    requires box.Valid() && KeepsHost(actions) && lastSeq <= box.Head()
    requires i < |Run(Start(box, lastSeq), actions).cl.handed|
    requires Run(Start(box, lastSeq), actions).cl.from >= box.Head()
    ensures var c, at := Run(Start(box, lastSeq), actions).cl, Run(Start(box, lastSeq), actions).cl.from - box.Head();
            && at + i < |Emits(actions)|
            && c.handed[i] == Event(c.from + i + 1, Emits(actions)[at + i].kind, Emits(actions)[at + i].data)
  {
    hide Run;
    LogIsEmitted(box, lastSeq, actions);
    NeverStale(box, lastSeq, actions);
    HandsOverTheLog(box, lastSeq, actions);
  }

  lemma {:induction false} NeverStale(box: Box, lastSeq: nat, actions: seq<Action>)
    requires box.Valid() && KeepsHost(actions) && lastSeq <= box.Head()
    ensures !Run(Start(box, lastSeq), actions).stale
  {
    hide Do;
    if actions != [] {
      NeverStale(box, lastSeq, actions[..|actions| - 1]);
      StaysFresh(Run(Start(box, lastSeq), actions[..|actions| - 1]), actions[|actions| - 1]);
    }
  }

  lemma StaysFresh(w: World, a: Action)
    requires w.box.Valid() && !w.stale && !a.HostStop?
    ensures !Do(w, a).stale
  {
    hide Deliver, AtPage, ReplayAll, ReleaseLive, EndRequest, EnterReady, OnFrame;
  }

  /** The pruned front only grows, and only to a position that was pruned to. */
  lemma {:induction false} OnlyPrunedGo(box: Box, lastSeq: nat, actions: seq<Action>)
    requires box.Valid() && KeepsHost(actions)
    ensures var now := Run(Start(box, lastSeq), actions).box;
            && now.base >= box.base
            && (now.base == box.base || exists a :: a in actions && a.Prune? && a.upTo == now.base)
  {
    hide Do;
    if actions != [] {
      var front, last := actions[..|actions| - 1], actions[|actions| - 1];
      OnlyPrunedGo(box, lastSeq, front);
      BoxStep(Run(Start(box, lastSeq), front), last);
      assert last in actions && forall a :: a in front ==> a in actions;
    }
  }

  /** A row that was pruned is never read again: later reads from below it ask for a resync at the
      oldest row, or find a store with no row left. */
  lemma {:induction false} PrunedStayGone(box: Box, lastSeq: nat, actions: seq<Action>, i: nat, cursor: nat, limit: nat)
    requires box.Valid() && KeepsHost(actions) && i < |actions| && actions[i].Prune?
    requires cursor < actions[i].upTo <= Run(Start(box, lastSeq), actions[..i]).box.Head()
    ensures var now := Run(Start(box, lastSeq), actions).box;
            && now.base >= actions[i].upTo
            && (now.Since(cursor, limit) == Gone(now.base + 1) || now.Since(cursor, limit) == Found([]))
    decreases |actions|
  {
    hide Do;
    var front, last := actions[..|actions| - 1], actions[|actions| - 1];
    BoxStep(Run(Start(box, lastSeq), front), last);
    if i < |actions| - 1 {
      assert front[..i] == actions[..i];
      PrunedStayGone(box, lastSeq, front, i, cursor, limit);
    }
  }
}
