/** The durable event log behind the hub: an append-only sequence, pruned only at its front. */
module Outbox {

  /** One outbox row. `s` is its position in the log, counted from 1. */
  datatype Event = Event(s: nat, kind: string, data: string)

  /** `log` holds every event ever allocated; the first `base` of them have been pruned. */
  datatype Box = Box(log: seq<Event>, base: nat) {
    ghost predicate Valid() {
      && base <= |log|
      && forall i :: 0 <= i < |log| ==> log[i].s == i + 1
    }

    /** The highest allocated position, whether or not its row is still stored. */
    function Head(): nat {
      |log|
    }

    function At(s: nat): Event
      requires 1 <= s <= |log|
    {
      log[s - 1]
    }

    function Append(kind: string, data: string): Box {
      Box(log + [Event(|log| + 1, kind, data)], base)
    }

    function Prune(upTo: nat): Box {
      if base < upTo <= |log| then Box(log, upTo) else this
    }

    /** Rows after `seq_`, oldest first, at most `limit` of them.
        A store with no row left answers an empty page instead of asking for a resync. */
    function Since(seq_: nat, limit: nat): Rows
      requires base <= |log|
    {
      if base < |log| && seq_ < base then
        Gone(base + 1)
      else
        var from := if seq_ < base then base else seq_;
        if from >= |log| then Found([])
        else if from + limit >= |log| then Found(log[from..])
        else Found(log[from..from + limit])
    }
  }

  datatype Rows = Found(rows: seq<Event>) | Gone(minSeq: nat)

  /** What one read returns: consecutive events right after the cursor, as many as the limit
      allows. The only cursor below the pruned range that is not refused is one over an empty
      store. */
  lemma SinceIsConsecutive(box: Box, seq_: nat, limit: nat)
    requires box.Valid()
    ensures box.Since(seq_, limit).Gone? <==> box.base < box.Head() && seq_ < box.base
    ensures box.Since(seq_, limit).Gone? ==> box.Since(seq_, limit).minSeq == box.base + 1
    ensures box.Since(seq_, limit).Found? ==>
              var rows := box.Since(seq_, limit).rows;
              && |rows| <= limit
              && (rows != [] ==> seq_ + |rows| <= box.Head())
              && (forall i :: 0 <= i < |rows| ==> rows[i] == box.At(seq_ + 1 + i))
              && (|rows| < limit && seq_ < box.Head() ==>
                    seq_ + |rows| == box.Head() || box.base == box.Head())
  {
  }
}
