/** Idempotent operations: what one call leaves in the op log, and what the next one gets. */
module OpClaimModel {

  const RETENTION: nat := 86400

  /** The stored operation: its method and the hash of its parameters. Rows written before the
      hash was stored have an empty one. */
  datatype Op = Op(name: string, hash: string)

  datatype Kept = Pending | Result(value: string)

  datatype Entry = Entry(op: Op, kept: Kept, created: nat)

  datatype Row = NoRow | Stored(entry: Entry)

  /** How the work ends: with a result, an exception, or cut off by a cancellation or a crash,
      while it runs or right after it completed. `emitted` tells whether it stored an event. */
  datatype End = Done(value: string) | Raised | CutDuring | CutAfter(value: string)

  datatype Call = Call(op: Op, start: nat, finish: nat, emitted: bool, end: End, kept: string)

  datatype Answer = Returned(value: string) | Mismatch | InProgress | Threw | Lost

  /** A call's answer, the row it leaves, and whether it completed the work. */
  datatype Claimed = Claimed(row: Row, answer: Answer, completed: bool)

  predicate SameOp(stored: Op, asked: Op) {
    stored.name == asked.name && (stored.hash == "" || stored.hash == asked.hash)
  }

  /** A row older than the retention is deleted by the lookup that finds it. */
  function Lookup(row: Row, now: nat): Row {
    if row.Stored? && row.entry.created + RETENTION < now then NoRow else row
  }

  /** The first event of the work marks the operation as running. */
  function Marked(row: Row, c: Call): Row {
    if c.emitted && row.NoRow? then Stored(Entry(c.op, Pending, c.start)) else row
  }

  function Finish(row: Row, c: Call): Claimed {
    match c.end
    case Raised =>
      Claimed(if row.Stored? && row.entry.kept.Pending? then NoRow else row, Threw, false)
    case CutDuring => Claimed(row, Lost, false)
    case CutAfter(_) => Claimed(row, Lost, true)
    case Done(value) =>
      var saved := Lookup(row, c.finish);
      var entry := if saved.NoRow? then Entry(c.op, Result(c.kept), c.finish)
                   else saved.entry.(kept := Result(c.kept));
      Claimed(Stored(entry), Returned(value), true)
  }

  function Claim(row: Row, c: Call): Claimed {
    var found := Lookup(row, c.start);
    if found.Stored? then
      if !SameOp(found.entry.op, c.op) then Claimed(found, Mismatch, false)
      else if found.entry.kept.Pending? then Claimed(found, InProgress, false)
      else Claimed(found, Returned(found.entry.kept.value), false)
    else Finish(Marked(found, c), c)
  }

  /** Calls of one op id follow one another: each holds the id's lock to its end. */
  function Rows(row: Row, calls: seq<Call>): Row {
    if calls == [] then row else Claim(Rows(row, calls[..|calls| - 1]), calls[|calls| - 1]).row
  }

  function Completions(row: Row, calls: seq<Call>): nat {
    if calls == [] then 0
    else
      var front, last := calls[..|calls| - 1], calls[|calls| - 1];
      Completions(row, front) + if Claim(Rows(row, front), last).completed then 1 else 0
  }

  /** A call that completed its work without leaving a trace of it. */
  predicate Traceless(c: Call) {
    c.end.CutAfter? && !c.emitted
  }

  /** All calls begin and end within one retention of `from`. */
  ghost predicate InTime(calls: seq<Call>, from: nat) {
    forall i :: 0 <= i < |calls| ==> from <= calls[i].start <= calls[i].finish <= from + RETENTION
  }

  /** A call that runs its work leaves a row: its result, or the mark of an event it stored. */
  predicate Leaves(c: Call) {
    c.end.Done? || (c.emitted && (c.end.CutDuring? || c.end.CutAfter?))
  }

  predicate Completing(c: Call) {
    c.end.Done? || c.end.CutAfter?
  }

  ghost predicate NoneLeaves(calls: seq<Call>, n: nat)
    requires n <= |calls|
  {
    forall k :: 0 <= k < n ==> !Leaves(calls[k])
  }

  lemma {:induction false} RowIff(calls: seq<Call>, from: nat)
    requires InTime(calls, from)
    ensures Rows(NoRow, calls).NoRow? <==> NoneLeaves(calls, |calls|)
    ensures Rows(NoRow, calls).Stored? ==> from <= Rows(NoRow, calls).entry.created <= from + RETENTION
  {
    if calls != [] {
      var front := calls[..|calls| - 1];
      RowIff(front, from);
      assert NoneLeaves(calls, |calls|) <==> NoneLeaves(front, |front|) && !Leaves(calls[|calls| - 1]);
    }
  }

  ghost predicate CompletesAt(calls: seq<Call>, j: nat)
    requires j < |calls|
  {
    NoneLeaves(calls, j) && Completing(calls[j])
  }

  lemma CompletesIff(calls: seq<Call>, j: nat, from: nat)
    requires InTime(calls, from) && j < |calls|
    ensures Claim(Rows(NoRow, calls[..j]), calls[j]).completed <==> CompletesAt(calls, j)
  {
    RowIff(calls[..j], from);
    assert NoneLeaves(calls[..j], j) <==> NoneLeaves(calls, j);
  }

  /** Once a call completed the work, some row stands for it. */
  lemma {:induction false} CompletedIsStored(calls: seq<Call>, from: nat)
    requires InTime(calls, from)
    requires forall i :: 0 <= i < |calls| ==> !Traceless(calls[i])
    ensures Completions(NoRow, calls) <= 1
    ensures Completions(NoRow, calls) == 1 ==> Rows(NoRow, calls).Stored?
    ensures Rows(NoRow, calls).Stored? ==> Rows(NoRow, calls).entry.created <= from + RETENTION
  {
    if calls != [] {
      CompletedIsStored(calls[..|calls| - 1], from);
      RowIff(calls[..|calls| - 1], from);
    }
  }

  lemma CompletionsLast(calls: seq<Call>)
    requires calls != []
    ensures var n := |calls| - 1;
            Completions(NoRow, calls)
            == Completions(NoRow, calls[..n]) + if Claim(Rows(NoRow, calls[..n]), calls[n]).completed then 1 else 0
  {
    hide Claim;
  }

  lemma CompletesAtFront(calls: seq<Call>)
    requires calls != []
    ensures var front := calls[..|calls| - 1];
            forall j :: 0 <= j < |front| ==> (CompletesAt(front, j) <==> CompletesAt(calls, j))
  {
    var front := calls[..|calls| - 1];
    forall j | 0 <= j < |front|
      ensures CompletesAt(front, j) <==> CompletesAt(calls, j)
    {
      assert forall k :: 0 <= k < j ==> front[k] == calls[k];
    }
  }

  lemma {:induction false} CountedIff(calls: seq<Call>, from: nat)
    requires InTime(calls, from)
    ensures Completions(NoRow, calls) > 0 <==> exists j :: 0 <= j < |calls| && CompletesAt(calls, j)
    ensures Completions(NoRow, calls) > 1 <==>
              exists i, j :: 0 <= i < j < |calls| && CompletesAt(calls, i) && CompletesAt(calls, j)
  {
    if calls != [] {
      hide CompletesAt, Claim, NoneLeaves;
      var n := |calls| - 1;
      var front := calls[..n];
      CountedIff(front, from);
      CompletesIff(calls, n, from);
      CompletionsLast(calls);
      CompletesAtFront(calls);
    }
  }

  /** Within the retention, whatever calls share an op id, fail, retry or are cut off: the work
      completes more than once if and only if a call is cut off right after completing work that
      stored no event, and a later one completes before any call left a row. */
  lemma WorkCompletesOnce(calls: seq<Call>, from: nat)
    requires InTime(calls, from)
    ensures Completions(NoRow, calls) > 1 <==>
              exists i, j :: 0 <= i < j < |calls| && Traceless(calls[i]) && Completing(calls[j]) && NoneLeaves(calls, j)
  {
    CountedIff(calls, from);
    if i, j :| 0 <= i < j < |calls| && CompletesAt(calls, i) && CompletesAt(calls, j) {
      assert Traceless(calls[i]) && Completing(calls[j]) && NoneLeaves(calls, j);
    }
    if i, j :| 0 <= i < j < |calls| && Traceless(calls[i]) && Completing(calls[j]) && NoneLeaves(calls, j) {
      assert CompletesAt(calls, i) && CompletesAt(calls, j);
    }
  }

  /** Exactly when a call that completes the work lets the next one complete it again. */
  lemma RunsAgainIff(first: Call, second: Call)
    requires first.start <= first.finish <= second.start
    requires Claim(NoRow, first).completed
    requires second.end.Done?
    ensures var created := if first.emitted && first.finish <= first.start + RETENTION then first.start
                           else first.finish;
            var expired := if first.end.Done? then created + RETENTION < second.start
                           else first.start + RETENTION < second.start;
            Completions(NoRow, [first, second]) == 2 <==> Traceless(first) || expired
  {
    var calls := [first, second];
    assert calls[..1] == [first] && [first][..0] == [];
    assert Rows(NoRow, [first]) == Claim(NoRow, first).row;
    assert Completions(NoRow, [first]) == 1;
  }

  // ---- calls at any times -----------------------------------------------------------------

  /** Calls of one op id in the order in which they hold its lock. */
  ghost predicate Ordered(calls: seq<Call>) {
    && (forall i :: 0 <= i < |calls| ==> calls[i].start <= calls[i].finish)
    && (forall i, j :: 0 <= i < j < |calls| ==> calls[i].finish <= calls[j].start)
  }

  predicate Completes(row: Row, calls: seq<Call>, j: nat)
    requires j < |calls|
  {
    Claim(Rows(row, calls[..j]), calls[j]).completed
  }

  lemma CompletedLeaves(row: Row, c: Call)
    requires Claim(row, c).completed && !Traceless(c) && c.start <= c.finish
    ensures var r := Claim(row, c).row; r.Stored? && r.entry.created >= c.start
  {
  }

  lemma StandsOrExpires(row: Row, c: Call, since: nat)
    requires row.Stored? && row.entry.created >= since
    ensures c.start > since + RETENTION || Claim(row, c).row == row
  {
  }

  /** The row that a completed call left stands until a call finds it older than the retention. */
  lemma {:induction false} TraceStands(row: Row, calls: seq<Call>, i: nat, k: nat)
    requires Ordered(calls) && i < k <= |calls| && Completes(row, calls, i) && !Traceless(calls[i])
    ensures var r := Rows(row, calls[..k]);
            || (r.Stored? && r.entry.created >= calls[i].start)
            || calls[k - 1].start > calls[i].start + RETENTION
  {
    hide Claim, Traceless;
    assert calls[..k][..k - 1] == calls[..k - 1];
    if k > i + 1 {
      TraceStands(row, calls, i, k - 1);
      if calls[k - 1].start <= calls[i].start + RETENTION {
        StandsOrExpires(Rows(row, calls[..k - 1]), calls[k - 1], calls[i].start);
      }
    } else {
      CompletedLeaves(Rows(row, calls[..i]), calls[i]);
    }
  }

  /** At any times, from any row: once a call completed the work and left a trace of it, the work
      completes again only for a call that starts more than one retention later. */
  lemma CompletionsApart(row: Row, calls: seq<Call>, i: nat, j: nat)
    requires Ordered(calls) && i < j < |calls|
    requires Completes(row, calls, i) && Completes(row, calls, j) && !Traceless(calls[i])
    ensures calls[j].start > calls[i].start + RETENTION
  {
    TraceStands(row, calls, i, j);
  }

  /** A row answers for a day: up to then it stands as it is through every call that does not run the work,
      and a call that is later finds as good as no row. */
  lemma RowStandsADay(row: Row, c: Call)
    requires row.Stored?
    ensures c.start <= row.entry.created + 24 * 60 * 60 ==> Claim(row, c).row == row && !Claim(row, c).completed
    ensures c.start > row.entry.created + 24 * 60 * 60 ==> Claim(row, c) == Claim(NoRow, c)
  {
  }

  lemma KeptAnswersOne(row: Row, c: Call)
    requires row.Stored? && row.entry.kept.Result? && c.start <= row.entry.created + RETENTION
    ensures var r, stored := Claim(row, c), row.entry.op;
            && r.row == row && !r.completed
            && r.answer == if stored.name != c.op.name || (stored.hash != "" && stored.hash != c.op.hash) then Mismatch
                           else Returned(row.entry.kept.value)
  {
  }

  ghost predicate InRetention(row: Row, calls: seq<Call>)
    requires row.Stored?
  {
    forall j :: 0 <= j < |calls| ==> calls[j].start <= row.entry.created + RETENTION
  }

  lemma {:induction false} KeptStays(row: Row, calls: seq<Call>)
    requires row.Stored? && row.entry.kept.Result? && InRetention(row, calls)
    ensures Rows(row, calls) == row && Completions(row, calls) == 0
  {
    hide Claim;
    if calls != [] {
      KeptStays(row, calls[..|calls| - 1]);
      KeptAnswersOne(row, calls[|calls| - 1]);
    }
  }

  /** A kept result answers every later call within its retention, whatever the calls before it
      were: the same operation gets the result, another method or other parameters are refused,
      except against a row that stored no hash. None of them runs the work. */
  lemma KeptResultAnswers(row: Row, calls: seq<Call>)
    requires row.Stored? && row.entry.kept.Result? && InRetention(row, calls)
    ensures Rows(row, calls) == row && Completions(row, calls) == 0
    ensures forall j :: 0 <= j < |calls| ==>
              var stored, asked := row.entry.op, calls[j].op;
              Claim(Rows(row, calls[..j]), calls[j]).answer
              == if stored.name != asked.name || (stored.hash != "" && stored.hash != asked.hash) then Mismatch
                 else Returned(row.entry.kept.value)
  {
    hide Claim, Rows, Completions;
    KeptStays(row, calls);
    forall j | 0 <= j < |calls|
      ensures var stored, asked := row.entry.op, calls[j].op;
              Claim(Rows(row, calls[..j]), calls[j]).answer
              == if stored.name != asked.name || (stored.hash != "" && stored.hash != asked.hash) then Mismatch
                 else Returned(row.entry.kept.value)
    {
      KeptStays(row, calls[..j]);
      KeptAnswersOne(row, calls[j]);
    }
  }

  // ---- where a row and an answer come from --------------------------------------------------

  /** Call `i` left this row: its operation, with the kept form of its own result, or as a mark when
      the work had stored an event and was cut off. */
  ghost predicate LeftBy(calls: seq<Call>, i: nat, entry: Entry)
    requires i < |calls|
  {
    var c := calls[i];
    && entry.op == c.op
    && (match entry.kept
        case Result(value) =>
          Completes(NoRow, calls, i) && c.end.Done? && value == c.kept
          && (entry.created == c.finish || (entry.created == c.start && c.emitted))
        case Pending => c.emitted && (c.end.CutDuring? || c.end.CutAfter?) && entry.created == c.start)
  }

  lemma RowLeft(row: Row, c: Call)
    ensures var r := Claim(row, c);
            r.row.Stored? && r.row != row ==>
              && r.row.entry.op == c.op
              && (match r.row.entry.kept
                  case Result(value) =>
                    r.completed && c.end.Done? && value == c.kept
                    && (r.row.entry.created == c.finish || (r.row.entry.created == c.start && c.emitted))
                  case Pending => c.emitted && (c.end.CutDuring? || c.end.CutAfter?) && r.row.entry.created == c.start)
  {
  }

  /** Whatever row stands after any calls, one of the calls left it, as it stands. */
  lemma {:induction false} RowIsLeft(calls: seq<Call>) returns (i: nat)
    requires Rows(NoRow, calls).Stored?
    ensures i < |calls| && LeftBy(calls, i, Rows(NoRow, calls).entry)
    decreases |calls|
  {
    hide Claim;
    var front, last := calls[..|calls| - 1], calls[|calls| - 1];
    if Rows(NoRow, calls) == Rows(NoRow, front) {
      i := RowIsLeft(front);
      assert calls[..i] == front[..i];
    } else {
      i := |calls| - 1;
      RowLeft(Rows(NoRow, front), last);
    }
  }

  /** Among any calls that share an op id, at any times: a call that runs the work to its end gets the
      work's own result, one whose work raises or is cut off gets nothing, and every other answer is
      owed to one earlier call. A result comes back in the form that call kept, and only for its method
      and its parameters (or against a row without a hash); another operation is refused; and a mark of
      a cut-off call of the same operation answers that it is in progress. */
  lemma AnswersAreOwed(calls: seq<Call>, j: nat)
    requires j < |calls|
    ensures var row, c := Rows(NoRow, calls[..j]), calls[j];
            var r := Claim(row, c);
            if Lookup(row, c.start).NoRow? then
              r.answer == (match c.end
                           case Done(value) => Returned(value)
                           case Raised => Threw
                           case _ => Lost)
              && r.completed == (c.end.Done? || c.end.CutAfter?)
            else
              !r.completed && r.row == row
              && exists i :: 0 <= i < j && LeftBy(calls, i, row.entry)
                             && var same := calls[i].op.name == c.op.name
                                            && (calls[i].op.hash == c.op.hash || calls[i].op.hash == "");
                                r.answer == if !same then Mismatch
                                            else if calls[i].end.Done? then Returned(calls[i].kept)
                                            else InProgress
  {
    var row, c := Rows(NoRow, calls[..j]), calls[j];
    if Lookup(row, c.start).Stored? {
      var i := RowIsLeft(calls[..j]);
      assert calls[..j][..i] == calls[..i];
      assert LeftBy(calls, i, row.entry);
    }
  }

  /** A fresh operation that throws can be retried at once, whether or not it stored an event. One
      that is cut off can be retried only if it stored none: its mark stays. */
  lemma RetryAfterFailure(failed: Call, retry: Call)
    requires !failed.end.Done? && !failed.end.CutAfter? && retry.op == failed.op
    requires failed.start <= retry.start <= failed.start + RETENTION
    ensures var r := Claim(Claim(NoRow, failed).row, retry);
            && (r.answer == InProgress <==> failed.end.CutDuring? && failed.emitted)
            && (r.answer != InProgress ==> r == Claim(NoRow, retry))
  {
  }
}

/** The op log table and the call that uses it. */
module OpClaim {
  import opened OpClaimModel
  import Model = OpClaimModel

  class OpLog {
    var rows: map<string, Entry>

    function Row(id: string): Model.Row
      reads this
    {
      if id in rows then Stored(rows[id]) else NoRow
    }

    constructor ()
      ensures rows == map[]
    {
      rows := map[];
    }

    method Lookup(id: string, now: nat) returns (found: Model.Row)
      modifies this
      ensures found == Row(id) == Model.Lookup(old(Row(id)), now)
      ensures rows - {id} == old(rows - {id})
    {
      if id !in rows { return NoRow; }
      if rows[id].created + RETENTION < now {
        rows := rows - {id};
        return NoRow;
      }
      found := Stored(rows[id]);
    }

    method ForgetPending(id: string)
      modifies this
      ensures Row(id) == if old(Row(id)).Stored? && old(Row(id)).entry.kept.Pending? then NoRow else old(Row(id))
      ensures rows - {id} == old(rows - {id})
    {
      if id in rows && rows[id].kept.Pending? {
        rows := rows - {id};
      }
    }

    /** `c.end` and `c.emitted` say what the work did while the call awaited it. */
    method ClaimOp(id: string, c: Call) returns (answer: Answer)
      modifies this
      ensures Row(id) == Claim(old(Row(id)), c).row && answer == Claim(old(Row(id)), c).answer
      ensures rows - {id} == old(rows - {id})
    {
      var found := Lookup(id, c.start);
      if found.Stored? {
        if !SameOp(found.entry.op, c.op) { return Mismatch; }
        if found.entry.kept.Pending? { return InProgress; }
        return Returned(found.entry.kept.value);
      }
      if c.emitted {
        rows := rows[id := Entry(c.op, Pending, c.start)];
      }
      assert rows - {id} == old(rows - {id});
      match c.end
      case Raised =>
        ForgetPending(id);
        answer := Threw;
      case CutDuring => answer := Lost;
      case CutAfter(_) => answer := Lost;
      case Done(value) =>
        var saved := Lookup(id, c.finish);
        if saved.NoRow? {
          rows := rows[id := Entry(c.op, Result(c.kept), c.finish)];
        } else {
          rows := rows[id := saved.entry.(kept := Result(c.kept))];
        }
        assert rows - {id} == old(rows - {id});
        answer := Returned(value);
    }
  }
}
