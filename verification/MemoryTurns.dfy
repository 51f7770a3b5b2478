/** What a turn stages against what it would have edited: committing the turn comes to the same. */
module MemoryTurns {
  import opened MemoryModel
  import opened MemoryBudget
  import opened MemoryRuns
  import opened MemoryStore
  import opened MemoryEdits
  import opened Options

  predicate Staging(op: Op) {
    op.Save? || op.StageTier? || op.StageDelete?
  }

  /** The operation as an edit of the rows themselves. A tier change finds no row, or needs the row at
      the revision it names. */
  function Direct(rows: map<Id, Memory>, op: Op): Option<map<Id, Memory>>
    requires Staging(op)
  {
    match op
    case Save(_, id, text, tier, origin) => Some(rows[id := Memory(text, tier, origin, 1)])
    case StageTier(_, id, tier, _, revision) =>
      if id !in rows then Some(rows)
      else if rows[id].revision != revision then None
      else Some(rows[id := Memory(rows[id].text, tier, rows[id].origin, revision + 1)])
    case StageDelete(_, id) => Some(rows - {id})
  }

  // The tier changes of a batch, one more and one fewer.

  lemma {:induction false} TiersWithout(rows: map<Id, Memory>, tiers: seq<Promise>, id: Id)
    requires ApplyTiers(rows, tiers).Some?
    ensures ApplyTiers(rows - {id}, tiers) == Some(ApplyTiers(rows, tiers).value - {id})
    decreases |tiers|
  {
    if tiers != [] {
      var p := tiers[0];
      if p.id !in rows {
        TiersWithout(rows, tiers[1..], id);
      } else {
        var row := rows[p.id].(tier := p.tier, revision := rows[p.id].revision + 1);
        TiersWithout(rows[p.id := row], tiers[1..], id);
        if p.id == id {
          assert rows[p.id := row] - {id} == rows - {id};
        } else {
          assert rows[p.id := row] - {id} == (rows - {id})[p.id := row];
        }
      }
    }
  }

  lemma {:induction false} TiersPut(rows: map<Id, Memory>, tiers: seq<Promise>, id: Id, m: Memory)
    requires ApplyTiers(rows, tiers).Some? && forall p :: p in tiers ==> p.id != id
    ensures ApplyTiers(rows[id := m], tiers) == Some(ApplyTiers(rows, tiers).value[id := m])
    decreases |tiers|
  {
    if tiers != [] {
      var p := tiers[0];
      assert p in tiers;
      if p.id !in rows {
        TiersPut(rows, tiers[1..], id, m);
      } else {
        var row := rows[p.id].(tier := p.tier, revision := rows[p.id].revision + 1);
        TiersPut(rows[p.id := row], tiers[1..], id, m);
        assert rows[p.id := row][id := m] == rows[id := m][p.id := row];
      }
    }
  }

  lemma {:induction false} TiersMore(rows: map<Id, Memory>, tiers: seq<Promise>, p: Promise)
    requires ApplyTiers(rows, tiers).Some?
    ensures var v := ApplyTiers(rows, tiers).value;
            ApplyTiers(rows, tiers + [p])
            == if p.id !in v then Some(v)
               else if v[p.id].revision != p.revision then None
               else Some(v[p.id := Memory(v[p.id].text, p.tier, v[p.id].origin, p.revision + 1)])
    decreases |tiers|
  {
    var more := tiers + [p];
    if tiers != [] {
      var first := tiers[0];
      assert more[0] == first && more[1..] == tiers[1..] + [p];
      if first.id !in rows {
        TiersMore(rows, tiers[1..], p);
      } else {
        var row := rows[first.id].(tier := first.tier, revision := rows[first.id].revision + 1);
        TiersMore(rows[first.id := row], tiers[1..], p);
      }
    } else {
      assert more[0] == p && more[1..] == [];
    }
  }

  // What every run keeps of the staged deletes.

  ghost predicate TidyBatch(drafts: map<Id, string>, b: Batch) {
    b.deletes <= drafts.Keys && b.deletes !! b.inserts.Keys
  }

  /** A staged delete is of a memory that was stored, never of a draft of its own turn. */
  ghost predicate Tidy(s: Store) {
    forall b :: Among(s.staged, b) ==> TidyBatch(s.drafts, b)
  }

  lemma TidyOf(s: Store, turn: Turn)
    requires Tidy(s)
    ensures TidyBatch(s.drafts, BatchOf(s.staged, turn))
  {
    assert turn in s.staged.pending ==> Among(s.staged, s.staged.pending[turn]);
  }

  lemma TidyStaged(s: Store, turn: Turn, b: Batch, drafts: map<Id, string>)
    requires Tidy(s) && s.drafts.Keys <= drafts.Keys && TidyBatch(drafts, b)
    ensures Tidy(s.(staged := Stage(s.staged, turn, b), drafts := drafts))
  {
    StageAmong(s.staged, turn, b);
    hide Among;
  }

  lemma TidySame(s: Store, r: Store)
    requires Tidy(s) && r.drafts == s.drafts && Fewer(r.staged, s.staged)
    ensures Tidy(r)
  {
    hide Among;
  }

  lemma FewerSame(s: Store)
    ensures Fewer(s.staged, s.staged)
  {
  }

  lemma TidyEffect(s: Store, plan: Plan)
    requires Tidy(s) && PlanOk(s, plan) && s.rows.Keys <= s.drafts.Keys
    requires plan.op.StageDelete? && !plan.drafted ==> !Drafted(s.staged, plan.op.turn, plan.op.id)
    ensures Tidy(Effect(s, plan))
  {
    hide Tidy, Among, NotDrafted, BeingWritten, Fewer;
    FewerSame(s);
    if Staging(plan.op) {
      var turn := plan.op.turn;
      TidyOf(s, turn);
      var r := Effect(s, plan);
      if r != s {
        TidyStaged(s, turn, r.staged.pending[turn], r.drafts);
      }
    } else {
      TidySame(s, Effect(s, plan));
    }
  }

  lemma TidyBegin(s: Store, op: Op)
    requires Shape(s) && Tidy(s) && Allowed(s, op)
    ensures Tidy(DoBegin(s, op))
  {
    hide Tidy, Allowed, Effect, PlanOk, Growing, Fewer, Among, DraftsApart, PromisesOnRows, Apply;
    PlanFits(s, op);
    FewerSame(s);
    match AskFor(s, op)
    case Refuse(_) =>
      if op.StageDelete? {
        TidyOf(s, op.turn);
        TidyStaged(s, op.turn, BatchOf(s.staged, op.turn), s.drafts);
      }
    case Act(plan) => TidyEffect(s, plan);
    case Check(plan) => TidySame(s, s.(holder := Asking(plan, s.staged)));
  }

  lemma TidyStep(s: Store, step: Step, budget: nat)
    requires Sound(s, budget) && Tidy(s)
    ensures Tidy(Do(s, step, budget))
  {
    hide Tidy, LiveBytes, Sum, CountedBytes, Allowed, Apart, Effect, PlanOk, AskFor, SnapshotOk, Fewer, Among,
      DraftsApart, PromisesOnRows, Apply, DoBegin;
    FewerSame(s);
    match step
    case Begin(op) =>
      if s.holder.Free? && Allowed(s, op) {
        TidyBegin(s, op);
      }
    case Read => TidySame(s, Do(s, step, budget));
    case Finish =>
      if s.holder.Told? {
        var free := s.(holder := Free);
        TidySame(s, free);
        HolderAside(s, Free);
        TidyEffect(free, s.holder.plan);
      }
    case Write(turn) =>
      if s.holder.Free? && Writable(s.staged, turn) {
        WriteIsFewer(s, turn);
        TidySame(s, DoWrite(s, turn));
      }
    case End(turn, commit) =>
      if turn in s.staged.writing {
        EndStaged(s, turn, commit);
        TidySame(s, DoEnd(s, turn, commit));
      }
    case Rollback(turn) =>
      RollbackIsFewer(s, turn);
      TidySame(s, DoRollback(s, turn));
  }

  lemma {:induction false} RunTidy(s: Store, steps: seq<Step>, budget: nat)
    requires Fresh(s, budget)
    ensures Sound(Run(s, steps, budget), budget) && Tidy(Run(s, steps, budget))
  {
    hide Sound, Do, Tidy;
    FreshIsSound(s, budget);
    RunSound(s, steps, budget);
    if steps != [] {
      RunTidy(s, steps[..|steps| - 1], budget);
      TidyStep(Run(s, steps[..|steps| - 1], budget), steps[|steps| - 1], budget);
    } else {
      FreshIsTidy(s, budget);
    }
  }

  lemma FreshIsTidy(s: Store, budget: nat)
    requires Fresh(s, budget)
    ensures Tidy(s)
  {
    assert forall b :: !Among(s.staged, b);
  }

  // One staged operation.

  /** What would be stored if the turn committed now. */
  function IfCommitted(s: Store, turn: Turn): Option<map<Id, Memory>> {
    Apply(s.rows, BatchOf(s.staged, turn))
  }

  /** Whether the operation is refused, and why. A tier change looks at the turn's own draft first. */
  lemma StagedAnswers(s: Store, op: Op, budget: nat)
    requires Staging(op)
    ensures var answer := Performed(s, op, budget).1;
            var drafted := !op.Save? && Drafted(s.staged, op.turn, op.id);
            && (answer.NotFound? <==> !op.Save? && !drafted && op.id !in s.rows)
            && (op.StageDelete? && !answer.NotFound? ==> answer.Done?)
            && (op.Save? ==> answer.Done? || (answer.OverBudget? && op.tier.Pinned?))
            && (op.StageTier? && !answer.NotFound? ==>
                  var seen := if drafted then s.staged.pending[op.turn].inserts[op.id] else s.rows[op.id];
                  && (answer.Locked? <==> op.actor.Bot? && seen.origin.User?)
                  && (answer.Conflict? <==> !(op.actor.Bot? && seen.origin.User?) && seen.revision != op.revision)
                  && (answer.OverBudget? ==> op.tier.Pinned? && seen.tier.Recall?))
  {
    hide CountedBytes, Sum, Effect, Touched;
  }

  lemma DraftIsApart(s: Store, turn: Turn)
    requires Shape(s) && Tidy(s)
    ensures var b := BatchOf(s.staged, turn);
            && (forall id, p :: id in b.inserts && p in b.tiers ==> p.id != id)
            && (forall id :: id in b.inserts ==> id !in s.rows && id !in b.deletes)
            && (forall p :: p in b.tiers ==> p.id in s.drafts) && b.deletes <= s.drafts.Keys
  {
    hide DraftsApart, Apply;
    TidyOf(s, turn);
    var b := BatchOf(s.staged, turn);
    if turn in s.staged.pending {
      assert Among(s.staged, b);
      assert GoodBatch(s.rows, s.drafts, b);
      forall id, p | id in b.inserts && p in b.tiers
        ensures p.id != id
      {
        assert NotDrafted(s.staged, p.id);
      }
    }
  }

  lemma SaveCommutes(s: Store, op: Op)
    requires Shape(s) && Tidy(s) && op.Save? && op.id !in s.drafts && IfCommitted(s, op.turn).Some?
    ensures var b := BatchOf(s.staged, op.turn);
            Apply(s.rows, b.(inserts := b.inserts[op.id := Memory(op.text, op.tier, op.origin, 1)]))
            == Direct(IfCommitted(s, op.turn).value, op)
  {
    hide Shape, Tidy;
    DraftIsApart(s, op.turn);
    var b, m := BatchOf(s.staged, op.turn), Memory(op.text, op.tier, op.origin, 1);
    var base := (s.rows + b.inserts) - b.deletes;
    TiersPut(base, b.tiers, op.id, m);
    assert (s.rows + b.inserts[op.id := m]) - b.deletes == base[op.id := m];
  }

  lemma DropCommutes(s: Store, turn: Turn, id: Id)
    requires Shape(s) && Tidy(s) && Drafted(s.staged, turn, id) && IfCommitted(s, turn).Some?
    ensures var b := BatchOf(s.staged, turn);
            Apply(s.rows, b.(inserts := b.inserts - {id})) == Some(IfCommitted(s, turn).value - {id})
  {
    hide Shape, Tidy;
    DraftIsApart(s, turn);
    var b := BatchOf(s.staged, turn);
    var base := (s.rows + b.inserts) - b.deletes;
    TiersWithout(base, b.tiers, id);
    assert (s.rows + (b.inserts - {id})) - b.deletes == base - {id};
  }

  lemma DeleteCommutes(s: Store, turn: Turn, id: Id)
    requires IfCommitted(s, turn).Some?
    ensures var b := BatchOf(s.staged, turn);
            Apply(s.rows, b.(deletes := b.deletes + {id})) == Some(IfCommitted(s, turn).value - {id})
  {
    var b := BatchOf(s.staged, turn);
    var base := (s.rows + b.inserts) - b.deletes;
    TiersWithout(base, b.tiers, id);
    assert (s.rows + b.inserts) - (b.deletes + {id}) == base - {id};
  }

  lemma {:induction false} TiersLeave(rows: map<Id, Memory>, tiers: seq<Promise>, id: Id)
    requires ApplyTiers(rows, tiers).Some? && id in rows && forall p :: p in tiers ==> p.id != id
    ensures id in ApplyTiers(rows, tiers).value && ApplyTiers(rows, tiers).value[id] == rows[id]
    decreases |tiers|
  {
    if tiers != [] {
      var p := tiers[0];
      assert p in tiers;
      if p.id !in rows {
        TiersLeave(rows, tiers[1..], id);
      } else {
        TiersLeave(rows[p.id := rows[p.id].(tier := p.tier, revision := rows[p.id].revision + 1)], tiers[1..], id);
      }
    }
  }

  lemma RetierCommutes(s: Store, op: Op)
    requires Shape(s) && Tidy(s) && op.StageTier? && Drafted(s.staged, op.turn, op.id)
    requires IfCommitted(s, op.turn).Some? && s.staged.pending[op.turn].inserts[op.id].revision == op.revision
    ensures var b := s.staged.pending[op.turn];
            var m := b.inserts[op.id].(tier := op.tier, revision := op.revision + 1);
            Apply(s.rows, b.(inserts := b.inserts[op.id := m])) == Direct(IfCommitted(s, op.turn).value, op)
  {
    hide Shape, Tidy;
    DraftIsApart(s, op.turn);
    var b := BatchOf(s.staged, op.turn);
    var m := b.inserts[op.id].(tier := op.tier, revision := op.revision + 1);
    var base := (s.rows + b.inserts) - b.deletes;
    TiersLeave(base, b.tiers, op.id);
    TiersPut(base, b.tiers, op.id, m);
    assert (s.rows + b.inserts[op.id := m]) - b.deletes == base[op.id := m];
  }

  /** What staging leaves: other batches and the rows as they were, and the turn's own batch. */
  ghost predicate Restaged(s: Store, r: Store, turn: Turn, b: Batch) {
    r == s.(staged := Stage(s.staged, turn, b), drafts := r.drafts)
  }

  lemma StagedFrame(s: Store, r: Store, turn: Turn, b: Batch)
    requires Restaged(s, r, turn, b)
    ensures r.rows == s.rows && r.staged.writing == s.staged.writing && r.holder == s.holder
    ensures r.staged.pending - {turn} == s.staged.pending - {turn} && turn in r.staged.pending
    ensures IfCommitted(r, turn) == Apply(s.rows, b)
  {
    hide Apply;
  }

  /** The batch a turn has after an operation it staged. */
  function BatchAfter(s: Store, op: Op): Batch
    requires Staging(op)
  {
    var b := BatchOf(s.staged, op.turn);
    match op
    case Save(_, id, text, tier, origin) => b.(inserts := b.inserts[id := Memory(text, tier, origin, 1)])
    case StageTier(turn, id, tier, _, revision) =>
      if Drafted(s.staged, turn, id)
      then b.(inserts := b.inserts[id := b.inserts[id].(tier := tier, revision := revision + 1)])
      else b.(tiers := b.tiers + [Promise(id, tier, revision)])
    case StageDelete(turn, id) =>
      if Drafted(s.staged, turn, id) then b.(inserts := b.inserts - {id}) else b.(deletes := b.deletes + {id})
  }

  lemma DoneIsStaged(s: Store, op: Op, budget: nat)
    requires Staging(op) && Performed(s, op, budget).1.Done?
    ensures Restaged(s, Performed(s, op, budget).0, op.turn, BatchAfter(s, op))
    ensures op.StageTier? && Drafted(s.staged, op.turn, op.id) ==>
              s.staged.pending[op.turn].inserts[op.id].revision == op.revision
  {
    hide CountedBytes, Sum;
  }

  /** In every run: an operation that a turn stages changes no stored row and no other turn's batch,
      and what the turn would store is what it would have stored before, edited directly. */
  lemma StagingCommutes(s: Store, op: Op, budget: nat)
    requires Shape(s) && Tidy(s) && Allowed(s, op) && Staging(op)
    requires Performed(s, op, budget).1.Done? && IfCommitted(s, op.turn).Some?
    ensures var r := Performed(s, op, budget).0;
            && r.rows == s.rows && r.staged.writing == s.staged.writing && r.holder == s.holder
            && r.staged.pending - {op.turn} == s.staged.pending - {op.turn} && op.turn in r.staged.pending
            && IfCommitted(r, op.turn) == Direct(IfCommitted(s, op.turn).value, op)
  {
    hide Shape, Tidy, Apply, Performed, Direct, Restaged;
    var r := Performed(s, op, budget).0;
    DoneIsStaged(s, op, budget);
    StagedFrame(s, r, op.turn, BatchAfter(s, op));
    match op
    case Save(_, _, _, _, _) => SaveCommutes(s, op);
    case StageDelete(turn, id) =>
      DirectDelete(IfCommitted(s, turn).value, op);
      if Drafted(s.staged, turn, id) {
        DropCommutes(s, turn, id);
      } else {
        DeleteCommutes(s, turn, id);
      }
    case StageTier(turn, id, tier, actor, revision) =>
      if Drafted(s.staged, turn, id) {
        RetierCommutes(s, op);
      } else {
        PromiseCommutes(s, op);
      }
  }

  lemma DirectDelete(rows: map<Id, Memory>, op: Op)
    requires op.StageDelete?
    ensures Direct(rows, op) == Some(rows - {op.id})
  {
  }

  lemma PromiseCommutes(s: Store, op: Op)
    requires op.StageTier? && IfCommitted(s, op.turn).Some?
    ensures var b := BatchOf(s.staged, op.turn);
            Apply(s.rows, b.(tiers := b.tiers + [Promise(op.id, op.tier, op.revision)]))
            == Direct(IfCommitted(s, op.turn).value, op)
  {
    var b := BatchOf(s.staged, op.turn);
    TiersMore((s.rows + b.inserts) - b.deletes, b.tiers, Promise(op.id, op.tier, op.revision));
  }

  // A whole turn.

  ghost function PerformEach(s: Store, ops: seq<Op>, budget: nat): Store
    decreases |ops|
  {
    if ops == [] then s else Performed(PerformEach(s, ops[..|ops| - 1], budget), ops[|ops| - 1], budget).0
  }

  /** The turn stages the operations one after the other, and none is refused. */
  ghost predicate AllStaged(s: Store, turn: Turn, ops: seq<Op>, budget: nat)
    decreases |ops|
  {
    ops == []
    || (var front, op := ops[..|ops| - 1], ops[|ops| - 1];
        && AllStaged(s, turn, front, budget)
        && Staging(op) && op.turn == turn && Allowed(PerformEach(s, front, budget), op)
        && Performed(PerformEach(s, front, budget), op, budget).1.Done?)
  }

  function DirectEach(rows: map<Id, Memory>, ops: seq<Op>): Option<map<Id, Memory>>
    requires forall op :: op in ops ==> Staging(op)
    decreases |ops|
  {
    if ops == [] then Some(rows)
    else
      var front := DirectEach(rows, ops[..|ops| - 1]);
      if front.None? then None else Direct(front.value, ops[|ops| - 1])
  }

  lemma PerformedReachable(s: Store, op: Op, budget: nat)
    requires Sound(s, budget) && Tidy(s) && s.holder.Free? && Allowed(s, op)
    ensures Sound(Performed(s, op, budget).0, budget) && Tidy(Performed(s, op, budget).0)
  {
    hide Sound, Tidy, Do, Performed, Allowed;
    PerformedIsRun(s, op, budget);
    var begun := Do(s, Begin(op), budget);
    SoundStep(s, Begin(op), budget);
    TidyStep(s, Begin(op), budget);
    SoundStep(begun, Read, budget);
    TidyStep(begun, Read, budget);
    SoundStep(Do(begun, Read, budget), Finish, budget);
    TidyStep(Do(begun, Read, budget), Finish, budget);
  }

  lemma {:induction false} TurnStages(s: Store, turn: Turn, ops: seq<Op>, budget: nat)
    requires Sound(s, budget) && Tidy(s) && s.holder.Free? && turn !in s.staged.pending
    requires AllStaged(s, turn, ops, budget) && forall op :: op in ops ==> Staging(op)
    requires DirectEach(s.rows, ops).Some?
    ensures var r := PerformEach(s, ops, budget);
            && Sound(r, budget) && Tidy(r)
            && r.rows == s.rows && r.staged.writing == s.staged.writing && r.holder == s.holder
            && r.staged.pending - {turn} == s.staged.pending && (ops != [] ==> turn in r.staged.pending)
            && IfCommitted(r, turn) == DirectEach(s.rows, ops)
    decreases |ops|
  {
    hide Tidy, Performed, Allowed, Direct, Apply, Shape, LiveBytes, Sum, PlanOk;
    if ops != [] {
      var front, op := ops[..|ops| - 1], ops[|ops| - 1];
      TurnStages(s, turn, front, budget);
      var mid := PerformEach(s, front, budget);
      PerformedReachable(mid, op, budget);
      StagingCommutes(mid, op, budget);
    } else {
      assert s.staged.pending - {turn} == s.staged.pending;
      NothingCommitted(s, turn);
    }
  }

  lemma NothingCommitted(s: Store, turn: Turn)
    requires turn !in s.staged.pending
    ensures IfCommitted(s, turn) == Some(s.rows)
  {
    var none: set<Id> := {};
    var nothing: map<Id, Memory> := map[];
    assert (s.rows + nothing) - none == s.rows;
  }

  /** A turn that stages any drafts, tier changes and deletes, and then commits, leaves exactly the
      rows that the same operations would have left if it had edited the rows directly, one by one.
      Until then no row changes, and a turn that fails or is rolled back leaves nothing behind. */
  lemma TurnLands(s: Store, turn: Turn, ops: seq<Op>, budget: nat)
    requires Sound(s, budget) && Tidy(s) && s.holder.Free? && turn !in s.staged.pending && ops != []
    requires AllStaged(s, turn, ops, budget) && forall op :: op in ops ==> Staging(op)
    requires DirectEach(s.rows, ops).Some?
    ensures var r := PerformEach(s, ops, budget);
            && r.rows == s.rows && turn in r.staged.pending
            && DoEnd(DoWrite(r, turn), turn, true).rows == DirectEach(s.rows, ops).value
            && DoEnd(DoWrite(r, turn), turn, false).rows == s.rows
            && DoRollback(r, turn).rows == s.rows && DoRollback(r, turn).staged == s.staged
            && (turn !in s.staged.writing ==> forall commit :: DoEnd(DoWrite(r, turn), turn, commit).staged == s.staged)
  {
    hide Sound, Tidy, Performed, Allowed, Direct, Apply;
    TurnStages(s, turn, ops, budget);
    var r := PerformEach(s, ops, budget);
    if turn !in s.staged.writing {
      assert DoWrite(r, turn).staged.writing - {turn} == s.staged.writing;
    }
  }

  /** The one way a turn can spoil its own commit: it promises the same stored memory twice. The second
      promise is staged like the first, and then nothing of the turn can land. */
  lemma SecondPromiseBlocks(s: Store, op: Op, budget: nat)
    requires Shape(s) && Tidy(s) && Allowed(s, op) && op.StageTier? && !Drafted(s.staged, op.turn, op.id)
    requires Performed(s, op, budget).1.Done? && IfCommitted(s, op.turn).Some?
    ensures IfCommitted(Performed(s, op, budget).0, op.turn).None?
            <==> op.id !in BatchOf(s.staged, op.turn).deletes
                 && exists p :: p in BatchOf(s.staged, op.turn).tiers && p.id == op.id
  {
    hide CountedBytes, Sum, Effect, Apply;
    StagingCommutes(s, op, budget);
    StagedAnswers(s, op, budget);
    RevisionAfter(s, op.turn, op.id);
  }

  lemma {:induction false} TiersRaise(rows: map<Id, Memory>, tiers: seq<Promise>, id: Id)
    requires ApplyTiers(rows, tiers).Some? && id in rows
    ensures id in ApplyTiers(rows, tiers).value
    ensures var after := ApplyTiers(rows, tiers).value[id].revision;
            if exists p :: p in tiers && p.id == id then after > rows[id].revision else after == rows[id].revision
    decreases |tiers|
  {
    if tiers != [] {
      var p := tiers[0];
      assert p in tiers && forall q :: q in tiers ==> q == p || q in tiers[1..];
      if p.id !in rows {
        TiersRaise(rows, tiers[1..], id);
      } else {
        TiersRaise(rows[p.id := rows[p.id].(tier := p.tier, revision := rows[p.id].revision + 1)], tiers[1..], id);
      }
    }
  }

  lemma RevisionAfter(s: Store, turn: Turn, id: Id)
    requires Shape(s) && id in s.rows && IfCommitted(s, turn).Some?
    ensures var b, v := BatchOf(s.staged, turn), IfCommitted(s, turn).value;
            && (id in v <==> id !in b.deletes)
            && (id in v ==> (v[id].revision != s.rows[id].revision <==> exists p :: p in b.tiers && p.id == id))
  {
    RowNotDrafted(s, id);
    var b := BatchOf(s.staged, turn);
    assert turn in s.staged.pending ==> Among(s.staged, b);
    hide Shape, Among;
    var base := (s.rows + b.inserts) - b.deletes;
    if id in base {
      TiersRaise(base, b.tiers, id);
    } else {
      TiersWithout(base, b.tiers, id);
      assert base - {id} == base;
    }
  }
}
