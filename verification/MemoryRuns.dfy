/** Every step keeps the budget invariant, and so does every run. */
module MemoryRuns {
  import opened MemoryModel
  import opened MemoryBudget
  import opened Options

  // Edits of one committed row.

  lemma EditShape(s: Store, id: Id, row: Memory)
    requires Shape(s) && id in s.rows && !BeingWritten(s.staged, id) && row.revision >= s.rows[id].revision
    ensures Shape(s.(rows := s.rows[id := row]))
  {
    var rows := s.rows[id := row];
    hide Among, DraftsApart, PromisesOnRows, Apply;
    forall t | t in s.staged.writing && s.staged.writing[t].applied
      ensures Apply(rows, s.staged.writing[t].batch).Some?
    {
      ApplyLocal(s.rows, rows, s.staged.writing[t].batch);
    }
  }

  lemma DeleteShape(s: Store, id: Id)
    requires Shape(s) && id in s.rows && !BeingWritten(s.staged, id)
    ensures Shape(s.(rows := s.rows - {id}))
  {
    var rows := s.rows - {id};
    hide Among, DraftsApart, PromisesOnRows, Apply;
    forall t | t in s.staged.writing && s.staged.writing[t].applied
      ensures Apply(rows, s.staged.writing[t].batch).Some?
    {
      ApplyLocal(s.rows, rows, s.staged.writing[t].batch);
    }
  }

  lemma EditNoMore(s: Store, id: Id, rows: map<Id, Memory>)
    requires forall k :: k != id ==> Agree(s.rows, rows, k)
    ensures NoMore(s.(rows := rows), s, {id})
  {
    hide Among;
    forall k | k != id && k in s.drafts && Live(rows, s.staged, k)
      ensures Live(s.rows, s.staged, k) && Size(rows, s.drafts, k) <= Size(s.rows, s.drafts, k)
    {
      assert Agree(s.rows, rows, k);
    }
  }

  /** A new revision voids every promise made for the row. */
  lemma NewRevisionVoids(s: Store, id: Id, row: Memory)
    requires Shape(s) && id in s.rows && row.revision > s.rows[id].revision
    ensures Live(s.rows[id := row], s.staged, id) ==> row.tier.Pinned?
  {
    hide DraftsApart, PromisesOnRows, Apply, Among;
    forall b | Among(s.staged, b)
      ensures !DraftPin(b, id) && !LivePin(b, id, row.revision)
    {
      assert GoodBatch(s.rows, s.drafts, b);
    }
  }

  lemma RowIsLive(s: Store, id: Id)
    requires Shape(s) && id in s.rows && s.rows[id].tier.Pinned?
    ensures id in LiveBytes(s) && LiveBytes(s)[id] == |s.rows[id].text|
  {
    hide DraftsApart, PromisesOnRows, Apply, Among;
  }

  lemma PinnedSizeWithin(s: Store, id: Id)
    requires Shape(s) && id in s.rows && s.rows[id].tier.Pinned?
    ensures Sum(LiveBytes(s) - {id}) == Sum(LiveBytes(s)) - |s.rows[id].text|
  {
    RowIsLive(s, id);
    SumSplit(LiveBytes(s), id);
  }

  ghost predicate Keeps(s: Store, r: Store, budget: nat) {
    Shape(s) && Sum(LiveBytes(s)) <= budget && s.holder == r.holder
  }

  /** Putting `row` in place of a committed row, when it pins no more than `grown` allows for. */
  lemma EditKeeps(s: Store, id: Id, row: Memory, budget: nat)
    requires Shape(s) && id in s.rows && !BeingWritten(s.staged, id) && row.revision > s.rows[id].revision
    requires row.tier.Pinned? ==> Sum(LiveBytes(s) - {id}) + |row.text| <= budget
    requires Sum(LiveBytes(s)) <= budget
    ensures Keeps(s.(rows := s.rows[id := row]), s, budget)
  {
    hide Shape, NoMore, Live, BeingWritten;
    var s' := s.(rows := s.rows[id := row]);
    EditShape(s, id, row);
    EditNoMore(s, id, s'.rows);
    NewRevisionVoids(s, id, row);
    if row.tier.Pinned? {
      OneGrows(s', s, id, |row.text|, Sum(LiveBytes(s) - {id}));
    } else {
      GoneFromSum(s', s, id);
    }
  }

  lemma DeleteKeeps(s: Store, id: Id, budget: nat)
    requires Shape(s) && id in s.rows && !BeingWritten(s.staged, id) && Sum(LiveBytes(s)) <= budget
    ensures Keeps(s.(rows := s.rows - {id}), s, budget)
  {
    hide Shape, NoMore, Live, BeingWritten;
    var s' := s.(rows := s.rows - {id});
    DeleteShape(s, id);
    EditNoMore(s, id, s'.rows);
    GoneIsNotLive(s, id);
    GoneFromSum(s', s, id);
  }

  lemma GoneFromSum(s: Store, r: Store, id: Id)
    requires NoMore(s, r, {id}) && id !in LiveBytes(s)
    ensures Sum(LiveBytes(s)) <= Sum(LiveBytes(r))
  {
    hide Live, Size;
    SumGrows(LiveBytes(s), LiveBytes(r));
  }

  lemma GoneIsNotLive(s: Store, id: Id)
    requires Shape(s) && id in s.rows
    ensures !Live(s.rows - {id}, s.staged, id)
  {
    hide DraftsApart, PromisesOnRows, Apply, Among;
    forall b | Among(s.staged, b)
      ensures !DraftPin(b, id)
    {
      assert GoodBatch(s.rows, s.drafts, b);
    }
  }

  // Staging.

  /** A plan that takes effect has passed the check it needed. */
  ghost predicate Paid(s: Store, plan: Plan, budget: nat) {
    Growing(plan) ==> Sum(LiveBytes(s) - Replacing(plan)) + Extra(plan) <= budget
  }

  lemma BatchIsGood(s: Store, turn: Turn)
    requires Shape(s)
    ensures GoodBatch(s.rows, s.drafts, BatchOf(s.staged, turn)) && Extends(s, turn, BatchOf(s.staged, turn))
  {
    StageAmong(s.staged, turn, NOTHING);
    hide DraftsApart, Apply, Among;
    var b := BatchOf(s.staged, turn);
    forall p | p in b.tiers
      ensures p.id in s.drafts && NotDrafted(s.staged, p.id)
    {
      assert GoodBatch(s.rows, s.drafts, b);
    }
  }

  lemma StageKeeps(s: Store, turn: Turn, b: Batch, drafts: map<Id, string>, budget: nat)
    requires Shape(s) && KnowsMore(drafts, s.drafts) && Extends(s, turn, b) && GoodBatch(s.rows, drafts, b)
    requires NoMore(s.(staged := Stage(s.staged, turn, b), drafts := drafts), s, {})
    requires Sum(LiveBytes(s)) <= budget
    ensures Keeps(s.(staged := Stage(s.staged, turn, b), drafts := drafts), s, budget)
  {
    StageShape(s, turn, b, drafts);
    NoMoreAtAll(s.(staged := Stage(s.staged, turn, b), drafts := drafts), s);
  }

  lemma StageGrows(s: Store, turn: Turn, b: Batch, drafts: map<Id, string>, id: Id, size: nat, budget: nat)
    requires Shape(s) && KnowsMore(drafts, s.drafts) && Extends(s, turn, b) && GoodBatch(s.rows, drafts, b)
    requires NoMore(s.(staged := Stage(s.staged, turn, b), drafts := drafts), s, {id})
    requires Size(s.rows, drafts, id) <= size
    requires Sum(LiveBytes(s) - {id}) + size <= budget
    ensures Keeps(s.(staged := Stage(s.staged, turn, b), drafts := drafts), s, budget)
  {
    hide Shape, Live, Size, NoMore, Extends, GoodBatch;
    StageShape(s, turn, b, drafts);
    OneGrows(s.(staged := Stage(s.staged, turn, b), drafts := drafts), s, id, size, Sum(LiveBytes(s) - {id}));
  }

  function Saved(s: Store, turn: Turn, id: Id, seen: Memory): Store {
    var b := BatchOf(s.staged, turn);
    s.(staged := Stage(s.staged, turn, b.(inserts := b.inserts[id := seen])), drafts := s.drafts[id := seen.text])
  }

  lemma SavedKeeps(s: Store, turn: Turn, id: Id, seen: Memory, budget: nat)
    requires Shape(s) && id !in s.drafts && Sum(LiveBytes(s)) <= budget
    requires seen.tier.Pinned? ==> Sum(LiveBytes(s)) + |seen.text| <= budget
    ensures Keeps(Saved(s, turn, id, seen), s, budget)
  {
    var b := BatchOf(s.staged, turn);
    var b' := b.(inserts := b.inserts[id := seen]);
    var drafts := s.drafts[id := seen.text];
    hide DraftsApart, PromisesOnRows, Apply, Among, NotDrafted, Live, LiveBytes, GoodBatch, NoMore, BatchOf, Sum;
    assert Size(s.rows, drafts, id) == |seen.text|;
    hide Shape, Extends;
    BatchIsGood(s, turn);
    SavedIsGood(s, turn, id, seen, b);
    StageNoMore(s, turn, b', drafts, {id});
    if seen.tier.Pinned? {
      SumGrows(LiveBytes(s) - {id}, LiveBytes(s));
      StageGrows(s, turn, b', drafts, id, |seen.text|, budget);
    } else {
      SavedRecallIsNotLive(s, turn, b', drafts, id);
      StageKeeps(s, turn, b', drafts, budget);
    }
  }

  lemma SaveKeeps(s: Store, plan: Plan, budget: nat)
    requires Shape(s) && Sum(LiveBytes(s)) <= budget && plan.op.Save? && PlanOk(s, plan) && Paid(s, plan, budget)
    ensures Keeps(Effect(s, plan), s, budget)
  {
    hide Shape, LiveBytes, Sum, Keeps;
    assert LiveBytes(s) - {} == LiveBytes(s);
    SavedKeeps(s, plan.op.turn, plan.op.id, plan.seen, budget);
  }

  lemma SavedIsGood(s: Store, turn: Turn, id: Id, seen: Memory, b: Batch)
    requires Shape(s) && id !in s.drafts && GoodBatch(s.rows, s.drafts, b) && Extends(s, turn, b)
    ensures GoodBatch(s.rows, s.drafts[id := seen.text], b.(inserts := b.inserts[id := seen]))
    ensures Extends(s, turn, b.(inserts := b.inserts[id := seen]))
  {
    hide Among, DraftsApart, PromisesOnRows, Apply, NotDrafted;
  }

  lemma SavedRecallIsNotLive(s: Store, turn: Turn, b: Batch, drafts: map<Id, string>, id: Id)
    requires Shape(s) && id !in s.drafts && id in b.inserts && b.inserts[id].tier.Recall?
    requires NoMore(s.(staged := Stage(s.staged, turn, b), drafts := drafts), s, {id})
    ensures NoMore(s.(staged := Stage(s.staged, turn, b), drafts := drafts), s, {})
  {
    hide Among, DraftsApart, PromisesOnRows, Apply;
    var st := Stage(s.staged, turn, b);
    StageAmong(s.staged, turn, b);
    FreshNotDrafted(s, id);
    assert !SomeDraftPin(st, id);
    assert !Live(s.rows, st, id);
  }

  function Retiered(s: Store, turn: Turn, id: Id, row: Memory): Store {
    var b := BatchOf(s.staged, turn);
    s.(staged := Stage(s.staged, turn, b.(inserts := b.inserts[id := row])))
  }

  lemma RetieredIsGood(s: Store, turn: Turn, id: Id, row: Memory, b: Batch)
    requires Shape(s) && b == BatchOf(s.staged, turn) && id in b.inserts && row.text == b.inserts[id].text
    ensures GoodBatch(s.rows, s.drafts, b.(inserts := b.inserts[id := row]))
    ensures Extends(s, turn, b.(inserts := b.inserts[id := row]))
    ensures Size(s.rows, s.drafts, id) == |row.text|
  {
    hide Shape, NotDrafted;
    BatchIsGood(s, turn);
  }

  lemma RetieredKeeps(s: Store, turn: Turn, id: Id, row: Memory, grows: bool, budget: nat)
    requires Shape(s) && Sum(LiveBytes(s)) <= budget
    requires id in BatchOf(s.staged, turn).inserts && row.text == BatchOf(s.staged, turn).inserts[id].text
    requires if grows then Sum(LiveBytes(s) - {id}) + |row.text| <= budget
             else row.tier.Pinned? ==> BatchOf(s.staged, turn).inserts[id].tier.Pinned?
    ensures Keeps(Retiered(s, turn, id, row), s, budget)
  {
    hide Shape, Extends, GoodBatch, Size, Live, LiveBytes, NoMore, Sum;
    var b := BatchOf(s.staged, turn);
    var b' := b.(inserts := b.inserts[id := row]);
    RetieredIsGood(s, turn, id, row, b);
    if grows {
      StageNoMore(s, turn, b', s.drafts, {id});
      StageGrows(s, turn, b', s.drafts, id, |row.text|, budget);
    } else {
      StageNoMore(s, turn, b', s.drafts, {});
      StageKeeps(s, turn, b', s.drafts, budget);
    }
  }

  lemma DraftTierKeeps(s: Store, plan: Plan, budget: nat)
    requires Shape(s) && Sum(LiveBytes(s)) <= budget && plan.op.StageTier? && plan.drafted
    requires PlanOk(s, plan) && Paid(s, plan, budget)
    ensures Keeps(Effect(s, plan), s, budget)
  {
    var op := plan.op;
    hide Shape, LiveBytes, Sum, Keeps, NotDrafted;
    if op.id in BatchOf(s.staged, op.turn).inserts {
      var row := plan.seen.(tier := op.tier, revision := op.revision + 1);
      RetieredKeeps(s, op.turn, op.id, row, Growing(plan), budget);
    } else {
      KeepsItself(s, budget);
    }
  }

  lemma KeepsItself(s: Store, budget: nat)
    requires Shape(s) && Sum(LiveBytes(s)) <= budget
    ensures Keeps(s, s, budget)
  {
    hide Shape;
  }

  lemma PromiseKeeps(s: Store, plan: Plan, budget: nat)
    requires Shape(s) && Sum(LiveBytes(s)) <= budget && plan.op.StageTier? && !plan.drafted
    requires PlanOk(s, plan) && Paid(s, plan, budget)
    ensures Keeps(Effect(s, plan), s, budget)
  {
    var op := plan.op;
    var b := BatchOf(s.staged, op.turn);
    var b' := b.(tiers := b.tiers + [Promise(op.id, op.tier, op.revision)]);
    BatchIsGood(s, op.turn);
    assert GoodBatch(s.rows, s.drafts, b') && Extends(s, op.turn, b');
    if Growing(plan) && op.id in s.rows && s.rows[op.id] == plan.seen {
      StageNoMore(s, op.turn, b', s.drafts, {op.id});
      hide Shape, NoMore, Extends, GoodBatch, Live, NotDrafted;
      StageGrows(s, op.turn, b', s.drafts, op.id, |plan.seen.text|, budget);
    } else {
      PromiseNoMore(s, plan);
      hide Shape, NoMore, Extends, GoodBatch, Live, Size, NotDrafted;
      StageKeeps(s, op.turn, b', s.drafts, budget);
    }
  }

  /** A promise for a row that is gone, moved on, or pinned already reserves nothing more. */
  lemma PromiseNoMore(s: Store, plan: Plan)
    requires Shape(s) && plan.op.StageTier? && !plan.drafted && PlanOk(s, plan)
    requires !(Growing(plan) && plan.op.id in s.rows && s.rows[plan.op.id] == plan.seen)
    ensures NoMore(Effect(s, plan), s, {})
  {
    hide Among, Shape;
    var op := plan.op;
    var p := Promise(op.id, op.tier, op.revision);
    var b := BatchOf(s.staged, op.turn);
    var b' := b.(tiers := b.tiers + [p]);
    var st := Stage(s.staged, op.turn, b');
    StageAmong(s.staged, op.turn, b');
    forall id | id in s.drafts && Live(s.rows, st, id)
      ensures Live(s.rows, s.staged, id)
    {
      if SomeDraftPin(st, id) {
        var x :| Among(st, x) && DraftPin(x, id);
        assert Among(s.staged, b) || Among(s.staged, x);
      } else if s.rows[id].tier.Recall? {
        var x :| Among(st, x) && LivePin(x, id, s.rows[id].revision);
        if x == b' {
          var q :| q in b'.tiers && q.id == id && q.tier.Pinned? && q.revision == s.rows[id].revision;
          assert q in b.tiers;
          assert LivePin(b, id, s.rows[id].revision);
        }
      }
    }
  }

  lemma StageDeleteKeeps(s: Store, plan: Plan, budget: nat)
    requires Shape(s) && Sum(LiveBytes(s)) <= budget && plan.op.StageDelete?
    ensures Keeps(Effect(s, plan), s, budget)
  {
    hide Shape, NoMore, Live, Size, NotDrafted;
    var op := plan.op;
    var b := BatchOf(s.staged, op.turn);
    var b' := if plan.drafted then b.(inserts := b.inserts - {op.id}) else b.(deletes := b.deletes + {op.id});
    BatchIsGood(s, op.turn);
    StageNoMore(s, op.turn, b', s.drafts, {});
    StageKeeps(s, op.turn, b', s.drafts, budget);
  }

  lemma TouchKeeps(s: Store, op: Op, budget: nat)
    requires Shape(s) && Sum(LiveBytes(s)) <= budget
    ensures Keeps(Touched(s, op), s, budget)
  {
    if op.StageDelete? {
      BatchIsGood(s, op.turn);
      StageNoMore(s, op.turn, BatchOf(s.staged, op.turn), s.drafts, {});
      StageKeeps(s, op.turn, BatchOf(s.staged, op.turn), s.drafts, budget);
    }
  }

  // The steps.

  lemma RowEditKeeps(s: Store, plan: Plan, budget: nat)
    requires Shape(s) && Sum(LiveBytes(s)) <= budget && PlanOk(s, plan) && Paid(s, plan, budget)
    requires plan.op.SetTier? || plan.op.UpdateText? || plan.op.Delete?
    ensures Keeps(Effect(s, plan), s, budget)
  {
    var id := plan.op.id;
    hide Shape, Live;
    if plan.op.Delete? {
      DeleteKeeps(s, id, budget);
    } else {
      var row := Effect(s, plan).rows[id];
      assert LiveBytes(s) - {} == LiveBytes(s);
      if plan.seen.tier.Pinned? {
        PinnedSizeWithin(s, id);
      }
      hide LiveBytes, Sum, BeingWritten, Keeps;
      assert Effect(s, plan) == s.(rows := s.rows[id := row]);
      assert row.tier.Pinned? ==> Sum(LiveBytes(s) - {id}) + |row.text| <= budget;
      EditKeeps(s, id, row, budget);
    }
  }

  lemma EffectKeeps(s: Store, plan: Plan, budget: nat)
    requires Shape(s) && Sum(LiveBytes(s)) <= budget && PlanOk(s, plan) && Paid(s, plan, budget)
    ensures Keeps(Effect(s, plan), s, budget)
  {
    hide Shape, LiveBytes, PlanOk, Paid, Keeps, Effect, Sum;
    match plan.op
    case Save(_, _, _, _, _) => SaveKeeps(s, plan, budget);
    case StageTier(_, _, _, _, _) =>
      if plan.drafted {
        DraftTierKeeps(s, plan, budget);
      } else {
        PromiseKeeps(s, plan, budget);
      }
    case StageDelete(_, _) => StageDeleteKeeps(s, plan, budget);
    case _ => RowEditKeeps(s, plan, budget);
  }

  /** A plan that was let past its guards knows its memory. */
  lemma PlanFits(s: Store, op: Op)
    requires Shape(s) && Allowed(s, op)
    ensures AskFor(s, op).Check? ==> PlanOk(s, AskFor(s, op).plan) && Growing(AskFor(s, op).plan)
    ensures AskFor(s, op).Act? ==> PlanOk(s, AskFor(s, op).plan) && !Growing(AskFor(s, op).plan)
  {
    hide DraftsApart, PromisesOnRows, Apply, NotDrafted, BeingWritten;
    if !op.Save? && op.id in s.rows {
      RowNotDrafted(s, op.id);
    }
    if op.StageTier? && Drafted(s.staged, op.turn, op.id) {
      assert Among(s.staged, s.staged.pending[op.turn]);
    }
    hide Among;
  }

  lemma RowNotDrafted(s: Store, id: Id)
    requires Shape(s) && id in s.rows
    ensures NotDrafted(s.staged, id)
  {
    hide DraftsApart, PromisesOnRows, Apply, Among;
  }

  lemma SoundBegin(s: Store, op: Op, budget: nat)
    requires Sound(s, budget) && s.holder.Free? && Allowed(s, op)
    ensures Sound(DoBegin(s, op), budget)
  {
    hide Allowed, PlanOk, Growing, LiveBytes, Shape, Sum;
    PlanFits(s, op);
    match AskFor(s, op)
    case Refuse(_) => TouchKeeps(s, op, budget);
    case Act(plan) => EffectKeeps(s, plan, budget);
    case Check(plan) => BeginsCheck(s, plan);
  }

  lemma BeginsCheck(s: Store, plan: Plan)
    requires Shape(s) && PlanOk(s, plan)
    ensures Shape(s.(holder := Asking(plan, s.staged))) && PlanOk(s.(holder := Asking(plan, s.staged)), plan)
    ensures SnapshotOk(s.(holder := Asking(plan, s.staged)), s.staged)
    ensures LiveBytes(s.(holder := Asking(plan, s.staged))) == LiveBytes(s)
  {
    hide DraftsApart, PromisesOnRows, Apply, Among, NotDrafted, BeingWritten, Live;
    forall b, id | Among(s.staged, b) && id in b.inserts
      ensures id !in s.rows
    {
      assert GoodBatch(s.rows, s.drafts, b);
    }
  }

  lemma HolderAside(s: Store, holder: Holder)
    ensures Shape(s.(holder := holder)) == Shape(s)
    ensures LiveBytes(s.(holder := holder)) == LiveBytes(s)
    ensures forall plan :: PlanOk(s.(holder := holder), plan) == PlanOk(s, plan)
  {
    hide DraftsApart, PromisesOnRows, Apply, Among, NotDrafted, BeingWritten, Live;
  }

  lemma SoundRead(s: Store, budget: nat)
    requires Sound(s, budget) && s.holder.Asking?
    ensures Sound(DoRead(s), budget)
  {
    hide Shape, LiveBytes, PlanOk, CountedBytes, Sum, SnapshotOk;
    var plan := s.holder.plan;
    CountCoversLive(s, s.holder.snapshot, Replacing(plan));
    HolderAside(s, DoRead(s).holder);
  }

  lemma SoundFinish(s: Store, budget: nat)
    requires Sound(s, budget) && s.holder.Told?
    ensures Sound(DoFinish(s, budget), budget)
  {
    var free := s.(holder := Free);
    HolderAside(s, Free);
    hide Shape, LiveBytes, PlanOk, Sum;
    if s.holder.total + Extra(s.holder.plan) <= budget {
      EffectKeeps(free, s.holder.plan, budget);
    }
  }

  lemma SoundWrite(s: Store, turn: Turn, budget: nat)
    requires Sound(s, budget) && s.holder.Free? && Writable(s.staged, turn)
    ensures Sound(DoWrite(s, turn), budget)
  {
    hide Shape, NoMore, LiveBytes, Sum;
    WriteKeeps(s, turn);
    NoMoreAtAll(DoWrite(s, turn), s);
  }

  /** Rolling back a turn, or ending its transaction, leaves a waiting plan what it knows. */
  lemma PlanSurvives(s: Store, r: Store, plan: Plan)
    requires Shape(s) && PlanOk(s, plan) && Growing(plan) && r.drafts == s.drafts && Fewer(r.staged, s.staged)
    requires forall t :: t in r.staged.pending ==> t in s.staged.pending && r.staged.pending[t] == s.staged.pending[t]
    requires forall id :: BeingWritten(r.staged, id) ==> BeingWritten(s.staged, id)
    requires plan.op.StageTier? && !plan.drafted ==> RowSurvives(s, r, plan.op.id)
    requires (plan.op.SetTier? || plan.op.UpdateText?) ==> Agree(s.rows, r.rows, plan.op.id)
    ensures PlanOk(r, plan)
  {
    hide Shape, Among, BeingWritten;
  }

  ghost predicate RowSurvives(s: Store, r: Store, id: Id) {
    id in r.rows ==> id in s.rows && Moved(s.rows[id], r.rows[id], true)
  }

  lemma SnapshotSurvives(s: Store, r: Store, snapshot: Staged)
    requires Shape(s) && SnapshotOk(s, snapshot) && r.drafts == s.drafts && Fewer(r.staged, s.staged)
    requires r.rows.Keys <= s.drafts.Keys
    requires forall id :: id in r.rows ==> id in s.rows || r.rows[id].text == s.drafts[id]
    requires forall id :: id in r.rows && id in s.rows ==> r.rows[id].text == s.rows[id].text
    ensures SnapshotOk(r, snapshot)
  {
    hide Shape, Among;
  }

  lemma SoundRollback(s: Store, turn: Turn, budget: nat)
    requires Sound(s, budget)
    ensures Sound(DoRollback(s, turn), budget)
  {
    hide LiveBytes, Sum, NoMore;
    var r := DoRollback(s, turn);
    RollbackKeeps(s, turn);
    assert Fewer(r.staged, s.staged);
    assert s.rows.Keys <= s.drafts.Keys;
    hide Shape, Fewer;
    NoMoreAtAll(r, s);
    if s.holder.Asking? {
      PlanSurvives(s, r, s.holder.plan);
      SnapshotSurvives(s, r, s.holder.snapshot);
    } else if s.holder.Told? {
      PlanSurvives(s, r, s.holder.plan);
    }
  }

  lemma ReleaseKeeps(s: Store, turn: Turn)
    requires Shape(s) && turn in s.staged.writing
    ensures Shape(DoEnd(s, turn, false)) && NoMore(DoEnd(s, turn, false), s, {})
  {
    hide Among, Apply, Apart, DraftsApart;
    var st := DoEnd(s, turn, false).staged;
    assert st == Released(s.staged, turn);
    ReleaseIsFewer(s.staged, turn);
    FewerShape(s, st);
    FewerNoMore(s, st);
  }

  lemma EndKeeps(s: Store, turn: Turn, commit: bool)
    requires Shape(s) && turn in s.staged.writing
    ensures Shape(DoEnd(s, turn, commit)) && NoMore(DoEnd(s, turn, commit), s, {})
  {
    if commit && s.staged.writing[turn].applied {
      hide Shape, NoMore;
      CommitShape(s, turn);
      CommitNoMore(s, turn);
    } else {
      hide Shape, NoMore;
      assert DoEnd(s, turn, commit) == DoEnd(s, turn, false);
      ReleaseKeeps(s, turn);
    }
  }

  /** What the end of a transaction may do to a row, seen from a plan that waits. */
  lemma EndRow(s: Store, turn: Turn, commit: bool, id: Id)
    requires Shape(s) && turn in s.staged.writing
    ensures !BeingWritten(s.staged, id) ==> Agree(s.rows, DoEnd(s, turn, commit).rows, id)
    ensures NotDrafted(s.staged, id) ==> RowSurvives(s, DoEnd(s, turn, commit), id)
    ensures id in DoEnd(s, turn, commit).rows && id !in s.rows ==>
              id in s.drafts && DoEnd(s, turn, commit).rows[id].text == s.drafts[id]
    ensures id in DoEnd(s, turn, commit).rows && id in s.rows ==>
              DoEnd(s, turn, commit).rows[id].text == s.rows[id].text
  {
    var b := s.staged.writing[turn].batch;
    assert Among(s.staged, b) && GoodBatch(s.rows, s.drafts, b);
    if commit && s.staged.writing[turn].applied {
      AppliedLands(s, turn);
      BatchLands(s, b, id);
      hide Shape, Among, Apply;
      assert !BeingWritten(s.staged, id) ==> !Names(b, id);
    }
  }

  lemma EndStaged(s: Store, turn: Turn, commit: bool)
    requires turn in s.staged.writing
    ensures Fewer(DoEnd(s, turn, commit).staged, s.staged) && DoEnd(s, turn, commit).staged.pending == s.staged.pending
    ensures forall id :: BeingWritten(DoEnd(s, turn, commit).staged, id) ==> BeingWritten(s.staged, id)
    ensures DoEnd(s, turn, commit).drafts == s.drafts && DoEnd(s, turn, commit).holder == s.holder
  {
    hide Apply;
    ReleaseIsFewer(s.staged, turn);
  }

  lemma SoundEnd(s: Store, turn: Turn, commit: bool, budget: nat)
    requires Sound(s, budget) && turn in s.staged.writing
    ensures Sound(DoEnd(s, turn, commit), budget)
  {
    hide LiveBytes, Sum, NoMore, Fewer, DoEnd, BeingWritten;
    var r := DoEnd(s, turn, commit);
    EndKeeps(s, turn, commit);
    EndStaged(s, turn, commit);
    assert r.rows.Keys <= r.drafts.Keys;
    hide Shape;
    NoMoreAtAll(r, s);
    if !s.holder.Free? {
      EndRow(s, turn, commit, s.holder.plan.op.id);
      PlanSurvives(s, r, s.holder.plan);
    }
    if s.holder.Asking? {
      forall id
        ensures id in r.rows ==> id in s.rows || r.rows[id].text == s.drafts[id]
        ensures id in r.rows && id in s.rows ==> r.rows[id].text == s.rows[id].text
      {
        EndRow(s, turn, commit, id);
      }
      SnapshotSurvives(s, r, s.holder.snapshot);
    }
  }

  lemma SoundStep(s: Store, step: Step, budget: nat)
    requires Sound(s, budget)
    ensures Sound(Do(s, step, budget), budget)
  {
    hide Sound, DoBegin, DoRead, DoFinish, DoWrite, DoEnd, DoRollback, Allowed, Writable;
    match step
    case Begin(op) =>
      if s.holder.Free? && Allowed(s, op) {
        SoundBegin(s, op, budget);
      }
    case Read =>
      if s.holder.Asking? {
        SoundRead(s, budget);
      }
    case Finish =>
      if s.holder.Told? {
        SoundFinish(s, budget);
      }
    case Write(turn) =>
      if s.holder.Free? && Writable(s.staged, turn) {
        SoundWrite(s, turn, budget);
      }
    case End(turn, commit) =>
      if turn in s.staged.writing {
        SoundEnd(s, turn, commit, budget);
      }
    case Rollback(turn) => SoundRollback(s, turn, budget);
  }

  lemma {:induction false} RunSound(s: Store, steps: seq<Step>, budget: nat)
    requires Sound(s, budget)
    ensures Sound(Run(s, steps, budget), budget)
  {
    hide Sound, Do;
    if steps != [] {
      RunSound(s, steps[..|steps| - 1], budget);
      SoundStep(Run(s, steps[..|steps| - 1], budget), steps[|steps| - 1], budget);
    }
  }

  /** A store that holds rows within the budget, and nothing staged. */
  ghost predicate Fresh(s: Store, budget: nat) {
    && s.staged == Staged(map[], map[]) && s.holder.Free?
    && s.rows.Keys <= s.drafts.Keys
    && Sum(CommittedBytes(s)) <= budget
  }

  lemma FreshIsSound(s: Store, budget: nat)
    requires Fresh(s, budget)
    ensures Sound(s, budget)
  {
    assert forall b :: !Among(s.staged, b);
    assert LiveBytes(s) == CommittedBytes(s);
  }

  lemma CommittedIsLive(s: Store)
    requires Shape(s)
    ensures Sum(CommittedBytes(s)) <= Sum(LiveBytes(s))
  {
    hide Among;
    assert s.rows.Keys <= s.drafts.Keys;
    hide Shape;
    SumGrows(CommittedBytes(s), LiveBytes(s));
  }

  /** In every run, whatever turns stage, write, commit and roll back, and whatever the user
      edits in between, the pinned bytes that are committed stay within the budget. */
  lemma PinnedWithinBudget(s: Store, steps: seq<Step>, budget: nat)
    requires Fresh(s, budget)
    ensures Sum(CommittedBytes(Run(s, steps, budget))) <= budget
  {
    hide Shape, Run, Fresh, CommittedBytes, LiveBytes;
    FreshIsSound(s, budget);
    RunSound(s, steps, budget);
    CommittedIsLive(Run(s, steps, budget));
  }

  /** In every run, a batch whose rows went in can still go in when its transaction commits:
      whatever the user and the other turns did meanwhile, they left the rows it names alone. */
  lemma AppliedBatchCommits(s: Store, steps: seq<Step>, budget: nat, turn: Turn)
    requires Fresh(s, budget)
    ensures var r := Run(s, steps, budget);
            turn in r.staged.writing && r.staged.writing[turn].applied ==>
              Apply(r.rows, r.staged.writing[turn].batch).Some?
  {
    hide Shape, Run, Fresh, Apply;
    FreshIsSound(s, budget);
    RunSound(s, steps, budget);
    var r := Run(s, steps, budget);
    if turn in r.staged.writing && r.staged.writing[turn].applied {
      AppliedLands(r, turn);
    }
  }

  // Promises that are void.

  lemma {:induction false} StaleTierBlocks(rows: map<Id, Memory>, tiers: seq<Promise>, p: Promise)
    requires p in tiers && p.id in rows && rows[p.id].revision > p.revision
    ensures ApplyTiers(rows, tiers).None?
    decreases |tiers|
  {
    var first := tiers[0];
    if first.id !in rows {
      StaleTierBlocks(rows, tiers[1..], p);
    } else if first != p && rows[first.id].revision == first.revision {
      var row := rows[first.id].(tier := first.tier, revision := rows[first.id].revision + 1);
      StaleTierBlocks(rows[first.id := row], tiers[1..], p);
    }
  }

  /** When a row has moved on since a turn promised to move it, nothing of that turn lands. */
  lemma StalePromiseBlocksBatch(s: Store, turn: Turn, p: Promise, commit: bool)
    requires Shape(s) && turn in s.staged.pending
    requires p in s.staged.pending[turn].tiers && p.id in s.rows && s.rows[p.id].revision > p.revision
    requires p.id !in s.staged.pending[turn].deletes
    ensures DoEnd(DoWrite(s, turn), turn, commit).rows == s.rows
  {
    var b := s.staged.pending[turn];
    assert Among(s.staged, b);
    assert NotDrafted(s.staged, p.id);
    StaleTierBlocks((s.rows + b.inserts) - b.deletes, b.tiers, p);
  }

  function PromisedRow(text: string): Store {
    Store(map[0 := Memory(text, Recall, Bot, 1)],
          Staged(map[7 := Batch(map[], {}, [Promise(0, Pinned, 1)])], map[]), map[0 := text], Free)
  }

  lemma PromisedRowSums(text: string)
    ensures Shape(PromisedRow(text)) && Sum(LiveBytes(PromisedRow(text))) == |text|
  {
    var s := PromisedRow(text);
    var b := s.staged.pending[7];
    assert Among(s.staged, b) && LivePin(b, 0, 1) by { assert b.tiers[0] in b.tiers; }
    assert forall x :: Among(s.staged, x) ==> x == b;
    assert LiveBytes(s) == map[0 := |text|];
    SumSplit(map[0 := |text|], 0);
  }

  /** The count a check makes can be over the budget: a recall row may grow after a turn promised
      to pin it. The promise is void by then, and nothing live is over. */
  lemma CountMayExceed(text: string, longer: string, budget: nat)
    requires |text| <= budget < |longer|
    ensures Sound(PromisedRow(text), budget)
    ensures var r := Do(PromisedRow(text), Begin(UpdateText(0, longer, None)), budget);
            Sum(CountedBytes(r.rows, r.staged, r.drafts)) > budget && Sum(LiveBytes(r)) == 0
  {
    PromisedRowSums(text);
    GrownRow(text, longer, budget);
    GrownRowSums(text, longer);
    hide Sum, LiveBytes, CountedBytes, Shape, Do, PromisedRow, Grown;
  }

  function Grown(text: string, longer: string): Store {
    PromisedRow(text).(rows := map[0 := Memory(longer, Recall, Bot, 2)])
  }

  lemma GrownRow(text: string, longer: string, budget: nat)
    ensures Do(PromisedRow(text), Begin(UpdateText(0, longer, None)), budget) == Grown(text, longer)
    ensures PromisedRow(text).holder.Free?
  {
  }

  lemma GrownRowSums(text: string, longer: string)
    ensures var s := Grown(text, longer); Sum(CountedBytes(s.rows, s.staged, s.drafts)) == |longer|
    ensures Sum(LiveBytes(Grown(text, longer))) == 0
  {
    hide Among;
    var r := Grown(text, longer);
    var b := r.staged.pending[7];
    OnlyBatch(r.staged, b);
    assert PromisedPin(b, 0) by { assert b.tiers[0] in b.tiers; }
    assert CountedBytes(r.rows, r.staged, r.drafts) == map[0 := |longer|];
    SumSplit(map[0 := |longer|], 0);
    assert LiveBytes(r) == map[];
  }

  lemma OnlyBatch(st: Staged, b: Batch)
    requires st == Staged(map[7 := b], map[])
    ensures Among(st, b) && forall x :: Among(st, x) ==> x == b
  {
    assert st.pending[7] == b;
  }
}
