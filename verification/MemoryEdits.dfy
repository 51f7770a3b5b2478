/** What each operation answers, what a user's edit leaves, and what becomes of a deleted memory. */
module MemoryEdits {
  import opened MemoryModel
  import opened MemoryBudget
  import opened MemoryRuns
  import opened MemoryStore
  import opened Options

  ghost function Committed(s: Store): nat {
    Sum(CommittedBytes(s))
  }

  /** The bytes that a check would count now. */
  ghost function CountedTotal(s: Store): nat {
    Sum(CountedBytes(s.rows, s.staged, s.drafts))
  }

  function PinnedSize(m: Memory): nat {
    if m.tier.Pinned? then |m.text| else 0
  }

  // Sums after one row changed.

  lemma CommittedBut(s: Store, id: Id)
    ensures Committed(s) == Sum(CommittedBytes(s) - {id}) + if id in s.rows then PinnedSize(s.rows[id]) else 0
  {
    hide Sum;
    if id in CommittedBytes(s) {
      SumSplit(CommittedBytes(s), id);
    } else {
      assert CommittedBytes(s) - {id} == CommittedBytes(s);
    }
  }

  lemma OthersCommitted(s: Store, r: Store, id: Id)
    requires r.rows - {id} == s.rows - {id}
    ensures CommittedBytes(r) - {id} == CommittedBytes(s) - {id}
  {
    assert forall x :: x in r.rows && x != id ==> x in r.rows - {id} && (r.rows - {id})[x] == r.rows[x];
    assert forall x :: x in s.rows && x != id ==> x in s.rows - {id} && (s.rows - {id})[x] == s.rows[x];
  }

  /** Only the row `id` is different. */
  ghost predicate OnlyRow(s: Store, r: Store, id: Id) {
    r.rows - {id} == s.rows - {id} && r.staged == s.staged && r.drafts == s.drafts && r.holder == s.holder
  }

  /** A delete answers that the memory is gone exactly when it was there. The row is gone then, every
      other row, draft and promise is as before, and the pinned bytes drop by what the row had. */
  lemma DeleteIs(s: Store, id: Id, budget: nat)
    ensures var r, answer := Performed(s, Op.Delete(id), budget).0, Performed(s, Op.Delete(id), budget).1;
            && answer == (if id in s.rows then Done else NotFound)
            && (answer.Done? ==>
                  && id !in r.rows && OnlyRow(s, r, id)
                  && Committed(r) == Committed(s) - PinnedSize(s.rows[id]))
            && (!answer.Done? ==> r == s)
  {
    hide CommittedBytes, Sum;
    var r := Performed(s, Op.Delete(id), budget).0;
    if id in s.rows {
      OthersCommitted(s, r, id);
      CommittedBut(s, id);
      CommittedBut(r, id);
    }
  }

  /** The user's tier edit: refused for a memory that is not there, to a bot for a memory of the
      user's, or at another revision; the row then has the tier and the next revision, with text and
      origin as before. */
  lemma SetTierIs(s: Store, id: Id, tier: Tier, actor: Origin, revision: nat, budget: nat)
    ensures var op := Op.SetTier(id, tier, actor, revision);
            var r, answer := Performed(s, op, budget).0, Performed(s, op, budget).1;
            && (answer.NotFound? <==> id !in s.rows)
            && (answer.Locked? <==> id in s.rows && actor.Bot? && s.rows[id].origin.User?)
            && (answer.Conflict? <==>
                  id in s.rows && !(actor.Bot? && s.rows[id].origin.User?) && s.rows[id].revision != revision)
            && (answer.OverBudget? ==> tier.Pinned? && s.rows[id].tier.Recall?)
            && (answer.Done? ==>
                  && id in r.rows && r.rows[id] == Memory(s.rows[id].text, tier, s.rows[id].origin, revision + 1)
                  && OnlyRow(s, r, id)
                  && Committed(r) == Committed(s) - PinnedSize(s.rows[id]) + PinnedSize(r.rows[id]))
            && (!answer.Done? ==> r == s)
  {
    hide CommittedBytes, Sum, CountedBytes;
    var r := Performed(s, Op.SetTier(id, tier, actor, revision), budget).0;
    if r != s {
      OthersCommitted(s, r, id);
      CommittedBut(s, id);
      CommittedBut(r, id);
    }
  }

  /** The user's text edit: refused for a memory that is not there or at another revision than the one
      expected; the row then has the text and the next revision, with tier and origin as before. */
  lemma UpdateTextIs(s: Store, id: Id, text: string, expected: Option<nat>, budget: nat)
    ensures var op := Op.UpdateText(id, text, expected);
            var r, answer := Performed(s, op, budget).0, Performed(s, op, budget).1;
            && (answer.NotFound? <==> id !in s.rows)
            && (answer.Conflict? <==> id in s.rows && expected.Some? && expected.value != s.rows[id].revision)
            && !answer.Locked?
            && (answer.OverBudget? ==> s.rows[id].tier.Pinned? && |text| > |s.rows[id].text|)
            && (answer.Done? ==>
                  && id in r.rows
                  && r.rows[id] == Memory(text, s.rows[id].tier, s.rows[id].origin, s.rows[id].revision + 1)
                  && OnlyRow(s, r, id)
                  && Committed(r) == Committed(s) - PinnedSize(s.rows[id]) + PinnedSize(r.rows[id]))
            && (!answer.Done? ==> r == s)
  {
    hide CommittedBytes, Sum, CountedBytes;
    var r := Performed(s, Op.UpdateText(id, text, expected), budget).0;
    if r != s {
      OthersCommitted(s, r, id);
      CommittedBut(s, id);
      CommittedBut(r, id);
    }
  }

  // A check refuses exactly what would not fit.

  /** Apart from `id`, the same memories count, with the same sizes. */
  ghost predicate CountsAlike(s: Store, r: Store, id: Id) {
    CountedBytes(r.rows, r.staged, r.drafts) - {id} == CountedBytes(s.rows, s.staged, s.drafts) - {id}
  }

  lemma CountedBut(s: Store, id: Id)
    ensures var all := CountedBytes(s.rows, s.staged, s.drafts);
            CountedTotal(s) == Sum(all - {id}) + if id in all then all[id] else 0
  {
    hide Sum, CountedBytes;
    var all := CountedBytes(s.rows, s.staged, s.drafts);
    if id in all {
      SumSplit(all, id);
    } else {
      assert all - {id} == all;
    }
  }

  lemma StagedAmong(st: Staged, turn: Turn, b: Batch, x: Batch)
    ensures Among(Stage(st, turn, b), x) ==> x == b || Among(st, x)
    ensures Among(st, x) ==> Among(Stage(st, turn, b), x) || x == BatchOf(st, turn)
    ensures Among(Stage(st, turn, b), b)
  {
    var more := Stage(st, turn, b);
    assert turn in more.pending && more.pending[turn] == b;
    if t :| t in st.pending && st.pending[t] == x {
      assert t != turn ==> t in more.pending && more.pending[t] == x;
    }
    if t :| t in st.writing && st.writing[t].batch == x {
      assert t in more.writing && more.writing[t].batch == x;
    }
  }

  /** A batch that pins the same as the turn's old one, apart from `id`. */
  ghost predicate PinsAlike(old_: Batch, b: Batch, id: Id) {
    forall x :: x != id ==>
      (DraftPin(b, x) <==> DraftPin(old_, x)) && (PromisedPin(b, x) <==> PromisedPin(old_, x))
  }

  lemma DraftPinsAlike(st: Staged, turn: Turn, b: Batch, id: Id, x: Id)
    requires PinsAlike(BatchOf(st, turn), b, id) && x != id
    ensures SomeDraftPin(Stage(st, turn, b), x) <==> SomeDraftPin(st, x)
    ensures (exists y :: Among(Stage(st, turn, b), y) && PromisedPin(y, x))
            <==> (exists y :: Among(st, y) && PromisedPin(y, x))
  {
    hide Among, DraftPin, PromisedPin;
    var more := Stage(st, turn, b);
    forall y
      ensures Among(more, y) ==> y == b || Among(st, y)
      ensures Among(st, y) ==> Among(more, y) || y == BatchOf(st, turn)
      ensures Among(more, b)
    {
      StagedAmong(st, turn, b, y);
    }
    StageAmong(st, turn, b);
    NothingPins(x);
  }

  lemma NothingPins(x: Id)
    ensures !DraftPin(NOTHING, x) && !PromisedPin(NOTHING, x)
  {
  }

  lemma StagedCountsAlike(s: Store, turn: Turn, b: Batch, drafts: map<Id, string>, id: Id)
    requires PinsAlike(BatchOf(s.staged, turn), b, id)
    requires drafts - {id} == s.drafts - {id}
    ensures CountsAlike(s, s.(staged := Stage(s.staged, turn, b), drafts := drafts), id)
  {
    hide SomeDraftPin, Among, PromisedPin, PinsAlike;
    var st := Stage(s.staged, turn, b);
    forall x | x != id
      ensures SomeDraftPin(st, x) <==> SomeDraftPin(s.staged, x)
      ensures Counted(s.rows, st, x) <==> Counted(s.rows, s.staged, x)
      ensures x in drafts <==> x in s.drafts
      ensures x in drafts ==> drafts[x] == s.drafts[x]
    {
      DraftPinsAlike(s.staged, turn, b, id, x);
      assert x in drafts ==> x in drafts - {id} && (drafts - {id})[x] == drafts[x];
      assert x in s.drafts ==> x in s.drafts - {id} && (s.drafts - {id})[x] == s.drafts[x];
    }
  }

  lemma RowCountsAlike(s: Store, id: Id, row: Memory)
    ensures CountsAlike(s, s.(rows := s.rows[id := row]), id)
  {
    hide SomeDraftPin, Among;
  }

  /** What is counted once the operation took effect: everything else as before, and its memory with
      the bytes the check had to find room for. */
  lemma EffectCounts(s: Store, op: Op)
    requires Shape(s) && Allowed(s, op) && AskFor(s, op).Check?
    ensures var plan := AskFor(s, op).plan;
            CountedTotal(Effect(s, plan))
            == Sum(CountedBytes(s.rows, s.staged, s.drafts) - Replacing(plan)) + Extra(plan)
  {
    hide Shape, CountedBytes, Sum, CountsAlike;
    var plan := AskFor(s, op).plan;
    match op
    case Save(_, _, _, _, _) => SaveCounts(s, plan);
    case StageTier(_, _, _, _, _) => StageTierCounts(s, plan);
    case SetTier(_, _, _, _) => SetTierCounts(s, plan);
    case UpdateText(_, _, _) => UpdateTextCounts(s, plan);
  }

  lemma RowIsNoDraft(s: Store, id: Id)
    requires Shape(s) && id in s.rows
    ensures id in s.drafts && !SomeDraftPin(s.staged, id)
  {
    hide DraftsApart, PromisesOnRows, Apply, Among;
  }

  lemma SetTierCounts(s: Store, plan: Plan)
    requires Shape(s) && plan.op.SetTier? && AskFor(s, plan.op) == Check(plan)
    ensures CountedTotal(Effect(s, plan))
            == Sum(CountedBytes(s.rows, s.staged, s.drafts) - {plan.op.id}) + |plan.seen.text|
  {
    hide Shape, Sum, SomeDraftPin, Among, CountsAlike;
    var r, id := Effect(s, plan), plan.op.id;
    RowIsNoDraft(s, id);
    RowCountsAlike(s, id, r.rows[id]);
    CountedBut(r, id);
    AlikeSums(s, r, id);
  }

  lemma AlikeSums(s: Store, r: Store, id: Id)
    requires CountsAlike(s, r, id)
    ensures Sum(CountedBytes(r.rows, r.staged, r.drafts) - {id}) == Sum(CountedBytes(s.rows, s.staged, s.drafts) - {id})
  {
    hide Sum, CountedBytes;
  }

  lemma UpdateTextCounts(s: Store, plan: Plan)
    requires Shape(s) && plan.op.UpdateText? && AskFor(s, plan.op) == Check(plan)
    ensures CountedTotal(Effect(s, plan))
            == Sum(CountedBytes(s.rows, s.staged, s.drafts) - {}) + |plan.op.text| - |plan.seen.text|
  {
    hide Shape, Sum, SomeDraftPin, Among, CountsAlike;
    var r, id := Effect(s, plan), plan.op.id;
    var all := CountedBytes(s.rows, s.staged, s.drafts);
    RowIsNoDraft(s, id);
    RowCountsAlike(s, id, r.rows[id]);
    CountedBut(r, id);
    CountedBut(s, id);
    AlikeSums(s, r, id);
    assert all - {} == all;
  }

  lemma FreshCountsNothing(s: Store, id: Id)
    requires id !in s.drafts
    ensures CountedBytes(s.rows, s.staged, s.drafts) - {id} == CountedBytes(s.rows, s.staged, s.drafts) - {}
  {
    hide Counted, CountedSize;
  }

  lemma SaveCounts(s: Store, plan: Plan)
    requires plan.op.Save? && plan.op.id !in s.drafts && AskFor(s, plan.op) == Check(plan)
    ensures CountedTotal(Effect(s, plan)) == Sum(CountedBytes(s.rows, s.staged, s.drafts) - {}) + |plan.seen.text|
  {
    hide Sum, CountsAlike;
    var id, turn := plan.op.id, plan.op.turn;
    var old_ := BatchOf(s.staged, turn);
    var b := old_.(inserts := old_.inserts[id := plan.seen]);
    var r := Effect(s, plan);
    assert PinsAlike(old_, b, id);
    assert r.drafts - {id} == s.drafts - {id};
    StagedCountsAlike(s, turn, b, r.drafts, id);
    StagedAmong(s.staged, turn, b, b);
    assert DraftPin(b, id) && SomeDraftPin(r.staged, id);
    CountedBut(r, id);
    AlikeSums(s, r, id);
    FreshCountsNothing(s, id);
  }

  lemma StageTierCounts(s: Store, plan: Plan)
    requires Shape(s) && plan.op.StageTier? && AskFor(s, plan.op) == Check(plan)
    ensures CountedTotal(Effect(s, plan))
            == Sum(CountedBytes(s.rows, s.staged, s.drafts) - {plan.op.id}) + |plan.seen.text|
  {
    hide Shape, Sum, CountedBytes, Among, DraftPin, PromisedPin, CountsAlike;
    var id, turn := plan.op.id, plan.op.turn;
    var old_ := BatchOf(s.staged, turn);
    var r := Effect(s, plan);
    if plan.drafted {
      DraftTierCounts(s, plan);
    } else {
      PromiseTierCounts(s, plan);
    }
    CountedBut(r, id);
    AlikeSums(s, r, id);
  }

  lemma DraftTierCounts(s: Store, plan: Plan)
    requires Shape(s) && plan.op.StageTier? && AskFor(s, plan.op) == Check(plan) && plan.drafted
    ensures var r, id := Effect(s, plan), plan.op.id;
            && CountsAlike(s, r, id) && id in CountedBytes(r.rows, r.staged, r.drafts)
            && CountedBytes(r.rows, r.staged, r.drafts)[id] == |plan.seen.text|
  {
    hide Sum, CountsAlike, DraftsApart, PromisesOnRows, Apply;
    var id, turn := plan.op.id, plan.op.turn;
    var old_ := BatchOf(s.staged, turn);
    assert Among(s.staged, old_);
    assert GoodBatch(s.rows, s.drafts, old_);
    hide Shape;
    var b := old_.(inserts := old_.inserts[id := plan.seen.(tier := plan.op.tier, revision := plan.op.revision + 1)]);
    assert PinsAlike(old_, b, id);
    StagedCountsAlike(s, turn, b, s.drafts, id);
    StagedAmong(s.staged, turn, b, b);
    var r := Effect(s, plan);
    assert r == s.(staged := Stage(s.staged, turn, b), drafts := s.drafts);
    assert DraftPin(b, id) && SomeDraftPin(r.staged, id);
  }

  lemma PromiseTierCounts(s: Store, plan: Plan)
    requires Shape(s) && plan.op.StageTier? && AskFor(s, plan.op) == Check(plan) && !plan.drafted
    ensures var r, id := Effect(s, plan), plan.op.id;
            && CountsAlike(s, r, id) && id in CountedBytes(r.rows, r.staged, r.drafts)
            && CountedBytes(r.rows, r.staged, r.drafts)[id] == |plan.seen.text|
  {
    hide Sum, CountsAlike, Shape;
    var id, turn := plan.op.id, plan.op.turn;
    var old_ := BatchOf(s.staged, turn);
    var p := Promise(id, plan.op.tier, plan.op.revision);
    var b := old_.(tiers := old_.tiers + [p]);
    PromisePinsAlike(old_, p);
    StagedCountsAlike(s, turn, b, s.drafts, id);
    StagedAmong(s.staged, turn, b, b);
    var r := Effect(s, plan);
    assert r == s.(staged := Stage(s.staged, turn, b), drafts := s.drafts);
    assert p in b.tiers && PromisedPin(b, id);
    RowIsNoDraft(s, id);
    PromiseShape(s, plan);
  }

  lemma PromiseShape(s: Store, plan: Plan)
    requires Shape(s) && plan.op.StageTier? && AskFor(s, plan.op) == Check(plan) && !plan.drafted
    ensures !SomeDraftPin(Effect(s, plan).staged, plan.op.id)
  {
    hide DraftsApart, PromisesOnRows, Apply;
    var id, turn := plan.op.id, plan.op.turn;
    var old_ := BatchOf(s.staged, turn);
    var b := old_.(tiers := old_.tiers + [Promise(id, plan.op.tier, plan.op.revision)]);
    RowIsNoDraft(s, id);
    StageAmong(s.staged, turn, b);
    hide Among, Shape;
    NothingPins(id);
    assert DraftPin(b, id) == DraftPin(old_, id);
  }

  lemma PromisePinsAlike(old_: Batch, p: Promise)
    ensures PinsAlike(old_, old_.(tiers := old_.tiers + [p]), p.id)
  {
    var b := old_.(tiers := old_.tiers + [p]);
    assert forall q :: q in b.tiers <==> q in old_.tiers || q == p;
  }

  /** An operation is refused for the budget exactly when it passed every guard and what would be
      counted afterwards, reservations of other turns included, is more than the budget. */
  lemma CheckIsExact(s: Store, op: Op, budget: nat)
    requires Shape(s) && Allowed(s, op)
    ensures Performed(s, op, budget).1.OverBudget?
            <==> AskFor(s, op).Check? && CountedTotal(Effect(s, AskFor(s, op).plan)) > budget
  {
    hide Shape, CountedBytes, Sum, CountedTotal, Effect, Allowed;
    if AskFor(s, op).Check? {
      EffectCounts(s, op);
    }
    assert AskFor(s, op).Refuse? ==> !AskFor(s, op).answer.OverBudget?;
  }

  // A memory that is gone.

  /** The id was used up, and nothing that is staged can bring it back. */
  ghost predicate Gone(s: Store, id: Id) {
    id in s.drafts && id !in s.rows && NotDrafted(s.staged, id)
  }

  lemma GoneStaged(s: Store, turn: Turn, b: Batch, drafts: map<Id, string>, id: Id)
    requires Gone(s, id) && id !in b.inserts && id in drafts
    ensures Gone(s.(staged := Stage(s.staged, turn, b), drafts := drafts), id)
  {
    StageAmong(s.staged, turn, b);
    hide Among;
  }

  lemma GoneFromBatch(s: Store, id: Id, turn: Turn)
    requires Gone(s, id)
    ensures id !in BatchOf(s.staged, turn).inserts
  {
    assert turn in s.staged.pending ==> Among(s.staged, s.staged.pending[turn]);
  }

  lemma EffectKeepsGone(s: Store, plan: Plan, id: Id)
    requires Gone(s, id) && PlanOk(s, plan)
    ensures Gone(Effect(s, plan), id)
  {
    hide Gone, Among, NotDrafted, BeingWritten;
    assert id in s.drafts && id !in s.rows by { GoneIs(s, id); }
    if plan.op.Save? || plan.op.StageTier? || plan.op.StageDelete? {
      var turn := plan.op.turn;
      var b := BatchOf(s.staged, turn);
      GoneFromBatch(s, id, turn);
      var r := Effect(s, plan);
      if r != s {
        GoneStaged(s, turn, r.staged.pending[turn], r.drafts, id);
      }
    } else {
      GoneRows(s, Effect(s, plan), id);
    }
  }

  lemma GoneIs(s: Store, id: Id)
    requires Gone(s, id)
    ensures id in s.drafts && id !in s.rows
  {
  }

  lemma GoneRows(s: Store, r: Store, id: Id)
    requires Gone(s, id) && r.staged == s.staged && r.drafts == s.drafts && id !in r.rows
    ensures Gone(r, id)
  {
  }

  lemma GoneFewer(s: Store, r: Store, id: Id)
    requires Gone(s, id) && r.drafts == s.drafts && id !in r.rows && Fewer(r.staged, s.staged)
    ensures Gone(r, id)
  {
    hide Among;
  }

  lemma GoneStep(s: Store, step: Step, id: Id, budget: nat)
    requires Sound(s, budget) && Gone(s, id)
    ensures Gone(Do(s, step, budget), id)
  {
    hide Gone, Shape, LiveBytes, Sum, CountedBytes, Allowed, Apart, Effect, PlanOk, AskFor, SnapshotOk, Growing, Fewer;
    GoneIs(s, id);
    match step
    case Begin(op) =>
      if s.holder.Free? && Allowed(s, op) {
        GoneBegin(s, op, id);
      }
    case Read => GoneRows(s, Do(s, step, budget), id);
    case Finish =>
      if s.holder.Told? {
        var free := s.(holder := Free);
        GoneRows(s, free, id);
        HolderAside(s, Free);
        EffectKeepsGone(free, s.holder.plan, id);
      }
    case Write(turn) =>
      if s.holder.Free? && Writable(s.staged, turn) {
        WriteIsFewer(s, turn);
        GoneFewer(s, DoWrite(s, turn), id);
      }
    case End(turn, commit) =>
      if turn in s.staged.writing {
        GoneEnd(s, turn, commit, id);
      }
    case Rollback(turn) =>
      RollbackIsFewer(s, turn);
      GoneFewer(s, DoRollback(s, turn), id);
  }

  lemma GoneBegin(s: Store, op: Op, id: Id)
    requires Shape(s) && Allowed(s, op) && Gone(s, id)
    ensures Gone(DoBegin(s, op), id)
  {
    hide Gone, Shape, Allowed, Effect, PlanOk, Growing;
    PlanFits(s, op);
    GoneIs(s, id);
    match AskFor(s, op)
    case Refuse(_) =>
      if op.StageDelete? {
        GoneFromBatch(s, id, op.turn);
        GoneStaged(s, op.turn, BatchOf(s.staged, op.turn), s.drafts, id);
      }
    case Act(plan) => EffectKeepsGone(s, plan, id);
    case Check(plan) => GoneRows(s, s.(holder := Asking(plan, s.staged)), id);
  }

  lemma WriteIsFewer(s: Store, turn: Turn)
    requires turn in s.staged.pending
    ensures Fewer(DoWrite(s, turn).staged, s.staged)
  {
    hide Apply, Apart;
  }

  lemma RollbackIsFewer(s: Store, turn: Turn)
    ensures Fewer(DoRollback(s, turn).staged, s.staged)
  {
  }

  lemma GoneEnd(s: Store, turn: Turn, commit: bool, id: Id)
    requires Shape(s) && turn in s.staged.writing && Gone(s, id)
    ensures Gone(DoEnd(s, turn, commit), id)
  {
    hide DoEnd, Shape, Apply;
    EndStaged(s, turn, commit);
    GoneEndRow(s, turn, commit, id);
    GoneFewer(s, DoEnd(s, turn, commit), id);
  }

  lemma GoneEndRow(s: Store, turn: Turn, commit: bool, id: Id)
    requires Shape(s) && turn in s.staged.writing && Gone(s, id)
    ensures id !in DoEnd(s, turn, commit).rows
  {
    hide DraftsApart, PromisesOnRows;
    var b := s.staged.writing[turn].batch;
    assert Among(s.staged, b);
    if Apply(s.rows, b).Some? {
      BatchLands(s, b, id);
    }
    hide Apply;
  }

  /** A row that leaves is gone: no draft has its id, and no waiting edit is of it. */
  lemma LeavesForGood(s: Store, step: Step, id: Id, budget: nat)
    requires Sound(s, budget) && id in s.rows && id !in Do(s, step, budget).rows
    ensures Gone(Do(s, step, budget), id)
  {
    hide LiveBytes, Sum, CountedBytes, Allowed, Writable, PlanOk, SnapshotOk, Growing, Among, DraftsApart,
      PromisesOnRows, Apply, Fewer;
    RowNotDrafted(s, id);
    var r := Do(s, step, budget);
    if step.End? {
      EndStaged(s, step.turn, step.commit);
      NotDraftedFewer(r.staged, s.staged, id);
    } else {
      assert r.staged == s.staged && r.drafts == s.drafts;
    }
  }

  lemma NotDraftedFewer(st: Staged, before: Staged, id: Id)
    requires NotDrafted(before, id) && Fewer(st, before)
    ensures NotDrafted(st, id)
  {
    hide Among;
  }

  lemma {:induction false} StaysGone(s: Store, steps: seq<Step>, i: nat, id: Id, budget: nat)
    requires Sound(s, budget) && i <= |steps| && Gone(Run(s, steps[..i], budget), id)
    ensures Gone(Run(s, steps, budget), id)
    decreases |steps|
  {
    hide Sound, Gone, Do;
    if i < |steps| {
      var front := steps[..|steps| - 1];
      assert front[..i] == steps[..i];
      StaysGone(s, front, i, id, budget);
      RunSound(s, front, budget);
      GoneStep(Run(s, front, budget), steps[|steps| - 1], id, budget);
    } else {
      assert steps[..i] == steps;
    }
  }

  /** In every run: once a memory that was stored is deleted, by the user or by a turn that commits,
      no later operation, commit or edit ever stores a memory with its id again. */
  lemma DeletedForGood(s: Store, steps: seq<Step>, i: nat, id: Id, budget: nat)
    requires Fresh(s, budget) && i < |steps|
    requires id in Run(s, steps[..i], budget).rows && id !in Run(s, steps[..i + 1], budget).rows
    ensures id !in Run(s, steps, budget).rows
  {
    hide Sound, Do, Fresh, Run;
    FreshIsSound(s, budget);
    RunSound(s, steps[..i], budget);
    RunNext(s, steps, i, budget);
    LeavesForGood(Run(s, steps[..i], budget), steps[i], id, budget);
    StaysGone(s, steps, i + 1, id, budget);
  }

  lemma RunNext(s: Store, steps: seq<Step>, i: nat, budget: nat)
    requires i < |steps|
    ensures Run(s, steps[..i + 1], budget) == Do(Run(s, steps[..i], budget), steps[i], budget)
  {
    hide Do;
    assert steps[..i + 1][..i] == steps[..i];
  }
}
