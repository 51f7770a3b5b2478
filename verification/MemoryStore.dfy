/** The store itself: the maps and lists its methods change in place. */
module MemoryStore {
  import opened MemoryModel
  import opened MemoryBudget
  import opened MemoryRuns
  import opened Options

  // One operation without interruption, as a function.

  ghost predicate OverBy(s: Store, plan: Plan, budget: nat) {
    Sum(CountedBytes(s.rows, s.staged, s.drafts) - Replacing(plan)) + Extra(plan) > budget
  }

  ghost function Performed(s: Store, op: Op, budget: nat): (Store, Answer) {
    match AskFor(s, op)
    case Refuse(answer) => (Touched(s, op), answer)
    case Act(plan) => (Effect(s, plan), Done)
    case Check(plan) => if OverBy(s, plan, budget) then (s, OverBudget) else (Effect(s, plan), Done)
  }

  /** Nothing but a check takes more than one step, and its steps in a row are the operation. */
  lemma PerformedIsRun(s: Store, op: Op, budget: nat)
    requires s.holder.Free? && Allowed(s, op)
    ensures var begun := Do(s, Begin(op), budget);
            Performed(s, op, budget).0
            == if begun.holder.Free? then begun else Do(Do(begun, Read, budget), Finish, budget)
  {
    hide CountedBytes, Sum;
    match AskFor(s, op)
    case Refuse(_) =>
    case Act(plan) =>
    case Check(plan) =>
      var begun := s.(holder := Asking(plan, s.staged));
      assert Do(s, Begin(op), budget) == begun;
      assert Do(begun, Read, budget).(holder := Free) == s;
  }

  /** A refused operation changes no row, draft or promise. */
  lemma RefusedChangesNothing(s: Store, op: Op, budget: nat)
    requires !Performed(s, op, budget).1.Done?
    ensures Performed(s, op, budget).0.rows == s.rows
    ensures forall t :: BatchOf(Performed(s, op, budget).0.staged, t) == BatchOf(s.staged, t)
  {
    hide CountedBytes, Sum;
  }

  class MemoryStore {
    var rows: map<Id, Memory>
    var pending: map<Turn, Batch>
    var writing: map<Turn, Written>
    ghost var drafts: map<Id, string>
    const budget: nat

    ghost function Value(): Store
      reads this
    {
      Store(rows, Staged(pending, writing), drafts, Free)
    }

    constructor (budget: nat)
      ensures this.budget == budget && Value() == Store(map[], Staged(map[], map[]), map[], Free)
      ensures Fresh(Value(), budget)
    {
      this.budget := budget;
      rows, pending, writing, drafts := map[], map[], map[], map[];
      new;
      assert CommittedBytes(Value()) == map[];
    }

    /** Adds a batch's reservations to the pinned texts counted so far. */
    method CountBatch(pinned: map<Id, nat>, b: Batch) returns (more: map<Id, nat>)
      ensures MoreCounted(rows, b, pinned, more)
    {
      hide CountedTo, MoreCounted;
      var staged := map id | id in b.inserts && b.inserts[id].tier.Pinned? :: |b.inserts[id].text|;
      more := pinned + staged;
      CountedDrafts(rows, b, pinned, staged, more);
      for i := 0 to |b.tiers|
        invariant CountedTo(rows, b, pinned, i, more)
      {
        var p := b.tiers[i];
        CountedNext(rows, b, pinned, i, more);
        if p.tier.Pinned? && p.id in rows {
          more := more[p.id := |rows[p.id].text|];
        }
      }
      CountedAll(rows, b, pinned, more);
    }

    /** The bytes reserved and committed, each memory once, except those of `excluding`. */
    method PinnedBytes(excluding: set<Id>) returns (total: nat)
      requires Shape(Value())
      ensures total == Sum(CountedBytes(rows, Staged(pending, writing), drafts) - excluding)
    {
      hide Tallied, MoreCounted, CountedBytes, Sum;
      var pinned: map<Id, nat> := map id | id in rows && rows[id].tier.Pinned? :: |rows[id].text|;
      ghost var part := Staged(map[], map[]);
      StartsWithRows(Value(), pinned);
      hide Shape;
      var turns := pending.Keys;
      while turns != {}
        invariant turns <= pending.Keys && part == Staged(pending - turns, map[])
        invariant Tallied(Value(), part, pinned)
      {
        var t :| t in turns;
        turns := turns - {t};
        var more := CountBatch(pinned, pending[t]);
        PendingTallied(Value(), part, t, pinned, more);
        pinned := more;
        part := Staged(part.pending[t := pending[t]], map[]);
        assert part.pending == pending - turns;
      }
      turns := writing.Keys;
      while turns != {}
        invariant turns <= writing.Keys && part == Staged(pending, writing - turns)
        invariant Tallied(Value(), part, pinned)
      {
        var t :| t in turns;
        turns := turns - {t};
        var more := CountBatch(pinned, writing[t].batch);
        WritingTallied(Value(), part, t, pinned, more);
        pinned := more;
        part := Staged(pending, part.writing[t := writing[t]]);
        assert part.writing == writing - turns;
      }
      assert part == Staged(pending, writing);
      TalliedIsCounted(Value(), pinned);
      total := AddUp(pinned - excluding);
    }

    method RejectOverBudget(extra: int, replacing: set<Id>) returns (over: bool)
      requires Shape(Value())
      ensures over == (Sum(CountedBytes(rows, Staged(pending, writing), drafts) - replacing) + extra > budget)
    {
      var total := PinnedBytes(replacing);
      over := total + extra > budget;
    }

    method Save(turn: Turn, id: Id, text: string, tier: Tier, origin: Origin) returns (answer: Answer)
      requires Shape(Value()) && id !in drafts
      modifies this
      ensures (Value(), answer) == Performed(old(Value()), Op.Save(turn, id, text, tier, origin), budget)
    {
      hide Shape, CountedBytes, Sum;
      if tier.Pinned? {
        var over := RejectOverBudget(|text|, {});
        if over {
          return OverBudget;
        }
      }
      var b := if turn in pending then pending[turn] else NOTHING;
      pending := pending[turn := b.(inserts := b.inserts[id := Memory(text, tier, origin, 1)])];
      drafts := drafts[id := text];
      return Done;
    }

    method StageTier(turn: Turn, id: Id, tier: Tier, actor: Origin, revision: nat) returns (answer: Answer)
      requires Shape(Value())
      modifies this
      ensures (Value(), answer) == Performed(old(Value()), Op.StageTier(turn, id, tier, actor, revision), budget)
    {
      hide Shape, CountedBytes, Sum;
      var b := if turn in pending then pending[turn] else NOTHING;
      var drafted := id in b.inserts;
      if !drafted && id !in rows {
        return NotFound;
      }
      var seen := if drafted then b.inserts[id] else rows[id];
      var refused := Guarded(seen, actor, revision);
      if refused.Some? {
        return refused.value;
      }
      if tier.Pinned? && seen.tier.Recall? {
        var over := RejectOverBudget(|seen.text|, {id});
        if over {
          return OverBudget;
        }
      }
      if drafted {
        pending := pending[turn := b.(inserts := b.inserts[id := seen.(tier := tier, revision := revision + 1)])];
      } else {
        pending := pending[turn := b.(tiers := b.tiers + [Promise(id, tier, revision)])];
      }
      return Done;
    }

    method StageDelete(turn: Turn, id: Id) returns (answer: Answer)
      modifies this
      ensures (Value(), answer) == Performed(old(Value()), Op.StageDelete(turn, id), budget)
    {
      hide CountedBytes, Sum;
      var b := if turn in pending then pending[turn] else NOTHING;
      pending := pending[turn := b];
      if id in b.inserts {
        pending := pending[turn := b.(inserts := b.inserts - {id})];
        assert pending == old(pending)[turn := b.(inserts := b.inserts - {id})];
        return Done;
      }
      if id !in rows {
        return NotFound;
      }
      pending := pending[turn := b.(deletes := b.deletes + {id})];
      assert pending == old(pending)[turn := b.(deletes := b.deletes + {id})];
      return Done;
    }

    method SetTier(id: Id, tier: Tier, actor: Origin, revision: nat) returns (answer: Answer)
      requires Shape(Value())
      modifies this
      ensures (Value(), answer) == Performed(old(Value()), Op.SetTier(id, tier, actor, revision), budget)
    {
      hide Shape, CountedBytes, Sum;
      if id !in rows {
        return NotFound;
      }
      var seen := rows[id];
      var refused := Guarded(seen, actor, revision);
      if refused.Some? {
        return refused.value;
      }
      if tier.Pinned? && seen.tier.Recall? {
        var over := RejectOverBudget(|seen.text|, {id});
        if over {
          return OverBudget;
        }
      }
      rows := rows[id := seen.(tier := tier, revision := seen.revision + 1)];
      return Done;
    }

    method UpdateText(id: Id, text: string, expected: Option<nat>) returns (answer: Answer)
      requires Shape(Value())
      modifies this
      ensures (Value(), answer) == Performed(old(Value()), Op.UpdateText(id, text, expected), budget)
    {
      hide Shape, CountedBytes, Sum;
      if id !in rows {
        return NotFound;
      }
      var seen := rows[id];
      if expected.Some? && seen.revision != expected.value {
        return Conflict;
      }
      if seen.tier.Pinned? {
        var extra := |text| - |seen.text|;
        if extra > 0 {
          var over := RejectOverBudget(extra, {});
          if over {
            return OverBudget;
          }
        }
      }
      rows := rows[id := seen.(text := text, revision := seen.revision + 1)];
      return Done;
    }

    method Delete(id: Id) returns (answer: Answer)
      modifies this
      ensures (Value(), answer) == Performed(old(Value()), Op.Delete(id), budget)
    {
      hide CountedBytes, Sum;
      if id !in rows {
        return NotFound;
      }
      rows := rows - {id};
      return Done;
    }

    /** Puts a batch into a transaction: the rows as they will be, or a conflict. */
    method ApplyBatch(b: Batch) returns (applied: Option<map<Id, Memory>>)
      ensures applied == Apply(rows, b)
    {
      var changed: map<Id, Memory> := (rows + b.inserts) - b.deletes;
      assert b.tiers[0..] == b.tiers;
      for i := 0 to |b.tiers|
        invariant ApplyTiers(changed, b.tiers[i..]) == Apply(rows, b)
      {
        var p := b.tiers[i];
        assert b.tiers[i..][0] == p && b.tiers[i..][1..] == b.tiers[i + 1..];
        if p.id !in changed {
          continue;
        }
        if changed[p.id].revision != p.revision {
          return None;
        }
        changed := changed[p.id := changed[p.id].(tier := p.tier, revision := changed[p.id].revision + 1)];
      }
      return Some(changed);
    }

    /** Moves a turn's batch from the pending to the writing ones, and applies it. */
    method Write(turn: Turn) returns (answer: Answer)
      requires turn !in writing
      modifies this
      ensures if turn in old(pending) then
                && Value() == DoWrite(old(Value()), turn)
                && answer == if Value().staged.writing[turn].applied then Done else Conflict
              else Value() == old(Value()) && answer == Done
    {
      if turn !in pending {
        return Done;
      }
      var b := pending[turn];
      pending := pending - {turn};
      var applied := ApplyBatch(b);
      writing := writing[turn := Written(b, applied.Some?)];
      return if applied.Some? then Done else Conflict;
    }

    /** The transaction's end: its rows become visible and the reservation goes, or only that. */
    method EndTransaction(turn: Turn, commit: bool)
      requires Shape(Value()) && turn in writing
      modifies this
      ensures Value() == DoEnd(old(Value()), turn, commit)
    {
      var written := writing[turn];
      if commit && written.applied {
        var applied := ApplyBatch(written.batch);
        AppliedLands(Value(), turn);
        rows := applied.value;
      }
      writing := writing - {turn};
    }

    method Rollback(turn: Turn)
      modifies this
      ensures Value() == DoRollback(old(Value()), turn)
    {
      pending := pending - {turn};
    }
  }

  method AddUp(sizes: map<Id, nat>) returns (total: nat)
    ensures total == Sum(sizes)
  {
    total := 0;
    var left := sizes.Keys;
    assert sizes - (sizes.Keys - left) == sizes;
    while left != {}
      invariant left <= sizes.Keys && total + Sum(sizes - (sizes.Keys - left)) == Sum(sizes)
    {
      var id :| id in left;
      SumSplit(sizes - (sizes.Keys - left), id);
      assert sizes - (sizes.Keys - left) - {id} == sizes - (sizes.Keys - (left - {id}));
      total := total + sizes[id];
      left := left - {id};
    }
    assert sizes - sizes.Keys == map[];
  }

  // What the count has gathered after some of the batches.

  ghost predicate Tallied(s: Store, part: Staged, pinned: map<Id, nat>) {
    && (forall id :: id in pinned <==> id in s.drafts && Counted(s.rows, part, id))
    && (forall id :: id in pinned ==> pinned[id] == Size(s.rows, s.drafts, id))
  }

  lemma StartsWithRows(s: Store, pinned: map<Id, nat>)
    requires s.rows.Keys <= s.drafts.Keys
    requires pinned == map id | id in s.rows && s.rows[id].tier.Pinned? :: |s.rows[id].text|
    ensures Tallied(s, Staged(map[], map[]), pinned)
  {
    assert forall b :: !Among(Staged(map[], map[]), b);
  }

  lemma CountedMore(rows: map<Id, Memory>, part: Staged, next: Staged, b: Batch, id: Id)
    requires forall x :: Among(next, x) <==> Among(part, x) || x == b
    ensures Counted(rows, next, id)
            <==> Counted(rows, part, id) || DraftPin(b, id) || (id in rows && PromisedPin(b, id))
  {
    hide Among;
    if DraftPin(b, id) || PromisedPin(b, id) {
      assert Among(next, b);
    }
    if SomeDraftPin(part, id) {
      var x :| Among(part, x) && DraftPin(x, id);
      assert Among(next, x);
    }
  }

  ghost predicate MoreCounted(rows: map<Id, Memory>, b: Batch, pinned: map<Id, nat>, more: map<Id, nat>) {
    && (forall id :: id in more <==> id in pinned || DraftPin(b, id) || (id in rows && PromisedPin(b, id)))
    && (forall id :: id in more ==>
          more[id] == if id in rows && PromisedPin(b, id) then |rows[id].text|
                      else if DraftPin(b, id) then |b.inserts[id].text|
                      else if id in pinned then pinned[id] else 0)
  }

  lemma BatchTallied(s: Store, part: Staged, next: Staged, b: Batch, pinned: map<Id, nat>, more: map<Id, nat>)
    requires GoodBatch(s.rows, s.drafts, b) && s.rows.Keys <= s.drafts.Keys
    requires forall x :: Among(next, x) <==> Among(part, x) || x == b
    requires Tallied(s, part, pinned) && MoreCounted(s.rows, b, pinned, more)
    ensures Tallied(s, next, more)
  {
    hide Among, Counted, PromisedPin;
    forall id
      ensures id in more <==> id in s.drafts && Counted(s.rows, next, id)
    {
      CountedMore(s.rows, part, next, b, id);
    }
  }

  lemma PendingTallied(s: Store, part: Staged, t: Turn, pinned: map<Id, nat>, more: map<Id, nat>)
    requires Shape(s) && t in s.staged.pending && t !in part.pending && Tallied(s, part, pinned)
    requires MoreCounted(s.rows, s.staged.pending[t], pinned, more)
    ensures Tallied(s, part.(pending := part.pending[t := s.staged.pending[t]]), more)
  {
    hide Counted, PromisedPin, DraftsApart, PromisesOnRows, Apply, Size;
    var b := s.staged.pending[t];
    var next := part.(pending := part.pending[t := b]);
    assert Among(s.staged, b);
    assert next.pending[t] == b;
    assert forall u :: u in part.pending ==> next.pending[u] == part.pending[u];
    BatchTallied(s, part, next, b, pinned, more);
  }

  lemma WritingTallied(s: Store, part: Staged, t: Turn, pinned: map<Id, nat>, more: map<Id, nat>)
    requires Shape(s) && t in s.staged.writing && t !in part.writing && Tallied(s, part, pinned)
    requires MoreCounted(s.rows, s.staged.writing[t].batch, pinned, more)
    ensures Tallied(s, part.(writing := part.writing[t := s.staged.writing[t]]), more)
  {
    hide Counted, PromisedPin, DraftsApart, PromisesOnRows, Apply, Size;
    var b := s.staged.writing[t].batch;
    var next := part.(writing := part.writing[t := s.staged.writing[t]]);
    assert Among(s.staged, b);
    assert next.writing[t].batch == b;
    assert forall u :: u in part.writing ==> next.writing[u] == part.writing[u];
    BatchTallied(s, part, next, b, pinned, more);
  }

  lemma TalliedIsCounted(s: Store, pinned: map<Id, nat>)
    requires Shape(s) && Tallied(s, s.staged, pinned)
    ensures pinned == CountedBytes(s.rows, s.staged, s.drafts)
  {
    hide DraftsApart, PromisesOnRows, Apply, Among;
    forall id | id in pinned
      ensures pinned[id] == CountedSize(s.rows, s.staged, s.drafts, id)
    {
      if SomeDraftPin(s.staged, id) {
        var b :| Among(s.staged, b) && DraftPin(b, id);
        assert GoodBatch(s.rows, s.drafts, b);
      }
    }
  }

  predicate PromisedIn(tiers: seq<Promise>, id: Id) {
    exists p :: p in tiers && p.id == id && p.tier.Pinned?
  }

  /** What the first `n` promises of a batch add to the drafts it reserves. */
  ghost predicate CountedTo(rows: map<Id, Memory>, b: Batch, pinned: map<Id, nat>, n: nat, more: map<Id, nat>)
    requires n <= |b.tiers|
  {
    && (forall id :: id in more <==> id in pinned || DraftPin(b, id) || (id in rows && PromisedIn(b.tiers[..n], id)))
    && (forall id :: id in more ==>
          more[id] == if id in rows && PromisedIn(b.tiers[..n], id) then |rows[id].text|
                      else if DraftPin(b, id) then |b.inserts[id].text|
                      else if id in pinned then pinned[id] else 0)
  }

  lemma CountedDrafts(rows: map<Id, Memory>, b: Batch, pinned: map<Id, nat>, staged: map<Id, nat>, more: map<Id, nat>)
    requires staged == map id | id in b.inserts && b.inserts[id].tier.Pinned? :: |b.inserts[id].text|
    requires more == pinned + staged
    ensures CountedTo(rows, b, pinned, 0, more)
  {
    assert forall id :: id in staged <==> DraftPin(b, id);
  }

  lemma PromisedNext(tiers: seq<Promise>, i: nat, id: Id)
    requires i < |tiers|
    ensures PromisedIn(tiers[..i + 1], id)
            <==> PromisedIn(tiers[..i], id) || (tiers[i].id == id && tiers[i].tier.Pinned?)
  {
    assert forall p :: p in tiers[..i + 1] <==> p in tiers[..i] || p == tiers[i];
  }

  lemma CountedNext(rows: map<Id, Memory>, b: Batch, pinned: map<Id, nat>, i: nat, more: map<Id, nat>)
    requires i < |b.tiers| && CountedTo(rows, b, pinned, i, more)
    ensures var p := b.tiers[i];
            if p.tier.Pinned? && p.id in rows then CountedTo(rows, b, pinned, i + 1, more[p.id := |rows[p.id].text|])
            else CountedTo(rows, b, pinned, i + 1, more)
  {
    hide PromisedIn, DraftPin;
    forall id
      ensures PromisedIn(b.tiers[..i + 1], id)
              <==> PromisedIn(b.tiers[..i], id) || (b.tiers[i].id == id && b.tiers[i].tier.Pinned?)
    {
      PromisedNext(b.tiers, i, id);
    }
  }

  lemma CountedAll(rows: map<Id, Memory>, b: Batch, pinned: map<Id, nat>, more: map<Id, nat>)
    requires CountedTo(rows, b, pinned, |b.tiers|, more)
    ensures MoreCounted(rows, b, pinned, more)
  {
    assert b.tiers[..|b.tiers|] == b.tiers;
    assert forall id :: PromisedIn(b.tiers, id) == PromisedPin(b, id);
  }
}
