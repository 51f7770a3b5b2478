/** The pinned budget holds in every run of the staged store. */
module MemoryBudget {
  import opened MemoryModel

  // Sums.

  lemma {:induction false} SumSplit<K>(m: map<K, nat>, k: K)
    requires k in m
    ensures Sum(m) == m[k] + Sum(m - {k})
    decreases m.Keys
  {
    var j := PickKey(m);
    if j != k {
      assert (m - {j}).Keys < m.Keys && (m - {k}).Keys < m.Keys;
      SumSplit(m - {j}, k);
      SumSplit(m - {k}, j);
      assert m - {j} - {k} == m - {k} - {j};
    }
  }

  lemma {:induction false} SumGrows<K>(a: map<K, nat>, b: map<K, nat>)
    requires forall k :: k in a ==> k in b && a[k] <= b[k]
    ensures Sum(a) <= Sum(b)
    decreases a.Keys
  {
    if a != map[] {
      var k := PickKey(a);
      assert (a - {k}).Keys < a.Keys;
      SumSplit(a, k);
      SumSplit(b, k);
      SumGrows(a - {k}, b - {k});
    }
  }

  // The invariant.

  ghost predicate GoodBatch(rows: map<Id, Memory>, drafts: map<Id, string>, b: Batch) {
    && (forall id :: id in b.inserts ==> id in drafts && id !in rows && b.inserts[id].text == drafts[id])
    && (forall p :: p in b.tiers ==> p.id in drafts && (p.id in rows ==> p.revision <= rows[p.id].revision))
  }

  ghost predicate NotDrafted(st: Staged, id: Id) {
    forall b :: Among(st, b) ==> id !in b.inserts
  }

  ghost predicate DraftsApart(st: Staged) {
    PendingApart(st) && PendingNotWritten(st) && WritingApart(st)
  }

  ghost predicate PendingApart(st: Staged) {
    forall t, u, id :: t in st.pending && u in st.pending && t != u && id in st.pending[t].inserts ==>
      id !in st.pending[u].inserts
  }

  ghost predicate PendingNotWritten(st: Staged) {
    forall t, u, id :: t in st.pending && u in st.writing && id in st.pending[t].inserts ==>
      id !in st.writing[u].batch.inserts
  }

  ghost predicate WritingApart(st: Staged) {
    forall t, u :: t in st.writing && u in st.writing && t != u ==> Apart(st.writing[t].batch, st.writing[u].batch)
  }

  ghost predicate PromisesOnRows(st: Staged) {
    forall b, p :: Among(st, b) && p in b.tiers ==> NotDrafted(st, p.id)
  }

  ghost predicate Shape(s: Store) {
    && s.rows.Keys <= s.drafts.Keys
    && (forall b :: Among(s.staged, b) ==> GoodBatch(s.rows, s.drafts, b))
    && DraftsApart(s.staged)
    && PromisesOnRows(s.staged)
    && (forall t :: t in s.staged.writing && s.staged.writing[t].applied ==>
          Apply(s.rows, s.staged.writing[t].batch).Some?)
  }

  /** What a plan knows about its memory stays so while it holds the lock. */
  ghost predicate PlanOk(s: Store, plan: Plan) {
    match plan.op
    case Save(_, id, text, _, _) => id !in s.drafts && plan.seen.text == text
    case StageTier(turn, id, _, _, revision) =>
      && id in s.drafts && plan.seen.revision == revision
      && (if plan.drafted then Drafted(s.staged, turn, id) ==> s.staged.pending[turn].inserts[id] == plan.seen
          else NotDrafted(s.staged, id) && (id in s.rows ==> s.rows[id] == plan.seen || s.rows[id].revision > revision))
    case StageDelete(turn, id) =>
      if plan.drafted then Drafted(s.staged, turn, id) else id in s.rows
    case _ => plan.op.id in s.rows && s.rows[plan.op.id] == plan.seen && !BeingWritten(s.staged, plan.op.id)
  }

  /** The plans that must pass a check before they take effect. */
  predicate Growing(plan: Plan) {
    match plan.op
    case Save(_, _, _, _, _) => plan.seen.tier.Pinned?
    case StageTier(_, _, tier, _, _) => tier.Pinned? && plan.seen.tier.Recall?
    case SetTier(_, tier, _, _) => tier.Pinned? && plan.seen.tier.Recall?
    case UpdateText(_, text, _) => plan.seen.tier.Pinned? && |text| > |plan.seen.text|
    case _ => false
  }

  ghost predicate SnapshotOk(s: Store, snapshot: Staged) {
    && (forall b :: Among(s.staged, b) ==> Among(snapshot, b))
    && (forall b, id :: Among(snapshot, b) && id in b.inserts && id in s.rows ==>
          id in s.drafts && s.rows[id].text == s.drafts[id])
  }

  ghost predicate HolderOk(s: Store) {
    match s.holder
    case Free => true
    case Asking(plan, snapshot) => PlanOk(s, plan) && Growing(plan) && SnapshotOk(s, snapshot)
    case Told(plan, total) => PlanOk(s, plan) && Growing(plan) && Sum(LiveBytes(s) - Replacing(plan)) <= total
  }

  ghost predicate Sound(s: Store, budget: nat) {
    Shape(s) && Sum(LiveBytes(s)) <= budget && HolderOk(s)
  }

  // Comparing two stores.

  /** Apart from `but`, everything live in `s` was live in `r`, at least as big. */
  ghost predicate NoMore(s: Store, r: Store, but: set<Id>) {
    forall id :: id in s.drafts && id !in but && Live(s.rows, s.staged, id) ==>
      id in r.drafts && Live(r.rows, r.staged, id) && Size(s.rows, s.drafts, id) <= Size(r.rows, r.drafts, id)
  }

  lemma NoMoreSum(s: Store, r: Store, but: set<Id>)
    requires NoMore(s, r, but)
    ensures Sum(LiveBytes(s) - but) <= Sum(LiveBytes(r) - but)
  {
    hide Live, Size;
    SumGrows(LiveBytes(s) - but, LiveBytes(r) - but);
  }

  lemma NoMoreBut(s: Store, r: Store, but: set<Id>)
    requires NoMore(s, r, {})
    ensures Sum(LiveBytes(s) - but) <= Sum(LiveBytes(r) - but)
  {
    hide Live, Size, Sum;
    assert NoMore(s, r, but);
    NoMoreSum(s, r, but);
  }

  lemma NoMoreAtAll(s: Store, r: Store)
    requires NoMore(s, r, {})
    ensures Sum(LiveBytes(s)) <= Sum(LiveBytes(r))
    ensures forall but :: Sum(LiveBytes(s) - but) <= Sum(LiveBytes(r) - but)
  {
    hide NoMore, LiveBytes, Sum;
    forall but: set<Id>
      ensures Sum(LiveBytes(s) - but) <= Sum(LiveBytes(r) - but)
    {
      NoMoreBut(s, r, but);
    }
    assert LiveBytes(s) - {} == LiveBytes(s) && LiveBytes(r) - {} == LiveBytes(r);
  }

  /** One memory grows by at most what the check allowed for. */
  lemma OneGrows(s: Store, r: Store, id: Id, size: nat, total: nat)
    requires NoMore(s, r, {id})
    requires id in LiveBytes(s) ==> LiveBytes(s)[id] <= size
    requires Sum(LiveBytes(r) - {id}) <= total
    ensures Sum(LiveBytes(s)) <= total + size
  {
    hide NoMore, LiveBytes;
    NoMoreSum(s, r, {id});
    if id in LiveBytes(s) {
      SumSplit(LiveBytes(s), id);
    } else {
      assert LiveBytes(s) - {id} == LiveBytes(s);
    }
  }

  // The count is never less than what is live.

  lemma CountCoversLive(s: Store, snapshot: Staged, but: set<Id>)
    requires Shape(s) && SnapshotOk(s, snapshot)
    ensures Sum(LiveBytes(s) - but) <= Sum(CountedBytes(s.rows, snapshot, s.drafts) - but)
  {
    forall id | id in LiveBytes(s)
      ensures id in CountedBytes(s.rows, snapshot, s.drafts)
      ensures LiveBytes(s)[id] <= CountedBytes(s.rows, snapshot, s.drafts)[id]
    {
      LiveIsCounted(s, snapshot, id);
    }
    SumGrows(LiveBytes(s) - but, CountedBytes(s.rows, snapshot, s.drafts) - but);
  }

  lemma LiveIsCounted(s: Store, snapshot: Staged, id: Id)
    requires SnapshotOk(s, snapshot) && id in s.drafts && Live(s.rows, s.staged, id)
    ensures Counted(s.rows, snapshot, id)
    ensures Size(s.rows, s.drafts, id) <= CountedSize(s.rows, snapshot, s.drafts, id)
  {
    if SomeDraftPin(s.staged, id) {
      var b :| Among(s.staged, b) && DraftPin(b, id);
      assert Among(snapshot, b);
    } else if s.rows[id].tier.Recall? {
      var b :| Among(s.staged, b) && LivePin(b, id, s.rows[id].revision);
      assert Among(snapshot, b) && PromisedPin(b, id);
    }
  }

  // Staging.

  lemma StageAmong(st: Staged, turn: Turn, b: Batch)
    ensures forall x :: Among(Stage(st, turn, b), x) ==> x == b || Among(st, x)
    ensures BatchOf(st, turn) == NOTHING || Among(st, BatchOf(st, turn))
  {
  }

  /** The drafts of a staged batch are old ones of its turn or new, its promises are of no draft. */
  ghost predicate Extends(s: Store, turn: Turn, b: Batch) {
    && (forall id :: id in b.inserts ==> id in BatchOf(s.staged, turn).inserts || id !in s.drafts)
    && (forall p :: p in b.tiers ==> p.id in s.drafts && NotDrafted(s.staged, p.id))
  }

  ghost predicate KnowsMore(more: map<Id, string>, drafts: map<Id, string>) {
    forall id :: id in drafts ==> id in more && more[id] == drafts[id]
  }

  lemma StageShape(s: Store, turn: Turn, b: Batch, drafts: map<Id, string>)
    requires Shape(s) && KnowsMore(drafts, s.drafts) && Extends(s, turn, b) && GoodBatch(s.rows, drafts, b)
    ensures Shape(s.(staged := Stage(s.staged, turn, b), drafts := drafts))
  {
    hide Among, DraftsApart, PromisesOnRows, Apply, Extends, BatchOf, NotDrafted;
    var st := Stage(s.staged, turn, b);
    StageAmong(s.staged, turn, b);
    StageApart(s, turn, b);
    StagePromises(s, turn, b);
    forall x | Among(st, x)
      ensures GoodBatch(s.rows, drafts, x)
    {
      assert x == b || Among(s.staged, x);
    }
  }

  lemma StageApart(s: Store, turn: Turn, b: Batch)
    requires Shape(s) && Extends(s, turn, b)
    ensures DraftsApart(Stage(s.staged, turn, b))
  {
    forall id | id in b.inserts
      ensures id in BatchOf(s.staged, turn).inserts || NotDrafted(s.staged, id)
    {
      if id !in s.drafts {
        FreshNotDrafted(s, id);
      }
    }
    StageApartFrom(s.staged, turn, b);
  }

  lemma FreshNotDrafted(s: Store, id: Id)
    requires Shape(s) && id !in s.drafts
    ensures NotDrafted(s.staged, id)
  {
    hide Among, DraftsApart, PromisesOnRows, Apply;
  }

  lemma NotDraftedAnywhere(st: Staged, id: Id)
    requires NotDrafted(st, id)
    ensures forall t :: t in st.pending ==> id !in st.pending[t].inserts
    ensures forall t :: t in st.writing ==> id !in st.writing[t].batch.inserts
  {
    assert forall t :: t in st.pending ==> Among(st, st.pending[t]);
    assert forall t :: t in st.writing ==> Among(st, st.writing[t].batch);
  }

  lemma StageApartFrom(st: Staged, turn: Turn, b: Batch)
    requires DraftsApart(st)
    requires forall id :: id in b.inserts ==> id in BatchOf(st, turn).inserts || NotDrafted(st, id)
    ensures DraftsApart(Stage(st, turn, b))
  {
    hide Among, NotDrafted, Apart;
    forall id | id in b.inserts
      ensures forall t :: t in st.pending && t != turn ==> id !in st.pending[t].inserts
      ensures forall t :: t in st.writing ==> id !in st.writing[t].batch.inserts
    {
      if id !in BatchOf(st, turn).inserts {
        NotDraftedAnywhere(st, id);
      }
    }
  }

  lemma StagePromises(s: Store, turn: Turn, b: Batch)
    requires Shape(s) && Extends(s, turn, b)
    ensures PromisesOnRows(Stage(s.staged, turn, b))
  {
    hide Apply, DraftsApart;
    var st := Stage(s.staged, turn, b);
    StageAmong(s.staged, turn, b);
    hide Among;
    forall x, p | Among(st, x) && p in x.tiers
      ensures NotDrafted(st, p.id)
    {
      assert p.id in s.drafts && NotDrafted(s.staged, p.id) by {
        if x != b {
          assert GoodBatch(s.rows, s.drafts, x);
        }
      }
    }
  }

  /** A batch that pins no more than the turn's old one leaves nothing more to pin. */
  lemma StageNoMore(s: Store, turn: Turn, b: Batch, drafts: map<Id, string>, but: set<Id>)
    requires Shape(s) && KnowsMore(drafts, s.drafts)
    requires forall id :: id in drafts && id !in but && DraftPin(b, id) ==> DraftPin(BatchOf(s.staged, turn), id)
    requires forall p :: p in b.tiers && p.tier.Pinned? && p.id !in but ==>
               || p in BatchOf(s.staged, turn).tiers
               || (p.id in s.rows ==> s.rows[p.id].tier.Pinned?)
    requires forall id :: id in drafts && id !in s.drafts ==> id in but
    ensures NoMore(s.(staged := Stage(s.staged, turn, b), drafts := drafts), s, but)
  {
    var st := Stage(s.staged, turn, b);
    StageAmong(s.staged, turn, b);
    hide Among, Shape;
    forall id | id in drafts && id !in but && Live(s.rows, st, id)
      ensures id in s.drafts && Live(s.rows, s.staged, id)
    {
      if SomeDraftPin(st, id) {
        var x :| Among(st, x) && DraftPin(x, id);
        assert Among(s.staged, BatchOf(s.staged, turn)) || Among(s.staged, x);
      } else if s.rows[id].tier.Recall? {
        var x :| Among(st, x) && LivePin(x, id, s.rows[id].revision);
        if x == b {
          var p :| p in b.tiers && p.id == id && p.tier.Pinned? && p.revision == s.rows[id].revision;
          assert p in BatchOf(s.staged, turn).tiers;
          assert LivePin(BatchOf(s.staged, turn), id, s.rows[id].revision);
        }
      }
    }
  }

  // Writing a batch.

  ghost predicate Agree(a: map<Id, Memory>, b: map<Id, Memory>, id: Id) {
    (id in a <==> id in b) && (id in a ==> a[id] == b[id])
  }

  lemma {:induction false} TiersLocal(rows: map<Id, Memory>, other: map<Id, Memory>, tiers: seq<Promise>)
    requires forall p :: p in tiers ==> Agree(rows, other, p.id)
    ensures ApplyTiers(rows, tiers).Some? <==> ApplyTiers(other, tiers).Some?
    decreases |tiers|
  {
    if tiers != [] {
      var p := tiers[0];
      assert p in tiers;
      if p.id !in rows {
        TiersLocal(rows, other, tiers[1..]);
      } else {
        var row := rows[p.id].(tier := p.tier, revision := rows[p.id].revision + 1);
        TiersLocal(rows[p.id := row], other[p.id := row], tiers[1..]);
      }
    }
  }

  /** Whether a batch applies depends only on the rows it names. */
  lemma ApplyLocal(rows: map<Id, Memory>, other: map<Id, Memory>, b: Batch)
    requires forall id :: Names(b, id) ==> Agree(rows, other, id)
    ensures Apply(rows, b).Some? <==> Apply(other, b).Some?
  {
    var base, base' := (rows + b.inserts) - b.deletes, (other + b.inserts) - b.deletes;
    forall p | p in b.tiers
      ensures Agree(base, base', p.id)
    {
      assert Names(b, p.id);
    }
    TiersLocal(base, base', b.tiers);
  }

  ghost predicate Moved(before: Memory, after: Memory, live: bool) {
    && after.text == before.text && after.origin == before.origin
    && (after == before || after.revision > before.revision)
    && (after.tier.Pinned? ==> before.tier.Pinned? || live)
  }

  ghost predicate SomeLive(tiers: seq<Promise>, id: Id, revision: nat) {
    exists p :: p in tiers && p.id == id && p.tier.Pinned? && p.revision == revision
  }

  /** A row is moved at most once, by a promise made for its revision. */
  lemma {:induction false} TiersMove(rows: map<Id, Memory>, tiers: seq<Promise>, id: Id)
    requires ApplyTiers(rows, tiers).Some?
    requires forall p :: p in tiers && p.id in rows ==> p.revision <= rows[p.id].revision
    ensures id in ApplyTiers(rows, tiers).value <==> id in rows
    ensures id in rows ==> Moved(rows[id], ApplyTiers(rows, tiers).value[id], SomeLive(tiers, id, rows[id].revision))
    ensures id in rows && (forall p :: p in tiers ==> p.id != id) ==> ApplyTiers(rows, tiers).value[id] == rows[id]
    decreases |tiers|
  {
    if tiers != [] {
      var p := tiers[0];
      assert p in tiers;
      if p.id !in rows {
        TiersMove(rows, tiers[1..], id);
      } else {
        var row := rows[p.id].(tier := p.tier, revision := rows[p.id].revision + 1);
        TiersMove(rows[p.id := row], tiers[1..], id);
      }
    }
  }

  /** What committing a batch may do to one row. */
  ghost predicate Landed(rows: map<Id, Memory>, b: Batch, landed: map<Id, Memory>, id: Id) {
    && (id in landed ==> id in rows || id in b.inserts)
    && (id in rows && id in landed ==> Moved(rows[id], landed[id], LivePin(b, id, rows[id].revision)))
    && (id !in rows && id in landed ==> landed[id] == b.inserts[id])
    && (!Names(b, id) ==> Agree(rows, landed, id))
  }

  lemma BatchLands(s: Store, b: Batch, id: Id)
    requires Shape(s) && Among(s.staged, b) && Apply(s.rows, b).Some?
    ensures Landed(s.rows, b, Apply(s.rows, b).value, id)
  {
    hide DraftsApart;
    assert GoodBatch(s.rows, s.drafts, b);
    forall p | p in b.tiers
      ensures p.id !in b.inserts
    {
      assert NotDrafted(s.staged, p.id);
    }
    hide Shape, Among, PromisesOnRows;
    var base := (s.rows + b.inserts) - b.deletes;
    assert forall p :: p in b.tiers && p.id in base ==> base[p.id] == s.rows[p.id];
    TiersMove(base, b.tiers, id);
    if id in s.rows && id in base {
      assert id !in b.inserts;
      assert SomeLive(b.tiers, id, s.rows[id].revision) == LivePin(b, id, s.rows[id].revision);
    }
  }

  ghost predicate Fewer(st: Staged, before: Staged) {
    forall b :: Among(st, b) ==> Among(before, b)
  }

  lemma FewerNoMore(s: Store, st: Staged)
    requires Fewer(st, s.staged)
    ensures NoMore(s.(staged := st), s, {})
  {
    hide Among;
    forall id | Live(s.rows, st, id)
      ensures Live(s.rows, s.staged, id)
    {
      if SomeDraftPin(st, id) {
        var b :| Among(st, b) && DraftPin(b, id);
        assert Among(s.staged, b);
      }
    }
  }

  lemma FewerShape(s: Store, st: Staged)
    requires Shape(s) && Fewer(st, s.staged) && DraftsApart(st)
    requires forall t :: t in st.writing && st.writing[t].applied ==> Apply(s.rows, st.writing[t].batch).Some?
    ensures Shape(s.(staged := st))
  {
    hide Among, DraftsApart, Apply;
    forall b, p | Among(st, b) && p in b.tiers
      ensures NotDrafted(st, p.id)
    {
      assert Among(s.staged, b);
      assert NotDrafted(s.staged, p.id);
    }
  }

  lemma WriteKeeps(s: Store, turn: Turn)
    requires Shape(s) && Writable(s.staged, turn)
    ensures Shape(DoWrite(s, turn)) && NoMore(DoWrite(s, turn), s, {})
  {
    hide DraftsApart, Apply;
    var st := DoWrite(s, turn).staged;
    assert Fewer(st, s.staged);
    WriteApart(s, turn);
    hide Among;
    FewerShape(s, st);
    FewerNoMore(s, st);
  }

  lemma WriteApart(s: Store, turn: Turn)
    requires DraftsApart(s.staged) && Writable(s.staged, turn)
    ensures DraftsApart(DoWrite(s, turn).staged)
  {
    hide Apply, Names, Apart;
    var st := DoWrite(s, turn).staged;
    var b := s.staged.pending[turn];
    forall t | t in s.staged.writing
      ensures Apart(b, s.staged.writing[t].batch) && Apart(s.staged.writing[t].batch, b)
    {
      ApartBothWays(b, s.staged.writing[t].batch);
    }
  }

  lemma ApartBothWays(a: Batch, b: Batch)
    requires Apart(a, b)
    ensures Apart(b, a)
  {
    hide Names;
  }

  lemma RollbackKeeps(s: Store, turn: Turn)
    requires Shape(s)
    ensures Shape(DoRollback(s, turn)) && NoMore(DoRollback(s, turn), s, {})
  {
    hide Apply, Apart;
    var st := DoRollback(s, turn).staged;
    assert Fewer(st, s.staged);
    hide Among;
    FewerShape(s, st);
    FewerNoMore(s, st);
  }

  function Released(st: Staged, turn: Turn): Staged {
    st.(writing := st.writing - {turn})
  }

  lemma ReleaseIsFewer(st: Staged, turn: Turn)
    ensures Fewer(Released(st, turn), st)
    ensures DraftsApart(st) ==> DraftsApart(Released(st, turn))
  {
    hide Apart;
  }

  /** A batch whose rows went in can still go in: nobody touched the rows it names. */
  lemma AppliedLands(s: Store, turn: Turn)
    requires Shape(s) && turn in s.staged.writing && s.staged.writing[turn].applied
    ensures Apply(s.rows, s.staged.writing[turn].batch).Some?
  {
  }

  lemma CommitNoMore(s: Store, turn: Turn)
    requires Shape(s) && turn in s.staged.writing && s.staged.writing[turn].applied
    ensures NoMore(DoEnd(s, turn, true), s, {})
  {
    var b := s.staged.writing[turn].batch;
    var s' := DoEnd(s, turn, true);
    assert Among(s.staged, b);
    AppliedLands(s, turn);
    ReleaseIsFewer(s.staged, turn);
    forall id | id in s.drafts && Live(s'.rows, s'.staged, id)
      ensures Live(s.rows, s.staged, id) && Size(s'.rows, s.drafts, id) <= Size(s.rows, s.drafts, id)
    {
      BatchLands(s, b, id);
      CommitNoMoreAt(s, s'.rows, s'.staged, b, id);
    }
  }

  lemma CommitNoMoreAt(s: Store, landed: map<Id, Memory>, st: Staged, b: Batch, id: Id)
    requires Shape(s) && Among(s.staged, b) && Landed(s.rows, b, landed, id) && Fewer(st, s.staged)
    requires id in s.drafts && Live(landed, st, id)
    ensures Live(s.rows, s.staged, id) && Size(landed, s.drafts, id) <= Size(s.rows, s.drafts, id)
  {
    hide Names, Among, DraftsApart, Apply;
    assert GoodBatch(s.rows, s.drafts, b);
    if SomeDraftPin(st, id) {
      var x :| Among(st, x) && DraftPin(x, id);
      assert Among(s.staged, x) && GoodBatch(s.rows, s.drafts, x);
    } else if landed[id].tier.Recall? {
      var x :| Among(st, x) && LivePin(x, id, landed[id].revision);
      assert Among(s.staged, x) && GoodBatch(s.rows, s.drafts, x);
      var p :| p in x.tiers && p.id == id && p.tier.Pinned? && p.revision == landed[id].revision;
      assert NotDrafted(s.staged, p.id);
      assert id in s.rows;
      assert LivePin(x, id, s.rows[id].revision);
    }
  }

  lemma CommitShape(s: Store, turn: Turn)
    requires Shape(s) && turn in s.staged.writing && s.staged.writing[turn].applied
    ensures Shape(DoEnd(s, turn, true))
  {
    var b := s.staged.writing[turn].batch;
    var s' := DoEnd(s, turn, true);
    assert Among(s.staged, b) && GoodBatch(s.rows, s.drafts, b);
    AppliedLands(s, turn);
    ReleaseIsFewer(s.staged, turn);
    forall id
      ensures Landed(s.rows, b, s'.rows, id)
    {
      BatchLands(s, b, id);
    }
    forall id | id in s'.rows
      ensures id in s.drafts
    {
      assert Landed(s.rows, b, s'.rows, id);
    }
    forall x | Among(s'.staged, x)
      ensures GoodBatch(s'.rows, s.drafts, x)
    {
      OthersStayGood(s, turn, s'.rows, x);
    }
    forall t | t in s'.staged.writing && s'.staged.writing[t].applied
      ensures Apply(s'.rows, s'.staged.writing[t].batch).Some?
    {
      OthersStillApply(s.rows, s'.rows, b, s'.staged.writing[t].batch);
    }
    PromisesStayOnRows(s, s'.staged);
  }

  lemma OthersStillApply(rows: map<Id, Memory>, landed: map<Id, Memory>, b: Batch, x: Batch)
    requires Apart(x, b) && Apply(rows, x).Some?
    requires forall id :: Landed(rows, b, landed, id)
    ensures Apply(landed, x).Some?
  {
    forall id | Names(x, id)
      ensures Agree(rows, landed, id)
    {
      assert Landed(rows, b, landed, id);
    }
    ApplyLocal(rows, landed, x);
  }

  lemma PromisesStayOnRows(s: Store, st: Staged)
    requires PromisesOnRows(s.staged) && Fewer(st, s.staged)
    ensures PromisesOnRows(st)
  {
    hide Among;
    forall b, p | Among(st, b) && p in b.tiers
      ensures NotDrafted(st, p.id)
    {
      assert Among(s.staged, b);
      assert NotDrafted(s.staged, p.id);
    }
  }

  lemma OthersStayGood(s: Store, turn: Turn, landed: map<Id, Memory>, x: Batch)
    requires Shape(s) && turn in s.staged.writing && Among(Released(s.staged, turn), x)
    requires forall id :: Landed(s.rows, s.staged.writing[turn].batch, landed, id)
    ensures GoodBatch(landed, s.drafts, x)
  {
    hide DraftsApart, Apply, Names, Released, PromisesOnRows, Moved;
    var b := s.staged.writing[turn].batch;
    ReleaseIsFewer(s.staged, turn);
    assert Among(s.staged, x);
    DraftsOfOthers(s.staged, turn, x);
    PromisesStayGood(s, b, landed, x);
    hide Among, Fewer;
    assert GoodBatch(s.rows, s.drafts, x);
    forall id | id in x.inserts
      ensures id !in landed
    {
      assert Landed(s.rows, b, landed, id);
    }
  }

  lemma PromisesStayGood(s: Store, b: Batch, landed: map<Id, Memory>, x: Batch)
    requires Shape(s) && Among(s.staged, b) && Among(s.staged, x)
    requires forall id :: Landed(s.rows, b, landed, id)
    ensures forall p :: p in x.tiers ==> p.id in s.drafts && (p.id in landed ==> p.revision <= landed[p.id].revision)
  {
    hide DraftsApart, Apply, Among, Names;
    assert GoodBatch(s.rows, s.drafts, x);
    forall p | p in x.tiers
      ensures p.id in landed ==> p.revision <= landed[p.id].revision
    {
      assert NotDrafted(s.staged, p.id);
      assert Landed(s.rows, b, landed, p.id);
    }
  }

  lemma DraftsOfOthers(st: Staged, turn: Turn, x: Batch)
    requires DraftsApart(st) && turn in st.writing && Among(Released(st, turn), x)
    ensures forall id :: id in x.inserts ==> id !in st.writing[turn].batch.inserts
  {
    forall id | id in x.inserts
      ensures id !in st.writing[turn].batch.inserts
    {
      assert Names(x, id);
    }
  }
}
