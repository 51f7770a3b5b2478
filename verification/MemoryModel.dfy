/** Staged memories of one bot: reservations in batches, committed rows, and the pinned budget.
    A text is its UTF-8 bytes, one character each. */
module MemoryModel {
  import opened Options

  type Id = nat
  type Turn = nat

  datatype Tier = Pinned | Recall

  datatype Origin = User | Bot

  datatype Memory = Memory(text: string, tier: Tier, origin: Origin, revision: nat)

  /** A staged tier change, and the revision of the row it was asked for. */
  datatype Promise = Promise(id: Id, tier: Tier, revision: nat)

  datatype Batch = Batch(inserts: map<Id, Memory>, deletes: set<Id>, tiers: seq<Promise>)

  /** A batch whose rows were put in an open transaction, or whose write raised a conflict. */
  datatype Written = Written(batch: Batch, applied: bool)

  datatype Staged = Staged(pending: map<Turn, Batch>, writing: map<Turn, Written>)

  datatype Op =
    | Save(turn: Turn, id: Id, text: string, tier: Tier, origin: Origin)
    | StageTier(turn: Turn, id: Id, tier: Tier, actor: Origin, revision: nat)
    | StageDelete(turn: Turn, id: Id)
    | SetTier(id: Id, tier: Tier, actor: Origin, revision: nat)
    | UpdateText(id: Id, text: string, expected: Option<nat>)
    | Delete(id: Id)

  datatype Answer = Done | NotFound | Locked | Conflict | OverBudget

  /** An operation past its guards: whether it found its memory among the turn's own drafts, and
      the memory it found (or makes). */
  datatype Plan = Plan(op: Op, drafted: bool, seen: Memory)

  datatype Ask = Refuse(answer: Answer) | Act(plan: Plan) | Check(plan: Plan)

  /** The holder of the bot's write lock, between the steps of its budget check. */
  datatype Holder = Free | Asking(plan: Plan, snapshot: Staged) | Told(plan: Plan, total: nat)

  /** `drafts` records the text every id was created with. */
  datatype Store = Store(rows: map<Id, Memory>, staged: Staged, drafts: map<Id, string>, holder: Holder)

  // What is staged.

  const NOTHING := Batch(map[], {}, [])

  function BatchOf(st: Staged, turn: Turn): Batch {
    if turn in st.pending then st.pending[turn] else NOTHING
  }

  predicate Drafted(st: Staged, turn: Turn, id: Id) {
    turn in st.pending && id in st.pending[turn].inserts
  }

  predicate Names(b: Batch, id: Id) {
    id in b.inserts || id in b.deletes || exists p :: p in b.tiers && p.id == id
  }

  predicate BeingWritten(st: Staged, id: Id) {
    exists t :: t in st.writing && Names(st.writing[t].batch, id)
  }

  ghost predicate Among(st: Staged, b: Batch) {
    || (exists t :: t in st.pending && st.pending[t] == b)
    || (exists t :: t in st.writing && st.writing[t].batch == b)
  }

  // What a check counts.

  predicate DraftPin(b: Batch, id: Id) {
    id in b.inserts && b.inserts[id].tier.Pinned?
  }

  predicate PromisedPin(b: Batch, id: Id) {
    exists p :: p in b.tiers && p.id == id && p.tier.Pinned?
  }

  predicate LivePin(b: Batch, id: Id, revision: nat) {
    exists p :: p in b.tiers && p.id == id && p.tier.Pinned? && p.revision == revision
  }

  ghost predicate SomeDraftPin(st: Staged, id: Id) {
    exists b :: Among(st, b) && DraftPin(b, id)
  }

  ghost predicate Counted(rows: map<Id, Memory>, st: Staged, id: Id) {
    || SomeDraftPin(st, id)
    || (id in rows && (rows[id].tier.Pinned? || exists b :: Among(st, b) && PromisedPin(b, id)))
  }

  /** A reservation that a later commit can still turn into pinned bytes. */
  ghost predicate Live(rows: map<Id, Memory>, st: Staged, id: Id) {
    || SomeDraftPin(st, id)
    || (id in rows && (rows[id].tier.Pinned? || exists b :: Among(st, b) && LivePin(b, id, rows[id].revision)))
  }

  function Size(rows: map<Id, Memory>, drafts: map<Id, string>, id: Id): nat {
    if id in rows then |rows[id].text| else if id in drafts then |drafts[id]| else 0
  }

  ghost function CountedSize(rows: map<Id, Memory>, st: Staged, drafts: map<Id, string>, id: Id): nat {
    if SomeDraftPin(st, id) && id in drafts then |drafts[id]| else Size(rows, drafts, id)
  }

  ghost function CountedBytes(rows: map<Id, Memory>, st: Staged, drafts: map<Id, string>): map<Id, nat> {
    map id | id in drafts && Counted(rows, st, id) :: CountedSize(rows, st, drafts, id)
  }

  ghost function LiveBytes(s: Store): map<Id, nat> {
    map id | id in s.drafts && Live(s.rows, s.staged, id) :: Size(s.rows, s.drafts, id)
  }

  ghost function CommittedBytes(s: Store): map<Id, nat> {
    map id | id in s.rows && s.rows[id].tier.Pinned? :: |s.rows[id].text|
  }

  ghost function Sum<K>(m: map<K, nat>): nat {
    if m == map[] then 0
    else
      var k := PickKey(m);
      m[k] + Sum(m - {k})
  }

  ghost function PickKey<K>(m: map<K, nat>): (k: K)
    requires m != map[]
    ensures k in m
  {
    assert m.Keys != {};
    var k :| k in m.Keys;
    k
  }

  // The operations.

  function Guarded(m: Memory, actor: Origin, revision: nat): Option<Answer> {
    if actor.Bot? && m.origin.User? then Some(Locked)
    else if m.revision != revision then Some(Conflict)
    else None
  }

  function AskTier(plan: Plan): Ask
    requires plan.op.StageTier? || plan.op.SetTier?
  {
    var refused := Guarded(plan.seen, plan.op.actor, plan.op.revision);
    if refused.Some? then Refuse(refused.value)
    else if plan.op.tier.Pinned? && plan.seen.tier.Recall? then Check(plan)
    else Act(plan)
  }

  function AskFor(s: Store, op: Op): Ask {
    match op
    case Save(_, _, text, tier, origin) =>
      var plan := Plan(op, false, Memory(text, tier, origin, 1));
      if tier.Pinned? then Check(plan) else Act(plan)
    case StageTier(turn, id, tier, actor, revision) =>
      if Drafted(s.staged, turn, id) then AskTier(Plan(op, true, s.staged.pending[turn].inserts[id]))
      else if id !in s.rows then Refuse(NotFound)
      else AskTier(Plan(op, false, s.rows[id]))
    case StageDelete(turn, id) =>
      if Drafted(s.staged, turn, id) then Act(Plan(op, true, s.staged.pending[turn].inserts[id]))
      else if id !in s.rows then Refuse(NotFound)
      else Act(Plan(op, false, s.rows[id]))
    case SetTier(id, tier, actor, revision) =>
      if id !in s.rows then Refuse(NotFound) else AskTier(Plan(op, false, s.rows[id]))
    case UpdateText(id, text, expected) =>
      if id !in s.rows then Refuse(NotFound)
      else if expected.Some? && s.rows[id].revision != expected.value then Refuse(Conflict)
      else if s.rows[id].tier.Pinned? && |text| > |s.rows[id].text| then Check(Plan(op, false, s.rows[id]))
      else Act(Plan(op, false, s.rows[id]))
    case Delete(id) =>
      if id !in s.rows then Refuse(NotFound) else Act(Plan(op, false, s.rows[id]))
  }

  /** What a check adds to the count, and the memory it leaves out of it. */
  function Extra(plan: Plan): int {
    if plan.op.UpdateText? then |plan.op.text| - |plan.seen.text| else |plan.seen.text|
  }

  function Replacing(plan: Plan): set<Id> {
    if plan.op.StageTier? || plan.op.SetTier? then {plan.op.id} else {}
  }

  function Stage(st: Staged, turn: Turn, b: Batch): Staged {
    st.(pending := st.pending[turn := b])
  }

  function Effect(s: Store, plan: Plan): Store {
    var seen := plan.seen;
    match plan.op
    case Save(turn, id, text, _, _) =>
      var b := BatchOf(s.staged, turn);
      s.(staged := Stage(s.staged, turn, b.(inserts := b.inserts[id := seen])), drafts := s.drafts[id := text])
    case StageTier(turn, id, tier, _, revision) =>
      var b := BatchOf(s.staged, turn);
      if plan.drafted then
        if id !in b.inserts then s
        else s.(staged := Stage(s.staged, turn,
                                b.(inserts := b.inserts[id := seen.(tier := tier, revision := revision + 1)])))
      else s.(staged := Stage(s.staged, turn, b.(tiers := b.tiers + [Promise(id, tier, revision)])))
    case StageDelete(turn, id) =>
      var b := BatchOf(s.staged, turn);
      if plan.drafted then s.(staged := Stage(s.staged, turn, b.(inserts := b.inserts - {id})))
      else s.(staged := Stage(s.staged, turn, b.(deletes := b.deletes + {id})))
    case SetTier(id, tier, _, _) =>
      s.(rows := s.rows[id := seen.(tier := tier, revision := seen.revision + 1)])
    case UpdateText(id, text, _) =>
      s.(rows := s.rows[id := seen.(text := text, revision := seen.revision + 1)])
    case Delete(id) =>
      s.(rows := s.rows - {id})
  }

  /** A refused delete leaves the turn with a batch, if only an empty one. */
  function Touched(s: Store, op: Op): Store {
    if op.StageDelete? then s.(staged := Stage(s.staged, op.turn, BatchOf(s.staged, op.turn))) else s
  }

  // Writing a batch.

  function ApplyTiers(rows: map<Id, Memory>, tiers: seq<Promise>): Option<map<Id, Memory>>
    decreases |tiers|
  {
    if tiers == [] then Some(rows)
    else if tiers[0].id !in rows then ApplyTiers(rows, tiers[1..])
    else
      var row := rows[tiers[0].id];
      if row.revision != tiers[0].revision then None
      else ApplyTiers(rows[tiers[0].id := row.(tier := tiers[0].tier, revision := row.revision + 1)], tiers[1..])
  }

  function Apply(rows: map<Id, Memory>, b: Batch): Option<map<Id, Memory>> {
    ApplyTiers((rows + b.inserts) - b.deletes, b.tiers)
  }

  // Steps. The bot's lock is held from `Begin` until `Finish` and during `Write`; `End` and
  // `Rollback` take no lock.

  datatype Step =
    | Begin(op: Op) | Read | Finish | Write(turn: Turn) | End(turn: Turn, commit: bool) | Rollback(turn: Turn)

  /** New ids are new, and no operation edits a row that an open transaction of a batch names. */
  predicate Allowed(s: Store, op: Op) {
    match op
    case Save(_, id, _, _, _) => id !in s.drafts
    case StageTier(_, _, _, _, _) => true
    case StageDelete(_, _) => true
    case SetTier(id, _, _, _) => !BeingWritten(s.staged, id)
    case UpdateText(id, _, _) => !BeingWritten(s.staged, id)
    case Delete(id) => !BeingWritten(s.staged, id)
  }

  /** A turn writes once at a time, and no two open transactions name the same row. */
  ghost predicate Writable(st: Staged, turn: Turn) {
    && turn in st.pending && turn !in st.writing
    && forall t :: t in st.writing ==> Apart(st.pending[turn], st.writing[t].batch)
  }

  ghost predicate Apart(a: Batch, b: Batch) {
    forall id :: Names(a, id) ==> !Names(b, id)
  }

  function DoBegin(s: Store, op: Op): Store {
    match AskFor(s, op)
    case Refuse(_) => Touched(s, op)
    case Act(plan) => Effect(s, plan)
    case Check(plan) => s.(holder := Asking(plan, s.staged))
  }

  ghost function DoRead(s: Store): Store
    requires s.holder.Asking?
  {
    var counted := CountedBytes(s.rows, s.holder.snapshot, s.drafts);
    s.(holder := Told(s.holder.plan, Sum(counted - Replacing(s.holder.plan))))
  }

  function DoFinish(s: Store, budget: nat): Store
    requires s.holder.Told?
  {
    var free := s.(holder := Free);
    if s.holder.total + Extra(s.holder.plan) > budget then free else Effect(free, s.holder.plan)
  }

  function DoWrite(s: Store, turn: Turn): Store
    requires turn in s.staged.pending
  {
    var b := s.staged.pending[turn];
    var written := Written(b, Apply(s.rows, b).Some?);
    s.(staged := Staged(s.staged.pending - {turn}, s.staged.writing[turn := written]))
  }

  function DoEnd(s: Store, turn: Turn, commit: bool): Store
    requires turn in s.staged.writing
  {
    var written := s.staged.writing[turn];
    var released := s.(staged := s.staged.(writing := s.staged.writing - {turn}));
    var landed := Apply(s.rows, written.batch);
    if commit && written.applied && landed.Some? then released.(rows := landed.value) else released
  }

  function DoRollback(s: Store, turn: Turn): Store {
    s.(staged := s.staged.(pending := s.staged.pending - {turn}))
  }

  ghost function Do(s: Store, step: Step, budget: nat): Store {
    match step
    case Begin(op) => if s.holder.Free? && Allowed(s, op) then DoBegin(s, op) else s
    case Read => if s.holder.Asking? then DoRead(s) else s
    case Finish => if s.holder.Told? then DoFinish(s, budget) else s
    case Write(turn) => if s.holder.Free? && Writable(s.staged, turn) then DoWrite(s, turn) else s
    case End(turn, commit) => if turn in s.staged.writing then DoEnd(s, turn, commit) else s
    case Rollback(turn) => DoRollback(s, turn)
  }

  ghost function Run(s: Store, steps: seq<Step>, budget: nat): Store {
    if steps == [] then s else Do(Run(s, steps[..|steps| - 1], budget), steps[|steps| - 1], budget)
  }
}
