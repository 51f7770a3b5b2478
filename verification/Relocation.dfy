/** Moving a workspace's git directory to host-owned storage, with a crash possible between any
    two file system operations. */
module RelocationModel {
  import opened Options

  type Path = seq<string>

  datatype Node = Folder | File(content: string) | Link(target: string) | Special

  /** A directory as the nodes below it; the parent of a node is a folder of the tree. */
  type Tree = map<Path, Node>

  predicate WellFormed(tree: Tree) {
    forall p :: p in tree ==> p != [] && (|p| > 1 ==> p[..|p| - 1] in tree && tree[p[..|p| - 1]].Folder?)
  }

  /** What is at `.git` in the workspace. */
  datatype Entry = Absent | Directory(tree: Tree) | Pointer(text: string)

  const GITDIR := "gitdir: repo\n"

  /** The workspace's `.git` and backup, and the host's `repo` and staging directory. */
  datatype Disk = Disk(git: Entry, backup: Option<Tree>, repo: Option<Tree>, copying: Option<Tree>)

  /** Where the running attempt is; `Idle` before it starts and after a crash. */
  datatype Pc =
    | Idle | Check | Move | Clear | Staging | Copying | Filling(path: Path) | Create | Fill | Done | Failed

  /** `stale`: the attempt found a pointer file with other text at `.git` when it started. */
  datatype State = State(disk: Disk, pc: Pc, stale: bool)

  datatype Step =
    | Start | Look | Rename | Withdraw | Unlink(path: Path) | Emptied | MakeStaging
    | Copy(path: Path) | Write | Publish | CreatePointer | WritePointer | Error | Crash

  predicate StalePointer(disk: Disk) {
    disk.git.Pointer? && disk.git.text != GITDIR
  }

  /** Puts a withdrawn directory back, unless a repository is published or `.git` is there. */
  function Restore(disk: Disk): Disk {
    if disk.repo.Some? || !disk.git.Absent? || disk.backup.None? then disk
    else disk.(git := Directory(disk.backup.value), backup := None)
  }

  predicate Copyable(disk: Disk, p: Path) {
    && disk.backup.Some? && disk.copying.Some?
    && p in disk.backup.value && p !in disk.copying.value
    && (|p| > 1 ==> p[..|p| - 1] in disk.copying.value)
  }

  predicate Enabled(s: State, step: Step, sameVolume: bool) {
    var disk := s.disk;
    match step
    case Start => s.pc.Idle?
    case Look => s.pc.Check?
    case Rename => s.pc.Move? && disk.git.Directory? && sameVolume
    case Withdraw => s.pc.Move? && disk.git.Directory? && !sameVolume && disk.backup.None?
    case Unlink(p) => s.pc.Clear? && disk.copying.Some? && p in disk.copying.value
    case Emptied => s.pc.Clear? && (disk.copying.Some? ==> disk.copying.value == map[])
    case MakeStaging => s.pc.Staging?
    case Copy(p) => s.pc.Copying? && Copyable(disk, p) && !disk.backup.value[p].Special?
    case Write => s.pc.Filling? && disk.backup.Some? && disk.copying.Some? && s.pc.path in disk.backup.value
    case Publish =>
      && s.pc.Copying? && disk.backup.Some? && disk.copying.Some?
      && disk.copying.value.Keys == disk.backup.value.Keys
    case CreatePointer => s.pc.Create?
    case WritePointer => s.pc.Fill?
    case Error => !s.pc.Idle? && !s.pc.Check? && !s.pc.Done? && !s.pc.Failed?
    case Crash => true
  }

  function Do(s: State, step: Step, sameVolume: bool): State
    requires Enabled(s, step, sameVolume)
  {
    var disk := s.disk;
    match step
    case Start => State(Restore(disk), Check, StalePointer(disk))
    case Look =>
      if disk.repo.None? then s.(pc := Move)
      else if disk.git.Directory? then s.(pc := Failed)
      else if disk.git.Absent? then s.(pc := Create)
      else s.(pc := Done)
    case Rename => s.(disk := disk.(repo := Some(disk.git.tree), git := Absent), pc := Create)
    case Withdraw => s.(disk := disk.(backup := Some(disk.git.tree), git := Absent), pc := Clear)
    case Unlink(p) => s.(disk := disk.(copying := Some(disk.copying.value - {p})))
    case Emptied => s.(disk := disk.(copying := None), pc := Staging)
    case MakeStaging => s.(disk := disk.(copying := Some(map[])), pc := Copying)
    case Copy(p) =>
      var node := disk.backup.value[p];
      if node.File? then s.(disk := disk.(copying := Some(disk.copying.value[p := File("")])), pc := Filling(p))
      else s.(disk := disk.(copying := Some(disk.copying.value[p := node])))
    case Write =>
      s.(disk := disk.(copying := Some(disk.copying.value[s.pc.path := disk.backup.value[s.pc.path]])), pc := Copying)
    case Publish => s.(disk := disk.(repo := disk.copying, copying := None), pc := Create)
    case CreatePointer => s.(disk := disk.(git := Pointer("")), pc := Fill)
    case WritePointer => s.(disk := disk.(git := Pointer(GITDIR)), pc := Done)
    case Error => s.(disk := Restore(disk), pc := Failed)
    case Crash => s.(pc := Idle)
  }

  // What every state keeps.

  predicate Kept(disk: Disk, history: Tree) {
    disk.git == Directory(history) || disk.backup == Some(history) || disk.repo == Some(history)
  }

  ghost predicate CopyOf(copy: Tree, source: Tree, filling: Option<Path>) {
    forall p :: p in copy ==>
      && p in source
      && (copy[p] == source[p] || (filling == Some(p) && copy[p] == File("") && source[p].File?))
  }

  /** The disk by itself, whatever attempt is running. */
  ghost predicate DiskFits(disk: Disk, history: Tree) {
    && Kept(disk, history)
    && (disk.repo.Some? ==> disk.repo.value == history && !disk.git.Directory?)
    && (disk.backup.Some? ==> disk.backup.value == history && !disk.git.Directory?)
    && (disk.git.Directory? ==> disk.git.tree == history)
    && (disk.git.Pointer? ==> disk.repo.Some?)
  }

  ghost predicate PcFits(s: State, history: Tree) {
    match s.pc
    case Idle => true
    case Check => (s.disk.repo.None? ==> s.disk.git.Directory?) && (s.stale == StalePointer(s.disk))
    case Move => s.disk.repo.None? && s.disk.git.Directory? && s.disk.backup.None? && !s.stale
    case Clear => s.disk.repo.None? && s.disk.git.Absent? && s.disk.backup.Some? && !s.stale
    case Staging => s.disk.repo.None? && s.disk.git.Absent? && s.disk.backup.Some? && !s.stale
    case Copying =>
      && s.disk.repo.None? && s.disk.git.Absent? && s.disk.backup.Some? && !s.stale
      && s.disk.copying.Some? && CopyOf(s.disk.copying.value, history, None)
    case Filling(p) =>
      && s.disk.repo.None? && s.disk.git.Absent? && s.disk.backup.Some? && !s.stale
      && s.disk.copying.Some? && CopyOf(s.disk.copying.value, history, Some(p)) && p in history && history[p].File?
    case Create => s.disk.repo.Some? && s.disk.git.Absent? && !s.stale
    case Fill => s.disk.repo.Some? && s.disk.git == Pointer("") && !s.stale
    case Done => s.disk.repo.Some? && s.disk.git.Pointer? && (StalePointer(s.disk) <==> s.stale)
    case Failed => s.disk.repo.None? ==> s.disk.git == Directory(history)
  }

  predicate Apart(pc: Pc) {
    pc.Clear? || pc.Staging? || pc.Copying? || pc.Filling?
  }

  ghost predicate Inv(s: State, history: Tree, sameVolume: bool) {
    DiskFits(s.disk, history) && PcFits(s, history) && (Apart(s.pc) ==> !sameVolume)
  }

  lemma InvStep(s: State, step: Step, sameVolume: bool, history: Tree)
    requires Inv(s, history, sameVolume) && Enabled(s, step, sameVolume)
    ensures Inv(Do(s, step, sameVolume), history, sameVolume)
  {
    hide Inv, Enabled, Do;
    if step.Copy? || step.Write? || step.Publish? {
      InvCopying(s, step, sameVolume, history);
    } else {
      InvMoving(s, step, sameVolume, history);
    }
  }

  lemma InvCopying(s: State, step: Step, sameVolume: bool, history: Tree)
    requires Inv(s, history, sameVolume) && Enabled(s, step, sameVolume) && (step.Copy? || step.Write? || step.Publish?)
    ensures Inv(Do(s, step, sameVolume), history, sameVolume)
  {
    if step.Publish? {
      assert s.disk.copying.value == history;
    }
  }

  lemma InvMoving(s: State, step: Step, sameVolume: bool, history: Tree)
    requires Inv(s, history, sameVolume) && Enabled(s, step, sameVolume)
    requires !step.Copy? && !step.Write? && !step.Publish?
    ensures Inv(Do(s, step, sameVolume), history, sameVolume)
  {
  }

  ghost predicate Runs(s: State, steps: seq<Step>, sameVolume: bool)
    decreases |steps|
  {
    steps == [] || (Enabled(s, steps[0], sameVolume) && Runs(Do(s, steps[0], sameVolume), steps[1..], sameVolume))
  }

  ghost function Run(s: State, steps: seq<Step>, sameVolume: bool): State
    requires Runs(s, steps, sameVolume)
    decreases |steps|
  {
    if steps == [] then s else Run(Do(s, steps[0], sameVolume), steps[1..], sameVolume)
  }

  lemma {:induction false} RunInv(s: State, steps: seq<Step>, sameVolume: bool, history: Tree)
    requires Inv(s, history, sameVolume) && Runs(s, steps, sameVolume)
    ensures Inv(Run(s, steps, sameVolume), history, sameVolume)
    decreases |steps|
  {
    hide Inv, Enabled, Do;
    if steps != [] {
      InvStep(s, steps[0], sameVolume, history);
      RunInv(Do(s, steps[0], sameVolume), steps[1..], sameVolume, history);
    }
  }

  /** A workspace with a git directory that was never moved. */
  predicate Unmoved(s: State, history: Tree) {
    s.pc.Idle? && s.disk.git == Directory(history) && s.disk.backup.None? && s.disk.repo.None?
  }

  /** Through any attempts, errors and crashes one complete copy of the history exists, what is
      visible as the repository is complete, and no two directories claim to be the live one. */
  lemma HistoryIsKept(s: State, steps: seq<Step>, sameVolume: bool, history: Tree)
    requires Unmoved(s, history) && Runs(s, steps, sameVolume)
    ensures var disk := Run(s, steps, sameVolume).disk;
            && Kept(disk, history)
            && (disk.repo.Some? ==> disk.repo.value == history && !disk.git.Directory?)
  {
    RunInv(s, steps, sameVolume, history);
  }

  /** The withdrawn directory stays beside the published copy, and only there: a rename leaves none. */
  predicate KeepsOriginal(s: State, sameVolume: bool) {
    s.disk.repo.Some? ==> (s.disk.backup.Some? <==> !sameVolume)
  }

  lemma OriginalStep(s: State, step: Step, sameVolume: bool, history: Tree)
    requires Inv(s, history, sameVolume) && Enabled(s, step, sameVolume) && KeepsOriginal(s, sameVolume)
    ensures KeepsOriginal(Do(s, step, sameVolume), sameVolume)
  {
  }

  lemma {:induction false} OriginalKept(s: State, steps: seq<Step>, sameVolume: bool, history: Tree)
    requires Inv(s, history, sameVolume) && KeepsOriginal(s, sameVolume) && Runs(s, steps, sameVolume)
    ensures KeepsOriginal(Run(s, steps, sameVolume), sameVolume)
    decreases |steps|
  {
    hide Inv, Enabled, Do, KeepsOriginal;
    if steps != [] {
      InvStep(s, steps[0], sameVolume, history);
      OriginalStep(s, steps[0], sameVolume, history);
      OriginalKept(Do(s, steps[0], sameVolume), steps[1..], sameVolume, history);
    }
  }

  /** Through any attempts, errors and crashes: once a repository is published, the directory it was copied
      from is still there, complete, exactly when it had to be copied. */
  lemma OriginalSurvives(s: State, steps: seq<Step>, sameVolume: bool, history: Tree)
    requires Unmoved(s, history) && Runs(s, steps, sameVolume)
    ensures var disk := Run(s, steps, sameVolume).disk;
            disk.repo.Some? ==> disk.backup == if sameVolume then None else Some(history)
  {
    RunInv(s, steps, sameVolume, history);
    OriginalKept(s, steps, sameVolume, history);
  }

  /** An attempt that finds a published repository and another git directory in the workspace refuses at
      once and leaves both as they are; it refuses at once in no other case. */
  lemma TwoRepositoriesIff(s: State, sameVolume: bool)
    requires s.pc.Idle?
    ensures Runs(s, [Start, Look], sameVolume)
    ensures var r := Run(s, [Start, Look], sameVolume);
            && (r.pc.Failed? <==> s.disk.repo.Some? && s.disk.git.Directory?)
            && (r.pc.Failed? ==> r.disk == s.disk)
  {
    assert [Start, Look][1..] == [Look] && [Look][1..] == [];
    assert Run(Do(s, Start, sameVolume), [Look], sameVolume) == Do(Do(s, Start, sameVolume), Look, sameVolume);
  }

  /** The history can be moved: on one volume always, across volumes if it can be copied. */
  predicate Movable(history: Tree, sameVolume: bool) {
    WellFormed(history) && (sameVolume || forall p :: p in history ==> !history[p].Special?)
  }

  function CopyLeft(disk: Disk, history: Tree): nat {
    if disk.copying.Some? then |history.Keys - disk.copying.value.Keys| else |history.Keys|
  }

  /** How far an attempt is from its end. */
  function Distance(s: State, history: Tree): (nat, nat) {
    match s.pc
    case Idle => (9, 0)
    case Check => (8, 0)
    case Move => (7, 0)
    case Clear => (6, if s.disk.copying.Some? then |s.disk.copying.value| else 0)
    case Staging => (5, 0)
    case Copying => (4, 2 * CopyLeft(s.disk, history))
    case Filling(_) => (4, 2 * CopyLeft(s.disk, history) + 1)
    case Create => (3, 0)
    case Fill => (2, 0)
    case Done => (0, 0)
    case Failed => (0, 0)
  }

  predicate Nearer(a: (nat, nat), b: (nat, nat)) {
    a.0 < b.0 || (a.0 == b.0 && a.1 < b.1)
  }

  predicate Forward(step: Step) {
    !step.Error? && !step.Crash?
  }

  lemma OneFewer(a: set<Path>, b: set<Path>, p: Path)
    requires p in a && p !in b
    ensures |a - (b + {p})| < |a - b|
  {
    assert a - b == (a - (b + {p})) + {p};
  }

  lemma UnlinkShrinks(tree: Tree, p: Path)
    requires p in tree
    ensures |tree - {p}| < |tree|
  {
    assert tree.Keys == (tree - {p}).Keys + {p};
    assert |(tree - {p}).Keys| == |tree - {p}| && |tree.Keys| == |tree|;
  }

  lemma CopyShrinks(copy: Tree, p: Path, node: Node, history: Tree)
    requires p in history && p !in copy
    ensures |history.Keys - copy[p := node].Keys| < |history.Keys - copy.Keys|
  {
    OneFewer(history.Keys, copy.Keys, p);
    assert copy[p := node].Keys == copy.Keys + {p};
  }

  lemma WriteKeepsKeys(copy: Tree, p: Path, node: Node, history: Tree)
    requires p in history
    ensures |history.Keys - copy[p := node].Keys| <= |history.Keys - copy.Keys|
  {
    if p !in copy {
      CopyShrinks(copy, p, node, history);
    } else {
      assert copy[p := node].Keys == copy.Keys;
    }
  }

  /** Every step of an attempt that does not fail brings it nearer to its end. */
  lemma StepsAdvance(s: State, step: Step, sameVolume: bool, history: Tree)
    requires Inv(s, history, sameVolume) && Enabled(s, step, sameVolume) && Forward(step)
    ensures Nearer(Distance(Do(s, step, sameVolume), history), Distance(s, history))
  {
    if step.Copy? {
      CopyAdvances(s, step, sameVolume, history);
    } else if step.Write? {
      WriteAdvances(s, step, sameVolume, history);
    } else if step.Unlink? {
      UnlinkShrinks(s.disk.copying.value, step.path);
      hide Inv;
    } else {
      OthersAdvance(s, step, sameVolume, history);
    }
  }

  lemma CopyAdvances(s: State, step: Step, sameVolume: bool, history: Tree)
    requires Inv(s, history, sameVolume) && Enabled(s, step, sameVolume) && step.Copy?
    ensures Nearer(Distance(Do(s, step, sameVolume), history), Distance(s, history))
  {
    hide Do, Enabled, Inv;
    CopyIs(s, step.path, sameVolume, history);
    var node := s.disk.backup.value[step.path];
    CopyShrinks(s.disk.copying.value, step.path, if node.File? then File("") else node, history);
  }

  lemma CopyIs(s: State, p: Path, sameVolume: bool, history: Tree)
    requires Inv(s, history, sameVolume) && Enabled(s, Copy(p), sameVolume)
    ensures s.disk.backup.Some? && s.disk.copying.Some? && p in s.disk.backup.value
    ensures p in history && p !in s.disk.copying.value
    ensures var node, r := s.disk.backup.value[p], Do(s, Copy(p), sameVolume);
            && r.disk.copying == Some(s.disk.copying.value[p := if node.File? then File("") else node])
            && s.pc.Copying? && (r.pc.Copying? || r.pc.Filling?)
  {
  }

  lemma WriteAdvances(s: State, step: Step, sameVolume: bool, history: Tree)
    requires Inv(s, history, sameVolume) && Enabled(s, step, sameVolume) && step.Write?
    ensures Nearer(Distance(Do(s, step, sameVolume), history), Distance(s, history))
  {
    hide Do, Enabled, Inv;
    WriteIs(s, sameVolume, history);
    WriteKeepsKeys(s.disk.copying.value, s.pc.path, s.disk.backup.value[s.pc.path], history);
  }

  lemma WriteIs(s: State, sameVolume: bool, history: Tree)
    requires Inv(s, history, sameVolume) && Enabled(s, Write, sameVolume)
    ensures s.pc.Filling? && s.disk.backup.Some? && s.disk.copying.Some?
    ensures s.pc.path in s.disk.backup.value && s.pc.path in history
    ensures var r := Do(s, Write, sameVolume);
            && r.disk.copying == Some(s.disk.copying.value[s.pc.path := s.disk.backup.value[s.pc.path]])
            && r.pc.Copying?
  {
  }

  lemma OthersAdvance(s: State, step: Step, sameVolume: bool, history: Tree)
    requires Enabled(s, step, sameVolume) && Forward(step) && !step.Copy? && !step.Write? && !step.Unlink?
    ensures Distance(Do(s, step, sameVolume), history).0 < Distance(s, history).0
  {
    hide CopyLeft;
  }

  lemma {:induction false} SomeCopyable(copy: Tree, source: Tree, p: Path) returns (q: Path)
    requires WellFormed(source) && p in source && p !in copy
    ensures q in source && q !in copy && (|q| > 1 ==> q[..|q| - 1] in copy)
    decreases |p|
  {
    if |p| > 1 && p[..|p| - 1] !in copy {
      q := SomeCopyable(copy, source, p[..|p| - 1]);
    } else {
      q := p;
    }
  }

  lemma Uncopied(copy: Tree, source: Tree) returns (p: Path)
    requires CopyOf(copy, source, None) && copy.Keys != source.Keys
    ensures p in source && p !in copy
  {
    p := PickMissing(copy.Keys, source.Keys);
  }

  lemma PickMissing<T>(a: set<T>, b: set<T>) returns (x: T)
    requires a <= b && a != b
    ensures x in b && x !in a
  {
    assert !(b <= a);
    x :| x in b && x !in a;
  }

  /** An attempt that has not ended can always go on. */
  lemma NeverStuck(s: State, sameVolume: bool, history: Tree) returns (step: Step)
    requires Inv(s, history, sameVolume) && Movable(history, sameVolume) && !s.pc.Done? && !s.pc.Failed?
    ensures Forward(step) && Enabled(s, step, sameVolume)
  {
    match s.pc
    case Idle => step := Start;
    case Check => step := Look;
    case Move => step := if sameVolume then Rename else Withdraw;
    case Clear =>
      if s.disk.copying.Some? && s.disk.copying.value != map[] {
        assert s.disk.copying.value.Keys != {};
        var p :| p in s.disk.copying.value;
        step := Unlink(p);
      } else {
        step := Emptied;
      }
    case Staging => step := MakeStaging;
    case Copying =>
      if s.disk.copying.value.Keys == history.Keys {
        step := Publish;
      } else {
        var p := Uncopied(s.disk.copying.value, history);
        var q := SomeCopyable(s.disk.copying.value, history, p);
        step := Copy(q);
      }
    case Filling(_) => step := Write;
    case Create => step := CreatePointer;
    case Fill => step := WritePointer;
  }

  predicate Relocated(disk: Disk, history: Tree) {
    disk.repo == Some(history) && disk.git == Pointer(GITDIR)
  }

  ghost predicate Uninterrupted(steps: seq<Step>) {
    forall i :: 0 <= i < |steps| ==> Forward(steps[i])
  }

  /** The flag says what the attempt found when it started. */
  lemma {:induction false} StaleStays(s: State, steps: seq<Step>, sameVolume: bool)
    requires Runs(s, steps, sameVolume) && Uninterrupted(steps) && !s.pc.Idle?
    ensures Run(s, steps, sameVolume).stale == s.stale && !Run(s, steps, sameVolume).pc.Idle?
    decreases |steps|
  {
    if steps != [] {
      StaleStays(Do(s, steps[0], sameVolume), steps[1..], sameVolume);
    }
  }

  /** Started over from any point where an attempt can have stopped, an attempt that runs to its
      end reaches the relocated state exactly when it did not find another pointer text at
      `.git`: the one bad place to stop is between creating that file and writing it. */
  lemma RerunRelocatesIff(s: State, steps: seq<Step>, sameVolume: bool, history: Tree)
    requires Inv(s, history, sameVolume) && s.pc.Idle? && Movable(history, sameVolume)
    requires Runs(s, steps, sameVolume) && Uninterrupted(steps) && steps != []
    requires Run(s, steps, sameVolume).pc.Done? || Run(s, steps, sameVolume).pc.Failed?
    ensures Run(s, steps, sameVolume).pc.Done?
    ensures Relocated(Run(s, steps, sameVolume).disk, history) <==> !StalePointer(s.disk)
  {
    assert Forward(steps[0]) && Enabled(s, steps[0], sameVolume);
    var started := Do(s, steps[0], sameVolume);
    StaleStays(started, steps[1..], sameVolume);
    RunInv(s, steps, sameVolume, history);
    ForwardNeverFails(s, steps, sameVolume, history);
  }

  lemma {:induction false} ForwardNeverFails(s: State, steps: seq<Step>, sameVolume: bool, history: Tree)
    requires Inv(s, history, sameVolume) && Runs(s, steps, sameVolume) && Uninterrupted(steps) && !s.pc.Failed?
    ensures !Run(s, steps, sameVolume).pc.Failed?
    decreases |steps|
  {
    if steps != [] {
      assert Forward(steps[0]);
      InvStep(s, steps[0], sameVolume, history);
      StepCannotFail(s, steps[0], sameVolume, history);
      hide Inv, Do, Enabled;
      ForwardNeverFails(Do(s, steps[0], sameVolume), steps[1..], sameVolume, history);
    }
  }

  lemma StepCannotFail(s: State, step: Step, sameVolume: bool, history: Tree)
    requires Inv(s, history, sameVolume) && Enabled(s, step, sameVolume) && Forward(step) && !s.pc.Failed?
    ensures !Do(s, step, sameVolume).pc.Failed?
  {
  }

  /** A crash between creating the pointer file and writing it, and the attempt after it: the
      attempt ends as if done, and the workspace is left without its repository. */
  lemma CrashInPointerWrite(history: Tree, backup: Option<Tree>)
    ensures var created := State(Disk(Absent, backup, Some(history), None), Create, false);
            var steps := [CreatePointer, Crash, Start, Look];
            && Runs(created, steps, true)
            && Run(created, steps, true).pc.Done?
            && Run(created, steps, true).disk.git == Pointer("")
  {
    var s0 := State(Disk(Absent, backup, Some(history), None), Create, false);
    var s1 := Do(s0, CreatePointer, true);
    var s2 := Do(s1, Crash, true);
    var s3 := Do(s2, Start, true);
    var s4 := Do(s3, Look, true);
    var steps := [CreatePointer, Crash, Start, Look];
    assert steps[1..] == [Crash, Start, Look] && steps[1..][1..] == [Start, Look];
    assert [Start, Look][1..] == [Look] && [Look][1..] == [];
    assert Run(s3, [Look], true) == s4;
    assert Run(s2, [Start, Look], true) == s4;
    assert Run(s1, [Crash, Start, Look], true) == s4;
  }
}

module Relocation {
  import opened RelocationModel
  import opened Options

  class Metadata {
    var git: Entry
    var backup: Option<Tree>
    var repo: Option<Tree>
    var copying: Option<Tree>

    function Value(): Disk
      reads this
    {
      Disk(git, backup, repo, copying)
    }

    method RestoreMetadata()
      modifies this
      ensures Value() == Restore(old(Value()))
    {
      if repo.Some? || !git.Absent? || backup.None? {
        return;
      }
      git, backup := Directory(backup.value), None;
    }

    /** Copies a directory into staging, folders before what they hold. */
    method CopyMetadata(source: Tree) returns (copied: bool)
      requires WellFormed(source)
      modifies this`copying
      ensures copied <==> forall p :: p in source ==> !source[p].Special?
      ensures copied ==> copying == Some(source)
    {
      var copy: Tree := map[];
      copying := Some(copy);
      var left := source.Keys;
      while left != {}
        invariant left <= source.Keys && copy.Keys == source.Keys - left
        invariant forall p :: p in copy ==> copy[p] == source[p] && !source[p].Special?
        invariant copying == Some(copy)
        decreases |left|
      {
        ghost var uncopied := PickMissing({}, left);
        ghost var next := SomeCopyable(copy, source, uncopied);
        var p :| p in left && (|p| > 1 ==> p[..|p| - 1] in copy);
        if source[p].Special? {
          return false;
        }
        assert |left| == |left - {p}| + 1;
        left := left - {p};
        copy := copy[p := source[p]];
        copying := Some(copy);
      }
      assert copy == source;
      return true;
    }

    /** Moves the git directory: by a rename on one volume, else by withdrawing it, copying it and
        publishing the copy once it is complete. */
    method RelocateMetadata(sameVolume: bool) returns (moved: bool)
      requires git.Directory? && backup.None? && repo.None? && WellFormed(git.tree)
      modifies this
      ensures moved == Movable(old(git.tree), sameVolume)
      ensures moved ==> repo == Some(old(git.tree)) && git == Absent
      ensures moved ==> backup == if sameVolume then None else Some(old(git.tree))
      ensures !moved ==> repo.None? && git == Absent && backup == Some(old(git.tree))
    {
      if sameVolume {
        repo, git := Some(git.tree), Absent;
        return true;
      }
      backup, git := Some(git.tree), Absent;
      copying := None;
      moved := CopyMetadata(backup.value);
      if moved {
        repo, copying := copying, None;
      }
    }

    /** One attempt, from whatever an earlier one left behind. */
    method PrepareMetadata(sameVolume: bool, ghost history: Tree) returns (ready: bool)
      requires DiskFits(Value(), history) && WellFormed(history)
      modifies this
      ensures DiskFits(Value(), history)
      ensures ready <==> old(repo).Some? || Movable(history, sameVolume)
      ensures ready ==> repo == Some(history) && git.Pointer?
      ensures ready ==> (Relocated(Value(), history) <==> !StalePointer(old(Value())))
      ensures !ready ==> repo.None? && git == Directory(history)
    {
      RestoreMetadata();
      if repo.Some? {
        if git.Absent? {
          git := Pointer(GITDIR);
        }
        return true;
      }
      var moved := RelocateMetadata(sameVolume);
      if !moved {
        RestoreMetadata();
        return false;
      }
      git := Pointer(GITDIR);
      return true;
    }
  }
}
