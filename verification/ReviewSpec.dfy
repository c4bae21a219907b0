/**
 The review-queue coordinator as a state machine on values.  Every function here is one operation of
 crates/code/src/git.rs; the class in Coordinator.dfy performs the same operations in place and is
 proved equal to them.
 */
module ReviewSpec {
  import opened Wrappers
  import opened GitModel
  import opened Text

  /** A commit is named by its position in the object store, so every new commit has a fresh name. */
  type Id = nat
  datatype Commit = Commit(up: Option<Id>, tree: Tree)

  datatype Mode = ReadOnly | Review | Write

  /** `purposes` is the list whose "; "-join is the purpose text; `paths` is `changed_paths`. */
  datatype Item = Item(id: Id, purposes: seq<string>, diff: Diff, paths: set<Path>)

  /** Edited: a user edit of the parent. External: the sensory report of one. Own: a patch of ours put on the parent. */
  datatype Entry = Edited(diff: Diff) | External(diff: Diff) | Own(diff: Diff)

  /**
   What happened so far.  `External` entries and `lost` are the sensory messages sent; the other
   fields are history variables that no operation reads.  `origins` says of a commit made by a clean pick
   or an unmerged rebuild which commit it was made from; it is recorded when the commit is made, whether or
   not it is ever queued or aliased.  `shown` keeps every item ever queued.
   */
  datatype History = History(ledger: seq<Entry>,
                             committed: multiset<string>, applied: multiset<string>,
                             discarded: multiset<string>, lost: seq<Item>,
                             origins: map<Id, Id>, shown: map<Id, Item>)

  datatype State = State(repo: seq<Commit>, parent: Tree, head: Id, work: Tree,
                         baseline: Id, observed: Id, mode: Mode,
                         commits: seq<Item>, aliases: map<Id, Id>, history: History)

  /** A late stage that may fail: taking the snapshot, the reset (`AtReplay(0)`), or replaying item k - 1. */
  datatype Fault = NoFault | AtSnapshot | AtReplay(k: nat)

  datatype Outcome = Done(state: State) | Failed(state: State)

  function Open(parent: Tree): State {
    State([Commit(None, parent)], parent, 0, parent, 0, 0, ReadOnly, [], map[],
          History([], multiset{}, multiset{}, multiset{}, [], map[], map[]))
  }

  // Git commands on the session worktree and the parent.

  function TreeAt(repo: seq<Commit>, id: Id): Tree {
    if id < |repo| then repo[id].tree else map[]
  }

  function TreeOf(s: State, id: Id): Tree {
    TreeAt(s.repo, id)
  }

  function UpTree(repo: seq<Commit>, id: Id): Tree {
    if id < |repo| && repo[id].up.Some? then TreeAt(repo, repo[id].up.value) else map[]
  }

  /** `git show`: the diff from a commit's predecessor. */
  function Show(s: State, id: Id): Diff {
    DiffOf(UpTree(s.repo, id), TreeOf(s, id))
  }

  function Tip(s: State): Id {
    if s.commits == [] then s.baseline else s.commits[|s.commits| - 1].id
  }

  /** The files of the worktree that HEAD does not have; between commands Git does not know of them. */
  function Strays(s: State): Tree {
    s.work - TreeOf(s, s.head).Keys
  }

  /** `git reset --hard`: what the index has is replaced by what the commit has, and other files stay. */
  function ResetFrom(s: State, id: Id, index: Tree): State {
    s.(head := id, work := (s.work - index.Keys) + TreeOf(s, id))
  }

  /** A reset while nothing is staged. */
  function ResetHard(s: State, id: Id): State {
    ResetFrom(s, id, TreeOf(s, s.head))
  }

  function ResetSoft(s: State, id: Id): State {
    s.(head := id)
  }

  /** Commits the index `t` on HEAD. */
  function CommitIndex(s: State, t: Tree): State {
    s.(repo := s.repo + [Commit(Some(s.head), t)], head := |s.repo|)
  }

  /** Commits tree `t`, all of the worktree, on HEAD. */
  function CommitTree(s: State, t: Tree): State {
    CommitIndex(s, t).(work := t)
  }

  /** `git commit` refuses an empty change. */
  function CommitWork(s: State): Option<State> {
    if s.work == TreeOf(s, s.head) then None else Some(CommitTree(s, s.work))
  }

  /** Notes which commit the one at HEAD was made from. */
  function MadeFrom(s: State, id: Id): State {
    s.(history := s.history.(origins := s.history.origins[s.head := id]))
  }

  datatype Pick = Picked(state: State) | Stopped(conflicts: set<Path>)

  /** A pick refuses to write over a file that Git does not know of. */
  predicate Obstructed(strays: Tree, base: Tree, theirs: Tree) {
    exists p :: p in strays && p in theirs && Get(base, p) != Get(theirs, p)
  }

  /** A pick commits the merged tree; stray files stay where they are. */
  function CommitOver(s: State, t: Tree): State {
    CommitIndex(s, t).(work := Strays(s) + t)
  }

  /**
   A stopped pick is aborted, which leaves the worktree as it was; no conflicts means an empty result, or
   that the pick was refused.
   */
  function CherryPick(s: State, id: Id): Pick {
    var base, ours, theirs := UpTree(s.repo, id), TreeOf(s, s.head), TreeOf(s, id);
    var conflicts := ConflictPaths(base, ours, theirs);
    var merged := MergeTrees(base, ours, theirs);
    if Obstructed(Strays(s), base, theirs) then Stopped({})
    else if conflicts != {} || merged == ours then Stopped(conflicts)
    else Picked(MadeFrom(CommitOver(s, merged), id))
  }

  /** `snapshot_parent`: records the parent as a commit of its own; its name is the old store size. */
  function Snapshot(s: State): State {
    s.(repo := s.repo + [Commit(None, s.parent)])
  }

  function ApplyToParent(s: State, d: Diff): Option<State> {
    if Applies(d, s.parent) then Some(s.(parent := Apply(d, s.parent))) else None
  }

  function ReverseOnParent(s: State, d: Diff): Option<State> {
    ApplyToParent(s, Reverse(d))
  }

  // Queue bookkeeping.

  function Push(s: State, item: Item): State {
    s.(commits := s.commits + [item],
       history := s.history.(shown := s.history.shown[item.id := item]))
  }

  function Alias(s: State, was: Id, now: Id): State {
    s.(aliases := s.aliases[was := now])
  }

  function Lose(s: State, item: Item): State {
    s.(history := s.history.(lost := s.history.lost + [item]))
  }

  function Record(s: State, e: Entry): State {
    s.(history := s.history.(ledger := s.history.ledger + [e]))
  }

  /** The alias map is dropped whenever a replay ends with an empty queue. */
  function Settle(s: State): State {
    if s.commits == [] then s.(aliases := map[]) else s
  }

  function Purposes(items: seq<Item>): multiset<string> {
    if items == [] then multiset{}
    else Purposes(items[..|items| - 1]) + multiset(items[|items| - 1].purposes)
  }

  function AllPurposes(items: seq<Item>): seq<string> {
    if items == [] then [] else AllPurposes(items[..|items| - 1]) + items[|items| - 1].purposes
  }

  function AllPaths(items: seq<Item>): set<Path> {
    if items == [] then {} else AllPaths(items[..|items| - 1]) + items[|items| - 1].paths
  }

  function Position(items: seq<Item>, id: Id): (k: nat)
    ensures k <= |items|
    ensures k < |items| ==> items[k].id == id
    ensures forall i | 0 <= i < k :: items[i].id != id
  {
    if items == [] || items[0].id == id then 0 else 1 + Position(items[1..], id)
  }

  function RemoveAt(items: seq<Item>, k: nat): seq<Item>
    requires k < |items|
  {
    items[..k] + items[k + 1..]
  }

  /** The alias walk: follow links until one is missing or a name repeats. */
  function ResolveFrom(aliases: map<Id, Id>, current: Id, seen: set<Id>): Id
    decreases aliases.Keys - seen
  {
    if current in seen || current !in aliases then current
    else
      assert current in aliases.Keys - seen;
      ResolveFrom(aliases, aliases[current], seen + {current})
  }

  function Resolve(aliases: map<Id, Id>, id: Id): Id {
    ResolveFrom(aliases, id, {})
  }

  // Replay.

  /** Queues HEAD as the new form of an item. */
  function PushHead(s: State, item: Item): State {
    Push(s, item.(id := s.head, diff := Show(s, s.head)))
  }

  function PushPicked(s: State, item: Item): State {
    PushHead(Alias(s, item.id, s.head), item)
  }

  function ReplayStep(s: State, item: Item): State {
    match CherryPick(s, item.id)
    case Picked(s1) => PushPicked(s1, item)
    case Stopped(_) => Lose(ResetHard(s, Tip(s)), item)
  }

  function ReplayAll(s: State, rest: seq<Item>): State
    decreases |rest|
  {
    if rest == [] then s else ReplayAll(ReplayStep(s, rest[0]), rest[1..])
  }

  function StartReplay(s: State, base: Id): State {
    ResetHard(s.(commits := []), base).(baseline := base)
  }

  function ReplayOnto(s: State, base: Id, fault: Fault): Outcome {
    var s1 := StartReplay(s, base);
    if fault == AtReplay(0) then Failed(s.(commits := []))
    else if fault.AtReplay? && fault.k <= |s.commits| then
      var s2 := ReplayAll(s1, s.commits[..fault.k - 1]);
      match CherryPick(s2, s.commits[fault.k - 1].id)
      case Picked(s3) => Failed(s3)
      case Stopped(_) => Failed(s2)
    else Done(Settle(ReplayAll(s1, s.commits)))
  }

  // Synchronization with the conflict resolver.

  datatype ConflictFile = ConflictFile(path: Path, content: Option<Content>)

  /** The resolver's answer for one item; `staged` is the verdict of `git diff --cached --check`. */
  datatype Answer = NoAnswer | Answered(files: seq<ConflictFile>, staged: bool)

  function PathsOf(files: seq<ConflictFile>): set<Path> {
    set f | f in files :: f.path
  }

  /** The path-set check: every conflicted path exactly once. */
  predicate CoversOnce(conflicts: set<Path>, files: seq<ConflictFile>) {
    PathsOf(files) == conflicts && |PathsOf(files)| == |files|
  }

  function Overwrite(t: Tree, files: seq<ConflictFile>): Tree {
    if files == [] then t
    else
      var t1 := Overwrite(t, files[..|files| - 1]);
      var f := files[|files| - 1];
      if f.content.Some? then t1[f.path := f.content.value] else t1 - {f.path}
  }

  /** A directory exists exactly as long as it has files. */
  predicate IsDir(t: Tree, p: Path) {
    exists q :: q in t && p < q
  }

  /** No file is in the way to the path, and no directory is at it. */
  predicate Clear(t: Tree, p: Path) {
    p != [] && !IsDir(t, p) && forall n | 0 < n < |p| :: p[..n] !in t
  }

  /** Writing a resolved file creates no directory. */
  predicate Writable(t: Tree, p: Path) {
    Clear(t, p) && (|p| == 1 || IsDir(t, p[..|p| - 1]))
  }

  /** Removing a file that does not exist is fine. */
  predicate CanTake(t: Tree, f: ConflictFile) {
    if f.content.Some? then !HasMarkers(f.content.value) && Writable(t, f.path) else Clear(t, f.path)
  }

  /**
   How many of the files are written before one cannot be.  No directory appears or vanishes meanwhile, so the
   tree at the start decides.
   */
  function Reach(t: Tree, files: seq<ConflictFile>): (k: nat)
    ensures k <= |files|
    ensures forall i | 0 <= i < k :: CanTake(t, files[i])
    ensures k < |files| ==> !CanTake(t, files[k])
  {
    if files == [] || !CanTake(t, files[0]) then 0 else 1 + Reach(t, files[1..])
  }

  /** `git add` refuses a path that is neither in the worktree nor in the index. */
  predicate Known(tip: Tree, files: seq<ConflictFile>) {
    forall f | f in files && f.content.None? :: f.path in tip
  }

  /** All files are written, and the index takes them. */
  predicate Lands(s: State, files: seq<ConflictFile>) {
    Reach(s.work, files) == |files| && Known(TreeOf(s, s.head), files)
  }

  /** The worktree as far as the files are written. */
  function WriteFiles(s: State, files: seq<ConflictFile>): State {
    s.(work := Overwrite(s.work, files[..Reach(s.work, files)]))
  }

  /** Everything `apply_conflict_resolution` asks for before the commit. */
  predicate Acceptable(s: State, conflicts: set<Path>, answer: Answer)
    requires answer.Answered?
  {
    CoversOnce(conflicts, answer.files) && Lands(s, answer.files) && answer.staged
  }

  /** The tree that is committed for a resolution: the tip's, with the resolved files. */
  function Resolved(s: State, files: seq<ConflictFile>): Tree {
    Overwrite(TreeOf(s, s.head), files)
  }

  /** A resolution that is not committed is reset; nothing is staged unless all files landed. */
  function GiveUp(s: State, files: seq<ConflictFile>): State {
    var index := if Lands(s, files) then Resolved(s, files) else TreeOf(s, s.head);
    ResetFrom(WriteFiles(s, files), Tip(s), index)
  }

  function ResolveStep(s: State, item: Item, answer: Answer): State {
    match CherryPick(s, item.id)
    case Picked(s1) => PushPicked(s1, item)
    case Stopped(conflicts) =>
      if conflicts == {} || answer.NoAnswer? then Lose(s, item)
      else if !CoversOnce(conflicts, answer.files) then Lose(ResetHard(s, Tip(s)), item)
      else if !Acceptable(s, conflicts, answer) || Resolved(s, answer.files) == TreeOf(s, s.head) then
        Lose(GiveUp(s, answer.files), item)
      else PushHead(CommitIndex(WriteFiles(s, answer.files), Resolved(s, answer.files)), item)
  }

  function FirstAnswer(answers: seq<Answer>): Answer {
    if answers == [] then NoAnswer else answers[0]
  }

  function LaterAnswers(answers: seq<Answer>): seq<Answer> {
    if answers == [] then [] else answers[1..]
  }

  function SyncLoop(s: State, rest: seq<Item>, answers: seq<Answer>): State
    decreases |rest|
  {
    if rest == [] then s
    else SyncLoop(ResolveStep(s, rest[0], FirstAnswer(answers)), rest[1..], LaterAnswers(answers))
  }

  /** Whether some item of the loop was resolved, dropped or lost instead of replayed cleanly. */
  function SyncChanged(s: State, rest: seq<Item>, answers: seq<Answer>): bool
    decreases |rest|
  {
    rest != [] &&
    (CherryPick(s, rest[0].id).Stopped? ||
     SyncChanged(ResolveStep(s, rest[0], FirstAnswer(answers)), rest[1..], LaterAnswers(answers)))
  }

  datatype SyncResult = SyncResult(state: State, changed: bool)

  function Sync(s: State, answers: seq<Answer>): SyncResult {
    var s1 := Snapshot(s);
    var next := |s.repo|;
    if s.parent == TreeOf(s1, s.observed) then SyncResult(s1, false)
    else
      var external := DiffOf(TreeOf(s1, s.observed), s.parent);
      var s2 := StartReplay(s1, next);
      var s3 := SyncLoop(s2, s.commits, answers);
      SyncResult(Record(Settle(s3.(observed := next)), External(external)),
                 SyncChanged(s2, s.commits, answers))
  }

  /** A synchronization whose reset fails: the queue has been taken, and nobody puts it back. */
  function CutSync(s: State): State {
    Snapshot(s).(commits := [])
  }

  // Applying and discarding.

  function Adopt(s: State, fault: Fault): Outcome {
    if fault == AtSnapshot then Failed(s)
    else ReplayOnto(Snapshot(s).(observed := |s.repo|), |s.repo|, fault)
  }

  /** Undoes a patch whose finalization failed, and rebuilds the saved queue on the saved baseline. */
  function Rollback(s: State, d: Diff, saved: seq<Item>, base: Id): State {
    match ReverseOnParent(s, d)
    case None => s
    case Some(s1) => ReplayOnto(s1.(commits := saved), base, NoFault).state
  }

  /**
   The part of Apply and ApplyAll after the check: the patch goes on the parent, `rest` is replayed on the
   new snapshot, and a failure puts parent, baseline and queue back.
   */
  function FinishApply(s: State, d: Diff, rest: seq<Item>, fault: Fault): Outcome {
    match Adopt(s.(parent := Apply(d, s.parent), commits := rest), fault)
    case Done(s1) => Done(s1)
    case Failed(s1) => Failed(Rollback(s1, d, s.commits, s.baseline))
  }

  function Applied(s: State, items: seq<Item>, d: Diff): State {
    Record(s.(history := s.history.(applied := s.history.applied + Purposes(items))), Own(d))
  }

  function ApplyOne(s: State, name: Id, fault: Fault): Outcome {
    var k := Position(s.commits, Resolve(s.aliases, name));
    if k == |s.commits| then Failed(s)
    else
      var item := s.commits[k];
      if !Applies(item.diff, s.parent) then Failed(s)
      else
        match FinishApply(s, item.diff, RemoveAt(s.commits, k), fault)
        case Done(s1) => Done(Applied(s1, [item], item.diff))
        case Failed(s1) => Failed(s1)
  }

  function DiscardOne(s: State, name: Id, fault: Fault): Outcome {
    var k := Position(s.commits, Resolve(s.aliases, name));
    if k == |s.commits| then Failed(s)
    else
      var s1 := s.(commits := RemoveAt(s.commits, k),
                   history := s.history.(discarded := s.history.discarded + Purposes([s.commits[k]])));
      ReplayOnto(s1, s.baseline, fault)
  }

  function QueueDiff(s: State): Diff {
    DiffOf(TreeOf(s, s.baseline), TreeOf(s, Tip(s)))
  }

  function ApplyAll(s: State, fault: Fault): Outcome {
    if s.commits == [] then Done(s)
    else if !Applies(QueueDiff(s), s.parent) then Failed(s)
    else
      match FinishApply(s, QueueDiff(s), [], fault)
      case Done(s1) => Done(Applied(s1, s.commits, QueueDiff(s)))
      case Failed(s1) => Failed(s1)
  }

  function ChangeMode(s: State, mode: Mode, fault: Fault): Outcome {
    if s.mode == mode then Done(s)
    else if s.mode == Review && mode == Write then
      match ApplyAll(s, fault)
      case Done(s1) => Done(s1.(mode := mode))
      case Failed(s1) => Failed(s1)
    else Done(s.(mode := mode))
  }

  datatype Control = SetMode(mode: Mode) | ApplyCommit(id: Id) | DiscardCommit(id: Id) | ApplyQueue

  function Dispatch(s: State, control: Control, fault: Fault): Outcome {
    match control
    case SetMode(mode) => ChangeMode(s, mode, fault)
    case ApplyCommit(id) => ApplyOne(s, id, fault)
    case DiscardCommit(id) => DiscardOne(s, id, fault)
    case ApplyQueue => ApplyAll(s, fault)
  }

  /** `handle_control_with_resolver`: a changed review stops whatever would apply the whole queue. */
  function HandleControl(s: State, control: Control, answers: seq<Answer>, fault: Fault): Outcome {
    var sync := Sync(s, answers);
    if sync.changed && (control == ApplyQueue || control == SetMode(Write)) then Done(sync.state)
    else Dispatch(sync.state, control, fault)
  }

  // Finishing a patch.

  function AppliesAfter(base: Tree, first: Diff, second: Diff): bool {
    Applies(first, base) && Applies(second, Apply(first, base))
  }

  /** The first queued item after which `newest` applies to the baseline, or the number of items. */
  function FindDependency(items: seq<Item>, base: Tree, newest: Diff): (k: nat)
    ensures k <= |items|
    ensures k < |items| ==> AppliesAfter(base, items[k].diff, newest)
    ensures forall i | 0 <= i < k :: !AppliesAfter(base, items[i].diff, newest)
  {
    if items == [] || AppliesAfter(base, items[0].diff, newest) then 0
    else 1 + FindDependency(items[1..], base, newest)
  }

  function ApplyToWork(s: State, d: Diff): Option<State> {
    if Applies(d, s.work) then Some(s.(work := Apply(d, s.work))) else None
  }

  function FoldItem(item: Item, newest: Item): Item {
    item.(purposes := item.purposes + newest.purposes, paths := item.paths + newest.paths)
  }

  /** One turn of the rebuild: `fold` says that this is the item `newest` is merged into. */
  function RebuildStep(s: State, item: Item, fold: bool, newest: Item): Outcome {
    match ApplyToWork(s, item.diff)
    case None => Failed(s)
    case Some(s1) =>
      if fold then
        match ApplyToWork(s1, newest.diff)
        case None => Failed(s1)
        case Some(s2) =>
          match CommitWork(s2)
          case None => Failed(s2)
          case Some(s3) => Done(PushHead(s3, FoldItem(item, newest)))
      else
        match CommitWork(s1)
        case None => Failed(s1)
        case Some(s2) => Done(PushHead(Alias(MadeFrom(s2, item.id), item.id, s2.head), item))
  }

  function Rebuild(s: State, rest: seq<Item>, dependency: int, newest: Item): Outcome
    decreases |rest|
  {
    if rest == [] then Done(s)
    else
      match RebuildStep(s, rest[0], dependency == 0, newest)
      case Failed(s1) => Failed(s1)
      case Done(s1) => Rebuild(s1, rest[1..], dependency - 1, newest)
  }

  function Merge(s: State, dependency: nat): Outcome
    requires s.commits != []
  {
    var n := |s.commits| - 1;
    match Rebuild(ResetHard(s.(commits := []), s.baseline), s.commits[..n], dependency, s.commits[n])
    case Done(s1) => Done(s1)
    case Failed(s1) => Failed(ResetHard(s1, s.commits[n].id).(commits := s.commits))
  }

  /** Combines the whole queue into one commit on the baseline. */
  function CollapseAll(s: State): Outcome {
    match CommitWork(ResetSoft(s, s.baseline))
    case None => Failed(ResetSoft(s, s.baseline))
    case Some(s1) =>
      Done(Push(s1.(commits := []),
                Item(s1.head, AllPurposes(s.commits), Show(s1, s1.head), AllPaths(s.commits))))
  }

  function Collapse(s: State): Outcome {
    if |s.commits| < 2 then Done(s)
    else
      var n := |s.commits| - 1;
      var newest := s.commits[n].diff;
      var base := TreeOf(s, s.baseline);
      if Applies(newest, base) then Done(s)
      else
        var k := FindDependency(s.commits[..n], base, newest);
        if k < n then Merge(s, k) else CollapseAll(s)
  }

  /** Queues the commit just made in Review mode. */
  function PushNew(s: State, purpose: string, paths: set<Path>): State {
    var s1 := Push(s, Item(s.head, [purpose], Show(s, s.head), paths));
    s1.(history := s1.history.(committed := s1.history.committed + multiset{purpose}))
  }

  /** Write mode: the commit goes to the parent at once and the worktree moves to the new snapshot. */
  function FinishWrite(s: State, fault: Fault): Outcome {
    var d := Show(s, s.head);
    match ApplyToParent(s, d)
    case None => Failed(ResetHard(s, s.baseline))
    case Some(s1) =>
      var s2 := if fault == AtSnapshot then s1 else Snapshot(s1);
      if fault != NoFault then
        match ReverseOnParent(s2, d)
        case None => Failed(s2)
        case Some(s3) => Failed(ResetHard(s3, s.baseline))
      else Done(Record(ResetHard(s2, |s.repo|).(baseline := |s.repo|, observed := |s.repo|), Own(d)))
  }

  /** `finish_patch`: the worktree holds the patched tree. */
  function FinishPatch(s: State, purpose: string, paths: set<Path>, fault: Fault): Outcome {
    if s.mode == ReadOnly then Failed(ResetHard(s, s.head))
    else
      match CommitWork(s)
      case None => Failed(s)
      case Some(s1) =>
        if s.mode == Write then FinishWrite(s1, fault)
        else Collapse(PushNew(s1, purpose, paths))
  }

  /** `execute_with_resolver`: synchronize, let the transaction leave `tree` in the worktree, finish. */
  function PatchCall(s: State, tree: Tree, purpose: string, paths: set<Path>,
                     answers: seq<Answer>, fault: Fault): Outcome {
    var s1 := Sync(s, answers).state;
    if s1.mode == ReadOnly then Failed(s1)
    else
      match FinishPatch(s1.(work := tree), purpose, paths, fault)
      case Done(s2) => Done(s2)
      case Failed(s2) => Failed(ResetHard(s2, s2.head))
  }

  // Runs.

  datatype Command =
    | UserEdit(tree: Tree)
    | Trigger(answers: seq<Answer>)
    | Press(control: Control, answers: seq<Answer>, fault: Fault)
    | CallPatch(tree: Tree, purpose: string, paths: set<Path>, answers: seq<Answer>, fault: Fault)

  function Step(s: State, c: Command): State {
    match c
    case UserEdit(tree) => Record(s.(parent := tree), Edited(DiffOf(s.parent, tree)))
    case Trigger(answers) => Sync(s, answers).state
    case Press(control, answers, fault) => HandleControl(s, control, answers, fault).state
    case CallPatch(tree, purpose, paths, answers, fault) =>
      PatchCall(s, tree, purpose, paths, answers, fault).state
  }

  function Run(s: State, cs: seq<Command>): State
    decreases |cs|
  {
    if cs == [] then s else Step(Run(s, cs[..|cs| - 1]), cs[|cs| - 1])
  }
}
