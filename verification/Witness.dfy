/** Runs from a fresh session in which the exact conditions of the other modules fail. */
module Witness {
  import opened Wrappers
  import opened GitModel
  import opened ReviewSpec
  import opened Queue
  import opened Replay
  import opened Clean
  import opened Operations
  import opened Dependency
  import opened Finishing
  import opened Names
  import opened Lineage
  import opened NameSafety
  import opened NameTheorems
  import opened Runs
  import opened Confluence
  import opened Ledger
  import opened Conservation
  import opened Announced
  import opened Losses
  import opened Discards
  import opened Setbacks
  import opened Halting

  /** A patch call that leaves the given tree. */
  function Patching(t: Tree, paths: set<Path>): Command {
    CallPatch(t, "change", paths, [], NoFault)
  }

  /** A patch call that changes one file. */
  function Write1(s: State, p: Path, content: Content): Command {
    Patching(TreeOf(s, s.head)[p := content], {p})
  }

  /** In Review mode a change that no queued item touches becomes a queued item of its own. */
  lemma ChangeQueues(s: State, t: Tree, paths: set<Path>)
    requires Good(s) && s.mode == Review && t != TreeOf(s, s.head)
    requires PatchDiff(s, t).Keys <= paths && Independent(s.commits, PatchDiff(s, t))
    ensures var r := Step(s, Patching(t, paths));
            && Guarded(s, Patching(t, paths)) && Good(r) && r.mode == Review && r.parent == s.parent
            && TreeOf(r, r.head) == t
            && |r.commits| == |s.commits| + 1 && r.commits[..|s.commits|] == s.commits
            && r.commits[|s.commits|].diff == PatchDiff(s, t)
            && r.history.lost == s.history.lost
  {
    hide Sound, Tracked, DiffOf, Queued, Collapse, Independent, Extends, Effective, FinishPatch, Sync, NetEmpty,
         Guarded, Step, Patched;
    var s1, purpose := Snapshot(s), "change";
    SnapshotGood(s);
    assert PatchDiff(s1, t) == PatchDiff(s, t);
    AsPatched(s1, t, paths);
    QueuedSound(s1, t, purpose, paths);
    QueuedNames(s1, t, purpose, paths);
    QueuedFacts(s1, t, purpose, paths);
    CollapseCases(s1, t, purpose, paths);
    ReviewIsCollapse(s1, t, purpose, paths, NoFault);
    var q := Queued(s1, t, purpose, paths);
    QueuedAligned(s1, q);
    QueuedLost(s1, t, purpose, paths);
    IndependentLeaves(s1, t);
    PatchDone(s, t, paths);
    PatchGuarded(s, t, paths);
    assert q.commits[..|s.commits|] == s.commits;
  }

  lemma PatchDone(s: State, t: Tree, paths: set<Path>)
    requires Sync(s, []).state == Snapshot(s) && s.mode != ReadOnly
    requires FinishPatch(Snapshot(s).(work := t), "change", paths, NoFault).Done?
    ensures Step(s, Patching(t, paths)) == FinishPatch(Snapshot(s).(work := t), "change", paths, NoFault).state
  {
    hide Sync, FinishPatch;
  }

  lemma PatchGuarded(s: State, t: Tree, paths: set<Path>)
    requires Sync(s, []).state == Snapshot(s) && s.mode != ReadOnly && t != TreeOf(Snapshot(s), s.head)
    requires PatchDiff(Snapshot(s), t).Keys <= paths
    ensures Guarded(s, Patching(t, paths)) <==> s.mode == Review ==> !NetEmpty(Snapshot(s), t)
  {
    hide Sync, NetEmpty, DiffOf;
  }

  lemma NewFileQueues(s: State, p: Path, content: Content)
    requires Good(s) && s.mode == Review && p !in TreeOf(s, s.head)
    requires forall i | 0 <= i < |s.commits| :: p !in s.commits[i].diff
    ensures var r := Step(s, Write1(s, p, content));
            && Guarded(s, Write1(s, p, content)) && Good(r) && r.mode == Review && r.parent == s.parent
            && TreeOf(r, r.head) == TreeOf(s, s.head)[p := content]
            && |r.commits| == |s.commits| + 1 && r.commits[..|s.commits|] == s.commits
            && r.commits[|s.commits|].diff == map[p := Change(None, Some(content))]
            && r.history.lost == s.history.lost
  {
    hide Good, Guarded, Step, DiffOf, Independent, TreeOf;
    OneFileDiff(TreeOf(s, s.head), p, content);
    ElsewhereIndependent(s.commits, p, content);
    ChangeQueues(s, TreeOf(s, s.head)[p := content], {p});
  }

  lemma SnapshotGood(s: State)
    requires Good(s)
    ensures Good(Snapshot(s)) && Sync(s, []) == SyncResult(Snapshot(s), false)
    ensures TreeOf(Snapshot(s), s.head) == TreeOf(s, s.head)
  {
    hide Tracked, Linked, Apart, SyncLoop, SyncChanged;
    SyncIsSnapshot(s, ApplyQueue);
    SyncSound(s, []);
    HeadExists(s, []);
  }

  lemma OneFileDiff(t: Tree, p: Path, content: Content)
    requires p !in t
    ensures DiffOf(t, t[p := content]) == map[p := Change(None, Some(content))] && t != t[p := content]
  {
    assert p in t[p := content];
  }

  lemma ElsewhereIndependent(items: seq<Item>, p: Path, content: Content)
    requires forall i | 0 <= i < |items| :: p !in items[i].diff
    ensures Independent(items, map[p := Change(None, Some(content))])
  {
  }

  lemma IndependentLeaves(s: State, t: Tree)
    requires Independent(s.commits, PatchDiff(s, t))
    ensures !NetEmpty(s, t)
  {
  }

  lemma QueuedAligned(s: State, q: State)
    requires Good(s) && Extends(s.repo, q.repo) && q.baseline == s.baseline && q.observed == s.observed
    requires q.parent == s.parent && Sound(q, []) && Tracked(q)
    ensures Good(q)
  {
    hide Tracked, Struct;
    SoundHeld(s);
  }

  lemma QueuedLost(s: State, t: Tree, purpose: string, paths: set<Path>)
    ensures Queued(s, t, purpose, paths).history.lost == s.history.lost
  {
  }

  // A queue of three independent items.

  const A: Path := ["a"]
  const B: Path := ["b"]
  const C: Path := ["c"]

  function Creates(p: Path): Diff {
    map[p := Change(None, Some("x"))]
  }

  lemma RunSnoc(s: State, cs: seq<Command>, c: Command)
    ensures Run(s, cs + [c]) == Step(Run(s, cs), c)
    ensures GuardedRun(s, cs + [c]) <==> GuardedRun(s, cs) && Guarded(Run(s, cs), c)
    ensures SteadyRun(s, cs + [c]) <==> SteadyRun(s, cs) && SteadyStep(Run(s, cs), c)
    ensures Unfailing(cs + [c]) <==> Unfailing(cs) && (c.Press? ==> c.fault == NoFault)
  {
    hide Step, Guarded, SteadyStep;
    assert (cs + [c])[..|cs + [c]| - 1] == cs;
    assert Unfailing(cs + [c]) ==> Unfailing(cs) by {
      assert forall x | x in cs :: x in cs + [c];
    }
    assert c in cs + [c];
  }

  /** A fresh session, switched to Review. */
  lemma Reviewing(parent: Tree, c: Command)
    requires c == Press(SetMode(Review), [], NoFault)
    ensures var s := Step(Open(parent), c);
            && Good(s) && s.mode == Review && s.commits == [] && s.parent == parent && TreeOf(s, s.head) == parent
            && s.history.lost == []
    ensures Guarded(Open(parent), c)
  {
    hide Good, HandleControl;
    OpenGood(parent);
    var s := Open(parent);
    SyncIsSnapshot(s, SetMode(Review));
    SnapshotGood(s);
    SameButMode(Snapshot(s), Review);
    OpenReviews(s, c);
  }

  lemma OpenGood(parent: Tree)
    ensures Good(Open(parent))
  {
    hide Covers, Strays, StraysApart;
    TidyApart(Open(parent), []);
    assert IdSet([]) == {};
  }

  lemma SameButMode(s: State, mode: Mode)
    requires Good(s)
    ensures Good(s.(mode := mode))
  {
    hide Struct, AtTip, StraysApart, Traced;
    SoundSame(s, s.(mode := mode), []);
  }

  lemma OpenReviews(s: State, c: Command)
    requires c == Press(SetMode(Review), [], NoFault) && s.parent == TreeOf(s, s.observed)
    ensures Guarded(s, c) && Step(s, c) == HandleControl(s, SetMode(Review), [], NoFault).state
  {
    hide HandleControl;
  }

  predicate Extended(s: State, ps: seq<Path>) {
    && s.mode == Review && s.parent == map[] && s.history.lost == []
    && TreeOf(s, s.head).Keys == (set i | 0 <= i < |ps| :: ps[i])
    && (forall p | p in TreeOf(s, s.head) :: TreeOf(s, s.head)[p] == "x")
    && |s.commits| == |ps| && forall i | 0 <= i < |ps| :: s.commits[i].diff == Creates(ps[i])
  }

  lemma CreateMore(cs: seq<Command>, ps: seq<Path>, p: Path) returns (all: seq<Command>)
    requires GuardedRun(Open(map[]), cs) && Unfailing(cs) && p !in ps
    requires Good(Run(Open(map[]), cs)) && Extended(Run(Open(map[]), cs), ps)
    ensures GuardedRun(Open(map[]), all) && Unfailing(all)
    ensures Good(Run(Open(map[]), all)) && Extended(Run(Open(map[]), all), ps + [p])
  {
    hide Good, Guarded, Step, Run, GuardedRun, Unfailing;
    var s := Run(Open(map[]), cs);
    var c := Write1(s, p, "x");
    all := cs + [c];
    RunSnoc(Open(map[]), cs, c);
    NewFileQueues(s, p, "x");
    var r := Step(s, c);
    var qs := ps + [p];
    assert (set i | 0 <= i < |qs| :: qs[i]) == (set i | 0 <= i < |ps| :: ps[i]) + {p} by {
      assert qs[|ps|] == p && forall i | 0 <= i < |ps| :: qs[i] == ps[i];
    }
    forall i | 0 <= i < |qs|
      ensures r.commits[i].diff == Creates(qs[i])
    {
      assert i < |ps| ==> r.commits[i] == r.commits[..|s.commits|][i];
    }
  }

  /** Three patches, each creating a file. */
  lemma ThreeItems() returns (cs: seq<Command>)
    ensures GuardedRun(Open(map[]), cs) && Unfailing(cs)
    ensures Good(Run(Open(map[]), cs)) && Extended(Run(Open(map[]), cs), [A, B, C])
  {
    hide Good, Guarded, Step, Run, GuardedRun, Unfailing;
    var c := Press(SetMode(Review), [], NoFault);
    Reviewing(map[], c);
    RunSnoc(Open(map[]), [], c);
    NoCommands(map[]);
    cs := CreateMore([] + [c], [], A);
    cs := CreateMore(cs, [] + [A], B);
    assert [] + [A] + [B] == [A, B];
    cs := CreateMore(cs, [A, B], C);
    assert [A, B] + [C] == [A, B, C];
  }

  lemma NoCommands(parent: Tree)
    ensures Run(Open(parent), []) == Open(parent) && GuardedRun(Open(parent), []) && Unfailing([])
  {
  }

  // The runs.

  lemma ThreeBalanced(cs: seq<Command>)
    requires Unfailing(cs)
    ensures Balanced(Run(Open(map[]), cs)) && Purposeful(Run(Open(map[]), cs).commits)
  {
    hide Run, Purposes;
    RunsAreBalanced(map[], cs);
    RunsArePurposeful(map[], cs);
  }

  /** In a synchronized state the command's own synchronization only takes a snapshot. */
  lemma PressIsDispatch(s: State, control: Control, fault: Fault)
    requires Sound(s, []) && Tracked(s) && s.parent == TreeOf(s, s.observed)
    ensures Step(s, Press(control, [], fault)) == Dispatch(Snapshot(s), control, fault).state
    ensures Sync(s, []).state == Snapshot(s) && Sound(Snapshot(s), []) && Tracked(Snapshot(s))
  {
    hide Sound, Tracked, Dispatch, Sync;
    SyncSound(s, []);
    SyncNames(s, []);
    KeepsTracked(s, Snapshot(s));
  }

  /** A Discard of one of three items that breaks off leaves the other two unaccounted for. */
  lemma LosingDiscard(k: nat) returns (cs: seq<Command>, name: Id)
    requires k < 3
    ensures GuardedRun(Open(map[]), cs) && |Run(Open(map[]), cs).commits| == 3
    ensures var r := Run(Open(map[]), cs + [Press(DiscardCommit(name), [], AtReplay(k))]);
            && |r.commits| == (if k == 2 then 1 else 0) && r.history.lost == []
            && !AtTip(r) && !Balanced(r)
  {
    hide Good, Guarded, Step, Run, GuardedRun, Unfailing, Balanced, Purposeful, Sound, Tracked, AtTip, DiscardOne,
         Purposes, SameWork, Resolve, SteadyRun, SteadyStep;
    cs := ThreeItems();
    var s := Run(Open(map[]), cs);
    name := s.commits[0].id;
    var c := Press(DiscardCommit(name), [], AtReplay(k));
    RunSnoc(Open(map[]), cs, c);
    ThreeBalanced(cs);
    GoodIsSynchronized(s);
    PressIsDispatch(s, DiscardCommit(name), AtReplay(k));
    OwnName(s, 0);
    FoundAt(s, name, 0);
    var s1 := Snapshot(s);
    SnapshotBalanced(s);
    BrokenDiscard(s1, name, AtReplay(k));
    DiscardBalancedIff(s1, name, AtReplay(k));
    SameLength(DiscardOne(s1, name, AtReplay(k)).state.commits, Survivors(s1, 0, AtReplay(k)));
  }

  lemma GoodIsSynchronized(s: State)
    requires Good(s)
    ensures Sound(s, []) && Tracked(s) && s.parent == TreeOf(s, s.observed) && s.parent == TreeOf(s, s.baseline)
  {
  }

  lemma SnapshotBalanced(s: State)
    requires Balanced(s)
    ensures Balanced(Snapshot(s)) && Snapshot(s).commits == s.commits && Snapshot(s).aliases == s.aliases
  {
    hide Purposes;
  }

  lemma SameLength(a: seq<Item>, b: seq<Item>)
    requires SameWork(a, b)
    ensures |a| == |b|
  {
  }

  /** A first Apply that fails at the reset, the same change made by hand, and a second Apply that fails later. */
  lemma LosingApply() returns (cs: seq<Command>, item: Item)
    ensures GuardedRun(Open(map[]), cs) && !SteadyRun(Open(map[]), cs)
    ensures var r := Run(Open(map[]), cs);
            && |r.commits| == 3 && r.commits[0].diff == Creates(A)
            && r.history.lost == [item] && item.diff == Creates(A) && !Balanced(r)
  {
    hide Good, Guarded, Step, Run, GuardedRun, Unfailing, Balanced, Purposeful, Sound, Tracked, ApplyOne, Sync,
         SameWork, Resolve, SteadyRun, SteadyStep, Apply, Allowed;
    cs := UnseenEdit();
    var e := Run(Open(map[]), cs);
    var name := e.commits[1].id;
    var c := Press(ApplyCommit(name), [], AtReplay(2));
    RunSnoc(Open(map[]), cs, c);
    RunsArePurposeful(map[], cs);
    GuardedRunsBalancedIff(map[], cs);
    AlwaysLast(Balanced, Open(map[]), cs);
    PressIsDispatch(e, ApplyCommit(name), AtReplay(2));
    ApplyIsGuarded(e, name, AtReplay(2));
    SnapshotBalanced(e);
    var s1 := Snapshot(e);
    SnapshotBase(e);
    OwnName(s1, 1);
    StaleFailureReportsPendingWork(s1, name, 0, 1, AtReplay(2));
    item := e.commits[0];
    var r := Run(Open(map[]), cs + [c]);
    FailedApplyReports(s1, name, AtReplay(2));
    OnePurposeful(e.commits);
    BackAndLost(s1, r, [item]);
    SameFirst(r.commits, s1.commits);
    cs := cs + [c];
    GuardedRunsBalancedIff(map[], cs);
    if SteadyRun(Open(map[]), cs) {
      AlwaysLast(Balanced, Open(map[]), cs);
      assert false;
    }
  }

  lemma OnePurposeful(items: seq<Item>)
    requires Purposeful(items) && items != []
    ensures Purposeful([items[0]])
  {
  }

  lemma SameFirst(a: seq<Item>, b: seq<Item>)
    requires SameWork(a, b) && b != []
    ensures |a| == |b| && a[0].diff == b[0].diff
  {
    assert SameItem(a[0], b[0]);
  }

  lemma ApplyIsGuarded(s: State, name: Id, fault: Fault)
    requires s.parent == TreeOf(s, s.observed)
    ensures Guarded(s, Press(ApplyCommit(name), [], fault))
  {
    hide Sync;
  }

  lemma SnapshotBase(s: State)
    requires Sound(s, [])
    ensures TreeOf(Snapshot(s), s.baseline) == TreeOf(s, s.baseline)
  {
    hide Apart;
  }

  /** A queue of three on an empty baseline, below a parent on which the first item was put by hand. */
  lemma UnseenEdit() returns (cs: seq<Command>)
    ensures GuardedRun(Open(map[]), cs) && SteadyRun(Open(map[]), cs)
    ensures var e := Run(Open(map[]), cs);
            && Sound(e, []) && Tracked(e) && e.parent == TreeOf(e, e.observed)
            && |e.commits| == 3 && e.commits[0].diff == Creates(A) && e.history.lost == []
            && e.parent == Apply(e.commits[0].diff, TreeOf(e, e.baseline))
  {
    hide Good, Guarded, Step, Run, GuardedRun, Unfailing, Sound, Tracked, ApplyOne, Sync,
         SameWork, Resolve, SteadyRun, SteadyStep, Apply, DiffOf;
    cs := ThreeItems();
    var s := Run(Open(map[]), cs);
    var name := s.commits[0].id;
    var c := Press(ApplyCommit(name), [], AtReplay(0));
    UnfailingIsSteady(Open(map[]), cs);
    RunSnoc(Open(map[]), cs, c);
    GoodIsSynchronized(s);
    PressIsDispatch(s, ApplyCommit(name), AtReplay(0));
    ApplyIsGuarded(s, name, AtReplay(0));
    ResetIsSteady(s, name);
    SnapshotGood(s);
    var s1 := Snapshot(s);
    OwnName(s1, 0);
    EditAfterFailureIsUnseen(s1, name, 0, AtReplay(0), []);
    var edit := UserEdit(Apply(s.commits[0].diff, s.parent));
    EditIsQuiet(Run(Open(map[]), cs + [c]), Apply(s.commits[0].diff, s.parent));
    RunSnoc(Open(map[]), cs + [c], edit);
    SameFirst(Run(Open(map[]), cs + [c] + [edit]).commits, s1.commits);
    cs := cs + [c] + [edit];
  }

  lemma EditIsQuiet(s: State, tree: Tree)
    ensures Guarded(s, UserEdit(tree)) && SteadyStep(s, UserEdit(tree))
    ensures Step(s, UserEdit(tree)).history.lost == s.history.lost
  {
    hide DiffOf;
  }

  lemma ResetIsSteady(s: State, name: Id)
    ensures SteadyStep(s, Press(ApplyCommit(name), [], AtReplay(0)))
  {
    hide Sync, Picks, Resolve, Applies;
  }

  lemma {:induction false} UnfailingIsSteady(s: State, cs: seq<Command>)
    requires Unfailing(cs)
    ensures SteadyRun(s, cs)
    decreases |cs|
  {
    hide Run, Sync, Picks, Resolve, Applies;
    if cs != [] {
      assert forall c | c in cs[..|cs| - 1] :: c in cs;
      assert cs[|cs| - 1] in cs;
      UnfailingIsSteady(s, cs[..|cs| - 1]);
    }
  }

  /**
   The parent gets another version of the first file.  The first item is dropped as the review is
   synchronized, Apply all would stop, and Apply by id puts the second item on the parent all the same.
   */
  lemma ChangedReviewIsApplied() returns (cs: seq<Command>, name: Id)
    ensures GuardedRun(Open(map[]), cs)
    ensures var e := Run(Open(map[]), cs);
            && Sync(e, []).changed && e.parent == map[A := "y"]
            && Step(e, Press(ApplyQueue, [], NoFault)).parent == e.parent
            && Step(e, Press(ApplyCommit(name), [], NoFault)).parent == e.parent[B := "x"]
  {
    hide Good, Guarded, Step, Run, GuardedRun, Unfailing, Sound, Tracked, Sync, Picks, Unpicked, Apply, DiffOf,
         TreeOf, Narrower, SameWork, Resolve;
    cs := ThreeItems();
    var s := Run(Open(map[]), cs);
    var edit := UserEdit(map[A := "y"]);
    RunSnoc(Open(map[]), cs, edit);
    EditIsQuiet(s, map[A := "y"]);
    GoodIsSynchronized(s);
    var e := Step(s, edit);
    assert A in map[A := "y"];
    EditOnly(s, map[A := "y"]);
    name := e.commits[1].id;
    OwnName(e, 1);
    PicksOther();
    assert !Picks(e.commits[0].diff, e.parent);
    UnpickedNone(e.commits, e.parent);
    SyncChangedIff(e, []);
    ChangedReviewStops(e, ApplyQueue, [], NoFault);
    var k := ChangedReviewGoesOn(e, [], name, 1);
    SyncSound(e, []);
    OneFileStays(Sync(e, []).state, k, e.commits[1]);
    PressIsControl(e, ApplyQueue);
    PressIsControl(e, ApplyCommit(name));
    OneFileApplied(e.parent);
    cs := cs + [edit];
  }

  lemma PressIsControl(s: State, control: Control)
    ensures Step(s, Press(control, [], NoFault)) == HandleControl(s, control, [], NoFault).state
  {
    hide HandleControl;
  }

  lemma EditOnly(s: State, tree: Tree)
    requires Sound(s, []) && Tracked(s) && s.parent == TreeOf(s, s.observed) && tree != s.parent
    ensures var e := Step(s, UserEdit(tree));
            && Sound(e, []) && Tracked(e) && e.parent == tree != TreeOf(e, e.observed) && e.commits == s.commits
  {
    hide Struct, Traced, DiffOf, AtTip, StraysApart;
    SoundSame(s, Step(s, UserEdit(tree)), []);
  }

  lemma PicksOther()
    ensures !Picks(Creates(A), map[A := "y"]) && Picks(Creates(B), map[A := "y"])
  {
    assert A[0] != B[0];
    assert Collides(Creates(A), map[A := "y"], A);
    assert Get(map[A := "y"], B) != Creates(B)[B].after;
  }

  lemma OneFileApplied(t: Tree)
    ensures Apply(Creates(B), t) == t[B := "x"]
  {
    TreeExt(Apply(Creates(B), t), t[B := "x"]);
  }

  /** A change of one file cannot be narrowed further. */
  lemma OneFileStays(s: State, k: nat, item: Item)
    requires Sound(s, []) && k < |s.commits| && Narrower(s.commits[k], item) && item.diff == Creates(B)
    ensures s.commits[k].diff == Creates(B)
  {
    hide AllStored, Apart, Matches, Effective;
    AppliesAlone(s.repo, s.baseline, s.commits, [], k);
    var p :| p in s.commits[k].diff;
  }
}
