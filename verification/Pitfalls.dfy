/** Runs from a fresh session that end where a user of the coordinator would not expect. */
module Pitfalls {
  import opened Wrappers
  import opened GitModel
  import opened ReviewSpec
  import opened Text
  import opened Queue
  import opened Replay
  import opened Dependency
  import opened Operations
  import opened Finishing
  import opened Lineage
  import opened Runs
  import opened Tidiness
  import opened Confluence
  import opened Limits
  import opened Witness

  const D: Path := ["d", "b"]

  // One queued item, and a user who edits what it changed.

  /** The item's paths hold other content than it expects or brings. */
  predicate AllCollide(d: Diff, t: Tree) {
    forall p | p in d :: Collides(d, t, p)
  }

  /** A session on `base` with one patch to `t` queued; then the parent becomes `edited`. */
  lemma EditedUnderOne(base: Tree, t: Tree, edited: Tree) returns (cs: seq<Command>)
    requires base != t && edited != base
    ensures GuardedRun(Open(base), cs)
    ensures var e := Run(Open(base), cs);
            && Sound(e, []) && Tracked(e) && Tidy(e) && e.mode == Review
            && e.parent == edited && e.parent != TreeOf(e, e.observed) && e.history.lost == []
            && |e.commits| == 1 && e.commits[0].diff == DiffOf(base, t)
  {
    hide Good, Guarded, Step, Run, GuardedRun, DiffOf, Sound, Tracked, Tidy;
    var review, patch, edit := Press(SetMode(Review), [], NoFault), Patching(t, DiffOf(base, t).Keys), UserEdit(edited);
    Reviewing(base, review);
    NoCommands(base);
    RunSnoc(Open(base), [], review);
    var s := Run(Open(base), [] + [review]);
    ChangeQueues(s, t, DiffOf(base, t).Keys);
    RunSnoc(Open(base), [] + [review], patch);
    cs := [] + [review] + [patch];
    s := Run(Open(base), cs);
    GoodIsSynchronized(s);
    EditOnly(s, edited);
    EditIsQuiet(s, edited);
    EditMode(s, edited);
    RunSnoc(Open(base), cs, edit);
    cs := cs + [edit];
    GuardedRunsAreSound(base, cs);
  }

  lemma EditMode(s: State, tree: Tree)
    ensures Step(s, UserEdit(tree)).mode == s.mode
  {
  }

  /** A synchronization of one item is one turn on the new parent. */
  lemma SyncOfOne(e: State, answer: Answer)
    requires Sound(e, []) && Tidy(e) && e.parent != TreeOf(e, e.observed) && |e.commits| == 1
    ensures var start := StartReplay(Snapshot(e), |e.repo|);
            var x, r := ResolveStep(start, e.commits[0], answer), Sync(e, [answer]).state;
            && Stored(start.repo, e.commits[0]) && FreeOf(start, e.commits[0].diff)
            && TreeOf(start, start.head) == e.parent && start.work == e.parent && start.head == Tip(start)
            && start.commits == [] && start.history == e.history
            && r.repo == x.repo && r.head == x.head && r.work == x.work && r.commits == x.commits
            && r.history.lost == x.history.lost
            && Sound(r, []) && r.mode == e.mode && r.parent == e.parent && TreeOf(r, r.observed) == r.parent
            && (SyncTidy(e, [answer]) <==> TurnTidy(start, e.commits[0], answer))
            && (SyncTidy(e, [answer]) <==> Tidy(r))
  {
    hide Sound, Tidy, ResolveStep, TurnTidy, DiffOf, Stored, Strays, TreeOf;
    var start := StartReplay(Snapshot(e), |e.repo|);
    SyncStart(e);
    assert Stored(start.repo, e.commits[0]);
    NothingStray(start, e.commits[0].diff);
    StartFiles(e);
    SyncSound(e, [answer]);
    SyncTidyIff(e, [answer]);
    LoopOfOne(start, e.commits[0], answer);
    SyncIsLoop(e, [answer]);
    assert e.commits == [e.commits[0]];
  }

  lemma SyncIsLoop(e: State, answers: seq<Answer>)
    requires Sound(e, []) && e.parent != TreeOf(e, e.observed)
    ensures var x, r := SyncLoop(StartReplay(Snapshot(e), |e.repo|), e.commits, answers), Sync(e, answers).state;
            && r.repo == x.repo && r.head == x.head && r.work == x.work && r.commits == x.commits
            && r.history.lost == x.history.lost
    ensures SyncTidy(e, answers) <==> LoopTidy(StartReplay(Snapshot(e), |e.repo|), e.commits, answers)
  {
    hide Struct, AtTip, StraysApart, SyncLoop, LoopTidy, StartReplay, DiffOf, SyncChanged;
  }

  lemma NothingStray(s: State, d: Diff)
    requires Strays(s).Keys == {}
    ensures FreeOf(s, d)
  {
    hide Strays;
    assert forall p :: p in Strays(s) <==> p in Strays(s).Keys;
  }

  lemma StartFiles(e: State)
    requires Tidy(e) && Sound(e, [])
    ensures var start := StartReplay(Snapshot(e), |e.repo|);
            start.work == e.parent && start.head == Tip(start) && start.commits == [] && start.history == e.history
  {
    hide Struct, StraysApart, Covers;
    HeadExists(e, []);
    ResetTidy(Snapshot(e).(commits := []), |e.repo|);
  }

  lemma LoopOfOne(s: State, item: Item, answer: Answer)
    ensures SyncLoop(s, [item], [answer]) == ResolveStep(s, item, answer)
    ensures LoopTidy(s, [item], [answer]) <==> TurnTidy(s, item, answer)
  {
    hide ResolveStep, TurnTidy;
    assert [item][1..] == [] && [answer][1..] == [];
  }

  // A resolution that cannot be written.

  lemma PickStops(s: State, item: Item, t: Tree)
    requires Stored(s.repo, item) && FreeOf(s, item.diff) && TreeOf(s, s.head) == t
    ensures (exists p :: Collides(item.diff, t, p)) ==>
              && CherryPick(s, item.id).Stopped?
              && forall p :: p in CherryPick(s, item.id).conflicts <==> Collides(item.diff, t, p)
  {
    hide CherryPick, Stored, FreeOf, Blocked, TreeOf;
    PickByDiff(s, item);
  }

  lemma CutTurn(s: State, item: Item, files: seq<ConflictFile>)
    requires CherryPick(s, item.id).Stopped? && CherryPick(s, item.id).conflicts != {}
    requires CoversOnce(CherryPick(s, item.id).conflicts, files) && Reach(s.work, files) < |files|
    requires s.head == Tip(s) && s.head < |s.repo|
    ensures var r, t := ResolveStep(s, item, Answered(files, true)), TreeOf(s, s.head);
            && r.commits == s.commits && r.history.lost == s.history.lost + [item]
            && TreeOf(r, r.head) == t
            && r.work == (Overwrite(s.work, files[..Reach(s.work, files)]) - t.Keys) + t
  {
    hide CherryPick, CoversOnce, Reach, Overwrite, Known, Tip;
  }

  /** Every path of the item collides, and the resolved files cannot all be written. */
  lemma CutResolution(e: State, files: seq<ConflictFile>)
    requires Sound(e, []) && Tidy(e) && e.parent != TreeOf(e, e.observed) && |e.commits| == 1
    requires var d := e.commits[0].diff; d != map[] && AllCollide(d, e.parent) && CoversOnce(d.Keys, files)
    requires Reach(e.parent, files) < |files|
    ensures var r := Sync(e, [Answered(files, true)]).state;
            && r.commits == [] && r.history.lost == e.history.lost + e.commits
            && TreeOf(r, r.head) == e.parent
            && r.work == (Overwrite(e.parent, files[..Reach(e.parent, files)]) - e.parent.Keys) + e.parent
            && r.mode == e.mode && r.parent == e.parent == TreeOf(r, r.observed) && Sound(r, [])
    ensures SyncTidy(e, [Answered(files, true)]) <==> Tidy(Sync(e, [Answered(files, true)]).state)
  {
    hide Sound, Tidy, CherryPick, Stored, FreeOf, Sync, SyncTidy, TurnTidy, Reach, Overwrite, Tip, StartReplay,
         ResolveStep, CoversOnce, TreeOf;
    var start, item, answer := StartReplay(Snapshot(e), |e.repo|), e.commits[0], Answered(files, true);
    SyncOfOne(e, answer);
    StartExists(e);
    PickStops(start, item, e.parent);
    var p :| p in item.diff;
    assert Collides(item.diff, e.parent, p);
    assert CherryPick(start, item.id).conflicts == item.diff.Keys;
    CutTurn(start, item, files);
    SameTree(ResolveStep(start, item, answer), Sync(e, [answer]).state);
    assert e.commits == [item];
  }

  lemma StartExists(e: State)
    ensures StartReplay(Snapshot(e), |e.repo|).head < |StartReplay(Snapshot(e), |e.repo|).repo|
  {
  }

  lemma SameTree(x: State, r: State)
    requires r.repo == x.repo && r.head == x.head
    ensures TreeOf(r, r.head) == TreeOf(x, x.head)
  {
  }

  lemma NoMarker(c: char)
    requires c != '\n'
    ensures !HasMarkers([c])
  {
    assert FirstNewline([c]) == 1;
    assert Lines([c]) == [[c]];
  }

  /** In an empty tree a file can be written next to nothing, but not into a directory. */
  lemma EmptyTree(c: char)
    requires c != '\n'
    ensures CanTake(map[], ConflictFile(A, Some([c]))) && !CanTake(map[], ConflictFile(D, Some([c])))
  {
    NoMarker(c);
  }

  lemma Modified(base: Tree, t: Tree, edited: Tree)
    requires base.Keys == t.Keys && forall p | p in base :: base[p] != t[p] && Get(edited, p) != Some(base[p])
    requires forall p | p in base :: Get(edited, p) != Some(t[p])
    ensures DiffOf(base, t).Keys == base.Keys && AllCollide(DiffOf(base, t), edited)
  {
  }

  /**
   An item changes a file, the user deletes its directory, and the resolver confirms the item's content: the
   item is lost although the resolution differs from the tip, because nothing creates the directory.
   */
  lemma UnwritableIsLost() returns (cs: seq<Command>)
    ensures GuardedRun(Open(map[D := "o"]), cs)
    ensures var e, files := Run(Open(map[D := "o"]), cs), [ConflictFile(D, Some("x"))];
            var r := Step(e, Trigger([Answered(files, true)]));
            && |e.commits| == 1 && Overwrite(e.parent, files) != e.parent
            && Guarded(e, Trigger([Answered(files, true)]))
            && r.commits == [] && r.history.lost == e.commits && r.parent == e.parent == map[]
  {
    hide Run, GuardedRun, Sound, Tracked, SyncTidy, Sync, DiffOf, CanTake, Tidy, Step, Guarded, TreeOf;
    var base, t := map[D := "o"], map[D := "x"];
    var files := [ConflictFile(D, Some("x"))];
    assert base[D] != t[D];
    cs := EditedUnderOne(base, t, map[]);
    var e := Run(Open(base), cs);
    Modified(base, t, map[]);
    EmptyTree('x');
    assert PathsOf(files) == {D};
    assert files[..0] == [];
    CutResolution(e, files);
    TriggerSyncs(e, [Answered(files, true)]);
    TidyAlone(Sync(e, [Answered(files, true)]).state);
    assert D in Overwrite(e.parent, files);
  }

  /**
   The item changes a second file that can be written.  It stays behind in the worktree when the item is given
   up, and the next patch commits it without reporting it.
   */
  lemma StrayIsCommitted() returns (cs: seq<Command>)
    ensures GuardedRun(Open(map[A := "o", D := "o"]), cs)
    ensures var e := Run(Open(map[A := "o", D := "o"]), cs);
            var trigger := Trigger([Answered([ConflictFile(A, Some("x")), ConflictFile(D, Some("x"))], true)]);
            var r := Step(e, trigger);
            var q := Step(r, Patching(map[A := "x", C := "y"], {C}));
            && !Guarded(e, trigger) && r.commits == [] && r.history.lost == e.commits && |e.commits| == 1
            && r.work == map[A := "x"] && TreeOf(r, r.head) == r.parent == map[]
            && |q.commits| == 1 && q.commits[0].diff.Keys == {A, C} && q.commits[0].paths == {C}
  {
    hide Run, GuardedRun, Sound, Tracked, SyncTidy, Sync, DiffOf, Tidy, Step, TreeOf, CoversOnce, Reach, Overwrite;
    var base, t := map[A := "o", D := "o"], map[A := "x", D := "x"];
    var files := [ConflictFile(A, Some("x")), ConflictFile(D, Some("x"))];
    TwoFiles(base, t, files);
    cs := EditedUnderOne(base, t, map[]);
    var e := Run(Open(base), cs);
    CutResolution(e, files);
    var r := Sync(e, [Answered(files, true)]).state;
    TriggerSyncs(e, [Answered(files, true)]);
    assert r.work == map[A := "x"];
    StrayAtA(r, map[A := "x", C := "y"]);
    FirstPatch(r, map[A := "x", C := "y"], {C});
    CreatedKeys(map[A := "x", C := "y"]);
  }

  lemma TidyAlone(r: State)
    requires r.work == map[] && TreeOf(r, r.head) == map[]
    ensures Tidy(r)
  {
  }

  lemma StrayAtA(r: State, next: Tree)
    requires r.work == map[A := "x"] && TreeOf(r, r.head) == map[] && A in next
    ensures !Tidy(r) && next != map[]
  {
    assert A in r.work;
  }

  lemma TriggerSyncs(e: State, answers: seq<Answer>)
    ensures Step(e, Trigger(answers)) == Sync(e, answers).state
    ensures Guarded(e, Trigger(answers)) <==> SyncTidy(e, answers)
  {
  }

  lemma TwoFiles(base: Tree, t: Tree, files: seq<ConflictFile>)
    requires base == map[A := "o", D := "o"] && t == map[A := "x", D := "x"]
    requires files == [ConflictFile(A, Some("x")), ConflictFile(D, Some("x"))]
    ensures base != t && base != map[] && DiffOf(base, t) != map[]
    ensures AllCollide(DiffOf(base, t), map[]) && CoversOnce(DiffOf(base, t).Keys, files)
    ensures Reach(map[], files) == 1 && Overwrite(map[], files[..1]) == map[A := "x"]
  {
    hide CanTake, DiffOf, Reach, Overwrite;
    assert base[D] != t[D];
    Modified(base, t, map[]);
    assert PathsOf(files) == {A, D};
    FirstOnly(files);
  }

  lemma FirstOnly(files: seq<ConflictFile>)
    requires files == [ConflictFile(A, Some("x")), ConflictFile(D, Some("x"))]
    ensures Reach(map[], files) == 1 && Overwrite(map[], files[..1]) == map[A := "x"]
  {
    hide CanTake;
    EmptyTree('x');
    assert files[1..] == [files[1]] && files[..1] == [files[0]];
    assert files[..1][..0] == [];
  }

  lemma CreatedKeys(t: Tree)
    ensures DiffOf(map[], t).Keys == t.Keys
  {
  }

  /** A Review patch on an empty queue is committed with whatever is in the worktree. */
  lemma FirstPatch(s: State, t: Tree, paths: set<Path>)
    requires Sound(s, []) && s.mode == Review && s.commits == [] && t != TreeOf(s, s.head)
    requires s.parent == TreeOf(s, s.observed)
    ensures var q := Step(s, Patching(t, paths));
            |q.commits| == 1 && q.commits[0].diff == PatchDiff(s, t) && q.commits[0].paths == paths
  {
    hide Struct, StraysApart, Covers, Sync, DiffOf;
    SyncSound(s, []);
    HeadExists(s, []);
    var s1 := Snapshot(s);
    assert TreeOf(s1, s1.head) == TreeOf(s, s.head);
    ShowFresh(s1, t);
  }

  // A patch that takes back one of three items.

  lemma TakesBack(s: State, t: Tree)
    requires |s.commits| == 3 && s.commits[0].diff == Creates(A) && s.commits[1].diff == Creates(B)
    requires s.commits[2].diff == Creates(C)
    requires t == TreeOf(s, s.head) - {B} && B in TreeOf(s, s.head) && TreeOf(s, s.head)[B] == "x"
    ensures t != TreeOf(s, s.head) && PatchDiff(s, t).Keys == {B}
    ensures DependsOn(s, PatchDiff(s, t), 1) && Cancels(s.commits[1].diff, PatchDiff(s, t)) && NetEmpty(s, t)
  {
    hide TreeOf;
    var d := PatchDiff(s, t);
    assert A[0] != B[0] && C[0] != B[0];
    assert B in d && d[B] == Change(Some("x"), None);
    assert d.Keys == {B};
    assert !(d.Keys !! s.commits[1].diff.Keys);
    assert DependsOn(s, d, 1);
  }

  /** After a patch that deletes the second of three new files, the id of the first item finds nothing. */
  lemma TakenBack() returns (cs: seq<Command>)
    ensures GuardedRun(Open(map[]), cs)
    ensures var s := Run(Open(map[]), cs);
            var patch := Patching(TreeOf(s, s.head) - {B}, {B});
            var r := Step(s, patch);
            && |s.commits| == 3 && |r.commits| == 4 && r.commits[..3] == s.commits && !Guarded(s, patch)
            && (forall j | 0 <= j < 4 :: Resolve(r.aliases, r.commits[j].id) == r.commits[j].id <==> 1 <= j)
            && (forall j | 0 <= j < 4 :: Resolve(r.aliases, r.commits[0].id) != r.commits[j].id)
  {
    hide Good, Guarded, Step, Run, GuardedRun, NetEmpty, DependsOn, Cancels, Resolve, PatchDiff, FinishPatch, Patched,
         Sound, Tracked, DiffOf, TreeOf, Sync;
    cs := ThreeItems();
    var s := Run(Open(map[]), cs);
    SnapshotGood(s);
    GoodIsSynchronized(Snapshot(s));
    var t := TreeOf(s, s.head) - {B};
    assert [A, B, C][1] == B;
    TakesBack(Snapshot(s), t);
    AsPatched(Snapshot(s), t, {B});
    CancelledMergeStrandsNames(Snapshot(s), t, "change", {B}, 1, NoFault);
    PatchGuarded(s, t, {B});
    PatchFails(s, t);
    QueueFirst(s.commits, NewItem(Snapshot(s), t, "change", {B}));
  }

  lemma QueueFirst(items: seq<Item>, item: Item)
    ensures (items + [item])[..|items|] == items
  {
  }

  /** A patch that fails is reset, and leaves the queue and the names as they are. */
  lemma PatchFails(s: State, t: Tree)
    requires Sync(s, []).state == Snapshot(s) && s.mode == Review
    requires FinishPatch(Snapshot(s).(work := t), "change", {B}, NoFault).Failed?
    ensures var r, o := Step(s, Patching(t, {B})), FinishPatch(Snapshot(s).(work := t), "change", {B}, NoFault);
            r.commits == o.state.commits && r.aliases == o.state.aliases
  {
    hide Sync, FinishPatch;
  }

  // A Write patch over a pending queue.

  const E: Path := ["e"]

  lemma ModeChanges(s: State, mode: Mode)
    requires Good(s) && s.mode != mode && !(s.mode == Review && mode == Write)
    ensures var r := Step(s, Press(SetMode(mode), [], NoFault));
            && Good(r) && r.mode == mode && r.parent == s.parent && r.commits == s.commits
            && TreeOf(r, r.head) == TreeOf(s, s.head)
    ensures Guarded(s, Press(SetMode(mode), [], NoFault)) <==> !(mode == Write && s.mode == ReadOnly && s.commits != [])
  {
    hide Sound, Tracked, Sync, Aligned;
    GoodIsSynchronized(s);
    PressIsDispatch(s, SetMode(mode), NoFault);
    SnapshotGood(s);
    SameButMode(Snapshot(s), mode);
  }

  lemma NewFile(t: Tree, parent: Tree)
    requires E !in t && E !in parent
    ensures var d := DiffOf(t, t[E := "y"]);
            && d == map[E := Change(None, Some("y"))] && Applies(d, parent) && Apply(d, parent) == parent[E := "y"]
            && d != map[] && Effective(d) && Matches(d, t)
  {
    assert E in map[E := Change(None, Some("y"))];
    OneFileDiff(t, E, "y");
    TreeExt(Apply(map[E := Change(None, Some("y"))], parent), parent[E := "y"]);
  }

  /** Apply all behind a Write patch goes by the new baseline and the old tip. */
  lemma ThenApplyAll(w: State, tip: Tree, d: Diff)
    requires w.commits != [] && TreeOf(w, Tip(w)) == tip && TreeOf(w, w.baseline) == w.parent
    requires w.baseline == w.observed < |w.repo| && Tip(w) < |w.repo|
    requires d != map[] && Effective(d) && Matches(d, tip) && forall p | p in d :: Get(w.parent, p) == d[p].after
    ensures Step(w, Press(ApplyQueue, [], NoFault)).parent == tip
  {
    hide ApplyAll, Effective, Matches;
    StaleApplyAll(Snapshot(w), tip, d);
  }

  /** A file that a Write patch over three items put on the parent is taken away by the next Apply all. */
  lemma WrittenAndLost() returns (cs: seq<Command>)
    ensures !GuardedRun(Open(map[]), cs)
    ensures var s := Run(Open(map[]), cs);
            var w := Step(s, Patching(TreeOf(s, s.head)[E := "y"], {E}));
            && |s.commits| == 3 && s.mode == Write && s.parent == map[] && w.parent == map[E := "y"]
            && E !in Step(w, Press(ApplyQueue, [], NoFault)).parent
  {
    hide Good, Guarded, Step, Run, GuardedRun, FinishPatch, DiffOf, Apply, Applies, TreeOf, Effective;
    var pause, write := Press(SetMode(ReadOnly), [], NoFault), Press(SetMode(Write), [], NoFault);
    var three := ThreeItems();
    RunSnoc(Open(map[]), three, pause);
    ModeChanges(Run(Open(map[]), three), ReadOnly);
    cs := three + [pause];
    RunSnoc(Open(map[]), cs, write);
    ModeChanges(Run(Open(map[]), cs), Write);
    cs := cs + [write];
    var s := Run(Open(map[]), cs);
    var t := TreeOf(s, s.head);
    assert E !in t by { assert forall i | 0 <= i < 3 :: [A, B, C][i] != E; }
    WriteThenApplyAll(s, t);
  }

  lemma WriteThenApplyAll(s: State, t: Tree)
    requires Good(s) && s.mode == Write && s.commits != [] && s.parent == map[] && TreeOf(s, s.head) == t && E !in t
    ensures var w := Step(s, Patching(t[E := "y"], {E}));
            w.parent == map[E := "y"] && Step(w, Press(ApplyQueue, [], NoFault)).parent == t
  {
    hide Good, Step, FinishPatch, DiffOf, Apply, Applies, TreeOf, Effective, Matches, Tip;
    var s1 := Snapshot(s);
    SnapshotGood(s);
    GoodIsSynchronized(s1);
    NewFile(t, map[]);
    assert t != t[E := "y"];
    WriteOverQueue(s1, t[E := "y"], "change", {E});
    var w := FinishPatch(s1.(work := t[E := "y"]), "change", {E}, NoFault).state;
    PatchDone(s, t[E := "y"], {E});
    ThenApplyAll(w, t, map[E := Change(None, Some("y"))]);
  }

  // A resolution of one file of an item that changes two.

  lemma TwoVersions(base: Tree, t: Tree, edited: Tree)
    requires base == map[A := "o", B := "o"] && t == map[A := "x", B := "x"] && edited == map[A := "y", B := "o"]
    ensures base != t && edited != base && DiffOf(base, t).Keys == {A, B}
    ensures forall p :: Collides(DiffOf(base, t), edited, p) <==> p == A
  {
    assert A[0] != B[0];
    assert base[A] != t[A] && base[A] != edited[A];
    assert base[B] != t[B];
    assert forall p | p in base :: p == A || p == B;
  }

  lemma ThirdVersion(edited: Tree, files: seq<ConflictFile>)
    requires edited == map[A := "y", B := "o"] && files == [ConflictFile(A, Some("z"))]
    ensures CoversOnce({A}, files) && Reach(edited, files) == 1 && Overwrite(edited, files) == map[A := "z", B := "o"]
    ensures DiffOf(edited, map[A := "z", B := "o"]).Keys == {A} && edited != map[A := "z", B := "o"]
  {
    hide HasMarkers;
    assert A[0] != B[0];
    NoMarker('z');
    assert PathsOf(files) == {A};
    assert files[..0] == [];
    assert !IsDir(edited, A);
  }

  /** The resolver answers for the conflicted file, and the item's other change is gone though nobody contested it. */
  lemma CleanFileDropped() returns (cs: seq<Command>)
    ensures GuardedRun(Open(map[A := "o", B := "o"]), cs)
    ensures var e := Run(Open(map[A := "o", B := "o"]), cs);
            var trigger := Trigger([Answered([ConflictFile(A, Some("z"))], true)]);
            var r := Step(e, trigger);
            && Guarded(e, trigger) && r.history.lost == []
            && |e.commits| == 1 && e.commits[0].diff.Keys == {A, B}
            && |r.commits| == 1 && r.commits[0].diff.Keys == {A} && r.commits[0].purposes == e.commits[0].purposes
            && r.parent == map[A := "y", B := "o"] && TreeOf(r, r.head) == map[A := "z", B := "o"]
  {
    hide Run, GuardedRun, Sound, Tracked, SyncTidy, Sync, DiffOf, Tidy, Step, Guarded, TreeOf, CoversOnce, Reach,
         Overwrite, CherryPick, Stored, FreeOf, StartReplay, Tip, ResolveStep, TurnTidy;
    var base, t, edited := map[A := "o", B := "o"], map[A := "x", B := "x"], map[A := "y", B := "o"];
    var files := [ConflictFile(A, Some("z"))];
    TwoVersions(base, t, edited);
    ThirdVersion(edited, files);
    cs := EditedUnderOne(base, t, edited);
    var e := Run(Open(base), cs);
    var start, item, answer := StartReplay(Snapshot(e), |e.repo|), e.commits[0], Answered(files, true);
    SyncOfOne(e, answer);
    StartExists(e);
    PickStops(start, item, edited);
    assert Collides(item.diff, edited, A);
    assert CherryPick(start, item.id).conflicts == {A};
    LandedTurn(start, item, files);
    SameTree(ResolveStep(start, item, answer), Sync(e, [answer]).state);
    TriggerSyncs(e, [answer]);
  }

  lemma LandedTurn(s: State, item: Item, files: seq<ConflictFile>)
    requires CherryPick(s, item.id).Stopped? && CherryPick(s, item.id).conflicts != {}
    requires CoversOnce(CherryPick(s, item.id).conflicts, files) && Reach(s.work, files) == |files|
    requires s.head < |s.repo| && s.commits == [] && forall f | f in files :: f.content.Some?
    requires Overwrite(TreeOf(s, s.head), files) != TreeOf(s, s.head)
    ensures var r, t := ResolveStep(s, item, Answered(files, true)), TreeOf(s, s.head);
            && |r.commits| == 1 && r.history.lost == s.history.lost
            && r.commits[0].purposes == item.purposes && r.commits[0].diff == DiffOf(t, Overwrite(t, files))
            && TreeOf(r, r.head) == Overwrite(t, files)
    ensures TurnTidy(s, item, Answered(files, true))
  {
    hide CherryPick, CoversOnce, Reach, Overwrite, Tip, DiffOf;
    ShowFresh(s, Overwrite(TreeOf(s, s.head), files));
  }
}
