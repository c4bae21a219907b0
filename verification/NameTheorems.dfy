/** The name theorems over whole guarded runs. */
module NameTheorems {
  import opened Wrappers
  import opened GitModel
  import opened ReviewSpec
  import opened Queue
  import opened Replay
  import opened Dependency
  import opened Merging
  import opened Finishing
  import opened Names
  import opened Lineage
  import opened NameRuns
  import opened NameSafety
  import opened Runs

  lemma QueuedLoose(s: State, t: Tree, purpose: string, paths: set<Path>)
    requires Patched(s, t, paths) && Tracked(s)
    ensures var q := Queued(s, t, purpose, paths);
            && Loose(q, IdSet(s.commits)) && AllRecorded(BookOf(q), s.commits) && Distinct(s.commits)
            && ShownGrows(BookOf(s), BookOf(q)) && |s.repo| < |q.repo|
    ensures forall i | 0 <= i < |s.commits| :: s.commits[i].id < |s.repo|
  {
    QueuedNames(s, t, purpose, paths);
    TrackedLoose(s);
    HeadExists(s, []);
    QueuedBook(s, t, purpose, paths);
    var q := Queued(s, t, purpose, paths);
    assert |q.repo| == |s.repo| + 1;
    hide Traced, Sound, Patched, NewItem, Queued, Recorded, ShownGrows;
    RecordedLater(BookOf(s), BookOf(q), s.commits);
    SnocIds(s.commits, NewItem(s, t, purpose, paths));
    LaterSelf(BookOf(q));
    FewerTraced(BookOf(q), q.commits, IdSet(q.commits), BookOf(q), [], IdSet(s.commits));
  }

  lemma MergeNames(s: State, t: Tree, purpose: string, paths: set<Path>, k: nat)
    requires Patched(s, t, paths) && Tracked(s) && DependsOn(s, PatchDiff(s, t), k)
    requires !Cancels(s.commits[k].diff, PatchDiff(s, t))
    ensures KeepsNames(s, Merge(Queued(s, t, purpose, paths), k).state)
  {
    hide Traced, Sound, Patched, Queued, Recorded, ShownGrows, Buildable, Building, Loose, IdSet, DependsOn, PatchDiff,
         Rebuild, Merge, Cancels, SameOutside, AllRecorded, KeepsNames, Rebooked, BookOf, MergeStart, Distinct;
    var b, q, newest := MergeStart(s, t, purpose, paths), Queued(s, t, purpose, paths), NewItem(s, t, purpose, paths);
    QueuedLoose(s, t, purpose, paths);
    MergeReady(s, t, purpose, paths, k);
    MergeIsRebuild(s, t, purpose, paths, k);
    MergeStartFacts(s, t, purpose, paths, k);
    MergeStartBook(s, t, purpose, paths);
    var o := Rebuild(b, s.commits, k, newest);
    StartBuilding(b, s.commits, k, newest);
    RebuildNames(b, s.commits, k, newest, |b.repo|);
    RebookedKeeps(s, b, o.state);
  }

  lemma MergeStartBook(s: State, t: Tree, purpose: string, paths: set<Path>)
    ensures var b, q := MergeStart(s, t, purpose, paths), Queued(s, t, purpose, paths);
            && BookOf(b) == BookOf(q) && b.repo == q.repo && b.commits == []
            && (forall targets :: Loose(q, targets) ==> Loose(b, targets))
  {
  }

  lemma StartBuilding(b: State, rest: seq<Item>, dep: int, newest: Item)
    requires Buildable(b, rest, dep, newest) && Loose(b, IdSet(rest)) && b.commits == []
    requires AllRecorded(BookOf(b), rest) && Distinct(rest)
    ensures Building(b, rest, dep, newest, |b.repo|)
  {
    hide Traced, Buildable;
    IdsBelow(b, rest, IdSet(rest));
    assert IdSet([]) + IdSet(rest) == IdSet(rest);
  }

  lemma RebookedKeeps(s: State, b: State, r: State)
    requires ShownGrows(BookOf(s), BookOf(b)) && Rebooked(b, r)
    ensures KeepsNames(s, r)
  {
    hide Traced;
    GrowsTwice(BookOf(s), BookOf(b), BookOf(r));
  }

  lemma CollapseAllNames(s: State, t: Tree, purpose: string, paths: set<Path>)
    requires Patched(s, t, paths) && Tracked(s) && t != TreeOf(s, s.baseline)
    ensures KeepsNames(s, CollapseAll(Queued(s, t, purpose, paths)).state)
  {
    hide Traced, Sound, Patched, Queued, Recorded, ShownGrows, IdSet, AllRecorded, DiffOf, Effective, Apply,
         CollapseAll,
         PushHead, BookOf, Extends, CollapseStart, WholeQueue, Applies;
    QueuedFacts(s, t, purpose, paths);
    QueuedLoose(s, t, purpose, paths);
    var q := Queued(s, t, purpose, paths);
    CollapseIsPush(q);
    PushedNames(s, q, CollapseStart(q), t, WholeQueue(q), IdSet(s.commits));
  }

  lemma PushedNames(s: State, q: State, b: State, t: Tree, item: Item, targets: set<Id>)
    requires Loose(q, targets) && ShownGrows(BookOf(s), BookOf(q)) && b == CollapseStart(q)
    ensures KeepsNames(s, PushHead(CommitTree(b, t), item))
  {
    hide Traced, ShownGrows, IdSet;
    var r := PushHead(CommitTree(b, t), item);
    var now := item.(id := |b.repo|, diff := Show(CommitTree(b, t), |b.repo|));
    assert BookOf(b) == BookOf(q);
    assert BookOf(r) == Added(BookOf(b), now) && r.commits == [now];
    AddedAlone(BookOf(b), targets, now);
    AddedShown(BookOf(b), now);
    GrowsTwice(BookOf(s), BookOf(b), BookOf(r));
  }

  lemma AddedAlone(b: Book, targets: set<Id>, now: Item)
    requires Traced(b, [], targets) && now.id == b.bound
    ensures Traced(Added(b, now), [now], IdSet([now])) && b.bound !in b.shown
  {
    hide Traced;
    AddedTraced(b, [], targets, now);
    ShownBelow(b, [], targets);
    assert [] + [now] == [now];
    SnocIds([], now);
    assert IdSet([now]) == {b.bound};
    LaterSelf(Added(b, now));
    FewerTraced(Added(b, now), [now], targets + {b.bound}, Added(b, now), [now], {b.bound});
  }

  lemma AddedShown(b: Book, now: Item)
    requires b.bound !in b.shown
    ensures ShownGrows(b, Added(b, now))
  {
  }

  lemma ReviewNames(s: State, t: Tree, purpose: string, paths: set<Path>, fault: Fault)
    requires Patched(s, t, paths) && Tracked(s) && s.mode == Review && !NetEmpty(s, t)
    ensures KeepsNames(s, FinishPatch(s.(work := t), purpose, paths, fault).state)
  {
    hide Sound, DiffOf, Queued, Patched, Collapse, Merge, CollapseAll, Independent, OnlyOverlaps, Cancels,
         FinishPatch, Tracked, KeepsNames;
    var q, d := Queued(s, t, purpose, paths), PatchDiff(s, t);
    ReviewIsCollapse(s, t, purpose, paths, fault);
    CollapseCases(s, t, purpose, paths);
    if Independent(s.commits, d) {
      QueuedNames(s, t, purpose, paths);
    } else if k: nat :| DependsOn(s, d, k) {
      OnlyOne(s, d, k);
      MergeNames(s, t, purpose, paths, k);
    } else {
      CollapseAllNames(s, t, purpose, paths);
    }
  }

  lemma WriteNames(s: State, t: Tree, purpose: string, paths: set<Path>, fault: Fault)
    requires Sound(s, []) && Tracked(s) && s.commits == [] && s.mode == Write && t != TreeOf(s, s.head)
    ensures KeepsNames(s, FinishPatch(s.(work := t), purpose, paths, fault).state)
  {
    hide AllStored, Apart, FinishWrite, Show, DiffOf, Applies, Apply, Traced;
    HeadExists(s, []);
    ShowFresh(s, t);
    var s1 := CommitTree(s, t);
    assert CommitWork(s.(work := t)) == Some(s1);
    TrackedLoose(s);
    WriteCases(s1, PatchDiff(s, t), fault);
    var r := FinishWrite(s1, fault).state;
    assert IdSet([]) == {};
    LooseLater(s, r, {});
  }

  lemma PatchNames(s: State, tree: Tree, purpose: string, paths: set<Path>, fault: Fault)
    requires Orderly(s) && Tracked(s) && s.mode != ReadOnly
    requires tree != TreeOf(s, s.head) ==>
               PatchDiff(s, tree).Keys <= paths && (s.mode == Review ==> !NetEmpty(s, tree))
    ensures var r := FinishPatch(s.(work := tree), purpose, paths, fault).state;
            KeepsNames(s, r) && KeepsNames(s, ResetHard(r, r.head))
  {
    hide NetEmpty, Tracked, ShownGrows;
    KeepsSelf(s);
    var o := FinishPatch(s.(work := tree), purpose, paths, fault);
    if tree == TreeOf(s, s.head) {
      assert o.state == s.(work := tree);
      SameNames(s, s, o.state);
    } else if s.mode == Review {
      hide FinishPatch, Sound;
      ReviewNames(s, tree, purpose, paths, fault);
    } else {
      hide FinishPatch, Sound;
      WriteNames(s, tree, purpose, paths, fault);
    }
    SameNames(s, o.state, ResetHard(o.state, o.state.head));
  }

  lemma StepNames(s: State, c: Command)
    requires Invariant(s) && Tracked(s) && Guarded(s, c)
    ensures KeepsNames(s, Step(s, c))
  {
    assert Sound(s, []);
    hide Sound, Sync, Dispatch, FinishPatch, NetEmpty, PatchDiff, Tracked, ShownGrows, Invariant;
    KeepsSelf(s);
    match c
    case UserEdit(tree) =>
      SameNames(s, s, Step(s, c));
    case Trigger(answers) =>
      SyncNames(s, answers);
    case Press(control, answers, fault) =>
      SyncOrderly(s, answers);
      SyncNames(s, answers);
      var s1 := Sync(s, answers).state;
      InvariantSound(s1);
      if !Halted(s, control, answers) {
        DispatchNames(s1, control, fault);
        GrowsTwice(BookOf(s), BookOf(s1), BookOf(Dispatch(s1, control, fault).state));
      }
    case CallPatch(tree, purpose, paths, answers, fault) =>
      SyncOrderly(s, answers);
      SyncNames(s, answers);
      var s1 := Sync(s, answers).state;
      if s1.mode != ReadOnly {
        PatchNames(s1, tree, purpose, paths, fault);
        var r := FinishPatch(s1.(work := tree), purpose, paths, fault).state;
        GrowsTwice(BookOf(s), BookOf(s1), BookOf(r));
      }
  }

  lemma InvariantSound(s: State)
    requires Orderly(s)
    ensures Sound(s, [])
  {
  }

  lemma {:induction false} RunsAreTracked(parent: Tree, cs: seq<Command>)
    requires GuardedRun(Open(parent), cs)
    ensures Tracked(Run(Open(parent), cs))
  {
    if cs == [] {
      assert IdSet([]) == {};
    } else {
      hide Invariant, Guarded, Step, Tracked;
      RunsAreTracked(parent, cs[..|cs| - 1]);
      GuardedRunsAreSound(parent, cs[..|cs| - 1]);
      StepNames(Run(Open(parent), cs[..|cs| - 1]), cs[|cs| - 1]);
      KeepsTracked(Run(Open(parent), cs[..|cs| - 1]), Run(Open(parent), cs));
    }
  }

  lemma KeepsTracked(s: State, r: State)
    requires KeepsNames(s, r)
    ensures Tracked(r)
  {
  }

  lemma FoundIsNarrower(s: State, name: Id, k: nat)
    requires Tracked(s) && k < |s.commits| && Resolve(s.aliases, name) == s.commits[k].id
    ensures name in s.history.shown && Narrower(s.commits[k], s.history.shown[name])
  {
    hide Resolve;
    ResolvesIffDescends(BookOf(s), s.commits, IdSet(s.commits), name, k);
    FoundInBook(BookOf(s), s.commits, IdSet(s.commits), name, k);
  }

  lemma FoundInBook(b: Book, done: seq<Item>, targets: set<Id>, name: Id, k: nat)
    requires Traced(b, done, targets) && k < |done| && Descends(b.origins, done[k].id, name)
    ensures name in b.shown && Narrower(done[k], b.shown[name])
  {
    DescendantsAreNarrower(b, name, done[k].id);
  }

  /**
   Alias soundness and completeness, at the end of every guarded run: a name finds a queued commit exactly
   when that commit was made from it by clean picks and unmerged rebuilds.  Such a name was displayed, and
   what it finds has the displayed purposes and no change that was not displayed.
   */
  lemma NamesFindDescendants(parent: Tree, cs: seq<Command>, name: Id, k: nat)
    requires GuardedRun(Open(parent), cs)
    requires k < |Run(Open(parent), cs).commits|
    ensures var s := Run(Open(parent), cs);
            && (Resolve(s.aliases, name) == s.commits[k].id <==> Descends(s.history.origins, s.commits[k].id, name))
            && (Resolve(s.aliases, name) == s.commits[k].id ==>
                 name in s.history.shown && Narrower(s.commits[k], s.history.shown[name]))
  {
    var s := Run(Open(parent), cs);
    RunsAreTracked(parent, cs);
    hide GuardedRun, Run, Tracked, Resolve;
    TrackedIff(s, name, k);
    if Resolve(s.aliases, name) == s.commits[k].id {
      FoundIsNarrower(s, name, k);
    }
  }

  lemma TrackedIff(s: State, name: Id, k: nat)
    requires Tracked(s) && k < |s.commits|
    ensures Resolve(s.aliases, name) == s.commits[k].id <==> Descends(s.history.origins, s.commits[k].id, name)
  {
    ResolvesIffDescends(BookOf(s), s.commits, IdSet(s.commits), name, k);
  }
}
