/** Finishing a patch: independent patches are queued, dependent ones are merged or the queue collapses. */
module Finishing {
  import opened Wrappers
  import opened GitModel
  import opened ReviewSpec
  import opened Queue
  import opened Replay
  import opened Clean
  import opened Dependency
  import opened Merging

  /** A patch call's transaction: the worktree was at the tip and now holds another tree. */
  predicate Patched(s: State, t: Tree, paths: set<Path>) {
    Sound(s, []) && t != TreeOf(s, s.head) && DiffOf(TreeOf(s, s.head), t).Keys <= paths
  }

  function PatchDiff(s: State, t: Tree): Diff {
    DiffOf(TreeOf(s, s.head), t)
  }

  function NewItem(s: State, t: Tree, purpose: string, paths: set<Path>): Item {
    Item(|s.repo|, [purpose], PatchDiff(s, t), paths)
  }

  /** The coordinator right after the patch is committed and queued, before dependencies are looked at. */
  function Queued(s: State, t: Tree, purpose: string, paths: set<Path>): State {
    PushNew(CommitTree(s, t), purpose, paths)
  }

  /** The one item the patch depends on. */
  ghost predicate DependsOn(s: State, d: Diff, k: nat) {
    k < |s.commits| && !Independent(s.commits, d) && OnlyOverlaps(s.commits, d, k)
  }

  /** The patch takes back all the work it would be committed together with. */
  ghost predicate NetEmpty(s: State, t: Tree) {
    var d := PatchDiff(s, t);
    && !Independent(s.commits, d)
    && if exists k: nat :: DependsOn(s, d, k) then exists k: nat :: DependsOn(s, d, k) && Cancels(s.commits[k].diff, d)
       else t == TreeOf(s, s.baseline)
  }

  lemma QueuedFacts(s: State, t: Tree, purpose: string, paths: set<Path>)
    requires Patched(s, t, paths)
    ensures var q, d := Queued(s, t, purpose, paths), PatchDiff(s, t);
            && q.commits == s.commits + [NewItem(s, t, purpose, paths)]
            && Extends(s.repo, q.repo) && q.head == |s.repo| && TreeOf(q, q.head) == t && q.work == t
            && q.baseline == s.baseline && TreeOf(q, q.baseline) == TreeOf(s, s.baseline)
            && q.observed == s.observed && q.mode == s.mode && q.parent == s.parent
            && q.aliases == s.aliases && q.history.ledger == s.history.ledger
            && d != map[] && Effective(d) && Applies(d, TreeOf(s, s.head)) && Apply(d, TreeOf(s, s.head)) == t
            && DiffOf(TreeOf(s, s.head), t) == d
  {
    hide AllStored, Apart, Matches;
    HeadExists(s, []);
    ShowFresh(s, t);
    DiffApplies(TreeOf(s, s.head), t);
    EmptyDiff(TreeOf(s, s.head), t);
  }

  lemma QueuedTidy(s: State, t: Tree, purpose: string, paths: set<Path>)
    ensures Tidy(Queued(s, t, purpose, paths))
  {
  }

  /** An independent patch is simply queued, and with it any stray file that was there. */
  lemma QueuedSound(s: State, t: Tree, purpose: string, paths: set<Path>)
    requires Patched(s, t, paths) && Independent(s.commits, PatchDiff(s, t))
    ensures Sound(Queued(s, t, purpose, paths), []) && Tidy(Queued(s, t, purpose, paths))
  {
    hide Linked, Covers, Strays, StraysApart, DiffOf, Queued;
    var d, q := PatchDiff(s, t), Queued(s, t, purpose, paths);
    IndependentApart(s.commits, d);
    QueuedFacts(s, t, purpose, paths);
    QueuedTidy(s, t, purpose, paths);
    TidyApart(q, []);
    QueuedRepo(s, t, purpose, paths);
    PushStruct(s, d.Keys, [], t, q, NewItem(s, t, purpose, paths));
  }

  lemma IndependentApart(items: seq<Item>, d: Diff)
    requires Apart(items, []) && Independent(items, d)
    ensures Apart(items, [d.Keys] + [])
  {
    assert [d.Keys] + [] == [d.Keys];
  }

  lemma QueuedRepo(s: State, t: Tree, purpose: string, paths: set<Path>)
    ensures Queued(s, t, purpose, paths).repo == CommitIndex(s, t).repo
  {
  }

  /** The state from which the rebuild starts. */
  function MergeStart(s: State, t: Tree, purpose: string, paths: set<Path>): State {
    var q := Queued(s, t, purpose, paths);
    ResetHard(q.(commits := []), q.baseline)
  }

  lemma PlanApart(items: seq<Item>, k: nat, d: Diff)
    requires Apart(items, []) && k < |items| && OnlyOverlaps(items, d, k)
    ensures Apart([], Plan(items, k, d))
  {
  }

  lemma ItemsUsable(s: State)
    requires Sound(s, [])
    ensures AllUsable(s.commits, TreeOf(s, s.baseline))
  {
    QueueFacts(s);
    forall i | 0 <= i < |s.commits|
      ensures Usable(s.commits[i], TreeOf(s, s.baseline))
    {
      assert Stored(s.repo, s.commits[i]);
    }
  }

  lemma MergeStartSound(s: State, t: Tree, purpose: string, paths: set<Path>, k: nat)
    requires Patched(s, t, paths) && DependsOn(s, PatchDiff(s, t), k)
    ensures var b := MergeStart(s, t, purpose, paths);
            && Sound(b, Plan(s.commits, k, PatchDiff(s, t))) && Tidy(b) && b.work == TreeOf(s, s.baseline)
            && Extends(s.repo, b.repo)
  {
    hide AllStored, Covers, Strays, StraysApart, DiffOf, Queued, Effective, Applies, Apply, Plan, OnlyOverlaps,
         Independent;
    QueuedFacts(s, t, purpose, paths);
    QueuedTidy(s, t, purpose, paths);
    var q, b := Queued(s, t, purpose, paths), MergeStart(s, t, purpose, paths);
    ResetTidy(q.(commits := []), q.baseline);
    PlanApart(s.commits, k, PatchDiff(s, t));
    TidyApart(b, Plan(s.commits, k, PatchDiff(s, t)));
    NothingLinked(b.repo, b.baseline);
  }

  lemma MergeReady(s: State, t: Tree, purpose: string, paths: set<Path>, k: nat)
    requires Patched(s, t, paths) && DependsOn(s, PatchDiff(s, t), k)
    ensures Buildable(MergeStart(s, t, purpose, paths), s.commits, k, NewItem(s, t, purpose, paths))
  {
    hide Sound, AllUsable, DiffOf, MergeStart, Queued, OnlyOverlaps, Independent, Effective, Matches, Plan, Apply,
         Extends;
    MergeStartSound(s, t, purpose, paths, k);
    QueuedFacts(s, t, purpose, paths);
    ItemsUsable(s);
    DependencyIsOverlap(s, PatchDiff(s, t));
    assert AppliesAfter(TreeOf(s, s.baseline), s.commits[k].diff, PatchDiff(s, t));
  }

  /** Merging leaves the tip where the patch put it. */
  lemma MergeKeepsTip(s: State, t: Tree, k: nat)
    requires Sound(s, []) && DependsOn(s, PatchDiff(s, t), k)
    ensures BuildTree(TreeOf(s, s.baseline), s.commits, k, PatchDiff(s, t)) == t
  {
    QueueFacts(s);
    hide Sound, DiffOf;
    BuildTreeIsTip(TreeOf(s, s.baseline), s.commits, k, PatchDiff(s, t));
    DiffApplies(TreeOf(s, s.head), t);
  }

  // The three outcomes.

  lemma CollapseCases(s: State, t: Tree, purpose: string, paths: set<Path>)
    requires Patched(s, t, paths)
    ensures var q, d := Queued(s, t, purpose, paths), PatchDiff(s, t);
            && (Independent(s.commits, d) ==> Collapse(q) == Done(q))
            && (forall k | DependsOn(s, d, k) :: Collapse(q) == Merge(q, k))
            && (!Independent(s.commits, d) && (forall k: nat :: !DependsOn(s, d, k)) ==> Collapse(q) == CollapseAll(q))
  {
    hide Sound, DiffOf, Queued, Merge, CollapseAll, OnlyOverlaps, Independent, Extends, Effective, Apply;
    var q, d := Queued(s, t, purpose, paths), PatchDiff(s, t);
    QueuedFacts(s, t, purpose, paths);
    DependencyIsOverlap(s, d);
    assert q.commits[|s.commits|] == NewItem(s, t, purpose, paths) && q.commits[..|s.commits|] == s.commits;
    if s.commits == [] {
      NothingOverlapsNothing(d);
    } else if !Independent(s.commits, d) {
      DependencyIsUnique(s, d);
      var k := FindDependency(s.commits, TreeOf(s, s.baseline), d);
      if k < |s.commits| {
        assert DependsOn(s, d, k);
      }
    }
  }

  lemma NothingOverlapsNothing(d: Diff)
    ensures Independent([], d)
  {
  }

  lemma MergeIsRebuild(s: State, t: Tree, purpose: string, paths: set<Path>, k: nat)
    requires Patched(s, t, paths)
    ensures var q := Queued(s, t, purpose, paths);
            var o := Rebuild(MergeStart(s, t, purpose, paths), s.commits, k, NewItem(s, t, purpose, paths));
            Merge(q, k) == if o.Done? then o else Failed(ResetHard(o.state, |s.repo|).(commits := q.commits))
  {
    hide Sound, DiffOf, Queued, Rebuild, Extends, Effective, Apply;
    QueuedFacts(s, t, purpose, paths);
    var q := Queued(s, t, purpose, paths);
    assert q.commits[|s.commits|] == NewItem(s, t, purpose, paths) && q.commits[..|s.commits|] == s.commits;
  }

  /**
   Merging succeeds exactly when something is left of the two patches.  Then the queue has the same
   length, the absorbing item carries the net change, every other item keeps its work, and the tip is
   still the patched tree.
   */
  lemma MergeOutcome(s: State, t: Tree, purpose: string, paths: set<Path>, k: nat)
    requires Patched(s, t, paths) && DependsOn(s, PatchDiff(s, t), k)
    ensures var o := Merge(Queued(s, t, purpose, paths), k);
            var newest := NewItem(s, t, purpose, paths);
            && (o.Done? <==> !Cancels(s.commits[k].diff, PatchDiff(s, t)))
            && (o.Done? ==>
                 && Sound(o.state, []) && Tidy(o.state)
                 && SameWork(o.state.commits, s.commits[k := Absorb(s.commits[k], newest)])
                 && |o.state.commits| == |s.commits|
                 && o.state.commits[k].purposes == s.commits[k].purposes + [purpose]
                 && o.state.commits[k].paths == s.commits[k].paths + paths
                 && TreeOf(o.state, o.state.head) == t)
            && Extends(s.repo, o.state.repo) && SameOutside(Queued(s, t, purpose, paths), o.state)
            && (o.Failed? ==>
                 && o.state.commits == s.commits + [newest]
                 && o.state.head == Tip(o.state) && TreeOf(o.state, o.state.head) == t && Tidy(o.state))
  {
    hide Sound, DiffOf, MergeStart, Queued, Rebuild, SameWork, Cancels, Extends, Patched, DependsOn, PatchDiff,
         Merge, Effective, Apply;
    var b, newest := MergeStart(s, t, purpose, paths), NewItem(s, t, purpose, paths);
    MergeReady(s, t, purpose, paths, k);
    MergeStartFacts(s, t, purpose, paths, k);
    MergeIsRebuild(s, t, purpose, paths, k);
    hide Buildable;
    if Cancels(s.commits[k].diff, PatchDiff(s, t)) {
      RebuildStops(b, s.commits, k, newest);
      ExtendsTransitive(s.repo, b.repo, Rebuild(b, s.commits, k, newest).state.repo);
      PutBack(s, t, purpose, paths, k);
    } else {
      RebuildSound(b, s.commits, k, newest);
      ExtendsTransitive(s.repo, b.repo, Rebuild(b, s.commits, k, newest).state.repo);
      assert b.commits + Rebuilt(s.commits, k, newest) == Rebuilt(s.commits, k, newest);
      AbsorbedAt(Rebuild(b, s.commits, k, newest).state.commits, s.commits, k, newest);
      SoundPlan(Rebuild(b, s.commits, k, newest).state, []);
    }
  }

  /** A failed merge puts HEAD and worktree back on the patch. */
  lemma PutBack(s: State, t: Tree, purpose: string, paths: set<Path>, k: nat)
    requires Patched(s, t, paths)
             && Tidy(Rebuild(MergeStart(s, t, purpose, paths), s.commits, k, NewItem(s, t, purpose, paths)).state)
    requires var r := Rebuild(MergeStart(s, t, purpose, paths), s.commits, k, NewItem(s, t, purpose, paths)).state;
             Extends(MergeStart(s, t, purpose, paths).repo, r.repo)
    ensures var q := Queued(s, t, purpose, paths);
            var r := Rebuild(MergeStart(s, t, purpose, paths), s.commits, k, NewItem(s, t, purpose, paths)).state;
            var back := ResetHard(r, |s.repo|).(commits := q.commits);
            && back.commits == s.commits + [NewItem(s, t, purpose, paths)]
            && back.head == Tip(back) && TreeOf(back, back.head) == t && Tidy(back)
  {
    hide Rebuild, Tidy, Sound, DiffOf;
    var r := Rebuild(MergeStart(s, t, purpose, paths), s.commits, k, NewItem(s, t, purpose, paths)).state;
    ResetTidy(r, |s.repo|);
    QueuedFacts(s, t, purpose, paths);
    SameFiles(ResetHard(r, |s.repo|), ResetHard(r, |s.repo|).(commits := Queued(s, t, purpose, paths).commits));
  }

  lemma AbsorbedAt(merged: seq<Item>, items: seq<Item>, k: nat, newest: Item)
    requires k < |items| && SameWork(merged, items[k := Absorb(items[k], newest)])
    ensures |merged| == |items| && merged[k].purposes == items[k].purposes + newest.purposes
    ensures merged[k].paths == items[k].paths + newest.paths
  {
    assert SameItem(merged[k], items[k := Absorb(items[k], newest)][k]);
  }

  lemma MergeStartFacts(s: State, t: Tree, purpose: string, paths: set<Path>, k: nat)
    requires Patched(s, t, paths) && DependsOn(s, PatchDiff(s, t), k)
    ensures var b, q := MergeStart(s, t, purpose, paths), Queued(s, t, purpose, paths);
            && Extends(s.repo, b.repo) && b.commits == [] && b.work == TreeOf(s, s.baseline)
            && SameOutside(q, b)
    ensures k < |s.commits| && NewItem(s, t, purpose, paths).diff == PatchDiff(s, t)
    ensures BuildTree(TreeOf(s, s.baseline), s.commits, k, PatchDiff(s, t)) == t
  {
    hide Sound, DiffOf, Queued, BuildTree, OnlyOverlaps, Independent, Extends, Patched;
    MergeStartSound(s, t, purpose, paths, k);
    assert Sound(s, []) by { PatchedSound(s, t, paths); }
    MergeKeepsTip(s, t, k);
  }

  lemma PatchedSound(s: State, t: Tree, paths: set<Path>)
    requires Patched(s, t, paths)
    ensures Sound(s, [])
  {
  }

  lemma {:induction false} PathsCovered(items: seq<Item>, i: nat)
    requires i < |items|
    ensures items[i].paths <= AllPaths(items)
  {
    if i < |items| - 1 {
      PathsCovered(items[..|items| - 1], i);
    }
  }

  /** What the whole queue changes is within the paths its items announced. */
  lemma NetPathsCovered(s: State, t: Tree, purpose: string, paths: set<Path>)
    requires Patched(s, t, paths)
    ensures DiffOf(TreeOf(s, s.baseline), t).Keys <= AllPaths(Queued(s, t, purpose, paths).commits)
  {
    var q, d := Queued(s, t, purpose, paths), PatchDiff(s, t);
    var n := |s.commits|;
    assert q.commits == s.commits + [NewItem(s, t, purpose, paths)];
    ChainTree(s.repo, s.baseline, s.commits, n);
    forall p | p in DiffOf(TreeOf(s, s.baseline), t)
      ensures p in AllPaths(q.commits)
    {
      if p in d {
        PathsCovered(q.commits, n);
      } else if i :| 0 <= i < n && p in s.commits[i].diff {
        assert Stored(s.repo, s.commits[i]);
        PathsCovered(q.commits, i);
      } else {
        TipElsewhere(s.repo, s.baseline, s.commits, n, p);
        assert false;
      }
    }
  }

  /** A patch depending on several items turns the queue into one commit, unless nothing is left of it. */
  lemma CollapseAllOutcome(s: State, t: Tree, purpose: string, paths: set<Path>)
    requires Patched(s, t, paths)
    ensures var q := Queued(s, t, purpose, paths);
            var o := CollapseAll(q);
            && (o.Done? <==> t != TreeOf(s, s.baseline))
            && (o.Done? ==>
                 && Sound(o.state, []) && Tidy(o.state) && |o.state.commits| == 1
                 && o.state.commits[0].diff == DiffOf(TreeOf(s, s.baseline), t)
                 && o.state.commits[0].purposes == InOrder(s.commits) + [purpose]
                 && (forall p :: p in o.state.commits[0].paths <==>
                       p in paths || exists i :: 0 <= i < |s.commits| && p in s.commits[i].paths)
                 && TreeOf(o.state, o.state.head) == t)
            && Extends(s.repo, o.state.repo) && SameOutside(q, o.state)
            && (o.Failed? ==> o.state.commits == q.commits && o.state.head == s.baseline && o.state.work == t)
  {
    hide Sound, DiffOf, Queued, Patched, Effective, Apply, AllPaths, AllPurposes, Extends, CollapseAll, Applies,
         PushHead;
    var q := Queued(s, t, purpose, paths);
    QueuedFacts(s, t, purpose, paths);
    CollapseIsPush(q);
    if t != TreeOf(s, s.baseline) {
      NetPathsCovered(s, t, purpose, paths);
      var b := CollapseStart(q);
      var f := DiffOf(TreeOf(s, s.baseline), t).Keys;
      CollapseStartSound(s, t, purpose, paths, f);
      HeadExists(b, [f] + []);
      FitsAlone(b, t);
      HeadSound(b, t, t, 0, WholeQueue(q), f, []);
      var r := PushHead(CommitTree(b, t), WholeQueue(q));
      ExtendsTransitive(s.repo, b.repo, r.repo);
      WholePushed(b, t, WholeQueue(q));
      LabelsOfAll(s.commits, NewItem(s, t, purpose, paths));
    }
  }

  /** The purposes of a queue, first item first. */
  function InOrder(items: seq<Item>): seq<string> {
    if items == [] then [] else items[0].purposes + InOrder(items[1..])
  }

  lemma {:induction false} InOrderSnoc(items: seq<Item>, last: Item)
    ensures InOrder(items + [last]) == InOrder(items) + last.purposes
  {
    if items == [] {
      assert items + [last] == [last] && [last][1..] == [];
    } else {
      assert (items + [last])[1..] == items[1..] + [last];
      InOrderSnoc(items[1..], last);
    }
  }

  lemma {:induction false} LabelsInOrder(items: seq<Item>)
    ensures AllPurposes(items) == InOrder(items)
    ensures forall p :: p in AllPaths(items) <==> exists i :: 0 <= i < |items| && p in items[i].paths
  {
    if items != [] {
      var n := |items| - 1;
      LabelsInOrder(items[..n]);
      InOrderSnoc(items[..n], items[n]);
      assert items == items[..n] + [items[n]] && forall i | 0 <= i < n :: items[..n][i] == items[i];
    }
  }

  lemma LabelsOfAll(items: seq<Item>, newest: Item)
    ensures AllPurposes(items + [newest]) == InOrder(items) + newest.purposes
    ensures forall p :: p in AllPaths(items + [newest]) <==>
              p in newest.paths || exists i :: 0 <= i < |items| && p in items[i].paths
  {
    var all := items + [newest];
    LabelsInOrder(items);
    InOrderSnoc(items, newest);
    LabelsInOrder(all);
    assert all[|items|] == newest && forall i | 0 <= i < |items| :: all[i] == items[i];
  }

  function CollapseStart(q: State): State {
    ResetHard(q.(commits := []), q.baseline)
  }

  /** The one item a collapsed queue becomes, before its commit gives it a name and a diff. */
  function WholeQueue(q: State): Item {
    Item(0, AllPurposes(q.commits), map[], AllPaths(q.commits))
  }

  lemma CollapseIsPush(q: State)
    ensures q.work != TreeOf(q, q.baseline) ==>
              CollapseAll(q) == Done(PushHead(CommitTree(CollapseStart(q), q.work), WholeQueue(q)))
    ensures q.work == TreeOf(q, q.baseline) ==> CollapseAll(q) == Failed(ResetSoft(q, q.baseline))
  {
  }

  lemma CollapseStartSound(s: State, t: Tree, purpose: string, paths: set<Path>, f: set<Path>)
    requires Patched(s, t, paths)
    ensures var q := Queued(s, t, purpose, paths);
            var b := CollapseStart(q);
            && Sound(b, [f] + []) && Extends(s.repo, b.repo) && SameOutside(q, b)
            && b.commits == [] && TreeOf(b, b.head) == TreeOf(s, s.baseline)
  {
    QueuedFacts(s, t, purpose, paths);
  }

  lemma WholePushed(b: State, t: Tree, item: Item)
    requires b.head < |b.repo| && b.commits == []
    ensures var r := PushHead(CommitTree(b, t), item);
            && |r.commits| == 1 && r.commits[0].purposes == item.purposes && r.commits[0].paths == item.paths
            && r.commits[0].diff == DiffOf(TreeOf(b, b.head), t) && TreeOf(r, r.head) == t && Tidy(r)
  {
  }

  lemma ReviewIsCollapse(s: State, t: Tree, purpose: string, paths: set<Path>, fault: Fault)
    requires Patched(s, t, paths) && s.mode == Review
    ensures FinishPatch(s.(work := t), purpose, paths, fault) == Collapse(Queued(s, t, purpose, paths))
  {
  }

  /**
   Finishing a Review patch succeeds exactly when it does not take back all the work it would be
   committed with, and then the queue is sound again with the patched tree at its tip.
   */
  lemma ReviewFinish(s: State, t: Tree, purpose: string, paths: set<Path>, fault: Fault)
    requires Patched(s, t, paths) && s.mode == Review
    ensures var o := FinishPatch(s.(work := t), purpose, paths, fault);
            && (o.Done? <==> !NetEmpty(s, t))
            && (o.Done? ==> Sound(o.state, []) && Tidy(o.state) && TreeOf(o.state, o.state.head) == t)
            && Extends(s.repo, o.state.repo) && SameOutside(Queued(s, t, purpose, paths), o.state)
  {
    hide Sound, DiffOf, Queued, Patched, Collapse, Merge, CollapseAll, Extends, Independent, OnlyOverlaps, Cancels,
         FinishPatch, SameWork;
    var q, d := Queued(s, t, purpose, paths), PatchDiff(s, t);
    ReviewIsCollapse(s, t, purpose, paths, fault);
    CollapseCases(s, t, purpose, paths);
    QueuedFacts(s, t, purpose, paths);
    if Independent(s.commits, d) {
      QueuedSound(s, t, purpose, paths);
    } else if k: nat :| DependsOn(s, d, k) {
      MergeOutcome(s, t, purpose, paths, k);
      OnlyOne(s, d, k);
    } else {
      CollapseAllOutcome(s, t, purpose, paths);
    }
  }

  lemma OnlyOne(s: State, d: Diff, k: nat)
    requires DependsOn(s, d, k)
    ensures forall j: nat | DependsOn(s, d, j) :: j == k
  {
  }

  lemma EmptySound(s: State)
    requires s.commits == [] && s.head == s.baseline < |s.repo| && s.observed < |s.repo|
    requires Tidy(s)
    ensures Sound(s, [])
  {
    hide Linked, Covers, Strays, StraysApart;
    TidyApart(s, []);
    NothingLinked(s.repo, s.baseline);
  }

  lemma WriteCases(s: State, d: Diff, fault: Fault)
    requires d == Show(s, s.head) && Tidy(s) && s.head < |s.repo|
    ensures var o := FinishWrite(s, fault);
            && (o.Done? <==> Applies(d, s.parent) && fault == NoFault)
            && (o.Done? ==>
                 && o.state.parent == Apply(d, s.parent)
                 && o.state.repo == s.repo + [Commit(None, o.state.parent)] && o.state.head == |s.repo|
                 && o.state.baseline == |s.repo| && o.state.observed == |s.repo| && o.state.work == o.state.parent
                 && o.state.history == s.history.(ledger := s.history.ledger + [Own(d)]))
            && (o.Failed? ==>
                 && o.state.parent == s.parent && o.state.history == s.history
                 && o.state.baseline == s.baseline && o.state.observed == s.observed
                 && Extends(s.repo, o.state.repo) && o.state.head == s.baseline
                 && (o.state.repo == if Applies(d, s.parent) && fault != AtSnapshot
                                     then s.repo + [Commit(None, Apply(d, s.parent))] else s.repo)
                 && o.state.work == TreeOf(o.state, s.baseline))
            && o.state.commits == s.commits && o.state.mode == s.mode && o.state.aliases == s.aliases
  {
    hide Show, ResetHard, Tidy, Apply, Applies;
    WriteResets(s, s.(parent := s.parent));
    if Applies(d, s.parent) {
      ReverseRestores(d, s.parent);
      var s1 := s.(parent := Apply(d, s.parent));
      WriteResets(s, s1);
      WriteResets(s, Snapshot(s1));
      WriteResets(s, s1.(parent := s.parent));
      WriteResets(s, Snapshot(s1).(parent := s.parent));
    }
  }

  /** A reset of the worktree a patch was just committed from is exact. */
  lemma WriteResets(s: State, r: State)
    requires Tidy(s) && s.head < |s.repo| && Extends(s.repo, r.repo) && r.head == s.head && r.work == s.work
    ensures forall id :: ResetHard(r, id) == r.(head := id, work := TreeOf(r, id))
  {
    hide ResetHard;
    assert Tidy(r);
    forall id
      ensures ResetHard(r, id) == r.(head := id, work := TreeOf(r, id))
    {
      ResetTidy(r, id);
    }
  }

  /** A Write patch is on the parent in full or, whatever fails late, not at all. */
  lemma WriteFinish(s: State, t: Tree, purpose: string, paths: set<Path>, fault: Fault)
    requires Sound(s, []) && s.commits == [] && s.mode == Write && t != TreeOf(s, s.head)
    ensures var o := FinishPatch(s.(work := t), purpose, paths, fault);
            var d := PatchDiff(s, t);
            && Sound(o.state, []) && Tidy(o.state) && o.state.commits == [] && o.state.mode == Write
            && Extends(s.repo, o.state.repo)
            && (o.Done? <==> Applies(d, s.parent) && fault == NoFault)
            && (o.Done? ==> o.state.parent == Apply(d, s.parent) && o.state.observed == o.state.baseline)
            && (o.Done? ==> TreeOf(o.state, o.state.observed) == o.state.parent)
            && (o.Failed? ==> o.state.parent == s.parent && o.state.baseline == s.baseline
                              && o.state.observed == s.observed && o.state.history == s.history)
  {
    hide FinishWrite, Show, DiffOf, Applies, Apply, Struct, Covers, Strays, StraysApart;
    HeadExists(s, []);
    ShowFresh(s, t);
    var s1 := CommitTree(s, t);
    assert CommitWork(s.(work := t)) == Some(s1) && s.observed < |s.repo| && Extends(s.repo, s1.repo);
    WriteCases(s1, PatchDiff(s, t), fault);
    EmptySound(FinishWrite(s1, fault).state);
  }
}
