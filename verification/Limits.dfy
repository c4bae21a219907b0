/** Where the coordinator does less than its documentation suggests, and exactly when. */
module Limits {
  import opened GitModel
  import opened ReviewSpec
  import opened Queue
  import opened Replay
  import opened Clean
  import opened Dependency
  import opened Merging
  import opened Finishing
  import opened Lineage
  import opened Confluence
  import opened Orders

  // A pending queue carried into Write mode.

  /** Review to Write drains the queue; the same change by way of Read-only does not. */
  lemma DetourKeepsQueue(s: State)
    requires Good(s) && s.mode == Review
    ensures ChangeMode(s, Write, NoFault).Done? && ChangeMode(s, Write, NoFault).state.commits == []
    ensures ChangeMode(ChangeMode(s, ReadOnly, NoFault).state, Write, NoFault) == Done(s.(mode := Write))
  {
    hide Good, ApplyAll;
    ApplyAllGood(s);
    Detour(s);
  }

  lemma Detour(s: State)
    requires s.mode == Review
    ensures ChangeMode(ChangeMode(s, ReadOnly, NoFault).state, Write, NoFault) == Done(s.(mode := Write))
  {
  }

  lemma CommitWritten(s: State, t: Tree, purpose: string, paths: set<Path>)
    requires s.head < |s.repo| && s.mode == Write && t != TreeOf(s, s.head)
    ensures FinishPatch(s.(work := t), purpose, paths, NoFault) == FinishWrite(CommitTree(s, t), NoFault)
    ensures Show(CommitTree(s, t), |s.repo|) == PatchDiff(s, t) && CommitTree(s, t).head == |s.repo|
  {
  }

  /** The parent after a Write patch over a queue: the queue itself is left as it was. */
  lemma WriteOverQueue(s: State, t: Tree, purpose: string, paths: set<Path>)
    requires Sound(s, []) && s.mode == Write && t != TreeOf(s, s.head) && Applies(PatchDiff(s, t), s.parent)
    ensures var o := FinishPatch(s.(work := t), purpose, paths, NoFault);
            && o.Done? && o.state.parent == Apply(PatchDiff(s, t), s.parent)
            && o.state.commits == s.commits && TreeOf(o.state, o.state.baseline) == o.state.parent
            && o.state.baseline == o.state.observed < |o.state.repo|
            && (s.commits != [] ==>
                 TreeOf(o.state, Tip(o.state)) == TreeOf(s, s.head) && Tip(o.state) < |o.state.repo|)
  {
    hide Show, Apply, Applies, Sound, FinishWrite, FinishPatch, PatchDiff, Tip;
    HeadExists(s, []);
    CommitWritten(s, t, purpose, paths);
    var s1 := CommitTree(s, t);
    WriteCases(s1, PatchDiff(s, t), NoFault);
    TipStays(s, FinishWrite(s1, NoFault).state);
  }

  lemma TipStays(s: State, r: State)
    requires Sound(s, []) && r.commits == s.commits && Extends(s.repo, r.repo)
    ensures s.commits != [] ==> TreeOf(r, Tip(r)) == TreeOf(s, s.head) && Tip(r) < |r.repo|
  {
    HeadExists(s, []);
  }

  /** What Apply all does with the new baseline and the old tip. */
  lemma StaleApplyAll(w: State, tip: Tree, d: Diff)
    requires w.commits != [] && TreeOf(w, Tip(w)) == tip && TreeOf(w, w.baseline) == w.parent
    requires d != map[] && Effective(d) && Matches(d, tip) && forall p | p in d :: Get(w.parent, p) == d[p].after
    ensures ApplyAll(w, NoFault).state.parent == tip
  {
    var p :| p in d;
    assert Get(w.parent, p) != Get(tip, p);
    DiffApplies(w.parent, tip);
    EmptyDiff(w.parent, tip);
    assert QueueDiff(w) == DiffOf(w.parent, tip);
    hide ApplyAll, DiffOf, Apply;
    ApplyAllParent(w);
  }

  /**
   A Write patch survives the next Apply all exactly when the queue was empty: otherwise Apply all compares
   the new baseline with the old tip and puts every path of the patch back.
   */
  lemma WriteSurvivesIffQueueEmpty(s: State, t: Tree, purpose: string, paths: set<Path>)
    requires Sound(s, []) && s.mode == Write && t != TreeOf(s, s.head) && Applies(PatchDiff(s, t), s.parent)
    ensures var d := PatchDiff(s, t);
            var w := FinishPatch(s.(work := t), purpose, paths, NoFault).state;
            var a := ApplyAll(w, NoFault).state;
            && (s.commits == [] ==> forall p | p in d :: Get(a.parent, p) == d[p].after)
            && (s.commits != [] ==> forall p | p in d :: Get(a.parent, p) == d[p].before != d[p].after)
  {
    var d, tip := PatchDiff(s, t), TreeOf(s, s.head);
    DiffApplies(tip, t);
    assert d == DiffOf(tip, t);
    hide Sound, FinishPatch, DiffOf, Apply, PatchDiff, FinishApply, QueueDiff, TreeOf, Tip;
    WriteOverQueue(s, t, purpose, paths);
    var w := FinishPatch(s.(work := t), purpose, paths, NoFault).state;
    if s.commits != [] {
      StaleApplyAll(w, tip, d);
    }
  }

  lemma ApplyAllParent(s: State)
    requires s.commits != [] && Applies(QueueDiff(s), s.parent)
    ensures ApplyAll(s, NoFault).state.parent == Apply(QueueDiff(s), s.parent)
  {
    hide Apply, ReplayOnto, QueueDiff;
    AdoptIsReplay(s, QueueDiff(s), []);
    ReplayOntoParent(Snapshot(s.(parent := Apply(QueueDiff(s), s.parent), commits := [])).(observed := |s.repo|), |s.repo|);
  }

  lemma ReplayOntoParent(s: State, base: Id)
    requires s.commits == []
    ensures ReplayOnto(s, base, NoFault).Done? && ReplayOnto(s, base, NoFault).state.parent == s.parent
  {
  }

  // A patch that cancels the item it depends on.

  lemma RebuildStepAliases(s: State, item: Item, fold: bool, newest: Item)
    ensures var o := RebuildStep(s, item, fold, newest);
            && (o.Failed? ==> o.state.aliases == s.aliases)
            && (o.Done? ==> o.state.aliases == if fold then s.aliases else s.aliases[item.id := |s.repo|])
  {
    hide Applies, Apply, Show;
  }

  /**
   A cancelling patch fails to merge and is put back with the queue.  The id of a queued item still finds it
   if and only if the item does not come before the one the patch depends on; the others lead to commits
   that are in no queue.
   */
  lemma CancelledMergeStrandsNames(s: State, t: Tree, purpose: string, paths: set<Path>, k: nat, fault: Fault)
    requires Patched(s, t, paths) && Tracked(s) && s.mode == Review
    requires DependsOn(s, PatchDiff(s, t), k) && Cancels(s.commits[k].diff, PatchDiff(s, t))
    ensures var o := FinishPatch(s.(work := t), purpose, paths, fault);
            var queue := s.commits + [NewItem(s, t, purpose, paths)];
            && o.Failed? && o.state.commits == queue && !Apart(queue, []) && k < |s.commits|
            && (forall j | 0 <= j < |queue| :: Resolve(o.state.aliases, queue[j].id) == queue[j].id <==> k <= j)
            && (forall i, j | 0 <= i < k && 0 <= j < |queue| :: Resolve(o.state.aliases, queue[i].id) != queue[j].id)
  {
    hide Patched, Sound, Tracked, Merge, Collapse, Queued, Cancels, DependsOn, SameWork, FinishPatch, DiffOf, Apart,
         NewItem, PatchDiff, Extends, Effective, Applies, Apply, SameOutside, Resolve, Rebuild, Independent;
    DependsMeansOverlap(s, PatchDiff(s, t), k);
    OverlapsSome(s, t, purpose, paths);
    QueuedCommits(s, t, purpose, paths);
    ReviewIsCollapse(s, t, purpose, paths, fault);
    CollapseCases(s, t, purpose, paths);
    MergeOutcome(s, t, purpose, paths, k);
    StrandedNames(s, t, purpose, paths, k);
  }

  lemma QueuedCommits(s: State, t: Tree, purpose: string, paths: set<Path>)
    requires Patched(s, t, paths)
    ensures Queued(s, t, purpose, paths).commits == s.commits + [NewItem(s, t, purpose, paths)]
  {
  }

  lemma DependsMeansOverlap(s: State, d: Diff, k: nat)
    requires DependsOn(s, d, k)
    ensures k < |s.commits| && !Independent(s.commits, d)
  {
  }

  /** What the rebuild has renamed when it stops: the items before the one the patch depends on. */
  ghost predicate Renamed(before: map<Id, Id>, after: map<Id, Id>, items: seq<Item>, k: nat, floor: Id)
    requires k <= |items|
  {
    && (forall j | 0 <= j < k :: items[j].id in after && floor <= after[items[j].id])
    && (forall x | x !in IdSet(items[..k]) :: (x in after <==> x in before) && (x in before ==> after[x] == before[x]))
  }

  lemma {:induction false} StoppedAliases(b: State, rest: seq<Item>, k: nat, newest: Item)
    requires Buildable(b, rest, k, newest) && k < |rest| && Cancels(rest[k].diff, newest.diff) && Distinct(rest)
    ensures Renamed(b.aliases, Rebuild(b, rest, k, newest).state.aliases, rest, k, |b.repo|)
    decreases k
  {
    hide Buildable, RebuildStep, Cancels, Sound, Absorb, TurnTree, SameOutside;
    RebuildStepAliases(b, rest[0], k == 0, newest);
    if k == 0 {
      CancelledTurn(b, rest, newest);
      assert IdSet(rest[..0]) == {};
    } else {
      BuildTurn(b, rest, k, newest);
      var r := RebuildStep(b, rest[0], false, newest).state;
      IdsCons(rest);
      StoppedAliases(r, rest[1..], k - 1, newest);
      RebuildUnfolds(b, rest, k, newest);
      RenamedFirst(b.aliases, r.aliases, Rebuild(b, rest, k, newest).state.aliases, rest, k, |b.repo|, |r.repo|);
    }
  }

  lemma RenamedFirst(a: map<Id, Id>, b: map<Id, Id>, c: map<Id, Id>, rest: seq<Item>, k: nat, floor: Id, next: Id)
    requires 0 < k < |rest| && Distinct(rest) && b == a[rest[0].id := floor] && floor <= next
    requires Renamed(b, c, rest[1..], k - 1, next) && rest[0].id in c && c[rest[0].id] == floor
    ensures Renamed(a, c, rest, k, floor)
  {
    var front, later := rest[..k], rest[1..];
    assert front[1..] == later[..k - 1];
    IdsCons(front);
    forall j | 0 <= j < k
      ensures rest[j].id in c && floor <= c[rest[j].id]
    {
      assert j > 0 ==> rest[j] == later[j - 1];
    }
  }

  lemma StrandedNames(s: State, t: Tree, purpose: string, paths: set<Path>, k: nat)
    requires Patched(s, t, paths) && Tracked(s) && DependsOn(s, PatchDiff(s, t), k) && k < |s.commits|
    requires Cancels(s.commits[k].diff, PatchDiff(s, t))
    ensures var r := Merge(Queued(s, t, purpose, paths), k).state;
            var queue := s.commits + [NewItem(s, t, purpose, paths)];
            && (forall j | 0 <= j < |queue| :: Resolve(r.aliases, queue[j].id) == queue[j].id <==> k <= j)
            && (forall i, j | 0 <= i < k && 0 <= j < |queue| :: Resolve(r.aliases, queue[i].id) != queue[j].id)
  {
    hide Buildable, Tracked, Rebuild, Queued, Merge, MergeStart, Cancels, DependsOn, Patched, DiffOf, Sound, Applies,
         PatchDiff, Extends, SameOutside, BuildTree, IdSet, Resolve, Renamed;
    var b, newest := MergeStart(s, t, purpose, paths), NewItem(s, t, purpose, paths);
    MergeReady(s, t, purpose, paths, k);
    MergeStartFacts(s, t, purpose, paths, k);
    MergeIsRebuild(s, t, purpose, paths, k);
    StartIds(s, t, purpose, paths);
    TrackedLoose(s);
    StoppedAliases(b, s.commits, k, newest);
    RebuildStops(b, s.commits, k, newest);
    QueueNames(s, newest, k, Rebuild(b, s.commits, k, newest).state.aliases, |s.repo| + 1);
    AfterRenaming(s.aliases, Rebuild(b, s.commits, k, newest).state.aliases, s.commits + [newest], k, |s.repo|);
  }

  /** The renamed names are links to names that are neither links nor in the queue. */
  lemma AfterRenaming(before: map<Id, Id>, after: map<Id, Id>, queue: seq<Item>, k: nat, bound: Id)
    requires k < |queue| && Distinct(queue) && Renamed(before, after, queue, k, bound + 1)
    requires forall x | x in before :: x < bound
    requires forall j | 0 <= j < |queue| :: queue[j].id <= bound && queue[j].id !in before
    ensures forall j | 0 <= j < |queue| :: Resolve(after, queue[j].id) == queue[j].id <==> k <= j
    ensures forall i, j | 0 <= i < k && 0 <= j < |queue| :: Resolve(after, queue[i].id) != queue[j].id
  {
    hide Resolve;
    forall i | 0 <= i < k
      ensures forall j | 0 <= j < |queue| :: Resolve(after, queue[i].id) != queue[j].id
    {
      LinkToNowhere(after, queue[i].id);
    }
    forall j | k <= j < |queue|
      ensures Resolve(after, queue[j].id) == queue[j].id
    {
      assert queue[j].id !in IdSet(queue[..k]);
      NoLink(after, queue[j].id);
    }
  }

  lemma NoLink(aliases: map<Id, Id>, x: Id)
    requires x !in aliases
    ensures Resolve(aliases, x) == x
  {
  }

  lemma LinkToNowhere(aliases: map<Id, Id>, x: Id)
    requires x in aliases && aliases[x] !in aliases
    ensures Resolve(aliases, x) == aliases[x]
  {
    assert ResolveFrom(aliases, aliases[x], {} + {x}) == aliases[x];
  }

  lemma RebuildUnfolds(s: State, rest: seq<Item>, dep: int, newest: Item)
    requires rest != [] && RebuildStep(s, rest[0], dep == 0, newest).Done?
    ensures Rebuild(s, rest, dep, newest)
         == Rebuild(RebuildStep(s, rest[0], dep == 0, newest).state, rest[1..], dep - 1, newest)
  {
  }

  lemma StartIds(s: State, t: Tree, purpose: string, paths: set<Path>)
    ensures var b := MergeStart(s, t, purpose, paths);
            b.aliases == s.aliases && |b.repo| == |s.repo| + 1
  {
  }

  lemma QueueNames(s: State, newest: Item, k: nat, after: map<Id, Id>, floor: Id)
    requires Tracked(s) && newest.id == |s.repo| && k <= |s.commits| && Renamed(s.aliases, after, s.commits, k, floor)
    ensures var queue := s.commits + [newest];
            && Distinct(queue) && Renamed(s.aliases, after, queue, k, floor)
            && (forall x | x in s.aliases :: x < |s.repo|)
            && (forall j | 0 <= j < |queue| :: queue[j].id <= |s.repo| && queue[j].id !in s.aliases)
  {
    var queue := s.commits + [newest];
    assert queue[..k] == s.commits[..k];
    TrackedLoose(s);
  }

  // A patch that cancels all the work it is committed with.

  /** Whichever way the commit comes out empty, the queue is put back with the patch in it. */
  lemma CancelledPatchStays(s: State, t: Tree, purpose: string, paths: set<Path>, fault: Fault)
    requires Patched(s, t, paths) && s.mode == Review && NetEmpty(s, t)
    ensures var o := FinishPatch(s.(work := t), purpose, paths, fault);
            o.Failed? && o.state.commits == s.commits + [NewItem(s, t, purpose, paths)]
    ensures !Apart(s.commits + [NewItem(s, t, purpose, paths)], [])
  {
    hide Sound, Patched, Merge, Collapse, CollapseAll, Queued, Cancels, SameWork, FinishPatch, DiffOf, Apart, NewItem,
         PatchDiff, Extends, SameOutside, Independent, OnlyOverlaps;
    QueuedCommits(s, t, purpose, paths);
    ReviewIsCollapse(s, t, purpose, paths, fault);
    CollapseCases(s, t, purpose, paths);
    OverlapsSome(s, t, purpose, paths);
    if k: nat :| DependsOn(s, PatchDiff(s, t), k) {
      MergeOutcome(s, t, purpose, paths, k);
      OnlyOne(s, PatchDiff(s, t), k);
    } else {
      CollapseAllOutcome(s, t, purpose, paths);
    }
  }

  lemma OverlapsSome(s: State, t: Tree, purpose: string, paths: set<Path>)
    requires !Independent(s.commits, PatchDiff(s, t))
    ensures !Apart(s.commits + [NewItem(s, t, purpose, paths)], [])
  {
    hide DiffOf;
    var k :| 0 <= k < |s.commits| && !(PatchDiff(s, t).Keys !! s.commits[k].diff.Keys);
    var queue := s.commits + [NewItem(s, t, purpose, paths)];
    assert queue[k] == s.commits[k] && queue[|s.commits|].diff == PatchDiff(s, t);
    assert !(queue[k].diff.Keys !! queue[|s.commits|].diff.Keys);
  }

  /**
   The exact condition for a Review patch call to keep the queue invariant, its closing reset included: the
   patch does not take back all the work it is committed with, be that one queued item or the whole queue.
   */
  lemma PatchKeepsQueueIff(s: State, t: Tree, purpose: string, paths: set<Path>, answers: seq<Answer>, fault: Fault)
    requires var s1 := Sync(s, answers).state; Patched(s1, t, paths) && s1.mode == Review
    ensures Sound(PatchCall(s, t, purpose, paths, answers, fault).state, []) <==> !NetEmpty(Sync(s, answers).state, t)
  {
    hide Sync, Patched, NetEmpty, FinishPatch, Struct, Apart, Linked, SameOutside;
    var s1 := Sync(s, answers).state;
    ReviewFinish(s1, t, purpose, paths, fault);
    if NetEmpty(s1, t) {
      CancelledPatchStays(s1, t, purpose, paths, fault);
      OverlapsUnsound(PatchCall(s, t, purpose, paths, answers, fault).state);
    }
  }

  lemma OverlapsUnsound(s: State)
    requires !Apart(s.commits, [])
    ensures !Sound(s, [])
  {
  }

  // Conflict resolution.

  /**
   After a conflict only the conflicted files are carried over: a cleanly merged file of the same commit
   keeps the tip's content, so its change is dropped unless the tip already had it.
   */
  lemma ResolutionDropsCleanFiles(s: State, item: Item, answer: Answer, p: Path)
    requires Stored(s.repo, item) && CherryPick(s, item.id).Stopped? && CherryPick(s, item.id).conflicts != {}
    requires answer.Answered? && CoversOnce(CherryPick(s, item.id).conflicts, answer.files)
    requires p in item.diff && p !in CherryPick(s, item.id).conflicts
    ensures Get(Resolved(s, answer.files), p) == item.diff[p].after <==> Get(TreeOf(s, s.head), p) == item.diff[p].after
    ensures Get(TreeOf(s, s.head), p) == item.diff[p].before || Get(TreeOf(s, s.head), p) == item.diff[p].after
  {
    hide CherryPick, Stored, Blocked, Overwrite;
    PickByDiff(s, item);
    assert !Collides(item.diff, TreeOf(s, s.head), p);
    OverwriteElsewhere(TreeOf(s, s.head), answer.files, p);
  }
}
