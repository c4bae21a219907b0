/**
 The coordinator in the form of crates/code/src/git.rs: an object whose methods change the worktree, the
 parent and the queue in place.  Each method is proved to take the state where the specification says.
 */
module Coordinator {
  import opened Wrappers
  import opened GitModel
  import opened ReviewSpec
  import Spec = ReviewSpec
  import opened Runs
  import opened Modes
  import Resolver

  lemma {:induction false} ReplayAllSnoc(s: State, items: seq<Item>, item: Item)
    ensures Spec.ReplayAll(s, items + [item]) == ReplayStep(Spec.ReplayAll(s, items), item)
    decreases |items|
  {
    hide ReplayStep;
    if items == [] {
      assert [] + [item] == [item] && [item][1..] == [];
      assert Spec.ReplayAll(ReplayStep(s, item), []) == ReplayStep(s, item);
    } else {
      assert (items + [item])[1..] == items[1..] + [item];
      ReplayAllSnoc(ReplayStep(s, items[0]), items[1..], item);
    }
  }

  lemma ReplayNone(s: State, items: seq<Item>)
    ensures Spec.ReplayAll(s, items[..0]) == s
  {
    assert items[..0] == [];
  }

  lemma NothingWritten(t: Tree, files: seq<ConflictFile>)
    ensures Overwrite(t, files[..0]) == t
  {
    assert files[..0] == [];
  }

  lemma OneMoreWritten(t: Tree, files: seq<ConflictFile>, i: nat)
    requires i < |files|
    ensures Overwrite(t, files[..i + 1])
         == match files[i].content
            case Some(content) => Overwrite(t, files[..i])[files[i].path := content]
            case None => Overwrite(t, files[..i]) - {files[i].path}
  {
    assert files[..i + 1][..i] == files[..i];
  }

  /** Where a replay is when it stops after picking item k - 1. */
  function BrokenReplay(s: State, items: seq<Item>, k: nat): State
    requires 0 < k <= |items|
  {
    var s1 := Spec.ReplayAll(s, items[..k - 1]);
    match CherryPick(s1, items[k - 1].id)
    case Picked(s2) => s2
    case Stopped(_) => s1
  }

  class GitState {
    // The object store, the parent's working tree and the session worktree with its HEAD.
    var repo: seq<Commit>
    var parent: Tree
    var head: Id
    var work: Tree

    // The fields of the coordinator.
    var baseline: Id
    var observed: Id
    var mode: Mode
    var commits: seq<Item>
    var aliases: map<Id, Id>

    /** What happened so far; no method reads it. */
    ghost var history: History

    ghost function View(): State
      reads this
    {
      State(repo, parent, head, work, baseline, observed, mode, commits, aliases, history)
    }

    constructor (tree: Tree)
      ensures View() == Spec.Open(tree)
      ensures mode == ReadOnly && commits == [] && aliases == map[] && parent == work == tree
      ensures head == baseline == observed < |repo| && TreeAt(repo, head) == tree && history.ledger == []
    {
      repo, parent, head, work := [Commit(None, tree)], tree, 0, tree;
      baseline, observed, mode := 0, 0, ReadOnly;
      commits, aliases := [], map[];
      history := History([], multiset{}, multiset{}, multiset{}, [], map[], map[]);
    }

    // Git commands.

    /** `git reset --hard`, with what the index holds. */
    method ResetFrom(id: Id, index: Tree)
      modifies this
      ensures View() == Spec.ResetFrom(old(View()), id, index)
    {
      work := (work - index.Keys) + TreeAt(repo, id);
      head := id;
    }

    method ResetHard(id: Id)
      modifies this
      ensures View() == Spec.ResetHard(old(View()), id)
    {
      ResetFrom(id, TreeAt(repo, head));
    }

    method GitCommit() returns (ok: bool)
      modifies this
      ensures match CommitWork(old(View()))
              case Some(s) => ok && View() == s
              case None => !ok && View() == old(View())
    {
      ok := work != TreeAt(repo, head);
      if ok {
        repo, head := repo + [Commit(Some(head), work)], |repo|;
      }
    }

    method GitCherryPick(id: Id) returns (ok: bool, conflicts: set<Path>)
      modifies this
      ensures match CherryPick(old(View()), id)
              case Picked(s) => ok && View() == s
              case Stopped(c) => !ok && conflicts == c && View() == old(View())
    {
      hide ConflictPaths, MergeTrees, Obstructed, UpTree, TreeAt;
      var base, ours, theirs := UpTree(repo, id), TreeAt(repo, head), TreeAt(repo, id);
      conflicts := ConflictPaths(base, ours, theirs);
      var merged := MergeTrees(base, ours, theirs);
      var strays := work - ours.Keys;
      if Obstructed(strays, base, theirs) {
        return false, {};
      }
      ok := conflicts == {} && merged != ours;
      if ok {
        repo, head, work := repo + [Commit(Some(head), merged)], |repo|, strays + merged;
        history := history.(origins := history.origins[head := id]);
      }
    }

    method SnapshotParent() returns (id: Id)
      modifies this
      ensures View() == Snapshot(old(View())) && id == old(|repo|)
    {
      id := |repo|;
      repo := repo + [Commit(None, parent)];
    }

    method ApplyPatchToParent(d: Diff) returns (ok: bool)
      modifies this
      ensures match ApplyToParent(old(View()), d)
              case Some(s) => ok && View() == s
              case None => !ok && View() == old(View())
    {
      ok := Applies(d, parent);
      if ok {
        parent := Apply(d, parent);
      }
    }

    method ApplyPatchToWorktree(d: Diff) returns (ok: bool)
      modifies this
      ensures match ApplyToWork(old(View()), d)
              case Some(s) => ok && View() == s
              case None => !ok && View() == old(View())
    {
      ok := Applies(d, work);
      if ok {
        work := Apply(d, work);
      }
    }

    method ReversePatchOnParent(d: Diff) returns (ok: bool)
      modifies this
      ensures match ReverseOnParent(old(View()), d)
              case Some(s) => ok && View() == s
              case None => !ok && View() == old(View())
    {
      ok := ApplyPatchToParent(Reverse(d));
    }

    /** Queues HEAD as the new form of an item. */
    method PushHead(item: Item)
      modifies this
      ensures View() == Spec.PushHead(old(View()), item)
    {
      var moved := item.(id := head, diff := DiffOf(UpTree(repo, head), TreeAt(repo, head)));
      commits := commits + [moved];
      history := history.(shown := history.shown[moved.id := moved]);
    }

    method LinkAlias(was: Id, now: Id)
      modifies this
      ensures View() == Spec.Alias(old(View()), was, now)
    {
      aliases := aliases[was := now];
    }

    /** The sensory message about a commit that could not be replayed. */
    method ReportLost(item: Item)
      modifies this
      ensures View() == Lose(old(View()), item)
    {
      history := history.(lost := history.lost + [item]);
    }

    // Replay.

    method ResetToTip()
      modifies this
      ensures View() == Spec.ResetHard(old(View()), Tip(old(View())))
    {
      ResetHard(if commits == [] then baseline else commits[|commits| - 1].id);
    }

    method ReplayItem(item: Item)
      modifies this
      ensures View() == ReplayStep(old(View()), item)
    {
      hide ConflictPaths, MergeTrees;
      var picked, _ := GitCherryPick(item.id);
      if picked {
        LinkAlias(item.id, head);
        PushHead(item);
      } else {
        ResetToTip();
        ReportLost(item);
      }
    }

    /** The replay loop; a fault may stop it after an item's pick. */
    method ReplayItems(items: seq<Item>, fault: Fault) returns (ok: bool)
      requires fault != AtReplay(0)
      modifies this
      ensures ok == !(fault.AtReplay? && fault.k <= |items|)
      ensures ok ==> View() == Spec.ReplayAll(old(View()), items)
      ensures !ok ==> View() == BrokenReplay(old(View()), items, fault.k)
    {
      hide ReplayStep, Spec.ReplayAll, CherryPick;
      ReplayNone(View(), items);
      for i := 0 to |items|
        invariant View() == Spec.ReplayAll(old(View()), items[..i])
        invariant fault.AtReplay? ==> fault.k > i
      {
        if fault == AtReplay(i + 1) {
          var _, _ := GitCherryPick(items[i].id);
          return false;
        }
        ReplayItem(items[i]);
        assert items[..i + 1] == items[..i] + [items[i]];
        ReplayAllSnoc(old(View()), items[..i], items[i]);
      }
      assert items[..|items|] == items;
      return true;
    }

    method ReplayOnto(base: Id, fault: Fault) returns (ok: bool)
      modifies this
      ensures View() == Spec.ReplayOnto(old(View()), base, fault).state
      ensures ok == Spec.ReplayOnto(old(View()), base, fault).Done?
    {
      hide Spec.ReplayAll, CherryPick;
      var items := commits;
      commits := [];
      if fault == AtReplay(0) {
        return false;
      }
      ResetHard(base);
      baseline := base;
      ok := ReplayItems(items, fault);
      if ok && commits == [] {
        aliases := map[];
      }
    }

    // Synchronization.

    /** Writes the resolver's files as far as that goes, and adds them to the index if it went through. */
    method ApplyConflictResolution(conflicts: set<Path>, answer: Answer) returns (ok: bool, index: Tree)
      requires answer.Answered?
      modifies this
      ensures ok == Acceptable(old(View()), conflicts, answer)
      ensures ok <==>
                && Resolver.EachOnce(conflicts, answer.files) && answer.staged
                && forall f | f in answer.files ::
                     Resolver.Clean(f.content) && Resolver.HasPlace(old(View()), f.path, f.content.None?)
      ensures View() == if CoversOnce(conflicts, answer.files) then WriteFiles(old(View()), answer.files) else old(View())
      ensures index == if CoversOnce(conflicts, answer.files) && Lands(old(View()), answer.files)
                       then Resolved(old(View()), answer.files) else TreeAt(repo, head)
    {
      hide Overwrite, CanTake, Known, Resolver.Clean, Resolver.HasPlace, Resolver.EachOnce;
      Resolver.TakenIff(View(), conflicts, answer);
      var files, start := answer.files, work;
      index := TreeAt(repo, head);
      if !CoversOnce(conflicts, files) {
        return false, index;
      }
      NothingWritten(work, files);
      for i := 0 to |files|
        invariant View() == old(View()).(work := work)
        invariant work == Overwrite(start, files[..i])
        invariant forall j | 0 <= j < i :: CanTake(start, files[j])
      {
        var file := files[i];
        if !CanTake(start, file) {
          return false, index;
        }
        OneMoreWritten(start, files, i);
        match file.content
        case Some(content) =>
          work := work[file.path := content];
        case None =>
          work := work - {file.path};
      }
      assert files[..|files|] == files;
      if !Known(TreeAt(repo, head), files) {
        return false, index;
      }
      index := Overwrite(TreeAt(repo, head), files);
      return answer.staged, index;
    }

    method CommitStaged(index: Tree)
      modifies this
      ensures View() == CommitIndex(old(View()), index)
    {
      repo, head := repo + [Commit(Some(head), index)], |repo|;
    }

    method ReplayItemWithResolver(item: Item, answer: Answer) returns (changed: bool)
      modifies this
      ensures View() == ResolveStep(old(View()), item, answer)
      ensures changed == CherryPick(old(View()), item.id).Stopped?
    {
      hide ConflictPaths, MergeTrees, Overwrite, Lands, Reach, Obstructed;
      var picked, conflicts := GitCherryPick(item.id);
      if picked {
        LinkAlias(item.id, head);
        PushHead(item);
        return false;
      }
      changed := true;
      if conflicts == {} || answer.NoAnswer? {
        ReportLost(item);
        return;
      }
      var ok, index := ApplyConflictResolution(conflicts, answer);
      if ok && index != TreeAt(repo, head) {
        CommitStaged(index);
        PushHead(item);
        return;
      }
      ResetFrom(if commits == [] then baseline else commits[|commits| - 1].id, index);
      ReportLost(item);
    }

    method ReplayWithResolver(items: seq<Item>, answers: seq<Answer>) returns (changed: bool)
      modifies this
      ensures View() == SyncLoop(old(View()), items, answers)
      ensures changed == SyncChanged(old(View()), items, answers)
    {
      hide ResolveStep, CherryPick;
      changed := false;
      var pending := answers;
      for i := 0 to |items|
        invariant SyncLoop(View(), items[i..], pending) == SyncLoop(old(View()), items, answers)
        invariant (changed || SyncChanged(View(), items[i..], pending)) == SyncChanged(old(View()), items, answers)
      {
        assert items[i..][0] == items[i] && items[i..][1..] == items[i + 1..];
        var itemChanged := ReplayItemWithResolver(items[i], FirstAnswer(pending));
        changed := changed || itemChanged;
        pending := LaterAnswers(pending);
      }
    }

    /** `resets` says whether the reset to the new snapshot succeeds. */
    method SyncWithResolver(answers: seq<Answer>, resets: bool) returns (ok: bool, changed: bool)
      modifies this
      ensures ok == (resets || old(parent) == TreeOf(Snapshot(old(View())), old(observed)))
      ensures ok ==> View() == Sync(old(View()), answers).state && changed == Sync(old(View()), answers).changed
      ensures !ok ==> View() == CutSync(old(View()))
    {
      hide SyncLoop, SyncChanged, DiffOf;
      var next := SnapshotParent();
      ok, changed := true, false;
      if TreeAt(repo, next) == TreeAt(repo, observed) {
        return;
      }
      var external := DiffOf(TreeAt(repo, observed), TreeAt(repo, next));
      var items := commits;
      commits := [];
      if !resets {
        return false, false;
      }
      ResetHard(next);
      baseline := next;
      changed := ReplayWithResolver(items, answers);
      observed := next;
      if commits == [] {
        aliases := map[];
      }
      history := history.(ledger := history.ledger + [External(external)]);
    }

    // Apply, Discard, Apply all, modes.

    method ResolveAlias(id: Id) returns (current: Id)
      ensures current == Resolve(aliases, id)
    {
      current := id;
      var seen: set<Id> := {};
      while current !in seen
        invariant ResolveFrom(aliases, current, seen) == Resolve(aliases, id)
        decreases aliases.Keys - seen, current !in seen && current !in aliases
      {
        if current !in aliases {
          break;
        }
        assert current in aliases.Keys - seen;
        seen := seen + {current};
        current := aliases[current];
      }
    }

    method AdoptParentAndReplay(fault: Fault) returns (ok: bool)
      modifies this
      ensures View() == Adopt(old(View()), fault).state
      ensures ok == Adopt(old(View()), fault).Done?
    {
      hide Spec.ReplayOnto;
      if fault == AtSnapshot {
        return false;
      }
      var snapshot := SnapshotParent();
      observed := snapshot;
      ok := ReplayOnto(snapshot, fault);
    }

    /** Undoes the patch and rebuilds the saved queue on the saved baseline. */
    method RollBack(d: Diff, saved: seq<Item>, base: Id)
      modifies this
      ensures View() == Rollback(old(View()), d, saved, base)
    {
      hide Spec.ReplayOnto, Apply, Applies;
      var reversed := ReversePatchOnParent(d);
      if reversed {
        commits := saved;
        var _ := ReplayOnto(base, NoFault);
      }
    }

    method ApplyOne(name: Id, fault: Fault) returns (ok: bool)
      modifies this
      ensures View() == Spec.ApplyOne(old(View()), name, fault).state
      ensures ok == Spec.ApplyOne(old(View()), name, fault).Done?
    {
      hide Adopt, Rollback, Apply, Resolve, Purposes;
      var id := ResolveAlias(name);
      var index := Position(commits, id);
      if index == |commits| {
        return false;
      }
      var item, saved, base := commits[index], commits, baseline;
      ok := ApplyPatchToParent(item.diff);
      if !ok {
        return;
      }
      commits := RemoveAt(commits, index);
      ok := AdoptParentAndReplay(fault);
      if !ok {
        RollBack(item.diff, saved, base);
        return;
      }
      history := history.(applied := history.applied + Purposes([item]), ledger := history.ledger + [Own(item.diff)]);
    }

    method DiscardOne(name: Id, fault: Fault) returns (ok: bool)
      modifies this
      ensures View() == Spec.DiscardOne(old(View()), name, fault).state
      ensures ok == Spec.DiscardOne(old(View()), name, fault).Done?
    {
      hide Spec.ReplayOnto, Resolve, Purposes;
      var id := ResolveAlias(name);
      var index := Position(commits, id);
      if index == |commits| {
        return false;
      }
      history := history.(discarded := history.discarded + Purposes([commits[index]]));
      commits := RemoveAt(commits, index);
      ok := ReplayOnto(baseline, fault);
    }

    method ApplyAll(fault: Fault) returns (ok: bool)
      modifies this
      ensures View() == Spec.ApplyAll(old(View()), fault).state
      ensures ok == Spec.ApplyAll(old(View()), fault).Done?
    {
      hide Adopt, Rollback, Apply, Purposes, DiffOf, Matches, TreeAt;
      if commits == [] {
        return true;
      }
      var tip := commits[|commits| - 1].id;
      var d := DiffOf(TreeAt(repo, baseline), TreeAt(repo, tip));
      var saved, base := commits, baseline;
      ok := ApplyPatchToParent(d);
      if !ok {
        return;
      }
      commits := [];
      ok := AdoptParentAndReplay(fault);
      if !ok {
        RollBack(d, saved, base);
        return;
      }
      history := history.(applied := history.applied + Purposes(saved), ledger := history.ledger + [Own(d)]);
    }

    method SetMode(target: Mode, fault: Fault) returns (ok: bool)
      modifies this
      ensures View() == ChangeMode(old(View()), target, fault).state
      ensures ok == ChangeMode(old(View()), target, fault).Done?
      ensures mode == if ok then target else old(mode)
      ensures ok && old(mode) == Review && target == Write ==> commits == []
      ensures !(old(mode) == Review && target == Write) ==> ok && View() == old(View()).(mode := target)
    {
      hide Spec.ApplyAll;
      SetModeArrives(View(), target, fault);
      if mode == target {
        return true;
      }
      if mode == Review && target == Write {
        ok := ApplyAll(fault);
        if !ok {
          return;
        }
      }
      mode := target;
      return true;
    }

    method HandleControlWithResolver(control: Control, answers: seq<Answer>, fault: Fault) returns (ok: bool)
      modifies this
      ensures View() == HandleControl(old(View()), control, answers, fault).state
      ensures ok == HandleControl(old(View()), control, answers, fault).Done?
    {
      hide Sync, ChangeMode, Spec.ApplyOne, Spec.DiscardOne, Spec.ApplyAll;
      var _, changed := SyncWithResolver(answers, true);
      if changed && (control == ApplyQueue || control == Control.SetMode(Write)) {
        return true;
      }
      match control
      case SetMode(target) => ok := SetMode(target, fault);
      case ApplyCommit(id) => ok := ApplyOne(id, fault);
      case DiscardCommit(id) => ok := DiscardOne(id, fault);
      case ApplyQueue => ok := ApplyAll(fault);
    }

    // Finishing a patch.

    method RebuildItems(items: seq<Item>, dependency: int, newest: Item) returns (ok: bool)
      modifies this
      ensures View() == Rebuild(old(View()), items, dependency, newest).state
      ensures ok == Rebuild(old(View()), items, dependency, newest).Done?
    {
      hide RebuildStep;
      for i := 0 to |items|
        invariant Rebuild(View(), items[i..], dependency - i, newest) == Rebuild(old(View()), items, dependency, newest)
      {
        assert items[i..][0] == items[i] && items[i..][1..] == items[i + 1..];
        ok := RebuildItem(items[i], i == dependency, newest);
        if !ok {
          return;
        }
      }
      return true;
    }

    /** The queue field holds the rebuilt items meanwhile; a failure puts the original ones back. */
    method MergeDependencyComponent(dependency: nat) returns (ok: bool)
      requires commits != []
      modifies this
      ensures View() == Merge(old(View()), dependency).state
      ensures ok == Merge(old(View()), dependency).Done?
    {
      hide Rebuild;
      var original := commits;
      var n := |original| - 1;
      ResetHard(baseline);
      commits := [];
      ok := RebuildItems(original[..n], dependency, original[n]);
      if !ok {
        ResetHard(original[n].id);
        commits := original;
      }
    }

    method RebuildItem(item: Item, fold: bool, newest: Item) returns (ok: bool)
      modifies this
      ensures View() == RebuildStep(old(View()), item, fold, newest).state
      ensures ok == RebuildStep(old(View()), item, fold, newest).Done?
    {
      hide Apply, Applies, DiffOf;
      ok := ApplyPatchToWorktree(item.diff);
      if ok && fold {
        ok := ApplyPatchToWorktree(newest.diff);
      }
      if ok {
        ok := GitCommit();
      }
      if ok {
        if !fold {
          history := history.(origins := history.origins[head := item.id]);
          LinkAlias(item.id, head);
        }
        PushHead(if fold then FoldItem(item, newest) else item);
      }
    }

    method CollapseDependentCommits() returns (ok: bool)
      modifies this
      ensures View() == Collapse(old(View())).state
      ensures ok == Collapse(old(View())).Done?
    {
      hide Merge, Applies, FindDependency, AllPurposes, AllPaths, DiffOf;
      if |commits| < 2 {
        return true;
      }
      var n := |commits| - 1;
      var newest, base := commits[n].diff, TreeAt(repo, baseline);
      if Applies(newest, base) {
        return true;
      }
      var dependency := FindDependency(commits[..n], base, newest);
      if dependency < n {
        ok := MergeDependencyComponent(dependency);
        return;
      }
      var purposes, paths := AllPurposes(commits), AllPaths(commits);
      head := baseline;
      ok := GitCommit();
      if ok {
        commits := [];
        PushHead(Item(head, purposes, map[], paths));
      }
    }

    /** The patch transaction has left its result in the worktree. */
    method FinishPatch(purpose: string, paths: set<Path>, fault: Fault) returns (ok: bool)
      modifies this
      ensures View() == Spec.FinishPatch(old(View()), purpose, paths, fault).state
      ensures ok == Spec.FinishPatch(old(View()), purpose, paths, fault).Done?
    {
      hide Collapse, Apply, Applies, DiffOf;
      if mode == ReadOnly {
        ResetHard(head);
        return false;
      }
      ok := GitCommit();
      if !ok {
        return;
      }
      if mode == Write {
        ok := FinishWrite(fault);
        return;
      }
      PushHead(Item(head, [purpose], map[], paths));
      history := history.(committed := history.committed + multiset{purpose});
      ok := CollapseDependentCommits();
    }

    method FinishWrite(fault: Fault) returns (ok: bool)
      modifies this
      ensures View() == Spec.FinishWrite(old(View()), fault).state
      ensures ok == Spec.FinishWrite(old(View()), fault).Done?
    {
      hide Apply, Applies, DiffOf;
      var d := DiffOf(UpTree(repo, head), TreeAt(repo, head));
      ok := ApplyPatchToParent(d);
      if !ok {
        ResetHard(baseline);
        return;
      }
      var snapshot := |repo|;
      if fault != AtSnapshot {
        snapshot := SnapshotParent();
      }
      if fault != NoFault {
        var reversed := ReversePatchOnParent(d);
        if reversed {
          ResetHard(baseline);
        }
        return false;
      }
      ResetHard(snapshot);
      baseline, observed := snapshot, snapshot;
      history := history.(ledger := history.ledger + [Own(d)]);
    }

    /**
     One whole command is one step of the machine, so every guarded sequence of calls keeps the queue invariant.
     `tree` is what the patch transaction leaves when there is one.
     */
    method Execute(c: Command)
      modifies this
      ensures View() == Step(old(View()), c)
      ensures Invariant(old(View())) && Guarded(old(View()), c) ==> Invariant(View())
    {
      hide Sync, HandleControl, Spec.FinishPatch, DiffOf, Invariant, Guarded;
      if Invariant(View()) && Guarded(View(), c) {
        StepInvariant(View(), c);
      }
      match c
      case UserEdit(tree) =>
        history := history.(ledger := history.ledger + [Edited(DiffOf(parent, tree))]);
        parent := tree;
      case Trigger(answers) =>
        var _, _ := SyncWithResolver(answers, true);
      case Press(control, answers, fault) =>
        var _ := HandleControlWithResolver(control, answers, fault);
      case CallPatch(tree, purpose, paths, answers, fault) =>
        var _, _ := SyncWithResolver(answers, true);
        if mode != ReadOnly {
          work := tree;
          var ok := FinishPatch(purpose, paths, fault);
          if !ok {
            ResetHard(head);
          }
        }
    }
  }
}
