/** No review work is lost track of: every committed purpose is pending, applied, discarded or reported lost, once. */
module Conservation {
  import opened Wrappers
  import opened GitModel
  import opened ReviewSpec
  import opened Queue
  import opened Clean
  import opened Ledger

  /** The work still on its way: queued or still to be replayed, or already reported lost. */
  function Pending(s: State): multiset<string> {
    Purposes(s.commits) + Purposes(s.history.lost)
  }

  predicate Balanced(s: State) {
    s.history.committed == s.history.applied + s.history.discarded + Pending(s)
  }

  // Counting purposes.

  lemma Snoc(items: seq<Item>, item: Item)
    ensures Purposes(items + [item]) == Purposes(items) + multiset(item.purposes)
  {
  }

  lemma {:induction false} Concat(a: seq<Item>, b: seq<Item>)
    ensures Purposes(a + b) == Purposes(a) + Purposes(b)
  {
    if b == [] {
      assert a + b == a;
    } else {
      var init := b[..|b| - 1];
      assert (a + b)[..|a + b| - 1] == a + init;
      Concat(a, init);
    }
  }

  lemma {:induction false} SameWorkSamePurposes(a: seq<Item>, b: seq<Item>)
    requires SameWork(a, b)
    ensures Purposes(a) == Purposes(b)
  {
    if a != [] {
      var n := |a| - 1;
      assert SameItem(a[n], b[n]);
      forall i | 0 <= i < n
        ensures SameItem(a[..n][i], b[..n][i])
      {
        assert SameItem(a[i], b[i]);
      }
      SameWorkSamePurposes(a[..n], b[..n]);
    }
  }

  lemma One(item: Item)
    ensures Purposes([item]) == multiset(item.purposes)
  {
  }

  lemma First(items: seq<Item>)
    requires items != []
    ensures Purposes(items) == multiset(items[0].purposes) + Purposes(items[1..])
  {
    assert items == [items[0]] + items[1..];
    Concat([items[0]], items[1..]);
    One(items[0]);
  }

  lemma Removed(items: seq<Item>, k: nat)
    requires k < |items|
    ensures Purposes(items) == Purposes(RemoveAt(items, k)) + multiset(items[k].purposes)
  {
    hide Purposes;
    assert items == (items[..k] + [items[k]]) + items[k + 1..];
    Concat(items[..k] + [items[k]], items[k + 1..]);
    Snoc(items[..k], items[k]);
    Concat(items[..k], items[k + 1..]);
  }

  lemma {:induction false} AllCounted(items: seq<Item>)
    ensures multiset(AllPurposes(items)) == Purposes(items)
  {
    if items != [] {
      AllCounted(items[..|items| - 1]);
    }
  }

  // Replay moves work from the items set aside to the queue or to the lost ones.

  lemma PushHeadPending(s: State, item: Item)
    ensures Pending(PushHead(s, item)) == Pending(s) + multiset(item.purposes)
  {
  }

  lemma PickPending(s: State, id: Id)
    ensures CherryPick(s, id).Picked? ==>
              && CherryPick(s, id).state.commits == s.commits
              && CherryPick(s, id).state.history.(origins := s.history.origins) == s.history
  {
  }

  lemma LosePending(s: State, item: Item)
    ensures Pending(Lose(s, item)) == Pending(s) + multiset(item.purposes)
    ensures Pending(Lose(ResetHard(s, Tip(s)), item)) == Pending(s) + multiset(item.purposes)
  {
  }

  lemma ReplayStepPending(s: State, item: Item)
    ensures Pending(ReplayStep(s, item)) == Pending(s) + multiset(item.purposes)
  {
    hide CherryPick, PushHead, Lose, ResetHard, Purposes;
    LosePending(s, item);
    PickPending(s, item.id);
    match CherryPick(s, item.id)
    case Picked(s1) => PushHeadPending(Alias(s1, item.id, s1.head), item);
    case Stopped(_) =>
  }

  lemma {:induction false} ReplayAllPending(s: State, rest: seq<Item>)
    ensures Pending(ReplayAll(s, rest)) == Pending(s) + Purposes(rest)
    decreases |rest|
  {
    if rest != [] {
      hide ReplayStep, Pending;
      ReplayStepPending(s, rest[0]);
      ReplayAllPending(ReplayStep(s, rest[0]), rest[1..]);
      First(rest);
    }
  }

  lemma ReplayOntoPending(s: State, base: Id)
    ensures Pending(ReplayOnto(s, base, NoFault).state) == Pending(s)
  {
    hide ReplayAll;
    ReplayAllPending(StartReplay(s, base), s.commits);
    assert Purposes([]) == multiset{};
  }

  lemma ResolveStepPending(s: State, item: Item, answer: Answer)
    ensures Pending(ResolveStep(s, item, answer)) == Pending(s) + multiset(item.purposes)
  {
    hide Acceptable, Overwrite, CherryPick, PushHead, Lose, ResetHard, Purposes, GiveUp, CoversOnce, Lands, Reach;
    LosePending(s, item);
    PickPending(s, item.id);
    match CherryPick(s, item.id)
    case Picked(s1) => PushHeadPending(Alias(s1, item.id, s1.head), item);
    case Stopped(conflicts) =>
      if answer.Answered? {
        LosePending(GiveUp(s, answer.files), item);
        GiveUpPending(s, answer.files);
        PushHeadPending(CommitIndex(WriteFiles(s, answer.files), Resolved(s, answer.files)), item);
      }
  }

  lemma GiveUpPending(s: State, files: seq<ConflictFile>)
    ensures Pending(GiveUp(s, files)) == Pending(s)
  {
    hide Overwrite, Lands, Reach;
  }

  lemma {:induction false} SyncLoopPending(s: State, rest: seq<Item>, answers: seq<Answer>)
    ensures Pending(SyncLoop(s, rest, answers)) == Pending(s) + Purposes(rest)
    decreases |rest|
  {
    if rest != [] {
      hide ResolveStep, Pending;
      ResolveStepPending(s, rest[0], FirstAnswer(answers));
      SyncLoopPending(ResolveStep(s, rest[0], FirstAnswer(answers)), rest[1..], LaterAnswers(answers));
      First(rest);
    }
  }

  lemma SyncBalanced(s: State, answers: seq<Answer>)
    requires Balanced(s)
    ensures Balanced(Sync(s, answers).state)
  {
    hide SyncLoop, SyncChanged, Purposes, TreeOf, DiffOf, Extends;
    var s2 := StartReplay(Snapshot(s), |s.repo|);
    SyncLoopPending(s2, s.commits, answers);
    SyncLoopFrame(s2, s.commits, answers);
    NoPurposes();
  }

  // Apply, Discard and Apply all.

  lemma FinishApplyPending(s: State, d: Diff, rest: seq<Item>)
    ensures Pending(FinishApply(s, d, rest, NoFault).state) == Purposes(rest) + Purposes(s.history.lost)
  {
    hide ReplayOnto, Apply;
    var snap := Snapshot(s.(parent := Apply(d, s.parent), commits := rest)).(observed := |s.repo|);
    ReplayOntoPending(snap, |s.repo|);
    ReplaySucceeds(snap, |s.repo|);
  }

  lemma ApplyOneBalanced(s: State, id: Id)
    requires Balanced(s)
    ensures Balanced(ApplyOne(s, id, NoFault).state)
  {
    hide FinishApply, RemoveAt, Position, Resolve, Applies, Purposes;
    var k := Position(s.commits, Resolve(s.aliases, id));
    if k < |s.commits| && Applies(s.commits[k].diff, s.parent) {
      Removed(s.commits, k);
      One(s.commits[k]);
      FinishApplyPending(s, s.commits[k].diff, RemoveAt(s.commits, k));
      FinishApplyFrame(s, s.commits[k].diff, RemoveAt(s.commits, k));
    }
  }

  lemma DiscardBalanced(s: State, id: Id)
    requires Balanced(s)
    ensures Balanced(DiscardOne(s, id, NoFault).state)
  {
    hide ReplayOnto, RemoveAt, Position, Resolve, Purposes;
    var k := Position(s.commits, Resolve(s.aliases, id));
    if k < |s.commits| {
      Removed(s.commits, k);
      One(s.commits[k]);
      var s1 := s.(commits := RemoveAt(s.commits, k),
                   history := s.history.(discarded := s.history.discarded + Purposes([s.commits[k]])));
      ReplayOntoPending(s1, s.baseline);
      ReplayOntoFrame(s1, s.baseline);
    }
  }

  lemma ApplyAllBalanced(s: State)
    requires Balanced(s)
    ensures Balanced(ApplyAll(s, NoFault).state)
  {
    hide FinishApply, Applies, QueueDiff, Purposes;
    if s.commits != [] && Applies(QueueDiff(s), s.parent) {
      FinishApplyPending(s, QueueDiff(s), []);
      FinishApplyFrame(s, QueueDiff(s), []);
      NoPurposes();
    }
  }

  lemma NoPurposes()
    ensures Purposes([]) == multiset{}
  {
  }

  lemma DispatchBalanced(s: State, control: Control)
    requires Balanced(s)
    ensures Balanced(Dispatch(s, control, NoFault).state)
  {
    hide ApplyOne, DiscardOne, ApplyAll, Purposes;
    match control
    case SetMode(mode) => ApplyAllBalanced(s);
    case ApplyCommit(id) => ApplyOneBalanced(s, id);
    case DiscardCommit(id) => DiscardBalanced(s, id);
    case ApplyQueue => ApplyAllBalanced(s);
  }

  // Finishing a patch.

  lemma RebuildStepPending(s: State, item: Item, fold: bool, newest: Item)
    ensures var o := RebuildStep(s, item, fold, newest);
            && o.state.history.lost == s.history.lost
            && (o.Done? ==> Pending(o.state) == Pending(s) + multiset(item.purposes)
                                              + (if fold then multiset(newest.purposes) else multiset{}))
  {
    hide Applies, Apply, TreeOf, PushHead, Purposes;
    var o := RebuildStep(s, item, fold, newest);
    if o.Done? {
      var s1 := ApplyToWork(s, item.diff).value;
      if fold {
        var s2 := CommitWork(ApplyToWork(s1, newest.diff).value).value;
        PushHeadPending(s2, FoldItem(item, newest));
        PushHeadKeeps(s2, FoldItem(item, newest));
      } else {
        var s2 := CommitWork(s1).value;
        var s3 := Alias(MadeFrom(s2, item.id), item.id, s2.head);
        PushHeadPending(s3, item);
        PushHeadKeeps(s3, item);
      }
    }
  }

  lemma PushHeadKeeps(s: State, item: Item)
    ensures PushHead(s, item).history.lost == s.history.lost
  {
  }

  lemma {:induction false} RebuildPending(s: State, rest: seq<Item>, dep: int, newest: Item)
    ensures var o := Rebuild(s, rest, dep, newest);
            && o.state.history.lost == s.history.lost
            && (o.Done? ==> Pending(o.state) == Pending(s) + Purposes(rest)
                             + (if 0 <= dep < |rest| then multiset(newest.purposes) else multiset{}))
    decreases |rest|
  {
    hide RebuildStep, Pending;
    if rest != [] {
      RebuildStepPending(s, rest[0], dep == 0, newest);
      var o := RebuildStep(s, rest[0], dep == 0, newest);
      if o.Done? {
        RebuildPending(o.state, rest[1..], dep - 1, newest);
        First(rest);
      }
    }
  }

  lemma MergePending(s: State, k: nat)
    requires k < |s.commits| - 1
    ensures Pending(Merge(s, k).state) == Pending(s)
  {
    hide Rebuild, Purposes;
    var n := |s.commits| - 1;
    var b := ResetHard(s.(commits := []), s.baseline);
    RebuildPending(b, s.commits[..n], k, s.commits[n]);
    NoPurposes();
    Removed(s.commits, n);
    assert RemoveAt(s.commits, n) == s.commits[..n];
  }

  lemma CollapsePending(s: State)
    ensures Pending(Collapse(s).state) == Pending(s)
  {
    hide Merge, Applies, FindDependency, Show, Purposes, AllPurposes, AllPaths;
    if |s.commits| >= 2 {
      var n := |s.commits| - 1;
      var k := FindDependency(s.commits[..n], TreeOf(s, s.baseline), s.commits[n].diff);
      if k < n {
        MergePending(s, k);
      }
      AllCounted(s.commits);
      var commit := CommitWork(ResetSoft(s, s.baseline));
      if commit.Some? {
        var s1 := commit.value;
        var whole := Item(s1.head, AllPurposes(s.commits), Show(s1, s1.head), AllPaths(s.commits));
        One(whole);
        assert [] + [whole] == [whole];
      }
    }
  }

  lemma FinishBalanced(s: State, tree: Tree, purpose: string, paths: set<Path>, fault: Fault)
    requires Balanced(s)
    ensures Balanced(FinishPatch(s.(work := tree), purpose, paths, fault).state)
  {
    hide Collapse, Show, Purposes, Applies, Apply, FinishWrite;
    if s.mode != ReadOnly && tree != TreeOf(s, s.head) {
      var s1 := CommitTree(s, tree);
      assert CommitWork(s.(work := tree)) == Some(s1);
      if s.mode == Write {
        WriteKeepsHistory(s1, fault);
      } else {
        var q := PushNew(s1, purpose, paths);
        Snoc(s.commits, Item(s1.head, [purpose], Show(s1, s1.head), paths));
        assert multiset([purpose]) == multiset{purpose};
        CollapsePending(q);
        CollapseFrame(q);
      }
    }
  }

  lemma WriteKeepsHistory(s: State, fault: Fault)
    ensures var r := FinishWrite(s, fault).state;
            r.commits == s.commits && r.history == s.history.(ledger := r.history.ledger)
  {
    hide Show, Apply, Applies;
  }

  lemma StepBalanced(s: State, c: Command)
    requires Balanced(s) && (c.Press? ==> c.fault == NoFault)
    ensures Balanced(Step(s, c))
  {
    hide Sync, Dispatch, FinishPatch, Purposes;
    match c
    case UserEdit(tree) =>
    case Trigger(answers) =>
      SyncBalanced(s, answers);
    case Press(control, answers, _) =>
      SyncBalanced(s, answers);
      DispatchBalanced(Sync(s, answers).state, control);
    case CallPatch(tree, purpose, paths, answers, fault) =>
      SyncBalanced(s, answers);
      FinishBalanced(Sync(s, answers).state, tree, purpose, paths, fault);
  }

  /**
   Conservation of work, guarded or not: counted with multiplicity, every purpose committed for review is
   in exactly one of four places - queued, alone or folded into another item; on the parent; discarded by
   the user; or named in a sensory message about a lost commit.
   */
  lemma {:induction false} RunsAreBalanced(parent: Tree, cs: seq<Command>)
    requires Unfailing(cs)
    ensures var s := Run(Open(parent), cs);
            s.history.committed == s.history.applied + s.history.discarded
                                   + (Purposes(s.commits) + Purposes(s.history.lost))
    decreases |cs|
  {
    if cs != [] {
      hide Step;
      var init := cs[..|cs| - 1];
      assert forall c | c in init :: c in cs;
      assert cs[|cs| - 1] in cs;
      RunsAreBalanced(parent, init);
      assert Balanced(Run(Open(parent), init));
      StepBalanced(Run(Open(parent), init), cs[|cs| - 1]);
    }
  }
}
