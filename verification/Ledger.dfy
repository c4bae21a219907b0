/** The observation ledger: what was reported and what the coordinator did add up to what it observes. */
module Ledger {
  import opened Wrappers
  import opened GitModel
  import opened ReviewSpec
  import opened Queue
  import opened Operations

  /** The tree the reader of the sensory messages arrives at, who also knows our own patches. */
  function Reported(start: Tree, ledger: seq<Entry>): Option<Tree> {
    if ledger == [] then Some(start)
    else
      match Reported(start, ledger[..|ledger| - 1])
      case None => None
      case Some(t) =>
        match ledger[|ledger| - 1]
        case Edited(_) => Some(t)
        case External(d) => Patch(d, t)
        case Own(d) => Patch(d, t)
  }

  /** The tree the user's edits and our own patches really lead to. */
  function Actual(start: Tree, ledger: seq<Entry>): Option<Tree> {
    if ledger == [] then Some(start)
    else
      match Actual(start, ledger[..|ledger| - 1])
      case None => None
      case Some(t) =>
        match ledger[|ledger| - 1]
        case Edited(d) => Patch(d, t)
        case External(_) => Some(t)
        case Own(d) => Patch(d, t)
  }

  function Patch(d: Diff, t: Tree): Option<Tree> {
    if Matches(d, t) then Some(Apply(d, t)) else None
  }

  predicate Accounted(start: Tree, s: State) {
    && s.observed < |s.repo|
    && Reported(start, s.history.ledger) == Some(TreeOf(s, s.observed))
    && Actual(start, s.history.ledger) == Some(s.parent)
  }

  /** The parent is what was last observed: how a synchronization leaves it. */
  predicate Synced(s: State) {
    s.parent == TreeOf(s, s.observed)
  }

  // What the loops leave alone, in every state.

  predicate Framed(s: State, r: State) {
    Extends(s.repo, r.repo) && SameOuter(s, r)
  }

  lemma FramedTwice(a: State, b: State, c: State)
    requires Framed(a, b) && Framed(b, c)
    ensures Framed(a, c)
  {
  }

  lemma FramedSelf(s: State)
    ensures Framed(s, s)
  {
  }

  lemma ReplayStepFrame(s: State, item: Item)
    ensures Framed(s, ReplayStep(s, item))
  {
  }

  lemma {:induction false} ReplayAllFrame(s: State, rest: seq<Item>)
    ensures Framed(s, ReplayAll(s, rest))
    decreases |rest|
  {
    if rest != [] {
      hide Framed, ReplayStep;
      ReplayStepFrame(s, rest[0]);
      ReplayAllFrame(ReplayStep(s, rest[0]), rest[1..]);
      FramedTwice(s, ReplayStep(s, rest[0]), ReplayAll(s, rest));
    }
  }

  lemma ReplayOntoFrame(s: State, base: Id)
    ensures Framed(s, ReplayOnto(s, base, NoFault).state)
  {
    hide ReplayAll;
    ReplayAllFrame(StartReplay(s, base), s.commits);
  }

  lemma ResolveStepFrame(s: State, item: Item, answer: Answer)
    ensures Framed(s, ResolveStep(s, item, answer))
  {
    hide CherryPick, Show, CoversOnce, Lands, Reach, Overwrite, TreeOf, Tip;
    PickFramed(s, item.id);
  }

  lemma PickFramed(s: State, id: Id)
    ensures CherryPick(s, id).Picked? ==> Framed(s, CherryPick(s, id).state)
  {
    hide ConflictPaths, MergeTrees, Obstructed, TreeOf;
  }

  lemma {:induction false} SyncLoopFrame(s: State, rest: seq<Item>, answers: seq<Answer>)
    ensures Framed(s, SyncLoop(s, rest, answers))
    decreases |rest|
  {
    if rest != [] {
      hide Framed, ResolveStep;
      var r := ResolveStep(s, rest[0], FirstAnswer(answers));
      ResolveStepFrame(s, rest[0], FirstAnswer(answers));
      SyncLoopFrame(r, rest[1..], LaterAnswers(answers));
      FramedTwice(s, r, SyncLoop(s, rest, answers));
    }
  }

  lemma RebuildStepFrame(s: State, item: Item, fold: bool, newest: Item)
    ensures Framed(s, RebuildStep(s, item, fold, newest).state)
  {
    hide Show, Applies, Apply, TreeOf;
  }

  lemma {:induction false} RebuildFrame(s: State, rest: seq<Item>, dep: int, newest: Item)
    ensures Framed(s, Rebuild(s, rest, dep, newest).state)
    decreases |rest|
  {
    hide Framed, RebuildStep;
    FramedSelf(s);
    if rest != [] {
      RebuildStepFrame(s, rest[0], dep == 0, newest);
      var o := RebuildStep(s, rest[0], dep == 0, newest);
      if o.Done? {
        RebuildFrame(o.state, rest[1..], dep - 1, newest);
        FramedTwice(s, o.state, Rebuild(s, rest, dep, newest).state);
      }
    }
  }

  lemma CollapseFrame(s: State)
    ensures Framed(s, Collapse(s).state)
  {
    hide Rebuild, Applies, FindDependency, Show;
    if |s.commits| >= 2 {
      var n := |s.commits| - 1;
      var k := FindDependency(s.commits[..n], TreeOf(s, s.baseline), s.commits[n].diff);
      if k < n {
        RebuildFrame(ResetHard(s.(commits := []), s.baseline), s.commits[..n], k, s.commits[n]);
      }
    }
  }

  // The ledger through each operation.

  lemma Note(start: Tree, ledger: seq<Entry>, e: Entry)
    ensures (ledger + [e])[..|ledger|] == ledger && (ledger + [e])[|ledger|] == e
  {
  }

  lemma OwnPatch(start: Tree, s: State, r: State, d: Diff)
    requires Accounted(start, s) && Synced(s) && Matches(d, s.parent) && Extends(s.repo, r.repo)
    requires r.parent == Apply(d, s.parent) && r.observed < |r.repo| && TreeOf(r, r.observed) == r.parent
    requires r.history.ledger == s.history.ledger + [Own(d)]
    ensures Accounted(start, r) && Synced(r)
  {
  }

  lemma SyncLedger(start: Tree, s: State, answers: seq<Answer>)
    requires Accounted(start, s)
    ensures Accounted(start, Sync(s, answers).state) && Synced(Sync(s, answers).state)
  {
    hide Sync, Reported, Actual, Apply, Matches, DiffOf, Extends;
    if s.parent == TreeOf(s, s.observed) {
      SyncUnmoved(s, answers);
    } else {
      DiffApplies(TreeOf(s, s.observed), s.parent);
      SyncMoved(s, answers);
      ReportedExternal(start, s, DiffOf(TreeOf(s, s.observed), s.parent), Sync(s, answers).state);
    }
  }

  lemma SyncUnmoved(s: State, answers: seq<Answer>)
    requires s.observed < |s.repo| && s.parent == TreeOf(s, s.observed)
    ensures Sync(s, answers).state == Snapshot(s) && TreeOf(Snapshot(s), s.observed) == TreeOf(s, s.observed)
  {
    hide SyncLoop, SyncChanged, DiffOf;
  }

  lemma SyncMoved(s: State, answers: seq<Answer>)
    requires s.observed < |s.repo| && s.parent != TreeOf(s, s.observed)
    ensures var r := Sync(s, answers).state;
            && Extends(s.repo, r.repo) && r.parent == s.parent && r.observed < |r.repo|
            && TreeOf(r, r.observed) == s.parent
            && r.history.ledger == s.history.ledger + [External(DiffOf(TreeOf(s, s.observed), s.parent))]
  {
    hide SyncLoop, SyncChanged, DiffOf;
    var s1 := Snapshot(s);
    assert TreeOf(s1, s.observed) == TreeOf(s, s.observed);
    SyncLoopFrame(StartReplay(s1, |s.repo|), s.commits, answers);
  }

  lemma ReportedExternal(start: Tree, s: State, d: Diff, r: State)
    requires Accounted(start, s) && Matches(d, TreeOf(s, s.observed)) && Apply(d, TreeOf(s, s.observed)) == s.parent
    requires Extends(s.repo, r.repo) && r.parent == s.parent && r.observed < |r.repo|
             && TreeOf(r, r.observed) == s.parent
    requires r.history.ledger == s.history.ledger + [External(d)]
    ensures Accounted(start, r) && Synced(r)
  {
  }

  /** Without a late failure, finishing an Apply observes exactly the patched parent. */
  lemma FinishApplyFrame(s: State, d: Diff, rest: seq<Item>)
    ensures var o := FinishApply(s, d, rest, NoFault);
            && o.Done? && Extends(s.repo, o.state.repo) && o.state.parent == Apply(d, s.parent)
            && o.state.observed == |s.repo| < |o.state.repo| && TreeOf(o.state, |s.repo|) == o.state.parent
            && o.state.history.ledger == s.history.ledger && o.state.mode == s.mode
            && o.state.history.committed == s.history.committed
            && o.state.history.applied == s.history.applied && o.state.history.discarded == s.history.discarded
  {
    var snap := Snapshot(s.(parent := Apply(d, s.parent), commits := rest)).(observed := |s.repo|);
    assert Extends(s.repo, snap.repo) && TreeOf(snap, |s.repo|) == snap.parent;
    hide ReplayOnto, Apply;
    ReplayOntoFrame(snap, |s.repo|);
    ReplaySucceeds(snap, |s.repo|);
  }

  lemma ReplaySucceeds(s: State, base: Id)
    ensures ReplayOnto(s, base, NoFault).Done?
  {
  }

  lemma ApplyOneLedger(start: Tree, s: State, id: Id)
    requires Accounted(start, s) && Synced(s)
    ensures Accounted(start, ApplyOne(s, id, NoFault).state) && Synced(ApplyOne(s, id, NoFault).state)
  {
    hide FinishApply, Apply, Position, Accounted, RemoveAt, Resolve;
    var k := Position(s.commits, Resolve(s.aliases, id));
    if k < |s.commits| && Applies(s.commits[k].diff, s.parent) {
      FinishApplyFrame(s, s.commits[k].diff, RemoveAt(s.commits, k));
      OwnPatch(start, s, ApplyOne(s, id, NoFault).state, s.commits[k].diff);
    }
  }

  lemma DiscardLedger(start: Tree, s: State, id: Id)
    requires Accounted(start, s) && Synced(s)
    ensures Accounted(start, DiscardOne(s, id, NoFault).state) && Synced(DiscardOne(s, id, NoFault).state)
  {
    hide ReplayOnto, Position, RemoveAt, Resolve, Reported, Actual;
    var k := Position(s.commits, Resolve(s.aliases, id));
    if k < |s.commits| {
      var s1 := s.(commits := RemoveAt(s.commits, k),
                   history := s.history.(discarded := s.history.discarded + Purposes([s.commits[k]])));
      ReplayOntoFrame(s1, s.baseline);
      KeepsAccountBut(start, s, ReplayOnto(s1, s.baseline, NoFault).state);
    }
  }

  lemma DispatchLedger(start: Tree, s: State, control: Control)
    requires Accounted(start, s) && Synced(s)
    ensures Accounted(start, Dispatch(s, control, NoFault).state) && Synced(Dispatch(s, control, NoFault).state)
  {
    hide ApplyOne, DiscardOne, ApplyAll, Reported, Actual;
    match control
    case SetMode(mode) => ApplyAllLedger(start, s);
    case ApplyCommit(id) => ApplyOneLedger(start, s, id);
    case DiscardCommit(id) => DiscardLedger(start, s, id);
    case ApplyQueue => ApplyAllLedger(start, s);
  }

  lemma ApplyAllLedger(start: Tree, s: State)
    requires Accounted(start, s) && Synced(s)
    ensures Accounted(start, ApplyAll(s, NoFault).state) && Synced(ApplyAll(s, NoFault).state)
  {
    hide FinishApply, Apply, QueueDiff, Reported, Actual;
    if s.commits != [] && Applies(QueueDiff(s), s.parent) {
      FinishApplyFrame(s, QueueDiff(s), []);
      OwnPatch(start, s, ApplyAll(s, NoFault).state, QueueDiff(s));
    }
  }

  /** Finishing a patch, in any mode and with any late failure, is accounted for. */
  lemma FinishLedger(start: Tree, s: State, tree: Tree, purpose: string, paths: set<Path>, fault: Fault)
    requires Accounted(start, s) && Synced(s)
    ensures var r := FinishPatch(s.(work := tree), purpose, paths, fault).state; Accounted(start, r) && Synced(r)
  {
    var s1 := CommitTree(s, tree);
    if s.mode == ReadOnly || tree == TreeOf(s, s.head) {
      hide Reported, Actual;
    } else {
      assert CommitWork(s.(work := tree)) == Some(s1);
      if s.mode == Write {
        WriteLedger(start, s, s1, fault);
      } else {
        hide Collapse, Reported, Actual, Show;
        var q := PushNew(s1, purpose, paths);
        CollapseFrame(q);
        KeepsAccountBut(start, s, Collapse(q).state);
      }
    }
  }

  lemma KeepsAccountBut(start: Tree, s: State, r: State)
    requires Accounted(start, s) && Synced(s) && Extends(s.repo, r.repo)
    requires r.parent == s.parent && r.observed == s.observed && r.history.ledger == s.history.ledger
    ensures Accounted(start, r) && Synced(r)
  {
  }

  lemma WriteLedger(start: Tree, s: State, s1: State, fault: Fault)
    requires Accounted(start, s) && Synced(s) && Extends(s.repo, s1.repo)
    requires s1.parent == s.parent && s1.observed == s.observed && s1.history == s.history
    ensures Accounted(start, FinishWrite(s1, fault).state) && Synced(FinishWrite(s1, fault).state)
  {
    hide Show, Reported, Actual, Apply;
    var d := Show(s1, s1.head);
    KeepsAccountBut(start, s, s1);
    var r := FinishWrite(s1, fault).state;
    if Applies(d, s1.parent) {
      ReverseRestores(d, s1.parent);
      if fault == NoFault {
        OwnPatch(start, s1, r, d);
      } else {
        KeepsAccountBut(start, s1, r);
      }
    } else {
      KeepsAccountBut(start, s1, r);
    }
  }

  // Runs.

  /** No control fails late. */
  predicate Unfailing(cs: seq<Command>) {
    forall c | c in cs :: c.Press? ==> c.fault == NoFault
  }

  lemma EditLedger(start: Tree, s: State, tree: Tree)
    requires Accounted(start, s)
    ensures Accounted(start, Step(s, UserEdit(tree)))
  {
    var d := DiffOf(s.parent, tree);
    DiffApplies(s.parent, tree);
    Note(start, s.history.ledger, Edited(d));
    hide Apply, DiffOf;
  }

  lemma StepLedger(start: Tree, s: State, c: Command)
    requires Accounted(start, s) && (c.Press? ==> c.fault == NoFault)
    ensures Accounted(start, Step(s, c)) && (!c.UserEdit? ==> Synced(Step(s, c)))
  {
    hide Accounted, Synced, Sync, Dispatch, FinishPatch;
    match c
    case UserEdit(tree) =>
      EditLedger(start, s, tree);
    case Trigger(answers) =>
      SyncLedger(start, s, answers);
    case Press(control, answers, _) =>
      SyncLedger(start, s, answers);
      DispatchLedger(start, Sync(s, answers).state, control);
    case CallPatch(tree, purpose, paths, answers, fault) =>
      SyncLedger(start, s, answers);
      var s1 := Sync(s, answers).state;
      FinishLedger(start, s1, tree, purpose, paths, fault);
      ResetLedger(start, FinishPatch(s1.(work := tree), purpose, paths, fault).state);
  }

  lemma ResetLedger(start: Tree, s: State)
    requires Accounted(start, s) && Synced(s)
    ensures Accounted(start, ResetHard(s, s.head)) && Synced(ResetHard(s, s.head))
  {
  }

  /**
   The ledger of a whole run.  Reported changes and own patches lead from the startup snapshot to the
   observed tree, real edits and own patches lead to the parent, and after every command but a user edit
   the two trees are the same: each external change is reported once, and no own patch is reported.
   */
  lemma RunsAreAccounted(parent: Tree, cs: seq<Command>)
    requires Unfailing(cs)
    ensures var s := Run(Open(parent), cs);
            && s.observed < |s.repo|
            && Reported(parent, s.history.ledger) == Some(TreeOf(s, s.observed))
            && Actual(parent, s.history.ledger) == Some(s.parent)
            && (cs != [] && !cs[|cs| - 1].UserEdit? ==> s.parent == TreeOf(s, s.observed))
  {
    RunAccounted(parent, cs);
  }

  lemma {:induction false} RunAccounted(parent: Tree, cs: seq<Command>)
    requires Unfailing(cs)
    ensures var s := Run(Open(parent), cs);
            Accounted(parent, s) && (cs != [] && !cs[|cs| - 1].UserEdit? ==> Synced(s))
    decreases |cs|
  {
    if cs != [] {
      hide Accounted, Synced, Step;
      var init := cs[..|cs| - 1];
      assert forall c | c in init :: c in cs;
      assert cs[|cs| - 1] in cs;
      RunAccounted(parent, init);
      StepLedger(parent, Run(Open(parent), init), cs[|cs| - 1]);
    }
  }
}
