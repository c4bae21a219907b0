/** What changes the mode, and what the mode lets a patch do, in every state and whatever fails. */
module Modes {
  import opened GitModel
  import opened ReviewSpec
  import opened Queue
  import opened Finishing
  import opened Ledger
  import opened Runs

  // Nothing but a change of mode touches the mode.

  lemma ReplayOntoMode(s: State, base: Id, fault: Fault)
    ensures ReplayOnto(s, base, fault).state.mode == s.mode && ReplayOnto(s, base, fault).state.parent == s.parent
    ensures s.commits == [] ==> ReplayOnto(s, base, fault).state.commits == []
  {
    hide ReplayAll, CherryPick;
    ReplayAllFrame(StartReplay(s, base), s.commits);
    if fault.AtReplay? && 0 < fault.k <= |s.commits| {
      ReplayAllFrame(StartReplay(s, base), s.commits[..fault.k - 1]);
      PickFramed(ReplayAll(StartReplay(s, base), s.commits[..fault.k - 1]), s.commits[fault.k - 1].id);
    }
    assert ReplayAll(StartReplay(s, base), []) == StartReplay(s, base) by { NothingReplayed(StartReplay(s, base)); }
  }

  lemma NothingReplayed(s: State)
    ensures ReplayAll(s, []) == s
  {
  }

  lemma AdoptMode(s: State, fault: Fault)
    ensures Adopt(s, fault).state.mode == s.mode
    ensures s.commits == [] ==> Adopt(s, fault).state.commits == []
  {
    hide ReplayOnto;
    ReplayOntoMode(Snapshot(s).(observed := |s.repo|), |s.repo|, fault);
  }

  lemma FinishApplyMode(s: State, d: Diff, rest: seq<Item>, fault: Fault)
    ensures FinishApply(s, d, rest, fault).state.mode == s.mode
    ensures rest == [] && FinishApply(s, d, rest, fault).Done? ==> FinishApply(s, d, rest, fault).state.commits == []
  {
    hide Adopt, ReplayOnto, Apply, Applies, Reverse;
    var patched := s.(parent := Apply(d, s.parent), commits := rest);
    AdoptMode(patched, fault);
    var s1 := Adopt(patched, fault).state;
    if ReverseOnParent(s1, d).Some? {
      ReplayOntoMode(ReverseOnParent(s1, d).value.(commits := s.commits), s.baseline, NoFault);
    }
  }

  lemma ApplyAllMode(s: State, fault: Fault)
    ensures ApplyAll(s, fault).state.mode == s.mode
    ensures ApplyAll(s, fault).Done? ==> ApplyAll(s, fault).state.commits == []
  {
    hide FinishApply, QueueDiff, Applies;
    FinishApplyMode(s, QueueDiff(s), [], fault);
  }

  lemma ApplyOneMode(s: State, name: Id, fault: Fault)
    ensures ApplyOne(s, name, fault).state.mode == s.mode
  {
    hide FinishApply, Applies, Resolve;
    var k := Position(s.commits, Resolve(s.aliases, name));
    if k < |s.commits| {
      FinishApplyMode(s, s.commits[k].diff, RemoveAt(s.commits, k), fault);
    }
  }

  lemma DiscardMode(s: State, name: Id, fault: Fault)
    ensures DiscardOne(s, name, fault).state.mode == s.mode && DiscardOne(s, name, fault).state.parent == s.parent
  {
    hide ReplayOnto, Resolve;
    var k := Position(s.commits, Resolve(s.aliases, name));
    if k < |s.commits| {
      var s1 := s.(commits := RemoveAt(s.commits, k),
                   history := s.history.(discarded := s.history.discarded + Purposes([s.commits[k]])));
      ReplayOntoMode(s1, s.baseline, fault);
    }
  }

  lemma SyncMode(s: State, answers: seq<Answer>)
    ensures Sync(s, answers).state.mode == s.mode && Sync(s, answers).state.parent == s.parent
  {
    hide SyncLoop, SyncChanged, DiffOf;
    SyncLoopFrame(StartReplay(Snapshot(s), |s.repo|), s.commits, answers);
  }

  // The change of mode.

  /**
   A finished change of mode arrives at its target, from Review in Write with an empty queue; any other change
   always finishes and does nothing else.  One that fails leaves the mode as it was.
   */
  lemma SetModeArrives(s: State, target: Mode, fault: Fault)
    ensures var o := ChangeMode(s, target, fault);
            && (o.Done? ==> o.state.mode == target)
            && (o.Failed? ==> o.state.mode == s.mode)
            && (s.mode == Review && target == Write && o.Done? ==> o.state.commits == [])
            && (!(s.mode == Review && target == Write) ==> o.Done? && o.state == s.(mode := target))
  {
    hide ApplyAll;
    ApplyAllMode(s, fault);
  }

  /** The same for the button: unless a changed review stops it, the mode is its target when it has finished. */
  lemma PressArrives(s: State, target: Mode, answers: seq<Answer>, fault: Fault)
    ensures var o := HandleControl(s, Control.SetMode(target), answers, fault);
            && (Halted(s, Control.SetMode(target), answers) ==> o.state.mode == s.mode)
            && (!Halted(s, Control.SetMode(target), answers) && o.Done? ==> o.state.mode == target)
            && (o.Failed? ==> o.state.mode == s.mode)
  {
    hide Sync, ChangeMode;
    SyncMode(s, answers);
    SetModeArrives(Sync(s, answers).state, target, fault);
  }

  // What the mode lets a patch do.

  lemma FinishWriteMode(s: State, fault: Fault)
    ensures FinishWrite(s, fault).state.mode == s.mode && FinishWrite(s, fault).state.commits == s.commits
  {
    hide Show, Apply, Applies, Reverse, TreeOf;
  }

  lemma FinishPatchMode(s: State, purpose: string, paths: set<Path>, fault: Fault)
    ensures var r := FinishPatch(s, purpose, paths, fault).state;
            && r.mode == s.mode
            && (s.mode == Review ==> r.parent == s.parent)
            && (s.mode != Review ==> r.commits == s.commits)
  {
    hide FinishWrite, Collapse, Show, TreeOf;
    if CommitWork(s).Some? {
      var s1 := CommitWork(s).value;
      FinishWriteMode(s1, fault);
      CollapseFrame(PushNew(s1, purpose, paths));
    }
  }

  /**
   A patch call never changes the mode.  In Read-only it does nothing beyond the synchronization and fails, in
   Review it leaves the parent alone, and in Write the queue.
   */
  lemma PatchByMode(s: State, tree: Tree, purpose: string, paths: set<Path>, answers: seq<Answer>, fault: Fault)
    ensures var s1, o := Sync(s, answers).state, PatchCall(s, tree, purpose, paths, answers, fault);
            && o.state.mode == s.mode
            && (s.mode == ReadOnly ==> o == Failed(s1))
            && (s.mode == Review ==> o.state.parent == s.parent)
            && (s.mode == Write ==> o.state.commits == s1.commits)
  {
    hide Sync, FinishPatch, TreeOf;
    SyncMode(s, answers);
    FinishPatchMode(Sync(s, answers).state.(work := tree), purpose, paths, fault);
  }

  /** The mode changes by the button alone, and then it is the button's. */
  lemma OnlySetModeChangesMode(s: State, c: Command)
    ensures Step(s, c).mode != s.mode ==> c.Press? && c.control == Control.SetMode(Step(s, c).mode)
  {
    hide Sync, PatchCall, ChangeMode, ApplyOne, DiscardOne, ApplyAll, DiffOf;
    match c
    case UserEdit(_) =>
    case Trigger(answers) =>
      SyncMode(s, answers);
    case CallPatch(tree, purpose, paths, answers, fault) =>
      PatchByMode(s, tree, purpose, paths, answers, fault);
    case Press(control, answers, fault) =>
      SyncMode(s, answers);
      var s1 := Sync(s, answers).state;
      match control
      case SetMode(target) => SetModeArrives(s1, target, fault);
      case ApplyCommit(id) => ApplyOneMode(s1, id, fault);
      case DiscardCommit(id) => DiscardMode(s1, id, fault);
      case ApplyQueue => ApplyAllMode(s1, fault);
  }

  /**
   Which patch calls succeed: none in Read-only and none without a change; in Review those that do not take back
   all the work they are committed with; in Write those that apply to the parent and do not fail late.
   */
  lemma PatchSucceedsIff(s: State, tree: Tree, purpose: string, paths: set<Path>, answers: seq<Answer>, fault: Fault)
    requires var s1 := Sync(s, answers).state;
             && Sound(s1, []) && (s1.mode == Write ==> s1.commits == [])
             && (tree != TreeOf(s1, s1.head) ==> PatchDiff(s1, tree).Keys <= paths)
    ensures var s1, o := Sync(s, answers).state, PatchCall(s, tree, purpose, paths, answers, fault);
            o.Done? <==>
              && s1.mode != ReadOnly && tree != TreeOf(s1, s1.head)
              && (s1.mode == Review ==> !NetEmpty(s1, tree))
              && (s1.mode == Write ==> Applies(PatchDiff(s1, tree), s1.parent) && fault == NoFault)
  {
    hide Sync, FinishPatch, NetEmpty, Sound, Applies, PatchDiff, TreeOf;
    var s1 := Sync(s, answers).state;
    if tree == TreeOf(s1, s1.head) {
      NothingToCommit(s1, tree, purpose, paths, fault);
    } else if s1.mode == Review {
      AsPatched(s1, tree, paths);
      ReviewFinish(s1, tree, purpose, paths, fault);
    } else if s1.mode == Write {
      WriteFinish(s1, tree, purpose, paths, fault);
    }
  }

  lemma NothingToCommit(s: State, tree: Tree, purpose: string, paths: set<Path>, fault: Fault)
    requires tree == TreeOf(s, s.head)
    ensures FinishPatch(s.(work := tree), purpose, paths, fault).Failed?
  {
  }

  /** Finishing in Read-only is refused, and the worktree goes back to HEAD. */
  lemma FinishRefused(s: State, purpose: string, paths: set<Path>, fault: Fault)
    requires s.mode == ReadOnly
    ensures var o := FinishPatch(s, purpose, paths, fault);
            && o.Failed? && o.state == s.(work := o.state.work)
            && forall p ::
                 Get(o.state.work, p) == if p in TreeOf(s, s.head) then Get(TreeOf(s, s.head), p) else Get(s.work, p)
  {
  }

  // What is left when the queue is empty, and when it is not.

  /** A replay that ends with an empty queue forgets all names. */
  lemma EmptyQueueForgets(s: State, base: Id)
    ensures var r := ReplayOnto(s, base, NoFault).state; r.commits == [] ==> r.aliases == map[]
  {
    hide ReplayAll;
  }

  lemma EmptySyncForgets(s: State, answers: seq<Answer>)
    requires s.parent != TreeOf(Snapshot(s), s.observed)
    ensures var r := Sync(s, answers).state; r.commits == [] ==> r.aliases == map[]
  {
    hide SyncLoop, SyncChanged, DiffOf;
  }

  /** The loop takes the items one by one, and each has an answer of its own. */
  lemma {:induction false} LoopInTurn(s: State, a: seq<Item>, b: seq<Item>, answers: seq<Answer>, more: seq<Answer>)
    requires |answers| == |a|
    ensures SyncLoop(s, a + b, answers + more) == SyncLoop(SyncLoop(s, a, answers), b, more)
    decreases |a|
  {
    hide ResolveStep;
    if a == [] {
      assert a + b == b && answers + more == more;
    } else {
      assert (a + b)[0] == a[0] && (a + b)[1..] == a[1..] + b;
      assert (answers + more)[0] == answers[0] && (answers + more)[1..] == answers[1..] + more;
      LoopInTurn(ResolveStep(s, a[0], answers[0]), a[1..], b, answers[1..], more);
    }
  }

  lemma LoopOnce(s: State, item: Item, answer: Answer)
    ensures SyncLoop(s, [item], [answer]) == ResolveStep(s, item, answer)
    ensures SyncLoop(s, [item], []) == ResolveStep(s, item, NoAnswer)
  {
    hide ResolveStep;
    assert [item][1..] == [] && [answer][1..] == [];
  }
}
