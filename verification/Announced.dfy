/** Every queued item announces a purpose, in every run. */
module Announced {
  import opened GitModel
  import opened ReviewSpec

  predicate Purposeful(items: seq<Item>) {
    forall i | 0 <= i < |items| :: items[i].purposes != []
  }

  lemma TurnPurposeful(s: State, item: Item, answer: Answer)
    requires Purposeful(s.commits) && item.purposes != []
    ensures Purposeful(ReplayStep(s, item).commits) && Purposeful(ResolveStep(s, item, answer).commits)
  {
    hide ConflictPaths, MergeTrees, Acceptable, Overwrite, Show;
  }

  lemma {:induction false} ReplayAllPurposeful(s: State, rest: seq<Item>)
    requires Purposeful(s.commits) && Purposeful(rest)
    ensures Purposeful(ReplayAll(s, rest).commits)
    decreases |rest|
  {
    hide ReplayStep;
    if rest != [] {
      TurnPurposeful(s, rest[0], NoAnswer);
      ReplayAllPurposeful(ReplayStep(s, rest[0]), rest[1..]);
    }
  }

  lemma {:induction false} SyncLoopPurposeful(s: State, rest: seq<Item>, answers: seq<Answer>)
    requires Purposeful(s.commits) && Purposeful(rest)
    ensures Purposeful(SyncLoop(s, rest, answers).commits)
    decreases |rest|
  {
    hide ResolveStep;
    if rest != [] {
      TurnPurposeful(s, rest[0], FirstAnswer(answers));
      SyncLoopPurposeful(ResolveStep(s, rest[0], FirstAnswer(answers)), rest[1..], LaterAnswers(answers));
    }
  }

  lemma ReplayOntoPurposeful(s: State, base: Id, fault: Fault)
    requires Purposeful(s.commits)
    ensures Purposeful(ReplayOnto(s, base, fault).state.commits)
  {
    hide ReplayAll, ConflictPaths, MergeTrees;
    var start := StartReplay(s, base);
    ReplayAllPurposeful(start, s.commits);
    if fault.AtReplay? && 0 < fault.k <= |s.commits| {
      ReplayAllPurposeful(start, s.commits[..fault.k - 1]);
    }
  }

  lemma FinishApplyPurposeful(s: State, d: Diff, rest: seq<Item>, fault: Fault)
    requires Purposeful(s.commits) && Purposeful(rest)
    ensures Purposeful(FinishApply(s, d, rest, fault).state.commits)
  {
    hide ReplayOnto, Apply, Applies;
    var s1 := s.(parent := Apply(d, s.parent), commits := rest);
    ReplayOntoPurposeful(Snapshot(s1).(observed := |s1.repo|), |s1.repo|, fault);
    var o := Adopt(s1, fault);
    if o.Failed? && ReverseOnParent(o.state, d).Some? {
      ReplayOntoPurposeful(ReverseOnParent(o.state, d).value.(commits := s.commits), s.baseline, NoFault);
    }
  }

  lemma DispatchPurposeful(s: State, control: Control, fault: Fault)
    requires Purposeful(s.commits)
    ensures Purposeful(Dispatch(s, control, fault).state.commits)
  {
    hide FinishApply, ReplayOnto, Applies, QueueDiff, Resolve, Purposes;
    match control
    case SetMode(mode) =>
      FinishApplyPurposeful(s, QueueDiff(s), [], fault);
    case ApplyCommit(id) =>
      var k := Position(s.commits, Resolve(s.aliases, id));
      if k < |s.commits| {
        FinishApplyPurposeful(s, s.commits[k].diff, RemoveAt(s.commits, k), fault);
      }
    case DiscardCommit(id) =>
      var k := Position(s.commits, Resolve(s.aliases, id));
      if k < |s.commits| {
        var s1 := s.(commits := RemoveAt(s.commits, k),
                     history := s.history.(discarded := s.history.discarded + Purposes([s.commits[k]])));
        ReplayOntoPurposeful(s1, s.baseline, fault);
      }
    case ApplyQueue =>
      FinishApplyPurposeful(s, QueueDiff(s), [], fault);
  }

  lemma SyncPurposeful(s: State, answers: seq<Answer>)
    requires Purposeful(s.commits)
    ensures Purposeful(Sync(s, answers).state.commits)
  {
    hide SyncLoop, SyncChanged, DiffOf;
    SyncLoopPurposeful(StartReplay(Snapshot(s), |s.repo|), s.commits, answers);
  }

  lemma {:induction false} RebuildPurposeful(s: State, rest: seq<Item>, dep: int, newest: Item)
    requires Purposeful(s.commits) && Purposeful(rest)
    ensures Purposeful(Rebuild(s, rest, dep, newest).state.commits)
    decreases |rest|
  {
    hide RebuildStep;
    if rest != [] {
      RebuildStepPurposeful(s, rest[0], dep == 0, newest);
      var o := RebuildStep(s, rest[0], dep == 0, newest);
      if o.Done? {
        RebuildPurposeful(o.state, rest[1..], dep - 1, newest);
      }
    }
  }

  lemma RebuildStepPurposeful(s: State, item: Item, fold: bool, newest: Item)
    requires Purposeful(s.commits) && item.purposes != []
    ensures Purposeful(RebuildStep(s, item, fold, newest).state.commits)
  {
    hide Applies, Apply, TreeOf, Show;
  }

  lemma CollapsePurposeful(s: State)
    requires Purposeful(s.commits)
    ensures Purposeful(Collapse(s).state.commits)
  {
    hide Rebuild, Applies, FindDependency, Show, TreeOf, AllPaths;
    if |s.commits| >= 2 {
      var n := |s.commits| - 1;
      var k := FindDependency(s.commits[..n], TreeOf(s, s.baseline), s.commits[n].diff);
      RebuildPurposeful(ResetHard(s.(commits := []), s.baseline), s.commits[..n], k, s.commits[n]);
    }
  }

  lemma FinishPurposeful(s: State, purpose: string, paths: set<Path>, fault: Fault)
    requires Purposeful(s.commits)
    ensures Purposeful(FinishPatch(s, purpose, paths, fault).state.commits)
  {
    hide Collapse, Applies, Apply, Show, TreeOf;
    if s.mode == Review && CommitWork(s).Some? {
      CollapsePurposeful(PushNew(CommitWork(s).value, purpose, paths));
    }
  }

  lemma StepPurposeful(s: State, c: Command)
    requires Purposeful(s.commits)
    ensures Purposeful(Step(s, c).commits)
  {
    hide Sync, Dispatch, FinishPatch, DiffOf;
    match c
    case UserEdit(_) =>
    case Trigger(answers) =>
      SyncPurposeful(s, answers);
    case Press(control, answers, fault) =>
      SyncPurposeful(s, answers);
      DispatchPurposeful(Sync(s, answers).state, control, fault);
    case CallPatch(tree, purpose, paths, answers, fault) =>
      SyncPurposeful(s, answers);
      FinishPurposeful(Sync(s, answers).state.(work := tree), purpose, paths, fault);
  }

  lemma {:induction false} RunsArePurposeful(parent: Tree, cs: seq<Command>)
    ensures Purposeful(Run(Open(parent), cs).commits)
    decreases |cs|
  {
    hide Step;
    if cs != [] {
      RunsArePurposeful(parent, cs[..|cs| - 1]);
      StepPurposeful(Run(Open(parent), cs[..|cs| - 1]), cs[|cs| - 1]);
    }
  }
}
