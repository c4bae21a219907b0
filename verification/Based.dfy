/** The queue is based on what was last observed, so confluence holds after every run without failed Applies. */
module Based {
  import opened Wrappers
  import opened GitModel
  import opened ReviewSpec
  import opened Queue
  import opened Operations
  import opened Finishing
  import opened Lineage
  import opened NameSafety
  import opened NameTheorems
  import opened Runs
  import opened Confluence
  import opened Ledger

  predicate Based(s: State) {
    TreeOf(s, s.baseline) == TreeOf(s, s.observed)
  }

  lemma BasedStays(s: State, r: State)
    requires Sound(s, []) && Based(s) && Extends(s.repo, r.repo)
    requires r.baseline == s.baseline && r.observed == s.observed
    ensures Based(r)
  {
  }

  lemma SyncBased(s: State, answers: seq<Answer>)
    requires Sound(s, []) && Based(s)
    ensures Based(Sync(s, answers).state)
  {
    if s.parent == TreeOf(s, s.observed) {
      SyncSound(s, answers);
      BasedStays(s, Snapshot(s));
    } else {
      hide Sync, Sound;
      SyncMoves(s, answers);
    }
  }

  lemma ApplyOneBased(s: State, id: Id)
    requires Sound(s, []) && Based(s)
    ensures Based(ApplyOne(s, id, NoFault).state)
  {
    hide FinishApply, RemoveAt, Applies, Apply, Held, AllStored, Apart, Resolve;
    var k := Position(s.commits, Resolve(s.aliases, id));
    if k < |s.commits| && Applies(s.commits[k].diff, s.parent) {
      SoundHeld(s);
      HeldWithout(s, s.commits, k);
      FinishApplySound(s, s.commits[k].diff, RemoveAt(s.commits, k), NoFault);
      FinishApplyFrame(s, s.commits[k].diff, RemoveAt(s.commits, k));
    }
  }

  lemma ApplyAllBased(s: State)
    requires Sound(s, []) && Based(s)
    ensures Based(ApplyAll(s, NoFault).state)
  {
    hide FinishApply, Applies, Apply, Held, AllStored, Apart, QueueDiff;
    if s.commits != [] && Applies(QueueDiff(s), s.parent) {
      SoundHeld(s);
      HeldNone(s, s.commits);
      FinishApplySound(s, QueueDiff(s), [], NoFault);
      FinishApplyFrame(s, QueueDiff(s), []);
    }
  }

  lemma DispatchBased(s: State, control: Control)
    requires Sound(s, []) && Based(s)
    ensures Based(Dispatch(s, control, NoFault).state)
  {
    hide Sound, ApplyOne, DiscardOne, ApplyAll;
    match control
    case SetMode(mode) => ApplyAllBased(s);
    case ApplyCommit(id) => ApplyOneBased(s, id);
    case DiscardCommit(id) =>
      DiscardOneSound(s, id, NoFault);
      BasedStays(s, DiscardOne(s, id, NoFault).state);
    case ApplyQueue => ApplyAllBased(s);
  }

  lemma FinishBased(s: State, tree: Tree, purpose: string, paths: set<Path>, fault: Fault)
    requires Orderly(s) && Based(s) && s.mode != ReadOnly
    requires tree != TreeOf(s, s.head) ==> PatchDiff(s, tree).Keys <= paths
    ensures Based(FinishPatch(s.(work := tree), purpose, paths, fault).state)
  {
    if tree == TreeOf(s, s.head) {
      assert CommitWork(s.(work := tree)) == None;
    } else if s.mode == Review {
      hide Struct, NetEmpty, FinishPatch, PatchDiff, Queued;
      ReviewFinish(s, tree, purpose, paths, fault);
      QueuedFacts(s, tree, purpose, paths);
      BasedStays(s, FinishPatch(s.(work := tree), purpose, paths, fault).state);
    } else {
      hide FinishPatch, PatchDiff, NetEmpty, Struct;
      WriteFinish(s, tree, purpose, paths, fault);
      var r := FinishPatch(s.(work := tree), purpose, paths, fault).state;
      if r.observed == s.observed && r.baseline == s.baseline {
        BasedStays(s, r);
      }
    }
  }

  lemma StepBased(s: State, c: Command)
    requires Invariant(s) && Based(s) && Guarded(s, c) && (c.Press? ==> c.fault == NoFault)
    ensures Based(Step(s, c))
  {
    hide Sound, Sync, Dispatch, FinishPatch, NetEmpty, PatchDiff;
    match c
    case UserEdit(tree) =>
    case Trigger(answers) =>
      SyncBased(s, answers);
    case Press(control, answers, _) =>
      SyncBased(s, answers);
      SyncSound(s, answers);
      DispatchBased(Sync(s, answers).state, control);
    case CallPatch(tree, purpose, paths, answers, fault) =>
      SyncBased(s, answers);
      SyncOrderly(s, answers);
      var s1 := Sync(s, answers).state;
      if s1.mode != ReadOnly {
        FinishBased(s1, tree, purpose, paths, fault);
      }
  }

  lemma {:induction false} RunsAreBased(parent: Tree, cs: seq<Command>)
    requires GuardedRun(Open(parent), cs) && Unfailing(cs)
    ensures Based(Run(Open(parent), cs))
  {
    if cs != [] {
      hide Invariant, Guarded, Step, Based;
      var front := cs[..|cs| - 1];
      assert forall c | c in front :: c in cs;
      assert cs[|cs| - 1] in cs;
      RunsAreBased(parent, front);
      GuardedRunsAreSound(parent, front);
      StepBased(Run(Open(parent), front), cs[|cs| - 1]);
    }
  }

  /** After every guarded run without failed Applies, a synchronization leaves a state that confluence speaks of. */
  lemma SynchronizedRunsAreGood(parent: Tree, cs: seq<Command>, answers: seq<Answer>)
    requires GuardedRun(Open(parent), cs) && Unfailing(cs)
    ensures Good(Sync(Run(Open(parent), cs), answers).state)
  {
    hide Sound, GuardedRun, Run, Sync, Tracked;
    var s := Run(Open(parent), cs);
    GuardedRunsAreSound(parent, cs);
    InvariantSound(s);
    RunsAreTracked(parent, cs);
    RunsAreBased(parent, cs);
    SyncSound(s, answers);
    SyncBased(s, answers);
    SyncNames(s, answers);
    KeepsTracked(s, Sync(s, answers).state);
  }
}
