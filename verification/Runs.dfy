/** The queue invariant over whole runs. */
module Runs {
  import opened Wrappers
  import opened GitModel
  import opened ReviewSpec
  import opened Queue
  import opened Operations
  import opened Finishing
  import opened Tidiness

  /** The queue is sound, and Write mode holds no pending review. */
  predicate Orderly(s: State) {
    Sound(s, []) && (s.mode == Write ==> s.commits == [])
  }

  /** Between commands the worktree holds no stray file either. */
  predicate Invariant(s: State) {
    Orderly(s) && Tidy(s)
  }

  /** Write is not entered from Read-only over a pending queue, and no Discard's replay is cut short. */
  predicate Allowed(s: State, control: Control, fault: Fault) {
    && (control == SetMode(Write) && s.mode == ReadOnly ==> s.commits == [])
    && (control.DiscardCommit? ==> !DiscardBreaks(s, control.id, fault))
  }

  /** The synchronization has changed the review, and the command goes no further. */
  predicate Halted(s: State, control: Control, answers: seq<Answer>) {
    Sync(s, answers).changed && (control == ApplyQueue || control == SetMode(Write))
  }

  /**
   What a run must not do besides: leave stray files behind as it synchronizes, unless a patch call commits
   them at once, and finish a Review patch that takes back all the work it is committed with.  `paths` is what
   the patch transaction reports.
   */
  ghost predicate Guarded(s: State, c: Command) {
    match c
    case UserEdit(_) => true
    case Trigger(answers) => SyncTidy(s, answers)
    case Press(control, answers, fault) =>
      SyncTidy(s, answers) && (Halted(s, control, answers) || Allowed(Sync(s, answers).state, control, fault))
    case CallPatch(tree, _, paths, answers, _) =>
      var s1 := Sync(s, answers).state;
      && (s1.mode == ReadOnly ==> SyncTidy(s, answers))
      && (s1.mode != ReadOnly && tree != TreeOf(s1, s1.head) ==>
            && PatchDiff(s1, tree).Keys <= paths
            && (s1.mode == Review ==> !NetEmpty(s1, tree)))
  }

  ghost predicate GuardedRun(s: State, cs: seq<Command>) {
    cs == [] || (GuardedRun(s, cs[..|cs| - 1]) && Guarded(Run(s, cs[..|cs| - 1]), cs[|cs| - 1]))
  }

  /** The property holds after every prefix of the run. */
  ghost predicate Always(p: State -> bool, s: State, cs: seq<Command>) {
    forall n | 0 <= n <= |cs| :: p(Run(s, cs[..n]))
  }

  lemma AlwaysNone(p: State -> bool, s: State)
    ensures Always(p, s, []) <==> p(s)
  {
    hide Step;
    var none: seq<Command> := [];
    assert none[..0] == none && Run(s, none) == s;
    assert Always(p, s, none) ==> p(Run(s, none[..0]));
  }

  lemma AlwaysSnoc(p: State -> bool, s: State, cs: seq<Command>)
    requires cs != []
    ensures Always(p, s, cs) <==> Always(p, s, cs[..|cs| - 1]) && p(Run(s, cs))
  {
    hide Run;
    var front := cs[..|cs| - 1];
    assert cs[..|cs|] == cs;
    assert forall n | 0 <= n <= |front| :: front[..n] == cs[..n];
  }

  lemma AlwaysLast(p: State -> bool, s: State, cs: seq<Command>)
    requires Always(p, s, cs)
    ensures p(Run(s, cs))
  {
    hide Run;
    assert cs[..|cs|] == cs;
  }

  lemma OpenInvariant(parent: Tree)
    ensures Invariant(Open(parent))
  {
    hide Covers, Strays, StraysApart;
    TidyApart(Open(parent), []);
  }

  lemma SyncOrderly(s: State, answers: seq<Answer>)
    requires Orderly(s)
    ensures Orderly(Sync(s, answers).state)
    ensures Sync(s, answers).state.mode == s.mode && Extends(s.repo, Sync(s, answers).state.repo)
  {
    hide Sound;
    SyncSound(s, answers);
    if s.commits == [] {
      SyncEmpty(s, answers);
    }
  }

  lemma SyncEmpty(s: State, answers: seq<Answer>)
    requires s.commits == []
    ensures Sync(s, answers).state.commits == [] && !Sync(s, answers).changed
  {
  }

  lemma DispatchOrderly(s: State, control: Control, fault: Fault)
    requires Orderly(s) && Allowed(s, control, fault)
    ensures Orderly(Dispatch(s, control, fault).state)
    ensures Tidy(s) ==> Tidy(Dispatch(s, control, fault).state)
  {
    hide Sound, Adopt, Tidy, Lingering;
    DispatchSound(s, control, fault);
    if Tidy(s) {
      DispatchTidy(s, control, fault);
    }
    match control
    case SetMode(mode) =>
      hide ApplyAll;
      if s.mode == Review && mode == Write {
        ApplyAllSound(s, fault);
      }
    case ApplyCommit(id) =>
      hide ApplyOne;
      ApplyOneSound(s, id, fault);
      ApplyNothing(s, id, fault);
    case DiscardCommit(id) =>
      hide DiscardOne;
      DiscardOneSound(s, id, fault);
      DiscardNothing(s, id, fault);
    case ApplyQueue =>
      hide ApplyAll;
      ApplyAllSound(s, fault);
      ApplyNone(s, fault);
  }

  lemma ApplyNothing(s: State, id: Id, fault: Fault)
    ensures s.commits == [] ==> ApplyOne(s, id, fault) == Failed(s)
  {
  }

  lemma DiscardNothing(s: State, id: Id, fault: Fault)
    ensures s.commits == [] ==> DiscardOne(s, id, fault) == Failed(s)
  {
  }

  lemma ApplyNone(s: State, fault: Fault)
    ensures s.commits == [] ==> ApplyAll(s, fault) == Done(s)
  {
  }

  lemma PatchInvariant(s: State, tree: Tree, purpose: string, paths: set<Path>, fault: Fault)
    requires Orderly(s) && s.mode != ReadOnly
    requires tree != TreeOf(s, s.head) ==>
               PatchDiff(s, tree).Keys <= paths && (s.mode == Review ==> !NetEmpty(s, tree))
    ensures var o := FinishPatch(s.(work := tree), purpose, paths, fault);
            o.Done? ==> Invariant(o.state)
    ensures var o := FinishPatch(s.(work := tree), purpose, paths, fault);
            o.Failed? ==> Invariant(ResetHard(o.state, o.state.head))
  {
    hide Sound, NetEmpty, PatchDiff, Tidy, ResetHard, Collapse, FinishWrite, Extends;
    var r := FinishPatch(s.(work := tree), purpose, paths, fault).state;
    if tree == TreeOf(s, s.head) {
      assert CommitWork(s.(work := tree)) == None;
      WorkRestored(s, tree);
      ResetTidy(r, r.head);
    } else if s.mode == Review {
      AsPatched(s, tree, paths);
      ReviewFinish(s, tree, purpose, paths, fault);
      QueuedMode(s, tree, purpose, paths);
    } else {
      WriteFinish(s, tree, purpose, paths, fault);
      ResetTidy(r, r.head);
      TidyReset(r);
    }
  }

  lemma AsPatched(s: State, tree: Tree, paths: set<Path>)
    requires Sound(s, []) && tree != TreeOf(s, s.head) && PatchDiff(s, tree).Keys <= paths
    ensures Patched(s, tree, paths)
  {
    hide Sound;
  }

  /** A worktree put back to HEAD's tree. */
  lemma WorkRestored(s: State, tree: Tree)
    requires Sound(s, []) && tree == TreeOf(s, s.head)
    ensures Sound(s.(work := tree), []) && Tidy(s.(work := tree))
    ensures ResetHard(s.(work := tree), s.head) == s.(work := tree)
  {
    hide Struct, Covers, Strays, StraysApart;
    ResetTidy(s.(work := tree), s.head);
    TidyApart(s.(work := tree), []);
  }

  lemma TidyReset(s: State)
    requires Tidy(s)
    ensures ResetHard(s, s.head) == s
  {
    ResetTidy(s, s.head);
  }

  lemma QueuedMode(s: State, t: Tree, purpose: string, paths: set<Path>)
    ensures Queued(s, t, purpose, paths).mode == s.mode
  {
  }

  lemma StepInvariant(s: State, c: Command)
    requires Invariant(s) && Guarded(s, c)
    ensures Invariant(Step(s, c))
  {
    hide Sound, Sync, Dispatch, FinishPatch, NetEmpty, PatchDiff, Tidy, SyncTidy, Allowed, ResetHard;
    match c
    case UserEdit(tree) =>
      EditInvariant(s, tree);
    case Trigger(answers) =>
      SyncOrderly(s, answers);
      SyncTidyIff(s, answers);
    case Press(control, answers, fault) =>
      SyncOrderly(s, answers);
      SyncTidyIff(s, answers);
      if !Halted(s, control, answers) {
        DispatchOrderly(Sync(s, answers).state, control, fault);
      }
    case CallPatch(tree, purpose, paths, answers, fault) =>
      SyncOrderly(s, answers);
      var s1 := Sync(s, answers).state;
      if s1.mode != ReadOnly {
        PatchInvariant(s1, tree, purpose, paths, fault);
      } else {
        SyncTidyIff(s, answers);
      }
  }

  lemma EditInvariant(s: State, tree: Tree)
    requires Invariant(s)
    ensures Invariant(Step(s, UserEdit(tree)))
  {
    hide Struct, DiffOf, AtTip, StraysApart;
    SameFiles(s, Step(s, UserEdit(tree)));
    SoundSame(s, Step(s, UserEdit(tree)), []);
  }

  /** Every guarded run, faults and arbitrary resolver answers included, keeps the queue invariant. */
  lemma {:induction false} GuardedRunsAreSound(parent: Tree, cs: seq<Command>)
    requires GuardedRun(Open(parent), cs)
    ensures Invariant(Run(Open(parent), cs))
  {
    if cs == [] {
      OpenInvariant(parent);
    } else {
      hide Invariant, Guarded, Step;
      GuardedRunsAreSound(parent, cs[..|cs| - 1]);
      StepInvariant(Run(Open(parent), cs[..|cs| - 1]), cs[|cs| - 1]);
    }
  }
}
