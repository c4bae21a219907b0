/** The guard on runs is exact: a command keeps the queue invariant if and only if it is guarded. */
module Guards {
  import opened GitModel
  import opened ReviewSpec
  import opened Queue
  import opened Operations
  import opened Finishing
  import opened Runs
  import opened Discards
  import opened Limits
  import opened Tidiness

  /** A patch call reports the paths it changes, as the transaction does. */
  predicate Reporting(s: State, c: Command) {
    c.CallPatch? ==>
      var s1 := Sync(s, c.answers).state;
      s1.mode != ReadOnly && c.tree != TreeOf(s1, s1.head) ==> PatchDiff(s1, c.tree).Keys <= c.paths
  }

  predicate ReportingRun(s: State, cs: seq<Command>)
    decreases |cs|
  {
    cs == [] || (ReportingRun(s, cs[..|cs| - 1]) && Reporting(Run(s, cs[..|cs| - 1]), cs[|cs| - 1]))
  }

  /** What is not allowed breaks the invariant. */
  lemma DispatchBreaks(s: State, control: Control, fault: Fault)
    requires Orderly(s) && !Allowed(s, control, fault)
    ensures !Orderly(Dispatch(s, control, fault).state)
  {
    hide Sound, DiscardOne, DiscardBreaks;
    if control.DiscardCommit? {
      DiscardSoundIff(s, control.id, fault);
    }
  }

  /** Stray files of a synchronization are still there after the control. */
  lemma PressStaysUntidy(s: State, control: Control, answers: seq<Answer>, fault: Fault)
    requires Invariant(s) && !SyncTidy(s, answers)
    ensures !Invariant(Step(s, Press(control, answers, fault)))
  {
    hide Sound, Sync, Dispatch, Tidy, Allowed, Strays, SyncTidy, DiscardBreaks;
    var s1 := Sync(s, answers).state;
    SyncOrderly(s, answers);
    SyncTidyIff(s, answers);
    MovedBy(s, answers);
    SyncMoves(s, answers);
    if !Halted(s, control, answers) {
      if control.DiscardCommit? && DiscardBreaks(s1, control.id, fault) {
        BrokenIsForbidden(s1, control, fault);
        DispatchBreaks(s1, control, fault);
      } else {
        DispatchKeepsStrays(s1, control, fault);
        NoStrays(s1);
        if Sound(Dispatch(s1, control, fault).state, []) {
          NoStrays(Dispatch(s1, control, fault).state);
        }
      }
    }
  }

  lemma MovedBy(s: State, answers: seq<Answer>)
    requires !SyncTidy(s, answers)
    ensures s.parent != TreeOf(s, s.observed)
  {
  }

  lemma BrokenIsForbidden(s: State, control: Control, fault: Fault)
    requires control.DiscardCommit? && DiscardBreaks(s, control.id, fault)
    ensures !Allowed(s, control, fault)
  {
  }

  lemma StepInvariantIff(s: State, c: Command)
    requires Invariant(s) && Reporting(s, c)
    ensures Invariant(Step(s, c)) <==> Guarded(s, c)
  {
    hide Sound, Sync, Dispatch, FinishPatch, NetEmpty, PatchDiff, Allowed, SyncTidy, Tidy, ResetHard;
    if Guarded(s, c) {
      StepInvariant(s, c);
    } else {
      match c
      case Trigger(answers) =>
        SyncTidyIff(s, answers);
      case Press(control, answers, fault) =>
        SyncOrderly(s, answers);
        if !SyncTidy(s, answers) {
          PressStaysUntidy(s, control, answers, fault);
        } else {
          DispatchBreaks(Sync(s, answers).state, control, fault);
        }
      case CallPatch(tree, purpose, paths, answers, fault) =>
        SyncOrderly(s, answers);
        if Sync(s, answers).state.mode == ReadOnly {
          SyncTidyIff(s, answers);
        } else {
          PatchedAfterSync(Sync(s, answers).state, tree, paths);
          PatchKeepsQueueIff(s, tree, purpose, paths, answers, fault);
        }
    }
  }

  lemma PatchedAfterSync(s: State, tree: Tree, paths: set<Path>)
    requires Orderly(s) && tree != TreeOf(s, s.head) && PatchDiff(s, tree).Keys <= paths
    ensures Patched(s, tree, paths)
  {
    hide Sound;
  }

  /** The queue invariant holds all along a run if and only if the run is guarded. */
  lemma {:induction false} GuardedRunsIff(parent: Tree, cs: seq<Command>)
    requires ReportingRun(Open(parent), cs)
    ensures Always(Invariant, Open(parent), cs) <==> GuardedRun(Open(parent), cs)
    decreases |cs|
  {
    hide Invariant, Guarded, Step, Reporting, Always;
    if cs == [] {
      OpenInvariant(parent);
      AlwaysNone(Invariant, Open(parent));
    } else {
      var front := cs[..|cs| - 1];
      GuardedRunsIff(parent, front);
      AlwaysSnoc(Invariant, Open(parent), cs);
      if GuardedRun(Open(parent), front) {
        GuardedRunsAreSound(parent, front);
        StepInvariantIff(Run(Open(parent), front), cs[|cs| - 1]);
      }
    }
  }
}
