/** The ledger when Applies fail late: exactly which failures put it out. */
module Accounts {
  import opened GitModel
  import opened ReviewSpec
  import opened Queue
  import opened Clean
  import opened Operations
  import opened Runs
  import opened Ledger
  import opened LateFailure
  import opened Setbacks

  lemma FinishFails(s: State, d: Diff, rest: seq<Item>, fault: Fault)
    ensures FinishApply(s, d, rest, fault).Failed? <==> fault == AtSnapshot || (fault.AtReplay? && fault.k <= |rest|)
  {
    hide ReplayAll, CherryPick, Rollback, Apply;
  }

  /** The command patches the parent and then fails behind the snapshot. */
  predicate Unrecorded(s: State, control: Control, fault: Fault) {
    match control
    case ApplyCommit(id) =>
      var k := Position(s.commits, Resolve(s.aliases, id));
      k < |s.commits| && Applies(s.commits[k].diff, s.parent) && fault.AtReplay? && fault.k < |s.commits|
    case DiscardCommit(_) => false
    case SetMode(mode) => s.mode == Review && mode == Write && UnrecordedAll(s, fault)
    case ApplyQueue => UnrecordedAll(s, fault)
  }

  predicate UnrecordedAll(s: State, fault: Fault) {
    s.commits != [] && Applies(QueueDiff(s), s.parent) && fault == AtReplay(0)
  }

  /** A failed Apply leaves the account in order exactly if it failed at the snapshot. */
  lemma FailedLedgerIff(start: Tree, s: State, d: Diff, rest: seq<Item>, fault: Fault)
    requires Sound(s, []) && Accounted(start, s) && Synced(s) && Applies(d, s.parent) && Effective(d) && Held(s, rest)
    requires FinishApply(s, d, rest, fault).Failed?
    ensures var r := FinishApply(s, d, rest, fault).state;
            && (Accounted(start, r) <==> fault == AtSnapshot) && (fault == AtSnapshot ==> Synced(r))
  {
    hide Sound, Held, AllMatch, SameWork, FinishApply, Apply, Applies, Extends, Effective, Reported, Actual;
    FailureIsUndone(s, d, rest, fault);
    FinishApplySound(s, d, rest, fault);
    ObservedInStore(FinishApply(s, d, rest, fault).state);
    PatchChanges(d, s.parent);
  }

  lemma QueuedEffective(s: State, k: nat)
    requires Sound(s, []) && k < |s.commits|
    ensures Effective(s.commits[k].diff) && Held(s, RemoveAt(s.commits, k))
            && |RemoveAt(s.commits, k)| == |s.commits| - 1
  {
    AppliesAlone(s.repo, s.baseline, s.commits, [], k);
    SoundHeld(s);
    HeldWithout(s, s.commits, k);
  }

  lemma ApplyOneLedgerIff(start: Tree, s: State, id: Id, fault: Fault)
    requires Sound(s, []) && Accounted(start, s) && Synced(s)
    ensures var r := ApplyOne(s, id, fault).state;
            && (Accounted(start, r) <==> !Unrecorded(s, ApplyCommit(id), fault))
            && (Accounted(start, r) ==> Synced(r))
  {
    hide Sound, Held, Accounted, Synced, FinishApply, Applies, Effective, RemoveAt, Resolve, Steady;
    if ApplyOne(s, id, fault).Done? {
      ApplyOneFinished(s, id, fault);
      ApplyOneLedger(start, s, id);
    }
    var k := Position(s.commits, Resolve(s.aliases, id));
    if k < |s.commits| && Applies(s.commits[k].diff, s.parent) {
      QueuedEffective(s, k);
      FinishFails(s, s.commits[k].diff, RemoveAt(s.commits, k), fault);
      if ApplyOne(s, id, fault).Failed? {
        FailedLedgerIff(start, s, s.commits[k].diff, RemoveAt(s.commits, k), fault);
      }
    }
  }

  lemma QueueDiffEffective(s: State)
    requires Sound(s, [])
    ensures Effective(QueueDiff(s)) && Held(s, [])
  {
    DiffApplies(TreeOf(s, s.baseline), TreeOf(s, Tip(s)));
    SoundHeld(s);
    HeldNone(s, s.commits);
  }

  lemma ApplyAllLedgerIff(start: Tree, s: State, fault: Fault)
    requires Sound(s, []) && Accounted(start, s) && Synced(s)
    ensures var r := ApplyAll(s, fault).state;
            && (Accounted(start, r) <==> !UnrecordedAll(s, fault)) && (Accounted(start, r) ==> Synced(r))
  {
    hide Sound, Held, Accounted, Synced, FinishApply, Applies, Effective, QueueDiff;
    if ApplyAll(s, fault).Done? {
      ApplyAllFinished(s, fault);
      ApplyAllLedger(start, s);
    }
    if s.commits != [] && Applies(QueueDiff(s), s.parent) {
      QueueDiffEffective(s);
      FinishFails(s, QueueDiff(s), [], fault);
      if ApplyAll(s, fault).Failed? {
        FailedLedgerIff(start, s, QueueDiff(s), [], fault);
      }
    }
  }

  lemma ModeLedger(start: Tree, s: State, mode: Mode)
    ensures Accounted(start, s.(mode := mode)) <==> Accounted(start, s)
    ensures Synced(s.(mode := mode)) <==> Synced(s)
  {
  }

  lemma DispatchLedgerIff(start: Tree, s: State, control: Control, fault: Fault)
    requires Sound(s, []) && Accounted(start, s) && Synced(s) && Allowed(s, control, fault)
    ensures var r := Dispatch(s, control, fault).state;
            && (Accounted(start, r) <==> !Unrecorded(s, control, fault)) && (Accounted(start, r) ==> Synced(r))
  {
    hide Sound, Accounted, Synced, ApplyOne, DiscardOne, ApplyAll, DiscardBreaks, UnrecordedAll, Resolve, Applies;
    match control
    case SetMode(mode) =>
      ModeLedger(start, s, mode);
      ModeLedger(start, ApplyAll(s, fault).state, mode);
      ApplyAllLedgerIff(start, s, fault);
    case ApplyCommit(id) =>
      ApplyOneLedgerIff(start, s, id, fault);
    case DiscardCommit(id) =>
      DiscardUnbroken(s, id, fault);
      DiscardLedger(start, s, id);
    case ApplyQueue =>
      ApplyAllLedgerIff(start, s, fault);
  }

  // Runs.

  ghost predicate RecordedStep(s: State, c: Command) {
    c.Press? && !Halted(s, c.control, c.answers) ==> !Unrecorded(Sync(s, c.answers).state, c.control, c.fault)
  }

  ghost predicate RecordedRun(s: State, cs: seq<Command>) {
    cs == [] || (RecordedRun(s, cs[..|cs| - 1]) && RecordedStep(Run(s, cs[..|cs| - 1]), cs[|cs| - 1]))
  }

  lemma StepLedgerIff(start: Tree, s: State, c: Command)
    requires Accounted(start, s) && Invariant(s) && Guarded(s, c)
    ensures Accounted(start, Step(s, c)) <==> RecordedStep(s, c)
    ensures Accounted(start, Step(s, c)) && !c.UserEdit? ==> Synced(Step(s, c))
  {
    hide Accounted, Synced, Sync, Dispatch, FinishPatch, Sound, Unrecorded, Allowed;
    match c
    case Press(control, answers, fault) =>
      SyncLedger(start, s, answers);
      SyncSound(s, answers);
      if !Halted(s, control, answers) {
        DispatchLedgerIff(start, Sync(s, answers).state, control, fault);
      }
    case _ =>
      StepLedger(start, s, c);
  }

  /**
   In a guarded run the ledger is in order all along if and only if no Apply, Apply all or change from Review
   to Write fails behind its snapshot.
   */
  lemma {:induction false} GuardedRunsAccountedIff(parent: Tree, cs: seq<Command>)
    requires GuardedRun(Open(parent), cs)
    ensures Always(s => Accounted(parent, s), Open(parent), cs) <==> RecordedRun(Open(parent), cs)
    decreases |cs|
  {
    hide Invariant, Guarded, Step, RecordedStep, Always, Accounted;
    var accounted := (s: State) => Accounted(parent, s);
    if cs == [] {
      OpenAccounted(parent);
      AlwaysNone(accounted, Open(parent));
    } else {
      var front := cs[..|cs| - 1];
      GuardedRunsAccountedIff(parent, front);
      AlwaysSnoc(accounted, Open(parent), cs);
      if RecordedRun(Open(parent), front) {
        AlwaysLast(accounted, Open(parent), front);
        GuardedRunsAreSound(parent, front);
        StepLedgerIff(parent, Run(Open(parent), front), cs[|cs| - 1]);
      }
    }
  }

  lemma OpenAccounted(parent: Tree)
    ensures Accounted(parent, Open(parent))
  {
  }
}
