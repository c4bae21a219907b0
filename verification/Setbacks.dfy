/** Conservation of work when Applies fail late: exactly when a failed Apply reports work lost that it puts back. */
module Setbacks {
  import opened GitModel
  import opened ReviewSpec
  import opened Queue
  import opened Clean
  import opened Operations
  import opened Lineage
  import opened NameSafety
  import opened Confluence
  import opened Runs
  import opened Ledger
  import opened Conservation
  import opened Announced
  import opened Losses
  import opened Discards
  import opened LateFailure

  /** An Apply that finishes is the Apply without its fault. */
  lemma FinishedIsFaultless(s: State, d: Diff, rest: seq<Item>, fault: Fault)
    requires FinishApply(s, d, rest, fault).Done?
    ensures FinishApply(s, d, rest, fault) == FinishApply(s, d, rest, NoFault)
    ensures !(fault.AtReplay? && fault.k <= |rest|)
  {
  }

  /** The items an Apply of item k replays before a late failure breaks it off. */
  function Replayed(items: seq<Item>, k: nat, fault: Fault): seq<Item>
    requires k < |items|
  {
    if fault.AtReplay? && 0 < fault.k < |items| then RemoveAt(items, k)[..fault.k - 1] else []
  }

  /**
   What an Apply by id replays before it breaks off has its place on the parent as it is: nothing is in
   the way, and something of it is not there yet.
   */
  predicate Steady(s: State, control: Control, fault: Fault) {
    control.ApplyCommit? ==>
      var k := Position(s.commits, Resolve(s.aliases, control.id));
      k < |s.commits| && Applies(s.commits[k].diff, s.parent) ==>
        forall i | 0 <= i < |Replayed(s.commits, k, fault)| :: Picks(Replayed(s.commits, k, fault)[i].diff, s.parent)
  }

  lemma ApplyOneFinished(s: State, id: Id, fault: Fault)
    requires ApplyOne(s, id, fault).Done?
    ensures ApplyOne(s, id, fault) == ApplyOne(s, id, NoFault) && Steady(s, ApplyCommit(id), fault)
  {
    hide FinishApply, Position, Resolve, Applies, Applied, Picks;
    var k := Position(s.commits, Resolve(s.aliases, id));
    FinishedIsFaultless(s, s.commits[k].diff, RemoveAt(s.commits, k), fault);
    RemoveLength(s.commits, k);
  }

  lemma ApplyAllFinished(s: State, fault: Fault)
    requires ApplyAll(s, fault).Done?
    ensures ApplyAll(s, fault) == ApplyAll(s, NoFault)
  {
    hide FinishApply, QueueDiff, Applies, Applied;
    if s.commits != [] {
      FinishedIsFaultless(s, QueueDiff(s), [], fault);
    }
  }

  // What a failed Apply reports.

  lemma FinishApplyLost(s: State, d: Diff, rest: seq<Item>, fault: Fault)
    requires Sound(s, []) && Applies(d, s.parent) && Held(s, rest)
    requires FinishApply(s, d, rest, fault).Failed?
    ensures FinishApply(s, d, rest, fault).state.history.lost
         == s.history.lost + LostBefore(rest, Apply(d, s.parent), fault)
  {
    hide Sound, AllMatch, SameWork, Adopt, Rollback, Apply, Applies, Extends, LostBefore, Held, Strays;
    SoundHeld(s);
    QueueMatchesBase(s);
    ExtendsReflexive(s.repo);
    var s1 := s.(parent := Apply(d, s.parent), commits := rest);
    HeldHere(s, s1, rest);
    LingeringHere(s, s1, {});
    AdoptLost(s1, fault);
    AdoptSound(s1, fault);
    var r1 := Adopt(s1, fault).state;
    HeldLater(s, r1, s.commits);
    ExtendsAt(s1.repo, r1.repo, s.baseline);
    RollbackRestores(r1, d, s.parent, s.commits, s.baseline);
  }

  /** What a failed Apply by id reports as lost: of the items it got to, those that have no place on the parent. */
  function Misreported(s: State, name: Id, fault: Fault): seq<Item> {
    var k := Position(s.commits, Resolve(s.aliases, name));
    if k < |s.commits| && Applies(s.commits[k].diff, s.parent) then Unpicked(Replayed(s.commits, k, fault), s.parent)
    else []
  }

  lemma OthersElsewhere(s: State, k: nat, fault: Fault)
    requires Sound(s, []) && k < |s.commits|
    ensures LostBefore(RemoveAt(s.commits, k), Apply(s.commits[k].diff, s.parent), fault)
         == Unpicked(Replayed(s.commits, k, fault), s.parent)
  {
    hide Unpicked, Linked;
    RemoveLength(s.commits, k);
    var d, early := s.commits[k].diff, Replayed(s.commits, k, fault);
    forall i, p | 0 <= i < |early| && p in early[i].diff
      ensures Get(Apply(d, s.parent), p) == Get(s.parent, p)
    {
      assert early[i] == RemoveAt(s.commits, k)[i];
      var j := if i < k then i else i + 1;
      assert s.commits[j].diff.Keys !! d.Keys && p in s.commits[j].diff.Keys;
    }
    UnpickedElsewhere(early, Apply(d, s.parent), s.parent);
    NoneUnpicked(s.parent);
  }

  /** A failed Apply by id puts the queue back and reports exactly these items as lost all the same. */
  lemma FailedApplyReports(s: State, name: Id, fault: Fault)
    requires Sound(s, []) && ApplyOne(s, name, fault).Failed?
    ensures var r := ApplyOne(s, name, fault).state;
            && SameWork(r.commits, s.commits)
            && r.history.lost == s.history.lost + Misreported(s, name, fault)
            && r.history.committed == s.history.committed && r.history.applied == s.history.applied
            && r.history.discarded == s.history.discarded
  {
    hide FinishApply, Sound, Held, Applies, SameWork, Apply, Resolve, Unpicked, LostBefore, RemoveAt, Replayed;
    var k := Position(s.commits, Resolve(s.aliases, name));
    if k < |s.commits| && Applies(s.commits[k].diff, s.parent) {
      SoundHeld(s);
      HeldWithout(s, s.commits, k);
      FinishApplySound(s, s.commits[k].diff, RemoveAt(s.commits, k), fault);
      FinishApplyLost(s, s.commits[k].diff, RemoveAt(s.commits, k), fault);
      OthersElsewhere(s, k, fault);
    } else {
      SameWorkRefl(s.commits);
    }
  }

  lemma FailedApplyAllReports(s: State, fault: Fault)
    requires Sound(s, []) && ApplyAll(s, fault).Failed?
    ensures var r := ApplyAll(s, fault).state;
            && SameWork(r.commits, s.commits) && r.history.lost == s.history.lost
            && r.history.committed == s.history.committed && r.history.applied == s.history.applied
            && r.history.discarded == s.history.discarded
  {
    hide FinishApply, Sound, Held, Applies, SameWork, Apply, QueueDiff;
    if s.commits != [] && Applies(QueueDiff(s), s.parent) {
      SoundHeld(s);
      HeldNone(s, s.commits);
      FinishApplySound(s, QueueDiff(s), [], fault);
      FinishApplyLost(s, QueueDiff(s), [], fault);
    } else {
      SameWorkRefl(s.commits);
    }
  }

  // Conservation.

  lemma {:induction false} UnpickedPurposeful(items: seq<Item>, t: Tree)
    requires Purposeful(items)
    ensures Purposeful(Unpicked(items, t))
  {
    hide Picks;
    if items != [] {
      UnpickedPurposeful(items[1..], t);
    }
  }

  lemma ReplayedPurposeful(items: seq<Item>, k: nat, fault: Fault)
    requires Purposeful(items) && k < |items|
    ensures Purposeful(Replayed(items, k, fault))
  {
  }

  /** Work that is both pending and lost tips the balance. */
  lemma BackAndLost(s: State, r: State, lost: seq<Item>)
    requires Balanced(s) && SameWork(r.commits, s.commits) && r.history.lost == s.history.lost + lost
    requires r.history.committed == s.history.committed && r.history.applied == s.history.applied
    requires r.history.discarded == s.history.discarded && Purposeful(lost)
    ensures Balanced(r) <==> lost == []
  {
    hide Purposes;
    SameWorkSamePurposes(r.commits, s.commits);
    Concat(s.history.lost, lost);
    NoPurposes();
    if lost != [] {
      SomePurpose(lost);
      assert Pending(r) == Pending(s) + Purposes(lost);
      Surplus(s.history.applied + s.history.discarded, Pending(s), Purposes(lost));
    }
  }

  lemma Surplus(a: multiset<string>, b: multiset<string>, c: multiset<string>)
    requires c != multiset{}
    ensures a + (b + c) != a + b
  {
    assert |a + (b + c)| == |a| + |b| + |c|;
    assert |c| > 0;
  }

  /** An Apply by id keeps all work accounted for if and only if it is steady. */
  lemma ApplyOneBalancedIff(s: State, id: Id, fault: Fault)
    requires Balanced(s) && Sound(s, []) && Purposeful(s.commits)
    ensures Balanced(ApplyOne(s, id, fault).state) <==> Steady(s, ApplyCommit(id), fault)
  {
    hide Balanced, Sound, ApplyOne, SameWork, Picks, Applies, Resolve, Unpicked, Replayed, Purposeful;
    if ApplyOne(s, id, fault).Done? {
      ApplyOneFinished(s, id, fault);
      ApplyOneBalanced(s, id);
    } else {
      FailedApplyReports(s, id, fault);
      var k := Position(s.commits, Resolve(s.aliases, id));
      if k < |s.commits| {
        ReplayedPurposeful(s.commits, k, fault);
        UnpickedPurposeful(Replayed(s.commits, k, fault), s.parent);
        UnpickedNone(Replayed(s.commits, k, fault), s.parent);
      }
      assert Purposeful([]) by { NonePurposeful(); }
      BackAndLost(s, ApplyOne(s, id, fault).state, Misreported(s, id, fault));
    }
  }

  lemma NonePurposeful()
    ensures Purposeful([])
  {
  }

  lemma ApplyAllBalancedToo(s: State, fault: Fault)
    requires Balanced(s) && Sound(s, [])
    ensures Balanced(ApplyAll(s, fault).state)
  {
    hide Balanced, Sound, ApplyAll, SameWork;
    if ApplyAll(s, fault).Done? {
      ApplyAllFinished(s, fault);
      ApplyAllBalanced(s);
    } else {
      FailedApplyAllReports(s, fault);
      assert s.history.lost + [] == s.history.lost;
      BackAndLost(s, ApplyAll(s, fault).state, []);
    }
  }

  lemma DispatchBalancedIff(s: State, control: Control, fault: Fault)
    requires Balanced(s) && Sound(s, []) && Purposeful(s.commits) && Allowed(s, control, fault)
    ensures Balanced(Dispatch(s, control, fault).state) <==> Steady(s, control, fault)
  {
    hide Sound, ApplyOne, DiscardOne, ApplyAll, Purposes, Picks, Replayed, DiscardBreaks;
    match control
    case SetMode(mode) => ApplyAllBalancedToo(s, fault);
    case ApplyCommit(id) => ApplyOneBalancedIff(s, id, fault);
    case DiscardCommit(id) =>
      DiscardUnbroken(s, id, fault);
      DiscardBalanced(s, id);
    case ApplyQueue => ApplyAllBalancedToo(s, fault);
  }

  /** Every Apply of the run is steady when its turn comes. */
  ghost predicate SteadyStep(s: State, c: Command) {
    c.Press? ==> Steady(Sync(s, c.answers).state, c.control, c.fault)
  }

  ghost predicate SteadyRun(s: State, cs: seq<Command>) {
    cs == [] || (SteadyRun(s, cs[..|cs| - 1]) && SteadyStep(Run(s, cs[..|cs| - 1]), cs[|cs| - 1]))
  }

  lemma StepBalancedIff(s: State, c: Command)
    requires Balanced(s) && Invariant(s) && Purposeful(s.commits) && Guarded(s, c)
    ensures Balanced(Step(s, c)) <==> SteadyStep(s, c)
  {
    hide Sync, Dispatch, FinishPatch, Purposes, Sound, Steady, Allowed;
    match c
    case Press(control, answers, fault) =>
      SyncBalanced(s, answers);
      SyncSound(s, answers);
      SyncPurposeful(s, answers);
      OnlyApplies(Sync(s, answers).state, control, fault);
      if !Halted(s, control, answers) {
        DispatchBalancedIff(Sync(s, answers).state, control, fault);
      }
    case _ =>
      StepBalanced(s, c);
  }

  lemma OnlyApplies(s: State, control: Control, fault: Fault)
    ensures !control.ApplyCommit? ==> Steady(s, control, fault)
  {
  }

  /**
   In a guarded run, failures included, the work is accounted for all along if and only if every Apply by id
   is steady when its turn comes.
   */
  lemma {:induction false} GuardedRunsBalancedIff(parent: Tree, cs: seq<Command>)
    requires GuardedRun(Open(parent), cs)
    ensures Always(Balanced, Open(parent), cs) <==> SteadyRun(Open(parent), cs)
    decreases |cs|
  {
    hide Invariant, Guarded, Step, SteadyStep, Always, Balanced, Purposeful;
    if cs == [] {
      OpenBalanced(parent);
      AlwaysNone(Balanced, Open(parent));
    } else {
      var front := cs[..|cs| - 1];
      GuardedRunsBalancedIff(parent, front);
      AlwaysSnoc(Balanced, Open(parent), cs);
      if SteadyRun(Open(parent), front) {
        AlwaysLast(Balanced, Open(parent), front);
        GuardedRunsAreSound(parent, front);
        RunsArePurposeful(parent, front);
        StepBalancedIff(Run(Open(parent), front), cs[|cs| - 1]);
      }
    }
  }

  lemma OpenBalanced(parent: Tree)
    ensures Balanced(Open(parent))
  {
  }

  /**
   Conservation of work in guarded runs, failures included: counted with multiplicity, every purpose
   committed for review is queued, on the parent, discarded by the user or reported lost, and in one of
   these places only.
   */
  lemma GuardedRunsAreBalanced(parent: Tree, cs: seq<Command>)
    requires GuardedRun(Open(parent), cs) && SteadyRun(Open(parent), cs)
    ensures var s := Run(Open(parent), cs);
            s.history.committed == s.history.applied + s.history.discarded
                                   + (Purposes(s.commits) + Purposes(s.history.lost))
  {
    hide GuardedRun, SteadyRun, Run, Purposes, Always;
    GuardedRunsBalancedIff(parent, cs);
    AlwaysLast(Balanced, Open(parent), cs);
  }

  /** While the parent is the tree the queue is based on, every Apply is steady. */
  lemma BasedIsSteady(s: State, control: Control, fault: Fault)
    requires Sound(s, []) && s.parent == TreeOf(s, s.baseline)
    ensures Steady(s, control, fault)
  {
    hide Resolve, Picks, Applies, Sound;
    if control.ApplyCommit? {
      var k := Position(s.commits, Resolve(s.aliases, control.id));
      if k < |s.commits| {
        forall i | 0 <= i < |Replayed(s.commits, k, fault)|
          ensures Picks(Replayed(s.commits, k, fault)[i].diff, s.parent)
        {
          QueuedPicks(s, if i < k then i else i + 1);
        }
      }
    }
  }

  lemma QueuedPicks(s: State, i: nat)
    requires Sound(s, []) && i < |s.commits|
    ensures Picks(s.commits[i].diff, TreeOf(s, s.baseline))
  {
    AppliesAlone(s.repo, s.baseline, s.commits, [], i);
    var p :| p in s.commits[i].diff;
    assert s.commits[i].diff[p].before != s.commits[i].diff[p].after;
  }

  // How the parent comes to leave the tree the queue is based on.

  /**
   An Apply that fails after the snapshot leaves the observation on the patched tree.  If the user then makes
   that very change by hand, synchronization sees nothing to do, and the queue stays based on a tree the
   parent has left.
   */
  lemma EditAfterFailureIsUnseen(s: State, name: Id, k: nat, fault: Fault, answers: seq<Answer>)
    requires Good(s) && k < |s.commits| && Resolve(s.aliases, name) == s.commits[k].id
    requires fault.AtReplay? && fault.k < |s.commits|
    ensures var d := s.commits[k].diff;
            var o := ApplyOne(s, name, fault);
            var e := Step(o.state, UserEdit(Apply(d, s.parent)));
            && o.Failed? && o.state.history.lost == s.history.lost
            && Sound(e, []) && Tracked(e) && Synced(e) && SameWork(e.commits, s.commits)
            && e.parent == Apply(d, TreeOf(e, e.baseline)) != TreeOf(e, e.baseline)
            && Sync(e, answers) == SyncResult(Snapshot(e), false)
  {
    hide AllStored, Apart, Tracked, Held, SameWork, FinishApply, Apply, RemoveAt, SyncLoop, SyncChanged, DiffOf,
         Matches, ApplyOne, Effective, Resolve;
    var d, o := s.commits[k].diff, ApplyOne(s, name, fault);
    AppliesAlone(s.repo, s.baseline, s.commits, [], k);
    BreaksInside(s, name, k, fault);
    FailedApplyIsUndone(s, name, fault);
    ObservesPatched(s, name, k, fault);
    ApplyOneSound(s, name, fault);
    ApplyOneNames(s, name, fault);
    var r := o.state;
    assert s.repo[s.baseline] == r.repo[s.baseline] by {
      BaselineStays(s, r);
    }
    EditInvariantOnly(r, Apply(d, s.parent));
    PatchChanges(d, s.parent);
    var e := Step(r, UserEdit(Apply(d, s.parent)));
    SameNames(s, r, e);
    assert TreeOf(Snapshot(e), e.observed) == TreeOf(e, e.observed) by {
      ObservedInStore(e);
    }
  }

  lemma BreaksInside(s: State, name: Id, k: nat, fault: Fault)
    requires Tracked(s) && k < |s.commits| && Resolve(s.aliases, name) == s.commits[k].id
    requires fault.AtReplay? && fault.k < |s.commits|
    ensures ApplyOne(s, name, fault).Failed?
  {
    hide Tracked, Resolve, ReplayAll, CherryPick, Apply;
    FoundAt(s, name, k);
    RemoveLength(s.commits, k);
  }

  lemma ObservesPatched(s: State, name: Id, k: nat, fault: Fault)
    requires Good(s) && k < |s.commits| && Resolve(s.aliases, name) == s.commits[k].id
    requires fault.AtReplay? && ApplyOne(s, name, fault).Failed?
    ensures var r := ApplyOne(s, name, fault).state;
            TreeOf(r, r.observed) == Apply(s.commits[k].diff, s.parent)
  {
    hide AllStored, Apart, Tracked, Held, SameWork, FinishApply, Apply, RemoveAt, Resolve, Effective, AllMatch;
    FoundAt(s, name, k);
    AppliesAlone(s.repo, s.baseline, s.commits, [], k);
    SoundHeld(s);
    HeldWithout(s, s.commits, k);
    FailureIsUndone(s, s.commits[k].diff, RemoveAt(s.commits, k), fault);
  }

  lemma BaselineStays(s: State, r: State)
    requires Extends(s.repo, r.repo) && Sound(s, [])
    ensures s.baseline < |s.repo| <= |r.repo| && s.repo[s.baseline] == r.repo[s.baseline]
  {
  }

  lemma EditInvariantOnly(s: State, tree: Tree)
    requires Sound(s, [])
    ensures Sound(Step(s, UserEdit(tree)), [])
  {
    hide Struct, AtTip, StraysApart, DiffOf;
    SoundSame(s, Step(s, UserEdit(tree)), []);
  }

  lemma PatchChanges(d: Diff, t: Tree)
    requires Applies(d, t) && Effective(d)
    ensures Apply(d, t) != t
  {
  }

  // What a failed Apply then reports.

  lemma {:induction false} UnpickedOne(items: seq<Item>, t: Tree, m: nat)
    requires forall i | 0 <= i < |items| && i != m :: Picks(items[i].diff, t)
    requires m < |items| ==> !Picks(items[m].diff, t)
    ensures Unpicked(items, t) == if m < |items| then [items[m]] else []
    decreases |items|
  {
    hide Picks;
    if items != [] {
      assert forall i | 0 <= i < |items| - 1 :: items[1..][i] == items[i + 1];
      if m == 0 {
        UnpickedNone(items[1..], t);
      } else {
        UnpickedOne(items[1..], t, m - 1);
      }
    }
  }

  /** On a parent that item i has been put on by hand, item i has nothing left to do and the others are free. */
  lemma StalePicks(s: State, i: nat, j: nat)
    requires Sound(s, []) && i < |s.commits| && j < |s.commits|
    requires s.parent == Apply(s.commits[i].diff, TreeOf(s, s.baseline))
    ensures Picks(s.commits[j].diff, s.parent) <==> i != j
    ensures i != j ==> Applies(s.commits[j].diff, s.parent)
  {
    hide Picks, Linked, Applies, Apply;
    QueuedPicks(s, j);
    AppliesAlone(s.repo, s.baseline, s.commits, [], j);
    if i != j {
      assert s.commits[i].diff.Keys !! s.commits[j].diff.Keys;
      PatchedElsewhere(s.commits[j].diff, s.commits[i].diff, TreeOf(s, s.baseline));
    } else {
      NothingLeft(s.commits[i].diff, TreeOf(s, s.baseline));
    }
  }

  lemma PatchedElsewhere(a: Diff, b: Diff, t: Tree)
    requires a.Keys !! b.Keys
    ensures Picks(a, Apply(b, t)) <==> Picks(a, t)
    ensures Applies(a, Apply(b, t)) <==> Applies(a, t)
  {
    MatchesElsewhere(a, b, t);
    SamePicks(a, Apply(b, t), t);
  }

  lemma NothingLeft(d: Diff, t: Tree)
    ensures !Picks(d, Apply(d, t))
  {
  }

  /**
   From such a state an Apply of another item that fails after the stale item's turn puts the whole queue
   back and reports the stale item, and no other, as lost.
   */
  lemma StaleFailureReportsPendingWork(s: State, name: Id, i: nat, j: nat, fault: Fault)
    requires Sound(s, []) && Tracked(s) && i < |s.commits| && j < |s.commits| && i != j
    requires Resolve(s.aliases, name) == s.commits[j].id && fault.AtReplay? && fault.k < |s.commits|
    requires s.parent == Apply(s.commits[i].diff, TreeOf(s, s.baseline))
    ensures var o := ApplyOne(s, name, fault);
            && o.Failed? && SameWork(o.state.commits, s.commits)
            && o.state.history.lost == s.history.lost
                 + (if (if i < j then i + 1 else i) < fault.k then [s.commits[i]] else [])
  {
    hide Sound, Tracked, SameWork, Picks, Applies, Apply, ApplyOne, Resolve, Unpicked;
    FoundAt(s, name, j);
    BreaksInside(s, name, j, fault);
    FailedApplyReports(s, name, fault);
    StalePicks(s, i, j);
    RemoveLength(s.commits, j);
    var early, m := Replayed(s.commits, j, fault), if i < j then i else i - 1;
    forall x | 0 <= x < |early|
      ensures Picks(early[x].diff, s.parent) <==> x != m
    {
      StalePicks(s, i, if x < j then x else x + 1);
    }
    UnpickedOne(early, s.parent, m);
  }
}
