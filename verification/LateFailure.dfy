/** Rolling back a late failure, and the one trace it leaves. */
module LateFailure {
  import opened GitModel
  import opened ReviewSpec
  import opened Queue
  import opened Replay
  import opened Clean
  import opened Operations
  import opened Lineage
  import opened Confluence
  import opened Orders
  import opened Ledger

  lemma AllMatchPrefix(items: seq<Item>, n: nat, t: Tree)
    requires AllMatch(items, t) && n <= |items|
    ensures AllMatch(items[..n], t)
  {
  }

  /** Replaying on matching ground reports no loss, however far it gets. */
  lemma ReplayOntoQuiet(s: State, base: Id, fault: Fault)
    requires Held(s, s.commits) && base < |s.repo| && AllMatch(s.commits, TreeOf(s, base))
    ensures ReplayOnto(s, base, fault).state.history.lost == s.history.lost
  {
    hide Held, Sound, AllMatch, SameWork, Apart, AllStored;
    if ReplayOnto(s, base, fault).Done? {
      NoBreak(s, base, fault);
      ReplayOntoClean(s, base);
    } else if fault != AtReplay(0) {
      var n := fault.k - 1;
      var done := s.commits[..n];
      HeldPrefix(s, s.commits, n);
      StartSound(s, base, done);
      AllMatchPrefix(s.commits, n, TreeOf(s, base));
      var start := StartReplay(s, base);
      ReadyStart(start, done);
      ReplayAllClean(start, done);
      PickQuiet(ReplayAll(start, done), s.commits[n].id);
    }
  }

  lemma ReadyStart(s: State, items: seq<Item>)
    requires Sound(s, Footprints(items)) && AllStored(s.repo, items) && AllMatch(items, TreeOf(s, s.head))
    ensures Ready(s, items)
  {
  }

  lemma PickQuiet(s: State, id: Id)
    ensures CherryPick(s, id).Picked? ==> CherryPick(s, id).state.history.lost == s.history.lost
  {
  }

  /** Where the snapshot was taken before the failure, the observation has already moved. */
  lemma AdoptObserves(s: State, fault: Fault)
    requires Held(s, s.commits) && Adopt(s, fault).Failed?
    ensures var r := Adopt(s, fault).state;
            && (fault == AtSnapshot ==> r == s)
            && (fault != AtSnapshot ==> r.observed == |s.repo| && TreeOf(r, r.observed) == s.parent)
  {
    if fault != AtSnapshot {
      var snap := Snapshot(s).(observed := |s.repo|);
      assert Extends(s.repo, snap.repo) && TreeOf(snap, |s.repo|) == s.parent;
      HeldHere(s, snap, s.commits);
      hide Held, ReplayOnto;
      ReplayOntoBreaks(snap, |s.repo|, fault);
    }
  }

  lemma AdoptQuiet(s: State, fault: Fault)
    requires Held(s, s.commits) && AllMatch(s.commits, s.parent)
    ensures Adopt(s, fault).state.history.lost == s.history.lost
  {
    if fault != AtSnapshot {
      var snap := Snapshot(s).(observed := |s.repo|);
      assert Extends(s.repo, snap.repo) && TreeOf(snap, |s.repo|) == s.parent;
      HeldHere(s, snap, s.commits);
      hide Held, ReplayOnto, AllMatch;
      ReplayOntoQuiet(snap, |s.repo|, fault);
    }
  }

  /**
   A failure after the parent was patched is undone exactly: parent and baseline are the old ones and the
   queue is rebuilt with the same work in the same order.  Nothing is reported lost if every other item
   had its preimages on the patched parent.  Only the observation may have moved: it stays on the patched
   tree unless the snapshot itself failed.
   */
  lemma FailureIsUndone(s: State, d: Diff, rest: seq<Item>, fault: Fault)
    requires Sound(s, []) && Synced(s) && Applies(d, s.parent) && Held(s, rest)
    requires FinishApply(s, d, rest, fault).Failed?
    ensures var r := FinishApply(s, d, rest, fault).state;
            && r.parent == s.parent && r.baseline == s.baseline && SameWork(r.commits, s.commits)
            && (AllMatch(rest, Apply(d, s.parent)) ==> r.history.lost == s.history.lost)
            && r.history.ledger == s.history.ledger
            && TreeOf(r, r.observed) == (if fault == AtSnapshot then s.parent else Apply(d, s.parent))
  {
    hide Sound, Held, AllMatch, SameWork, Adopt, Rollback, Apply, Applies, Extends, Strays;
    SoundHeld(s);
    QueueMatchesBase(s);
    ExtendsReflexive(s.repo);
    var s1 := s.(parent := Apply(d, s.parent), commits := rest);
    HeldHere(s, s1, rest);
    LingeringHere(s, s1, {});
    AdoptObserves(s1, fault);
    if AllMatch(rest, Apply(d, s.parent)) {
      AdoptQuiet(s1, fault);
    }
    AdoptSound(s1, fault);
    var r1 := Adopt(s1, fault).state;
    HeldLater(s, r1, s.commits);
    ExtendsAt(s1.repo, r1.repo, s.baseline);
    RollbackRestores(r1, d, s.parent, s.commits, s.baseline);
    var r := Rollback(r1, d, s.commits, s.baseline);
    ExtendsAt(r1.repo, r.repo, r1.observed);
  }

  /** A failed Apply is undone; it reports no loss if the parent still is the tree the queue is based on. */
  lemma FailedApplyIsUndone(s: State, name: Id, fault: Fault)
    requires Sound(s, []) && Synced(s) && ApplyOne(s, name, fault).Failed?
    ensures var r := ApplyOne(s, name, fault).state;
            && r.parent == s.parent && r.baseline == s.baseline && SameWork(r.commits, s.commits)
            && (s.parent == TreeOf(s, s.baseline) ==> r.history.lost == s.history.lost)
            && r.history.ledger == s.history.ledger
  {
    var k := Position(s.commits, Resolve(s.aliases, name));
    if k == |s.commits| || !Applies(s.commits[k].diff, s.parent) {
      SameWorkRefl(s.commits);
    } else {
      SoundHeld(s);
      HeldWithout(s, s.commits, k);
      OthersMatch(s, k);
      hide Sound, Held, AllMatch, SameWork, FinishApply, Apply, Applies, RemoveAt;
      FailureIsUndone(s, s.commits[k].diff, RemoveAt(s.commits, k), fault);
    }
  }

  lemma FailedApplyAllIsUndone(s: State, fault: Fault)
    requires Sound(s, []) && Synced(s) && ApplyAll(s, fault).Failed?
    ensures var r := ApplyAll(s, fault).state;
            && r.parent == s.parent && r.baseline == s.baseline && SameWork(r.commits, s.commits)
            && r.history.lost == s.history.lost && r.history.ledger == s.history.ledger
  {
    if s.commits == [] || !Applies(QueueDiff(s), s.parent) {
      SameWorkRefl(s.commits);
    } else {
      SoundHeld(s);
      HeldNone(s, s.commits);
      assert AllMatch([], Apply(QueueDiff(s), s.parent));
      hide Sound, Held, SameWork, FinishApply, Apply, Applies, QueueDiff;
      FailureIsUndone(s, QueueDiff(s), [], fault);
    }
  }

  /**
   The trace a failed Apply leaves: the next synchronization reports the undoing of our own patch as an
   external change, exactly when the failure came after the snapshot.
   */
  lemma FailedApplyIsMisreported(s: State, name: Id, k: nat, fault: Fault, answers: seq<Answer>)
    requires Good(s) && k < |s.commits| && Resolve(s.aliases, name) == s.commits[k].id
    requires ApplyOne(s, name, fault).Failed?
    ensures var r := ApplyOne(s, name, fault).state;
            var d := s.commits[k].diff;
            var ledger := Sync(r, answers).state.history.ledger;
            && (fault == AtSnapshot ==> ledger == s.history.ledger)
            && (fault != AtSnapshot ==> ledger == s.history.ledger + [External(DiffOf(Apply(d, s.parent), s.parent))])
            && (fault != AtSnapshot ==> DiffOf(Apply(d, s.parent), s.parent) != map[])
  {
    FoundAt(s, name, k);
    AppliesAlone(s.repo, s.baseline, s.commits, [], k);
    SoundHeld(s);
    HeldWithout(s, s.commits, k);
    OthersMatch(s, k);
    var d := s.commits[k].diff;
    DiffOfApply(d, s.parent);
    EmptyDiff(s.parent, Apply(d, s.parent));
    EmptyDiff(Apply(d, s.parent), s.parent);
    FinishApplySound(s, d, RemoveAt(s.commits, k), fault);
    hide Sound, Tracked, Held, AllMatch, SameWork, FinishApply, Apply, Applies, RemoveAt, DiffOf, Effective;
    FailureIsUndone(s, d, RemoveAt(s.commits, k), fault);
    SyncReports(ApplyOne(s, name, fault).state, answers);
  }

  /** So is a failed Apply all, and a failed change from Review to Write. */
  lemma FailedApplyAllIsMisreported(s: State, control: Control, fault: Fault, answers: seq<Answer>)
    requires Good(s) && Dispatch(s, control, fault).Failed?
    requires control == ApplyQueue || (control == SetMode(Write) && s.mode == Review)
    ensures var r := Dispatch(s, control, fault).state;
            var patched := Apply(QueueDiff(s), s.parent);
            var ledger := Sync(r, answers).state.history.ledger;
            && (fault == AtSnapshot ==> ledger == s.history.ledger)
            && (fault != AtSnapshot ==> ledger == s.history.ledger + [External(DiffOf(patched, s.parent))])
            && (fault != AtSnapshot ==> DiffOf(patched, s.parent) != map[])
  {
    hide Sound, Tracked, Held, AllMatch, SameWork, FinishApply, Apply, Applies, DiffOf, QueueDiff, ApplySeq, Sync;
    DispatchIsApplyAll(s, control, fault);
    assert s.commits != [];
    QueueChanges(s);
    SoundHeld(s);
    HeldNone(s, s.commits);
    PatchShows(s);
    FinishApplySound(s, QueueDiff(s), [], fault);
    FailureIsUndone(s, QueueDiff(s), [], fault);
    ObservedInStore(ApplyAll(s, fault).state);
    SyncReports(ApplyAll(s, fault).state, answers);
  }

  lemma DispatchIsApplyAll(s: State, control: Control, fault: Fault)
    requires Dispatch(s, control, fault).Failed?
    requires control == ApplyQueue || (control == SetMode(Write) && s.mode == Review)
    ensures ApplyAll(s, fault) == Dispatch(s, control, fault)
  {
    hide ApplyAll;
  }

  /** The patch Apply all puts on the parent changes it. */
  lemma PatchShows(s: State)
    requires Applies(QueueDiff(s), s.parent)
    ensures Apply(QueueDiff(s), s.parent) != s.parent
    ensures DiffOf(Apply(QueueDiff(s), s.parent), s.parent) != map[]
  {
    var d := QueueDiff(s);
    DiffApplies(TreeOf(s, s.baseline), TreeOf(s, Tip(s)));
    var p :| p in d;
    assert Get(Apply(d, s.parent), p) != Get(s.parent, p);
    EmptyDiff(Apply(d, s.parent), s.parent);
  }

  lemma ObservedInStore(s: State)
    requires Sound(s, [])
    ensures s.observed < |s.repo|
  {
  }

  lemma SyncReports(s: State, answers: seq<Answer>)
    requires s.observed < |s.repo|
    ensures Sync(s, answers).state.history.ledger
         == if s.parent == TreeOf(s, s.observed) then s.history.ledger
            else s.history.ledger + [External(DiffOf(TreeOf(s, s.observed), s.parent))]
  {
    hide SyncLoop, SyncChanged, DiffOf;
    SyncLoopFrame(StartReplay(Snapshot(s), |s.repo|), s.commits, answers);
    assert TreeOf(Snapshot(s), s.observed) == TreeOf(s, s.observed);
  }
}
