/** Every queue operation keeps the queue sound, also when a late stage of it fails. */
module Operations {
  import opened GitModel
  import opened ReviewSpec
  import opened Queue
  import opened Replay
  import opened Clean

  /** What no replay touches, except that it may move the baseline. */
  predicate SameOuter(s: State, r: State) {
    && r.parent == s.parent && r.observed == s.observed && r.mode == s.mode
    && r.history.ledger == s.history.ledger && r.history.committed == s.history.committed
    && r.history.applied == s.history.applied && r.history.discarded == s.history.discarded
  }

  /**
   Items that can be replayed anywhere: the store holds them, they touch disjoint paths, and no stray file is on
   one.
   */
  predicate Held(s: State, items: seq<Item>) {
    AllStored(s.repo, items) && Apart(items, []) && StraysFree(s, items) && s.observed < |s.repo|
  }

  lemma SoundHeld(s: State)
    requires Sound(s, [])
    ensures Held(s, s.commits) && s.baseline < |s.repo|
  {
  }

  lemma HeldLater(s: State, r: State, items: seq<Item>)
    requires Held(s, items) && Extends(s.repo, r.repo) && r.observed < |r.repo| && Strays(r).Keys <= Strays(s).Keys
    ensures Held(r, items)
  {
    hide Strays, Apart, StraysFree;
    FreeLater(s, r, items);
  }

  /** The same worktree, perhaps with a larger store. */
  lemma HeldHere(s: State, r: State, items: seq<Item>)
    requires Held(s, items) && Extends(s.repo, r.repo) && r.head == s.head && r.work == s.work
    requires r.observed == s.observed || r.observed < |r.repo|
    ensures Held(r, items)
  {
    hide Strays, AllStored, Apart, StraysFree;
    LingeringHere(s, r, {});
    HeldLater(s, r, items);
  }

  lemma HeldWithout(s: State, items: seq<Item>, k: nat)
    requires Held(s, items) && k < |items|
    ensures Held(s, RemoveAt(items, k))
  {
  }

  lemma SettleKeeps(s: State)
    requires Sound(s, [])
    ensures Sound(Settle(s), []) && SameOutside(s, Settle(s)) && Settle(s).repo == s.repo
    ensures Strays(Settle(s)) == Strays(s) && Settle(s).head == s.head
  {
    hide Struct, Covers, Strays, StraysApart;
    SameFiles(s, Settle(s));
    SoundSame(s, Settle(s), []);
  }

  lemma ReplayOntoSound(s: State, base: Id)
    requires Held(s, s.commits) && base < |s.repo|
    ensures ReplayOnto(s, base, NoFault).Done?
    ensures var r := ReplayOnto(s, base, NoFault).state;
            && Sound(r, []) && Extends(s.repo, r.repo) && SameOuter(s, r) && r.baseline == base
            && Lingering(s, r, TreeOf(s, base).Keys)
  {
    hide Sound, Extends, Apart, StraysFree, Strays;
    StartSound(s, base, s.commits);
    var start := StartReplay(s, base);
    ReplayAllSound(start, s.commits);
    SettleKeeps(ReplayAll(start, s.commits));
    HeadExists(ReplayOnto(s, base, NoFault).state, []);
  }

  /** A replay onto a tree with every preimage rebuilds the same work and loses nothing. */
  lemma ReplayOntoClean(s: State, base: Id)
    requires Held(s, s.commits) && base < |s.repo| && AllMatch(s.commits, TreeOf(s, base))
    ensures var r := ReplayOnto(s, base, NoFault).state;
            SameWork(r.commits, s.commits) && r.history.lost == s.history.lost
  {
    hide AllStored, Apart, AllMatch, SameWork, ReplayAll, StraysFree, Strays;
    StartSound(s, base, s.commits);
    var start := StartReplay(s, base);
    assert Ready(start, s.commits);
    ReplayAllClean(start, s.commits);
    assert start.commits + s.commits == s.commits;
  }

  /** A replay that breaks off leaves only the worktree and the queue for its caller to repair. */
  lemma ReplayOntoBreaks(s: State, base: Id, fault: Fault)
    requires Held(s, s.commits) && base < |s.repo|
    requires ReplayOnto(s, base, fault).Failed?
    ensures var r := ReplayOnto(s, base, fault).state;
            Extends(s.repo, r.repo) && SameOuter(s, r) && Lingering(s, r, TreeOf(s, base).Keys)
  {
    hide Sound, Held, CherryPick, Apart, AllStored, Extends, StraysFree, Strays, Stored, FreeOf;
    if fault != AtReplay(0) {
      var n := fault.k - 1;
      var done := s.commits[..n];
      var start := StartReplay(s, base);
      HeldPrefix(s, s.commits, n);
      StartSound(s, base, done);
      ReplayAllSound(start, done);
      var s2 := ReplayAll(start, done);
      HeadExists(s2, []);
      HeldAt(s, s2, n);
      PickFrame(s2, s.commits[n]);
      ExtendsTransitive(s.repo, ReplayAll(start, done).repo, ReplayOnto(s, base, fault).state.repo);
    } else {
      ExtendsReflexive(s.repo);
      LingeringHere(s, ReplayOnto(s, base, fault).state, TreeOf(s, base).Keys);
    }
  }

  lemma ExtendsReflexive(a: seq<Commit>)
    ensures Extends(a, a)
  {
  }

  lemma HeldPrefix(s: State, items: seq<Item>, n: nat)
    requires Held(s, items) && n <= |items|
    ensures Apart(items[..n], []) && AllStored(s.repo, items[..n]) && s.observed < |s.repo| && StraysFree(s, items[..n])
  {
    hide Strays;
  }

  lemma HeldAt(s: State, r: State, n: nat)
    requires Held(s, s.commits) && n < |s.commits| && Extends(s.repo, r.repo) && Strays(r).Keys <= Strays(s).Keys
    ensures Stored(r.repo, s.commits[n]) && FreeOf(r, s.commits[n].diff)
  {
    hide Strays, Apart;
    StoredLater(s.repo, r.repo, s.commits[n]);
    FreeLater(s, r, s.commits);
  }

  lemma PickFrame(s: State, item: Item)
    requires Stored(s.repo, item) && FreeOf(s, item.diff) && s.head < |s.repo|
    ensures var pick := CherryPick(s, item.id);
            pick.Picked? ==>
              && Extends(s.repo, pick.state.repo) && SameOuter(s, pick.state)
              && Strays(pick.state) == Strays(s) && pick.state.head < |pick.state.repo|
    ensures Extends(s.repo, s.repo)
  {
    if CherryPick(s, item.id).Picked? {
      PickStrays(s, item);
    }
  }

  lemma AdoptSound(s: State, fault: Fault)
    requires Held(s, s.commits)
    ensures var o := Adopt(s, fault);
            && Extends(s.repo, o.state.repo)
            && o.state.parent == s.parent && o.state.mode == s.mode && o.state.observed < |o.state.repo|
            && o.state.history.ledger == s.history.ledger
            && o.state.history.committed == s.history.committed
            && o.state.history.applied == s.history.applied
            && o.state.history.discarded == s.history.discarded
            && (o.Done? ==> Sound(o.state, []))
            && (o.Done? ==> o.state.observed == o.state.baseline && TreeOf(o.state, o.state.observed) == s.parent)
            && Lingering(s, o.state, s.parent.Keys)
  {
    hide Sound, Apart, AllStored, StraysFree, Strays, ReplayOnto;
    if fault == AtSnapshot {
      ExtendsReflexive(s.repo);
      LingeringHere(s, s, s.parent.Keys);
    } else {
      var snap := Snapshot(s).(observed := |s.repo|);
      assert Extends(s.repo, snap.repo) by { SnapshotExtends(s); }
      HeldHere(s, snap, s.commits);
      LingeringHere(s, snap, s.parent.Keys);
      assert TreeOf(snap, |s.repo|) == s.parent;
      if ReplayOnto(snap, |s.repo|, fault).Failed? {
        ReplayOntoBreaks(snap, |s.repo|, fault);
      } else {
        NoBreak(snap, |s.repo|, fault);
        ReplayOntoSound(snap, |s.repo|);
      }
      LingeringTwice(s, snap, ReplayOnto(snap, |s.repo|, fault).state, s.parent.Keys, s.parent.Keys);
      AdoptExtends(s, snap, fault);
    }
  }

  lemma SnapshotExtends(s: State)
    ensures Extends(s.repo, Snapshot(s).repo)
  {
  }

  lemma AdoptExtends(s: State, snap: State, fault: Fault)
    requires snap == Snapshot(s).(observed := |s.repo|)
             && Extends(snap.repo, ReplayOnto(snap, |s.repo|, fault).state.repo)
    ensures Extends(s.repo, ReplayOnto(snap, |s.repo|, fault).state.repo)
    ensures TreeOf(ReplayOnto(snap, |s.repo|, fault).state, |s.repo|) == s.parent
    ensures |s.repo| < |ReplayOnto(snap, |s.repo|, fault).state.repo|
  {
    hide ReplayOnto;
    var r := ReplayOnto(snap, |s.repo|, fault).state;
    ExtendsTransitive(s.repo, snap.repo, r.repo);
    assert snap.repo[|s.repo|] == r.repo[|s.repo|];
  }

  lemma NoBreak(s: State, base: Id, fault: Fault)
    requires ReplayOnto(s, base, fault).Done?
    ensures ReplayOnto(s, base, fault) == ReplayOnto(s, base, NoFault)
  {
  }

  /** Undoing a patch that is on the parent always works, and restores parent, baseline and queue. */
  lemma RollbackRestores(s: State, d: Diff, t: Tree, saved: seq<Item>, base: Id)
    requires Applies(d, t) && s.parent == Apply(d, t)
    requires Held(s, saved) && base < |s.repo|
    ensures ReverseOnParent(s, d).Some?
    ensures var r := Rollback(s, d, saved, base);
            && Sound(r, []) && Extends(s.repo, r.repo)
            && r.parent == t && r.baseline == base && r.mode == s.mode && r.observed == s.observed
            && r.history.ledger == s.history.ledger && r.history.committed == s.history.committed
            && r.history.applied == s.history.applied && r.history.discarded == s.history.discarded
            && (AllMatch(saved, TreeOf(s, base)) ==>
                 SameWork(r.commits, saved) && r.history.lost == s.history.lost)
            && Lingering(s, r, TreeOf(s, base).Keys)
  {
    hide Sound, Held, AllMatch, SameWork, Applies, Apply, Extends, ReplayOnto, Strays;
    ReverseRestores(d, t);
    var s1 := s.(parent := t, commits := saved);
    ExtendsReflexive(s.repo);
    HeldHere(s, s1, saved);
    SameFiles(s, s1);
    ReplayOntoSound(s1, base);
    if AllMatch(saved, TreeOf(s, base)) {
      ReplayOntoClean(s1, base);
    }
  }

  lemma QueueMatchesBase(s: State)
    requires Sound(s, [])
    ensures AllMatch(s.commits, TreeOf(s, s.baseline))
  {
    forall k | 0 <= k < |s.commits|
      ensures Matches(s.commits[k].diff, TreeOf(s, s.baseline))
    {
      AppliesAlone(s.repo, s.baseline, s.commits, [], k);
    }
  }

  lemma FinishApplySound(s: State, d: Diff, rest: seq<Item>, fault: Fault)
    requires Sound(s, []) && Applies(d, s.parent) && Held(s, rest)
    ensures var o := FinishApply(s, d, rest, fault);
            && Sound(o.state, []) && Extends(s.repo, o.state.repo) && o.state.mode == s.mode
            && o.state.history.ledger == s.history.ledger && o.state.history.committed == s.history.committed
            && o.state.history.applied == s.history.applied && o.state.history.discarded == s.history.discarded
            && (o.Done? ==> o.state.parent == Apply(d, s.parent) && o.state.observed == o.state.baseline)
            && (o.Done? ==> TreeOf(o.state, o.state.observed) == o.state.parent)
            && (o.Failed? ==> o.state.parent == s.parent && o.state.baseline == s.baseline)
            && (o.Failed? ==> SameWork(o.state.commits, s.commits))
            && Lingering(s, o.state, Apply(d, s.parent).Keys + TreeOf(s, s.baseline).Keys)
  {
    hide Sound, Held, Adopt, Rollback, AllMatch, SameWork, Apply, Applies, Extends, Strays;
    SoundHeld(s);
    QueueMatchesBase(s);
    var patched, over := Apply(d, s.parent), Apply(d, s.parent).Keys + TreeOf(s, s.baseline).Keys;
    var s1 := s.(parent := patched, commits := rest);
    ExtendsReflexive(s.repo);
    HeldHere(s, s1, rest);
    AdoptSound(s1, fault);
    var o := Adopt(s1, fault);
    LingeringHere(s, s1, patched.Keys);
    LingeringTwice(s, s1, o.state, patched.Keys, patched.Keys);
    if o.Failed? {
      HeldLater(s, o.state, s.commits);
      BaseStays(s, o.state);
      RollbackRestores(o.state, d, s.parent, s.commits, s.baseline);
      ExtendsTransitive(s.repo, o.state.repo, Rollback(o.state, d, s.commits, s.baseline).repo);
      LingeringTwice(s, o.state, Rollback(o.state, d, s.commits, s.baseline), patched.Keys, TreeOf(s, s.baseline).Keys);
    }
  }

  lemma BaseStays(s: State, r: State)
    requires Extends(s.repo, r.repo) && s.baseline < |s.repo|
    ensures s.baseline < |r.repo| && TreeOf(r, s.baseline) == TreeOf(s, s.baseline)
  {
  }

  // The operations.

  /** The files of the parent and of the tree the queue is based on. */
  function Ground(s: State): set<Path> {
    s.parent.Keys + TreeOf(s, s.baseline).Keys
  }

  /** Patching the parent away from the stray files clears none of them that the ground does not. */
  lemma PatchedGround(s: State, r: State, d: Diff)
    requires Lingering(s, r, Apply(d, s.parent).Keys + TreeOf(s, s.baseline).Keys)
    requires forall p | p in Strays(s) && p !in Ground(s) :: p !in d
    ensures Lingering(s, r, Ground(s))
  {
    hide Strays, TreeOf;
    forall p | p in Strays(s).Keys && p !in Ground(s)
      ensures p !in Apply(d, s.parent).Keys
    {
      assert Get(Apply(d, s.parent), p) == Get(s.parent, p);
    }
  }

  lemma StraysOffQueueDiff(s: State)
    requires AtTip(s)
    ensures forall p | p in Strays(s) && p !in Ground(s) :: p !in QueueDiff(s)
  {
  }

  lemma ApplyOneSound(s: State, name: Id, fault: Fault)
    requires Sound(s, [])
    ensures var o := ApplyOne(s, name, fault);
            && Sound(o.state, []) && Extends(s.repo, o.state.repo) && o.state.mode == s.mode
            && (o.Failed? ==> o.state.parent == s.parent && o.state.baseline == s.baseline)
            && (o.Failed? ==> SameWork(o.state.commits, s.commits))
            && Lingering(s, o.state, Ground(s))
  {
    hide FinishApply, Sound, Held, SameWork, Applies, RemoveAt, Strays, Resolve;
    var k := Position(s.commits, Resolve(s.aliases, name));
    ExtendsReflexive(s.repo);
    LingeringHere(s, s, Ground(s));
    SameWorkRefl(s.commits);
    if k < |s.commits| && Applies(s.commits[k].diff, s.parent) {
      SoundHeld(s);
      HeldWithout(s, s.commits, k);
      var o := FinishApply(s, s.commits[k].diff, RemoveAt(s.commits, k), fault);
      FinishApplySound(s, s.commits[k].diff, RemoveAt(s.commits, k), fault);
      AppliedSound(o.state, [s.commits[k]], s.commits[k].diff);
      StraysOffItem(s, k);
      PatchedGround(s, o.state, s.commits[k].diff);
    }
  }

  lemma StraysOffItem(s: State, k: nat)
    requires Sound(s, []) && k < |s.commits|
    ensures forall p | p in Strays(s) :: p !in s.commits[k].diff
  {
    hide Struct, AtTip, Strays;
  }

  lemma SoundAtTip(s: State)
    requires Sound(s, [])
    ensures AtTip(s)
  {
  }

  lemma AppliedSound(s: State, items: seq<Item>, d: Diff)
    requires Sound(s, [])
    ensures Sound(Applied(s, items, d), []) && Strays(Applied(s, items, d)) == Strays(s)
  {
    hide Sound, Strays;
    SameFiles(s, Applied(s, items, d));
    SoundKept(s, Applied(s, items, d));
  }

  lemma SoundKept(s: State, r: State)
    requires Sound(s, []) && r.repo == s.repo && r.head == s.head && r.work == s.work
    requires r.baseline == s.baseline && r.commits == s.commits && r.observed == s.observed
    ensures Sound(r, [])
  {
    hide Struct, AtTip, StraysApart;
    SoundSame(s, r, []);
  }

  lemma ApplyAllSound(s: State, fault: Fault)
    requires Sound(s, [])
    ensures var o := ApplyAll(s, fault);
            && Sound(o.state, []) && Extends(s.repo, o.state.repo) && o.state.mode == s.mode
            && (o.Failed? ==> o.state.parent == s.parent && o.state.baseline == s.baseline)
            && (o.Failed? ==> SameWork(o.state.commits, s.commits))
            && (o.Done? ==> o.state.commits == [])
            && Lingering(s, o.state, Ground(s))
  {
    hide Sound, Held, SameWork, Applies, Adopt, QueueDiff, Strays;
    ExtendsReflexive(s.repo);
    LingeringHere(s, s, Ground(s));
    SameWorkRefl(s.commits);
    if s.commits != [] && Applies(QueueDiff(s), s.parent) {
      SoundHeld(s);
      HeldNone(s, s.commits);
      FinishApplySound(s, QueueDiff(s), [], fault);
      AppliedSound(FinishApply(s, QueueDiff(s), [], fault).state, s.commits, QueueDiff(s));
      SoundAtTip(s);
      StraysOffQueueDiff(s);
      PatchedGround(s, FinishApply(s, QueueDiff(s), [], fault).state, QueueDiff(s));
      AdoptNone(s.(parent := Apply(QueueDiff(s), s.parent), commits := []), fault);
    }
  }

  lemma HeldNone(s: State, items: seq<Item>)
    requires Held(s, items)
    ensures Held(s, [])
  {
  }

  lemma AdoptNone(s: State, fault: Fault)
    requires s.commits == []
    ensures Adopt(s, fault).Done? ==> Adopt(s, fault).state.commits == []
  {
  }

  /** The replay that follows a Discard is cut short. */
  predicate DiscardBreaks(s: State, name: Id, fault: Fault) {
    Position(s.commits, Resolve(s.aliases, name)) < |s.commits| && fault.AtReplay? && fault.k < |s.commits|
  }

  /** What a Discard replays: the queue without the item, which is written off. */
  function Without(s: State, k: nat): State
    requires k < |s.commits|
  {
    s.(commits := RemoveAt(s.commits, k),
       history := s.history.(discarded := s.history.discarded + Purposes([s.commits[k]])))
  }

  lemma DiscardUnbroken(s: State, name: Id, fault: Fault)
    requires !DiscardBreaks(s, name, fault)
    ensures DiscardOne(s, name, fault) == DiscardOne(s, name, NoFault)
  {
    hide ReplayAll, Purposes, Resolve;
  }

  lemma DiscardOneSound(s: State, name: Id, fault: Fault)
    requires Sound(s, []) && !DiscardBreaks(s, name, fault)
    ensures var o := DiscardOne(s, name, fault);
            && Sound(o.state, []) && Extends(s.repo, o.state.repo)
            && o.state.mode == s.mode && o.state.parent == s.parent && o.state.baseline == s.baseline
            && o.state.observed == s.observed && o.state.history.ledger == s.history.ledger
            && Lingering(s, o.state, Ground(s))
  {
    hide Sound, Held, ReplayOnto, RemoveAt, Strays, Resolve;
    DiscardUnbroken(s, name, fault);
    ExtendsReflexive(s.repo);
    LingeringHere(s, s, Ground(s));
    var k := Position(s.commits, Resolve(s.aliases, name));
    if k < |s.commits| {
      SoundHeld(s);
      HeldWithout(s, s.commits, k);
      HeldHere(s, Without(s, k), RemoveAt(s.commits, k));
      LingeringHere(s, Without(s, k), {});
      ReplayOntoSound(Without(s, k), s.baseline);
      LingeringTwice(s, Without(s, k), ReplayOnto(Without(s, k), s.baseline, NoFault).state, {},
                     TreeOf(s, s.baseline).Keys);
    }
  }

  lemma ModeSound(s: State, mode: Mode)
    requires Sound(s, [])
    ensures Sound(s.(mode := mode), []) && Strays(s.(mode := mode)) == Strays(s)
  {
    hide Sound, Strays;
    SameFiles(s, s.(mode := mode));
    SoundKept(s, s.(mode := mode));
  }

  lemma ChangeModeSound(s: State, mode: Mode, fault: Fault)
    requires Sound(s, [])
    ensures var o := ChangeMode(s, mode, fault);
            Sound(o.state, []) && Extends(s.repo, o.state.repo) && Lingering(s, o.state, Ground(s))
  {
    hide Sound, ApplyAll, SameWork, Strays;
    ExtendsReflexive(s.repo);
    LingeringHere(s, s, Ground(s));
    LingeringHere(s, s.(mode := mode), Ground(s));
    ModeSound(s, mode);
    if s.mode != mode && s.mode == Review && mode == Write {
      ApplyAllSound(s, fault);
      ModeSound(ApplyAll(s, fault).state, mode);
    }
  }

  lemma DispatchSound(s: State, control: Control, fault: Fault)
    requires Sound(s, []) && (control.DiscardCommit? ==> !DiscardBreaks(s, control.id, fault))
    ensures var o := Dispatch(s, control, fault);
            Sound(o.state, []) && Extends(s.repo, o.state.repo) && Lingering(s, o.state, Ground(s))
  {
    hide Sound, ChangeMode, ApplyOne, DiscardOne, ApplyAll, DiscardBreaks;
    match control
    case SetMode(mode) => ChangeModeSound(s, mode, fault);
    case ApplyCommit(id) => ApplyOneSound(s, id, fault);
    case DiscardCommit(id) => DiscardOneSound(s, id, fault);
    case ApplyQueue => ApplyAllSound(s, fault);
  }

  lemma SnapshotSound(s: State)
    requires Sound(s, [])
    ensures Sound(Snapshot(s), []) && TreeOf(Snapshot(s), s.observed) == TreeOf(s, s.observed)
    ensures Extends(s.repo, Snapshot(s).repo) && Strays(Snapshot(s)) == Strays(s)
    ensures TreeOf(Snapshot(s), s.head) == TreeOf(s, s.head) && Snapshot(s).repo[|s.repo|].tree == s.parent
  {
    hide Apart, StraysFree, Linked, Covers;
    HeadExists(s, []);
    assert TreeOf(Snapshot(s), s.head) == TreeOf(s, s.head);
    LinkedLater(s.repo, Snapshot(s).repo, s.baseline, s.commits);
    SnapshotFiles(s);
  }

  lemma SnapshotFiles(s: State)
    requires TreeOf(Snapshot(s), s.head) == TreeOf(s, s.head)
    ensures Strays(Snapshot(s)) == Strays(s) && (Covers(Snapshot(s)) <==> Covers(s)) && (Tidy(Snapshot(s)) <==> Tidy(s))
    ensures forall pending :: StraysApart(Snapshot(s), pending) <==> StraysApart(s, pending)
  {
  }

  lemma SyncSound(s: State, answers: seq<Answer>)
    requires Sound(s, [])
    ensures var r := Sync(s, answers).state;
            && Sound(r, []) && Extends(s.repo, r.repo) && r.mode == s.mode && r.parent == s.parent
            && TreeOf(r, r.observed) == s.parent
            && (TreeOf(s, s.observed) == s.parent ==> r == Snapshot(s) && !Sync(s, answers).changed)
  {
    hide Sound, Extends, SyncLoop, SyncChanged, DiffOf, TreeOf, Strays;
    SnapshotSound(s);
    if s.parent != TreeOf(s, s.observed) {
      SyncMoves(s, answers);
    }
  }

  lemma SyncMoves(s: State, answers: seq<Answer>)
    requires Sound(s, []) && s.parent != TreeOf(s, s.observed)
    ensures var r := Sync(s, answers).state;
            && Sound(r, []) && Extends(s.repo, r.repo) && r.mode == s.mode && r.parent == s.parent
            && r.observed == |s.repo| && r.baseline == |s.repo| && TreeOf(r, r.observed) == s.parent
  {
    hide Sound, Held, SyncLoop, Extends, Apart, AllStored, StraysFree, Strays;
    var s1 := Snapshot(s);
    SnapshotSound(s);
    SoundHeld(s);
    HeldHere(s, s1, s.commits);
    HeldApart(s1, s.commits);
    StartSound(s1, |s.repo|, s.commits);
    var s2 := StartReplay(s1, |s.repo|);
    SyncLoopSound(s2, s.commits, answers);
    var s3 := SyncLoop(s2, s.commits, answers);
    ExtendsTransitive(s.repo, s2.repo, s3.repo);
    ExtendsAt(s1.repo, s3.repo, |s.repo|);
    MoveObserved(s3, |s.repo|, External(DiffOf(TreeOf(s1, s.observed), s.parent)));
  }

  lemma ExtendsAt(a: seq<Commit>, b: seq<Commit>, id: Id)
    requires Extends(a, b) && id < |a|
    ensures id < |b| && TreeAt(b, id) == a[id].tree
  {
  }

  lemma HeldApart(s: State, items: seq<Item>)
    requires Held(s, items)
    ensures Apart(items, []) && AllStored(s.repo, items) && s.observed < |s.repo| && StraysFree(s, items)
  {
  }

  lemma MoveObserved(s: State, next: Id, e: Entry)
    requires Sound(s, []) && next < |s.repo|
    ensures Sound(Record(Settle(s.(observed := next)), e), [])
  {
    hide Struct, AtTip, StraysApart;
    SoundSame(s, Record(Settle(s.(observed := next)), e), []);
  }
}
