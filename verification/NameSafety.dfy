/** Names over whole runs: what a user applies is what was displayed. */
module NameSafety {
  import opened GitModel
  import opened ReviewSpec
  import opened Queue
  import opened Replay
  import opened Operations
  import opened Merging
  import opened Finishing
  import opened Names
  import opened Lineage
  import opened NameRuns

  /** The state after an operation, compared with the one before. */
  ghost predicate KeepsNames(s: State, r: State) {
    Tracked(r) && ShownGrows(BookOf(s), BookOf(r))
  }

  lemma KeepsSelf(s: State)
    requires Tracked(s)
    ensures KeepsNames(s, s)
  {
  }

  lemma WithoutPrepared(s: State, k: nat)
    requires Sound(s, []) && Tracked(s) && k < |s.commits|
    ensures Prepared(s, RemoveAt(s.commits, k), IdSet(s.commits))
  {
    SoundHeld(s);
    TrackedLoose(s);
    HeldWithout(s, s.commits, k);
    hide Tracked, Loose, Held, Recorded, Sound, IdSet, AllRecorded, RemoveAt;
    RemoveRecorded(BookOf(s), s.commits, k);
    RemoveIds(s.commits, k);
  }

  lemma RemoveRecorded(b: Book, items: seq<Item>, k: nat)
    requires AllRecorded(b, items) && k < |items|
    ensures AllRecorded(b, RemoveAt(items, k))
  {
  }

  lemma RemoveIds(items: seq<Item>, k: nat)
    requires k < |items|
    ensures IdSet(RemoveAt(items, k)) <= IdSet(items)
    ensures Distinct(items) ==> Distinct(RemoveAt(items, k))
  {
  }

  lemma NonePrepared(s: State)
    requires Sound(s, []) && Tracked(s)
    ensures Prepared(s, [], IdSet(s.commits))
  {
  }

  lemma SameNames(s: State, a: State, b: State)
    requires KeepsNames(s, a) && BookOf(b) == BookOf(a) && b.commits == a.commits
    ensures KeepsNames(s, b)
  {
  }

  lemma ApplyOneNames(s: State, name: Id, fault: Fault)
    requires Sound(s, []) && Tracked(s)
    ensures KeepsNames(s, ApplyOne(s, name, fault).state)
  {
    hide Sound, Tracked, FinishApply, RemoveAt, IdSet, Applies, ShownGrows, Resolve;
    KeepsSelf(s);
    var k := Position(s.commits, Resolve(s.aliases, name));
    if k < |s.commits| && Applies(s.commits[k].diff, s.parent) {
      var item := s.commits[k];
      WithoutPrepared(s, k);
      FinishApplyNames(s, item.diff, RemoveAt(s.commits, k), fault);
      var r := FinishApply(s, item.diff, RemoveAt(s.commits, k), fault).state;
      SameNames(s, r, Applied(r, [item], item.diff));
    }
  }

  lemma ApplyAllNames(s: State, fault: Fault)
    requires Sound(s, []) && Tracked(s)
    ensures KeepsNames(s, ApplyAll(s, fault).state)
  {
    KeepsSelf(s);
    hide Sound, Tracked, FinishApply, IdSet, Applies, ShownGrows, QueueDiff;
    if s.commits != [] && Applies(QueueDiff(s), s.parent) {
      NonePrepared(s);
      FinishApplyNames(s, QueueDiff(s), [], fault);
      var r := FinishApply(s, QueueDiff(s), [], fault).state;
      SameNames(s, r, Applied(r, s.commits, QueueDiff(s)));
    }
  }

  lemma DiscardOneNames(s: State, name: Id, fault: Fault)
    requires Sound(s, []) && Tracked(s) && !DiscardBreaks(s, name, fault)
    ensures KeepsNames(s, DiscardOne(s, name, fault).state)
  {
    hide Sound, Tracked, RemoveAt, IdSet, ShownGrows, ReplayOnto, Held, Loose;
    KeepsSelf(s);
    SoundHeld(s);
    DiscardUnbroken(s, name, fault);
    var k := Position(s.commits, Resolve(s.aliases, name));
    if k < |s.commits| {
      WithoutPrepared(s, k);
      assert BookOf(Without(s, k)) == BookOf(s);
      PatchedPrepared(s, Without(s, k), RemoveAt(s.commits, k), IdSet(s.commits));
      ReplayOntoNames(Without(s, k), s.baseline, IdSet(s.commits));
    }
  }

  lemma ChangeModeNames(s: State, mode: Mode, fault: Fault)
    requires Sound(s, []) && Tracked(s)
    ensures KeepsNames(s, ChangeMode(s, mode, fault).state)
  {
    KeepsSelf(s);
    hide Sound, Tracked, ApplyAll, ShownGrows, KeepsNames;
    SameNames(s, s, s.(mode := mode));
    if s.mode != mode && s.mode == Review && mode == Write {
      ApplyAllNames(s, fault);
      var r := ApplyAll(s, fault).state;
      SameNames(s, r, r.(mode := mode));
    }
  }

  lemma DispatchNames(s: State, control: Control, fault: Fault)
    requires Sound(s, []) && Tracked(s) && (control.DiscardCommit? ==> !DiscardBreaks(s, control.id, fault))
    ensures KeepsNames(s, Dispatch(s, control, fault).state)
  {
    hide Sound, Tracked, KeepsNames, ChangeMode, ApplyOne, DiscardOne, ApplyAll, DiscardBreaks;
    match control
    case SetMode(mode) => ChangeModeNames(s, mode, fault);
    case ApplyCommit(id) => ApplyOneNames(s, id, fault);
    case DiscardCommit(id) => DiscardOneNames(s, id, fault);
    case ApplyQueue => ApplyAllNames(s, fault);
  }

  lemma SnapshotPrepared(s: State)
    requires Sound(s, []) && Tracked(s)
    ensures Prepared(Snapshot(s), s.commits, IdSet(s.commits)) && KeepsNames(s, Snapshot(s))
    ensures ShownGrows(BookOf(s), BookOf(Snapshot(s)))
  {
    hide Traced, Held, AllRecorded, IdSet, Struct, AtTip;
    TrackedPrepared(s);
    var s1 := Snapshot(s);
    SelfIds(s.commits);
    assert Later(BookOf(s), BookOf(s1));
    FewerTraced(BookOf(s), s.commits, IdSet(s.commits), BookOf(s1), s.commits, IdSet(s.commits));
    LooseLater(s, s1, IdSet(s.commits));
    PreparedLater(s, s1, s.commits, IdSet(s.commits));
  }

  lemma PreparedTracking(s: State, base: Id, items: seq<Item>, targets: set<Id>)
    requires Prepared(s, items, targets) && base < |s.repo|
    ensures Tracking(StartReplay(s, base), items, targets, |s.repo|)
  {
    StartTracking(s, base, items, targets);
  }

  lemma SyncNames(s: State, answers: seq<Answer>)
    requires Sound(s, []) && Tracked(s)
    ensures KeepsNames(s, Sync(s, answers).state)
  {
    hide Traced, Sound, Tracked, Tracking, IdSet, SyncLoop, ShownGrows, Held, Loose, AllRecorded, Prepared;
    SnapshotPrepared(s);
    var s1 := Snapshot(s);
    if s.parent != TreeOf(s1, s.observed) {
      PreparedTracking(s1, |s.repo|, s.commits, IdSet(s.commits));
      var s2 := StartReplay(s1, |s.repo|);
      SyncLoopNames(s2, s.commits, answers, IdSet(s.commits), |s1.repo|);
      var s3 := SyncLoop(s2, s.commits, answers).(observed := |s.repo|);
      SettledSame(s2, SyncLoop(s2, s.commits, answers), s3, IdSet(s.commits));
      SettledTracked(s2, s3, IdSet(s.commits));
      GrowsTwice(BookOf(s), BookOf(s2), BookOf(Settle(s3)));
      SameNames(s, Settle(s3), Sync(s, answers).state);
    }
  }

  // Finishing a patch.

  lemma QueuedBook(s: State, t: Tree, purpose: string, paths: set<Path>)
    requires s.head < |s.repo|
    ensures var q, newest := Queued(s, t, purpose, paths), NewItem(s, t, purpose, paths);
            BookOf(q) == Added(BookOf(s), newest) && q.commits == s.commits + [newest]
  {
  }

  lemma QueuedNames(s: State, t: Tree, purpose: string, paths: set<Path>)
    requires Patched(s, t, paths) && Tracked(s)
    ensures KeepsNames(s, Queued(s, t, purpose, paths))
  {
    HeadExists(s, []);
    ShownBelow(BookOf(s), s.commits, IdSet(s.commits));
    hide Traced, Sound, Patched, NewItem, IdSet, Queued;
    var newest := NewItem(s, t, purpose, paths);
    QueuedBook(s, t, purpose, paths);
    assert newest.id == |s.repo| by { NewId(s, t, purpose, paths); }
    AddedTraced(BookOf(s), s.commits, IdSet(s.commits), newest);
    SnocIds(s.commits, newest);
  }

  lemma NewId(s: State, t: Tree, purpose: string, paths: set<Path>)
    ensures NewItem(s, t, purpose, paths).id == |s.repo|
  {
  }

  /** Mid-rebuild: the items still to be rebuilt carry names from before the patch. */
  ghost predicate Building(s: State, rest: seq<Item>, dep: int, newest: Item, floor: Id) {
    && Buildable(s, rest, dep, newest)
    && Traced(BookOf(s), s.commits, IdSet(s.commits) + IdSet(rest))
    && AllRecorded(BookOf(s), rest) && Distinct(rest)
    && (forall i | 0 <= i < |rest| :: rest[i].id < floor)
    && (forall i | 0 <= i < |s.commits| :: floor <= s.commits[i].id)
  }

  lemma BuildingFacts(s: State, rest: seq<Item>, dep: int, newest: Item, floor: Id)
    requires Building(s, rest, dep, newest, floor) && rest != []
    ensures Buildable(s, rest, dep, newest) && Traced(BookOf(s), s.commits, IdSet(s.commits) + IdSet(rest))
    ensures Recorded(BookOf(s), rest[0]) && AllRecorded(BookOf(s), rest[1..]) && Distinct(rest[1..])
    ensures IdSet(rest) == IdSet(rest[1..]) + {rest[0].id} && rest[0].id !in IdSet(s.commits) + IdSet(rest[1..])
    ensures forall i | 0 <= i < |rest[1..]| :: rest[1..][i].id < floor
    ensures forall i | 0 <= i < |s.commits| :: floor <= s.commits[i].id
  {
    hide Buildable, Traced;
    IdsCons(rest);
    assert rest[0].id < floor;
  }

  lemma StepBook(s: State, item: Item, fold: bool, newest: Item) returns (turn: Turn)
    requires RebuildStep(s, item, fold, newest).Done?
    requires RebuildStep(s, item, fold, newest).state.commits
          == s.commits + [(if fold then Absorb(item, newest) else item).(id := |s.repo|)]
    ensures TurnBook(s, RebuildStep(s, item, fold, newest).state, item, turn) && (!fold ==> turn.MoveTurn?)
  {
    var now := (if fold then Absorb(item, newest) else item).(id := |s.repo|);
    turn := if fold then AddTurn(now) else MoveTurn(now);
    var r := RebuildStep(s, item, fold, newest).state;
    assert r.commits[|s.commits|] == now;
    hide Absorb, Applies, Apply, TreeOf, Show;
    RebuildBook(s, item, fold, newest, now);
    assert fold || Narrower(now, item);
  }

  lemma RebuildBook(s: State, item: Item, fold: bool, newest: Item, now: Item)
    requires RebuildStep(s, item, fold, newest).Done?
    requires RebuildStep(s, item, fold, newest).state.commits == s.commits + [now] && now.id == |s.repo|
    ensures BookOf(RebuildStep(s, item, fold, newest).state)
         == if fold then Added(BookOf(s), now) else Moved(BookOf(s), item.id, now)
  {
    hide Applies, Apply, TreeOf, Show;
    var r := RebuildStep(s, item, fold, newest).state;
    assert r.commits[|s.commits|] == now;
  }

  lemma BuildNames(s: State, rest: seq<Item>, dep: int, newest: Item, floor: Id)
    requires Building(s, rest, dep, newest, floor) && rest != [] && floor <= |s.repo|
    requires LeavesWork(rest, dep, newest)
    ensures var r := RebuildStep(s, rest[0], dep == 0, newest).state;
            && RebuildStep(s, rest[0], dep == 0, newest).Done?
            && Building(r, rest[1..], dep - 1, newest, floor)
            && ShownGrows(BookOf(s), BookOf(r)) && |s.repo| <= |r.repo|
  {
    hide Building, Buildable, Traced, RebuildStep, AllRecorded, Recorded, IdSet, ShownGrows, TurnBook, SameOutside,
         Absorb, TurnTree, BookOf, Distinct;
    BuildingFacts(s, rest, dep, newest, floor);
    BuildTurn(s, rest, dep, newest);
    var r := RebuildStep(s, rest[0], dep == 0, newest).state;
    var turn := StepBook(s, rest[0], dep == 0, newest);
    TurnTraced(s, r, rest[0], IdSet(s.commits) + IdSet(rest), IdSet(rest[1..]), turn);
    FloorKept(s, r, rest[0], turn, floor);
    RecordedLater(BookOf(s), BookOf(r), rest[1..]);
    BuildingAgain(r, rest[1..], dep - 1, newest, floor);
  }

  lemma BuildingAgain(r: State, rest: seq<Item>, dep: int, newest: Item, floor: Id)
    requires Buildable(r, rest, dep, newest) && Traced(BookOf(r), r.commits, IdSet(r.commits) + IdSet(rest))
    requires AllRecorded(BookOf(r), rest) && Distinct(rest)
    requires forall i | 0 <= i < |rest| :: rest[i].id < floor
    requires forall i | 0 <= i < |r.commits| :: floor <= r.commits[i].id
    ensures Building(r, rest, dep, newest, floor)
  {
  }

  /** The bookkeeping after the rebuild. */
  ghost predicate Rebooked(s: State, r: State) {
    Tracked(r) && ShownGrows(BookOf(s), BookOf(r)) && |s.repo| <= |r.repo|
  }

  lemma {:induction false} RebuildNames(s: State, rest: seq<Item>, dep: int, newest: Item, floor: Id)
    requires Building(s, rest, dep, newest, floor) && floor <= |s.repo| && LeavesWork(rest, dep, newest)
    ensures Rebuild(s, rest, dep, newest).Done? && Rebooked(s, Rebuild(s, rest, dep, newest).state)
    decreases |rest|
  {
    hide Building, RebuildStep, IdSet, ShownGrows, Tracked, BookOf;
    if rest == [] {
      BuiltNames(s, dep, newest, floor);
    } else {
      BuildNames(s, rest, dep, newest, floor);
      var r := RebuildStep(s, rest[0], dep == 0, newest).state;
      RebuildNames(r, rest[1..], dep - 1, newest, floor);
      GrowsTwice(BookOf(s), BookOf(r), BookOf(Rebuild(s, rest, dep, newest).state));
    }
  }

  lemma BuiltNames(s: State, dep: int, newest: Item, floor: Id)
    requires Building(s, [], dep, newest, floor)
    ensures Tracked(s) && ShownGrows(BookOf(s), BookOf(s))
  {
    hide Traced, Buildable;
    assert IdSet(s.commits) + IdSet([]) == IdSet(s.commits);
  }
}
