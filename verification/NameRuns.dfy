/** The name bookkeeping through whole operations, failed ones included. */
module NameRuns {
  import opened GitModel
  import opened ReviewSpec
  import opened Queue
  import opened Operations
  import opened Names
  import opened Lineage

  /** What the loops preserve once `rest` is used up. */
  ghost predicate Settled(s: State, r: State, targets: set<Id>) {
    Tracked(r) && Loose(r, targets) && ShownGrows(BookOf(s), BookOf(r)) && |s.repo| <= |r.repo|
  }

  lemma SettledNow(s: State, targets: set<Id>, floor: Id)
    requires Tracking(s, [], targets, floor)
    ensures Settled(s, s, targets)
  {
    hide Traced, Sound;
    assert IdSet(s.commits) + IdSet([]) == IdSet(s.commits);
  }

  lemma SettledBack(s: State, r: State, final: State, targets: set<Id>)
    requires ShownGrows(BookOf(s), BookOf(r)) && |s.repo| <= |r.repo|
    requires Settled(r, final, targets)
    ensures Settled(s, final, targets)
  {
    hide Traced;
  }

  lemma {:induction false} ReplayAllNames(s: State, rest: seq<Item>, targets: set<Id>, floor: Id)
    requires Tracking(s, rest, targets, floor) && floor <= |s.repo|
    ensures Settled(s, ReplayAll(s, rest), targets)
    decreases |rest|
  {
    hide Tracking, ReplayStep, Settled, IdSet, ShownGrows;
    if rest == [] {
      SettledNow(s, targets, floor);
    } else {
      ReplayTurn(s, rest, targets, floor);
      var r := ReplayStep(s, rest[0]);
      ReplayAllNames(r, rest[1..], targets, floor);
      SettledBack(s, r, ReplayAll(s, rest), targets);
    }
  }

  lemma {:induction false} SyncLoopNames(s: State, rest: seq<Item>, answers: seq<Answer>, targets: set<Id>, floor: Id)
    requires Tracking(s, rest, targets, floor) && floor <= |s.repo|
    ensures Settled(s, SyncLoop(s, rest, answers), targets)
    decreases |rest|
  {
    hide Tracking, ResolveStep, Settled, IdSet, ShownGrows;
    if rest == [] {
      SettledNow(s, targets, floor);
    } else {
      ResolveTurn(s, rest, FirstAnswer(answers), targets, floor);
      var r := ResolveStep(s, rest[0], FirstAnswer(answers));
      SyncLoopNames(r, rest[1..], LaterAnswers(answers), targets, floor);
      SettledBack(s, r, SyncLoop(s, rest, answers), targets);
    }
  }

  /** After a loop the bookkeeping is right for the new queue, also once aliases are dropped. */
  lemma SettledTracked(s: State, r: State, targets: set<Id>)
    requires Settled(s, r, targets)
    ensures Tracked(Settle(r)) && Loose(r, targets) && ShownGrows(BookOf(s), BookOf(Settle(r)))
  {
    hide Traced;
    if r.commits == [] {
      ClearedTraced(BookOf(r), targets);
      assert IdSet([]) == {};
    }
  }

  lemma SettledSame(s: State, r: State, r': State, targets: set<Id>)
    requires Settled(s, r, targets) && BookOf(r') == BookOf(r) && r'.commits == r.commits && r'.repo == r.repo
    ensures Settled(s, r', targets)
  {
    hide Traced;
  }

  /** Items about to be replayed, with the names that matter. */
  ghost predicate Prepared(s: State, items: seq<Item>, targets: set<Id>) {
    Loose(s, targets) && Held(s, items) && AllRecorded(BookOf(s), items) && IdSet(items) <= targets
    && Distinct(items)
  }

  lemma ReplayOntoNames(s: State, base: Id, targets: set<Id>)
    requires Prepared(s, s.commits, targets) && base < |s.repo|
    ensures var r := ReplayOnto(s, base, NoFault).state;
            Tracked(r) && ShownGrows(BookOf(s), BookOf(r)) && |s.repo| <= |r.repo|
  {
    StartTracking(s, base, s.commits, targets);
    hide Tracking, Tracked, Loose, Held, AllRecorded, IdSet, Traced;
    var start := StartReplay(s, base);
    ReplayAllNames(start, s.commits, targets, |s.repo|);
    SettledTracked(start, ReplayAll(start, s.commits), targets);
  }

  lemma PreparedPrefix(s: State, items: seq<Item>, n: nat, targets: set<Id>)
    requires Prepared(s, items, targets) && n <= |items|
    ensures Prepared(s, items[..n], targets)
  {
  }

  lemma PickBook(s: State, id: Id)
    requires id < |s.repo| && forall c | c in s.history.origins :: c < |s.repo|
    ensures var pick := CherryPick(s, id);
            pick.Picked? ==> Later(BookOf(s), BookOf(pick.state)) && |s.repo| <= |pick.state.repo|
  {
    hide ConflictPaths, MergeTrees;
  }

  lemma LooseBound(s: State, items: seq<Item>, targets: set<Id>)
    requires Loose(s, targets) && IdSet(items) <= targets
    ensures forall c | c in s.history.origins :: c < |s.repo|
    ensures forall i | 0 <= i < |items| :: items[i].id < |s.repo|
  {
    IdsBelow(s, items, targets);
  }

  /** A replay that breaks off leaves the bookkeeping right for replaying the same items again. */
  lemma BrokenNames(s: State, base: Id, fault: Fault, targets: set<Id>)
    requires Prepared(s, s.commits, targets) && base < |s.repo|
    requires ReplayOnto(s, base, fault).Failed?
    ensures var r := ReplayOnto(s, base, fault).state;
            Loose(r, targets) && ShownGrows(BookOf(s), BookOf(r)) && |s.repo| <= |r.repo|
  {
    hide Traced, Held, AllRecorded, IdSet, CherryPick, Tracking, Tracked;
    if fault != AtReplay(0) {
      var n := fault.k - 1;
      PreparedPrefix(s, s.commits, n, targets);
      var done := s.commits[..n];
      StartTracking(s, base, done, targets);
      var start := StartReplay(s, base);
      ReplayAllNames(start, done, targets, |s.repo|);
      var s2 := ReplayAll(start, done);
      SettledTracked(start, s2, targets);
      LooseBound(s2, s.commits, targets);
      PickBook(s2, s.commits[n].id);
      if CherryPick(s2, s.commits[n].id).Picked? {
        LooseLater(s2, CherryPick(s2, s.commits[n].id).state, targets);
      }
    }
  }

  lemma PreparedLater(s: State, r: State, items: seq<Item>, targets: set<Id>)
    requires Prepared(s, items, targets) && Loose(r, targets) && ShownGrows(BookOf(s), BookOf(r))
    requires Extends(s.repo, r.repo) && r.observed < |r.repo| && Strays(r).Keys <= Strays(s).Keys
    ensures Prepared(r, items, targets)
  {
    hide Strays, Held, Traced;
    HeldLater(s, r, items);
  }

  lemma AdoptNames(s: State, fault: Fault, targets: set<Id>)
    requires Prepared(s, s.commits, targets)
    ensures var o := Adopt(s, fault);
            && (o.Done? ==> Tracked(o.state)) && (o.Failed? ==> Loose(o.state, targets))
            && ShownGrows(BookOf(s), BookOf(o.state)) && |s.repo| <= |o.state.repo|
  {
    hide Traced, Held, AllRecorded, IdSet, Tracked, ReplayOnto, Loose, Strays;
    if fault != AtSnapshot {
      var snap := Snapshot(s).(observed := |s.repo|);
      LooseLater(s, snap, targets);
      assert Extends(s.repo, snap.repo) by { SnapshotExtends(s); }
      LingeringHere(s, snap, {});
      PreparedLater(s, snap, s.commits, targets);
      if ReplayOnto(snap, |s.repo|, fault).Failed? {
        BrokenNames(snap, |s.repo|, fault, targets);
      } else {
        NoBreak(snap, |s.repo|, fault);
        ReplayOntoNames(snap, |s.repo|, targets);
      }
    }
  }

  lemma TrackedPrepared(s: State)
    requires Sound(s, []) && Tracked(s)
    ensures Prepared(s, s.commits, IdSet(s.commits))
  {
  }

  /** What `Adopt` leaves when it fails is enough for the rollback. */
  lemma AdoptFails(s: State, d: Diff, rest: seq<Item>, fault: Fault)
    requires Sound(s, []) && Tracked(s) && Applies(d, s.parent) && Prepared(s, rest, IdSet(s.commits))
    requires Adopt(s.(parent := Apply(d, s.parent), commits := rest), fault).Failed?
    ensures var r := Adopt(s.(parent := Apply(d, s.parent), commits := rest), fault).state;
            && Prepared(r, s.commits, IdSet(s.commits)) && s.baseline < |r.repo|
            && ShownGrows(BookOf(s), BookOf(r)) && ReverseOnParent(r, d).Some?
  {
    TrackedPrepared(s);
    SoundHeld(s);
    ReverseRestores(d, s.parent);
    hide Tracked, Adopt, Loose, Sound, Held, ShownGrows, Applies, Apply, Extends, BookOf, AllRecorded, IdSet, Strays;
    var s1 := s.(parent := Apply(d, s.parent), commits := rest);
    SameBook(s, s1);
    PatchedPrepared(s, s1, rest, IdSet(s.commits));
    PatchedPrepared(s, s1, s.commits, IdSet(s.commits));
    AdoptNames(s1, fault, IdSet(s.commits));
    AdoptSound(s1, fault);
    PreparedLater(s1, Adopt(s1, fault).state, s.commits, IdSet(s.commits));
    ExtendsAt(s1.repo, Adopt(s1, fault).state.repo, s.baseline);
  }

  lemma SameBook(s: State, r: State)
    requires r.aliases == s.aliases && r.history == s.history && r.repo == s.repo
    ensures BookOf(r) == BookOf(s)
  {
  }

  lemma FinishApplyNames(s: State, d: Diff, rest: seq<Item>, fault: Fault)
    requires Sound(s, []) && Tracked(s) && Applies(d, s.parent)
    requires Prepared(s, rest, IdSet(s.commits))
    ensures var o := FinishApply(s, d, rest, fault);
            Tracked(o.state) && ShownGrows(BookOf(s), BookOf(o.state))
  {
    hide Tracked, Adopt, Sound, ShownGrows, Applies, Apply, BookOf, IdSet, Prepared, Rollback;
    var s1 := s.(parent := Apply(d, s.parent), commits := rest);
    SameBook(s, s1);
    if Adopt(s1, fault).Failed? {
      AdoptFails(s, d, rest, fault);
      var r := Adopt(s1, fault).state;
      RollbackNames(r, d, s.commits, s.baseline, IdSet(s.commits));
      GrowsTwice(BookOf(s), BookOf(r), BookOf(Rollback(r, d, s.commits, s.baseline)));
    } else {
      PatchedPrepared(s, s1, rest, IdSet(s.commits));
      AdoptNames(s1, fault, IdSet(s.commits));
    }
  }

  lemma PatchedPrepared(s: State, s1: State, items: seq<Item>, targets: set<Id>)
    requires Prepared(s, items, targets) && BookOf(s1) == BookOf(s) && s1.repo == s.repo && s1.observed == s.observed
    requires s1.head == s.head && s1.work == s.work
    ensures Prepared(s1, items, targets)
  {
    hide Held, Traced;
    ExtendsReflexive(s.repo);
    HeldHere(s, s1, items);
  }

  lemma PreparedHeld(s: State, items: seq<Item>, targets: set<Id>)
    requires Prepared(s, items, targets)
    ensures Held(s, items)
  {
  }

  lemma GrowsTwice(a: Book, b: Book, c: Book)
    requires ShownGrows(a, b) && ShownGrows(b, c)
    ensures ShownGrows(a, c)
  {
  }

  lemma RollbackNames(s: State, d: Diff, saved: seq<Item>, base: Id, targets: set<Id>)
    requires Prepared(s, saved, targets) && base < |s.repo| && ReverseOnParent(s, d).Some?
    ensures var r := Rollback(s, d, saved, base);
            Tracked(r) && ShownGrows(BookOf(s), BookOf(r))
  {
    hide Traced, AllRecorded, IdSet, Tracked, Loose, Held, ShownGrows, ReplayOnto, Apply, Applies;
    var s1 := ReverseOnParent(s, d).value.(commits := saved);
    PatchedPrepared(s, s1, saved, targets);
    ReplayOntoNames(s1, base, targets);
  }
}
