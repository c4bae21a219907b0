/** Every operation keeps the name bookkeeping: aliases stay sound, complete and content-preserving. */
module Lineage {
  import opened GitModel
  import opened ReviewSpec
  import opened Queue
  import opened Replay
  import opened Operations
  import opened Names

  function IdSet(items: seq<Item>): set<Id> {
    set i | 0 <= i < |items| :: items[i].id
  }

  predicate Distinct(items: seq<Item>) {
    forall i, j | 0 <= i < j < |items| :: items[i].id != items[j].id
  }

  /** The bookkeeping is right, whatever the queue is about to become. */
  ghost predicate Loose(s: State, targets: set<Id>) {
    Traced(BookOf(s), [], targets)
  }

  ghost predicate Tracked(s: State) {
    Traced(BookOf(s), s.commits, IdSet(s.commits))
  }

  predicate AllRecorded(b: Book, items: seq<Item>) {
    forall i | 0 <= i < |items| :: Recorded(b, items[i])
  }

  /**
   Mid-replay: `rest` still carries old names, `s.commits` only names from `floor` on.  The names in
   `targets`, those the replay started from, stay in order for the case that it has to be repeated.
   */
  ghost predicate Tracking(s: State, rest: seq<Item>, targets: set<Id>, floor: Id) {
    && Sound(s, Footprints(rest)) && AllStored(s.repo, rest)
    && Traced(BookOf(s), s.commits, IdSet(s.commits) + IdSet(rest)) && Loose(s, targets)
    && AllRecorded(BookOf(s), rest) && IdSet(rest) <= targets && Distinct(rest)
    && (forall i | 0 <= i < |rest| :: rest[i].id < floor)
    && (forall i | 0 <= i < |s.commits| :: floor <= s.commits[i].id)
  }

  lemma LaterSelf(b: Book)
    ensures Later(b, b)
  {
  }

  lemma TracedIds(b: Book, done: seq<Item>, targets: set<Id>)
    requires Traced(b, done, targets)
    ensures IdSet(done) <= targets && AllRecorded(b, done) && Distinct(done)
    ensures forall i | 0 <= i < |done| :: done[i].id < b.bound
  {
  }

  lemma TrackedLoose(s: State)
    requires Tracked(s)
    ensures Loose(s, IdSet(s.commits)) && AllRecorded(BookOf(s), s.commits) && Distinct(s.commits)
    ensures forall i | 0 <= i < |s.commits| :: s.commits[i].id < |s.repo|
  {
    hide Live, Unrelated;
    TracedIds(BookOf(s), s.commits, IdSet(s.commits));
    LaterSelf(BookOf(s));
    FewerTraced(BookOf(s), s.commits, IdSet(s.commits), BookOf(s), [], IdSet(s.commits));
  }

  lemma LooseLater(s: State, r: State, targets: set<Id>)
    requires Loose(s, targets) && Later(BookOf(s), BookOf(r))
    ensures Loose(r, targets)
  {
    FewerTraced(BookOf(s), [], targets, BookOf(r), [], targets);
  }

  /** What was shown under a name stays on record. */
  predicate ShownGrows(a: Book, b: Book) {
    forall k | k in a.shown :: k in b.shown && b.shown[k] == a.shown[k]
  }

  lemma RecordedLater(a: Book, b: Book, items: seq<Item>)
    requires AllRecorded(a, items) && ShownGrows(a, b)
    ensures AllRecorded(b, items)
  {
  }

  lemma StartTracking(s: State, base: Id, items: seq<Item>, targets: set<Id>)
    requires Loose(s, targets) && Held(s, items) && base < |s.repo|
    requires AllRecorded(BookOf(s), items) && IdSet(items) <= targets && Distinct(items)
    ensures Tracking(StartReplay(s, base), items, targets, |s.repo|)
  {
    HeldApart(s, items);
    StartSound(s, base, items);
    var start := StartReplay(s, base);
    hide Sound, AllStored, Traced, Apart;
    LaterSelf(BookOf(s));
    FewerTraced(BookOf(s), [], targets, BookOf(s), [], IdSet(items));
    assert BookOf(start) == BookOf(s) && start.commits == [] && IdSet([]) + IdSet(items) == IdSet(items);
    IdsBelow(s, items, targets);
  }

  lemma IdsBelow(s: State, items: seq<Item>, targets: set<Id>)
    requires Loose(s, targets) && IdSet(items) <= targets
    ensures forall i | 0 <= i < |items| :: items[i].id < |s.repo|
  {
    forall i | 0 <= i < |items|
      ensures items[i].id < |s.repo|
    {
      assert items[i].id in IdSet(items);
    }
  }

  // One turn of a replay.

  /** A clean pick leaves a narrower item. */
  lemma PickedNarrower(s: State, item: Item)
    requires s.head < |s.repo| && Stored(s.repo, item) && CherryPick(s, item.id).Picked?
    ensures var t := Apply(item.diff, TreeOf(s, s.head));
            var now := item.(id := |s.repo|, diff := DiffOf(TreeOf(s, s.head), t));
            && Narrower(now, item)
            && PushPicked(CherryPick(s, item.id).state, item).commits == s.commits + [now]
            && BookOf(PushPicked(CherryPick(s, item.id).state, item)) == Moved(BookOf(s), item.id, now)
  {
    hide Strays, Blocked;
    PickByDiff(s, item);
    ShowFresh(s, Apply(item.diff, TreeOf(s, s.head)));
    forall p
      ensures !Collides(item.diff, TreeOf(s, s.head), p)
    {
    }
    PickShrinks(item.diff, TreeOf(s, s.head));
  }

  /** The facts a turn starts from. */
  lemma TurnFacts(s: State, rest: seq<Item>, targets: set<Id>, floor: Id)
    requires Tracking(s, rest, targets, floor) && rest != []
    ensures Sound(s, [rest[0].diff.Keys] + Footprints(rest[1..])) && s.head < |s.repo|
    ensures Stored(s.repo, rest[0]) && AllStored(s.repo, rest[1..])
    ensures Recorded(BookOf(s), rest[0]) && AllRecorded(BookOf(s), rest[1..])
    ensures rest[0].id in targets && IdSet(rest[1..]) <= targets
    ensures rest[0].id < floor && forall i | 0 <= i < |rest[1..]| :: rest[1..][i].id < floor
    ensures Distinct(rest[1..]) && rest[0].id !in IdSet(s.commits) + IdSet(rest[1..])
    ensures Traced(BookOf(s), s.commits, IdSet(s.commits) + IdSet(rest)) && Loose(s, targets)
    ensures IdSet(rest) == IdSet(rest[1..]) + {rest[0].id}
  {
    hide Sound, Stored, Recorded, Traced, Footprints;
    FootprintsCons(rest);
    IdsCons(rest);
    HeadExists(s, Footprints(rest));
    assert Stored(s.repo, rest[0]) && Recorded(BookOf(s), rest[0]) && rest[0].id < floor;
  }

  lemma IdsCons(rest: seq<Item>)
    requires rest != []
    ensures IdSet(rest) == IdSet(rest[1..]) + {rest[0].id}
    ensures Distinct(rest) ==> Distinct(rest[1..]) && rest[0].id !in IdSet(rest[1..])
  {
    forall q | q in IdSet(rest)
      ensures q in IdSet(rest[1..]) + {rest[0].id}
    {
      var i :| 0 <= i < |rest| && rest[i].id == q;
      assert i > 0 ==> rest[1..][i - 1].id == q;
    }
    forall q | q in IdSet(rest[1..])
      ensures q in IdSet(rest)
    {
      var i :| 0 <= i < |rest[1..]| && rest[1..][i].id == q;
      assert rest[i + 1].id == q;
    }
  }

  /** What a turn does to the bookkeeping. */
  datatype Turn = NoTurn | MoveTurn(now: Item) | AddTurn(now: Item)

  predicate TurnBook(s: State, r: State, item: Item, turn: Turn) {
    match turn
    case NoTurn => BookOf(r) == BookOf(s) && r.commits == s.commits
    case MoveTurn(now) =>
      && now.id == |s.repo| && r.commits == s.commits + [now]
      && Narrower(now, item) && BookOf(r) == Moved(BookOf(s), item.id, now)
    case AddTurn(now) =>
      && now.id == |s.repo| && r.commits == s.commits + [now]
      && BookOf(r) == Added(BookOf(s), now)
  }

  lemma TurnTraced(s: State, r: State, item: Item, names: set<Id>, later: set<Id>, turn: Turn)
    requires Traced(BookOf(s), s.commits, names) && TurnBook(s, r, item, turn)
    requires Recorded(BookOf(s), item) && item.id in names
    requires IdSet(s.commits) + later <= names - {item.id}
    ensures Traced(BookOf(r), r.commits, IdSet(r.commits) + later)
    ensures ShownGrows(BookOf(s), BookOf(r))
  {
    hide Traced, Narrower, Recorded, Later;
    ShownBelow(BookOf(s), s.commits, names);
    SelfIds(s.commits);
    SelfIds(r.commits);
    LaterSelf(BookOf(r));
    match turn
    case NoTurn =>
      FewerTraced(BookOf(s), s.commits, names, BookOf(r), s.commits, IdSet(s.commits) + later);
    case MoveTurn(now) =>
      SnocIds(s.commits, now);
      MovedTraced(BookOf(s), s.commits, names, item, now);
      FewerTraced(BookOf(r), r.commits, names - {item.id} + {|s.repo|}, BookOf(r), r.commits, IdSet(r.commits) + later);
    case AddTurn(now) =>
      SnocIds(s.commits, now);
      AddedTraced(BookOf(s), s.commits, names, now);
      FewerTraced(BookOf(r), r.commits, names + {|s.repo|}, BookOf(r), r.commits, IdSet(r.commits) + later);
  }

  lemma SelfIds(items: seq<Item>)
    ensures forall i | 0 <= i < |items| :: items[i].id in IdSet(items)
  {
  }

  lemma TurnLoose(s: State, r: State, item: Item, targets: set<Id>, turn: Turn)
    requires Loose(s, targets) && TurnBook(s, r, item, turn)
    requires Recorded(BookOf(s), item) && item.id in targets
    ensures Loose(r, targets)
  {
    hide Traced, Narrower, Recorded, Later;
    match turn
    case NoTurn =>
    case MoveTurn(now) =>
      MovedLoose(BookOf(s), targets, item, now);
    case AddTurn(now) =>
      LaterSelf(BookOf(r));
      AddedTraced(BookOf(s), [], targets, now);
      FewerTraced(BookOf(r), [] + [now], targets + {|s.repo|}, BookOf(r), [], targets);
  }

  lemma FloorKept(s: State, r: State, item: Item, turn: Turn, floor: Id)
    requires TurnBook(s, r, item, turn) && floor <= |s.repo|
    requires forall i | 0 <= i < |s.commits| :: floor <= s.commits[i].id
    ensures forall i | 0 <= i < |r.commits| :: floor <= r.commits[i].id
  {
  }

  lemma AfterTurn(s: State, r: State, rest: seq<Item>, targets: set<Id>, floor: Id, turn: Turn)
    requires Tracking(s, rest, targets, floor) && rest != [] && floor <= |s.repo|
    requires Sound(r, Footprints(rest[1..])) && AllStored(r.repo, rest[1..])
    requires TurnBook(s, r, rest[0], turn)
    ensures Tracking(r, rest[1..], targets, floor) && ShownGrows(BookOf(s), BookOf(r))
  {
    hide Sound, AllStored, Stored, Traced, Footprints, TurnBook, Recorded, AllRecorded, BookOf, IdSet, ShownGrows,
         Distinct, Loose;
    TurnFacts(s, rest, targets, floor);
    TurnTraced(s, r, rest[0], IdSet(s.commits) + IdSet(rest), IdSet(rest[1..]), turn);
    TurnLoose(s, r, rest[0], targets, turn);
    FloorKept(s, r, rest[0], turn, floor);
    RecordedLater(BookOf(s), BookOf(r), rest[1..]);
  }

  lemma SnocIds(items: seq<Item>, item: Item)
    ensures IdSet(items + [item]) == IdSet(items) + {item.id}
  {
    var all := items + [item];
    assert all[|items|] == item;
    forall q | q in IdSet(items)
      ensures q in IdSet(all)
    {
      var i :| 0 <= i < |items| && items[i].id == q;
      assert all[i].id == q;
    }
  }

  lemma ShownBelow(b: Book, done: seq<Item>, targets: set<Id>)
    requires Traced(b, done, targets)
    ensures b.bound !in b.shown
  {
  }

  lemma PickedTurn(s: State, item: Item) returns (turn: Turn)
    requires s.head < |s.repo| && Stored(s.repo, item) && CherryPick(s, item.id).Picked?
    ensures TurnBook(s, PushPicked(CherryPick(s, item.id).state, item), item, turn) && turn.MoveTurn?
  {
    PickedNarrower(s, item);
    var t := Apply(item.diff, TreeOf(s, s.head));
    turn := MoveTurn(item.(id := |s.repo|, diff := DiffOf(TreeOf(s, s.head), t)));
  }

  lemma ReplayTurn(s: State, rest: seq<Item>, targets: set<Id>, floor: Id)
    requires Tracking(s, rest, targets, floor) && rest != [] && floor <= |s.repo|
    ensures var r := ReplayStep(s, rest[0]);
            && Tracking(r, rest[1..], targets, floor)
            && |s.repo| <= |r.repo| && ShownGrows(BookOf(s), BookOf(r))
  {
    hide Sound, Stored, AllStored, Traced, CherryPick, Tracking, PushPicked, Narrower, AllRecorded, IdSet,
         Footprints, SameOutside, ShownGrows;
    TurnFacts(s, rest, targets, floor);
    var r := ReplayStep(s, rest[0]);
    ReplayStepSound(s, rest[0], Footprints(rest[1..]));
    AllStoredLater(s.repo, r.repo, rest[1..]);
    var turn := NoTurn;
    if CherryPick(s, rest[0].id).Picked? {
      turn := PickedTurn(s, rest[0]);
    }
    AfterTurn(s, r, rest, targets, floor, turn);
  }

  /** A resolved item is new: its old name does not lead to it. */
  lemma ResolvedTurn(s: State, item: Item, answer: Answer) returns (turn: Turn)
    requires CherryPick(s, item.id).Stopped?
    ensures TurnBook(s, ResolveStep(s, item, answer), item, turn) && !turn.MoveTurn?
  {
    hide CherryPick, Acceptable, Overwrite, Narrower, DiffOf, TreeAt;
    var r := ResolveStep(s, item, answer);
    turn := if r.commits == s.commits then NoTurn else AddTurn(item.(id := r.head, diff := Show(r, r.head)));
  }

  lemma ResolveTurn(s: State, rest: seq<Item>, answer: Answer, targets: set<Id>, floor: Id)
    requires Tracking(s, rest, targets, floor) && rest != [] && floor <= |s.repo|
    ensures var r := ResolveStep(s, rest[0], answer);
            && Tracking(r, rest[1..], targets, floor)
            && |s.repo| <= |r.repo| && ShownGrows(BookOf(s), BookOf(r))
  {
    hide Sound, Stored, AllStored, Traced, CherryPick, Tracking, PushPicked, Narrower, AllRecorded, IdSet,
         Footprints, SameOutside, TurnBook, CommitWork, ShownGrows;
    TurnFacts(s, rest, targets, floor);
    var r := ResolveStep(s, rest[0], answer);
    ResolveStepSound(s, rest[0], answer, Footprints(rest[1..]));
    AllStoredLater(s.repo, r.repo, rest[1..]);
    var turn;
    if CherryPick(s, rest[0].id).Picked? {
      turn := PickedTurn(s, rest[0]);
    } else {
      turn := ResolvedTurn(s, rest[0], answer);
    }
    AfterTurn(s, r, rest, targets, floor, turn);
  }
}
