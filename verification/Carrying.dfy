/** A name that finds an item finds what the item was replayed or rebuilt into. */
module Carrying {
  import opened GitModel
  import opened ReviewSpec
  import opened Queue
  import opened Replay
  import opened Clean
  import opened Operations
  import opened Names
  import opened Lineage
  import opened NameSafety
  import opened Dependency
  import opened Merging
  import opened Finishing
  import opened NameTheorems

  /** The store has a commit for every origin. */
  predicate OriginsStored(s: State) {
    forall c | c in s.history.origins :: c < |s.repo|
  }

  lemma TrackedStored(s: State)
    requires Tracked(s)
    ensures OriginsStored(s)
  {
  }

  /** Both ends of an operation that only adds commits. */
  predicate Grown(s: State, r: State) {
    OriginsStored(r) && |s.repo| <= |r.repo| && OriginsGrow(s.history.origins, r.history.origins, |s.repo|)
  }

  lemma GrownTwice(a: State, b: State, c: State)
    requires Grown(a, b) && Grown(b, c)
    ensures Grown(a, c)
  {
  }

  /** The commit was made from the other one. */
  predicate MadeOf(s: State, now: Id, was: Id) {
    now in s.history.origins && s.history.origins[now] == was
  }

  lemma FindsAgain(s: State, r: State, name: Id, j: nat, k: nat)
    requires Tracked(s) && Tracked(r) && Grown(s, r)
    requires j < |s.commits| && k < |r.commits| && Resolve(s.aliases, name) == s.commits[j].id
    requires MadeOf(r, r.commits[k].id, s.commits[j].id)
    ensures Resolve(r.aliases, name) == r.commits[k].id
  {
    hide Live, Unrelated, Resolve;
    ResolvesIffDescends(BookOf(s), s.commits, IdSet(s.commits), name, j);
    ResolvesIffDescends(BookOf(r), r.commits, IdSet(r.commits), name, k);
    SameLine(s.history.origins, r.history.origins, |s.repo|, s.commits[j].id, name);
  }

  // Clean replays.

  /** From index `from` on the items were made from those of `rest`, one by one. */
  predicate AllMade(s: State, rest: seq<Item>, from: nat) {
    && |s.commits| == from + |rest|
    && forall i | 0 <= i < |rest| :: MadeOf(s, s.commits[from + i].id, rest[i].id)
  }

  lemma {:induction false} ReplayAllMade(s: State, rest: seq<Item>)
    requires Ready(s, rest) && OriginsStored(s)
    ensures var r := ReplayAll(s, rest);
            && AllMade(r, rest, |s.commits|) && Grown(s, r)
            && |s.commits| <= |r.commits| && r.commits[..|s.commits|] == s.commits
    decreases |rest|
  {
    hide Ready, ReplayStep, CherryPick;
    if rest != [] {
      CleanTurn(s, rest);
      var r := ReplayStep(s, rest[0]);
      assert Grown(s, r) && MadeOf(r, |s.repo|, rest[0].id);
      ReplayAllMade(r, rest[1..]);
      MadeFirst(s, r, ReplayAll(r, rest[1..]), rest);
    }
  }

  lemma MadeFirst(s: State, r: State, final: State, rest: seq<Item>)
    requires rest != [] && r.commits == s.commits + [rest[0].(id := |s.repo|)]
    requires MadeOf(r, |s.repo|, rest[0].id) && Grown(s, r) && Grown(r, final)
    requires AllMade(final, rest[1..], |r.commits|)
    requires |r.commits| <= |final.commits| && final.commits[..|r.commits|] == r.commits
    ensures AllMade(final, rest, |s.commits|) && Grown(s, final) && final.commits[..|s.commits|] == s.commits
  {
    GrownTwice(s, r, final);
    assert final.commits[|s.commits|] == final.commits[..|r.commits|][|s.commits|];
    forall i | 0 <= i < |rest|
      ensures MadeOf(final, final.commits[|s.commits| + i].id, rest[i].id)
    {
      assert i > 0 ==> rest[i] == rest[1..][i - 1];
    }
  }

  // Synchronization.

  /** Item i of the loop is picked cleanly when its turn comes. */
  predicate PickedAt(s: State, rest: seq<Item>, answers: seq<Answer>, i: nat)
    requires i < |rest|
    decreases i
  {
    if i == 0 then CherryPick(s, rest[0].id).Picked?
    else PickedAt(ResolveStep(s, rest[0], FirstAnswer(answers)), rest[1..], LaterAnswers(answers), i - 1)
  }

  lemma TurnGrown(s: State, item: Item, answer: Answer)
    requires s.head < |s.repo| && Stored(s.repo, item) && OriginsStored(s)
    ensures var r := ResolveStep(s, item, answer);
            && Grown(s, r) && |s.commits| <= |r.commits| && r.commits[..|s.commits|] == s.commits
            && (CherryPick(s, item.id).Picked? ==>
                  |r.commits| == |s.commits| + 1 && MadeOf(r, r.commits[|s.commits|].id, item.id))
  {
    hide CherryPick, Stored, Narrower, PushPicked, TurnBook;
    var r := ResolveStep(s, item, answer);
    var turn;
    if CherryPick(s, item.id).Picked? {
      turn := PickedTurn(s, item);
      MovedGrown(s, r, item, turn);
    } else {
      turn := ResolvedTurn(s, item, answer);
      MovedGrown(s, r, item, turn);
    }
  }

  lemma MovedGrown(s: State, r: State, item: Item, turn: Turn)
    requires TurnBook(s, r, item, turn) && OriginsStored(s)
    ensures Grown(s, r) && |s.commits| <= |r.commits| && r.commits[..|s.commits|] == s.commits
    ensures turn.MoveTurn? ==> |r.commits| == |s.commits| + 1 && MadeOf(r, r.commits[|s.commits|].id, item.id)
  {
    hide Narrower;
    assert BookOf(r).bound == |r.repo| && BookOf(s).bound == |s.repo|;
    assert BookOf(r).origins == r.history.origins && BookOf(s).origins == s.history.origins;
  }

  lemma {:induction false} LoopMade(s: State, rest: seq<Item>, answers: seq<Answer>, i: nat) returns (k: nat)
    requires Sound(s, Footprints(rest)) && AllStored(s.repo, rest) && OriginsStored(s)
    requires i < |rest| && PickedAt(s, rest, answers, i)
    ensures var r := SyncLoop(s, rest, answers);
            k < |r.commits| && MadeOf(r, r.commits[k].id, rest[i].id)
    decreases i
  {
    hide Sound, CherryPick, Stored, Footprints, ResolveStep, SameOutside, Grown, MadeOf;
    HeadExists(s, Footprints(rest));
    FootprintsCons(rest);
    assert Stored(s.repo, rest[0]);
    ResolveStepSound(s, rest[0], FirstAnswer(answers), Footprints(rest[1..]));
    TurnGrown(s, rest[0], FirstAnswer(answers));
    var r := ResolveStep(s, rest[0], FirstAnswer(answers));
    AllStoredLater(s.repo, r.repo, rest[1..]);
    GrownStored(s, r);
    if i == 0 {
      k := |s.commits|;
      LoopGrown(r, rest[1..], LaterAnswers(answers));
      StillMade(r, SyncLoop(r, rest[1..], LaterAnswers(answers)), k, rest[0].id);
    } else {
      k := LoopMade(r, rest[1..], LaterAnswers(answers), i - 1);
    }
  }

  lemma GrownStored(s: State, r: State)
    requires Grown(s, r)
    ensures OriginsStored(r)
  {
  }

  lemma StillMade(s: State, r: State, k: nat, was: Id)
    requires Grown(s, r) && k < |s.commits| <= |r.commits| && r.commits[..|s.commits|] == s.commits
    requires MadeOf(s, s.commits[k].id, was)
    ensures MadeOf(r, r.commits[k].id, was)
  {
    assert r.commits[k] == r.commits[..|s.commits|][k];
  }

  lemma {:induction false} LoopGrown(s: State, rest: seq<Item>, answers: seq<Answer>)
    requires Sound(s, Footprints(rest)) && AllStored(s.repo, rest) && OriginsStored(s)
    ensures var r := SyncLoop(s, rest, answers);
            Grown(s, r) && |s.commits| <= |r.commits| && r.commits[..|s.commits|] == s.commits
    decreases |rest|
  {
    hide Sound, CherryPick, Stored, Footprints, ResolveStep, SameOutside, OriginsGrow;
    if rest == [] {
      GrownSelf(s);
    } else {
      HeadExists(s, Footprints(rest));
      FootprintsCons(rest);
      assert Stored(s.repo, rest[0]);
      ResolveStepSound(s, rest[0], FirstAnswer(answers), Footprints(rest[1..]));
      TurnGrown(s, rest[0], FirstAnswer(answers));
      var r := ResolveStep(s, rest[0], FirstAnswer(answers));
      AllStoredLater(s.repo, r.repo, rest[1..]);
      LoopGrown(r, rest[1..], LaterAnswers(answers));
      var final := SyncLoop(r, rest[1..], LaterAnswers(answers));
      GrownTwice(s, r, final);
      assert final.commits[..|s.commits|] == final.commits[..|r.commits|][..|s.commits|];
    }
  }

  lemma GrownSelf(s: State)
    requires OriginsStored(s)
    ensures Grown(s, s)
  {
  }

  /**
   Synchronization carries names: what found a queued item finds, if the item is picked cleanly, the commit
   that was made from it.
   */
  lemma SyncCarries(s: State, answers: seq<Answer>, name: Id, j: nat) returns (k: nat)
    requires Sound(s, []) && Tracked(s) && s.parent != TreeOf(s, s.observed)
    requires j < |s.commits| && Resolve(s.aliases, name) == s.commits[j].id
    requires PickedAt(StartReplay(Snapshot(s), |s.repo|), s.commits, answers, j)
    ensures var r := Sync(s, answers).state;
            && k < |r.commits| && MadeOf(r, r.commits[k].id, s.commits[j].id)
            && Resolve(r.aliases, name) == r.commits[k].id && Grown(s, r)
  {
    hide Sound, Tracked, SyncLoop, SyncChanged, Resolve, PickedAt, AllStored, Apart, Held, Grown, MadeOf;
    SyncNames(s, answers);
    SoundHeld(s);
    ObservedAfter(s);
    var s1 := Snapshot(s);
    HeldHere(s, s1, s.commits);
    HeldApart(s1, s.commits);
    StartSound(s1, |s.repo|, s.commits);
    var start := StartReplay(s1, |s.repo|);
    TrackedStored(s);
    k := LoopMade(start, s.commits, answers, j);
    LoopGrown(start, s.commits, answers);
    var r := Sync(s, answers).state;
    LoopIsSync(s, start, SyncLoop(start, s.commits, answers), r, k, s.commits[j].id);
    FindsAgain(s, r, name, j, k);
  }

  lemma ObservedAfter(s: State)
    requires Sound(s, [])
    ensures Extends(s.repo, Snapshot(s).repo) && s.observed < |s.repo|
    ensures TreeOf(Snapshot(s), s.observed) == TreeOf(s, s.observed)
  {
  }

  lemma LoopIsSync(s: State, start: State, r: State, final: State, k: nat, was: Id)
    requires Grown(start, r) && k < |r.commits| && MadeOf(r, r.commits[k].id, was)
    requires start.history.origins == s.history.origins && |s.repo| <= |start.repo|
    requires forall c | c in s.history.origins :: c < |s.repo|
    requires final.history.origins == r.history.origins && final.repo == r.repo && final.commits == r.commits
    ensures Grown(s, final) && MadeOf(final, final.commits[k].id, was)
  {
  }

  // Merging.

  /** From index `from` on the items were made from those of `rest`, except the one that absorbs the patch. */
  predicate OthersMade(s: State, rest: seq<Item>, dep: int, from: nat) {
    && |s.commits| == from + |rest|
    && forall i | 0 <= i < |rest| && i != dep :: MadeOf(s, s.commits[from + i].id, rest[i].id)
  }

  lemma {:induction false} RebuildMade(s: State, rest: seq<Item>, dep: int, newest: Item)
    requires Buildable(s, rest, dep, newest) && LeavesWork(rest, dep, newest) && OriginsStored(s)
    ensures var r := Rebuild(s, rest, dep, newest).state;
            && OthersMade(r, rest, dep, |s.commits|) && Grown(s, r)
            && |s.commits| <= |r.commits| && r.commits[..|s.commits|] == s.commits
    decreases |rest|
  {
    hide Buildable, RebuildStep, Grown, MadeOf, Absorb, SameOutside, TurnBook, TurnTree, OthersMade;
    if rest == [] {
      GrownSelf(s);
      assert OthersMade(s, [], dep, |s.commits|) by { NoneMade(s, dep); }
    } else {
      BuildTurn(s, rest, dep, newest);
      var r := RebuildStep(s, rest[0], dep == 0, newest).state;
      var turn := StepBook(s, rest[0], dep == 0, newest);
      MovedGrown(s, r, rest[0], turn);
      GrownStored(s, r);
      RebuildMade(r, rest[1..], dep - 1, newest);
      MadeNext(s, r, Rebuild(r, rest[1..], dep - 1, newest).state, rest, dep);
    }
  }

  lemma NoneMade(s: State, dep: int)
    ensures OthersMade(s, [], dep, |s.commits|)
  {
  }

  lemma MadeNext(s: State, r: State, final: State, rest: seq<Item>, dep: int)
    requires rest != [] && |r.commits| == |s.commits| + 1 && r.commits[..|s.commits|] == s.commits
    requires dep != 0 ==> MadeOf(r, r.commits[|s.commits|].id, rest[0].id)
    requires Grown(s, r) && Grown(r, final) && OthersMade(final, rest[1..], dep - 1, |r.commits|)
    requires |r.commits| <= |final.commits| && final.commits[..|r.commits|] == r.commits
    ensures OthersMade(final, rest, dep, |s.commits|) && Grown(s, final)
    ensures |s.commits| <= |final.commits| && final.commits[..|s.commits|] == s.commits
  {
    GrownTwice(s, r, final);
    assert final.commits[..|s.commits|] == final.commits[..|r.commits|][..|s.commits|];
    assert final.commits[|s.commits|] == final.commits[..|r.commits|][|s.commits|];
    forall i | 0 <= i < |rest| && i != dep
      ensures MadeOf(final, final.commits[|s.commits| + i].id, rest[i].id)
    {
      assert i > 0 ==>
               rest[i] == rest[1..][i - 1] && MadeOf(final, final.commits[|r.commits| + (i - 1)].id, rest[1..][i - 1].id);
    }
  }

  /** Merging carries the names of every item but the one that absorbs the patch. */
  ghost predicate OthersCarried(s: State, r: State, k: nat) {
    && |r.commits| == |s.commits|
    && forall name, j | 0 <= j < |s.commits| && j != k && Resolve(s.aliases, name) == s.commits[j].id ::
         Resolve(r.aliases, name) == r.commits[j].id
  }

  lemma MergeCarries(s: State, t: Tree, purpose: string, paths: set<Path>, k: nat)
    requires Patched(s, t, paths) && Tracked(s) && DependsOn(s, PatchDiff(s, t), k)
    requires !Cancels(s.commits[k].diff, PatchDiff(s, t))
    ensures OthersCarried(s, Merge(Queued(s, t, purpose, paths), k).state, k)
  {
    hide Tracked, Sound, Patched, Queued, ShownGrows, Buildable, DependsOn, PatchDiff, Rebuild, Merge, Cancels,
         SameOutside, MergeStart, KeepsNames, OthersMade, Resolve, Grown, MadeOf, BuildTree, Rebuilt, SameWork;
    var b, newest := MergeStart(s, t, purpose, paths), NewItem(s, t, purpose, paths);
    MergeNames(s, t, purpose, paths, k);
    MergeReady(s, t, purpose, paths, k);
    MergeIsRebuild(s, t, purpose, paths, k);
    MergeStartFacts(s, t, purpose, paths, k);
    TrackedStored(s);
    StartGrown(s, t, purpose, paths);
    RebuildSound(b, s.commits, k, newest);
    RebuildMade(b, s.commits, k, newest);
    var r := Rebuild(b, s.commits, k, newest).state;
    GrownTwice(s, b, r);
    KeepsTracked(s, r);
    AllFindAgain(s, r, k);
  }

  lemma StartGrown(s: State, t: Tree, purpose: string, paths: set<Path>)
    requires OriginsStored(s) && Patched(s, t, paths)
    ensures var b := MergeStart(s, t, purpose, paths); Grown(s, b) && OriginsStored(b) && b.commits == []
  {
    HeadExists(s, []);
    hide Sound, DiffOf;
  }

  lemma AllFindAgain(s: State, r: State, k: nat)
    requires Tracked(s) && Tracked(r) && Grown(s, r) && OthersMade(r, s.commits, k, 0)
    ensures OthersCarried(s, r, k)
  {
    hide Tracked, Grown, Resolve, MadeOf;
    forall name, j | 0 <= j < |s.commits| && j != k && Resolve(s.aliases, name) == s.commits[j].id
      ensures Resolve(r.aliases, name) == r.commits[j].id
    {
      assert MadeOf(r, r.commits[0 + j].id, s.commits[j].id);
      FindsAgain(s, r, name, j, j);
    }
  }
}
