/** When a synchronization changes the review, and which commands that stops. */
module Halting {
  import opened GitModel
  import opened ReviewSpec
  import opened Queue
  import opened Replay
  import opened Clean
  import opened Operations
  import opened Names
  import opened Lineage
  import opened NameSafety
  import opened NameTheorems
  import opened Confluence
  import opened Carrying
  import opened Losses

  lemma ConflictTree(s: State, item: Item, answer: Answer)
    requires s.head == Tip(s) && s.head < |s.repo| && CherryPick(s, item.id).Stopped?
    ensures var r := ResolveStep(s, item, answer);
            TreeOf(r, r.head) == TreeOf(s, s.head)
            || (answer.Answered? && CoversOnce(CherryPick(s, item.id).conflicts, answer.files)
                && TreeOf(r, r.head) == Resolved(s, answer.files))
  {
    hide CherryPick, Overwrite, DiffOf, Reach, Lands, Tip;
  }

  /** Whatever becomes of an item, the tree stays as it was where the item does not reach. */
  lemma TurnElsewhere(s: State, item: Item, answer: Answer, pending: seq<set<Path>>)
    requires Sound(s, [item.diff.Keys] + pending) && Stored(s.repo, item)
    ensures var r := ResolveStep(s, item, answer);
            forall p | p !in item.diff :: Get(TreeOf(r, r.head), p) == Get(TreeOf(s, s.head), p)
  {
    hide Struct, CherryPick, Acceptable, Resolved, ResolveStep, Stored, TreeOf, DiffOf, CollidesSomewhere, Covers,
         StraysApart, Blocked, FreeOf, CoversOnce;
    HeadExists(s, [item.diff.Keys] + pending);
    SoundFree(s, item.diff, pending);
    var r := ResolveStep(s, item, answer);
    if CherryPick(s, item.id).Picked? {
      PickByDiff(s, item);
      PickedTree(s, item, answer);
    } else {
      ConflictTree(s, item, answer);
      if TreeOf(r, r.head) != TreeOf(s, s.head) {
        ResolutionTouchesConflictsOnly(s, item, answer);
        OnlyThere(TreeOf(s, s.head), TreeOf(r, r.head), item.diff.Keys);
      }
    }
  }

  lemma PickedTree(s: State, item: Item, answer: Answer)
    requires CherryPick(s, item.id).Picked? && s.head < |s.repo|
    requires CherryPick(s, item.id).state == MadeFrom(CommitOver(s, Apply(item.diff, TreeOf(s, s.head))), item.id)
    ensures var r := ResolveStep(s, item, answer); TreeOf(r, r.head) == Apply(item.diff, TreeOf(s, s.head))
  {
    hide CherryPick, Apply;
  }

  lemma OnlyThere(a: Tree, b: Tree, f: set<Path>)
    requires DiffOf(a, b).Keys <= f
    ensures forall p | p !in f :: Get(b, p) == Get(a, p)
  {
    forall p | p !in f
      ensures Get(b, p) == Get(a, p)
    {
      assert p !in DiffOf(a, b).Keys;
    }
  }

  /** One turn of the loop, for the items behind it. */
  lemma TurnLeaves(s: State, rest: seq<Item>, answer: Answer)
    requires Sound(s, Footprints(rest)) && AllStored(s.repo, rest) && rest != []
    ensures var r := ResolveStep(s, rest[0], answer);
            && Sound(r, Footprints(rest[1..])) && AllStored(r.repo, rest[1..])
            && (forall i, p | 0 <= i < |rest[1..]| && p in rest[1..][i].diff ::
                  Get(TreeOf(r, r.head), p) == Get(TreeOf(s, s.head), p))
    ensures CherryPick(s, rest[0].id).Picked? <==> Picks(rest[0].diff, TreeOf(s, s.head))
  {
    hide Sound, Stored, CherryPick, ResolveStep, Footprints, Picks, TreeOf, SameOutside, FreeOf, Blocked;
    assert Stored(s.repo, rest[0]);
    FootprintsCons(rest);
    SoundFree(s, rest[0].diff, Footprints(rest[1..]));
    PicksIff(s, rest[0]);
    ResolveStepSound(s, rest[0], answer, Footprints(rest[1..]));
    TurnElsewhere(s, rest[0], answer, Footprints(rest[1..]));
    AllStoredLater(s.repo, ResolveStep(s, rest[0], answer).repo, rest[1..]);
    PendingElsewhere(s, rest);
  }

  /** An item is picked cleanly exactly when it has its place on the new parent, whatever becomes of the others. */
  lemma {:induction false} PickedIff(s: State, rest: seq<Item>, answers: seq<Answer>, i: nat)
    requires Sound(s, Footprints(rest)) && AllStored(s.repo, rest) && i < |rest|
    ensures PickedAt(s, rest, answers, i) <==> Picks(rest[i].diff, TreeOf(s, s.head))
    decreases i
  {
    hide Sound, Stored, CherryPick, ResolveStep, Footprints, Picks, TreeOf;
    TurnLeaves(s, rest, FirstAnswer(answers));
    if i > 0 {
      var r := ResolveStep(s, rest[0], FirstAnswer(answers));
      PickedIff(r, rest[1..], LaterAnswers(answers), i - 1);
      assert rest[1..][i - 1] == rest[i];
      SamePicks(rest[i].diff, TreeOf(r, r.head), TreeOf(s, s.head));
    }
  }

  lemma {:induction false} LoopChangedIff(s: State, rest: seq<Item>, answers: seq<Answer>)
    requires Sound(s, Footprints(rest)) && AllStored(s.repo, rest)
    ensures SyncChanged(s, rest, answers) <==> Unpicked(rest, TreeOf(s, s.head)) != []
    decreases |rest|
  {
    hide Sound, Stored, CherryPick, ResolveStep, Footprints, Picks, TreeOf;
    if rest != [] {
      TurnLeaves(s, rest, FirstAnswer(answers));
      var r := ResolveStep(s, rest[0], FirstAnswer(answers));
      LoopChangedIff(r, rest[1..], LaterAnswers(answers));
      UnpickedElsewhere(rest[1..], TreeOf(r, r.head), TreeOf(s, s.head));
    }
  }

  lemma SyncStarts(s: State)
    requires Sound(s, [])
    ensures var start := StartReplay(Snapshot(s), |s.repo|);
            && Sound(start, Footprints(s.commits)) && AllStored(start.repo, s.commits)
            && TreeOf(start, start.head) == s.parent
    ensures TreeOf(Snapshot(s), s.observed) == TreeOf(s, s.observed)
  {
    hide AllStored, Apart;
    SoundHeld(s);
    ObservedAfter(s);
    HeldHere(s, Snapshot(s), s.commits);
    HeldApart(Snapshot(s), s.commits);
    StartSound(Snapshot(s), |s.repo|, s.commits);
  }

  /** The review changes exactly when the parent has moved and some queued item has no place on it. */
  lemma SyncChangedIff(s: State, answers: seq<Answer>)
    requires Sound(s, [])
    ensures Sync(s, answers).changed <==> s.parent != TreeOf(s, s.observed) && Unpicked(s.commits, s.parent) != []
  {
    hide Sound, SyncLoop, SyncChanged, Unpicked, DiffOf, StartReplay, TreeOf;
    SyncStarts(s);
    LoopChangedIff(StartReplay(Snapshot(s), |s.repo|), s.commits, answers);
  }

  /** In every state a changed review stops Apply all and the switch to Write, and no other change of mode. */
  lemma ChangedReviewStops(s: State, control: Control, answers: seq<Answer>, fault: Fault)
    requires Sound(s, []) && s.parent != TreeOf(s, s.observed) && Unpicked(s.commits, s.parent) != []
    ensures var s1, o := Sync(s, answers).state, HandleControl(s, control, answers, fault);
            && s1.parent == s.parent && s1.mode == s.mode
            && (control == ApplyQueue || control == SetMode(Write) ==> o == Done(s1))
            && (control.SetMode? && control.mode != Write ==> o == Done(s1.(mode := control.mode)))
  {
    hide Sound, Sync, ApplyAll, Unpicked;
    SyncChangedIff(s, answers);
    SyncSound(s, answers);
  }

  lemma MovedGood(s: State, answers: seq<Answer>)
    requires Sound(s, []) && Tracked(s) && s.parent != TreeOf(s, s.observed)
    ensures Good(Sync(s, answers).state) && Tracked(Sync(s, answers).state)
    ensures Sync(s, answers).state.parent == s.parent
  {
    hide Sound, Tracked, Sync;
    SyncMoves(s, answers);
    SyncNames(s, answers);
    KeepsTracked(s, Sync(s, answers).state);
  }

  /**
   And it stops neither Apply nor Discard by id: whether or not other items were dropped or rewritten, an item
   that has its place on the new parent is still found by its id and is applied or discarded.
   */
  lemma ChangedReviewGoesOn(s: State, answers: seq<Answer>, name: Id, j: nat) returns (k: nat)
    requires Sound(s, []) && Tracked(s) && s.parent != TreeOf(s, s.observed)
    requires j < |s.commits| && Resolve(s.aliases, name) == s.commits[j].id && Picks(s.commits[j].diff, s.parent)
    ensures var s1 := Sync(s, answers).state;
            var a := HandleControl(s, ApplyCommit(name), answers, NoFault);
            var d := HandleControl(s, DiscardCommit(name), answers, NoFault);
            && k < |s1.commits| && Narrower(s1.commits[k], s.commits[j])
            && a.Done? && a.state.parent == Apply(s1.commits[k].diff, s.parent) != s.parent
            && SameWork(a.state.commits, RemoveAt(s1.commits, k))
            && d.Done? && d.state.parent == s.parent && SameWork(d.state.commits, RemoveAt(s1.commits, k))
  {
    hide Sound, Tracked, Sync, ApplyOne, DiscardOne, Picks, Good, StartReplay, PickedAt, MadeOf, SameWork, Apply,
         RemoveAt, Resolve, TreeOf, Applies, NamesCarried, Narrower, Grown;
    SyncStarts(s);
    PickedIff(StartReplay(Snapshot(s), |s.repo|), s.commits, answers, j);
    k := SyncCarries(s, answers, name, j);
    MovedGood(s, answers);
    var s1 := Sync(s, answers).state;
    ApplyDecides(s1, name, k);
    DiscardDecides(s1, name, k);
    GoodPatchChanges(s1, k);
    MadeNarrower(s, answers, j, k);
  }

  lemma MadeNarrower(s: State, answers: seq<Answer>, j: nat, k: nat)
    requires Sound(s, []) && Tracked(s) && j < |s.commits|
    requires var s1 := Sync(s, answers).state;
             Tracked(s1) && Grown(s, s1) && k < |s1.commits| && MadeOf(s1, s1.commits[k].id, s.commits[j].id)
    ensures Narrower(Sync(s, answers).state.commits[k], s.commits[j])
  {
    hide Sound, Sync, Resolve, Grown, MadeOf, Narrower, Live, Unrelated;
    SyncNames(s, answers);
    var s1, name := Sync(s, answers).state, s.commits[j].id;
    assert Recorded(BookOf(s), s.commits[j]);
    OwnName(s, j);
    FindsAgain(s, s1, name, j, k);
    FoundIsNarrower(s1, name, k);
  }

  lemma OwnName(s: State, j: nat)
    requires Tracked(s) && j < |s.commits|
    ensures Resolve(s.aliases, s.commits[j].id) == s.commits[j].id
  {
  }

  lemma GoodPatchChanges(s: State, k: nat)
    requires Good(s) && k < |s.commits|
    ensures Apply(s.commits[k].diff, s.parent) != s.parent
  {
    hide Tracked, Struct;
    var d := s.commits[k].diff;
    AppliesAlone(s.repo, s.baseline, s.commits, [], k);
    var p :| p in d;
    assert Get(Apply(d, s.parent), p) != Get(s.parent, p);
  }
}
