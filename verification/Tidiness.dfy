/**
 Stray files: when a synchronization leaves files in the worktree that HEAD does not have, and that no Apply,
 Discard or change of mode takes them away again.
 */
module Tidiness {
  import opened GitModel
  import opened ReviewSpec
  import opened Queue
  import opened Replay
  import opened Operations

  /**
   The item is not given up after a file that HEAD does not have was written, and before the index knows of
   it: the reset that follows would leave the file behind.
   */
  predicate TurnTidy(s: State, item: Item, answer: Answer) {
    match CherryPick(s, item.id)
    case Picked(_) => true
    case Stopped(conflicts) =>
      conflicts != {} && answer.Answered? && CoversOnce(conflicts, answer.files) && !Lands(s, answer.files) ==>
        forall i | 0 <= i < Reach(s.work, answer.files) && answer.files[i].content.Some? ::
          answer.files[i].path in TreeOf(s, s.head)
  }

  predicate LoopTidy(s: State, rest: seq<Item>, answers: seq<Answer>)
    decreases |rest|
  {
    rest != [] ==>
      && TurnTidy(s, rest[0], FirstAnswer(answers))
      && LoopTidy(ResolveStep(s, rest[0], FirstAnswer(answers)), rest[1..], LaterAnswers(answers))
  }

  /** No resolution of the synchronization breaks off after creating a file that the tip lacks. */
  predicate SyncTidy(s: State, answers: seq<Answer>) {
    s.parent == TreeOf(s, s.observed) || LoopTidy(StartReplay(Snapshot(s), |s.repo|), s.commits, answers)
  }

  // One turn.

  lemma {:induction false} OverwriteAt(t: Tree, files: seq<ConflictFile>, i: nat)
    requires i < |files| && forall j | i < j < |files| :: files[j].path != files[i].path
    ensures Get(Overwrite(t, files), files[i].path) == files[i].content
  {
    if i < |files| - 1 {
      OverwriteAt(t, files[..|files| - 1], i);
    }
  }

  lemma {:induction false} PathsCounted(files: seq<ConflictFile>)
    ensures |PathsOf(files)| <= |files|
    ensures |PathsOf(files)| == |files| ==> forall i, j | 0 <= i < j < |files| :: files[i].path != files[j].path
  {
    hide PathsOf;
    if files == [] {
      NoPaths();
    } else {
      var init, last := files[..|files| - 1], files[|files| - 1];
      PathsCounted(init);
      PathsLast(init, last);
      assert files == init + [last];
      if |PathsOf(files)| == |files| {
        assert last.path !in PathsOf(init);
        forall i | 0 <= i < |init|
          ensures files[i].path != last.path
        {
          InPaths(init, i);
        }
      }
    }
  }

  lemma NoPaths()
    ensures PathsOf([]) == {}
  {
  }

  lemma PathsLast(init: seq<ConflictFile>, last: ConflictFile)
    ensures PathsOf(init + [last]) == PathsOf(init) + {last.path}
  {
  }

  lemma ResetLeaves(s: State, id: Id, index: Tree, p: Path)
    ensures p in Strays(ResetFrom(s, id, index)) <==> p in s.work && p !in index && p !in TreeOf(s, id)
  {
    assert TreeOf(ResetFrom(s, id, index), id) == TreeOf(s, id);
  }

  /** The path is among the files written before one cannot be. */
  predicate WrittenAt(t: Tree, files: seq<ConflictFile>, p: Path) {
    exists i :: 0 <= i < Reach(t, files) && files[i].content.Some? && files[i].path == p
  }

  lemma WrittenThere(t: Tree, files: seq<ConflictFile>, p: Path)
    requires |PathsOf(files)| == |files|
    ensures var w := Overwrite(t, files[..Reach(t, files)]);
            p in w <==> WrittenAt(t, files, p) || (p in t && forall f | f in files[..Reach(t, files)] :: f.path != p)
  {
    hide Overwrite, Reach, PathsOf;
    PathsCounted(files);
    var k := Reach(t, files);
    var some := files[..k];
    if i :| 0 <= i < k && files[i].path == p {
      assert some[i] == files[i];
      OverwriteAt(t, some, i);
      assert forall j | 0 <= j < k && j != i :: files[j].path != p;
    } else {
      NotAmong(some, p);
      OverwriteElsewhere(t, some, p);
    }
  }

  lemma NotAmong(files: seq<ConflictFile>, p: Path)
    requires forall i | 0 <= i < |files| :: files[i].path != p
    ensures p !in PathsOf(files)
  {
  }

  /** The stray files after giving up: those there were, and the new ones written before the index knew of them. */
  lemma GiveUpLeaves(s: State, files: seq<ConflictFile>, p: Path)
    requires s.head == Tip(s) && Covers(s) && |PathsOf(files)| == |files| && p !in Strays(s)
    ensures p in Strays(GiveUp(s, files)) <==>
              !Lands(s, files) && p !in TreeOf(s, s.head) && WrittenAt(s.work, files, p)
  {
    hide Overwrite, Reach, Known, Tip, PathsOf, WrittenAt;
    var index := if Lands(s, files) then Resolved(s, files) else TreeOf(s, s.head);
    var w := WriteFiles(s, files);
    ResetLeaves(w, Tip(s), index, p);
    WrittenThere(s.work, files, p);
    if Lands(s, files) {
      assert files[..Reach(s.work, files)] == files;
      if p in PathsOf(files) {
        OverwriteSame(s.work, TreeOf(s, s.head), files, p);
      } else {
        OverwriteElsewhere(s.work, files, p);
      }
    }
  }

  /** A stray file that is not resolved stays. */
  lemma GiveUpKeeps(s: State, files: seq<ConflictFile>, p: Path)
    requires s.head == Tip(s) && p in Strays(s) && p !in PathsOf(files)
    ensures p in Strays(GiveUp(s, files))
  {
    hide Overwrite, Reach, Known, Tip;
    var index := if Lands(s, files) then Resolved(s, files) else TreeOf(s, s.head);
    var some := files[..Reach(s.work, files)];
    ResetLeaves(WriteFiles(s, files), Tip(s), index, p);
    OverwriteElsewhere(s.work, some, p);
    OverwriteElsewhere(TreeOf(s, s.head), files, p);
  }

  lemma LandedStrays(s: State, files: seq<ConflictFile>)
    requires Covers(s) && Reach(s.work, files) == |files| && forall p | p in Strays(s) :: p !in PathsOf(files)
    ensures Strays(CommitIndex(WriteFiles(s, files), Resolved(s, files))).Keys == Strays(s).Keys
  {
    hide Overwrite, Reach, PathsOf, Fits;
    var r := CommitIndex(WriteFiles(s, files), Resolved(s, files));
    assert files[..|files|] == files;
    ResolutionFits(s, files);
    FittingCovers(s, Resolved(s, files), Overwrite(s.work, files), r);
    forall p | p in Strays(s)
      ensures p in Strays(r)
    {
      OverwriteElsewhere(s.work, files, p);
      OverwriteElsewhere(TreeOf(s, s.head), files, p);
    }
  }

  lemma GivenUpStrays(s: State, files: seq<ConflictFile>)
    requires s.head == Tip(s) && Covers(s) && |PathsOf(files)| == |files|
    requires forall p | p in Strays(s) :: p !in PathsOf(files)
    ensures Strays(s).Keys <= Strays(GiveUp(s, files)).Keys
    ensures Strays(GiveUp(s, files)).Keys == Strays(s).Keys <==>
              Lands(s, files) || forall i | 0 <= i < Reach(s.work, files) && files[i].content.Some? ::
                                   files[i].path in TreeOf(s, s.head)
  {
    hide Overwrite, Reach, PathsOf, Strays, GiveUp, Lands, Tip, Covers;
    var r := GiveUp(s, files);
    forall p | p in Strays(s)
      ensures p in Strays(r)
    {
      GiveUpKeeps(s, files, p);
    }
    forall p | p !in Strays(s)
      ensures p in Strays(r) <==> !Lands(s, files) && p !in TreeOf(s, s.head) && WrittenAt(s.work, files, p)
    {
      GiveUpLeaves(s, files, p);
    }
    if !Lands(s, files) {
      forall i | 0 <= i < Reach(s.work, files) && files[i].content.Some? && files[i].path !in TreeOf(s, s.head)
        ensures files[i].path in Strays(r).Keys && files[i].path !in Strays(s).Keys
      {
        assert WrittenAt(s.work, files, files[i].path);
        assert files[i] in files;
        InPaths(files, i);
      }
    }
  }

  lemma InPaths(files: seq<ConflictFile>, i: nat)
    requires i < |files|
    ensures files[i].path in PathsOf(files)
  {
  }

  lemma SoundParts(s: State, pending: seq<set<Path>>)
    requires Sound(s, pending)
    ensures s.head == Tip(s) && Covers(s) && s.head < |s.repo|
  {
    HeadExists(s, pending);
  }

  lemma PushedFiles(s: State, item: Item)
    ensures Strays(PushHead(s, item)) == Strays(s)
  {
    SameFiles(s, PushHead(s, item));
  }

  /** A turn takes no stray file away, and makes none exactly if it is tidy. */
  lemma TurnStrays(s: State, item: Item, answer: Answer, pending: seq<set<Path>>)
    requires Sound(s, [item.diff.Keys] + pending) && Stored(s.repo, item)
    ensures var r := ResolveStep(s, item, answer);
            && Strays(s).Keys <= Strays(r).Keys
            && (Strays(r).Keys == Strays(s).Keys <==> TurnTidy(s, item, answer))
  {
    hide Sound, Stored, CherryPick, Covers, Strays, PushHead, GiveUp, Reach, Known, Tip, TreeOf, CommitIndex,
         WriteFiles, PushPicked, ResetHard, Extends, SameOutside, Resolved;
    SoundParts(s, [item.diff.Keys] + pending);
    SoundFree(s, item.diff, pending);
    match CherryPick(s, item.id)
    case Picked(_) =>
      PickedSound(s, item, pending);
    case Stopped(conflicts) =>
      SameFiles(s, Lose(s, item));
      ResetToHead(s);
      ConflictsInDiff(s, item);
      if answer.Answered? && CoversOnce(conflicts, answer.files) {
        var files := answer.files;
        assert forall p | p in Strays(s) :: p !in PathsOf(files);
        GivenUpStrays(s, files);
        SameFiles(GiveUp(s, files), Lose(GiveUp(s, files), item));
        if Lands(s, files) {
          LandedStrays(s, files);
          var c := CommitIndex(WriteFiles(s, files), Resolved(s, files));
          PushedFiles(c, item);
        }
      }
  }

  // The whole synchronization.

  lemma {:induction false} LoopStrays(s: State, rest: seq<Item>, answers: seq<Answer>)
    requires Sound(s, Footprints(rest)) && AllStored(s.repo, rest)
    ensures var r := SyncLoop(s, rest, answers);
            && Strays(s).Keys <= Strays(r).Keys
            && (Strays(r).Keys == Strays(s).Keys <==> LoopTidy(s, rest, answers))
    decreases |rest|
  {
    hide Sound, Stored, CherryPick, ResolveStep, Footprints, Strays, TurnTidy, Extends, SameOutside;
    if rest != [] {
      assert Stored(s.repo, rest[0]);
      var r := ResolveStep(s, rest[0], FirstAnswer(answers));
      FootprintsCons(rest);
      ResolveStepSound(s, rest[0], FirstAnswer(answers), Footprints(rest[1..]));
      TurnStrays(s, rest[0], FirstAnswer(answers), Footprints(rest[1..]));
      AllStoredLater(s.repo, r.repo, rest[1..]);
      LoopStrays(r, rest[1..], LaterAnswers(answers));
    }
  }

  lemma NoStrays(s: State)
    requires Sound(s, [])
    ensures Tidy(s) <==> Strays(s).Keys == {}
  {
    TidyCovers(s);
  }

  /**
   A synchronization of a tidy worktree leaves it tidy if and only if no resolution breaks off after creating a
   file that the tip lacks.
   */
  lemma SyncTidyIff(s: State, answers: seq<Answer>)
    requires Sound(s, []) && Tidy(s)
    ensures Tidy(Sync(s, answers).state) <==> SyncTidy(s, answers)
  {
    hide Sound, Tidy, SyncLoop, SyncChanged, LoopTidy, DiffOf, Strays, Held, Extends, StartReplay, TreeOf;
    SnapshotSound(s);
    SnapshotFiles(s);
    SyncSound(s, answers);
    NoStrays(s);
    NoStrays(Sync(s, answers).state);
    if s.parent != TreeOf(s, s.observed) {
      SyncStart(s);
      var start := StartReplay(Snapshot(s), |s.repo|);
      LoopStrays(start, s.commits, answers);
      SyncFiles(s, answers);
    }
  }

  lemma SyncStart(s: State)
    requires Sound(s, []) && Tidy(s)
    ensures var start := StartReplay(Snapshot(s), |s.repo|);
            && Sound(start, Footprints(s.commits)) && AllStored(start.repo, s.commits) && Strays(start).Keys == {}
            && TreeOf(start, start.head) == s.parent
  {
    hide Sound, Held, Strays, Apart, StraysFree;
    SnapshotSound(s);
    NoStrays(s);
    SoundHeld(s);
    SnapshotExtends(s);
    SnapshotObserved(s);
    HeldHere(s, Snapshot(s), s.commits);
    HeldApart(Snapshot(s), s.commits);
    StartSound(Snapshot(s), |s.repo|, s.commits);
  }

  lemma SnapshotObserved(s: State)
    requires Sound(s, [])
    ensures Snapshot(s).observed < |Snapshot(s).repo|
  {
  }

  lemma SyncFiles(s: State, answers: seq<Answer>)
    requires s.parent != TreeOf(Snapshot(s), s.observed)
    ensures Strays(Sync(s, answers).state) == Strays(SyncLoop(StartReplay(Snapshot(s), |s.repo|), s.commits, answers))
  {
    hide SyncLoop, SyncChanged, DiffOf, StartReplay;
    SameFiles(SyncLoop(StartReplay(Snapshot(s), |s.repo|), s.commits, answers), Sync(s, answers).state);
  }

  // What follows.

  /** No stray file is in the tree the queue is based on. */
  lemma StraysOffBase(s: State)
    requires Sound(s, [])
    ensures forall p | p in Strays(s) :: p !in TreeOf(s, s.baseline)
  {
    hide AllStored, Apart, Covers;
    HeadExists(s, []);
    forall p | p in Strays(s)
      ensures p !in TreeOf(s, s.baseline)
    {
      TipElsewhere(s.repo, s.baseline, s.commits, |s.commits|, p);
    }
  }

  /** On a synchronized parent the stray files outlive every control. */
  lemma DispatchKeepsStrays(s: State, control: Control, fault: Fault)
    requires Sound(s, []) && s.parent == TreeOf(s, s.baseline)
    requires control.DiscardCommit? ==> !DiscardBreaks(s, control.id, fault)
    ensures Strays(Dispatch(s, control, fault).state).Keys == Strays(s).Keys
  {
    hide Sound, Dispatch, Strays, DiscardBreaks;
    DispatchSound(s, control, fault);
    StraysOffBase(s);
    SoundParts(s, []);
    assert Strays(s).Keys - Ground(s) == Strays(s).Keys;
  }

  /** A control of a tidy worktree leaves it tidy. */
  lemma DispatchTidy(s: State, control: Control, fault: Fault)
    requires Sound(s, []) && Tidy(s)
    requires control.DiscardCommit? ==> !DiscardBreaks(s, control.id, fault)
    ensures Tidy(Dispatch(s, control, fault).state)
  {
    hide Sound, Tidy, Dispatch, Strays, DiscardBreaks;
    DispatchSound(s, control, fault);
    NoStrays(s);
    NoStrays(Dispatch(s, control, fault).state);
  }
}
