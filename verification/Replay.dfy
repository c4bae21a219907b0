/** Replaying and synchronizing keep the queue sound, and replaying on matching ground changes no diff. */
module Replay {
  import opened GitModel
  import opened ReviewSpec
  import opened Queue

  /** What no replay touches. */
  predicate SameOutside(s: State, r: State) {
    && r.parent == s.parent && r.observed == s.observed && r.baseline == s.baseline && r.mode == s.mode
    && r.history.ledger == s.history.ledger && r.history.committed == s.history.committed
    && r.history.applied == s.history.applied && r.history.discarded == s.history.discarded
  }

  /** A fresh commit on the tip becomes the newest queue item. */
  lemma PushStruct(s: State, f: set<Path>, pending: seq<set<Path>>, t: Tree, r: State, item: Item)
    requires Struct(s.repo, s.baseline, s.commits, [f] + pending) && s.head == Tip(s) && s.observed < |s.repo|
    requires t != TreeOf(s, s.head)
    requires item.id == |s.repo| && item.diff == DiffOf(TreeOf(s, s.head), t)
    requires item.diff.Keys <= f && item.diff.Keys <= item.paths
    requires r.repo == CommitIndex(s, t).repo && r.head == |s.repo| && Covers(r) && StraysApart(r, pending)
    requires r.baseline == s.baseline && r.commits == s.commits + [item] && r.observed == s.observed
    ensures Sound(r, pending)
    ensures Extends(s.repo, r.repo)
  {
    hide Covers, StraysApart;
    EmptyDiff(TreeOf(s, s.head), t);
    assert s.head == Before(s.baseline, s.commits, |s.commits|);
    PushKeeps(s.repo, s.baseline, s.commits, f, pending, t, item);
  }

  /** Stray files may go and none may come. */
  lemma PushSound(s: State, f: set<Path>, pending: seq<set<Path>>, t: Tree, r: State, item: Item)
    requires Sound(s, [f] + pending)
    requires t != TreeOf(s, s.head)
    requires item.id == |s.repo| && item.diff == DiffOf(TreeOf(s, s.head), t)
    requires item.diff.Keys <= f && item.diff.Keys <= item.paths
    requires r.repo == CommitIndex(s, t).repo && r.head == |s.repo| && Covers(r) && Strays(r).Keys <= Strays(s).Keys
    requires r.baseline == s.baseline && r.commits == s.commits + [item] && r.observed == s.observed
    ensures Sound(r, pending)
    ensures Extends(s.repo, r.repo)
  {
    hide Struct, Covers, Strays, StraysApart;
    PushApartStrays(s, f, pending, r, item);
    PushStruct(s, f, pending, t, r, item);
  }

  lemma PushApartStrays(s: State, f: set<Path>, pending: seq<set<Path>>, r: State, item: Item)
    requires StraysApart(s, [f] + pending) && Strays(r).Keys <= Strays(s).Keys
    requires r.commits == s.commits + [item] && item.diff.Keys <= f
    ensures StraysApart(r, pending)
  {
    hide Strays;
    assert ([f] + pending)[0] == f && forall j | 0 <= j < |pending| :: ([f] + pending)[j + 1] == pending[j];
    forall p, i | p in Strays(r) && 0 <= i < |r.commits|
      ensures p !in r.commits[i].diff
    {
      assert p in Strays(s).Keys;
      assert p in item.diff ==> p in item.diff.Keys;
    }
  }

  lemma ShowFresh(s: State, t: Tree)
    requires s.head < |s.repo|
    ensures Show(CommitIndex(s, t), |s.repo|) == DiffOf(TreeOf(s, s.head), t)
    ensures Show(CommitTree(s, t), |s.repo|) == DiffOf(TreeOf(s, s.head), t)
    ensures Show(CommitOver(s, t), |s.repo|) == DiffOf(TreeOf(s, s.head), t)
  {
  }

  lemma HeadExists(s: State, pending: seq<set<Path>>)
    requires Sound(s, pending)
    ensures s.head < |s.repo| && s.head == Before(s.baseline, s.commits, |s.commits|)
  {
  }

  /** The worktree after a commit of `t`: its files, and of the stray ones at most those there were. */
  predicate Fits(s: State, t: Tree, work: Tree) {
    && (forall p | p in t :: Get(work, p) == Get(t, p))
    && (forall p | p in work && p !in t :: p in Strays(s))
  }

  lemma FitsAlone(s: State, t: Tree)
    ensures Fits(s, t, t) && Fits(s, t, Strays(s) + t)
  {
  }

  lemma FittingCovers(s: State, t: Tree, work: Tree, r: State)
    requires Fits(s, t, work) && r.work == work && TreeOf(r, r.head) == t
    ensures Covers(r) && Strays(r).Keys <= Strays(s).Keys
  {
  }

  /** Queueing a fresh commit of tree `t`, under any identity, when it changes only set-aside paths. */
  lemma HeadSound(s: State, t: Tree, work: Tree, was: Id, item: Item, f: set<Path>, pending: seq<set<Path>>)
    requires Sound(s, [f] + pending) && Fits(s, t, work)
    requires t != TreeOf(s, s.head)
    requires DiffOf(TreeOf(s, s.head), t).Keys <= f && DiffOf(TreeOf(s, s.head), t).Keys <= item.paths
    ensures var r := PushHead(CommitIndex(s, t).(work := work), item);
            Sound(r, pending) && Extends(s.repo, r.repo) && SameOutside(s, r)
    ensures var r := PushHead(Alias(MadeFrom(CommitIndex(s, t).(work := work), was), was, |s.repo|), item);
            Sound(r, pending) && Extends(s.repo, r.repo) && SameOutside(s, r)
    ensures Show(CommitIndex(s, t), |s.repo|) == DiffOf(TreeOf(s, s.head), t)
  {
    hide Sound, Fits, Covers, Strays, DiffOf;
    HeadExists(s, [f] + pending);
    ShowFresh(s, t);
    var moved := item.(id := |s.repo|, diff := DiffOf(TreeOf(s, s.head), t));
    var c := CommitIndex(s, t).(work := work);
    var r, a := PushHead(c, item), PushHead(Alias(MadeFrom(c, was), was, |s.repo|), item);
    assert Show(c, |s.repo|) == Show(CommitIndex(s, t), |s.repo|);
    FittingCovers(s, t, work, r);
    FittingCovers(s, t, work, a);
    PushSound(s, f, pending, t, r, moved);
    PushSound(s, f, pending, t, a, moved);
  }

  lemma SetAsideFree(s: State, d: Diff, pending: seq<set<Path>>)
    requires StraysApart(s, [d.Keys] + pending)
    ensures FreeOf(s, d)
  {
    hide Strays;
    assert ([d.Keys] + pending)[0] == d.Keys;
    forall p | p in Strays(s)
      ensures p !in d
    {
      assert p !in ([d.Keys] + pending)[0];
    }
  }

  lemma SoundFree(s: State, d: Diff, pending: seq<set<Path>>)
    requires Sound(s, [d.Keys] + pending)
    ensures FreeOf(s, d)
  {
    SetAsideFree(s, d, pending);
  }

  /** A pick of a stored item neither makes nor takes a stray file. */
  lemma PickStrays(s: State, item: Item)
    requires Stored(s.repo, item) && FreeOf(s, item.diff) && CherryPick(s, item.id).Picked?
    ensures Strays(CherryPick(s, item.id).state) == Strays(s)
  {
    hide CherryPick, Stored, CollidesSomewhere, Blocked;
    PickByDiff(s, item);
    var t := Apply(item.diff, TreeOf(s, s.head));
    var r := CherryPick(s, item.id).state;
    assert r.work == Strays(s) + t && TreeOf(r, r.head) == t;
    forall p | p in Strays(s)
      ensures p !in t
    {
      assert Get(t, p) == Get(TreeOf(s, s.head), p);
    }
  }

  lemma PushedStrays(s: State, item: Item)
    ensures Strays(PushPicked(s, item)) == Strays(s)
  {
    SameFiles(s, PushPicked(s, item));
  }

  lemma PickedSound(s: State, item: Item, pending: seq<set<Path>>)
    requires Sound(s, [item.diff.Keys] + pending) && Stored(s.repo, item)
    requires CherryPick(s, item.id).Picked?
    ensures var r := PushPicked(CherryPick(s, item.id).state, item);
            Sound(r, pending) && Extends(s.repo, r.repo) && SameOutside(s, r) && Strays(r) == Strays(s)
  {
    hide Struct, AtTip, StraysApart, CherryPick, Fits, Strays, CollidesSomewhere, PushHead, Blocked;
    SoundFree(s, item.diff, pending);
    PickByDiff(s, item);
    PickStrays(s, item);
    PushedStrays(CherryPick(s, item.id).state, item);
    var t := Apply(item.diff, TreeOf(s, s.head));
    forall p | p in DiffOf(TreeOf(s, s.head), t)
      ensures p in item.diff
    {
    }
    FitsAlone(s, t);
    assert Stored(s.repo, item) && item.diff.Keys <= item.paths;
    HeadSound(s, t, Strays(s) + t, item.id, item, item.diff.Keys, pending);
  }

  /** A reset to where HEAD is brings back its files and leaves the stray ones. */
  lemma ResetToHead(s: State)
    requires Covers(s)
    ensures ResetHard(s, s.head) == s
  {
    forall p
      ensures Get(Strays(s) + TreeOf(s, s.head), p) == Get(s.work, p)
    {
    }
    TreeExt(Strays(s) + TreeOf(s, s.head), s.work);
  }

  lemma ReplayStepSound(s: State, item: Item, pending: seq<set<Path>>)
    requires Sound(s, [item.diff.Keys] + pending) && Stored(s.repo, item)
    ensures var r := ReplayStep(s, item);
            Sound(r, pending) && Extends(s.repo, r.repo) && SameOutside(s, r) && Strays(r) == Strays(s)
  {
    hide Struct, CherryPick, PushPicked, Covers, StraysApart, Strays;
    SameFiles(s, Lose(s, item));
    if CherryPick(s, item.id).Picked? {
      PickedSound(s, item, pending);
    } else {
      LoseSound(s, item, item.diff.Keys, pending);
    }
  }

  lemma ExtendsTransitive(a: seq<Commit>, b: seq<Commit>, c: seq<Commit>)
    requires Extends(a, b) && Extends(b, c)
    ensures Extends(a, c)
  {
  }

  lemma AllStoredLater(a: seq<Commit>, b: seq<Commit>, items: seq<Item>)
    requires Extends(a, b) && AllStored(a, items)
    ensures AllStored(b, items)
  {
  }

  lemma {:induction false} ReplayAllSound(s: State, rest: seq<Item>)
    requires Sound(s, Footprints(rest)) && AllStored(s.repo, rest)
    ensures var r := ReplayAll(s, rest);
            Sound(r, []) && Extends(s.repo, r.repo) && SameOutside(s, r) && Strays(r) == Strays(s)
    decreases |rest|
  {
    hide Sound, Stored, ReplayStep, Strays;
    if rest != [] {
      var r := ReplayStep(s, rest[0]);
      FootprintsCons(rest);
      ReplayStepSound(s, rest[0], Footprints(rest[1..]));
      AllStoredLater(s.repo, r.repo, rest[1..]);
      ReplayAllSound(r, rest[1..]);
    }
  }

  /** Starting over on another baseline: the old queue, or part of it, is set aside. */
  lemma StartSound(s: State, base: Id, items: seq<Item>)
    requires base < |s.repo| && s.observed < |s.repo| && Apart(items, []) && StraysFree(s, items)
    ensures Sound(StartReplay(s, base), Footprints(items))
    ensures Strays(StartReplay(s, base)) == Strays(s) - TreeOf(s, base).Keys
  {
    hide Apart, Linked;
    FootprintsApart(items);
    NothingLinked(s.repo, base);
    StartStrays(s, base, items);
  }

  lemma StartStrays(s: State, base: Id, items: seq<Item>)
    requires StraysFree(s, items)
    ensures var start := StartReplay(s, base);
            && Strays(start) == Strays(s) - TreeOf(s, base).Keys && Covers(start)
            && StraysApart(start, Footprints(items))
  {
    var start := StartReplay(s, base);
    assert TreeOf(start, base) == TreeOf(s, base);
    forall p, j | p in Strays(start) && 0 <= j < |items|
      ensures p !in Footprints(items)[j]
    {
      assert p in Strays(s);
    }
  }

  lemma FootprintsApart(items: seq<Item>)
    requires Apart(items, [])
    ensures Apart([], Footprints(items))
  {
  }

  lemma NothingLinked(repo: seq<Commit>, base: Id)
    requires base < |repo|
    ensures Linked(repo, base, [])
  {
  }

  // Conflict resolution.

  /** A resolution rewrites the files it names and no others. */
  lemma {:induction false} OverwriteElsewhere(t: Tree, files: seq<ConflictFile>, p: Path)
    requires p !in PathsOf(files)
    ensures Get(Overwrite(t, files), p) == Get(t, p)
  {
    if files != [] {
      var init := files[..|files| - 1];
      assert forall f | f in init :: f in files;
      assert files[|files| - 1] in files;
      OverwriteElsewhere(t, init, p);
    }
  }

  /** Where a resolution writes, it does not matter what was there. */
  lemma {:induction false} OverwriteSame(a: Tree, b: Tree, files: seq<ConflictFile>, p: Path)
    requires p in PathsOf(files) || Get(a, p) == Get(b, p)
    ensures Get(Overwrite(a, files), p) == Get(Overwrite(b, files), p)
  {
    if files != [] {
      var init := files[..|files| - 1];
      if p in PathsOf(init) || Get(a, p) == Get(b, p) {
        OverwriteSame(a, b, init, p);
      } else {
        assert forall f | f in files :: f in init || f == files[|files| - 1];
      }
    }
  }

  lemma ConflictsInDiff(s: State, item: Item)
    requires Stored(s.repo, item) && CherryPick(s, item.id).Stopped?
    ensures CherryPick(s, item.id).conflicts <= item.diff.Keys
  {
    hide CherryPick, CollidesSomewhere, Stored, FreeOf, Blocked;
    PickByDiff(s, item);
    forall p | p in CherryPick(s, item.id).conflicts
      ensures p in item.diff
    {
      assert Collides(item.diff, TreeOf(s, s.head), p);
    }
  }

  /** The commit of a resolution differs from the tip only on the reported conflict paths. */
  lemma ResolutionTouchesConflictsOnly(s: State, item: Item, answer: Answer)
    requires Stored(s.repo, item) && CherryPick(s, item.id).Stopped? && answer.Answered?
    requires CoversOnce(CherryPick(s, item.id).conflicts, answer.files)
    ensures DiffOf(TreeOf(s, s.head), Resolved(s, answer.files)).Keys <= CherryPick(s, item.id).conflicts <= item.diff.Keys
  {
    hide CherryPick, Stored, FreeOf, TreeOf, Overwrite;
    ConflictsInDiff(s, item);
    forall p | p in DiffOf(TreeOf(s, s.head), Resolved(s, answer.files))
      ensures p in CherryPick(s, item.id).conflicts
    {
      if p !in PathsOf(answer.files) {
        OverwriteElsewhere(TreeOf(s, s.head), answer.files, p);
      }
    }
  }

  lemma LoseSound(s: State, item: Item, f: set<Path>, pending: seq<set<Path>>)
    requires Sound(s, [f] + pending)
    ensures Sound(Lose(s, item), pending) && SameOutside(s, Lose(s, item)) && Extends(s.repo, Lose(s, item).repo)
    ensures Lose(ResetHard(s, Tip(s)), item) == Lose(s, item)
  {
    hide Struct, Covers, Strays, StraysApart;
    DropFirst(s.repo, s.baseline, s.commits, f, pending);
    DropFirstStrays(s, f, pending);
    SameFiles(s, Lose(s, item));
    SameApart(s, Lose(s, item), pending);
    ResetToHead(s);
  }

  lemma DropFirstStrays(s: State, f: set<Path>, pending: seq<set<Path>>)
    requires StraysApart(s, [f] + pending)
    ensures StraysApart(s, pending)
  {
    hide Strays;
    assert forall j | 0 <= j < |pending| :: ([f] + pending)[j + 1] == pending[j];
  }

  /** The files of a resolution on disk, next to the stray ones. */
  lemma ResolutionFits(s: State, files: seq<ConflictFile>)
    requires Covers(s)
    ensures Fits(s, Resolved(s, files), Overwrite(s.work, files))
  {
    hide Overwrite, TreeOf;
    var t, work := Resolved(s, files), Overwrite(s.work, files);
    forall p
      ensures p in t ==> Get(work, p) == Get(t, p)
      ensures p in work && p !in t ==> p in Strays(s)
    {
      if p in PathsOf(files) {
        OverwriteSame(s.work, TreeOf(s, s.head), files, p);
      } else {
        OverwriteElsewhere(s.work, files, p);
        OverwriteElsewhere(TreeOf(s, s.head), files, p);
      }
    }
  }

  lemma CommitSound(s: State, files: seq<ConflictFile>, item: Item, pending: seq<set<Path>>)
    requires Sound(s, [item.diff.Keys] + pending) && Stored(s.repo, item)
    requires DiffOf(TreeOf(s, s.head), Resolved(s, files)).Keys <= item.diff.Keys
    requires Resolved(s, files) != TreeOf(s, s.head) && Reach(s.work, files) == |files|
    ensures var r := PushHead(CommitIndex(WriteFiles(s, files), Resolved(s, files)), item);
            Sound(r, pending) && Extends(s.repo, r.repo) && SameOutside(s, r)
  {
    hide Struct, Overwrite, Fits, DiffOf, StraysApart, Reach, Covers;
    ResolutionFits(s, files);
    assert files[..|files|] == files;
    var t, work := Resolved(s, files), Overwrite(s.work, files);
    assert CommitIndex(WriteFiles(s, files), t) == CommitIndex(s, t).(work := work);
    HeadSound(s, t, work, item.id, item, item.diff.Keys, pending);
  }

  /** What a broken-off resolution leaves in the worktree. */
  lemma GiveUpStrays(s: State, files: seq<ConflictFile>)
    requires s.head == Tip(s)
    ensures var r := GiveUp(s, files);
            Covers(r) && r.head == s.head && forall p | p in Strays(r) :: p in Strays(s) || p in PathsOf(files)
  {
    hide Overwrite, Tip, Lands, Reach;
    var r, some := GiveUp(s, files), files[..Reach(s.work, files)];
    assert forall f | f in some :: f in files;
    forall p | p in Strays(r) && p !in PathsOf(files)
      ensures p in Strays(s)
    {
      OverwriteElsewhere(s.work, some, p);
    }
  }

  lemma GiveUpSound(s: State, item: Item, files: seq<ConflictFile>, pending: seq<set<Path>>)
    requires Sound(s, [item.diff.Keys] + pending) && PathsOf(files) <= item.diff.Keys
    ensures var r := Lose(GiveUp(s, files), item);
            Sound(r, pending) && Extends(s.repo, r.repo) && SameOutside(s, r)
  {
    hide Struct, Covers, Strays, StraysApart, PathsOf, ResetFrom;
    GiveUpStrays(s, files);
    DropFirst(s.repo, s.baseline, s.commits, item.diff.Keys, pending);
    StructApart(s, [item.diff.Keys] + pending);
    GiveUpFields(s, files);
    NewStraysApart(s, GiveUp(s, files), item.diff.Keys, PathsOf(files), pending);
    LostSound(s, GiveUp(s, files), item, pending);
  }

  lemma StructApart(s: State, pending: seq<set<Path>>)
    requires Struct(s.repo, s.baseline, s.commits, pending)
    ensures Apart(s.commits, pending)
  {
  }

  lemma GiveUpFields(s: State, files: seq<ConflictFile>)
    ensures GiveUp(s, files) == s.(head := GiveUp(s, files).head, work := GiveUp(s, files).work)
  {
    hide Overwrite, Lands, Reach;
  }

  lemma NewStraysApart(s: State, r: State, f: set<Path>, written: set<Path>, pending: seq<set<Path>>)
    requires StraysApart(s, [f] + pending) && Apart(s.commits, [f] + pending) && written <= f && r.commits == s.commits
    requires forall p | p in Strays(r) :: p in Strays(s) || p in written
    ensures StraysApart(r, pending)
  {
    hide Strays;
    var all := [f] + pending;
    assert all[0] == f && forall j | 0 <= j < |pending| :: all[j + 1] == pending[j];
    forall i | 0 <= i < |r.commits|
      ensures written !! r.commits[i].diff.Keys
    {
      assert s.commits[i].diff.Keys !! all[0];
    }
    forall p, i | p in Strays(r) && 0 <= i < |r.commits|
      ensures p !in r.commits[i].diff
    {
      assert p in written ==> p !in r.commits[i].diff.Keys;
    }
    forall p, j | p in Strays(r) && 0 <= j < |pending|
      ensures p !in pending[j]
    {
      assert all[0] !! all[j + 1];
    }
  }

  lemma LostSound(s: State, r: State, item: Item, pending: seq<set<Path>>)
    requires Struct(s.repo, s.baseline, s.commits, pending) && AtTip(s) && s.observed < |s.repo|
    requires r == s.(head := r.head, work := r.work) && r.head == s.head && Covers(r) && StraysApart(r, pending)
    ensures var l := Lose(r, item); Sound(l, pending) && Extends(s.repo, l.repo) && SameOutside(s, l)
  {
    hide Struct, Covers, Strays, StraysApart;
    SameFiles(r, Lose(r, item));
    SameApart(r, Lose(r, item), pending);
  }

  lemma ResolveStepSound(s: State, item: Item, answer: Answer, pending: seq<set<Path>>)
    requires Sound(s, [item.diff.Keys] + pending) && Stored(s.repo, item)
    ensures var r := ResolveStep(s, item, answer);
            Sound(r, pending) && Extends(s.repo, r.repo) && SameOutside(s, r)
  {
    hide Sound, SameOutside, Extends, Stored, CherryPick, PushHead, Overwrite, Lose, ResetHard, PushPicked, FreeOf,
         GiveUp, WriteFiles, CommitIndex, Reach, Known, TreeOf;
    SoundFree(s, item.diff, pending);
    match CherryPick(s, item.id)
    case Picked(_) =>
      PickedSound(s, item, pending);
    case Stopped(conflicts) =>
      LoseSound(s, item, item.diff.Keys, pending);
      ConflictsInDiff(s, item);
      if conflicts != {} && answer.Answered? && CoversOnce(conflicts, answer.files) {
        ResolutionTouchesConflictsOnly(s, item, answer);
        GiveUpSound(s, item, answer.files, pending);
        if Acceptable(s, conflicts, answer) && Resolved(s, answer.files) != TreeOf(s, s.head) {
          CommitSound(s, answer.files, item, pending);
        }
      }
  }

  lemma {:induction false} SyncLoopSound(s: State, rest: seq<Item>, answers: seq<Answer>)
    requires Sound(s, Footprints(rest)) && AllStored(s.repo, rest)
    ensures var r := SyncLoop(s, rest, answers);
            Sound(r, []) && Extends(s.repo, r.repo) && SameOutside(s, r)
    decreases |rest|
  {
    hide Sound, Stored, ResolveStep;
    if rest != [] {
      var r := ResolveStep(s, rest[0], FirstAnswer(answers));
      FootprintsCons(rest);
      ResolveStepSound(s, rest[0], FirstAnswer(answers), Footprints(rest[1..]));
      AllStoredLater(s.repo, r.repo, rest[1..]);
      SyncLoopSound(r, rest[1..], LaterAnswers(answers));
    }
  }
}
