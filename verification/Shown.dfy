/** What the user was shown is all that an Apply by its name can put on the parent. */
module Shown {
  import opened GitModel
  import opened ReviewSpec
  import opened Queue
  import opened Replay
  import opened Clean
  import opened Operations
  import opened Names
  import opened Lineage
  import opened NameSafety
  import opened NameTheorems
  import opened Runs

  /** The tree changed only as the diff says, on some of the diff's paths and from the contents it shows. */
  ghost predicate ChangedAsShown(before: Tree, after: Tree, d: Diff) {
    forall p | Get(after, p) != Get(before, p) ::
      p in d && Get(before, p) == d[p].before && Get(after, p) == d[p].after
  }

  lemma NarrowerChange(t: Tree, item: Item, displayed: Item)
    requires Narrower(item, displayed) && Applies(item.diff, t)
    ensures ChangedAsShown(t, Apply(item.diff, t), displayed.diff)
  {
  }

  lemma ApplyOneParent(s: State, name: Id, fault: Fault)
    requires Sound(s, [])
    ensures var r := ApplyOne(s, name, fault).state;
            || r.parent == s.parent
            || exists k :: 0 <= k < |s.commits| && s.commits[k].id == Resolve(s.aliases, name)
                           && Applies(s.commits[k].diff, s.parent) && r.parent == Apply(s.commits[k].diff, s.parent)
  {
    hide Applies, Apply, FinishApply, AllStored, Apart, RemoveAt, Held, SameWork, Resolve, DiffOf;
    var k := Position(s.commits, Resolve(s.aliases, name));
    if k < |s.commits| && Applies(s.commits[k].diff, s.parent) {
      SoundHeld(s);
      HeldWithout(s, s.commits, k);
      FinishApplySound(s, s.commits[k].diff, RemoveAt(s.commits, k), fault);
    }
  }

  /**
   In every guarded run: pressing Apply on a displayed commit, whatever was synchronized, resolved or failed
   meanwhile, changes the parent on nothing but paths of the displayed diff, from the content it showed as old
   to the content it showed as new.
   */
  lemma AppliesOnlyWhatWasShown(parent: Tree, cs: seq<Command>, name: Id, answers: seq<Answer>, fault: Fault)
    requires GuardedRun(Open(parent), cs)
    requires name in Run(Open(parent), cs).history.shown
    ensures var s := Run(Open(parent), cs);
            var r := Step(s, Press(ApplyCommit(name), answers, fault));
            ChangedAsShown(s.parent, r.parent, s.history.shown[name].diff)
  {
    RunsAreTracked(parent, cs);
    GuardedRunsAreSound(parent, cs);
    var s := Run(Open(parent), cs);
    InvariantSound(s);
    PressedAsShown(s, name, answers, fault);
  }

  lemma PressedAsShown(s: State, name: Id, answers: seq<Answer>, fault: Fault)
    requires Sound(s, []) && Tracked(s) && Orderly(s) && name in s.history.shown
    ensures ChangedAsShown(s.parent, Step(s, Press(ApplyCommit(name), answers, fault)).parent,
                           s.history.shown[name].diff)
  {
    hide Sound, Invariant, Sync, ApplyOne, Narrower, Applies, Apply, ChangedAsShown, Traced, Resolve, IdSet;
    SyncSound(s, answers);
    SyncOrderly(s, answers);
    SyncNames(s, answers);
    var s1 := Sync(s, answers).state;
    InvariantSound(s1);
    ApplyOneParent(s1, name, fault);
    var r := ApplyOne(s1, name, fault).state;
    if r.parent == s.parent {
      NothingChanged(s.parent, s.history.shown[name].diff);
    } else {
      var k :| 0 <= k < |s1.commits| && s1.commits[k].id == Resolve(s1.aliases, name)
               && Applies(s1.commits[k].diff, s1.parent) && r.parent == Apply(s1.commits[k].diff, s1.parent);
      FoundIsNarrower(s1, name, k);
      NarrowerChange(s1.parent, s1.commits[k], s1.history.shown[name]);
    }
  }

  lemma NothingChanged(t: Tree, d: Diff)
    ensures ChangedAsShown(t, t, d)
  {
  }

  // The whole queue.

  /** The tree changed only as some queued diff says, from the content it shows. */
  ghost predicate ChangedAsQueued(before: Tree, after: Tree, items: seq<Item>) {
    forall p | Get(after, p) != Get(before, p) :: Accounts(before, after, items, p)
  }

  ghost predicate Accounts(before: Tree, after: Tree, items: seq<Item>, p: Path) {
    exists i :: 0 <= i < |items| && p in items[i].diff
                && Get(before, p) == items[i].diff[p].before && Get(after, p) == items[i].diff[p].after
  }

  predicate AllNarrower(a: seq<Item>, b: seq<Item>) {
    |a| == |b| && forall i | 0 <= i < |a| :: Narrower(a[i], b[i])
  }

  /** When no item of a synchronization was resolved, dropped or lost, the queue is the old one, narrowed. */
  lemma {:induction false} CleanLoop(s: State, rest: seq<Item>, answers: seq<Answer>, done: seq<Item>)
    requires Sound(s, Footprints(rest)) && AllStored(s.repo, rest) && !SyncChanged(s, rest, answers)
    requires AllNarrower(s.commits, done)
    ensures AllNarrower(SyncLoop(s, rest, answers).commits, done + rest)
    decreases |rest|
  {
    hide Sound, CherryPick, AllNarrower, AllStored, Footprints, ResolveStep;
    if rest == [] {
      assert done + rest == done;
    } else {
      CleanLoopTurn(s, rest, FirstAnswer(answers), done);
      CleanLoop(ResolveStep(s, rest[0], FirstAnswer(answers)), rest[1..], LaterAnswers(answers), done + [rest[0]]);
      assert done + [rest[0]] + rest[1..] == done + rest;
    }
  }

  lemma CleanLoopTurn(s: State, rest: seq<Item>, answer: Answer, done: seq<Item>)
    requires Sound(s, Footprints(rest)) && AllStored(s.repo, rest) && rest != []
    requires CherryPick(s, rest[0].id).Picked? && AllNarrower(s.commits, done)
    ensures var r := ResolveStep(s, rest[0], answer);
            && Sound(r, Footprints(rest[1..])) && AllStored(r.repo, rest[1..])
            && AllNarrower(r.commits, done + [rest[0]])
  {
    hide Sound, CherryPick, Narrower, Stored, Footprints, PushPicked, SameOutside, AllNarrower;
    HeadExists(s, Footprints(rest));
    FootprintsCons(rest);
    assert Stored(s.repo, rest[0]);
    PickedNarrower(s, rest[0]);
    ResolveStepSound(s, rest[0], answer, Footprints(rest[1..]));
    var r := ResolveStep(s, rest[0], answer);
    AllStoredLater(s.repo, r.repo, rest[1..]);
    NarrowerSnoc(s.commits, done, r.commits[|s.commits|], rest[0]);
  }

  lemma NarrowerSnoc(a: seq<Item>, b: seq<Item>, x: Item, y: Item)
    requires AllNarrower(a, b) && Narrower(x, y)
    ensures AllNarrower(a + [x], b + [y])
  {
  }

  lemma NarrowerSelf(items: seq<Item>)
    ensures AllNarrower(items, items)
  {
  }

  lemma UnchangedSyncNarrows(s: State, answers: seq<Answer>)
    requires Sound(s, []) && !Sync(s, answers).changed
    ensures AllNarrower(Sync(s, answers).state.commits, s.commits)
  {
    var s1 := Snapshot(s);
    if s.parent == TreeOf(s1, s.observed) {
      NarrowerSelf(s.commits);
    } else {
      SoundHeld(s);
      assert Extends(s.repo, s1.repo);
      hide Sound, SyncLoop, SyncChanged, AllStored, Apart, AllNarrower;
      HeldHere(s, s1, s.commits);
      HeldApart(s1, s.commits);
      StartSound(s1, |s.repo|, s.commits);
      NarrowerSelf([]);
      CleanLoop(StartReplay(s1, |s.repo|), s.commits, answers, []);
      assert [] + s.commits == s.commits;
    }
  }

  /** On each of its paths the combined diff says what the one queued diff there says. */
  lemma QueueDiffIsQueued(s: State, p: Path) returns (k: nat)
    requires Sound(s, []) && p in QueueDiff(s)
    ensures k < |s.commits| && p in s.commits[k].diff && QueueDiff(s)[p] == s.commits[k].diff[p]
  {
    hide Stored, Applies, ApplySeq;
    var items := s.commits;
    assert Tip(s) == Before(s.baseline, items, |items|);
    if forall i | 0 <= i < |items| :: p !in items[i].diff {
      TipElsewhere(s.repo, s.baseline, items, |items|, p);
      assert false;
    }
    k :| 0 <= k < |items| && p in items[k].diff;
    AppliesAlone(s.repo, s.baseline, items, [], k);
    AppliedPreimage(items[k].diff, TreeOf(s, s.baseline), p);
    ChainTree(s.repo, s.baseline, items, |items|);
    DiffsDisjoint(items, []);
    assert Diffs(items)[..|items|] == Diffs(items);
    ApplySeqHit(TreeOf(s, s.baseline), Diffs(items), k, p);
  }

  lemma AppliedPreimage(d: Diff, t: Tree, p: Path)
    requires Applies(d, t) && p in d
    ensures Get(t, p) == d[p].before
  {
  }

  lemma ApplyAllParent(s: State, fault: Fault)
    requires Sound(s, [])
    ensures var r := ApplyAll(s, fault).state;
            || r.parent == s.parent
            || (Applies(QueueDiff(s), s.parent) && r.parent == Apply(QueueDiff(s), s.parent))
  {
    hide Applies, Apply, FinishApply, AllStored, Apart, Held, SameWork, QueueDiff;
    if s.commits != [] && Applies(QueueDiff(s), s.parent) {
      SoundHeld(s);
      HeldNone(s, s.commits);
      FinishApplySound(s, QueueDiff(s), [], fault);
    }
  }

  lemma ApplyAllAsQueued(s: State, fault: Fault, displayed: seq<Item>)
    requires Sound(s, []) && AllNarrower(s.commits, displayed)
    ensures ChangedAsQueued(s.parent, ApplyAll(s, fault).state.parent, displayed)
  {
    hide Sound, ApplyAll, Applies, QueueDiff, AllNarrower;
    ApplyAllParent(s, fault);
    var r := ApplyAll(s, fault).state;
    forall p | Get(r.parent, p) != Get(s.parent, p)
      ensures Accounts(s.parent, r.parent, displayed, p)
    {
      var k := QueueDiffIsQueued(s, p);
      AppliedPreimage(QueueDiff(s), s.parent, p);
      NarrowerAt(s.commits, displayed, k, p);
    }
  }

  lemma NarrowerAt(a: seq<Item>, b: seq<Item>, k: nat, p: Path)
    requires AllNarrower(a, b) && k < |a| && p in a[k].diff
    ensures k < |b| && p in b[k].diff && a[k].diff[p] == b[k].diff[p]
  {
  }

  /**
   Whatever applies the whole queue, the Apply-all control or switching from Review to Write, changes the
   parent only as the queue on display said: a queue that synchronization would change is not applied.
   */
  lemma AppliesOnlyTheQueueShown(s: State, control: Control, answers: seq<Answer>, fault: Fault)
    requires Sound(s, []) && control in {ApplyQueue, SetMode(Write)}
    ensures ChangedAsQueued(s.parent, Step(s, Press(control, answers, fault)).parent, s.commits)
  {
    hide Sound, Sync, ApplyAll, ChangedAsQueued, AllNarrower;
    SyncSound(s, answers);
    NothingQueued(s.parent, s.commits);
    var sync := Sync(s, answers);
    if !sync.changed {
      UnchangedSyncNarrows(s, answers);
      ApplyAllAsQueued(sync.state, fault, s.commits);
    }
  }

  lemma NothingQueued(t: Tree, items: seq<Item>)
    ensures ChangedAsQueued(t, t, items)
  {
  }
}
