/** Independent review commits can be applied or discarded in any order. */
module Confluence {
  import opened GitModel
  import opened ReviewSpec
  import opened Queue
  import opened Replay
  import opened Clean
  import opened Operations
  import opened Merging
  import opened Names
  import opened Lineage
  import opened NameRuns
  import opened NameSafety
  import opened Carrying

  /** A synchronized coordinator: the parent is what it last observed, and what its queue sits on. */
  predicate Aligned(s: State) {
    s.parent == TreeOf(s, s.observed) && s.parent == TreeOf(s, s.baseline)
  }

  ghost predicate Good(s: State) {
    Sound(s, []) && Tracked(s) && Aligned(s)
  }

  // After a clean replay every old name leads to the same item.

  /** Every name of an item that is replayed still finds that item's work. */
  ghost predicate NamesCarried(s: State, r: State, gone: nat) {
    forall name, j | 0 <= j < |s.commits| && j != gone && Resolve(s.aliases, name) == s.commits[j].id ::
      var k := if j < gone then j else j - 1;
      k < |r.commits| && Resolve(r.aliases, name) == r.commits[k].id
  }

  lemma CarriedBy(s: State, r: State, gone: nat)
    requires gone < |s.commits| && Tracked(s) && Tracked(r) && Grown(s, r)
    requires AllMade(r, RemoveAt(s.commits, gone), 0)
    ensures NamesCarried(s, r, gone)
  {
    hide Tracked, Resolve, Grown, MadeOf;
    var rest := RemoveAt(s.commits, gone);
    forall name, j | 0 <= j < |s.commits| && j != gone && Resolve(s.aliases, name) == s.commits[j].id
      ensures var k := if j < gone then j else j - 1;
              k < |r.commits| && Resolve(r.aliases, name) == r.commits[k].id
    {
      var k := if j < gone then j else j - 1;
      assert rest[k] == s.commits[j] && MadeOf(r, r.commits[0 + k].id, rest[k].id);
      FindsAgain(s, r, name, j, k);
    }
  }

  /** Replaying the rest of the queue where all preimages are present carries every name along. */
  lemma ReplayCarries(s: State, s1: State, base: Id, k: nat)
    requires Tracked(s) && k < |s.commits| && s1.commits == RemoveAt(s.commits, k)
    requires s1.history.origins == s.history.origins && |s.repo| <= |s1.repo|
    requires Held(s1, s1.commits) && base < |s1.repo| && AllMatch(s1.commits, TreeOf(s1, base))
    requires Tracked(ReplayOnto(s1, base, NoFault).state)
    ensures NamesCarried(s, ReplayOnto(s1, base, NoFault).state, k)
  {
    hide Tracked, Sound, RemoveAt, NamesCarried, AllMatch, AllStored, Apart, AllMade;
    StartSound(s1, base, s1.commits);
    var start := StartReplay(s1, base);
    assert Ready(start, s1.commits);
    TrackedStored(s);
    ReplayAllMade(start, s1.commits);
    var r := ReplayOnto(s1, base, NoFault).state;
    MadeSame(s, start, ReplayAll(start, s1.commits), r, s1.commits);
    CarriedBy(s, r, k);
  }

  lemma MadeSame(s: State, start: State, end: State, r: State, items: seq<Item>)
    requires Grown(start, end) && AllMade(end, items, 0) && OriginsStored(s)
    requires start.history.origins == s.history.origins && |s.repo| <= |start.repo|
    requires r.history.origins == end.history.origins && r.repo == end.repo && r.commits == end.commits
    ensures Grown(s, r) && AllMade(r, items, 0)
  {
    forall i | 0 <= i < |items|
      ensures MadeOf(r, r.commits[0 + i].id, items[i].id)
    {
      assert MadeOf(end, end.commits[0 + i].id, items[i].id);
    }
  }

  // One decision.

  lemma OthersMatch(s: State, k: nat)
    requires Sound(s, []) && k < |s.commits|
    ensures AllMatch(RemoveAt(s.commits, k), TreeOf(s, s.baseline))
    ensures AllMatch(RemoveAt(s.commits, k), Apply(s.commits[k].diff, TreeOf(s, s.baseline)))
  {
    QueueMatchesBase(s);
    var r := RemoveAt(s.commits, k);
    forall i | 0 <= i < |r|
      ensures Matches(r[i].diff, TreeOf(s, s.baseline))
      ensures s.commits[k].diff.Keys !! r[i].diff.Keys
    {
      var j := if i < k then i else i + 1;
      assert r[i] == s.commits[j];
      assert s.commits[k].diff.Keys !! s.commits[j].diff.Keys;
    }
    hide Sound;
    StillMatch(r, s.commits[k], TreeOf(s, s.baseline));
  }

  /** Where the named item stands in the queue. */
  lemma FoundAt(s: State, name: Id, k: nat)
    requires Tracked(s) && k < |s.commits| && Resolve(s.aliases, name) == s.commits[k].id
    ensures Position(s.commits, Resolve(s.aliases, name)) == k
  {
  }

  /** What one decision leaves. */
  ghost predicate Decided(s: State, r: State, k: nat, parent: Tree)
    requires k < |s.commits|
  {
    && Good(r) && r.parent == parent && SameWork(r.commits, RemoveAt(s.commits, k))
    && r.history.lost == s.history.lost && NamesCarried(s, r, k)
  }

  lemma AdoptIsReplay(s: State, d: Diff, rest: seq<Item>)
    ensures FinishApply(s, d, rest, NoFault)
         == ReplayOnto(Snapshot(s.(parent := Apply(d, s.parent), commits := rest)).(observed := |s.repo|), |s.repo|, NoFault)
  {
  }

  /** The state an Apply replays from: the patched parent, its snapshot, and the rest of the queue. */
  function AfterPatch(s: State, d: Diff, rest: seq<Item>): State {
    Snapshot(s.(parent := Apply(d, s.parent), commits := rest)).(observed := |s.repo|)
  }

  lemma AfterPatchHeld(s: State, d: Diff, rest: seq<Item>)
    requires Held(s, rest)
    ensures Held(AfterPatch(s, d, rest), rest)
    ensures |s.repo| < |AfterPatch(s, d, rest).repo| && Extends(s.repo, AfterPatch(s, d, rest).repo)
    ensures TreeOf(AfterPatch(s, d, rest), |s.repo|) == Apply(d, s.parent)
  {
    hide AllStored, Apart, StraysFree, Apply;
    HeldHere(s, AfterPatch(s, d, rest), rest);
  }

  lemma FinishDecides(s: State, k: nat)
    requires Good(s) && k < |s.commits| && Applies(s.commits[k].diff, s.parent)
    ensures var o := FinishApply(s, s.commits[k].diff, RemoveAt(s.commits, k), NoFault);
            && o.Done? && o.state.parent == Apply(s.commits[k].diff, s.parent)
            && SameWork(o.state.commits, RemoveAt(s.commits, k))
            && o.state.history.lost == s.history.lost && NamesCarried(s, o.state, k)
  {
    hide Sound, Tracked, NamesCarried, RemoveAt, Held, AllMatch, SameWork, IdSet, Apply, Applies, ReplayOnto,
         ShownGrows, AfterPatch, FinishApply, Extends;
    OthersMatch(s, k);
    WithoutPrepared(s, k);
    var d, rest := s.commits[k].diff, RemoveAt(s.commits, k);
    PreparedHeld(s, rest, IdSet(s.commits));
    AfterPatchHeld(s, d, rest);
    AdoptIsReplay(s, d, rest);
    var snap := AfterPatch(s, d, rest);
    AfterPatchFields(s, d, rest);
    ReplayOntoClean(snap, |s.repo|);
    ReplayOntoSound(snap, |s.repo|);
    FinishApplyNames(s, d, rest, NoFault);
    ReplayCarries(s, snap, |s.repo|, k);
  }

  lemma AfterPatchFields(s: State, d: Diff, rest: seq<Item>)
    ensures var snap := AfterPatch(s, d, rest);
            && snap.commits == rest && snap.history == s.history && snap.parent == Apply(d, s.parent)
            && FinishApply(s, d, rest, NoFault) == ReplayOnto(snap, |s.repo|, NoFault)
  {
  }

  lemma FinishGood(s: State, k: nat)
    requires Good(s) && k < |s.commits| && Applies(s.commits[k].diff, s.parent)
    ensures Good(FinishApply(s, s.commits[k].diff, RemoveAt(s.commits, k), NoFault).state)
  {
    hide Sound, Tracked, RemoveAt, Held, SameWork, Apply, Applies, ShownGrows, Extends, IdSet, Prepared, ReplayOnto;
    var d, rest := s.commits[k].diff, RemoveAt(s.commits, k);
    WithoutPrepared(s, k);
    PreparedHeld(s, rest, IdSet(s.commits));
    AdoptIsReplay(s, d, rest);
    AfterPatchHeld(s, d, rest);
    AfterPatchFields(s, d, rest);
    ReplayOntoSound(AfterPatch(s, d, rest), |s.repo|);
    FinishApplySound(s, d, rest, NoFault);
    FinishApplyNames(s, d, rest, NoFault);
  }

  lemma AppliedDecided(s: State, r: State, k: nat, parent: Tree, items: seq<Item>, d: Diff)
    requires k < |s.commits| && Decided(s, r, k, parent)
    ensures Decided(s, Applied(r, items, d), k, parent)
  {
    hide Good, NamesCarried, SameWork;
    SameCarried(s, r, Applied(r, items, d), k);
    SameGood(r, Applied(r, items, d));
  }

  lemma SameGood(a: State, b: State)
    requires Good(a) && BookOf(b) == BookOf(a) && b.commits == a.commits && b.repo == a.repo && b.parent == a.parent
    requires b.baseline == a.baseline && b.observed == a.observed && b.head == a.head && b.work == a.work
    ensures Good(b)
  {
    hide Struct, Traced, AtTip, StraysApart;
    SoundSame(a, b, []);
  }

  lemma ApplyDecides(s: State, name: Id, k: nat)
    requires Good(s) && k < |s.commits| && Resolve(s.aliases, name) == s.commits[k].id
    ensures ApplyOne(s, name, NoFault).Done?
    ensures Decided(s, ApplyOne(s, name, NoFault).state, k, Apply(s.commits[k].diff, s.parent))
  {
    FoundAt(s, name, k);
    AppliesAlone(s.repo, s.baseline, s.commits, [], k);
    hide Sound, Tracked, NamesCarried, RemoveAt, SameWork, Apply, Applies, FinishApply;
    FinishDecides(s, k);
    FinishGood(s, k);
    var r := FinishApply(s, s.commits[k].diff, RemoveAt(s.commits, k), NoFault).state;
    AppliedDecided(s, r, k, r.parent, [s.commits[k]], s.commits[k].diff);
  }

  lemma SameCarried(s: State, a: State, b: State, k: nat)
    requires NamesCarried(s, a, k) && b.aliases == a.aliases && b.commits == a.commits
    ensures NamesCarried(s, b, k)
  {
  }

  lemma DiscardDecides(s: State, name: Id, k: nat)
    requires Good(s) && k < |s.commits| && Resolve(s.aliases, name) == s.commits[k].id
    ensures DiscardOne(s, name, NoFault).Done?
    ensures Decided(s, DiscardOne(s, name, NoFault).state, k, s.parent)
  {
    hide AllStored, Apart, Tracked, NamesCarried, RemoveAt, Held, AllMatch, SameWork, IdSet, ReplayAll, ShownGrows;
    FoundAt(s, name, k);
    OthersMatch(s, k);
    WithoutPrepared(s, k);
    SoundHeld(s);
    var rest := RemoveAt(s.commits, k);
    var s1 := s.(commits := rest,
                 history := s.history.(discarded := s.history.discarded + Purposes([s.commits[k]])));
    PreparedHeld(s, rest, IdSet(s.commits));
    HeldHere(s, s1, rest);
    ReplayOntoClean(s1, s.baseline);
    DiscardOneSound(s, name, NoFault);
    DiscardOneNames(s, name, NoFault);
    ReplayCarries(s, s1, s.baseline, k);
    StillAligned(s, DiscardOne(s, name, NoFault).state);
  }

  lemma StillAligned(s: State, r: State)
    requires Aligned(s) && Extends(s.repo, r.repo) && s.observed < |s.repo| && s.baseline < |s.repo|
    requires r.parent == s.parent && r.observed == s.observed && r.baseline == s.baseline
    ensures Aligned(r)
  {
  }

  // Any number of decisions in any order.

  datatype Decision = Decision(name: Id, apply: bool)

  function Decide(s: State, d: Decision): State {
    HandleControl(s, if d.apply then ApplyCommit(d.name) else DiscardCommit(d.name), [], NoFault).state
  }

  function Play(s: State, ds: seq<Decision>): State
    decreases |ds|
  {
    if ds == [] then s else Play(Decide(s, ds[0]), ds[1..])
  }

  /** The name finds a queued item with this diff. */
  ghost predicate Denotes(s: State, name: Id, d: Diff) {
    exists k :: 0 <= k < |s.commits| && Resolve(s.aliases, name) == s.commits[k].id && s.commits[k].diff == d
  }

  /** In a synchronized state the command's own synchronization only takes a snapshot. */
  lemma SyncIsSnapshot(s: State, control: Control)
    requires Good(s)
    ensures Good(Snapshot(s))
    ensures HandleControl(s, control, [], NoFault) == Dispatch(Snapshot(s), control, NoFault)
  {
    hide Linked, Apart, Traced, Dispatch, SyncLoop;
    SyncSound(s, []);
    SyncNames(s, []);
    assert TreeOf(Snapshot(s), s.observed) == TreeOf(s, s.observed);
    assert TreeOf(Snapshot(s), s.baseline) == TreeOf(s, s.baseline);
  }

  lemma DecideOnce(s: State, d: Decision, k: nat)
    requires Good(s) && k < |s.commits| && Resolve(s.aliases, d.name) == s.commits[k].id
    ensures Decided(s, Decide(s, d), k, if d.apply then Apply(s.commits[k].diff, s.parent) else s.parent)
  {
    hide Good, Decided, ApplyOne, DiscardOne, Sync;
    var control := if d.apply then ApplyCommit(d.name) else DiscardCommit(d.name);
    SyncIsSnapshot(s, control);
    if d.apply {
      ApplyDecides(Snapshot(s), d.name, k);
    } else {
      DiscardDecides(Snapshot(s), d.name, k);
    }
    SnapshotDecided(s, Decide(s, d), k, if d.apply then Apply(s.commits[k].diff, s.parent) else s.parent);
  }

  lemma SnapshotDecided(s: State, r: State, k: nat, parent: Tree)
    requires k < |s.commits| && Decided(Snapshot(s), r, k, parent)
    ensures Decided(s, r, k, parent)
  {
  }

  /** Deciding one item leaves every other name where it was. */
  lemma OthersStillDenoted(s: State, r: State, k: nat, parent: Tree, name: Id, d: Diff)
    requires k < |s.commits| && Decided(s, r, k, parent) && Denotes(s, name, d) && d != s.commits[k].diff
    ensures Denotes(r, name, d)
  {
    hide Good, Resolve, SameWork, RemoveAt;
    var j := DenotedAt(s, name, d);
    var m := if j < k then j else j - 1;
    assert j != k;
    SameDiffAt(s.commits, r.commits, k, j);
  }

  lemma SameDiffAt(items: seq<Item>, left: seq<Item>, k: nat, j: nat)
    requires k < |items| && j < |items| && j != k && SameWork(left, RemoveAt(items, k))
    ensures var m := if j < k then j else j - 1; m < |left| && left[m].diff == items[j].diff
  {
    var m := if j < k then j else j - 1;
    assert RemoveAt(items, k)[m] == items[j] && SameItem(left[m], RemoveAt(items, k)[m]);
  }

  /** The queued items whose diffs are not among those decided. */
  function Remaining(items: seq<Item>, gone: seq<Diff>): seq<Item> {
    if items == [] then []
    else (if items[0].diff in gone then [] else [items[0]]) + Remaining(items[1..], gone)
  }

  lemma {:induction false} RemainingSame(a: seq<Item>, b: seq<Item>, gone: seq<Diff>)
    requires SameWork(a, b)
    ensures SameWork(Remaining(a, gone), Remaining(b, gone))
    decreases |a|
  {
    if a != [] {
      assert SameItem(a[0], b[0]);
      assert forall i | 0 <= i < |a| - 1 :: a[1..][i] == a[i + 1] && b[1..][i] == b[i + 1];
      RemainingSame(a[1..], b[1..], gone);
    }
  }

  /** No other item has the same diff. */
  predicate OnlyAt(items: seq<Item>, k: nat)
    requires k < |items|
  {
    forall i | 0 <= i < |items| && i != k :: items[i].diff != items[k].diff
  }

  /** Taking one item out first and the others after is taking all of them out. */
  lemma {:induction false} RemainingLess(items: seq<Item>, k: nat, gone: seq<Diff>)
    requires k < |items| && OnlyAt(items, k)
    ensures Remaining(RemoveAt(items, k), gone) == Remaining(items, [items[k].diff] + gone)
    decreases |items|
  {
    var d := items[k].diff;
    var all := [d] + gone;
    assert d in all && forall e :: e in gone ==> e in all;
    if k == 0 {
      assert RemoveAt(items, 0) == items[1..];
      RemainingIgnores(items[1..], d, gone);
    } else {
      assert RemoveAt(items, k) == [items[0]] + RemoveAt(items[1..], k - 1);
      assert RemoveAt(items, k)[1..] == RemoveAt(items[1..], k - 1);
      assert forall i | 0 <= i < |items| - 1 :: items[1..][i] == items[i + 1];
      RemainingLess(items[1..], k - 1, gone);
      assert items[0].diff in all <==> items[0].diff in gone;
    }
  }

  lemma {:induction false} RemainingIgnores(items: seq<Item>, d: Diff, gone: seq<Diff>)
    requires forall i | 0 <= i < |items| :: items[i].diff != d
    ensures Remaining(items, gone) == Remaining(items, [d] + gone)
    decreases |items|
  {
    if items != [] {
      assert forall i | 0 <= i < |items| - 1 :: items[1..][i] == items[i + 1];
      RemainingIgnores(items[1..], d, gone);
      assert items[0].diff in [d] + gone <==> items[0].diff in gone;
    }
  }

  function AppliedOf(ds: seq<Decision>, diffs: seq<Diff>): seq<Diff>
    requires |ds| == |diffs|
  {
    if ds == [] then []
    else (if ds[0].apply then [diffs[0]] else []) + AppliedOf(ds[1..], diffs[1..])
  }

  lemma {:induction false} RemainingAll(items: seq<Item>)
    ensures Remaining(items, []) == items
    decreases |items|
  {
    if items != [] {
      RemainingAll(items[1..]);
    }
  }

  lemma DiffsDiffer(s: State, k: nat)
    requires Good(s) && k < |s.commits|
    ensures OnlyAt(s.commits, k)
  {
  }

  /**
   Confluence of review.  Apply and Discard queued items by displayed name, each at most once and in any
   order: no command loses another item, the items left are the undecided ones in their old order, and the
   parent has received exactly the applied diffs.
   */
  lemma {:induction false} AnyOrder(s: State, ds: seq<Decision>, diffs: seq<Diff>)
    requires Good(s) && |ds| == |diffs|
    requires forall i | 0 <= i < |ds| :: Denotes(s, ds[i].name, diffs[i])
    requires forall i, j | 0 <= i < j < |diffs| :: diffs[i] != diffs[j]
    ensures var r := Play(s, ds);
            && Good(r) && r.history.lost == s.history.lost
            && SameWork(r.commits, Remaining(s.commits, diffs))
            && r.parent == ApplySeq(s.parent, AppliedOf(ds, diffs))
    decreases |ds|
  {
    hide Good, SameWork, Decide, Decided, Denotes, ApplySeq, Remaining;
    if ds == [] {
      RemainingAll(s.commits);
      SameWorkRefl(s.commits);
      NoneApplied(s.parent);
    } else {
      var k := DenotedAt(s, ds[0].name, diffs[0]);
      DecideOnce(s, ds[0], k);
      var r := Decide(s, ds[0]);
      DecidedFacts(s, r, ds[0], k, diffs[0]);
      forall i | 0 <= i < |ds[1..]|
        ensures Denotes(r, ds[1..][i].name, diffs[1..][i])
      {
        assert diffs[0] != diffs[i + 1];
        OthersStillDenoted(s, r, k, r.parent, ds[i + 1].name, diffs[i + 1]);
      }
      AnyOrder(r, ds[1..], diffs[1..]);
      var later := AppliedOf(ds[1..], diffs[1..]);
      ApplySeqFirst(s.parent, diffs[0], later);
      assert [] + later == later;
      LeftOver(s, r, Play(s, ds), k, diffs);
    }
  }

  lemma NoneApplied(t: Tree)
    ensures ApplySeq(t, []) == t
  {
  }

  lemma DenotedAt(s: State, name: Id, d: Diff) returns (k: nat)
    requires Denotes(s, name, d)
    ensures k < |s.commits| && Resolve(s.aliases, name) == s.commits[k].id && s.commits[k].diff == d
  {
    k :| 0 <= k < |s.commits| && Resolve(s.aliases, name) == s.commits[k].id && s.commits[k].diff == d;
  }

  lemma DecidedFacts(s: State, r: State, d: Decision, k: nat, diff: Diff)
    requires k < |s.commits| && s.commits[k].diff == diff
    requires Decided(s, r, k, if d.apply then Apply(diff, s.parent) else s.parent)
    ensures Good(r) && r.history.lost == s.history.lost && SameWork(r.commits, RemoveAt(s.commits, k))
    ensures r.parent == if d.apply then Apply(diff, s.parent) else s.parent
    ensures Decided(s, r, k, r.parent)
  {
  }

  lemma LeftOver(s: State, r: State, final: State, k: nat, diffs: seq<Diff>)
    requires Good(s) && diffs != [] && k < |s.commits| && s.commits[k].diff == diffs[0]
    requires SameWork(r.commits, RemoveAt(s.commits, k)) && SameWork(final.commits, Remaining(r.commits, diffs[1..]))
    ensures SameWork(final.commits, Remaining(s.commits, diffs))
  {
    hide Good, SameWork, RemoveAt, Remaining, OnlyAt;
    DiffsDiffer(s, k);
    RemainingSame(r.commits, RemoveAt(s.commits, k), diffs[1..]);
    RemainingLess(s.commits, k, diffs[1..]);
    assert [diffs[0]] + diffs[1..] == diffs;
    SameWorkTwice(final.commits, Remaining(r.commits, diffs[1..]), Remaining(s.commits, diffs));
  }

  lemma SameWorkTwice(a: seq<Item>, b: seq<Item>, c: seq<Item>)
    requires SameWork(a, b) && SameWork(b, c)
    ensures SameWork(a, c)
  {
  }
}
