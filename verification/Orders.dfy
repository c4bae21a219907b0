/** What confluence means for the parent: every order of applying is Apply all, and discarding first is leaving out. */
module Orders {
  import opened GitModel
  import opened ReviewSpec
  import opened Queue
  import opened Clean
  import opened Dependency
  import opened Lineage
  import opened Confluence

  /** A non-empty queue changes something. */
  lemma QueueChanges(s: State)
    requires Good(s) && s.commits != []
    ensures Applies(QueueDiff(s), s.parent)
    ensures Apply(QueueDiff(s), s.parent) == ApplySeq(s.parent, Diffs(s.commits))
  {
    hide Tracked, Linked, Apart, ApplySeq;
    QueueFacts(s);
    hide Struct;
    var base, tip := TreeOf(s, s.baseline), TreeOf(s, s.head);
    var p :| p in s.commits[0].diff;
    ApplySeqHit(base, Diffs(s.commits), 0, p);
    assert Get(base, p) == s.commits[0].diff[p].before;
    DiffApplies(base, tip);
  }

  /** Apply all in a synchronized state puts every queued diff on the parent and empties the queue. */
  lemma ApplyAllGood(s: State)
    requires Good(s)
    ensures var o := ApplyAll(s, NoFault);
            && o.Done? && o.state.commits == []
            && o.state.parent == ApplySeq(s.parent, Diffs(s.commits))
            && o.state.history.lost == s.history.lost
  {
    if s.commits == [] {
      assert Diffs(s.commits) == [];
      NoneApplied(s.parent);
    } else {
      QueueChanges(s);
      hide Good, ApplySeq, Diffs, Applies, Apply, QueueDiff;
      AdoptIsReplay(s, QueueDiff(s), []);
    }
  }

  lemma {:induction false} AllApplied(ds: seq<Decision>, diffs: seq<Diff>)
    requires |ds| == |diffs| && forall i | 0 <= i < |ds| :: ds[i].apply
    ensures AppliedOf(ds, diffs) == diffs
    decreases |ds|
  {
    if ds != [] {
      AllApplied(ds[1..], diffs[1..]);
    }
  }

  lemma {:induction false} NoneToApply(ds: seq<Decision>, diffs: seq<Diff>)
    requires |ds| == |diffs| && forall i | 0 <= i < |ds| :: !ds[i].apply
    ensures AppliedOf(ds, diffs) == []
    decreases |ds|
  {
    if ds != [] {
      NoneToApply(ds[1..], diffs[1..]);
    }
  }

  lemma {:induction false} NoneRemaining(items: seq<Item>, gone: seq<Diff>)
    requires forall i | 0 <= i < |items| :: items[i].diff in gone
    ensures Remaining(items, gone) == []
    decreases |items|
  {
    if items != [] {
      assert forall i | 0 <= i < |items| - 1 :: items[1..][i] == items[i + 1];
      NoneRemaining(items[1..], gone);
    }
  }

  /** Distinct queued diffs touch disjoint paths, in whatever order they are listed. */
  lemma DenotedDisjoint(s: State, ds: seq<Decision>, diffs: seq<Diff>)
    requires Sound(s, []) && |ds| == |diffs|
    requires forall i | 0 <= i < |ds| :: Denotes(s, ds[i].name, diffs[i])
    requires forall i, j | 0 <= i < j < |diffs| :: diffs[i] != diffs[j]
    ensures Disjoint(diffs) && forall d | d in diffs :: d in Diffs(s.commits)
  {
    hide Resolve, AllStored;
    forall d | d in diffs
      ensures d in Diffs(s.commits)
    {
      var i :| 0 <= i < |diffs| && diffs[i] == d;
      var k := DenotedAt(s, ds[i].name, diffs[i]);
      assert Diffs(s.commits)[k] == d;
    }
    forall i, j | 0 <= i < j < |diffs|
      ensures diffs[i].Keys !! diffs[j].Keys
    {
      var a := DenotedAt(s, ds[i].name, diffs[i]);
      var b := DenotedAt(s, ds[j].name, diffs[j]);
      assert a != b;
      assert s.commits[a].diff.Keys !! s.commits[b].diff.Keys;
    }
  }

  /** Applying the whole queue one by one, in any order and by displayed names, is Apply all. */
  lemma EveryOrderIsApplyAll(s: State, ds: seq<Decision>, diffs: seq<Diff>)
    requires Good(s) && |ds| == |diffs| && forall i | 0 <= i < |ds| :: ds[i].apply
    requires forall i | 0 <= i < |ds| :: Denotes(s, ds[i].name, diffs[i])
    requires forall i, j | 0 <= i < j < |diffs| :: diffs[i] != diffs[j]
    requires forall i | 0 <= i < |s.commits| :: s.commits[i].diff in diffs
    ensures Play(s, ds).parent == ApplyAll(s, NoFault).state.parent
    ensures Play(s, ds).commits == [] && Play(s, ds).history.lost == s.history.lost
  {
    hide Good, Sound, Play, ApplyAll, ApplySeq, Denotes, Disjoint;
    GoodQueue(s);
    AnyOrder(s, ds, diffs);
    AllApplied(ds, diffs);
    NoneRemaining(s.commits, diffs);
    ApplyAllGood(s);
    DenotedDisjoint(s, ds, diffs);
    forall d | d in Diffs(s.commits)
      ensures d in diffs
    {
      var i :| 0 <= i < |s.commits| && Diffs(s.commits)[i] == d;
    }
    ApplySeqPermuted(s.parent, diffs, Diffs(s.commits));
  }

  lemma GoodQueue(s: State)
    requires Good(s)
    ensures Sound(s, []) && Disjoint(Diffs(s.commits))
  {
  }

  lemma SameDiffs(a: seq<Item>, b: seq<Item>)
    requires SameWork(a, b)
    ensures Diffs(a) == Diffs(b)
  {
  }

  /** Discarding any items first, in any order, makes Apply all apply the others alone. */
  lemma DiscardThenApplyAll(s: State, ds: seq<Decision>, diffs: seq<Diff>)
    requires Good(s) && |ds| == |diffs| && forall i | 0 <= i < |ds| :: !ds[i].apply
    requires forall i | 0 <= i < |ds| :: Denotes(s, ds[i].name, diffs[i])
    requires forall i, j | 0 <= i < j < |diffs| :: diffs[i] != diffs[j]
    ensures ApplyAll(Play(s, ds), NoFault).state.parent == ApplySeq(s.parent, Diffs(Remaining(s.commits, diffs)))
    ensures ApplyAll(Play(s, ds), NoFault).state.history.lost == s.history.lost
  {
    hide Good, Play, ApplyAll, ApplySeq, Denotes, SameWork, Remaining;
    AnyOrder(s, ds, diffs);
    NoneToApply(ds, diffs);
    NoneApplied(s.parent);
    ApplyAllGood(Play(s, ds));
    SameDiffs(Play(s, ds).commits, Remaining(s.commits, diffs));
  }
}
