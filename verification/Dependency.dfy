/**
 What Git's replay test decides.  On file granularity a new patch applies to the baseline exactly when
 it overlaps no queued diff, and applies after one queued diff exactly when it overlaps no other.
 */
module Dependency {
  import opened Wrappers
  import opened GitModel
  import opened ReviewSpec
  import opened Queue

  predicate Independent(items: seq<Item>, d: Diff) {
    forall i | 0 <= i < |items| :: d.Keys !! items[i].diff.Keys
  }

  predicate OnlyOverlaps(items: seq<Item>, d: Diff, k: nat) {
    forall i | 0 <= i < |items| && i != k :: d.Keys !! items[i].diff.Keys
  }

  // The net effect of two patches in a row.

  function Start(d: Diff, e: Diff, p: Path): Option<Content>
    requires p in d || p in e
  {
    if p in d then d[p].before else e[p].before
  }

  function End(d: Diff, e: Diff, p: Path): Option<Content>
    requires p in d || p in e
  {
    if p in e then e[p].after else d[p].after
  }

  function Compose(d: Diff, e: Diff): (c: Diff)
    ensures c.Keys <= d.Keys + e.Keys
  {
    map p | p in d.Keys + e.Keys && Start(d, e, p) != End(d, e, p) :: Change(Start(d, e, p), End(d, e, p))
  }

  /** The second patch takes back everything the first one did, and does nothing else. */
  predicate Cancels(d: Diff, e: Diff) {
    Compose(d, e) == map[]
  }

  lemma ComposeIsNet(d: Diff, e: Diff, t: Tree)
    requires Matches(d, t) && Matches(e, Apply(d, t))
    ensures DiffOf(t, Apply(e, Apply(d, t))) == Compose(d, e)
  {
    var r := Apply(e, Apply(d, t));
    var x, c := DiffOf(t, r), Compose(d, e);
    forall p
      ensures p in x <==> p in c
      ensures p in x && p in c ==> x[p] == c[p]
    {
      if p in d || p in e {
        assert Get(t, p) == Start(d, e, p) && Get(r, p) == End(d, e, p);
      } else {
        assert Get(Apply(d, t), p) == Get(t, p);
      }
    }
  }

  // The replay test.

  /** A patch made on the tip expects, where it overlaps a queued diff, what that diff left. */
  lemma OverlapNeedsDiff(t: Tree, ds: seq<Diff>, d: Diff, i: nat, p: Path)
    requires Disjoint(ds) && i < |ds| && Effective(ds[i]) && Matches(ds[i], t)
    requires Matches(d, ApplySeq(t, ds)) && p in d && p in ds[i]
    ensures d[p].before == ds[i][p].after != Get(t, p)
  {
    ApplySeqHit(t, ds, i, p);
  }

  lemma AppliesIffIndependent(t: Tree, ds: seq<Diff>, d: Diff)
    requires Disjoint(ds) && Matches(d, ApplySeq(t, ds))
    requires forall i | 0 <= i < |ds| :: Effective(ds[i]) && Matches(ds[i], t)
    ensures Matches(d, t) <==> forall i | 0 <= i < |ds| :: d.Keys !! ds[i].Keys
  {
    if Matches(d, t) {
      forall i | 0 <= i < |ds|
        ensures d.Keys !! ds[i].Keys
      {
        if p :| p in d.Keys && p in ds[i].Keys {
          OverlapNeedsDiff(t, ds, d, i, p);
        }
      }
    }
    if forall i | 0 <= i < |ds| :: d.Keys !! ds[i].Keys {
      forall p | p in d
        ensures Get(t, p) == d[p].before
      {
        forall i | 0 <= i < |ds|
          ensures p !in ds[i]
        {
          assert d.Keys !! ds[i].Keys && p in d.Keys;
        }
        ApplySeqMiss(t, ds, p);
      }
    }
  }

  lemma AppliesAfterIffOnly(t: Tree, ds: seq<Diff>, d: Diff, k: nat)
    requires Disjoint(ds) && Matches(d, ApplySeq(t, ds)) && k < |ds|
    requires forall i | 0 <= i < |ds| :: Effective(ds[i]) && Matches(ds[i], t)
    ensures Matches(d, Apply(ds[k], t)) <==> forall i | 0 <= i < |ds| && i != k :: d.Keys !! ds[i].Keys
  {
    var u := Apply(ds[k], t);
    if Matches(d, u) {
      forall i | 0 <= i < |ds| && i != k
        ensures d.Keys !! ds[i].Keys
      {
        if p :| p in d.Keys && p in ds[i].Keys {
          assert ds[i].Keys !! ds[k].Keys;
          assert Get(u, p) == Get(t, p);
          OverlapNeedsDiff(t, ds, d, i, p);
        }
      }
    }
    if forall i | 0 <= i < |ds| && i != k :: d.Keys !! ds[i].Keys {
      forall p | p in d
        ensures Get(u, p) == d[p].before
      {
        if p in ds[k] {
          ApplySeqHit(t, ds, k, p);
        } else {
          forall i | 0 <= i < |ds|
            ensures p !in ds[i]
          {
            assert i != k ==> d.Keys !! ds[i].Keys && p in d.Keys;
          }
          ApplySeqMiss(t, ds, p);
        }
      }
    }
  }

  lemma QueueFacts(s: State)
    requires Sound(s, [])
    ensures Disjoint(Diffs(s.commits))
    ensures TreeOf(s, s.head) == ApplySeq(TreeOf(s, s.baseline), Diffs(s.commits))
    ensures forall i | 0 <= i < |s.commits| ::
              Effective(s.commits[i].diff) && Applies(s.commits[i].diff, TreeOf(s, s.baseline))
  {
    DiffsDisjoint(s.commits, []);
    ChainTree(s.repo, s.baseline, s.commits, |s.commits|);
    assert Diffs(s.commits)[..|s.commits|] == Diffs(s.commits);
    forall i | 0 <= i < |s.commits|
      ensures Effective(s.commits[i].diff) && Applies(s.commits[i].diff, TreeOf(s, s.baseline))
    {
      AppliesAlone(s.repo, s.baseline, s.commits, [], i);
    }
  }

  /** Git's two replay tests answer exactly the overlap questions. */
  lemma DependencyIsOverlap(s: State, d: Diff)
    requires Sound(s, []) && Applies(d, TreeOf(s, s.head))
    ensures Applies(d, TreeOf(s, s.baseline)) <==> Independent(s.commits, d)
    ensures forall k | 0 <= k < |s.commits| ::
              AppliesAfter(TreeOf(s, s.baseline), s.commits[k].diff, d) <==> OnlyOverlaps(s.commits, d, k)
  {
    hide Sound, ApplySeq, Disjoint;
    QueueFacts(s);
    var base, ds := TreeOf(s, s.baseline), Diffs(s.commits);
    AppliesIffIndependent(base, ds, d);
    forall k | 0 <= k < |s.commits|
      ensures AppliesAfter(base, s.commits[k].diff, d) <==> OnlyOverlaps(s.commits, d, k)
    {
      AppliesAfterIffOnly(base, ds, d, k);
    }
  }

  /** The search finds the one item the patch depends on, whenever there is exactly one. */
  lemma DependencyIsUnique(s: State, d: Diff)
    requires Sound(s, []) && Applies(d, TreeOf(s, s.head)) && !Independent(s.commits, d)
    ensures var k := FindDependency(s.commits, TreeOf(s, s.baseline), d);
            && (k < |s.commits| <==> exists i :: 0 <= i < |s.commits| && OnlyOverlaps(s.commits, d, i))
            && (forall i | 0 <= i < |s.commits| && OnlyOverlaps(s.commits, d, i) :: i == k)
  {
    DependencyIsOverlap(s, d);
    hide Sound;
    var k := FindDependency(s.commits, TreeOf(s, s.baseline), d);
    forall i | 0 <= i < |s.commits| && OnlyOverlaps(s.commits, d, i)
      ensures i == k
    {
      assert AppliesAfter(TreeOf(s, s.baseline), s.commits[i].diff, d);
      assert k < |s.commits| && OnlyOverlaps(s.commits, d, k);
      assert i == k || Independent(s.commits, d);
    }
  }
}
