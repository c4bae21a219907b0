/**
 File-level Git.  A tree maps paths to contents; a diff maps each changed path to the content it
 expects and the content it leaves.  Hunks, modes, binary deltas and rename detection are below
 this granularity: a diff applies exactly when every changed path has the recorded preimage.
 */
module GitModel {
  import opened Wrappers

  /** A path is its list of components. */
  type Path = seq<string>
  type Content = string
  type Tree = map<Path, Content>

  datatype Change = Change(before: Option<Content>, after: Option<Content>)
  type Diff = map<Path, Change>

  function Get(t: Tree, p: Path): Option<Content> {
    if p in t then Some(t[p]) else None
  }

  lemma TreeExt(a: Tree, b: Tree)
    requires forall p :: Get(a, p) == Get(b, p)
    ensures a == b
  {
    forall p
      ensures p in a <==> p in b
      ensures p in a ==> a[p] == b[p]
    {
      assert Get(a, p) == Get(b, p);
    }
  }

  /** `git diff a b`. */
  function DiffOf(a: Tree, b: Tree): (d: Diff)
    ensures forall p :: p in d <==> Get(a, p) != Get(b, p)
    ensures forall p | p in d :: d[p] == Change(Get(a, p), Get(b, p))
  {
    map p | p in a.Keys + b.Keys && Get(a, p) != Get(b, p) :: Change(Get(a, p), Get(b, p))
  }

  /** Every changed path has the recorded preimage. */
  predicate Matches(d: Diff, t: Tree) {
    forall p | p in d :: Get(t, p) == d[p].before
  }

  /** `git apply --check`: Git also rejects an input that holds no patch at all. */
  predicate Applies(d: Diff, t: Tree) {
    d != map[] && Matches(d, t)
  }

  /** `git apply`, given that the check passed. */
  function Apply(d: Diff, t: Tree): (r: Tree)
    ensures forall p :: Get(r, p) == if p in d then d[p].after else Get(t, p)
  {
    map p | p in t.Keys + d.Keys && (p in d ==> d[p].after.Some?) ::
      if p in d then d[p].after.value else t[p]
  }

  /** What `git apply --reverse` applies. */
  function Reverse(d: Diff): Diff {
    map p | p in d :: Change(d[p].after, d[p].before)
  }

  /** No entry records a change of nothing; every diff Git prints has this. */
  predicate Effective(d: Diff) {
    forall p | p in d :: d[p].before != d[p].after
  }

  lemma DiffApplies(a: Tree, b: Tree)
    ensures Effective(DiffOf(a, b)) && Matches(DiffOf(a, b), a)
    ensures Apply(DiffOf(a, b), a) == b
  {
    TreeExt(Apply(DiffOf(a, b), a), b);
  }

  lemma DiffOfApply(d: Diff, t: Tree)
    requires Effective(d) && Matches(d, t)
    ensures DiffOf(t, Apply(d, t)) == d
  {
    var e := DiffOf(t, Apply(d, t));
    forall p
      ensures p in e <==> p in d
      ensures p in d ==> e[p] == d[p]
    {
      assert p in d ==> Get(t, p) == d[p].before;
    }
  }

  lemma EmptyDiff(a: Tree, b: Tree)
    ensures DiffOf(a, b) == map[] <==> a == b
  {
    if DiffOf(a, b) == map[] {
      forall p
        ensures Get(a, p) == Get(b, p)
      {
        assert p !in DiffOf(a, b);
      }
      TreeExt(a, b);
    } else {
      var p :| p in DiffOf(a, b);
    }
  }

  /** A reversed patch always applies to what the patch produced, and restores it exactly. */
  lemma ReverseRestores(d: Diff, t: Tree)
    requires Applies(d, t)
    ensures Applies(Reverse(d), Apply(d, t))
    ensures Apply(Reverse(d), Apply(d, t)) == t
  {
    var p :| p in d;
    assert p in Reverse(d);
    TreeExt(Apply(Reverse(d), Apply(d, t)), t);
  }

  lemma ApplyCommutes(a: Diff, b: Diff, t: Tree)
    requires a.Keys !! b.Keys
    ensures Apply(a, Apply(b, t)) == Apply(b, Apply(a, t))
  {
    TreeExt(Apply(a, Apply(b, t)), Apply(b, Apply(a, t)));
  }

  /** A patch elsewhere neither makes nor breaks a preimage. */
  lemma MatchesElsewhere(a: Diff, b: Diff, t: Tree)
    requires a.Keys !! b.Keys
    ensures Matches(a, Apply(b, t)) <==> Matches(a, t)
  {
    forall p | p in a
      ensures Get(Apply(b, t), p) == Get(t, p)
    {
      assert p !in b;
    }
  }

  // Sequences of patches.

  function ApplySeq(t: Tree, ds: seq<Diff>): Tree {
    if ds == [] then t else Apply(ds[|ds| - 1], ApplySeq(t, ds[..|ds| - 1]))
  }

  predicate Disjoint(ds: seq<Diff>) {
    forall i, j | 0 <= i < j < |ds| :: ds[i].Keys !! ds[j].Keys
  }

  lemma {:induction false} ApplySeqMiss(t: Tree, ds: seq<Diff>, p: Path)
    requires forall i | 0 <= i < |ds| :: p !in ds[i]
    ensures Get(ApplySeq(t, ds), p) == Get(t, p)
  {
    if ds != [] {
      ApplySeqMiss(t, ds[..|ds| - 1], p);
    }
  }

  lemma {:induction false} ApplySeqHit(t: Tree, ds: seq<Diff>, k: nat, p: Path)
    requires Disjoint(ds) && k < |ds| && p in ds[k]
    ensures Get(ApplySeq(t, ds), p) == ds[k][p].after
  {
    if k < |ds| - 1 {
      ApplySeqHit(t, ds[..|ds| - 1], k, p);
      assert p !in ds[|ds| - 1];
    }
  }

  /** Applying disjoint patches in any order gives the same tree. */
  lemma ApplySeqPermuted(t: Tree, ds: seq<Diff>, es: seq<Diff>)
    requires Disjoint(ds) && Disjoint(es)
    requires forall d :: d in ds <==> d in es
    ensures ApplySeq(t, ds) == ApplySeq(t, es)
  {
    forall p
      ensures Get(ApplySeq(t, ds), p) == Get(ApplySeq(t, es), p)
    {
      if k :| 0 <= k < |ds| && p in ds[k] {
        assert ds[k] in es;
        var m :| 0 <= m < |es| && es[m] == ds[k];
        ApplySeqHit(t, ds, k, p);
        ApplySeqHit(t, es, m, p);
      } else {
        forall i | 0 <= i < |es|
          ensures p !in es[i]
        {
          assert es[i] in ds;
        }
        ApplySeqMiss(t, ds, p);
        ApplySeqMiss(t, es, p);
      }
    }
    TreeExt(ApplySeq(t, ds), ApplySeq(t, es));
  }

  // Three-way merge, the engine of `git cherry-pick`.

  datatype Merged = Take(content: Option<Content>) | Clash

  function MergePath(base: Option<Content>, ours: Option<Content>, theirs: Option<Content>): Merged {
    if ours == base then Take(theirs)
    else if theirs == base then Take(ours)
    else if ours == theirs then Take(ours)
    else Clash
  }

  function MergeAt(base: Tree, ours: Tree, theirs: Tree, p: Path): Merged {
    MergePath(Get(base, p), Get(ours, p), Get(theirs, p))
  }

  function ConflictPaths(base: Tree, ours: Tree, theirs: Tree): set<Path> {
    set p | p in base.Keys + ours.Keys + theirs.Keys && MergeAt(base, ours, theirs, p).Clash?
  }

  function MergeTrees(base: Tree, ours: Tree, theirs: Tree): Tree {
    map p | p in base.Keys + ours.Keys + theirs.Keys
         && MergeAt(base, ours, theirs, p).Take?
         && MergeAt(base, ours, theirs, p).content.Some?
      :: MergeAt(base, ours, theirs, p).content.value
  }

  /** The paths on which patch `d` collides with tree `ours`. */
  predicate Collides(d: Diff, ours: Tree, p: Path) {
    p in d && Get(ours, p) != d[p].before && Get(ours, p) != d[p].after
  }

  /** Cherry-picking a commit is patching with its diff, and collides where neither side's content is there. */
  lemma MergeIsPatch(base: Tree, ours: Tree, theirs: Tree)
    ensures forall p :: p in ConflictPaths(base, ours, theirs) <==> Collides(DiffOf(base, theirs), ours, p)
    ensures ConflictPaths(base, ours, theirs) == {} ==>
              MergeTrees(base, ours, theirs) == Apply(DiffOf(base, theirs), ours)
  {
    var d := DiffOf(base, theirs);
    forall p
      ensures p in ConflictPaths(base, ours, theirs) <==> Collides(d, ours, p)
    {
      assert MergeAt(base, ours, theirs, p).Clash? ==> p in base.Keys + ours.Keys + theirs.Keys;
    }
    if ConflictPaths(base, ours, theirs) == {} {
      var m := MergeTrees(base, ours, theirs);
      forall p
        ensures Get(m, p) == Get(Apply(d, ours), p)
      {
        assert !Collides(d, ours, p);
      }
      TreeExt(m, Apply(d, ours));
    }
  }

  /** A pick that does not collide leaves a sub-diff: the recorded changes the tree did not already hold. */
  lemma PickShrinks(d: Diff, t: Tree)
    requires forall p :: !Collides(d, t, p)
    ensures forall p | p in DiffOf(t, Apply(d, t)) :: p in d && DiffOf(t, Apply(d, t))[p] == d[p]
    ensures Matches(d, t) && Effective(d) ==> DiffOf(t, Apply(d, t)) == d
  {
    forall p | p in DiffOf(t, Apply(d, t))
      ensures p in d && DiffOf(t, Apply(d, t))[p] == d[p]
    {
      assert !Collides(d, t, p);
    }
    if Matches(d, t) && Effective(d) {
      DiffOfApply(d, t);
    }
  }
}
