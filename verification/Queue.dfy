/**
 The review queue between commands: the commits form a chain from the baseline, every queued diff
 is the difference along that chain, and the diffs touch pairwise disjoint paths.
 */
module Queue {
  import opened Wrappers
  import opened GitModel
  import opened ReviewSpec

  /** The store only ever grows. */
  predicate Extends(a: seq<Commit>, b: seq<Commit>) {
    |a| <= |b| && forall i | 0 <= i < |a| :: a[i] == b[i]
  }

  /** The store holds the commit, and the item's diff is what the commit changes. */
  predicate Stored(repo: seq<Commit>, item: Item) {
    && item.id < |repo| && repo[item.id].up.Some? && repo[item.id].up.value < |repo|
    && item.diff == DiffOf(UpTree(repo, item.id), TreeAt(repo, item.id))
    && item.diff != map[]
    && item.diff.Keys <= item.paths
  }

  predicate AllStored(repo: seq<Commit>, items: seq<Item>) {
    forall i | 0 <= i < |items| :: Stored(repo, items[i])
  }

  function Before(base: Id, items: seq<Item>, k: nat): Id
    requires k <= |items|
  {
    if k == 0 then base else items[k - 1].id
  }

  predicate FollowsAt(repo: seq<Commit>, base: Id, items: seq<Item>, i: nat)
    requires i < |items|
  {
    items[i].id < |repo| && repo[items[i].id].up == Some(Before(base, items, i))
  }

  predicate Linked(repo: seq<Commit>, base: Id, items: seq<Item>) {
    && base < |repo|
    && AllStored(repo, items)
    && forall i | 0 <= i < |items| :: FollowsAt(repo, base, items, i)
  }

  /** Queued diffs, and the path sets set aside for items still to be queued, are pairwise disjoint. */
  predicate Apart(items: seq<Item>, pending: seq<set<Path>>) {
    && (forall i, j | 0 <= i < j < |items| :: items[i].diff.Keys !! items[j].diff.Keys)
    && (forall i, j | 0 <= i < |items| && 0 <= j < |pending| :: items[i].diff.Keys !! pending[j])
    && (forall i, j | 0 <= i < j < |pending| :: pending[i] !! pending[j])
  }

  predicate Struct(repo: seq<Commit>, base: Id, items: seq<Item>, pending: seq<set<Path>>) {
    Linked(repo, base, items) && Apart(items, pending)
  }

  /** The worktree has the files of HEAD, and perhaps others. */
  predicate Covers(s: State) {
    forall p | p in TreeOf(s, s.head) :: Get(s.work, p) == Get(TreeOf(s, s.head), p)
  }

  /** The worktree is HEAD's tree. */
  predicate Tidy(s: State) {
    s.work == TreeOf(s, s.head)
  }

  predicate AtTip(s: State) {
    s.head == Tip(s) && Covers(s)
  }

  /** No stray file is on a path of these diffs. */
  predicate StraysFree(s: State, items: seq<Item>) {
    forall p, i | p in Strays(s) && 0 <= i < |items| :: p !in items[i].diff
  }

  /** Stray files are on no path of a queued diff, and on none that is set aside. */
  predicate StraysApart(s: State, pending: seq<set<Path>>) {
    && StraysFree(s, s.commits)
    && (forall p, j | p in Strays(s) && 0 <= j < |pending| :: p !in pending[j])
  }

  /** The queue invariant, with path sets set aside. */
  predicate Sound(s: State, pending: seq<set<Path>>) {
    Struct(s.repo, s.baseline, s.commits, pending) && AtTip(s) && StraysApart(s, pending) && s.observed < |s.repo|
  }

  /** Of a state only store, HEAD and worktree matter to what is in the worktree. */
  lemma SameFiles(a: State, b: State)
    requires b.repo == a.repo && b.head == a.head && b.work == a.work
    ensures Strays(b) == Strays(a) && (Covers(b) <==> Covers(a)) && (Tidy(b) <==> Tidy(a))
    ensures TreeOf(b, b.head) == TreeOf(a, a.head)
  {
  }

  lemma SameApart(a: State, b: State, pending: seq<set<Path>>)
    requires b.repo == a.repo && b.head == a.head && b.work == a.work && b.commits == a.commits
    requires StraysApart(a, pending)
    ensures StraysApart(b, pending)
  {
    hide Strays;
    SameFiles(a, b);
  }

  lemma SoundSame(a: State, b: State, pending: seq<set<Path>>)
    requires Sound(a, pending) && b.repo == a.repo && b.head == a.head && b.work == a.work
    requires b.baseline == a.baseline && b.commits == a.commits && b.observed < |b.repo|
    ensures Sound(b, pending)
  {
    hide Struct, Covers, Strays, StraysApart;
    SameFiles(a, b);
    SameApart(a, b, pending);
  }

  /** Of the stray files only those go that are among the paths given, and none comes. */
  predicate Lingering(s: State, r: State, over: set<Path>) {
    && Strays(r).Keys <= Strays(s).Keys
    && (s.head < |s.repo| ==> r.head < |r.repo| && Strays(s).Keys - over <= Strays(r).Keys)
  }

  lemma LingeringTwice(a: State, b: State, c: State, over: set<Path>, more: set<Path>)
    requires Lingering(a, b, over) && Lingering(b, c, more)
    ensures Lingering(a, c, over + more)
  {
    hide Strays;
  }

  lemma LingeringHere(s: State, r: State, over: set<Path>)
    requires Extends(s.repo, r.repo) && r.head == s.head && r.work == s.work
    ensures Lingering(s, r, over)
  {
    assert s.head < |s.repo| ==> TreeOf(r, r.head) == TreeOf(s, s.head);
    if |s.repo| <= s.head {
      assert TreeOf(s, s.head) == map[];
    }
  }

  lemma FreeLater(s: State, r: State, items: seq<Item>)
    requires StraysFree(s, items) && Strays(r).Keys <= Strays(s).Keys
    ensures StraysFree(r, items)
  {
    hide Strays;
    forall p, i | p in Strays(r) && 0 <= i < |items|
      ensures p !in items[i].diff
    {
      assert p in Strays(s).Keys;
    }
  }

  lemma TidyCovers(s: State)
    ensures Tidy(s) <==> Covers(s) && Strays(s) == map[]
  {
    if Covers(s) && Strays(s) == map[] {
      forall p
        ensures Get(s.work, p) == Get(TreeOf(s, s.head), p)
      {
        assert p in s.work && p !in TreeOf(s, s.head) ==> p in Strays(s);
      }
      TreeExt(s.work, TreeOf(s, s.head));
    }
  }

  lemma TidyApart(s: State, pending: seq<set<Path>>)
    requires Tidy(s)
    ensures Covers(s) && Strays(s) == map[] && StraysApart(s, pending)
  {
    TidyCovers(s);
  }

  lemma ResetTidy(s: State, id: Id)
    requires Tidy(s)
    ensures ResetHard(s, id) == s.(head := id, work := TreeOf(s, id)) && Tidy(ResetHard(s, id))
  {
    TidyCovers(s);
    assert map[] + TreeOf(s, id) == TreeOf(s, id);
  }

  /** No stray file is on the path of a diff. */
  predicate FreeOf(s: State, d: Diff) {
    forall p | p in Strays(s) :: p !in d
  }

  function Diffs(items: seq<Item>): (ds: seq<Diff>)
    ensures |ds| == |items| && forall i | 0 <= i < |items| :: ds[i] == items[i].diff
  {
    seq(|items|, i requires 0 <= i < |items| => items[i].diff)
  }

  function Footprints(items: seq<Item>): (fs: seq<set<Path>>)
    ensures |fs| == |items| && forall i | 0 <= i < |items| :: fs[i] == items[i].diff.Keys
  {
    seq(|items|, i requires 0 <= i < |items| => items[i].diff.Keys)
  }

  // Basic facts.

  lemma FootprintsCons(rest: seq<Item>)
    requires rest != []
    ensures Footprints(rest) == [rest[0].diff.Keys] + Footprints(rest[1..])
  {
  }

  lemma StoredLater(a: seq<Commit>, b: seq<Commit>, item: Item)
    requires Extends(a, b) && Stored(a, item)
    ensures Stored(b, item)
    ensures UpTree(b, item.id) == UpTree(a, item.id) && TreeAt(b, item.id) == TreeAt(a, item.id)
  {
  }

  lemma StoredFresh(repo: seq<Commit>, tip: Id, t: Tree, item: Item)
    requires tip < |repo| && item.id == |repo| && item.diff == DiffOf(TreeAt(repo, tip), t)
    requires item.diff != map[] && item.diff.Keys <= item.paths
    ensures Stored(repo + [Commit(Some(tip), t)], item)
    ensures Extends(repo, repo + [Commit(Some(tip), t)])
  {
  }

  lemma TipExists(repo: seq<Commit>, base: Id, items: seq<Item>, k: nat)
    requires Linked(repo, base, items) && k <= |items|
    ensures Before(base, items, k) < |repo|
  {
  }

  lemma LinkedLater(a: seq<Commit>, b: seq<Commit>, base: Id, items: seq<Item>)
    requires Extends(a, b) && Linked(a, base, items)
    ensures Linked(b, base, items)
    ensures forall i | 0 <= i <= |items| :: TreeAt(b, Before(base, items, i)) == TreeAt(a, Before(base, items, i))
  {
    forall i | 0 <= i < |items|
      ensures Stored(b, items[i]) && FollowsAt(b, base, items, i)
    {
      assert Stored(a, items[i]) && FollowsAt(a, base, items, i);
      StoredLater(a, b, items[i]);
    }
    forall i | 0 <= i <= |items|
      ensures TreeAt(b, Before(base, items, i)) == TreeAt(a, Before(base, items, i))
    {
      TipExists(a, base, items, i);
    }
  }

  lemma LinkedSnoc(repo: seq<Commit>, base: Id, items: seq<Item>, item: Item)
    requires Linked(repo, base, items)
    requires Stored(repo, item) && repo[item.id].up == Some(Before(base, items, |items|))
    ensures Linked(repo, base, items + [item])
  {
    hide TreeAt, UpTree, DiffOf;
    var items' := items + [item];
    forall i | 0 <= i < |items'|
      ensures Stored(repo, items'[i]) && FollowsAt(repo, base, items', i)
    {
      assert Before(base, items', i) == Before(base, items, i);
      assert i < |items| ==> Stored(repo, items[i]) && FollowsAt(repo, base, items, i);
    }
  }

  lemma PushLinked(repo: seq<Commit>, base: Id, items: seq<Item>, t: Tree, item: Item)
    requires Linked(repo, base, items)
    requires item.id == |repo| && item.diff == DiffOf(TreeAt(repo, Before(base, items, |items|)), t)
    requires item.diff != map[] && item.diff.Keys <= item.paths
    ensures Linked(repo + [Commit(Some(Before(base, items, |items|)), t)], base, items + [item])
  {
    var tip := Before(base, items, |items|);
    TipExists(repo, base, items, |items|);
    StoredFresh(repo, tip, t, item);
    LinkedLater(repo, repo + [Commit(Some(tip), t)], base, items);
    LinkedSnoc(repo + [Commit(Some(tip), t)], base, items, item);
  }

  lemma PushApart(items: seq<Item>, f: set<Path>, pending: seq<set<Path>>, item: Item)
    requires Apart(items, [f] + pending) && item.diff.Keys <= f
    ensures Apart(items + [item], pending)
  {
    var all := [f] + pending;
    assert all[0] == f && forall j | 0 <= j < |pending| :: all[j + 1] == pending[j];
    var items' := items + [item];
    forall i, j | 0 <= i < j < |items'|
      ensures items'[i].diff.Keys !! items'[j].diff.Keys
    {
      if j == |items| {
        assert items[i].diff.Keys !! all[0];
      }
    }
    forall i, j | 0 <= i < |items'| && 0 <= j < |pending|
      ensures items'[i].diff.Keys !! pending[j]
    {
      assert all[0] !! all[j + 1];
      assert i < |items| ==> items[i].diff.Keys !! all[j + 1];
    }
    forall i, j | 0 <= i < j < |pending|
      ensures pending[i] !! pending[j]
    {
      assert all[i + 1] !! all[j + 1];
    }
  }

  /** Committing a change of `f` on the tip queues an item; nothing else is disturbed. */
  lemma PushKeeps(repo: seq<Commit>, base: Id, items: seq<Item>, f: set<Path>, pending: seq<set<Path>>,
                  t: Tree, item: Item)
    requires Struct(repo, base, items, [f] + pending)
    requires item.id == |repo| && item.diff == DiffOf(TreeAt(repo, Before(base, items, |items|)), t)
    requires item.diff != map[] && item.diff.Keys <= f && item.diff.Keys <= item.paths
    ensures Struct(repo + [Commit(Some(Before(base, items, |items|)), t)], base, items + [item], pending)
  {
    PushLinked(repo, base, items, t, item);
    PushApart(items, f, pending, item);
  }

  lemma DropFirst(repo: seq<Commit>, base: Id, items: seq<Item>, f: set<Path>, pending: seq<set<Path>>)
    requires Struct(repo, base, items, [f] + pending)
    ensures Struct(repo, base, items, pending)
  {
    assert forall j | 0 <= j < |pending| :: ([f] + pending)[j + 1] == pending[j];
  }

  /** Along the chain each commit's tree is the baseline patched with the diffs so far. */
  lemma {:induction false} ChainTree(repo: seq<Commit>, base: Id, items: seq<Item>, k: nat)
    requires Linked(repo, base, items) && k <= |items|
    ensures Before(base, items, k) < |repo|
    ensures TreeAt(repo, Before(base, items, k)) == ApplySeq(TreeAt(repo, base), Diffs(items)[..k])
  {
    if k > 0 {
      ChainTree(repo, base, items, k - 1);
      var item := items[k - 1];
      assert Stored(repo, item) && FollowsAt(repo, base, items, k - 1);
      DiffApplies(UpTree(repo, item.id), TreeAt(repo, item.id));
      var ds := Diffs(items);
      assert ds[..k][..k - 1] == ds[..k - 1];
    }
  }

  lemma DiffsDisjoint(items: seq<Item>, pending: seq<set<Path>>)
    requires Apart(items, pending)
    ensures Disjoint(Diffs(items))
  {
  }

  /** Where no queued diff reaches, the tip holds the baseline's content. */
  lemma TipElsewhere(repo: seq<Commit>, base: Id, items: seq<Item>, k: nat, p: Path)
    requires Linked(repo, base, items) && k <= |items|
    requires forall i | 0 <= i < k :: p !in items[i].diff
    ensures Get(TreeAt(repo, Before(base, items, k)), p) == Get(TreeAt(repo, base), p)
  {
    ChainTree(repo, base, items, k);
    ApplySeqMiss(TreeAt(repo, base), Diffs(items)[..k], p);
  }

  /** Every queued diff applies to the baseline alone. */
  lemma AppliesAlone(repo: seq<Commit>, base: Id, items: seq<Item>, pending: seq<set<Path>>, k: nat)
    requires Struct(repo, base, items, pending) && k < |items|
    ensures Effective(items[k].diff) && Applies(items[k].diff, TreeAt(repo, base))
  {
    var item := items[k];
    assert Stored(repo, item) && FollowsAt(repo, base, items, k);
    DiffApplies(UpTree(repo, item.id), TreeAt(repo, item.id));
    forall p | p in item.diff
      ensures Get(TreeAt(repo, base), p) == item.diff[p].before
    {
      forall i | 0 <= i < k
        ensures p !in items[i].diff
      {
        assert items[i].diff.Keys !! item.diff.Keys;
        assert p in item.diff.Keys;
      }
      TipElsewhere(repo, base, items, k, p);
    }
  }

  // Cherry-picking a stored item is patching the tip with its diff.

  ghost predicate CollidesSomewhere(d: Diff, t: Tree) {
    exists p :: Collides(d, t, p)
  }

  /** A stray file is where the patch puts one. */
  predicate Blocked(s: State, d: Diff) {
    exists p :: p in Strays(s) && p in d && d[p].after.Some?
  }

  lemma BlockedIsObstructed(s: State, item: Item)
    requires Stored(s.repo, item)
    ensures Obstructed(Strays(s), UpTree(s.repo, item.id), TreeOf(s, item.id)) <==> Blocked(s, item.diff)
    ensures FreeOf(s, item.diff) ==> !Blocked(s, item.diff)
  {
    hide Strays;
    var base, theirs := UpTree(s.repo, item.id), TreeOf(s, item.id);
    forall p | p in Strays(s)
      ensures p in theirs && Get(base, p) != Get(theirs, p) <==> p in item.diff && item.diff[p].after.Some?
    {
    }
  }

  lemma PickByDiff(s: State, item: Item)
    requires Stored(s.repo, item)
    ensures var t := TreeOf(s, s.head);
            var pick := CherryPick(s, item.id);
            && (pick.Picked? <==> !Blocked(s, item.diff) && !CollidesSomewhere(item.diff, t) && Apply(item.diff, t) != t)
            && (pick.Picked? ==> pick.state == MadeFrom(CommitOver(s, Apply(item.diff, t)), item.id))
            && (pick.Stopped? && Blocked(s, item.diff) ==> pick.conflicts == {})
            && (pick.Stopped? && !Blocked(s, item.diff) ==> forall p ::
                p in pick.conflicts <==> Collides(item.diff, t, p))
    ensures FreeOf(s, item.diff) ==> !Blocked(s, item.diff)
  {
    hide Strays, Obstructed, Blocked, FreeOf;
    var t := TreeOf(s, s.head);
    BlockedIsObstructed(s, item);
    MergeIsPatch(UpTree(s.repo, item.id), t, TreeOf(s, item.id));
    var conflicts := ConflictPaths(UpTree(s.repo, item.id), t, TreeOf(s, item.id));
    if p :| p in conflicts {
      assert Collides(item.diff, t, p);
    }
  }

  /** A pick on a tree that has every preimage succeeds and keeps the diff. */
  lemma PickMatching(s: State, item: Item)
    requires Stored(s.repo, item) && FreeOf(s, item.diff) && Matches(item.diff, TreeOf(s, s.head))
    ensures CherryPick(s, item.id) == Picked(MadeFrom(CommitOver(s, Apply(item.diff, TreeOf(s, s.head))), item.id))
    ensures DiffOf(TreeOf(s, s.head), Apply(item.diff, TreeOf(s, s.head))) == item.diff
  {
    PickByDiff(s, item);
    DiffApplies(UpTree(s.repo, item.id), TreeAt(s.repo, item.id));
    PickShrinks(item.diff, TreeOf(s, s.head));
    EmptyDiff(TreeOf(s, s.head), Apply(item.diff, TreeOf(s, s.head)));
  }
}
