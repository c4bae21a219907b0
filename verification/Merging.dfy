/** Merging a dependent patch into the item it depends on keeps the tip, the other items and the invariant. */
module Merging {
  import opened GitModel
  import opened ReviewSpec
  import opened Queue
  import opened Replay
  import opened Clean
  import opened Dependency

  /** The paths each item of the rebuild will touch; `dep` counts down to the item that absorbs `e`. */
  function Plan(rest: seq<Item>, dep: int, e: Diff): (fs: seq<set<Path>>)
    ensures |fs| == |rest|
    ensures forall i | 0 <= i < |rest| ::
              fs[i] == if i == dep then rest[i].diff.Keys + e.Keys else rest[i].diff.Keys
  {
    seq(|rest|, i requires 0 <= i < |rest| =>
      if i == dep then rest[i].diff.Keys + e.Keys else rest[i].diff.Keys)
  }

  predicate Usable(item: Item, t: Tree) {
    Effective(item.diff) && Applies(item.diff, t) && item.diff.Keys <= item.paths
  }

  predicate AllUsable(rest: seq<Item>, t: Tree) {
    forall i | 0 <= i < |rest| :: Usable(rest[i], t)
  }

  /** The absorbed patch fits on top of the item that absorbs it. */
  predicate Absorbable(rest: seq<Item>, dep: int, newest: Item, t: Tree) {
    0 <= dep < |rest| ==> Usable(newest, Apply(rest[dep].diff, t))
  }

  /** The absorbed patch does not cancel the item that absorbs it. */
  predicate LeavesWork(rest: seq<Item>, dep: int, newest: Item) {
    0 <= dep < |rest| ==> !Cancels(rest[dep].diff, newest.diff)
  }

  predicate Buildable(s: State, rest: seq<Item>, dep: int, newest: Item) {
    && Sound(s, Plan(rest, dep, newest.diff)) && Tidy(s)
    && AllUsable(rest, s.work)
    && Absorbable(rest, dep, newest, s.work)
  }

  function Absorb(item: Item, newest: Item): Item {
    item.(purposes := item.purposes + newest.purposes, paths := item.paths + newest.paths,
          diff := Compose(item.diff, newest.diff))
  }

  /** The tree one turn of the rebuild leaves. */
  function TurnTree(t: Tree, d: Diff, dep: int, e: Diff): Tree {
    if dep == 0 then Apply(e, Apply(d, t)) else Apply(d, t)
  }

  lemma PlanTail(rest: seq<Item>, dep: int, e: Diff)
    requires rest != []
    ensures Plan(rest, dep, e)
         == [if dep == 0 then rest[0].diff.Keys + e.Keys else rest[0].diff.Keys] + Plan(rest[1..], dep - 1, e)
  {
  }

  /** Plans are disjoint, so a turn disturbs nothing later turns need. */
  lemma TurnElsewhere(rest: seq<Item>, dep: int, newest: Item, t: Tree)
    requires rest != [] && AllUsable(rest, t) && Absorbable(rest, dep, newest, t)
    requires forall i, j | 0 <= i < j < |rest| :: Plan(rest, dep, newest.diff)[i] !! Plan(rest, dep, newest.diff)[j]
    ensures AllUsable(rest[1..], TurnTree(t, rest[0].diff, dep, newest.diff))
    ensures Absorbable(rest[1..], dep - 1, newest, TurnTree(t, rest[0].diff, dep, newest.diff))
  {
    var plan, e, d := Plan(rest, dep, newest.diff), newest.diff, rest[0].diff;
    var t' := TurnTree(t, d, dep, e);
    forall i | 0 <= i < |rest| - 1
      ensures Usable(rest[1..][i], t')
    {
      var item := rest[i + 1];
      assert Usable(item, t);
      assert plan[0] !! plan[i + 1];
      MatchesElsewhere(item.diff, d, t);
      if dep == 0 {
        MatchesElsewhere(item.diff, e, Apply(d, t));
      }
    }
    if 0 < dep < |rest| {
      var item := rest[dep].diff;
      assert plan[0] !! plan[dep];
      ApplyCommutes(item, d, t);
      MatchesElsewhere(e, d, Apply(item, t));
    }
  }

  lemma SoundPlan(s: State, plan: seq<set<Path>>)
    requires Sound(s, plan)
    ensures forall i, j | 0 <= i < j < |plan| :: plan[i] !! plan[j]
    ensures s.head < |s.repo|
  {
    hide StraysApart, Covers;
  }

  lemma PushedTidy(s: State, t: Tree, item: Item, was: Id)
    ensures Tidy(PushHead(CommitTree(s, t), item))
    ensures Tidy(PushHead(Alias(MadeFrom(CommitTree(s, t), was), was, |s.repo|), item))
  {
  }

  /** One item is recommitted unchanged under a new, aliased name. */
  lemma PlainTurn(s: State, item: Item, newest: Item, pending: seq<set<Path>>)
    requires Sound(s, [item.diff.Keys] + pending) && Tidy(s) && Usable(item, s.work)
    ensures var o := RebuildStep(s, item, false, newest);
            && o.Done? && Sound(o.state, pending) && Tidy(o.state) && Extends(s.repo, o.state.repo)
            && SameOutside(s, o.state)
            && o.state.commits == s.commits + [item.(id := |s.repo|)]
            && o.state.work == Apply(item.diff, s.work)
            && o.state.aliases == s.aliases[item.id := |s.repo|]
  {
    hide Struct, StraysApart, Covers;
    var t := Apply(item.diff, s.work);
    DiffOfApply(item.diff, s.work);
    EmptyDiff(s.work, t);
    SoundPlan(s, [item.diff.Keys] + pending);
    FitsAlone(s, t);
    PushedTidy(s, t, item, item.id);
    HeadSound(s, t, t, item.id, item, item.diff.Keys, pending);
    hide Sound, Extends, SameOutside, Show, Apply, DiffOf, Applies;
    assert RebuildStep(s, item, false, newest)
        == Done(PushHead(Alias(MadeFrom(CommitTree(s, t), item.id), item.id, |s.repo|), item));
  }

  /** The absorbing item is recommitted with the net change of both patches. */
  lemma AbsorbTurn(s: State, item: Item, newest: Item, pending: seq<set<Path>>)
    requires Sound(s, [item.diff.Keys + newest.diff.Keys] + pending) && Tidy(s)
    requires Usable(item, s.work) && Usable(newest, Apply(item.diff, s.work))
    requires !Cancels(item.diff, newest.diff)
    ensures var o := RebuildStep(s, item, true, newest);
            && o.Done? && Sound(o.state, pending) && Tidy(o.state) && Extends(s.repo, o.state.repo)
            && SameOutside(s, o.state)
            && o.state.commits == s.commits + [Absorb(item, newest).(id := |s.repo|)]
            && o.state.work == Apply(newest.diff, Apply(item.diff, s.work))
            && o.state.aliases == s.aliases
  {
    hide Struct, StraysApart, Covers;
    var t := Apply(newest.diff, Apply(item.diff, s.work));
    ComposeIsNet(item.diff, newest.diff, s.work);
    EmptyDiff(s.work, t);
    SoundPlan(s, [item.diff.Keys + newest.diff.Keys] + pending);
    FitsAlone(s, t);
    PushedTidy(s, t, FoldItem(item, newest), item.id);
    HeadSound(s, t, t, item.id, FoldItem(item, newest), item.diff.Keys + newest.diff.Keys, pending);
    hide Sound, Extends, SameOutside, Show, Apply, DiffOf, Applies;
    assert RebuildStep(s, item, true, newest) == Done(PushHead(CommitTree(s, t), FoldItem(item, newest)));
  }

  lemma BuildTurn(s: State, rest: seq<Item>, dep: int, newest: Item)
    requires Buildable(s, rest, dep, newest) && rest != []
    requires dep == 0 ==> !Cancels(rest[0].diff, newest.diff)
    ensures var o := RebuildStep(s, rest[0], dep == 0, newest);
            && o.Done? && Buildable(o.state, rest[1..], dep - 1, newest)
            && Extends(s.repo, o.state.repo) && SameOutside(s, o.state)
            && o.state.commits == s.commits + [(if dep == 0 then Absorb(rest[0], newest) else rest[0]).(id := |s.repo|)]
            && o.state.work == TurnTree(s.work, rest[0].diff, dep, newest.diff)
  {
    PlanTail(rest, dep, newest.diff);
    assert Usable(rest[0], s.work);
    hide Sound, RebuildStep, Extends, SameOutside, Usable, AllUsable, Plan, Absorb, Apply, Cancels;
    SoundPlan(s, Plan(rest, dep, newest.diff));
    TurnElsewhere(rest, dep, newest, s.work);
    hide Absorbable;
    if dep == 0 {
      AbsorbableNow(rest, newest, s.work);
      AbsorbTurn(s, rest[0], newest, Plan(rest[1..], dep - 1, newest.diff));
    } else {
      PlainTurn(s, rest[0], newest, Plan(rest[1..], dep - 1, newest.diff));
    }
  }

  lemma AbsorbableNow(rest: seq<Item>, newest: Item, t: Tree)
    requires rest != [] && Absorbable(rest, 0, newest, t)
    ensures Usable(newest, Apply(rest[0].diff, t))
  {
  }

  function Rebuilt(rest: seq<Item>, dep: int, newest: Item): seq<Item> {
    if 0 <= dep < |rest| then rest[dep := Absorb(rest[dep], newest)] else rest
  }

  /** The tree the whole rebuild leaves. */
  function BuildTree(t: Tree, rest: seq<Item>, dep: int, e: Diff): Tree
    decreases |rest|
  {
    if rest == [] then t else BuildTree(TurnTree(t, rest[0].diff, dep, e), rest[1..], dep - 1, e)
  }

  lemma RebuiltTail(rest: seq<Item>, dep: int, newest: Item)
    requires rest != []
    ensures Rebuilt(rest, dep, newest)
         == [if dep == 0 then Absorb(rest[0], newest) else rest[0]] + Rebuilt(rest[1..], dep - 1, newest)
  {
  }

  /** The rebuild never meets a failing apply or an empty commit. */
  lemma {:induction false} RebuildSound(s: State, rest: seq<Item>, dep: int, newest: Item)
    requires Buildable(s, rest, dep, newest) && LeavesWork(rest, dep, newest)
    ensures var o := Rebuild(s, rest, dep, newest);
            && o.Done? && Sound(o.state, []) && Tidy(o.state) && Extends(s.repo, o.state.repo)
            && SameOutside(s, o.state)
            && SameWork(o.state.commits, s.commits + Rebuilt(rest, dep, newest))
            && o.state.work == BuildTree(s.work, rest, dep, newest.diff)
    decreases |rest|
  {
    if rest == [] {
      assert s.commits + Rebuilt(rest, dep, newest) == s.commits;
      SameWorkRefl(s.commits);
      assert Plan(rest, dep, newest.diff) == [];
      ExtendsSelf(s.repo);
    } else {
      RebuildMore(s, rest, dep, newest);
    }
  }

  lemma ExtendsSelf(a: seq<Commit>)
    ensures Extends(a, a)
  {
  }

  lemma {:induction false} RebuildMore(s: State, rest: seq<Item>, dep: int, newest: Item)
    requires Buildable(s, rest, dep, newest) && LeavesWork(rest, dep, newest) && rest != []
    ensures var o := Rebuild(s, rest, dep, newest);
            && o.Done? && Sound(o.state, []) && Tidy(o.state) && Extends(s.repo, o.state.repo)
            && SameOutside(s, o.state)
            && SameWork(o.state.commits, s.commits + Rebuilt(rest, dep, newest))
            && o.state.work == BuildTree(s.work, rest, dep, newest.diff)
    decreases |rest|, 0
  {
    hide Buildable, RebuildStep, SameWork, Sound, Extends, Absorb, TurnTree, Rebuilt;
    BuildTurn(s, rest, dep, newest);
    var r := RebuildStep(s, rest[0], dep == 0, newest).state;
    RebuildSound(r, rest[1..], dep - 1, newest);
    var final := Rebuild(r, rest[1..], dep - 1, newest).state;
    ExtendsTransitive(s.repo, r.repo, final.repo);
    RebuiltTail(rest, dep, newest);
    var item := if dep == 0 then Absorb(rest[0], newest) else rest[0];
    var later := Rebuilt(rest[1..], dep - 1, newest);
    assert r.commits + later == s.commits + [item.(id := |s.repo|)] + later;
    assert s.commits + Rebuilt(rest, dep, newest) == s.commits + [item] + later;
    SameWorkSwap(final.commits, s.commits, item.(id := |s.repo|), item, later);
  }

  /** A cancelled item would be an empty commit: the rebuild stops there, after renaming the earlier items. */
  lemma {:induction false} RebuildStops(s: State, rest: seq<Item>, dep: nat, newest: Item)
    requires Buildable(s, rest, dep, newest) && dep < |rest| && Cancels(rest[dep].diff, newest.diff)
    ensures var o := Rebuild(s, rest, dep, newest);
            && o.Failed? && Extends(s.repo, o.state.repo) && SameOutside(s, o.state) && Tidy(o.state)
    decreases |rest|
  {
    hide Buildable, Sound, Extends, Absorb, TurnTree, Tidy;
    if dep == 0 {
      CancelledTurn(s, rest, newest);
      ExtendsSelf(s.repo);
      BuildableTidy(s, rest, dep, newest);
      SameFiles(s, RebuildStep(s, rest[0], true, newest).state);
    } else {
      BuildTurn(s, rest, dep, newest);
      var r := RebuildStep(s, rest[0], false, newest).state;
      hide RebuildStep;
      RebuildStops(r, rest[1..], dep - 1, newest);
      ExtendsTransitive(s.repo, r.repo, Rebuild(r, rest[1..], dep - 1, newest).state.repo);
    }
  }

  lemma BuildableTidy(s: State, rest: seq<Item>, dep: nat, newest: Item)
    requires Buildable(s, rest, dep, newest)
    ensures Tidy(s)
  {
  }

  lemma CancelledTurn(s: State, rest: seq<Item>, newest: Item)
    requires Buildable(s, rest, 0, newest) && rest != [] && Cancels(rest[0].diff, newest.diff)
    ensures RebuildStep(s, rest[0], true, newest).Failed?
    ensures var r := RebuildStep(s, rest[0], true, newest).state;
            r.repo == s.repo && r.head == s.head && r.work == s.work && SameOutside(s, r)
  {
    hide Sound, DiffOf, Show, Stored;
    assert Usable(rest[0], s.work);
    SoundPlan(s, Plan(rest, 0, newest.diff));
    var t := Apply(newest.diff, Apply(rest[0].diff, s.work));
    ComposeIsNet(rest[0].diff, newest.diff, s.work);
    EmptyDiff(s.work, t);
  }

  // The rebuilt tip is the old tip.

  lemma {:induction false} ApplySeqFirst(t: Tree, d: Diff, ds: seq<Diff>)
    ensures ApplySeq(t, [d] + ds) == ApplySeq(Apply(d, t), ds)
  {
    var all := [d] + ds;
    if ds == [] {
      assert all[..|all| - 1] == [];
      assert ApplySeq(t, all) == Apply(d, ApplySeq(t, []));
    } else {
      ApplySeqFirst(t, d, ds[..|ds| - 1]);
      assert all[..|all| - 1] == [d] + ds[..|ds| - 1];
    }
  }

  lemma {:induction false} ApplySeqPast(t: Tree, e: Diff, ds: seq<Diff>)
    requires forall i | 0 <= i < |ds| :: e.Keys !! ds[i].Keys
    ensures ApplySeq(Apply(e, t), ds) == Apply(e, ApplySeq(t, ds))
  {
    if ds != [] {
      var init := ds[..|ds| - 1];
      assert forall i | 0 <= i < |init| :: init[i] == ds[i];
      ApplySeqPast(t, e, init);
      ApplyCommutes(ds[|ds| - 1], e, ApplySeq(t, init));
    }
  }

  lemma NoDiffs(t: Tree, items: seq<Item>)
    requires items == []
    ensures ApplySeq(t, Diffs(items)) == t
  {
  }

  lemma {:induction false} BuildTreeIsTip(t: Tree, rest: seq<Item>, dep: int, e: Diff)
    requires forall i | 0 <= i < |rest| && i != dep :: e.Keys !! rest[i].diff.Keys
    ensures BuildTree(t, rest, dep, e)
         == if 0 <= dep < |rest| then Apply(e, ApplySeq(t, Diffs(rest))) else ApplySeq(t, Diffs(rest))
    decreases |rest|
  {
    hide Apply, ApplySeq, Diffs;
    if rest == [] {
      NoDiffs(t, rest);
    } else {
      var d, later := rest[0].diff, rest[1..];
      assert Diffs(rest) == [d] + Diffs(later);
      ApplySeqFirst(t, d, Diffs(later));
      BuildTreeIsTip(TurnTree(t, d, dep, e), later, dep - 1, e);
      if dep == 0 {
        ApplySeqPast(Apply(d, t), e, Diffs(later));
      }
    }
  }
}
