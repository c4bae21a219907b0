/** Replay where every preimage is present: no item is lost and none changes. */
module Clean {
  import opened GitModel
  import opened ReviewSpec
  import opened Queue
  import opened Replay

  /** The same work under other commit names. */
  predicate SameItem(a: Item, b: Item) {
    a.purposes == b.purposes && a.diff == b.diff && a.paths == b.paths
  }

  predicate SameWork(a: seq<Item>, b: seq<Item>) {
    |a| == |b| && forall i | 0 <= i < |a| :: SameItem(a[i], b[i])
  }

  predicate AllMatch(items: seq<Item>, t: Tree) {
    forall i | 0 <= i < |items| :: Matches(items[i].diff, t)
  }

  lemma CleanStep(s: State, item: Item)
    requires s.head < |s.repo| && Stored(s.repo, item) && FreeOf(s, item.diff) && Matches(item.diff, TreeOf(s, s.head))
    ensures CherryPick(s, item.id) == Picked(MadeFrom(CommitOver(s, Apply(item.diff, TreeOf(s, s.head))), item.id))
    ensures var r := ReplayStep(s, item);
            && r.commits == s.commits + [item.(id := |s.repo|)]
            && r.head == |s.repo| && |r.repo| == |s.repo| + 1
            && TreeOf(r, r.head) == Apply(item.diff, TreeOf(s, s.head))
            && r.history.lost == s.history.lost
            && r.history.origins == s.history.origins[|s.repo| := item.id]
  {
    hide Strays, FreeOf, Stored, DiffOf;
    PickMatching(s, item);
    ShowFresh(s, Apply(item.diff, TreeOf(s, s.head)));
  }

  /** Patching elsewhere keeps every pending preimage in place. */
  lemma StillMatch(items: seq<Item>, item: Item, t: Tree)
    requires AllMatch(items, t)
    requires forall i | 0 <= i < |items| :: item.diff.Keys !! items[i].diff.Keys
    ensures AllMatch(items, Apply(item.diff, t))
  {
  }

  /** The queue is sound, and the items set aside are stored and have their preimages at HEAD. */
  predicate Ready(s: State, rest: seq<Item>) {
    Sound(s, Footprints(rest)) && AllStored(s.repo, rest) && AllMatch(rest, TreeOf(s, s.head))
  }

  lemma FirstOf(repo: seq<Commit>, rest: seq<Item>, t: Tree)
    requires rest != [] && AllStored(repo, rest) && AllMatch(rest, t)
    ensures Stored(repo, rest[0]) && Matches(rest[0].diff, t) && AllStored(repo, rest[1..])
  {
  }

  lemma ReadyFirst(s: State, rest: seq<Item>)
    requires Ready(s, rest) && rest != []
    ensures Sound(s, [rest[0].diff.Keys] + Footprints(rest[1..])) && s.head < |s.repo|
    ensures Stored(s.repo, rest[0]) && Matches(rest[0].diff, TreeOf(s, s.head)) && FreeOf(s, rest[0].diff)
    ensures AllStored(s.repo, rest[1..]) && AllMatch(rest[1..], Apply(rest[0].diff, TreeOf(s, s.head)))
  {
    hide Sound, Stored, AllStored, Apart, Matches, AllMatch, Apply, Footprints, FreeOf;
    var item, later := rest[0], rest[1..];
    FootprintsCons(rest);
    SoundFree(s, item.diff, Footprints(later));
    assert rest == [item] + later;
    FirstOf(s.repo, rest, TreeOf(s, s.head));
    HeadExists(s, Footprints(rest));
    PendingApart(s, rest);
    StillMatchLater(item, later, TreeOf(s, s.head));
  }

  lemma CleanTurn(s: State, rest: seq<Item>)
    requires Ready(s, rest) && rest != []
    ensures CherryPick(s, rest[0].id).Picked?
    ensures var r := ReplayStep(s, rest[0]);
            && Ready(r, rest[1..])
            && r.commits == s.commits + [rest[0].(id := |s.repo|)]
            && r.history.lost == s.history.lost
            && r.history.origins == s.history.origins[|s.repo| := rest[0].id]
            && |r.repo| == |s.repo| + 1
  {
    hide Sound, ReplayStep, Stored, AllStored, CherryPick, Matches, AllMatch, Extends, Apply, Footprints, FreeOf,
         Strays;
    ReadyFirst(s, rest);
    CleanStep(s, rest[0]);
    ReplayStepSound(s, rest[0], Footprints(rest[1..]));
    AllStoredLater(s.repo, ReplayStep(s, rest[0]).repo, rest[1..]);
  }

  lemma {:induction false} ReplayAllClean(s: State, rest: seq<Item>)
    requires Ready(s, rest)
    ensures var r := ReplayAll(s, rest);
            SameWork(r.commits, s.commits + rest) && r.history.lost == s.history.lost
    decreases |rest|
  {
    hide Ready, ReplayStep, CherryPick, SameWork;
    if rest == [] {
      assert s.commits + rest == s.commits;
      SameWorkRefl(s.commits);
    } else {
      var item, later := rest[0], rest[1..];
      var moved := item.(id := |s.repo|);
      CleanTurn(s, rest);
      var r := ReplayStep(s, item);
      ReplayAllClean(r, later);
      assert r.commits + later == s.commits + [moved] + later;
      assert s.commits + rest == s.commits + [item] + later;
      assert ReplayAll(s, rest) == ReplayAll(r, later);
      SameWorkSwap(ReplayAll(s, rest).commits, s.commits, moved, item, later);
    }
  }

  lemma SameWorkRefl(a: seq<Item>)
    ensures SameWork(a, a)
  {
  }

  lemma SameWorkSwap(a: seq<Item>, done: seq<Item>, moved: Item, item: Item, later: seq<Item>)
    requires SameWork(a, done + [moved] + later)
    requires moved == item.(id := moved.id)
    ensures SameWork(a, done + [item] + later)
  {
  }

  lemma PendingApart(s: State, rest: seq<Item>)
    requires Sound(s, Footprints(rest))
    ensures Apart(rest, [])
  {
  }

  lemma StillMatchLater(item: Item, later: seq<Item>, t: Tree)
    requires Apart([item] + later, []) && AllMatch([item] + later, t)
    ensures AllMatch(later, Apply(item.diff, t))
  {
    var all := [item] + later;
    forall i | 0 <= i < |later|
      ensures item.diff.Keys !! later[i].diff.Keys && Matches(later[i].diff, t)
    {
      assert all[0].diff.Keys !! all[i + 1].diff.Keys;
      assert later[i] == all[i + 1];
    }
    StillMatch(later, item, t);
  }
}
