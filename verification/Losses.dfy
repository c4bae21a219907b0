/** Exactly which items a replay reports as lost, told from the diffs and the tree alone. */
module Losses {
  import opened Wrappers
  import opened GitModel
  import opened ReviewSpec
  import opened Queue
  import opened Replay
  import opened Clean
  import opened Operations

  /** Nothing is in the way of the patch, and something of it is not there yet. */
  predicate Picks(d: Diff, t: Tree) {
    && (forall p | p in d :: !Collides(d, t, p))
    && exists p | p in d :: Get(t, p) != d[p].after
  }

  lemma PicksIff(s: State, item: Item)
    requires Stored(s.repo, item)
    ensures CherryPick(s, item.id).Picked? <==> Picks(item.diff, TreeOf(s, s.head)) && !Blocked(s, item.diff)
    ensures FreeOf(s, item.diff) ==> !Blocked(s, item.diff)
  {
    hide Blocked, FreeOf, Stored, CherryPick;
    var d, t := item.diff, TreeOf(s, s.head);
    PickByDiff(s, item);
    if forall p | p in d :: Get(t, p) == d[p].after {
      TreeExt(Apply(d, t), t);
    } else {
      var p :| p in d && Get(t, p) != d[p].after;
      assert Get(Apply(d, t), p) != Get(t, p);
    }
  }

  /** The items that find something in the way, or nothing left to do. */
  function Unpicked(items: seq<Item>, t: Tree): seq<Item> {
    if items == [] then []
    else (if Picks(items[0].diff, t) then [] else [items[0]]) + Unpicked(items[1..], t)
  }

  /** An item that is lost in a replay leaves the tip checked out, and files that Git does not know of where they are. */
  lemma LostAtTip(s: State, item: Item)
    requires CherryPick(s, item.id).Stopped?
    ensures var r, t := ReplayStep(s, item), TreeOf(s, Tip(s));
            && r.head == Tip(s) && r.commits == s.commits && r.aliases == s.aliases
            && r.history.lost == s.history.lost + [item]
            && forall p ::
                 Get(r.work, p) == if p in t then Get(t, p) else if p in TreeOf(s, s.head) then None else Get(s.work, p)
  {
    hide CherryPick, TreeOf, Tip;
  }

  lemma {:induction false} UnpickedElsewhere(items: seq<Item>, t: Tree, u: Tree)
    requires forall i, p | 0 <= i < |items| && p in items[i].diff :: Get(t, p) == Get(u, p)
    ensures Unpicked(items, t) == Unpicked(items, u)
  {
    if items != [] {
      forall i, p | 0 <= i < |items| - 1 && p in items[1..][i].diff
        ensures Get(t, p) == Get(u, p)
      {
        assert items[1..][i] == items[i + 1];
      }
      UnpickedElsewhere(items[1..], t, u);
      SamePicks(items[0].diff, t, u);
    }
  }

  lemma SamePicks(d: Diff, t: Tree, u: Tree)
    requires forall p | p in d :: Get(t, p) == Get(u, p)
    ensures Picks(d, t) <==> Picks(d, u)
  {
  }

  lemma {:induction false} UnpickedNone(items: seq<Item>, t: Tree)
    ensures Unpicked(items, t) == [] <==> forall i | 0 <= i < |items| :: Picks(items[i].diff, t)
  {
    if items != [] {
      hide Picks;
      UnpickedNone(items[1..], t);
      assert forall i | 0 < i < |items| :: items[i] == items[1..][i - 1];
      if Unpicked(items, t) == [] {
        forall i | 0 <= i < |items|
          ensures Picks(items[i].diff, t)
        {
          assert i > 0 ==> Picks(items[1..][i - 1].diff, t);
        }
      }
    }
  }

  lemma TipIsHead(s: State, pending: seq<set<Path>>)
    requires Sound(s, pending)
    ensures s.head == Tip(s)
  {
  }

  /** One turn: lost or not, and the tree is as before wherever the item does not reach. */
  lemma TurnLost(s: State, item: Item, pending: seq<set<Path>>)
    requires Sound(s, [item.diff.Keys] + pending) && Stored(s.repo, item)
    ensures var r := ReplayStep(s, item);
            && r.history.lost == s.history.lost + (if Picks(item.diff, TreeOf(s, s.head)) then [] else [item])
            && forall p | p !in item.diff :: Get(TreeOf(r, r.head), p) == Get(TreeOf(s, s.head), p)
  {
    hide Sound, Picks, CherryPick, Stored, DiffOf, CollidesSomewhere, FreeOf, Blocked, Strays;
    SoundFree(s, item.diff, pending);
    HeadExists(s, [item.diff.Keys] + pending);
    PicksIff(s, item);
    PickByDiff(s, item);
    TipIsHead(s, [item.diff.Keys] + pending);
  }

  lemma {:induction false} ReplayAllLost(s: State, rest: seq<Item>)
    requires Sound(s, Footprints(rest)) && AllStored(s.repo, rest)
    ensures ReplayAll(s, rest).history.lost == s.history.lost + Unpicked(rest, TreeOf(s, s.head))
    decreases |rest|
  {
    hide Sound, Stored, AllStored, ReplayStep, Picks, TreeOf, SameOutside, Extends, Footprints, Unpicked;
    if rest == [] {
      assert Unpicked(rest, TreeOf(s, s.head)) == [] by { NoneUnpicked(TreeOf(s, s.head)); }
    } else {
      var r := ReplayStep(s, rest[0]);
      TurnReady(s, rest);
      TurnLost(s, rest[0], Footprints(rest[1..]));
      ReplayAllLost(r, rest[1..]);
      UnpickedElsewhere(rest[1..], TreeOf(s, s.head), TreeOf(r, r.head));
      UnpickedFirst(s.history.lost, rest, TreeOf(s, s.head));
    }
  }

  lemma NoneUnpicked(t: Tree)
    ensures Unpicked([], t) == []
  {
  }

  lemma UnpickedFirst(lost: seq<Item>, rest: seq<Item>, t: Tree)
    requires rest != []
    ensures lost + Unpicked(rest, t)
         == (lost + (if Picks(rest[0].diff, t) then [] else [rest[0]])) + Unpicked(rest[1..], t)
  {
    hide Picks;
    Regroup(lost, if Picks(rest[0].diff, t) then [] else [rest[0]], Unpicked(rest[1..], t));
  }

  lemma Regroup<T>(a: seq<T>, b: seq<T>, c: seq<T>)
    ensures a + (b + c) == (a + b) + c
  {
  }

  lemma TurnReady(s: State, rest: seq<Item>)
    requires Sound(s, Footprints(rest)) && AllStored(s.repo, rest) && rest != []
    ensures var r := ReplayStep(s, rest[0]);
            && Sound(r, Footprints(rest[1..])) && AllStored(r.repo, rest[1..])
            && Sound(s, [rest[0].diff.Keys] + Footprints(rest[1..])) && Stored(s.repo, rest[0])
    ensures forall i, p | 0 <= i < |rest[1..]| && p in rest[1..][i].diff :: p !in rest[0].diff
  {
    hide Sound, Stored, ReplayStep, SameOutside, Footprints;
    FootprintsCons(rest);
    assert Stored(s.repo, rest[0]);
    ReplayStepSound(s, rest[0], Footprints(rest[1..]));
    AllStoredLater(s.repo, ReplayStep(s, rest[0]).repo, rest[1..]);
    PendingElsewhere(s, rest);
  }

  /** Later items do not reach where the first one does. */
  lemma PendingElsewhere(s: State, rest: seq<Item>)
    requires Sound(s, Footprints(rest)) && rest != []
    ensures forall i, p | 0 <= i < |rest[1..]| && p in rest[1..][i].diff :: p !in rest[0].diff
  {
    PendingApart(s, rest);
    forall i, p | 0 <= i < |rest[1..]| && p in rest[1..][i].diff
      ensures p !in rest[0].diff
    {
      assert rest[0].diff.Keys !! rest[i + 1].diff.Keys;
      assert p in rest[i + 1].diff.Keys;
    }
  }

  /** A replay that breaks off reports the lost ones of the items before the break. */
  lemma BrokenLost(s: State, base: Id, k: nat)
    requires Held(s, s.commits) && base < |s.repo| && k <= |s.commits|
    ensures var o := ReplayOnto(s, base, AtReplay(k));
            && o.Failed?
            && o.state.history.lost ==
                 s.history.lost + (if k == 0 then [] else Unpicked(s.commits[..k - 1], TreeOf(s, base)))
  {
    hide Sound, Held, Unpicked, ReplayAll, CherryPick;
    if k > 0 {
      var done := s.commits[..k - 1];
      HeldPrefix(s, s.commits, k - 1);
      HeldApart(s, done);
      StartSound(s, base, done);
      ReplayAllLost(StartReplay(s, base), done);
      PickLost(ReplayAll(StartReplay(s, base), done), s.commits[k - 1].id);
    }
  }

  lemma PickLost(s: State, id: Id)
    ensures CherryPick(s, id).Picked? ==> CherryPick(s, id).state.history.lost == s.history.lost
  {
  }

  /** The items an adoption that breaks off reports as lost. */
  function LostBefore(items: seq<Item>, t: Tree, fault: Fault): seq<Item> {
    if fault.AtReplay? && 0 < fault.k <= |items| then Unpicked(items[..fault.k - 1], t) else []
  }

  lemma AdoptLost(s: State, fault: Fault)
    requires Held(s, s.commits) && Adopt(s, fault).Failed?
    ensures Adopt(s, fault).state.history.lost == s.history.lost + LostBefore(s.commits, s.parent, fault)
  {
    hide AllStored, Apart, ReplayOnto, Unpicked;
    if fault != AtSnapshot {
      var snap := Snapshot(s).(observed := |s.repo|);
      assert Extends(s.repo, snap.repo) && TreeOf(snap, |s.repo|) == s.parent;
      HeldHere(s, snap, s.commits);
      BreaksAt(snap, |s.repo|, fault);
      BrokenLost(snap, |s.repo|, fault.k);
    }
  }

  lemma BreaksAt(s: State, base: Id, fault: Fault)
    requires ReplayOnto(s, base, fault).Failed?
    ensures fault.AtReplay? && fault.k <= |s.commits|
  {
  }
}
