/** A Discard or a synchronization that is cut short: what is left, what is lost, and that nobody is told. */
module Discards {
  import opened GitModel
  import opened ReviewSpec
  import opened Queue
  import opened Replay
  import opened Clean
  import opened Operations
  import opened Conservation
  import opened Confluence
  import opened Announced

  lemma {:induction false} ReplayAllReady(s: State, rest: seq<Item>, n: nat)
    requires Ready(s, rest) && n <= |rest|
    ensures Ready(ReplayAll(s, rest[..n]), rest[n..])
    decreases n
  {
    hide Ready, ReplayStep, CherryPick;
    if n == 0 {
      assert rest[..0] == [] && rest[0..] == rest;
    } else {
      CleanTurn(s, rest);
      assert rest[..n][0] == rest[0] && rest[..n][1..] == rest[1..][..n - 1] && rest[n..] == rest[1..][n - 1..];
      ReplayAllReady(ReplayStep(s, rest[0]), rest[1..], n - 1);
    }
  }

  /** A queue changes something, so its tip is not the baseline. */
  lemma TipIsNotBase(s: State)
    requires Sound(s, []) && s.commits != []
    ensures s.head != s.baseline
  {
    hide Stored, Applies;
    var items := s.commits;
    AppliesAlone(s.repo, s.baseline, items, [], 0);
    ChainTree(s.repo, s.baseline, items, |items|);
    DiffsDisjoint(items, []);
    assert Diffs(items)[..|items|] == Diffs(items);
    FirstChanges(TreeOf(s, s.baseline), items);
  }

  lemma FirstChanges(t: Tree, items: seq<Item>)
    requires items != [] && Disjoint(Diffs(items)) && Effective(items[0].diff) && Applies(items[0].diff, t)
    ensures ApplySeq(t, Diffs(items)) != t
  {
    var p :| p in items[0].diff;
    ApplySeqHit(t, Diffs(items), 0, p);
  }

  lemma TipBelow(s: State, pending: seq<set<Path>>)
    requires Sound(s, pending)
    ensures Tip(s) < |s.repo|
  {
    HeadExists(s, pending);
  }

  /** How many of the items left are replayed before the break. */
  function Kept(fault: Fault): nat {
    if fault.AtReplay? && fault.k > 0 then fault.k - 1 else 0
  }

  /** A clean replay cut short leaves the first items and a commit that is in no queue. */
  lemma CutReplay(s: State, base: Id, k: nat)
    requires Held(s, s.commits) && base < |s.repo| && AllMatch(s.commits, TreeOf(s, base)) && 0 < k <= |s.commits|
    ensures var r := ReplayOnto(s, base, AtReplay(k)).state;
            && !AtTip(r) && SameWork(r.commits, s.commits[..k - 1]) && r.history.lost == s.history.lost
            && r.history.(shown := s.history.shown, origins := s.history.origins) == s.history
  {
    hide Sound, Held, AllMatch, SameWork, ReplayAll, CherryPick, Ready;
    var start, done := StartReplay(s, base), s.commits[..k - 1];
    StartReady(s, base);
    ReplayAllReady(start, s.commits, k - 1);
    var s2 := ReplayAll(start, done);
    assert s.commits[k - 1..][0] == s.commits[k - 1];
    CleanTurn(s2, s.commits[k - 1..]);
    PrefixReady(start, s.commits, k - 1);
    ReplayAllClean(start, done);
    assert [] + done == done;
    ReadyTip(s2, s.commits[k - 1..]);
    PickHead(s2, s.commits[k - 1].id);
    QuietHistory(start, done);
  }

  lemma StartReady(s: State, base: Id)
    requires Held(s, s.commits) && base < |s.repo| && AllMatch(s.commits, TreeOf(s, base))
    ensures Ready(StartReplay(s, base), s.commits)
  {
    StartSound(s, base, s.commits);
  }

  lemma PrefixReady(s: State, items: seq<Item>, n: nat)
    requires Ready(s, items) && n <= |items|
    ensures Ready(s, items[..n])
  {
    assert forall i | 0 <= i < n :: Footprints(items[..n])[i] == Footprints(items)[i];
  }

  lemma ReadyTip(s: State, items: seq<Item>)
    requires Ready(s, items)
    ensures Tip(s) < |s.repo|
  {
    TipBelow(s, Footprints(items));
  }

  /** A pick that is not queued leaves HEAD away from the tip. */
  lemma PickHead(s: State, id: Id)
    requires CherryPick(s, id).Picked? && Tip(s) < |s.repo|
    ensures var r := CherryPick(s, id).state;
            && !AtTip(r) && r.commits == s.commits
            && r.history.(origins := s.history.origins) == s.history
  {
  }

  lemma {:induction false} QuietHistory(s: State, rest: seq<Item>)
    ensures var r := ReplayAll(s, rest);
            r.history.(shown := s.history.shown, origins := s.history.origins, lost := s.history.lost) == s.history
    decreases |rest|
  {
    hide CherryPick, ReplayStep;
    if rest != [] {
      QuietTurn(s, rest[0]);
      QuietHistory(ReplayStep(s, rest[0]), rest[1..]);
    }
  }

  lemma QuietTurn(s: State, item: Item)
    ensures var r := ReplayStep(s, item);
            r.history.(shown := s.history.shown, origins := s.history.origins, lost := s.history.lost) == s.history
  {
  }

  /** The items a Discard of item k leaves to be replayed, as far as the replay gets. */
  function Survivors(s: State, k: nat, fault: Fault): seq<Item>
    requires k < |s.commits|
  {
    var rest := RemoveAt(s.commits, k);
    if fault.AtReplay? && fault.k <= |rest| then rest[..Kept(fault)] else rest
  }

  /**
   What a broken Discard leaves: the items before the break, HEAD on a commit that is not the tip, and no
   report of the items that are gone.
   */
  lemma BrokenDiscard(s: State, name: Id, fault: Fault)
    requires Sound(s, []) && DiscardBreaks(s, name, fault)
    ensures var k := Position(s.commits, Resolve(s.aliases, name));
            var o := DiscardOne(s, name, fault);
            && o.Failed? && !AtTip(o.state)
            && SameWork(o.state.commits, Survivors(s, k, fault)) && o.state.history.lost == s.history.lost
            && o.state.history.committed == s.history.committed && o.state.history.applied == s.history.applied
            && o.state.history.discarded == s.history.discarded + Purposes([s.commits[k]])
  {
    hide Sound, Held, AllMatch, SameWork, AtTip, Purposes, RemoveAt, Resolve, ReplayAll, CherryPick;
    var k := Position(s.commits, Resolve(s.aliases, name));
    var s1 := Without(s, k);
    RemoveLength(s.commits, k);
    if fault.k == 0 {
      TipIsNotBase(s);
      SameWorkRefl([]);
      StoppedAtReset(s, s1);
    } else {
      SoundHeld(s);
      HeldWithout(s, s.commits, k);
      HeldHere(s, s1, RemoveAt(s.commits, k));
      OthersMatch(s, k);
      CutReplay(s1, s.baseline, fault.k);
    }
  }

  lemma RemoveLength(items: seq<Item>, k: nat)
    requires k < |items|
    ensures |RemoveAt(items, k)| == |items| - 1
  {
  }

  lemma StoppedAtReset(s: State, s1: State)
    requires s.head != s.baseline && s1.head == s.head && s1.baseline == s.baseline
    ensures !AtTip(s1.(commits := []))
  {
  }

  /** The exact condition: a Discard keeps the queue invariant if and only if its replay is not cut short. */
  lemma DiscardSoundIff(s: State, name: Id, fault: Fault)
    requires Sound(s, [])
    ensures Sound(DiscardOne(s, name, fault).state, []) <==> !DiscardBreaks(s, name, fault)
  {
    hide DiscardOne, DiscardBreaks, Struct, SameWork, Purposes, Survivors;
    if DiscardBreaks(s, name, fault) {
      BrokenDiscard(s, name, fault);
    } else {
      DiscardOneSound(s, name, fault);
    }
  }

  lemma {:induction false} SurvivorsCounted(items: seq<Item>, n: nat)
    requires n <= |items| && Purposeful(items)
    ensures Purposes(items[..n]) == Purposes(items) <==> n == |items|
  {
    if n < |items| {
      Concat(items[..n], items[n..]);
      assert items[..n] + items[n..] == items;
      SomePurpose(items[n..]);
    } else {
      assert items[..n] == items;
    }
  }

  lemma SomePurpose(items: seq<Item>)
    requires items != [] && Purposeful(items)
    ensures Purposes(items) != multiset{}
  {
    var last := items[|items| - 1];
    assert last.purposes[0] in multiset(last.purposes);
  }

  /**
   And it keeps all work accounted for if and only if its replay is not cut short, or the discarded item was
   the only one.
   */
  lemma DiscardBalancedIff(s: State, name: Id, fault: Fault)
    requires Sound(s, []) && Balanced(s) && Purposeful(s.commits)
    ensures Balanced(DiscardOne(s, name, fault).state) <==> !DiscardBreaks(s, name, fault) || |s.commits| == 1
  {
    hide DiscardOne, Sound, SameWork, Purposes, Survivors, RemoveAt, Resolve;
    if DiscardBreaks(s, name, fault) {
      BrokenDiscard(s, name, fault);
      var k := Position(s.commits, Resolve(s.aliases, name));
      var r := DiscardOne(s, name, fault).state;
      Removed(s.commits, k);
      One(s.commits[k]);
      SameWorkSamePurposes(r.commits, Survivors(s, k, fault));
      CountSurvivors(s, k, fault);
      var h := s.history;
      Shortfall(h.committed, h.applied, h.discarded, Purposes(h.lost), Purposes([s.commits[k]]),
                Purposes(RemoveAt(s.commits, k)), Purposes(r.commits));
    } else {
      DiscardUnbroken(s, name, fault);
      DiscardBalanced(s, name);
    }
  }

  /** Writing one item off is balanced exactly if all the others are still there. */
  lemma Shortfall(committed: multiset<string>, applied: multiset<string>, discarded: multiset<string>,
                  lost: multiset<string>, gone: multiset<string>, rest: multiset<string>, left: multiset<string>)
    requires committed == applied + discarded + ((rest + gone) + lost)
    ensures committed == applied + (discarded + gone) + (left + lost) <==> left == rest
  {
    if committed == applied + (discarded + gone) + (left + lost) {
      forall x
        ensures left[x] == rest[x]
      {
        assert committed[x] == applied[x] + discarded[x] + rest[x] + gone[x] + lost[x];
        assert (applied + (discarded + gone) + (left + lost))[x] == applied[x] + discarded[x] + gone[x] + left[x] + lost[x];
      }
    }
  }

  lemma CountSurvivors(s: State, k: nat, fault: Fault)
    requires k < |s.commits| && Purposeful(s.commits) && fault.AtReplay? && fault.k < |s.commits|
    ensures Purposes(Survivors(s, k, fault)) == Purposes(RemoveAt(s.commits, k)) <==> |s.commits| == 1
  {
    hide Purposes;
    SurvivorsCounted(RemoveAt(s.commits, k), Kept(fault));
  }

  // A synchronization whose reset fails.

  /** Such a synchronization keeps the queue invariant if and only if there was no queue. */
  lemma CutSyncSoundIff(s: State)
    requires Sound(s, [])
    ensures Sound(CutSync(s), []) <==> s.commits == []
  {
    hide Struct, StraysApart, Covers;
    if s.commits == [] {
      SnapshotSound(s);
    } else {
      TipIsNotBase(s);
    }
  }

  /** And it keeps all work accounted for in the same case. */
  lemma CutSyncBalancedIff(s: State)
    requires Balanced(s) && Purposeful(s.commits)
    ensures Balanced(CutSync(s)) <==> s.commits == []
  {
    hide Purposes;
    assert s.commits[..0] == [];
    SurvivorsCounted(s.commits, 0);
    var h := s.history;
    NoPurposes();
    Shortfall(h.committed, h.applied, h.discarded, Purposes(h.lost), multiset{}, Purposes(s.commits), multiset{});
  }

  /** The next synchronization starts over on an empty queue and reports none of the items that were in it. */
  lemma CutSyncForgets(s: State, answers: seq<Answer>)
    requires Sound(s, []) && Tidy(s) && s.parent != TreeOf(s, s.observed)
    ensures var r := Sync(CutSync(s), answers).state;
            && Sound(r, []) && Tidy(r) && r.commits == [] && r.history.lost == s.history.lost
            && TreeOf(r, r.head) == r.parent == s.parent
  {
    hide Sound, Covers, StraysApart, DiffOf, StartReplay;
    var c := CutSync(s);
    CutSyncTidy(s);
    StartsOver(Snapshot(c), |c.repo|);
    var start, r := StartReplay(Snapshot(c), |c.repo|), Sync(c, answers).state;
    assert SyncLoop(start, [], answers) == start;
    NothingQueued(r);
  }

  lemma CutSyncTidy(s: State)
    requires Sound(s, []) && Tidy(s)
    ensures var c := CutSync(s);
            && Tidy(Snapshot(c)) && TreeOf(Snapshot(c), c.observed) == TreeOf(s, s.observed)
            && Snapshot(c).repo[|c.repo|].tree == s.parent
  {
    hide Struct, Covers, StraysApart;
    HeadExists(s, []);
  }

  lemma StartsOver(s: State, base: Id)
    requires Tidy(s) && s.commits == [] && base < |s.repo|
    ensures StartReplay(s, base) == s.(head := base, baseline := base, work := TreeOf(s, base))
  {
    hide Tidy;
    ResetTidy(s, base);
  }

  lemma NothingQueued(s: State)
    requires Tidy(s) && s.commits == [] && s.head == s.baseline < |s.repo| && s.observed < |s.repo|
    ensures Sound(s, [])
  {
    hide Covers, StraysApart, Strays;
    TidyApart(s, []);
  }
}
