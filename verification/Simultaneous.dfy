/** A transaction is one simultaneous update: the order of its operations does not show in the result. */
module Simultaneous {
  import opened Wrappers
  import opened GitModel
  import opened Disk
  import opened Atomicity
  import opened Undoing

  /** All effects together. */
  function Effects(ops: seq<Op>): map<Path, Option<Content>> {
    if ops == [] then map[] else Effects(ops[..|ops| - 1]) + Effect(ops[|ops| - 1])
  }

  /** A tree with every effect written over it at once. */
  function Overlay(t: Tree, effects: map<Path, Option<Content>>): (r: Tree)
    ensures forall p :: Get(r, p) == if p in effects then effects[p] else Get(t, p)
  {
    map p | p in t.Keys + effects.Keys && (p in effects ==> effects[p].Some?) ::
      if p in effects then effects[p].value else t[p]
  }

  predicate ClaimsDisjoint(ops: seq<Op>) {
    forall i, j | 0 <= i < j < |ops| :: Claims(ops[i]) !! Claims(ops[j])
  }

  lemma EffectClaims(op: Op)
    ensures Effect(op).Keys == Claims(op) != {}
  {
  }

  lemma {:induction false} EffectsAt(ops: seq<Op>)
    requires ClaimsDisjoint(ops)
    ensures Effects(ops).Keys == AllClaims(ops)
    ensures forall i | 0 <= i < |ops| :: Covers(Effects(ops), ops[i])
  {
    hide Claims, Effect, AllClaims;
    if ops == [] {
      EmptyClaims();
    } else {
      var n := |ops| - 1;
      var front := ops[..n];
      EffectsAt(front);
      ClaimsOfLast(ops);
      EffectClaims(ops[n]);
      forall i | 0 <= i < |ops|
        ensures Covers(Effects(ops), ops[i])
      {
        EffectClaims(ops[i]);
        if i < n {
          assert Covers(Effects(front), front[i]);
          assert Claims(ops[i]) !! Claims(ops[n]);
        }
      }
    }
  }

  /** The effects say of an operation's claims what the operation says. */
  predicate Covers(effects: map<Path, Option<Content>>, op: Op) {
    Effect(op).Keys <= effects.Keys && forall p | p in Effect(op) :: effects[p] == Effect(op)[p]
  }

  lemma EmptyClaims()
    ensures AllClaims([]) == {}
  {
  }

  lemma CompletedAt(d0: Disk, ops: seq<Op>, d: Disk, p: Path)
    requires Prepared(d0, ops) && Progress(d0, ops, |ops|, d)
    ensures Get(d.files, p) == Get(Overlay(d0.files, Effects(ops)), p)
  {
    hide Effect, Claims, Overlay, Effects, PreparedOp, Sane, Missing;
    EffectsAt(ops);
    if i :| 0 <= i < |ops| && p in Claims(ops[i]) {
      EffectClaims(ops[i]);
      assert Covers(Effects(ops), ops[i]);
      assert Get(d.files, p) == Effect(ops[i])[p];
    } else {
      assert p !in AllClaims(ops);
      assert forall j | 0 <= j < |ops| :: p !in Claims(ops[j]);
    }
  }

  lemma CompletedDirs(d0: Disk, ops: seq<Op>, d: Disk)
    requires Progress(d0, ops, |ops|, d)
    ensures d.dirs == d0.dirs + Missing(d0, ops)
  {
    forall q | q in Missing(d0, ops)
      ensures q in d.dirs
    {
      var i, k :| 0 <= i < |ops| && NewPath(ops[i]).Some? && 0 <= k < |NewPath(ops[i]).value|
                  && NewPath(ops[i]).value[..k] !in d0.dirs && NewPath(ops[i]).value[..k] == q;
      var p := NewPath(ops[i]).value;
      assert p in Claims(ops[i]) && Get(d.files, p) == Effect(ops[i])[p];
    }
  }

  /** What a completed transaction leaves on disk. */
  lemma CompletedIsOverlay(d0: Disk, ops: seq<Op>, d: Disk)
    requires Prepared(d0, ops) && Progress(d0, ops, |ops|, d)
    ensures d.files == Overlay(d0.files, Effects(ops))
    ensures d.dirs == d0.dirs + Missing(d0, ops)
  {
    forall p
      ensures Get(d.files, p) == Get(Overlay(d0.files, Effects(ops)), p)
    {
      CompletedAt(d0, ops, d, p);
    }
    TreeExt(d.files, Overlay(d0.files, Effects(ops)));
    CompletedDirs(d0, ops, d);
  }

  /** With no fault a prepared transaction succeeds exactly when no new names are nested and all results are visible. */
  lemma SucceedsExactly(d0: Disk, ops: seq<Op>, visible: (Tree, Path) -> bool)
    requires Sane(d0) && Prepared(d0, ops)
    ensures AllRooted(ops)
    ensures var r := Forward(d0, ops, visible);
            r.Ok? ==>
              && r.disk.files == Overlay(d0.files, Effects(ops)) && r.disk.dirs == d0.dirs + Missing(d0, ops)
              && NonNested(ops) && AllVisible(ops, Overlay(d0.files, Effects(ops)), visible)
    ensures d0.left.None? && NonNested(ops) && AllVisible(ops, Overlay(d0.files, Effects(ops)), visible) ==>
              Forward(d0, ops, visible).Ok?
  {
    ForwardRuns(d0, ops, visible);
    var r := Forward(d0, ops, visible);
    if r.Ok? {
      CompletedIsOverlay(d0, ops, r.disk);
    } else if d0.left.None? && NonNested(ops) {
      StartProgress(d0, ops);
      ExecRest(d0, ops, 0, d0);
      assert ops[0..] == ops;
      var mid := ExecAll(d0, ops);
      CheckLooks(mid.disk, ops, visible);
      CompletedIsOverlay(d0, ops, mid.disk);
    }
  }

  // Reordering.

  lemma {:induction false} Repeated(ops: seq<Op>, op: Op) returns (i: nat, j: nat)
    requires multiset(ops)[op] >= 2
    ensures i < j < |ops| && ops[i] == op && ops[j] == op
  {
    var n := |ops| - 1;
    assert ops == ops[..n] + [ops[n]];
    if ops[n] == op {
      assert op in multiset(ops[..n]);
      i :| 0 <= i < n && ops[i] == op;
      j := n;
    } else {
      i, j := Repeated(ops[..n], op);
    }
  }

  lemma RepeatedCount(ops: seq<Op>, i: nat, j: nat)
    requires i < j < |ops| && ops[i] == ops[j]
    ensures multiset(ops)[ops[i]] >= 2
  {
    assert ops == ops[..j] + ops[j..];
    assert ops[..j][i] == ops[i] && ops[j..][0] == ops[j];
    assert ops[i] in multiset(ops[..j]) && ops[j] in multiset(ops[j..]);
  }

  /** Every operation claims something, so disjoint claims allow no operation twice. */
  lemma NeverTwice(ops: seq<Op>, op: Op)
    requires ClaimsDisjoint(ops)
    ensures multiset(ops)[op] <= 1
  {
    hide Claims;
    if multiset(ops)[op] >= 2 {
      var i, j := Repeated(ops, op);
      EffectClaims(op);
      assert false;
    }
  }

  lemma Place(ops: seq<Op>, op: Op) returns (i: nat)
    requires op in ops
    ensures i < |ops| && ops[i] == op
  {
    i :| 0 <= i < |ops| && ops[i] == op;
  }

  lemma PermutedDisjoint(ops: seq<Op>, perm: seq<Op>)
    requires ClaimsDisjoint(ops) && multiset(ops) == multiset(perm)
    ensures ClaimsDisjoint(perm)
  {
    hide Claims;
    PermutedMembers(ops, perm);
    forall i, j | 0 <= i < j < |perm|
      ensures Claims(perm[i]) !! Claims(perm[j])
    {
      var a := Place(ops, perm[i]);
      var b := Place(ops, perm[j]);
      if a == b {
        RepeatedCount(perm, i, j);
        NeverTwice(ops, perm[i]);
        assert false;
      }
      assert Claims(ops[if a < b then a else b]) !! Claims(ops[if a < b then b else a]);
    }
  }

  lemma PermutedMembers(ops: seq<Op>, perm: seq<Op>)
    requires multiset(ops) == multiset(perm)
    ensures forall op :: op in ops <==> op in perm
  {
    forall op
      ensures op in ops <==> op in perm
    {
      assert op in multiset(ops) <==> op in multiset(perm);
    }
  }

  lemma PermutedParts(d0: Disk, ops: seq<Op>, perm: seq<Op>)
    requires forall op :: op in ops ==> op in perm
    ensures AllClaims(ops) <= AllClaims(perm) && Missing(d0, ops) <= Missing(d0, perm)
    ensures NonNested(perm) ==> NonNested(ops)
  {
    hide Claims, NewPath, Nested;
    forall p | p in AllClaims(ops)
      ensures p in AllClaims(perm)
    {
      var i :| 0 <= i < |ops| && p in Claims(ops[i]);
      var j := Place(perm, ops[i]);
    }
    forall q | q in Missing(d0, ops)
      ensures q in Missing(d0, perm)
    {
      var i, k :| 0 <= i < |ops| && NewPath(ops[i]).Some? && 0 <= k < |NewPath(ops[i]).value|
                  && NewPath(ops[i]).value[..k] !in d0.dirs && NewPath(ops[i]).value[..k] == q;
      var j := Place(perm, ops[i]);
    }
    if NonNested(perm) {
      forall i, j | 0 <= i < j < |ops|
        ensures !Nested(ops[i], ops[j])
      {
        NotNestedPair(perm, ops[i], ops[j]);
      }
    }
  }

  lemma NotNestedPair(ops: seq<Op>, a: Op, b: Op)
    requires NonNested(ops) && a in ops && b in ops
    ensures !Nested(a, b)
  {
  }

  lemma PermutedVisible(ops: seq<Op>, perm: seq<Op>, files: Tree, visible: (Tree, Path) -> bool)
    requires forall op :: op in ops ==> op in perm
    requires AllVisible(perm, files, visible)
    ensures AllVisible(ops, files, visible)
  {
    forall i | 0 <= i < |ops| && ResultPath(ops[i]).Some?
      ensures visible(files, ResultPath(ops[i]).value)
    {
      var j := Place(perm, ops[i]);
    }
  }

  lemma PermutedEffects(d0: Disk, ops: seq<Op>, perm: seq<Op>)
    requires ClaimsDisjoint(ops) && multiset(ops) == multiset(perm)
    ensures AllClaims(ops) == AllClaims(perm) && Effects(ops) == Effects(perm)
  {
    hide Effects, Effect, Claims;
    PermutedDisjoint(ops, perm);
    PermutedMembers(ops, perm);
    PermutedParts(d0, ops, perm);
    PermutedParts(d0, perm, ops);
    EffectsAt(ops);
    EffectsAt(perm);
    forall p | p in AllClaims(ops)
      ensures Effects(perm)[p] == Effects(ops)[p]
    {
      var i :| 0 <= i < |ops| && p in Claims(ops[i]);
      EffectClaims(ops[i]);
      var j := Place(perm, ops[i]);
      assert Covers(Effects(ops), ops[i]) && Covers(Effects(perm), perm[j]);
    }
  }

  lemma PermutedPrepared(d0: Disk, ops: seq<Op>, perm: seq<Op>)
    requires Prepared(d0, ops) && multiset(ops) == multiset(perm)
    ensures Prepared(d0, perm)
  {
    PermutedDisjoint(ops, perm);
    PermutedMembers(ops, perm);
    forall i | 0 <= i < |perm|
      ensures PreparedOp(d0, perm[i])
    {
      var j := Place(ops, perm[i]);
    }
  }

  /**
   Any reordering of a prepared transaction is prepared too; on a sound device both succeed or neither
   does, and when both succeed they leave the same files and directories and report the same paths.
   */
  lemma OrderDoesNotShow(d0: Disk, ops: seq<Op>, perm: seq<Op>, visible: (Tree, Path) -> bool)
    requires Sane(d0) && Prepared(d0, ops) && multiset(ops) == multiset(perm)
    ensures Prepared(d0, perm) && AllRooted(ops) && AllRooted(perm)
    ensures AllClaims(ops) == AllClaims(perm)
    ensures var r, r' := Forward(d0, ops, visible), Forward(d0, perm, visible);
            && (r.Ok? && r'.Ok? ==> r.disk.files == r'.disk.files && r.disk.dirs == r'.disk.dirs)
            && (d0.left.None? ==> (r.Ok? <==> r'.Ok?))
  {
    hide Prepared, Forward, NonNested, AllVisible, Overlay, Effects, Missing, AllClaims;
    PermutedPrepared(d0, ops, perm);
    PreparedDisjoint(d0, ops);
    PermutedEffects(d0, ops, perm);
    PermutedMembers(ops, perm);
    PermutedParts(d0, ops, perm);
    PermutedParts(d0, perm, ops);
    SucceedsExactly(d0, ops, visible);
    SucceedsExactly(d0, perm, visible);
    var files := Overlay(d0.files, Effects(ops));
    if AllVisible(ops, files, visible) {
      PermutedVisible(perm, ops, files, visible);
    }
    if AllVisible(perm, files, visible) {
      PermutedVisible(ops, perm, files, visible);
    }
  }

  lemma PreparedDisjoint(d0: Disk, ops: seq<Op>)
    requires Prepared(d0, ops)
    ensures ClaimsDisjoint(ops)
  {
  }

  /** The change a transaction makes to the tree touches no path it does not report. */
  lemma ChangeIsReported(d0: Disk, ops: seq<Op>, visible: (Tree, Path) -> bool, order: seq<Path>, list: seq<Path>)
    requires Sane(d0) && Prepared(d0, ops) && AllRooted(ops) && Walks(order, ops)
    requires ApplyPatch(d0, ops, visible, order, list).Applied?
    ensures var r := ApplyPatch(d0, ops, visible, order, list);
            && r.disk.files == Overlay(d0.files, Effects(ops))
            && DiffOf(d0.files, r.disk.files).Keys <= r.changed
  {
    hide Forward, Prepared, Effects;
    SucceedsExactly(d0, ops, visible);
    PreparedDisjoint(d0, ops);
    EffectsAt(ops);
  }
}
