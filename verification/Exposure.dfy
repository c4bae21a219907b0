/** An exposed transaction can be stranded: some failure cannot be undone.  With Undoing, exactly those. */
module Exposure {
  import opened Wrappers
  import opened GitModel
  import opened Disk
  import opened Atomicity
  import opened Undoing

  function Budget(d: Disk, n: nat): Disk {
    d.(left := Some(n))
  }

  /** A step that succeeds on a sound device does the same on a budget that suffices. */
  predicate SameOn(r: Res, budgeted: Res, e: nat) {
    r.Ok? && budgeted == Ok(Budget(r.disk, e))
  }

  lemma {:induction false} MkdirBudget(d: Disk, dir: Path, k: nat, e: nat) returns (n: nat)
    requires d.left.None? && k <= |dir| + 1
    ensures SameOn(MkdirFrom(d, dir, k), MkdirFrom(Budget(d, n), dir, k), e)
    decreases |dir| + 1 - k
  {
    if k == |dir| + 1 {
      n := e;
    } else if dir[..k] in d.dirs {
      n := MkdirBudget(d, dir, k + 1, e);
    } else {
      n := MkdirBudget(d.(dirs := d.dirs + {dir[..k]}), dir, k + 1, e);
      n := n + 1;
    }
  }

  lemma ParentBudget(d: Disk, p: Path, e: nat) returns (n: nat)
    requires d.left.None? && p != [] && CreateParent(d, p).Ok?
    ensures SameOn(CreateParent(d, p), CreateParent(Budget(d, n), p), e)
  {
    n := MkdirBudget(d, Parent(p), 0, e);
    assert FileAbove(Budget(d, n), p) == FileAbove(d, p);
  }

  lemma ExecBudget(d: Disk, op: Op, e: nat) returns (n: nat)
    requires d.left.None? && Rooted(op) && Exec(d, op).Ok?
    ensures SameOn(Exec(d, op), Exec(Budget(d, n), op), e)
  {
    hide CreateParent;
    match op
    case Create(path, _) => n := ParentBudget(d, path, e + 1);
    case Update(path, _, _) => n := ParentBudget(d, path, e + 1);
    case Delete(_, _) => n := e + 1;
    case Rename(_, to, _) => n := ParentBudget(d, to, e + 2);
  }

  lemma {:induction false} ExecAllBudget(d: Disk, ops: seq<Op>, e: nat) returns (n: nat)
    requires d.left.None? && AllRooted(ops) && ExecAll(d, ops).Ok?
    ensures SameOn(ExecAll(d, ops), ExecAll(Budget(d, n), ops), e)
    decreases |ops|
  {
    if ops == [] {
      n := e;
    } else {
      hide Exec;
      assert Rooted(ops[0]);
      SoundStays(d, ops[0]);
      n := ExecAllBudget(Exec(d, ops[0]).disk, ops[1..], e);
      n := ExecBudget(d, ops[0], n);
    }
  }

  lemma {:induction false} MkdirSound(d: Disk, dir: Path, k: nat)
    requires d.left.None? && k <= |dir| + 1
    ensures MkdirFrom(d, dir, k).disk.left.None?
    decreases |dir| + 1 - k
  {
    if k <= |dir| {
      MkdirSound(if dir[..k] in d.dirs then d else d.(dirs := d.dirs + {dir[..k]}), dir, k + 1);
    }
  }

  lemma SoundStays(d: Disk, op: Op)
    requires d.left.None? && Rooted(op)
    ensures Exec(d, op).disk.left.None?
  {
    if !op.Delete? {
      var p := if op.Rename? then op.to else op.path;
      MkdirSound(d, Parent(p), 0);
    }
  }

  lemma {:induction false} ExecAppend(d: Disk, a: seq<Op>, b: seq<Op>)
    requires AllRooted(a) && AllRooted(b) && ExecAll(d, a).Ok?
    ensures AllRooted(a + b) && ExecAll(d, a + b) == ExecAll(ExecAll(d, a).disk, b)
    decreases |a|
  {
    if a == [] {
      assert a + b == b;
    } else {
      hide Exec, Rooted;
      assert (a + b)[0] == a[0] && (a + b)[1..] == a[1..] + b;
      ExecAppend(Exec(d, a[0]).disk, a[1..], b);
    }
  }

  /** On an exhausted budget the next operation fails, having created nothing. */
  lemma {:induction false} MkdirExhausted(d: Disk, dir: Path, k: nat)
    requires d.left == Some(0) && k <= |dir| + 1
    ensures MkdirFrom(d, dir, k).disk == d
    decreases |dir| + 1 - k
  {
    if k <= |dir| && dir[..k] in d.dirs {
      MkdirExhausted(d, dir, k + 1);
    }
  }

  lemma ExecExhausted(d: Disk, op: Op)
    requires d.left == Some(0) && Rooted(op)
    ensures Exec(d, op) == Err(d)
  {
    if !op.Delete? {
      var p := if op.Rename? then op.to else op.path;
      MkdirExhausted(d, Parent(p), 0);
    }
  }

  /** Operations that are not nested succeed on a sound device. */
  lemma PrefixRuns(d0: Disk, ops: seq<Op>, m: nat)
    requires Sane(d0) && Prepared(d0, ops) && d0.left.None? && m <= |ops| && NonNested(ops[..m])
    ensures AllRooted(ops[..m])
    ensures var r := ExecAll(d0, ops[..m]); r.Ok? && Progress(d0, ops[..m], m, r.disk)
  {
    PreparedPrefix(d0, ops, m);
    StartProgress(d0, ops[..m]);
    ExecRest(d0, ops[..m], 0, d0);
    assert ops[..m][0..] == ops[..m];
  }

  /** Once the exposing operation is carried out, the later claim is a directory. */
  lemma DirectoryMade(d0: Disk, ops: seq<Op>, i: nat, j: nat, m: nat, d: Disk)
    requires ExposedAt(ops, i, j) && i < m <= |ops| && Progress(d0, ops[..m], m, d)
    ensures NewPath(ops[j]).Some? && NewPath(ops[j]).value in d.dirs
  {
    var some := ops[..m];
    var p, q := NewPath(ops[i]).value, NewPath(ops[j]).value;
    assert some[i] == ops[i] && p in Claims(some[i]);
    assert Get(d.files, p) == Effect(some[i])[p];
    assert p[..|q|] == q;
  }

  lemma PreparedPrefix(d0: Disk, ops: seq<Op>, m: nat)
    requires Prepared(d0, ops) && m <= |ops|
    ensures Prepared(d0, ops[..m])
  {
  }

  lemma AnyBudget(d0: Disk, left: Option<nat>, ops: seq<Op>)
    requires Sane(d0) && Prepared(d0, ops)
    ensures Sane(d0.(left := left)) && Prepared(d0.(left := left), ops)
    ensures Missing(d0.(left := left), ops) == Missing(d0, ops)
  {
  }

  /** With the right budget the device fails just after the first operations. */
  lemma PrefixFails(d0: Disk, ops: seq<Op>, m: nat) returns (n: nat)
    requires Sane(d0) && Prepared(d0, ops) && m < |ops| && NonNested(ops[..m])
    ensures AllRooted(ops)
    ensures var r := ExecAll(Budget(d0, n), ops);
            r.Err? && Progress(d0.(left := None), ops[..m], m, r.disk.(left := None))
  {
    hide Exec, ExecAll, Sane, Prepared, AllRooted, Progress;
    PreparedRooted(d0, ops);
    var sound := d0.(left := None);
    AnyBudget(d0, None, ops);
    var a, b := ops[..m], ops[m..];
    assert a + b == ops;
    RootedParts(ops, m);
    PrefixRuns(sound, ops, m);
    SoundRun(sound, a);
    n := ExecAllBudget(sound, a, 0);
    assert Budget(sound, n) == Budget(d0, n);
    var d := ExecAll(Budget(d0, n), a).disk;
    ExecAppend(Budget(d0, n), a, b);
    ExhaustedRest(d, b);
  }

  lemma {:induction false} SoundRun(d: Disk, ops: seq<Op>)
    requires d.left.None? && AllRooted(ops)
    ensures ExecAll(d, ops).disk.left.None?
    decreases |ops|
  {
    hide Exec;
    if ops != [] {
      assert Rooted(ops[0]);
      SoundStays(d, ops[0]);
      if Exec(d, ops[0]).Ok? {
        SoundRun(Exec(d, ops[0]).disk, ops[1..]);
      }
    }
  }

  lemma RootedParts(ops: seq<Op>, m: nat)
    requires AllRooted(ops) && m <= |ops|
    ensures AllRooted(ops[..m]) && AllRooted(ops[m..])
  {
  }

  lemma ExhaustedRest(d: Disk, ops: seq<Op>)
    requires d.left == Some(0) && ops != [] && AllRooted(ops)
    ensures ExecAll(d, ops) == Err(d)
  {
    assert Rooted(ops[0]);
    ExecExhausted(d, ops[0]);
  }

  /** A device that fails at the wrong moment strands an exposed transaction, whatever the order of undoing. */
  lemma ExposedStrands(d0: Disk, ops: seq<Op>, visible: (Tree, Path) -> bool, order: seq<Path>, list: seq<Path>)
    returns (n: nat)
    requires Sane(d0) && Prepared(d0, ops) && Exposed(ops) && Walks(order, ops)
    ensures AllRooted(ops) && ApplyPatch(Budget(d0, n), ops, visible, order, list).Stranded?
  {
    hide ExecAll, CheckVisible, Sane, Prepared, Rollback, RemoveDirs, AllRooted, Snapshots, Progress, NonNested;
    var i, j :| 0 <= i < j < |ops| && ExposedAt(ops, i, j);
    n := PrefixFails(d0, ops, i + 1);
    var d := ExecAll(Budget(d0, n), ops).disk;
    DirectoryMade(d0.(left := None), ops, i, j, i + 1, d.(left := None));
    ExposedClaim(d0, ops, i, j);
    RollbackStrands(d.(left := None), order, Snapshots(ops), NewPath(ops[j]).value);
  }

  lemma ExposedClaim(d0: Disk, ops: seq<Op>, i: nat, j: nat)
    requires Prepared(d0, ops) && i < j < |ops| && ExposedAt(ops, i, j)
    ensures NewPath(ops[j]).Some? && NewPath(ops[j]).value in Snapshots(ops)
  {
    var q := NewPath(ops[j]).value;
    assert q in Claims(ops[j]) && q in AllClaims(ops);
    SnapshotsArePreimages(d0, ops);
  }

  ghost predicate AlwaysUndoable(d0: Disk, ops: seq<Op>, order: seq<Path>, list: seq<Path>)
    requires AllRooted(ops) && Walks(order, ops)
  {
    forall left: Option<nat>, visible: (Tree, Path) -> bool ::
      !ApplyPatch(d0.(left := left), ops, visible, order, list).Stranded?
  }

  /** The exact condition: every failure of a prepared transaction can be undone unless it is exposed. */
  lemma UndoableIffNotExposed(d0: Disk, ops: seq<Op>, order: seq<Path>, list: seq<Path>)
    requires Sane(d0) && Prepared(d0, ops)
    requires Walks(order, ops) && DeepestFirst(list, Missing(d0, ops))
    ensures AllRooted(ops) && (AlwaysUndoable(d0, ops, order, list) <==> !Exposed(ops))
  {
    PreparedRooted(d0, ops);
    if Exposed(ops) {
      var everything := (t: Tree, p: Path) => true;
      var n := ExposedStrands(d0, ops, everything, order, list);
      assert ApplyPatch(d0.(left := Some(n)), ops, everything, order, list).Stranded?;
    } else {
      forall left: Option<nat>, visible: (Tree, Path) -> bool
        ensures !ApplyPatch(d0.(left := left), ops, visible, order, list).Stranded?
      {
        AnyBudget(d0, left, ops);
        AtomicOrExposed(d0.(left := left), ops, visible, order, list);
      }
    }
  }

  /** The smallest exposed transaction that passes preparation: create a/b, then a, in an empty workspace. */
  lemma NestedCreatesAreExposed()
    ensures var d0, ops := Disk(map[], {[]}, None), [Create(["a", "b"], "x"), Create(["a"], "y")];
            Sane(d0) && Prepared(d0, ops) && Exposed(ops)
  {
    var ops := [Create(["a", "b"], "x"), Create(["a"], "y")];
    assert ops[..1] == [ops[0]];
    assert ["a", "b"][..1] == ["a"];
    assert ExposedAt(ops, 0, 1);
  }
}
