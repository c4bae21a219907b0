/**
 What a failed transaction leaves behind when it is undone in the order of the snapshot map, last path first.
 An exposed transaction can be stranded, but only some of those can be stranded with changed files.
 */
module Leftovers {
  import opened Wrappers
  import opened GitModel
  import opened Disk
  import opened Atomicity
  import opened Undoing
  import opened Exposure
  import opened KeyOrder
  import opened Paths
  import opened Unicode

  /** Operation k can be carried out, and changes the content of the path. */
  predicate Alters(ops: seq<Op>, k: nat, c: Path) {
    && k < |ops| && NonNested(ops[..k + 1])
    && c in Claims(ops[k]) && Effect(ops[k])[c] != Preimages(ops[k])[c]
  }

  /**
   Operation j claims a directory of operation i, and operation k, which can be carried out like i, changes a
   path that is to be undone only after that directory has been met.
   */
  predicate LittersAt(ops: seq<Op>, i: nat, j: nat, k: nat, c: Path) {
    ExposedAt(ops, i, j) && Alters(ops, k, c) && NewPath(ops[j]).Some? && Before(c, NewPath(ops[j]).value)
  }

  ghost predicate Litters(ops: seq<Op>) {
    exists i: nat, j: nat, k: nat, c: Path :: LittersAt(ops, i, j, k, c)
  }

  // What a transaction has done when it fails.

  /** Operation i can be begun, and its new path lies below the directory. */
  predicate Opens(ops: seq<Op>, i: nat, q: Path) {
    i < |ops| && NonNested(ops[..i + 1]) && NewPath(ops[i]).Some? && q < NewPath(ops[i]).value
  }

  /** Changed files and new directories all come from operations that can be carried out. */
  ghost predicate Begun(d0: Disk, ops: seq<Op>, d: Disk) {
    && (forall p | Get(d.files, p) != Get(d0.files, p) :: exists k :: Alters(ops, k, p))
    && (forall q | q in d.dirs && q !in d0.dirs :: exists i :: Opens(ops, i, q))
  }

  /** Carried out or broken off, an operation puts nothing but its effect on its claims. */
  lemma ExecChanges(d: Disk, op: Op)
    requires Rooted(op) && Sane(d) && (op.Rename? ==> Get(d.files, op.from) == Some(op.before))
    ensures forall p | Get(Exec(d, op).disk.files, p) != Get(d.files, p) ::
              p in Claims(op) && Get(Exec(d, op).disk.files, p) == Effect(op)[p]
  {
    if !op.Delete? {
      var p := if op.Rename? then op.to else op.path;
      ParentFiles(d, p);
    }
  }

  lemma ParentFiles(d: Disk, p: Path)
    requires Sane(d) && p != []
    ensures CreateParent(d, p).disk.files == d.files
  {
    if !FileAbove(d, p) {
      CreateParentFacts(d, p);
    }
  }

  /** An operation that changes anything is nested with none before it. */
  lemma BegunMeansNonNested(d0: Disk, ops: seq<Op>, m: nat, d: Disk)
    requires Sane(d0) && Prepared(d0, ops) && m < |ops| && Progress(d0, ops, m, d) && NonNested(ops[..m])
             && Rooted(ops[m])
    ensures Exec(d, ops[m]) != Err(d) ==> NonNested(ops[..m + 1])
  {
    if NewPath(ops[m]).Some? && (NewPath(ops[m]).value in d.dirs || FileAbove(d, NewPath(ops[m]).value)) {
      StepBlocked(d0, ops, m, d);
    } else {
      EffectMeansNonNested(d0, ops, m, d);
    }
  }

  lemma BegunStep(d0: Disk, ops: seq<Op>, m: nat, d: Disk)
    requires Sane(d0) && Prepared(d0, ops) && m < |ops| && Progress(d0, ops, m, d) && NonNested(ops[..m])
    requires Begun(d0, ops, d)
    ensures Rooted(ops[m]) && Begun(d0, ops, Exec(d, ops[m]).disk)
  {
    hide Progress, Exec, NonNested, Prepared, Effect, Preimages, Sane;
    Step(d0, ops, m, d);
    ProgressWithin(d0, ops, m, d);
    BegunMeansNonNested(d0, ops, m, d);
    ClaimsBefore(d0, ops, m, d);
    ExecChanges(d, ops[m]);
    var r := Exec(d, ops[m]).disk;
    forall p | Get(r.files, p) != Get(d0.files, p)
      ensures exists k :: Alters(ops, k, p)
    {
      if Get(r.files, p) != Get(d.files, p) {
        assert Alters(ops, m, p);
      }
    }
    forall q | q in r.dirs && q !in d0.dirs
      ensures exists i :: Opens(ops, i, q)
    {
      if q !in d.dirs {
        assert Opens(ops, m, q);
      }
    }
  }

  lemma ClaimsBefore(d0: Disk, ops: seq<Op>, m: nat, d: Disk)
    requires Prepared(d0, ops) && m < |ops| && Progress(d0, ops, m, d)
    ensures forall p | p in Claims(ops[m]) ::
              p in Preimages(ops[m]) && Preimages(ops[m])[p] == Get(d0.files, p) == Get(d.files, p)
    ensures ops[m].Rename? ==> Get(d.files, ops[m].from) == Some(ops[m].before)
  {
    assert PreparedOp(d0, ops[m]);
    Untouched(d0, ops, m, d);
    PreimageOf(d0, ops[m]);
  }

  lemma {:induction false} BegunRest(d0: Disk, ops: seq<Op>, m: nat, d: Disk)
    requires Sane(d0) && Prepared(d0, ops) && m <= |ops| && Progress(d0, ops, m, d) && NonNested(ops[..m])
    requires Begun(d0, ops, d)
    ensures AllRooted(ops[m..]) && Begun(d0, ops, ExecAll(d, ops[m..]).disk)
    decreases |ops| - m
  {
    PreparedRooted(d0, ops);
    assert AllRooted(ops[m..]);
    if m < |ops| {
      Step(d0, ops, m, d);
      BegunStep(d0, ops, m, d);
      var r := Exec(d, ops[m]);
      assert ops[m..][0] == ops[m] && ops[m..][1..] == ops[m + 1..];
      hide Exec, Progress, Within, Sane, Prepared, AllRooted, Begun;
      if r.Ok? {
        EffectMeansNonNested(d0, ops, m, d);
        BegunRest(d0, ops, m + 1, r.disk);
      }
    }
  }

  lemma ForwardBegun(d0: Disk, ops: seq<Op>, visible: (Tree, Path) -> bool)
    requires Sane(d0) && Prepared(d0, ops)
    ensures AllRooted(ops) && Begun(d0, ops, Forward(d0, ops, visible).disk)
  {
    hide Sane, Prepared, Progress, ExecAll, CheckVisible, Begun;
    StartProgress(d0, ops);
    PreparedRooted(d0, ops);
    assert Begun(d0, ops, d0) by { NothingBegun(d0, ops); }
    BegunRest(d0, ops, 0, d0);
    assert ops[0..] == ops;
    var r := ExecAll(d0, ops);
    if r.Ok? {
      CheckLooks(r.disk, ops, visible);
      BegunButFuel(d0, ops, r.disk, CheckVisible(r.disk, ops, visible).disk);
    }
  }

  lemma NothingBegun(d0: Disk, ops: seq<Op>)
    ensures Begun(d0, ops, d0)
  {
  }

  lemma BegunButFuel(d0: Disk, ops: seq<Op>, d: Disk, r: Disk)
    requires Begun(d0, ops, d) && r == d.(left := r.left)
    ensures Begun(d0, ops, r)
  {
  }

  // What undoing does not reach.

  /** A file that undoing leaves changed lies behind the directory at which it stopped. */
  lemma StoppedAt(d0: Disk, ops: seq<Op>, d: Disk, order: seq<Path>, c: Path) returns (q: Path)
    requires Sane(d0) && Prepared(d0, ops) && Within(d0, ops, d) && d.left.None?
    requires Walks(order, ops) && LastFirst(order)
    requires Get(Rollback(d, order, Snapshots(ops)).disk.files, c) != Get(d0.files, c)
    ensures Rollback(d, order, Snapshots(ops)).Err?
    ensures q in AllClaims(ops) && q in d.dirs && Before(c, q) && Get(d.files, c) != Get(d0.files, c)
  {
    hide Sane, Prepared, Rollback, Snapshots, AllClaims, Before;
    SnapshotsArePreimages(d0, ops);
    var n := RollbackStops(d0, ops, d, order);
    assert order[..|order|] == order;
    assert c !in order[..n] && Get(d.files, c) != Get(d0.files, c);
    assert c in order;
    var b :| 0 <= b < |order| && order[b] == c;
    assert forall a | 0 <= a < n :: order[..n][a] == order[a];
    assert n <= b;
    q := order[n];
    var j := ClaimedDirectory(d0, ops, d, q);
    assert Get(d.files, q) == Get(d0.files, q);
  }

  lemma {:induction false} RemovesNoFile(d: Disk, list: seq<Path>)
    ensures RemoveDirs(d, list).disk.files == d.files
    decreases |list|
  {
    if list != [] && list[0] in d.dirs {
      RemovesNoFile(d.(dirs := d.dirs - {list[0]}), list[1..]);
    } else if list != [] {
      RemovesNoFile(d, list[1..]);
    }
  }

  /** A directory that a later operation claims exposes the operation that opened it. */
  lemma OpenedIsExposed(ops: seq<Op>, i: nat, j: nat, q: Path)
    requires Opens(ops, i, q) && j < |ops| && NewPath(ops[j]) == Some(q)
    ensures ExposedAt(ops, i, j)
  {
    var some := ops[..i + 1];
    assert some[i] == ops[i] && (j < i ==> some[j] == ops[j] && !Nested(some[j], some[i]));
  }

  /** A failure that leaves files changed tells of operations that can be left behind. */
  lemma ChangedMeansLitters(d0: Disk, ops: seq<Op>, visible: (Tree, Path) -> bool, order: seq<Path>, list: seq<Path>)
    requires Sane(d0) && Prepared(d0, ops) && Walks(order, ops) && LastFirst(order)
    ensures AllRooted(ops)
    ensures var o := ApplyPatch(d0, ops, visible, order, list);
            !o.Applied? && o.disk.files != d0.files ==> o.Stranded? && Litters(ops)
  {
    hide Sane, Prepared, Forward, Rollback, RemoveDirs, LastFirst, Snapshots, Before, AllClaims, Begun, Within, Alters;
    ForwardRuns(d0, ops, visible);
    ForwardBegun(d0, ops, visible);
    var o := ApplyPatch(d0, ops, visible, order, list);
    if !o.Applied? && o.disk.files != d0.files {
      var r := Forward(d0, ops, visible).disk;
      var d := r.(left := None);
      SameButFuel(d0, ops, r, d);
      BegunButFuel(d0, ops, r, d);
      var undone := Rollback(d, order, Snapshots(ops)).disk;
      RemovesNoFile(undone, list);
      var c := SomeChange(d0.files, undone.files);
      var q := StoppedAt(d0, ops, d, order, c);
      FromBegun(d0, ops, d, q, c);
    }
  }

  lemma SomeChange(a: Tree, b: Tree) returns (p: Path)
    requires a != b
    ensures Get(b, p) != Get(a, p)
  {
    if forall x :: Get(a, x) == Get(b, x) {
      TreeExt(a, b);
      assert false;
    }
    p :| Get(a, p) != Get(b, p);
  }

  lemma FromBegun(d0: Disk, ops: seq<Op>, d: Disk, q: Path, c: Path)
    requires Sane(d0) && Prepared(d0, ops) && Within(d0, ops, d) && Begun(d0, ops, d)
    requires q in AllClaims(ops) && q in d.dirs && Before(c, q) && Get(d.files, c) != Get(d0.files, c)
    ensures Litters(ops)
  {
    hide Sane, Prepared, Within, AllClaims, Before, Alters, Opens;
    var j := ClaimedDirectory(d0, ops, d, q);
    var i :| Opens(ops, i, q);
    var k :| Alters(ops, k, c);
    OpenedIsExposed(ops, i, j, q);
    assert LittersAt(ops, i, j, k, c);
  }

  // The failure that leaves something.

  predicate AllPlain(ops: seq<Op>) {
    forall p | p in AllClaims(ops) :: Plain(p)
  }

  /** Whatever lies behind a directory on the walk is not undone. */
  lemma BehindStays(d0: Disk, ops: seq<Op>, d: Disk, order: seq<Path>, q: Path, c: Path)
    requires Sane(d0) && Prepared(d0, ops) && Within(d0, ops, d) && d.left.None?
    requires Walks(order, ops) && LastFirst(order) && q in order && q in d.dirs && Before(c, q) && !Before(q, c)
    ensures var r := Rollback(d, order, Snapshots(ops)); r.Err? && Get(r.disk.files, c) == Get(d.files, c)
  {
    hide Sane, Prepared, Within, Rollback, Snapshots, Before;
    var n := RollbackStops(d0, ops, d, order);
    var a :| 0 <= a < |order| && order[a] == q;
    assert n <= a;
    forall b | 0 <= b < n
      ensures order[..n][b] != c
    {
      assert Before(order[a], order[b]);
    }
  }

  /** After the first operations, stopped there by the device. */
  lemma StoppedAfter(d0: Disk, ops: seq<Op>, m: nat, d: Disk)
    requires m <= |ops| && Progress(d0, ops[..m], m, d)
    ensures Within(d0, ops, d)
  {
    var some := ops[..m];
    ProgressWithin(d0, some, m, d);
    forall p | p !in AllClaims(ops)
      ensures p !in AllClaims(some)
    {
      assert forall i | 0 <= i < m :: some[i] == ops[i];
    }
    assert forall i | 0 <= i < m :: some[i] == ops[i];
  }

  lemma Altered(d0: Disk, ops: seq<Op>, m: nat, k: nat, c: Path, d: Disk)
    requires Prepared(d0, ops) && k < m <= |ops| && Progress(d0, ops[..m], m, d) && Alters(ops, k, c)
    ensures Get(d.files, c) != Get(d0.files, c)
  {
    assert PreparedOp(d0, ops[k]);
    PreimageOf(d0, ops[k]);
    assert ops[..m][k] == ops[k];
  }

  /** Both operations have been carried out, and the directory has not been claimed yet. */
  lemma BothRun(ops: seq<Op>, i: nat, j: nat, k: nat, c: Path) returns (m: nat)
    requires ExposedAt(ops, i, j) && Alters(ops, k, c)
    ensures i < j < |ops| && i < m && k < m < |ops| && NonNested(ops[..m])
  {
    m := if i < k then k + 1 else i + 1;
    if m > j {
      var some := ops[..k + 1];
      assert some[i] == ops[i] && some[j] == ops[j] && Nested(some[i], some[j]);
      assert false;
    }
  }

  /** With the right budget the device fails when both have been carried out. */
  lemma LittersMeansChanged(d0: Disk, ops: seq<Op>, visible: (Tree, Path) -> bool, order: seq<Path>, list: seq<Path>)
    returns (n: nat, c: Path)
    requires Sane(d0) && Prepared(d0, ops) && AllPlain(ops) && Walks(order, ops) && LastFirst(order) && Litters(ops)
    ensures AllRooted(ops)
    ensures var o := ApplyPatch(Budget(d0, n), ops, visible, order, list);
            o.Stranded? && Get(o.disk.files, c) != Get(d0.files, c)
  {
    hide Sane, Prepared, Progress, ExecAll, CheckVisible, Rollback, RemoveDirs, LastFirst, Snapshots, Before, AllClaims,
         Within, Alters, NonNested, Plain, ExposedAt;
    var i: nat, j: nat, k: nat, x: Path :| LittersAt(ops, i, j, k, x);
    c := x;
    var m := BothRun(ops, i, j, k, c);
    var q := NewPath(ops[j]).value;
    n := PrefixFails(d0, ops, m);
    var sound := d0.(left := None);
    var d := ExecAll(Budget(d0, n), ops).disk.(left := None);
    AnyBudget(d0, None, ops);
    DirectoryMade(sound, ops, i, j, m, d);
    StoppedAfter(sound, ops, m, d);
    Altered(sound, ops, m, k, c, d);
    ClaimedBoth(sound, ops, i, j, k, c);
    BeforeOnce(c, q);
    BehindStays(sound, ops, d, order, q, c);
  }

  lemma ClaimedBoth(d0: Disk, ops: seq<Op>, i: nat, j: nat, k: nat, c: Path)
    requires Prepared(d0, ops) && ExposedAt(ops, i, j) && Alters(ops, k, c) && NewPath(ops[j]).Some?
    ensures c in AllClaims(ops) && NewPath(ops[j]).value in AllClaims(ops) && NewPath(ops[j]).value in Snapshots(ops)
  {
    ExposedClaim(d0, ops, i, j);
    assert NewPath(ops[j]).value in Claims(ops[j]);
  }

  // The smallest exposed list, and the smallest that leaves something.

  /** Creating a/b and then a is exposed, and yet no failure leaves a file: a/b is undone before a is met. */
  lemma NestedCreatesLeaveNothing()
    ensures var ops := [Create(["a", "b"], "x"), Create(["a"], "y")]; Exposed(ops) && !Litters(ops)
  {
    var ops := [Create(["a", "b"], "x"), Create(["a"], "y")];
    NestedCreatesAreExposed();
    AboveIsBefore(["a"], ["a", "b"]);
    assert ["a", "b"][..1] == ["a"];
    assert ops[..2] == ops && Nested(ops[0], ops[1]);
    assert forall k: nat, c: Path | Alters(ops, k, c) :: k == 0 && c == ["a", "b"];
    assert forall i: nat, j: nat | ExposedAt(ops, i, j) :: j == 1;
  }

  lemma OneName(name: string)
    requires name != []
    ensures Key([name]) == Encode(Codes(name))
  {
    assert Segments([name]) == [Codes(name)];
  }

  lemma ZeroBeforeA()
    ensures Before(["0"], ["a"])
  {
    OneName("0");
    OneName("a");
    AsciiIsItself(Codes("0"));
    AsciiIsItself(Codes("a"));
  }

  lemma ThreePrepared(ops: seq<Op>)
    requires ops == [Create(["0"], "x"), Create(["a", "b"], "y"), Create(["a"], "z")]
    ensures Sane(Disk(map[], {[]}, None)) && Prepared(Disk(map[], {[]}, None), ops) && AllPlain(ops)
  {
  }

  /** With another file created first, whose name sorts before a, a failure leaves that file. */
  lemma ThreeCreatesLeaveOne()
    ensures var d0 := Disk(map[], {[]}, None);
            var ops := [Create(["0"], "x"), Create(["a", "b"], "y"), Create(["a"], "z")];
            Sane(d0) && Prepared(d0, ops) && AllPlain(ops) && Litters(ops)
  {
    hide Before, Sane, Prepared, AllPlain;
    var ops := [Create(["0"], "x"), Create(["a", "b"], "y"), Create(["a"], "z")];
    ThreePrepared(ops);
    ZeroBeforeA();
    assert ["a", "b"][..1] == ["a"];
    assert ops[..2] == [ops[0], ops[1]] && ops[..1] == [ops[0]];
    assert LittersAt(ops, 1, 2, 0, ["0"]);
  }
}
