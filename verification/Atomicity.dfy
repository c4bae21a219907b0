/** A prepared transaction is carried out in full or not at all, unless it is exposed. */
module Atomicity {
  import opened Wrappers
  import opened GitModel
  import opened Disk

  /** What an operation leaves at the paths it claims. */
  function Effect(op: Op): map<Path, Option<Content>> {
    match op
    case Create(path, after) => map[path := Some(after)]
    case Update(path, _, after) => map[path := Some(after)]
    case Delete(path, _) => map[path := None]
    case Rename(from, to, before) => map[from := None, to := Some(before)]
  }

  /** Directories grow only by what was missing. */
  predicate DirsBetween(d0: Disk, ops: seq<Op>, d: Disk) {
    d0.dirs <= d.dirs <= d0.dirs + Missing(d0, ops)
  }

  /** The first m operations are carried out, the others have not begun. */
  ghost predicate Progress(d0: Disk, ops: seq<Op>, m: nat, d: Disk)
    requires m <= |ops|
  {
    && (forall j, p | 0 <= j < m && p in Claims(ops[j]) :: Get(d.files, p) == Effect(ops[j])[p])
    && (forall p | forall j | 0 <= j < m :: p !in Claims(ops[j]) :: Get(d.files, p) == Get(d0.files, p))
    && Sane(d) && DirsBetween(d0, ops, d)
  }

  // Directory creation.

  predicate NoFileOn(d: Disk, dir: Path) {
    forall m | 0 <= m <= |dir| :: dir[..m] !in d.files
  }

  lemma AddDir(d: Disk, dir: Path, k: nat)
    requires Sane(d) && k <= |dir| && dir[..k] !in d.files
    requires forall m | 0 <= m < k :: dir[..m] in d.dirs
    ensures Sane(d.(dirs := d.dirs + {dir[..k]}))
  {
    var d1 := d.(dirs := d.dirs + {dir[..k]});
    forall q, m | q in d1.dirs && 0 <= m <= |q|
      ensures q[..m] in d1.dirs
    {
      if q == dir[..k] {
        assert q[..m] == dir[..m];
        assert m == k ==> q[..m] == q;
      }
    }
  }

  lemma {:induction false} MkdirFacts(d: Disk, dir: Path, k: nat)
    requires Sane(d) && NoFileOn(d, dir) && k <= |dir| + 1
    requires forall m | 0 <= m < k :: dir[..m] in d.dirs
    ensures var r := MkdirFrom(d, dir, k);
            && r.disk.files == d.files && d.dirs <= r.disk.dirs && Sane(r.disk)
            && (forall q | q in r.disk.dirs && q !in d.dirs :: q <= dir)
            && (r.Ok? ==> forall m | 0 <= m <= |dir| :: dir[..m] in r.disk.dirs)
            && (d.left.None? ==> r.Ok? && r.disk.left.None?)
    decreases |dir| + 1 - k
  {
    if k <= |dir| {
      if dir[..k] in d.dirs {
        MkdirFacts(d, dir, k + 1);
      } else if Tick(d).Some? {
        AddDir(d, dir, k);
        var d1 := Tick(d).value;
        var d2 := d1.(dirs := d1.dirs + {dir[..k]});
        MkdirFacts(d2, dir, k + 1);
      }
    }
  }

  /** Where the directories are there already, nothing happens. */
  lemma {:induction false} MkdirNothing(d: Disk, dir: Path, k: nat)
    requires k <= |dir| + 1 && forall m | 0 <= m <= |dir| :: dir[..m] in d.dirs
    ensures MkdirFrom(d, dir, k) == Ok(d)
    decreases |dir| + 1 - k
  {
    if k <= |dir| {
      MkdirNothing(d, dir, k + 1);
    }
  }

  /** The directories of a name that is a file or a directory are all there, and nothing is in the way. */
  lemma ParentThere(d: Disk, p: Path)
    requires Sane(d) && p != [] && forall k | 0 <= k < |p| :: p[..k] in d.dirs
    ensures CreateParent(d, p) == Ok(d)
  {
    var dir := Parent(p);
    forall m | 0 <= m <= |dir|
      ensures dir[..m] in d.dirs
    {
      assert dir[..m] == p[..m];
    }
    MkdirNothing(d, dir, 0);
  }

  lemma CreateParentFacts(d: Disk, p: Path)
    requires Sane(d) && p != [] && !FileAbove(d, p)
    ensures var r := CreateParent(d, p);
            && r.disk.files == d.files && d.dirs <= r.disk.dirs && Sane(r.disk)
            && (forall q | q in r.disk.dirs && q !in d.dirs :: q < p)
            && (r.Ok? ==> forall k | 0 <= k < |p| :: p[..k] in r.disk.dirs)
            && (d.left.None? ==> r.Ok? && r.disk.left.None?)
  {
    var dir := Parent(p);
    forall m | 0 <= m <= |dir|
      ensures dir[..m] !in d.files
    {
      assert dir[..m] == p[..m];
    }
    MkdirFacts(d, dir, 0);
    var r := MkdirFrom(d, dir, 0);
    forall q | q in r.disk.dirs && q !in d.dirs
      ensures q < p
    {
      assert q <= dir && q == dir[..|q|] == p[..|q|];
    }
    if r.Ok? {
      forall k | 0 <= k < |p|
        ensures p[..k] in r.disk.dirs
      {
        assert p[..k] == dir[..k] && dir[..k] in r.disk.dirs;
      }
    }
  }

  lemma AddFile(d: Disk, p: Path, content: Content)
    requires Sane(d) && p != [] && p !in d.dirs && forall k | 0 <= k < |p| :: p[..k] in d.dirs
    ensures Sane(d.(files := d.files[p := content]))
  {
  }

  lemma DropFile(d: Disk, p: Path)
    requires Sane(d)
    ensures Sane(d.(files := d.files - {p}))
  {
  }

  // One operation.

  /** Whatever the outcome, files change only where claimed and directories grow only by what was missing. */
  ghost predicate Within(d0: Disk, ops: seq<Op>, d: Disk) {
    && (forall p | p !in AllClaims(ops) :: Get(d.files, p) == Get(d0.files, p))
    && Sane(d) && DirsBetween(d0, ops, d)
  }

  lemma ProgressWithin(d0: Disk, ops: seq<Op>, m: nat, d: Disk)
    requires m <= |ops| && Progress(d0, ops, m, d)
    ensures Within(d0, ops, d) && Sane(d) && DirsBetween(d0, ops, d)
  {
  }

  /** The claims of an operation that has not begun hold what they held at the start. */
  lemma Untouched(d0: Disk, ops: seq<Op>, m: nat, d: Disk)
    requires Prepared(d0, ops) && m < |ops| && Progress(d0, ops, m, d)
    ensures forall p | p in Claims(ops[m]) :: Get(d.files, p) == Get(d0.files, p)
  {
  }

  /** The files of an operation's effect, written over a tree. */
  ghost predicate Leaves(t: Tree, r: Tree, op: Op) {
    && (forall p | p in Claims(op) :: Get(r, p) == Effect(op)[p])
    && (forall p | p !in Claims(op) && (p in t || p in r) :: Get(r, p) == Get(t, p))
  }

  lemma LeavesElsewhere(t: Tree, r: Tree, op: Op, p: Path)
    requires Leaves(t, r, op) && p !in Claims(op)
    ensures Get(r, p) == Get(t, p)
  {
  }

  lemma Advance(d0: Disk, ops: seq<Op>, m: nat, d: Disk, r: Disk)
    requires Prepared(d0, ops) && m < |ops| && Progress(d0, ops, m, d)
    requires Leaves(d.files, r.files, ops[m]) && Sane(r) && DirsBetween(d0, ops, r)
    ensures Progress(d0, ops, m + 1, r)
  {
    forall j, p | 0 <= j < m + 1 && p in Claims(ops[j])
      ensures Get(r.files, p) == Effect(ops[j])[p]
    {
      if j < m {
        assert Claims(ops[j]) !! Claims(ops[m]);
        LeavesElsewhere(d.files, r.files, ops[m], p);
      }
    }
    forall p | forall j | 0 <= j < m + 1 :: p !in Claims(ops[j])
      ensures Get(r.files, p) == Get(d0.files, p)
    {
      assert p !in Claims(ops[m]);
      LeavesElsewhere(d.files, r.files, ops[m], p);
    }
  }

  /** Directories above a new name that did not exist are among the missing ones. */
  lemma NewDirsMissing(d0: Disk, ops: seq<Op>, m: nat, d: Disk, r: Disk)
    requires m < |ops| && NewPath(ops[m]).Some? && DirsBetween(d0, ops, d) && d.dirs <= r.dirs
    requires forall q | q in r.dirs && q !in d.dirs :: q < NewPath(ops[m]).value
    ensures DirsBetween(d0, ops, r)
  {
    var p := NewPath(ops[m]).value;
    forall q | q in r.dirs && q !in d0.dirs
      ensures q in Missing(d0, ops)
    {
      if q !in d.dirs {
        assert q == p[..|q|];
      }
    }
  }

  /** A file that was there at the start has its directories and nothing in the way. */
  lemma OldFileReachable(d0: Disk, ops: seq<Op>, d: Disk, p: Path)
    requires Sane(d0) && Sane(d) && DirsBetween(d0, ops, d) && p in d0.files
    ensures p != [] && CreateParent(d, p) == Ok(d)
  {
    forall k | 0 <= k < |p|
      ensures p[..k] in d.dirs
    {
    }
    ParentThere(d, p);
  }

  /** No name that was a file at the start ever becomes a directory. */
  lemma OldFileNoDir(d0: Disk, ops: seq<Op>, d: Disk, p: Path)
    requires Sane(d0) && Prepared(d0, ops) && DirsBetween(d0, ops, d) && p in d0.files
    ensures p !in d.dirs
  {
  }

  /** What is known of an operation's outcome: it is carried out, or little has changed. */
  ghost predicate Stepped(d0: Disk, ops: seq<Op>, m: nat, d: Disk, r: Res)
    requires m < |ops|
  {
    && (r.Ok? ==> Progress(d0, ops, m + 1, r.disk))
    && Within(d0, ops, r.disk)
    && d.dirs <= r.disk.dirs
    && (forall q | q in r.disk.dirs && q !in d.dirs :: NewPath(ops[m]).Some? && q < NewPath(ops[m]).value)
    && (r.disk.dirs != d.dirs || r.Ok? ==> NewPath(ops[m]).Some? ==>
          NewPath(ops[m]).value !in d.dirs && !FileAbove(d, NewPath(ops[m]).value))
  }

  lemma StepOld(d0: Disk, ops: seq<Op>, m: nat, d: Disk)
    requires Sane(d0) && Prepared(d0, ops) && m < |ops| && Progress(d0, ops, m, d)
    requires ops[m].Update? || ops[m].Delete?
    ensures Rooted(ops[m]) && Stepped(d0, ops, m, d, Exec(d, ops[m]))
    ensures d.left.None? ==> Exec(d, ops[m]).Ok? && Exec(d, ops[m]).disk.left.None?
  {
    var op := ops[m];
    assert PreparedOp(d0, op);
    Untouched(d0, ops, m, d);
    ProgressWithin(d0, ops, m, d);
    OldFileReachable(d0, ops, d, op.path);
    OldFileNoDir(d0, ops, d, op.path);
    var r := Exec(d, op);
    if r.Ok? {
      if op.Update? {
        AddFile(d, op.path, op.after);
      } else {
        DropFile(d, op.path);
      }
      assert Leaves(d.files, r.disk.files, op);
      Advance(d0, ops, m, d, r.disk);
      ProgressWithin(d0, ops, m + 1, r.disk);
    }
  }

  /** Where the new name is a directory by now, or a file is above it, nothing happens at all. */
  lemma StepBlocked(d0: Disk, ops: seq<Op>, m: nat, d: Disk)
    requires Prepared(d0, ops) && m < |ops| && Progress(d0, ops, m, d) && NewPath(ops[m]).Some? && Rooted(ops[m])
    requires NewPath(ops[m]).value in d.dirs || FileAbove(d, NewPath(ops[m]).value)
    ensures Exec(d, ops[m]) == Err(d)
  {
    var p := NewPath(ops[m]).value;
    if p in d.dirs && ops[m].Create? {
      forall k | 0 <= k < |p|
        ensures p[..k] in d.dirs
      {
      }
      ParentThere(d, p);
    }
  }

  /** A new name that is no directory and has no file above it can be reached. */
  lemma StepCreate(d0: Disk, ops: seq<Op>, m: nat, d: Disk)
    requires Sane(d0) && Prepared(d0, ops) && m < |ops| && Progress(d0, ops, m, d)
    requires ops[m].Create? && ops[m].path !in d.dirs && Rooted(ops[m]) && !FileAbove(d, ops[m].path)
    ensures Stepped(d0, ops, m, d, Exec(d, ops[m]))
    ensures d.left.None? ==> Exec(d, ops[m]).Ok? && Exec(d, ops[m]).disk.left.None?
  {
    var op, p := ops[m], ops[m].path;
    assert PreparedOp(d0, op);
    Untouched(d0, ops, m, d);
    ProgressWithin(d0, ops, m, d);
    CreateParentFacts(d, p);
    var d1 := CreateParent(d, p).disk;
    NewDirsMissing(d0, ops, m, d, d1);
    var r := Exec(d, op);
    assert p !in d1.dirs;
    if r.Ok? {
      AddFile(d1, p, op.after);
      assert Leaves(d.files, r.disk.files, op);
      Advance(d0, ops, m, d, r.disk);
      ProgressWithin(d0, ops, m + 1, r.disk);
    }
  }

  lemma SameFiles(d0: Disk, ops: seq<Op>, d: Disk, r: Disk)
    requires Within(d0, ops, d) && r.files == d.files && Sane(r) && DirsBetween(d0, ops, r)
    ensures Within(d0, ops, r)
  {
  }

  lemma StepRename(d0: Disk, ops: seq<Op>, m: nat, d: Disk)
    requires Sane(d0) && Prepared(d0, ops) && m < |ops| && Progress(d0, ops, m, d)
    requires ops[m].Rename? && ops[m].to !in d.dirs && Rooted(ops[m]) && !FileAbove(d, ops[m].to)
    ensures Stepped(d0, ops, m, d, Exec(d, ops[m]))
    ensures d.left.None? ==> Exec(d, ops[m]).Ok? && Exec(d, ops[m]).disk.left.None?
  {
    hide Progress, Within, DirsBetween, Sane, CreateParent;
    var op, p := ops[m], ops[m].to;
    assert PreparedOp(d0, op);
    Untouched(d0, ops, m, d);
    ProgressWithin(d0, ops, m, d);
    CreateParentFacts(d, p);
    var d1 := CreateParent(d, p).disk;
    NewDirsMissing(d0, ops, m, d, d1);
    SameFiles(d0, ops, d, d1);
    assert p !in d1.dirs && Get(d.files, op.from) == Some(op.before) && p !in d.files;
    if CreateParent(d, p).Ok? {
      AddFile(d1, p, op.before);
      var linked := LinkNew(d1, p, op.before);
      if linked.Ok? {
        HalfRename(d0, ops, m, d, linked.disk);
        DropFile(linked.disk, op.from);
        var r := RemoveFile(linked.disk, op.from);
        if r.Ok? {
          assert Leaves(d.files, r.disk.files, op);
          Advance(d0, ops, m, d, r.disk);
          ProgressWithin(d0, ops, m + 1, r.disk);
        }
      }
    }
  }

  /** A rename that got as far as the link has touched nothing but its own new name. */
  lemma HalfRename(d0: Disk, ops: seq<Op>, m: nat, d: Disk, r: Disk)
    requires m < |ops| && ops[m].Rename? && Within(d0, ops, d) && Sane(r) && DirsBetween(d0, ops, r)
    requires r.files == d.files[ops[m].to := ops[m].before]
    ensures Within(d0, ops, r)
  {
    assert ops[m].to in Claims(ops[m]);
    assert ops[m].to in AllClaims(ops);
  }

  /** Any operation, from any point of the transaction and with any fault. */
  lemma Step(d0: Disk, ops: seq<Op>, m: nat, d: Disk)
    requires Sane(d0) && Prepared(d0, ops) && m < |ops| && Progress(d0, ops, m, d)
    ensures Rooted(ops[m]) && Stepped(d0, ops, m, d, Exec(d, ops[m]))
    ensures d.left.None? && Exec(d, ops[m]).Err? ==>
              NewPath(ops[m]).Some? && (NewPath(ops[m]).value in d.dirs || FileAbove(d, NewPath(ops[m]).value))
    ensures d.left.None? ==> Exec(d, ops[m]).disk.left.None?
  {
    hide Progress, Stepped, Within, Exec, Sane, DirsBetween;
    assert PreparedOp(d0, ops[m]);
    if ops[m].Update? || ops[m].Delete? {
      StepOld(d0, ops, m, d);
    } else {
      var p := NewPath(ops[m]).value;
      if p in d.dirs || FileAbove(d, p) {
        StepBlocked(d0, ops, m, d);
        NothingStepped(d0, ops, m, d);
      } else if ops[m].Create? {
        StepCreate(d0, ops, m, d);
      } else {
        StepRename(d0, ops, m, d);
      }
    }
  }

  lemma NothingStepped(d0: Disk, ops: seq<Op>, m: nat, d: Disk)
    requires m < |ops| && Progress(d0, ops, m, d)
    ensures Stepped(d0, ops, m, d, Err(d))
  {
  }

  // All operations.

  /** No new name has become a directory. */
  predicate Clear(ops: seq<Op>, d: Disk) {
    forall i | 0 <= i < |ops| && NewPath(ops[i]).Some? :: NewPath(ops[i]).value !in d.dirs
  }

  function Cut(p: Path, k: nat): Path {
    if k <= |p| then p[..k] else p
  }

  lemma CutPrefix(q: Path, p: Path)
    ensures q < p ==> Cut(p, |q|) == q
  {
  }

  /** An operation that can take effect is not nested with any that already did. */
  lemma EffectMeansNonNested(d0: Disk, ops: seq<Op>, m: nat, d: Disk)
    requires m < |ops| && Progress(d0, ops, m, d) && NonNested(ops[..m])
    requires NewPath(ops[m]).Some? ==> NewPath(ops[m]).value !in d.dirs && !FileAbove(d, NewPath(ops[m]).value)
    ensures NonNested(ops[..m + 1])
  {
    var some := ops[..m + 1];
    forall i, j | 0 <= i < j < |some|
      ensures !Nested(some[i], some[j])
    {
      if j < m {
        assert !Nested(ops[..m][i], ops[..m][j]);
      } else if NewPath(some[i]).Some? && NewPath(some[j]).Some? {
        var q, p := NewPath(some[i]).value, NewPath(some[j]).value;
        assert some[i] == ops[i] && q in Claims(ops[i]);
        assert Get(d.files, q) == Effect(ops[i])[q];
        CutPrefix(q, p);
        CutPrefix(p, q);
      }
    }
  }

  lemma ClearStep(d0: Disk, ops: seq<Op>, m: nat, d: Disk, r: Res)
    requires m < |ops| && Progress(d0, ops, m, d) && NonNested(ops[..m]) && Stepped(d0, ops, m, d, r)
    requires Clear(ops, d) && !Exposed(ops)
    ensures Clear(ops, r.disk)
  {
    if r.disk.dirs != d.dirs {
      EffectMeansNonNested(d0, ops, m, d);
      forall i | 0 <= i < |ops| && NewPath(ops[i]).Some?
        ensures NewPath(ops[i]).value !in r.disk.dirs
      {
        if NewPath(ops[i]).value in r.disk.dirs {
          assert Above(ops[i], ops[m]);
          assert i < m ==> !Nested(ops[..m + 1][i], ops[..m + 1][m]);
          assert i > m ==> ExposedAt(ops, m, i);
          assert false;
        }
      }
    }
  }

  /** With nothing nested, every new name can be reached. */
  lemma NonNestedReachable(d0: Disk, ops: seq<Op>, m: nat, d: Disk)
    requires Sane(d0) && Prepared(d0, ops) && m < |ops| && Progress(d0, ops, m, d) && NonNested(ops)
    requires NewPath(ops[m]).Some?
    ensures NewPath(ops[m]).value !in d.dirs && !FileAbove(d, NewPath(ops[m]).value)
  {
    var p := NewPath(ops[m]).value;
    assert PreparedOp(d0, ops[m]) && Free(d0, p);
    forall i, k | 0 <= i < |ops| && NewPath(ops[i]).Some? && 0 <= k < |NewPath(ops[i]).value|
      ensures NewPath(ops[i]).value[..k] != p
    {
      assert NewPath(ops[i]).value[..k] == p ==> Above(ops[m], ops[i]);
      assert i < m ==> !Nested(ops[i], ops[m]);
      assert m < i ==> !Nested(ops[m], ops[i]);
    }
    forall k | 0 <= k < |p|
      ensures p[..k] !in d.files
    {
      NoFileAboveNew(d0, ops, m, d, p[..k]);
    }
  }

  lemma NoFileAboveNew(d0: Disk, ops: seq<Op>, m: nat, d: Disk, f: Path)
    requires Prepared(d0, ops) && m < |ops| && Progress(d0, ops, m, d) && NonNested(ops)
    requires NewPath(ops[m]).Some? && f < NewPath(ops[m]).value
    ensures f !in d.files
  {
    var p := NewPath(ops[m]).value;
    assert PreparedOp(d0, ops[m]) && Free(d0, p);
    assert p[..|f|] == f && f !in d0.files;
    if j :| 0 <= j < m && f in Claims(ops[j]) {
      ClaimedAndAbsent(d0, ops[j], f);
      assert false;
    } else {
      assert forall j | 0 <= j < m :: f !in Claims(ops[j]);
      assert Get(d.files, f) == Get(d0.files, f);
    }
  }

  lemma ClaimedAndAbsent(d0: Disk, op: Op, f: Path)
    requires PreparedOp(d0, op) && f in Claims(op) && f !in d0.files
    ensures NewPath(op) == Some(f)
  {
  }

  ghost predicate Ran(d0: Disk, ops: seq<Op>, d: Disk, r: Res) {
    && Within(d0, ops, r.disk)
    && (r.Ok? ==> Progress(d0, ops, |ops|, r.disk) && NonNested(ops))
    && (Clear(ops, d) && !Exposed(ops) ==> Clear(ops, r.disk))
    && (d.left.None? ==> r.disk.left.None?)
    && (d.left.None? && NonNested(ops) ==> r.Ok?)
  }

  lemma {:induction false} ExecRest(d0: Disk, ops: seq<Op>, m: nat, d: Disk)
    requires Sane(d0) && Prepared(d0, ops) && m <= |ops| && Progress(d0, ops, m, d) && NonNested(ops[..m])
    ensures AllRooted(ops[m..]) && Ran(d0, ops, d, ExecAll(d, ops[m..]))
    decreases |ops| - m
  {
    PreparedRooted(d0, ops);
    assert AllRooted(ops[m..]);
    if m == |ops| {
      ProgressWithin(d0, ops, m, d);
      assert ops[..m] == ops;
    } else {
      Step(d0, ops, m, d);
      var r := Exec(d, ops[m]);
      assert ops[m..][0] == ops[m] && ops[m..][1..] == ops[m + 1..];
      hide Exec, Progress, Within, Sane, Prepared, AllRooted;
      if Clear(ops, d) && !Exposed(ops) {
        ClearStep(d0, ops, m, d, r);
      }
      if NonNested(ops) && NewPath(ops[m]).Some? {
        NonNestedReachable(d0, ops, m, d);
      }
      if r.Ok? {
        EffectMeansNonNested(d0, ops, m, d);
        ExecRest(d0, ops, m + 1, r.disk);
      }
    }
  }

  predicate AllVisible(ops: seq<Op>, files: Tree, visible: (Tree, Path) -> bool) {
    forall i | 0 <= i < |ops| && ResultPath(ops[i]).Some? :: visible(files, ResultPath(ops[i]).value)
  }

  /** The visibility check looks, and changes nothing. */
  lemma {:induction false} CheckLooks(d: Disk, ops: seq<Op>, visible: (Tree, Path) -> bool)
    ensures var r := CheckVisible(d, ops, visible);
            && r.disk == d.(left := r.disk.left)
            && (r.Ok? ==> AllVisible(ops, d.files, visible))
            && (d.left.None? ==> r.disk.left.None? && (r.Ok? <==> AllVisible(ops, d.files, visible)))
    decreases |ops|
  {
    if ops != [] {
      var d1 := if ResultPath(ops[0]).None? || Tick(d).None? then d else Tick(d).value;
      CheckLooks(d1, ops[1..], visible);
      assert AllVisible(ops, d.files, visible) <==>
             (ResultPath(ops[0]).Some? ==> visible(d.files, ResultPath(ops[0]).value))
               && AllVisible(ops[1..], d.files, visible)
      by {
        assert forall i | 0 <= i < |ops| - 1 :: ops[1..][i] == ops[i + 1];
      }
    }
  }

  lemma SameButFuel(d0: Disk, ops: seq<Op>, d: Disk, r: Disk)
    requires Within(d0, ops, d) && r == d.(left := r.left)
    ensures Within(d0, ops, r) && (Clear(ops, d) ==> Clear(ops, r))
    ensures forall m | 0 <= m <= |ops| && Progress(d0, ops, m, d) :: Progress(d0, ops, m, r)
  {
  }

  lemma StartProgress(d0: Disk, ops: seq<Op>)
    requires Sane(d0) && Prepared(d0, ops)
    ensures Progress(d0, ops, 0, d0) && Clear(ops, d0) && NonNested(ops[..0])
  {
  }

  /** The forward pass: complete, or stopped somewhere within the claims. */
  lemma ForwardRuns(d0: Disk, ops: seq<Op>, visible: (Tree, Path) -> bool)
    requires Sane(d0) && Prepared(d0, ops)
    ensures AllRooted(ops)
    ensures var r := Forward(d0, ops, visible);
            && Within(d0, ops, r.disk) && (!Exposed(ops) ==> Clear(ops, r.disk))
            && (r.Ok? ==> Progress(d0, ops, |ops|, r.disk) && NonNested(ops) && AllVisible(ops, r.disk.files, visible))
            && (d0.left.None? && NonNested(ops) && AllVisible(ops, r.disk.files, visible) ==> r.Ok?)
  {
    StartProgress(d0, ops);
    PreparedRooted(d0, ops);
    ExecRest(d0, ops, 0, d0);
    assert ops[0..] == ops;
    var r := ExecAll(d0, ops);
    hide Progress, Within, ExecAll, CheckVisible, Clear, NonNested, AllVisible, Exposed;
    if r.Ok? {
      CheckLooks(r.disk, ops, visible);
      SameButFuel(d0, ops, r.disk, CheckVisible(r.disk, ops, visible).disk);
    }
  }
}
