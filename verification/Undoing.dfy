/** A failed transaction is undone exactly, unless it is exposed. */
module Undoing {
  import opened Wrappers
  import opened GitModel
  import opened Disk
  import opened Atomicity

  /** `order` walks the snapshot map: every key, and nothing else. */
  predicate Walks(order: seq<Path>, ops: seq<Op>) {
    && (forall i | 0 <= i < |order| :: order[i] in Snapshots(ops) && order[i] != [])
    && (forall p | p in Snapshots(ops) :: p in order)
  }

  /** The created directories, sorted by falling number of components. */
  predicate DeepestFirst(list: seq<Path>, created: set<Path>) {
    && (forall i | 0 <= i < |list| :: list[i] in created)
    && (forall q | q in created :: q in list)
    && (forall i, j | 0 <= i < j < |list| :: |list[i]| >= |list[j]|)
  }

  lemma ClaimsOfLast(ops: seq<Op>)
    requires ops != []
    ensures AllClaims(ops) == AllClaims(ops[..|ops| - 1]) + Claims(ops[|ops| - 1])
  {
  }

  lemma PreimageOf(d0: Disk, op: Op)
    requires PreparedOp(d0, op)
    ensures Preimages(op).Keys == Claims(op)
    ensures forall p | p in Claims(op) :: Preimages(op)[p] == Get(d0.files, p)
  {
  }

  lemma {:induction false} SnapshotsArePreimages(d0: Disk, ops: seq<Op>)
    requires Prepared(d0, ops)
    ensures Snapshots(ops).Keys == AllClaims(ops)
    ensures forall p | p in Snapshots(ops) :: Snapshots(ops)[p] == Get(d0.files, p)
  {
    if ops != [] {
      hide PreparedOp, Preimages, Claims, AllClaims;
      var n := |ops| - 1;
      SnapshotsArePreimages(d0, ops[..n]);
      PreimageOf(d0, ops[n]);
      ClaimsOfLast(ops);
    } else {
      assert AllClaims([]) == {};
    }
  }

  /** A claimed path is a file from the start or the new name of an operation. */
  lemma ClaimedPath(d0: Disk, ops: seq<Op>, p: Path) returns (i: nat)
    requires Prepared(d0, ops) && p in AllClaims(ops)
    ensures i < |ops| && PreparedOp(d0, ops[i]) && p in Claims(ops[i]) && p != []
    ensures p in d0.files || NewPath(ops[i]) == Some(p)
  {
    i :| 0 <= i < |ops| && p in Claims(ops[i]);
    assert PreparedOp(d0, ops[i]);
    if p !in d0.files {
      ClaimedAndAbsent(d0, ops[i], p);
    }
  }

  // Restoring the files.

  /** While files are restored the directories stand still. */
  ghost predicate Restored(d0: Disk, d: Disk, r: Disk, paths: seq<Path>) {
    && r.dirs == d.dirs && r.left.None?
    && (forall p | p in paths :: Get(r.files, p) == Get(d0.files, p))
    && (forall p | p !in paths :: Get(r.files, p) == Get(d.files, p))
  }

  lemma RestoreOneWorks(d0: Disk, ops: seq<Op>, d: Disk, p: Path)
    requires Sane(d0) && Prepared(d0, ops) && Within(d0, ops, d) && d.left.None?
    requires p in AllClaims(ops) && p !in d.dirs
    ensures p != [] && RestoreOne(d, p, Get(d0.files, p)).Ok?
    ensures var r := RestoreOne(d, p, Get(d0.files, p)).disk;
            Restored(d0, d, r, [p]) && Within(d0, ops, r) && r.dirs == d.dirs && r.left.None?
  {
    var i := ClaimedPath(d0, ops, p);
    var d1 := d.(files := d.files - {p});
    DropFile(d, p);
    if p in d0.files {
      OldFileReachable(d0, ops, d1, p);
      AddFile(d1, p, d0.files[p]);
    }
  }

  lemma RestoredThen(d0: Disk, d: Disk, mid: Disk, r: Disk, p: Path, rest: seq<Path>)
    requires Restored(d0, d, mid, [p]) && Restored(d0, mid, r, rest)
    ensures Restored(d0, d, r, [p] + rest)
  {
  }

  lemma NothingRestored(d0: Disk, d: Disk)
    requires d.left.None?
    ensures Restored(d0, d, d, [])
  {
  }

  lemma MeetsDirectory(d: Disk, p: Path, before: Option<Content>)
    requires p != [] && p in d.dirs
    ensures RestoreOne(d, p, before) == Err(d)
  {
  }

  /** Rollback puts the files back until it meets a directory. */
  lemma {:induction false} RollbackStops(d0: Disk, ops: seq<Op>, d: Disk, order: seq<Path>) returns (n: nat)
    requires Sane(d0) && Prepared(d0, ops) && Within(d0, ops, d) && d.left.None?
    requires forall i | 0 <= i < |order| :: order[i] in Snapshots(ops) && order[i] != []
    ensures n <= |order| && forall i | 0 <= i < n :: order[i] !in d.dirs
    ensures n < |order| ==> order[n] in d.dirs
    ensures var r := Rollback(d, order, Snapshots(ops));
            (r.Ok? <==> n == |order|) && Restored(d0, d, r.disk, order[..n]) && Within(d0, ops, r.disk)
    decreases |order|
  {
    hide Sane, Prepared, Within, Restored, RestoreOne, Snapshots, AllClaims;
    if order == [] || order[0] in d.dirs {
      n := 0;
      assert order[..0] == [];
      NothingRestored(d0, d);
      if order != [] {
        MeetsDirectory(d, order[0], Snapshots(ops)[order[0]]);
      }
    } else {
      var p := order[0];
      SnapshotsArePreimages(d0, ops);
      RestoreOneWorks(d0, ops, d, p);
      var mid := RestoreOne(d, p, Get(d0.files, p)).disk;
      n := RollbackStops(d0, ops, mid, order[1..]);
      var r := Rollback(mid, order[1..], Snapshots(ops)).disk;
      RestoredThen(d0, d, mid, r, p, order[1..][..n]);
      n := n + 1;
      assert [p] + order[1..][..n - 1] == order[..n];
    }
  }

  /** A claimed path that has become a directory is the new name of an operation, and no file on either side. */
  lemma ClaimedDirectory(d0: Disk, ops: seq<Op>, d: Disk, q: Path) returns (j: nat)
    requires Sane(d0) && Prepared(d0, ops) && Within(d0, ops, d) && q in AllClaims(ops) && q in d.dirs
    ensures j < |ops| && NewPath(ops[j]) == Some(q) && q != [] && q !in d0.dirs && q !in d0.files && q !in d.files
  {
    if q in d0.files {
      OldFileNoDir(d0, ops, d, q);
    }
    j := ClaimedPath(d0, ops, q);
    assert PreparedOp(d0, ops[j]);
  }

  /** Rollback never meets an unsafe target, and puts every file back. */
  lemma RollbackRestores(d0: Disk, ops: seq<Op>, d: Disk, order: seq<Path>)
    requires Sane(d0) && Prepared(d0, ops) && Within(d0, ops, d) && Clear(ops, d) && d.left.None?
    requires Walks(order, ops)
    ensures Rollback(d, order, Snapshots(ops)) == Ok(d.(files := d0.files))
  {
    hide Sane, Prepared, Snapshots, AllClaims, Rollback;
    var n := RollbackStops(d0, ops, d, order);
    SnapshotsArePreimages(d0, ops);
    if n < |order| {
      var _ := ClaimedDirectory(d0, ops, d, order[n]);
    }
    assert order[..|order|] == order;
    var r := Rollback(d, order, Snapshots(ops)).disk;
    forall p
      ensures Get(r.files, p) == Get(d0.files, p)
    {
      assert p in AllClaims(ops) ==> p in order;
    }
    TreeExt(r.files, d0.files);
  }

  // Rollback meets a directory.

  lemma {:induction false} MkdirGrows(d: Disk, dir: Path, k: nat)
    requires k <= |dir| + 1
    ensures d.dirs <= MkdirFrom(d, dir, k).disk.dirs
    decreases |dir| + 1 - k
  {
    if k <= |dir| {
      if dir[..k] in d.dirs {
        MkdirGrows(d, dir, k + 1);
      } else if Tick(d).Some? {
        var d1 := Tick(d).value;
        MkdirGrows(d1.(dirs := d1.dirs + {dir[..k]}), dir, k + 1);
      }
    }
  }

  lemma RestoreGrows(d: Disk, p: Path, before: Option<Content>)
    requires p != []
    ensures d.dirs <= RestoreOne(d, p, before).disk.dirs
  {
    var d1 := d.(files := d.files - {p});
    MkdirGrows(d1, Parent(p), 0);
  }

  lemma {:induction false} RollbackStrands(d: Disk, order: seq<Path>, snapshots: map<Path, Option<Content>>, q: Path)
    requires forall i | 0 <= i < |order| :: order[i] in snapshots && order[i] != []
    requires q in order && q in d.dirs
    ensures Rollback(d, order, snapshots).Err?
    decreases |order|
  {
    if order[0] != q {
      RestoreGrows(d, order[0], snapshots[order[0]]);
      var r := RestoreOne(d, order[0], snapshots[order[0]]);
      if r.Ok? {
        RollbackStrands(r.disk, order[1..], snapshots, q);
      }
    }
  }

  // Removing the directories.

  lemma MissingFacts(d0: Disk, ops: seq<Op>, q: Path)
    requires Prepared(d0, ops) && q in Missing(d0, ops)
    ensures q !in d0.dirs && q !in d0.files
  {
  }

  /** When the turn of entry i comes: nothing is left below the directory, or it is gone and no file has its name. */
  predicate Removable(d: Disk, list: seq<Path>, i: nat)
    requires i < |list|
  {
    if list[i] in d.dirs && list[i] !in list[..i] then
      && (forall p | p in d.files :: !(list[i] < p))
      && forall q | q in d.dirs && list[i] < q :: q in list[..i]
    else list[i] !in d.files
  }

  lemma RemovableLater(d: Disk, list: seq<Path>, i: nat)
    requires i < |list| - 1
    ensures Removable(d, list, i + 1) <==> Removable(d.(dirs := d.dirs - {list[0]}), list[1..], i)
  {
    assert list[..i + 1] == [list[0]] + list[1..][..i];
  }

  /**
   In any order: the directories are removed exactly if each can be removed when its turn comes, and then the
   listed ones are gone and nothing else has changed.
   */
  lemma {:induction false} RemoveDirsIff(d: Disk, list: seq<Path>)
    ensures RemoveDirs(d, list).Ok? <==> forall i | 0 <= i < |list| :: Removable(d, list, i)
    ensures RemoveDirs(d, list).Ok? ==>
              RemoveDirs(d, list).disk == d.(dirs := set q | q in d.dirs && q !in list)
    decreases |list|
  {
    if list == [] {
      assert d.dirs == set q | q in d.dirs && q !in list;
    } else {
      hide Removable;
      var d1 := d.(dirs := d.dirs - {list[0]});
      assert list[0] !in d.dirs ==> d1 == d;
      RemoveDirsIff(d1, list[1..]);
      FirstRemovable(d, list);
      forall i: nat | i < |list| - 1
        ensures Removable(d, list, i + 1) <==> Removable(d1, list[1..], i)
      {
        RemovableLater(d, list, i);
      }
      assert forall i | 0 < i < |list| :: Removable(d, list, i) <==> Removable(d1, list[1..], i - 1);
      assert (set q | q in d1.dirs && q !in list[1..]) == set q | q in d.dirs && q !in list;
    }
  }

  lemma FirstRemovable(d: Disk, list: seq<Path>)
    requires list != []
    ensures Removable(d, list, 0) <==> if list[0] in d.dirs then !Occupied(d, list[0]) else list[0] !in d.files
  {
  }

  /** Deepest first, every directory is empty when its turn comes. */
  lemma {:induction false} RemoveDirsWorks(d0: Disk, d: Disk, list: seq<Path>)
    requires Sane(d0) && d.files == d0.files && d0.dirs <= d.dirs
    requires forall q | q in d.dirs && q !in d0.dirs :: q in list
    requires forall i | 0 <= i < |list| :: list[i] !in d0.dirs && list[i] !in d0.files
    requires forall i, j | 0 <= i < j < |list| :: |list[i]| >= |list[j]|
    ensures RemoveDirs(d, list) == Ok(d.(dirs := d0.dirs))
    decreases |list|
  {
    if list == [] {
      assert d.dirs == d0.dirs;
    } else {
      var dir := list[0];
      NotOccupied(d0, d, list);
      var d1 := if dir in d.dirs then d.(dirs := d.dirs - {dir}) else d;
      forall q | q in d1.dirs && q !in d0.dirs
        ensures q in list[1..]
      {
      }
      RemoveDirsWorks(d0, d1, list[1..]);
    }
  }

  lemma NotOccupied(d0: Disk, d: Disk, list: seq<Path>)
    requires Sane(d0) && d.files == d0.files && list != []
    requires forall q | q in d.dirs && q !in d0.dirs :: q in list
    requires list[0] !in d0.dirs
    requires forall i, j | 0 <= i < j < |list| :: |list[i]| >= |list[j]|
    ensures !Occupied(d, list[0])
  {
    var dir := list[0];
    forall p | p in d0.files
      ensures !(dir < p)
    {
      CutPrefix(dir, p);
    }
    forall q | q in d.dirs
      ensures !(dir < q)
    {
      CutPrefix(dir, q);
      assert q !in d0.dirs ==> |q| <= |dir|;
    }
  }

  /** A rollback that ran to the end met no directory, so no new name had become one. */
  lemma RollbackMeansClear(d0: Disk, ops: seq<Op>, d: Disk, order: seq<Path>)
    requires Prepared(d0, ops) && Walks(order, ops) && Rollback(d, order, Snapshots(ops)).Ok?
    ensures Clear(ops, d)
  {
    SnapshotsArePreimages(d0, ops);
    forall i | 0 <= i < |ops| && NewPath(ops[i]).Some?
      ensures NewPath(ops[i]).value !in d.dirs
    {
      var q := NewPath(ops[i]).value;
      assert q in Claims(ops[i]) && q in AllClaims(ops);
      if q in d.dirs {
        RollbackStrands(d, order, Snapshots(ops), q);
        assert false;
      }
    }
  }

  lemma UndoneExactly(d0: Disk, ops: seq<Op>, d: Disk, order: seq<Path>, list: seq<Path>)
    requires Sane(d0) && Prepared(d0, ops) && Within(d0, ops, d) && Clear(ops, d) && d.left.None?
    requires Walks(order, ops) && DeepestFirst(list, Missing(d0, ops))
    ensures Rollback(d, order, Snapshots(ops)) == Ok(d.(files := d0.files))
    ensures RemoveDirs(d.(files := d0.files), list) == Ok(d.(files := d0.files, dirs := d0.dirs))
  {
    RollbackRestores(d0, ops, d, order);
    forall i | 0 <= i < |list|
      ensures list[i] !in d0.dirs && list[i] !in d0.files
    {
      MissingFacts(d0, ops, list[i]);
    }
    RemoveDirsWorks(d0, d.(files := d0.files), list);
  }

  /**
   The transaction is all or nothing: with any fault, any visibility rule and any order of undoing, it
   takes effect completely, or leaves files and directories exactly as they were, or it was exposed.
   */
  lemma AtomicOrExposed(d0: Disk, ops: seq<Op>, visible: (Tree, Path) -> bool, order: seq<Path>, list: seq<Path>)
    requires Sane(d0) && Prepared(d0, ops)
    requires Walks(order, ops) && DeepestFirst(list, Missing(d0, ops))
    ensures AllRooted(ops)
    ensures match ApplyPatch(d0, ops, visible, order, list)
            case Applied(d, changed) => Progress(d0, ops, |ops|, d) && changed == AllClaims(ops)
            case Undone(d) => d.files == d0.files && d.dirs == d0.dirs
            case Stranded(_) => Exposed(ops)
  {
    ForwardRuns(d0, ops, visible);
    hide Progress, Forward, Exposed, Clear, Walks, Rollback, RemoveDirs, DeepestFirst, Prepared, Sane;
    var r := Forward(d0, ops, visible);
    if r.Err? {
      var d := r.disk.(left := None);
      SameButFuel(d0, ops, r.disk, d);
      if Rollback(d, order, Snapshots(ops)).Ok? {
        RollbackMeansClear(d0, ops, d, order);
      }
      if Clear(ops, d) {
        UndoneExactly(d0, ops, d, order, list);
      }
    }
  }
}
