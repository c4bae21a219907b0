/**
 The patch tool in the form of crates/code/src/patch.rs: a workspace whose files and directories are
 changed in place, one operation at a time, and put back when a later step fails.
 */
module PatchTool {
  import opened Wrappers
  import opened GitModel
  import opened Disk
  import Spec = Disk
  import opened Atomicity
  import opened Undoing
  import opened KeyOrder
  import opened Leftovers
  import opened Simultaneous
  import opened Preparation
  import opened Acceptance
  import opened Fulfilment

  function Result(ok: bool, d: Disk): Res {
    if ok then Ok(d) else Err(d)
  }

  lemma {:induction false} ExecAllSnoc(d: Disk, ops: seq<Op>, op: Op)
    requires AllRooted(ops) && Rooted(op)
    ensures AllRooted(ops + [op])
    ensures ExecAll(d, ops + [op]) == (match ExecAll(d, ops) case Ok(d1) => Exec(d1, op) case Err(d1) => Err(d1))
    decreases |ops|
  {
    hide Exec, Rooted;
    if ops == [] {
      assert [] + [op] == [op] && [op][1..] == [];
    } else {
      assert (ops + [op])[0] == ops[0] && (ops + [op])[1..] == ops[1..] + [op];
      var r := Exec(d, ops[0]);
      if r.Ok? {
        ExecAllSnoc(r.disk, ops[1..], op);
      }
    }
  }

  /** A pass that stops among the first operations stops at the same place whatever follows. */
  lemma {:induction false} ExecAllStops(d: Disk, a: seq<Op>, b: seq<Op>)
    requires AllRooted(a) && AllRooted(b) && ExecAll(d, a).Err?
    ensures AllRooted(a + b) && ExecAll(d, a + b) == ExecAll(d, a)
    decreases |a|
  {
    hide Exec, Rooted;
    assert a != [];
    assert (a + b)[0] == a[0] && (a + b)[1..] == a[1..] + b;
    var r := Exec(d, a[0]);
    if r.Ok? {
      ExecAllStops(r.disk, a[1..], b);
    }
  }

  /** What may become of a prepared transaction. */
  ghost predicate Verdict(d0: Disk, ops: seq<Op>, visible: (Tree, Path) -> bool, outcome: Spec.Outcome) {
    match outcome
    case Applied(d, changed) =>
      && d.files == Overlay(d0.files, Effects(ops)) && d.dirs == d0.dirs + Missing(d0, ops)
      && changed == AllClaims(ops) && NonNested(ops) && AllVisible(ops, d.files, visible)
    case Undone(d) =>
      && d.files == d0.files && d.dirs == d0.dirs
      && (d0.left.None? ==> !NonNested(ops) || !AllVisible(ops, Overlay(d0.files, Effects(ops)), visible))
    case Stranded(d) => Exposed(ops) && (d.files == d0.files || Litters(ops))
  }

  lemma CompletedVerdict(d0: Disk, ops: seq<Op>, visible: (Tree, Path) -> bool)
    requires Sane(d0) && Prepared(d0, ops) && AllRooted(ops) && Forward(d0, ops, visible).Ok?
    ensures Verdict(d0, ops, visible, Applied(Forward(d0, ops, visible).disk, AllClaims(ops)))
  {
    hide Forward, Prepared, Sane, Effects, Overlay, AllRooted, Missing, NonNested, AllVisible;
    SucceedsExactly(d0, ops, visible);
  }

  /** What may become of an accepted list, told from the requests alone. */
  ghost predicate Told(d0: Disk, requests: seq<Request>, visible: (Tree, Path) -> bool, outcome: Spec.Outcome) {
    match outcome
    case Applied(d, changed) =>
      && AllFulfilled(d0.files, d.files, requests) && Unnested(requests) && AllSeen(visible, d.files, requests)
      && (forall p :: p in changed <==> exists i :: 0 <= i < |requests| && p in Touches(requests[i]))
      && (forall q :: q in d.dirs <==>
            q in d0.dirs || exists i ::
                0 <= i < |requests| && NewName(requests[i]).Some? && q < NewName(requests[i]).value)
    case Undone(d) => d.files == d0.files && d.dirs == d0.dirs
    case Stranded(d) => !Unnested(requests)
  }

  lemma SeenTold(requests: seq<Request>, ops: seq<Op>, visible: (Tree, Path) -> bool, after: Tree)
    requires |ops| == |requests| && forall i | 0 <= i < |ops| :: ResultPath(ops[i]) == ResultName(requests[i])
    ensures AllVisible(ops, after, visible) <==> AllSeen(visible, after, requests)
  {
    hide ResultPath, ResultName;
  }

  lemma ExposedIsNested(ops: seq<Op>)
    requires Exposed(ops)
    ensures !NonNested(ops)
  {
  }

  lemma VerdictTold(scene: Scene, requests: seq<Request>, ops: seq<Op>, outcome: Spec.Outcome)
    requires Planned(scene, requests, ops) && Prepared(scene.disk, ops)
             && Verdict(scene.disk, ops, scene.visible, outcome)
    ensures Told(scene.disk, requests, scene.visible, outcome)
    ensures scene.disk.left.None? ==>
              forall after | AllFulfilled(scene.disk.files, after, requests) ::
                outcome.Applied? <==> Unnested(requests) && AllSeen(scene.visible, after, requests)
  {
    hide Planned, Prepared, AllFulfilled, Unnested, AllSeen, AllVisible, NonNested, Effects, Overlay, Missing,
         AllClaims,
         Claims, Touches, NewName, NewPath, Exposed;
    var result := Overlay(scene.disk.files, Effects(ops));
    PlannedLength(scene, requests, ops);
    PlannedFulfils(scene, requests, ops);
    NestingTold(requests, ops);
    ClaimsTold(requests, ops);
    SeenTold(requests, ops, scene.visible, result);
    if Exposed(ops) {
      ExposedIsNested(ops);
    }
    forall q
      ensures q in scene.disk.dirs + Missing(scene.disk, ops) <==>
                q in scene.disk.dirs
                || exists i :: 0 <= i < |requests| && NewName(requests[i]).Some? && q < NewName(requests[i]).value
    {
      MissingTold(scene.disk, requests, ops, q);
    }
    forall after | AllFulfilled(scene.disk.files, after, requests)
      ensures after == result
    {
      FulfilledOnce(scene, requests, ops, after);
    }
  }

  lemma PlannedLength(scene: Scene, requests: seq<Request>, ops: seq<Op>)
    requires Planned(scene, requests, ops)
    ensures |ops| == |requests|
  {
  }

  lemma FailedVerdict(d0: Disk, ops: seq<Op>, visible: (Tree, Path) -> bool, order: seq<Path>, list: seq<Path>)
    requires Sane(d0) && Prepared(d0, ops) && AllRooted(ops) && Forward(d0, ops, visible).Err?
    requires Walks(order, ops) && LastFirst(order) && DeepestFirst(list, Missing(d0, ops))
    ensures Verdict(d0, ops, visible, Spec.ApplyPatch(d0, ops, visible, order, list))
  {
    hide Forward, Prepared, Sane, Effects, Overlay, AllRooted, Missing, NonNested, AllVisible, Rollback, RemoveDirs,
         Progress,
      Exposed, DeepestFirst, LastFirst, Litters;
    SucceedsExactly(d0, ops, visible);
    AtomicOrExposed(d0, ops, visible, order, list);
    ChangedMeansLitters(d0, ops, visible, order, list);
  }

  // The primitives on any disk.

  lemma {:induction false} MkdirAny(d: Disk, dir: Path, k: nat)
    requires k <= |dir| + 1
    ensures var r := MkdirFrom(d, dir, k);
            && r.disk.files == d.files && d.dirs <= r.disk.dirs
            && (forall q | q in r.disk.dirs && q !in d.dirs :: q <= dir && k <= |q|)
            && (r.Ok? ==> forall m | k <= m <= |dir| :: dir[..m] in r.disk.dirs)
            && (d.left.None? ==> r.Ok? && r.disk.left.None?)
    decreases |dir| + 1 - k
  {
    if k <= |dir| {
      if dir[..k] in d.dirs {
        MkdirAny(d, dir, k + 1);
      } else if Tick(d).Some? {
        var d1 := Tick(d).value;
        MkdirAny(d1.(dirs := d1.dirs + {dir[..k]}), dir, k + 1);
      }
    }
  }

  /** Directories appear above the path and nowhere else, all of them if it goes well. */
  predicate ParentsMade(before: set<Path>, after: set<Path>, p: Path, all: bool) {
    && before <= after && (forall q | q in after && q !in before :: q < p)
    && (all ==> forall k | 0 <= k < |p| :: p[..k] in after)
  }

  lemma CreateParentAny(d: Disk, p: Path)
    requires p != []
    ensures var r := CreateParent(d, p);
            && r.disk.files == d.files && ParentsMade(d.dirs, r.disk.dirs, p, r.Ok?)
            && (r.Ok? ==> !FileAbove(d, p))
            && (d.left.None? ==> (r.Ok? <==> !FileAbove(d, p)) && r.disk.left.None?)
  {
    if !FileAbove(d, p) {
      MkdirAny(d, Parent(p), 0);
      var r := CreateParent(d, p);
      forall q | q in r.disk.dirs && q !in d.dirs
        ensures q < p
      {
        assert q == Parent(p)[..|q|] == p[..|q|];
      }
      if r.Ok? {
        forall k | 0 <= k < |p|
          ensures p[..k] in r.disk.dirs
        {
          assert Parent(p)[..k] == p[..k];
        }
      }
    }
  }

  /** The directories missing above one path. */
  function MissingAbove(d: Disk, p: Path): set<Path> {
    set k | 0 <= k < |p| && p[..k] !in d.dirs :: p[..k]
  }

  lemma MissingOfLast(d: Disk, ops: seq<Op>)
    requires ops != []
    ensures var op := ops[|ops| - 1];
            Missing(d, ops) == Missing(d, ops[..|ops| - 1])
                             + (if NewPath(op).Some? then MissingAbove(d, NewPath(op).value) else {})
  {
  }

  lemma NoRootClaimed(d: Disk, ops: seq<Op>)
    requires Prepared(d, ops)
    ensures [] !in AllClaims(ops)
  {
  }

  lemma {:induction false} SomeDeepest(paths: set<Path>) returns (p: Path)
    requires paths != {}
    ensures p in paths && forall q | q in paths :: |q| <= |p|
  {
    p :| p in paths;
    var rest := paths - {p};
    if rest != {} {
      var q := SomeDeepest(rest);
      if |q| > |p| {
        p := q;
      } else {
        assert forall r | r in paths :: r == p || r in rest;
      }
    }
  }

  /** The list holds the deepest paths, deepest first; the rest are still to come. */
  predicate SortedSoFar(list: seq<Path>, rest: set<Path>, paths: set<Path>) {
    && rest <= paths && (forall p | p in paths :: p in rest || p in list)
    && (forall p | p in list :: p in paths)
    && (forall p, q | p in list && q in rest :: |p| >= |q|)
    && (forall i, j | 0 <= i < j < |list| :: |list[i]| >= |list[j]|)
  }

  lemma SortedNext(list: seq<Path>, rest: set<Path>, paths: set<Path>, p: Path)
    requires SortedSoFar(list, rest, paths) && p in rest && forall q | q in rest :: |q| <= |p|
    ensures SortedSoFar(list + [p], rest - {p}, paths)
  {
  }

  /** `sort_by_key` on the number of components, largest first. */
  method SortDeepestFirst(paths: set<Path>) returns (list: seq<Path>)
    ensures DeepestFirst(list, paths)
  {
    list := [];
    var rest := paths;
    while rest != {}
      invariant SortedSoFar(list, rest, paths)
    {
      ghost var deepest := SomeDeepest(rest);
      var p :| p in rest && forall q | q in rest :: |q| <= |p|;
      SortedNext(list, rest, paths, p);
      list, rest := list + [p], rest - {p};
    }
  }

  lemma ExecNone(d: Disk, ops: seq<Op>)
    ensures AllRooted(ops[..0]) && ExecAll(d, ops[..0]) == Ok(d) && AllClaims(ops[..0]) == {}
  {
  }

  lemma NoSnapshots(ops: seq<Op>)
    ensures Snapshots(ops[..0]) == map[]
  {
  }

  lemma SnapshotsStep(ops: seq<Op>, i: nat)
    requires i < |ops|
    ensures Snapshots(ops[..i + 1]) == Snapshots(ops[..i]) + Preimages(ops[i])
  {
    assert ops[..i + 1][..i] == ops[..i];
  }

  class Workspace {
    var files: Tree
    var dirs: set<Path>
    /** How many more effects the device performs before it fails. */
    var left: Option<nat>

    ghost function View(): Disk
      reads this
    {
      Disk(files, dirs, left)
    }

    constructor (files: Tree, dirs: set<Path>, left: Option<nat>)
      ensures View() == Disk(files, dirs, left)
    {
      this.files, this.dirs, this.left := files, dirs, left;
    }

    // The file system's own operations.

    method Perform(r: Res) returns (ok: bool)
      modifies this
      ensures View() == r.disk && ok == r.Ok?
    {
      files, dirs, left := r.disk.files, r.disk.dirs, r.disk.left;
      ok := r.Ok?;
    }

    method CreateDirAll(p: Path) returns (ok: bool)
      requires p != []
      modifies this
      ensures Result(ok, View()) == CreateParent(old(View()), p)
    {
      ok := Perform(CreateParent(Disk(files, dirs, left), p));
    }

    method HardLink(p: Path, content: Content) returns (ok: bool)
      modifies this
      ensures Result(ok, View()) == LinkNew(old(View()), p, content)
    {
      ok := Perform(LinkNew(Disk(files, dirs, left), p, content));
    }

    method RenameOver(p: Path, content: Content) returns (ok: bool)
      modifies this
      ensures Result(ok, View()) == PutFile(old(View()), p, content)
    {
      ok := Perform(PutFile(Disk(files, dirs, left), p, content));
    }

    method Unlink(p: Path) returns (ok: bool)
      modifies this
      ensures Result(ok, View()) == RemoveFile(old(View()), p)
    {
      ok := Perform(RemoveFile(Disk(files, dirs, left), p));
    }

    // One operation.

    method AtomicCreate(p: Path, content: Content) returns (ok: bool)
      requires p != []
      modifies this
      ensures Result(ok, View()) == Spec.AtomicCreate(old(View()), p, content)
      ensures files == if ok then old(files)[p := content] else old(files)
      ensures ParentsMade(old(dirs), dirs, p, ok)
      ensures ok ==> p !in old(files) && p !in old(dirs)
      ensures old(left).None? ==> (ok <==> p !in old(files) && p !in old(dirs) && !FileAbove(old(View()), p))
    {
      CreateParentAny(View(), p);
      ok := CreateDirAll(p);
      if ok {
        ok := HardLink(p, content);
      }
    }

    method AtomicReplace(p: Path, content: Content) returns (ok: bool)
      requires p != []
      modifies this
      ensures Result(ok, View()) == Spec.AtomicReplace(old(View()), p, content)
      ensures files == if ok then old(files)[p := content] else old(files)
      ensures ParentsMade(old(dirs), dirs, p, ok)
      ensures ok ==> p !in old(dirs)
      ensures old(left).None? ==> (ok <==> p !in old(dirs) && !FileAbove(old(View()), p))
    {
      CreateParentAny(View(), p);
      ok := CreateDirAll(p);
      if ok {
        ok := RenameOver(p, content);
      }
    }

    method Move(from: Path, to: Path, before: Content) returns (ok: bool)
      requires Rooted(Rename(from, to, before))
      modifies this
      ensures Result(ok, View()) == Exec(old(View()), Rename(from, to, before))
      ensures ok ==> from in old(files) && to !in old(files) && to !in old(dirs)
      ensures ok ==> files == old(files)[to := old(files)[from]] - {from}
      ensures !ok ==> files == old(files) || (from in old(files) && files == old(files)[to := old(files)[from]])
      ensures ParentsMade(old(dirs), dirs, to, ok)
      ensures old(left).None? ==>
                (ok <==> from in old(files) && to !in old(files) && to !in old(dirs) && !FileAbove(old(View()), to))
    {
      CreateParentAny(View(), to);
      if from !in files || to in files || to in dirs {
        return false;
      }
      var content := files[from];
      ok := CreateDirAll(to);
      if !ok {
        return;
      }
      ok := HardLink(to, content);
      if !ok {
        return;
      }
      ok := Unlink(from);
    }

    method Execute(op: Op) returns (ok: bool)
      requires Rooted(op)
      modifies this
      ensures Result(ok, View()) == Exec(old(View()), op)
    {
      match op
      case Create(path, after) => ok := AtomicCreate(path, after);
      case Update(path, _, after) => ok := AtomicReplace(path, after);
      case Delete(path, _) => ok := Unlink(path);
      case Rename(from, to, before) => ok := Move(from, to, before);
    }

    // The transaction.

    /** `apply_patch_inner`. */
    method ApplyPatchInner(ops: seq<Op>, visible: (Tree, Path) -> bool) returns (ok: bool, changed: set<Path>)
      requires AllRooted(ops)
      modifies this
      ensures Result(ok, View()) == Forward(old(View()), ops, visible)
      ensures ok ==> changed == AllClaims(ops)
    {
      hide Exec, ExecAll, Rooted, Claims, AllClaims;
      ExecNone(View(), ops);
      changed := {};
      for i := 0 to |ops|
        invariant AllRooted(ops[..i]) && Ok(View()) == ExecAll(old(View()), ops[..i])
        invariant changed == AllClaims(ops[..i])
      {
        ExecAllSnoc(old(View()), ops[..i], ops[i]);
        assert ops[..i] + [ops[i]] == ops[..i + 1] && ops[..i + 1][..i] == ops[..i];
        ok := Execute(ops[i]);
        if !ok {
          ExecAllStops(old(View()), ops[..i + 1], ops[i + 1..]);
          assert ops[..i + 1] + ops[i + 1..] == ops;
          return;
        }
        ClaimsOfLast(ops[..i + 1]);
        changed := changed + Claims(ops[i]);
      }
      assert ops[..|ops|] == ops;
      ghost var done := View();
      for i := 0 to |ops|
        invariant CheckVisible(done, ops, visible) == CheckVisible(View(), ops[i..], visible)
      {
        assert ops[i..][1..] == ops[i + 1..];
        var path := ResultPath(ops[i]);
        if path.Some? {
          ok := Look();
          if !ok || !visible(files, path.value) {
            return false, changed;
          }
        }
      }
      ok := true;
    }

    /** Asks the file lister, which may fail. */
    method Look() returns (ok: bool)
      modifies this
      ensures match Tick(old(View()))
              case Some(d) => ok && View() == d
              case None => !ok && View() == old(View())
    {
      var ticked := Tick(Disk(files, dirs, left));
      ok := ticked.Some?;
      if ok {
        left := ticked.value.left;
      }
    }

    /** The directories above the new names that do not exist yet, found by walking up, deepest first. */
    method CreatedDirectories(ops: seq<Op>) returns (list: seq<Path>)
      requires Sane(View()) && Prepared(View(), ops)
      ensures DeepestFirst(list, Missing(View(), ops))
    {
      var found: set<Path> := {};
      for i := 0 to |ops|
        invariant found == Missing(View(), ops[..i])
      {
        ghost var some := ops[..i + 1];
        MissingOfLast(View(), some);
        assert some[..i] == ops[..i];
        var path := NewPath(ops[i]);
        if path.Some? {
          var above := WalkUp(path.value);
          found := found + above;
        }
      }
      assert ops[..|ops|] == ops;
      list := SortDeepestFirst(found);
    }

    method WalkUp(p: Path) returns (found: set<Path>)
      requires Sane(View()) && Free(View(), p)
      ensures found == MissingAbove(View(), p)
    {
      found := {};
      var k := |p|;
      while k > 0
        invariant 0 <= k <= |p|
        invariant found == set m | k <= m < |p| && p[..m] !in dirs :: p[..m]
      {
        k := k - 1;
        if k == 0 || p[..k] in dirs || p[..k] in files {
          assert forall m | 0 <= m <= k :: p[..k][..m] == p[..m];
          break;
        }
        found := found + {p[..k]};
      }
    }

    /** Removes the listed directories in order; one that is gone already is skipped. */
    method RemoveCreatedDirectories(list: seq<Path>) returns (ok: bool)
      modifies this
      ensures Result(ok, View()) == RemoveDirs(old(View()), list)
      ensures ok <==> forall i | 0 <= i < |list| :: Removable(old(View()), list, i)
      ensures ok ==> View() == old(View()).(dirs := set q | q in old(dirs) && q !in list)
    {
      RemoveDirsIff(View(), list);
      for i := 0 to |list|
        invariant RemoveDirs(old(View()), list) == RemoveDirs(View(), list[i..])
      {
        assert list[i..][1..] == list[i + 1..];
        var dir := list[i];
        if dir in dirs {
          if Occupied(Disk(files, dirs, left), dir) {
            return false;
          }
          dirs := dirs - {dir};
        } else if dir in files {
          return false;
        }
      }
      ok := true;
    }

    /** Puts one path back. */
    method Restore(p: Path, before: Option<Content>) returns (ok: bool)
      requires p != []
      modifies this
      ensures Result(ok, View()) == RestoreOne(old(View()), p, before)
    {
      if p in dirs {
        return false;
      }
      files := files - {p};
      ok := true;
      if before.Some? {
        ok := AtomicReplace(p, before.value);
      }
    }

    /** Walks the snapshot map from its last path to its first. */
    method RollbackFiles(snapshots: map<Path, Option<Content>>) returns (ok: bool, order: seq<Path>)
      requires [] !in snapshots
      modifies this
      ensures LastFirst(order) && forall p :: p in order <==> p in snapshots
      ensures forall i | 0 <= i < |order| :: order[i] in snapshots && order[i] != []
      ensures Result(ok, View()) == Rollback(old(View()), order, snapshots)
    {
      hide LastFirst;
      order := Backwards(snapshots.Keys);
      assert forall i | 0 <= i < |order| :: order[i] in order;
      for i := 0 to |order|
        invariant Rollback(old(View()), order, snapshots) == Rollback(View(), order[i..], snapshots)
      {
        assert order[i..][1..] == order[i + 1..];
        ok := Restore(order[i], snapshots[order[i]]);
        if !ok {
          return;
        }
      }
      ok := true;
    }

    /** `snapshots`. */
    method TakeSnapshots(ops: seq<Op>) returns (snapshots: map<Path, Option<Content>>)
      ensures snapshots == Snapshots(ops)
    {
      hide Snapshots;
      snapshots := map[];
      NoSnapshots(ops);
      for i := 0 to |ops|
        invariant snapshots == Snapshots(ops[..i])
      {
        SnapshotsStep(ops, i);
        match ops[i]
        case Create(path, _) => snapshots := snapshots[path := None];
        case Update(path, before, _) => snapshots := snapshots[path := Some(before)];
        case Delete(path, before) => snapshots := snapshots[path := Some(before)];
        case Rename(from, to, before) => snapshots := snapshots[from := Some(before)][to := None];
      }
      assert ops[..|ops|] == ops;
    }

    /** Puts the files and then the directories back; the device is sound again while it does. */
    method Undo(snapshots: map<Path, Option<Content>>, created: seq<Path>)
      returns (outcome: Spec.Outcome, ghost order: seq<Path>)
      requires [] !in snapshots
      modifies this
      ensures LastFirst(order) && forall p :: p in order <==> p in snapshots
      ensures forall i | 0 <= i < |order| :: order[i] in snapshots && order[i] != []
      ensures outcome.disk == View()
      ensures outcome == match Rollback(old(View()).(left := None), order, snapshots)
                         case Err(d) => Stranded(d)
                         case Ok(d) =>
                           match RemoveDirs(d, created)
                           case Err(d1) => Stranded(d1)
                           case Ok(d1) => Undone(d1)
    {
      hide LastFirst;
      left := None;
      var ok, walked := RollbackFiles(snapshots);
      order := walked;
      if ok {
        ok := RemoveCreatedDirectories(created);
        outcome := if ok then Undone(Disk(files, dirs, left)) else Stranded(Disk(files, dirs, left));
      } else {
        outcome := Stranded(Disk(files, dirs, left));
      }
    }

    /**
     `apply_patch`: complete, or as if it had never begun, or stranded; stranded only if exposed, and with changed
     files only if the list can leave any.
     */
    method ApplyPatch(ops: seq<Op>, visible: (Tree, Path) -> bool) returns (outcome: Spec.Outcome)
      requires Sane(View()) && Prepared(View(), ops)
      modifies this
      ensures outcome.disk == View()
      ensures Verdict(old(View()), ops, visible, outcome)
    {
      hide Forward, Verdict, Snapshots, Rollback, RemoveDirs, Sane, Prepared, AllRooted, DeepestFirst, Missing,
           AllClaims,
           LastFirst;
      ghost var before := View();
      PreparedRooted(before, ops);
      SnapshotsArePreimages(before, ops);
      NoRootClaimed(before, ops);
      var snapshots := TakeSnapshots(ops);
      var created := CreatedDirectories(ops);
      var ok, changed := ApplyPatchInner(ops, visible);
      ghost var order;
      if ok {
        outcome := Applied(Disk(files, dirs, left), changed);
        CompletedVerdict(before, ops, visible);
      } else {
        outcome, order := Undo(snapshots, created);
        FailedVerdict(before, ops, visible, order, created);
      }
    }

    /**
     The patch tool between synchronization and finishing: a list that is not acceptable is refused before
     anything is written, and any other is carried out as a transaction of the operations it stands for.  If it
     ends applied, each request is met and no other path is touched.
     */
    method Patch(requests: seq<Request>, purpose: string, visible: (Tree, Path) -> bool, sha: Content -> string)
      returns (outcome: Option<Spec.Outcome>, ghost ops: seq<Op>)
      requires Sane(View())
      modifies this
      ensures outcome.Some? <==> Preparation.Acceptable(Scene(old(View()), visible, sha), requests, purpose)
      ensures outcome.Some? <==>
                && 1 <= |requests| <= 32 && (exists c :: c in purpose && !Space(c)) && ClaimedOnce(requests)
                && forall i | 0 <= i < |requests| :: Permitted(Scene(old(View()), visible, sha), requests[i])
      ensures outcome.None? ==> View() == old(View())
      ensures outcome.Some? ==> Told(old(View()), requests, visible, outcome.value)
      ensures outcome.Some? && old(left).None? ==>
                forall after | AllFulfilled(old(files), after, requests) ::
                  outcome.value.Applied? <==> Unnested(requests) && AllSeen(visible, after, requests)
      ensures outcome.Some? ==>
                && Planned(Scene(old(View()), visible, sha), requests, ops)
                && outcome.value.disk == View() && Verdict(old(View()), ops, visible, outcome.value)
    {
      hide Preparation.Acceptable, Planned, Verdict, Prepared, Sane, Told, AllFulfilled, Unnested, AllSeen, Permitted,
           ClaimedOnce, Space;
      ghost var scene := Scene(View(), visible, sha);
      AcceptableIff(scene, requests, purpose);
      var prepared := PreparePatch(Scene(Disk(files, dirs, left), visible, sha), requests, purpose);
      ops := [];
      if prepared.None? {
        return None, ops;
      }
      ops := prepared.value;
      var result := ApplyPatch(prepared.value, visible);
      outcome := Some(result);
      VerdictTold(scene, requests, ops, result);
    }
  }
}
