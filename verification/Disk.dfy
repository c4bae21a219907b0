/**
 A patch transaction against a file system (crates/code/src/patch.rs).  `left` is how many more
 primitive effects the device performs before it fails; `None` never fails.  Temporary transaction
 files come and go within one primitive and are not part of this model.
 */
module Disk {
  import opened Wrappers
  import opened GitModel

  datatype Disk = Disk(files: Tree, dirs: set<Path>, left: Option<nat>)

  /** A step that may fail, with the disk as it is then. */
  datatype Res = Ok(disk: Disk) | Err(disk: Disk)

  /** Directories are closed under parents, every file has its directories, and no path is both. */
  predicate Sane(d: Disk) {
    && [] in d.dirs
    && (forall q, k | q in d.dirs && 0 <= k <= |q| :: q[..k] in d.dirs)
    && (forall p, k | p in d.files && 0 <= k < |p| :: p[..k] in d.dirs)
    && (forall p | p in d.files :: p !in d.dirs && p != [])
  }

  function Parent(p: Path): Path
    requires p != []
  {
    p[..|p| - 1]
  }

  function Tick(d: Disk): Option<Disk> {
    match d.left
    case None => Some(d)
    case Some(n) => if n == 0 then None else Some(d.(left := Some(n - 1)))
  }

  predicate FileAbove(d: Disk, p: Path) {
    exists k :: 0 <= k < |p| && p[..k] in d.files
  }

  /** Creates the missing directories of `dir` from depth k on, outermost first. */
  function MkdirFrom(d: Disk, dir: Path, k: nat): Res
    requires k <= |dir| + 1
    decreases |dir| + 1 - k
  {
    if k == |dir| + 1 then Ok(d)
    else if dir[..k] in d.dirs then MkdirFrom(d, dir, k + 1)
    else
      match Tick(d)
      case None => Err(d)
      case Some(d1) => MkdirFrom(d1.(dirs := d1.dirs + {dir[..k]}), dir, k + 1)
  }

  /** `create_parent`: a file in the way stops it before anything is created. */
  function CreateParent(d: Disk, p: Path): Res
    requires p != []
  {
    if FileAbove(d, p) then Err(d) else MkdirFrom(d, Parent(p), 0)
  }

  /** Links a name that must not exist yet. */
  function LinkNew(d: Disk, p: Path, content: Content): Res {
    if p in d.files || p in d.dirs then Err(d)
    else
      match Tick(d)
      case None => Err(d)
      case Some(d1) => Ok(d1.(files := d1.files[p := content]))
  }

  /** Renames a finished transaction file over the name. */
  function PutFile(d: Disk, p: Path, content: Content): Res {
    if p in d.dirs then Err(d)
    else
      match Tick(d)
      case None => Err(d)
      case Some(d1) => Ok(d1.(files := d1.files[p := content]))
  }

  function RemoveFile(d: Disk, p: Path): Res {
    if p !in d.files then Err(d)
    else
      match Tick(d)
      case None => Err(d)
      case Some(d1) => Ok(d1.(files := d1.files - {p}))
  }

  function AtomicCreate(d: Disk, p: Path, content: Content): Res
    requires p != []
  {
    match CreateParent(d, p)
    case Err(d1) => Err(d1)
    case Ok(d1) => LinkNew(d1, p, content)
  }

  function AtomicReplace(d: Disk, p: Path, content: Content): Res
    requires p != []
  {
    match CreateParent(d, p)
    case Err(d1) => Err(d1)
    case Ok(d1) => PutFile(d1, p, content)
  }

  // Operations.

  datatype Op =
    | Create(path: Path, after: Content)
    | Update(path: Path, before: Content, after: Content)
    | Delete(path: Path, before: Content)
    | Rename(from: Path, to: Path, before: Content)

  function Claims(op: Op): set<Path> {
    if op.Rename? then {op.from, op.to} else {op.path}
  }

  /** The name an operation brings into being. */
  function NewPath(op: Op): Option<Path> {
    match op
    case Create(path, _) => Some(path)
    case Rename(_, to, _) => Some(to)
    case _ => None
  }

  /** The name that must be visible when the operation is done. */
  function ResultPath(op: Op): Option<Path> {
    match op
    case Create(path, _) => Some(path)
    case Update(path, _, _) => Some(path)
    case Delete(_, _) => None
    case Rename(_, to, _) => Some(to)
  }

  predicate Rooted(op: Op) {
    [] !in Claims(op)
  }

  function Exec(d: Disk, op: Op): Res
    requires Rooted(op)
  {
    match op
    case Create(path, after) => AtomicCreate(d, path, after)
    case Update(path, _, after) => AtomicReplace(d, path, after)
    case Delete(path, _) => RemoveFile(d, path)
    case Rename(from, to, _) =>
      if from !in d.files || to in d.files || to in d.dirs then Err(d)
      else
        match CreateParent(d, to)
        case Err(d1) => Err(d1)
        case Ok(d1) =>
          match LinkNew(d1, to, d.files[from])
          case Err(d2) => Err(d2)
          case Ok(d2) => RemoveFile(d2, from)
  }

  predicate AllRooted(ops: seq<Op>) {
    forall i | 0 <= i < |ops| :: Rooted(ops[i])
  }

  function ExecAll(d: Disk, ops: seq<Op>): Res
    requires AllRooted(ops)
    decreases |ops|
  {
    if ops == [] then Ok(d)
    else
      match Exec(d, ops[0])
      case Err(d1) => Err(d1)
      case Ok(d1) => ExecAll(d1, ops[1..])
  }

  /** The visibility check on every resulting path; asking may fail too. */
  function CheckVisible(d: Disk, ops: seq<Op>, visible: (Tree, Path) -> bool): Res
    decreases |ops|
  {
    if ops == [] then Ok(d)
    else if ResultPath(ops[0]).None? then CheckVisible(d, ops[1..], visible)
    else
      match Tick(d)
      case None => Err(d)
      case Some(d1) =>
        if visible(d1.files, ResultPath(ops[0]).value) then CheckVisible(d1, ops[1..], visible) else Err(d1)
  }

  /** `apply_patch_inner`. */
  function Forward(d: Disk, ops: seq<Op>, visible: (Tree, Path) -> bool): Res
    requires AllRooted(ops)
  {
    match ExecAll(d, ops)
    case Err(d1) => Err(d1)
    case Ok(d1) => CheckVisible(d1, ops, visible)
  }

  function AllClaims(ops: seq<Op>): set<Path> {
    set i, p | 0 <= i < |ops| && p in Claims(ops[i]) :: p
  }

  // Undoing.

  function Preimages(op: Op): map<Path, Option<Content>> {
    match op
    case Create(path, _) => map[path := None]
    case Update(path, before, _) => map[path := Some(before)]
    case Delete(path, before) => map[path := Some(before)]
    case Rename(from, to, before) => map[from := Some(before), to := None]
  }

  function Snapshots(ops: seq<Op>): map<Path, Option<Content>> {
    if ops == [] then map[] else Snapshots(ops[..|ops| - 1]) + Preimages(ops[|ops| - 1])
  }

  /** The directories that do not exist yet and lie above a new name. */
  function Missing(d: Disk, ops: seq<Op>): set<Path> {
    set i, k | 0 <= i < |ops| && NewPath(ops[i]).Some? && 0 <= k < |NewPath(ops[i]).value|
               && NewPath(ops[i]).value[..k] !in d.dirs
      :: NewPath(ops[i]).value[..k]
  }

  function RestoreOne(d: Disk, p: Path, before: Option<Content>): Res
    requires p != []
  {
    if p in d.dirs then Err(d)
    else
      var d1 := d.(files := d.files - {p});
      match before
      case None => Ok(d1)
      case Some(content) => AtomicReplace(d1, p, content)
  }

  /** `rollback`: `order` lists the snapshot map's keys in the order they are walked. */
  function Rollback(d: Disk, order: seq<Path>, snapshots: map<Path, Option<Content>>): Res
    requires forall i | 0 <= i < |order| :: order[i] in snapshots && order[i] != []
    decreases |order|
  {
    if order == [] then Ok(d)
    else
      match RestoreOne(d, order[0], snapshots[order[0]])
      case Err(d1) => Err(d1)
      case Ok(d1) => Rollback(d1, order[1..], snapshots)
  }

  /** Something lies below the directory. */
  predicate Occupied(d: Disk, dir: Path) {
    || (exists p :: p in d.files && dir < p)
    || (exists q :: q in d.dirs && dir < q)
  }

  /** `remove_created_directories`: a missing directory is skipped, an occupied one is an error. */
  function RemoveDirs(d: Disk, list: seq<Path>): Res
    decreases |list|
  {
    if list == [] then Ok(d)
    else if list[0] in d.dirs then
      if Occupied(d, list[0]) then Err(d) else RemoveDirs(d.(dirs := d.dirs - {list[0]}), list[1..])
    else if list[0] in d.files then Err(d)
    else RemoveDirs(d, list[1..])
  }

  datatype Outcome = Applied(disk: Disk, changed: set<Path>) | Undone(disk: Disk) | Stranded(disk: Disk)

  /** `apply_patch`; the device is sound again while a failure is undone. */
  function ApplyPatch(d: Disk, ops: seq<Op>, visible: (Tree, Path) -> bool, order: seq<Path>, list: seq<Path>): Outcome
    requires AllRooted(ops)
    requires forall i | 0 <= i < |order| :: order[i] in Snapshots(ops) && order[i] != []
  {
    match Forward(d, ops, visible)
    case Ok(d1) => Applied(d1, AllClaims(ops))
    case Err(d1) =>
      match Rollback(d1.(left := None), order, Snapshots(ops))
      case Err(d2) => Stranded(d2)
      case Ok(d2) =>
        match RemoveDirs(d2, list)
        case Err(d3) => Stranded(d3)
        case Ok(d3) => Undone(d3)
  }

  // What preparation guarantees.

  predicate Free(d: Disk, p: Path) {
    p !in d.files && p !in d.dirs && !FileAbove(d, p)
  }

  predicate PreparedOp(d: Disk, op: Op) {
    && Rooted(op)
    && match op
       case Create(path, _) => Free(d, path)
       case Update(path, before, _) => Get(d.files, path) == Some(before)
       case Delete(path, before) => Get(d.files, path) == Some(before)
       case Rename(from, to, before) => from != to && Get(d.files, from) == Some(before) && Free(d, to)
  }

  predicate Prepared(d: Disk, ops: seq<Op>) {
    && (forall i | 0 <= i < |ops| :: PreparedOp(d, ops[i]))
    && (forall i, j | 0 <= i < j < |ops| :: Claims(ops[i]) !! Claims(ops[j]))
  }

  lemma PreparedRooted(d: Disk, ops: seq<Op>)
    requires Prepared(d, ops)
    ensures AllRooted(ops)
  {
    forall i | 0 <= i < |ops|
      ensures Rooted(ops[i])
    {
      assert PreparedOp(d, ops[i]);
    }
  }

  // Nesting.

  /** One new name lies above the other. */
  predicate Above(a: Op, b: Op) {
    NewPath(a).Some? && NewPath(b).Some? && NewPath(a).value < NewPath(b).value
  }

  predicate Nested(a: Op, b: Op) {
    Above(a, b) || Above(b, a)
  }

  predicate NonNested(ops: seq<Op>) {
    forall i, j | 0 <= i < j < |ops| :: !Nested(ops[i], ops[j])
  }

  /** A later operation claims a directory of an earlier one that can be carried out. */
  predicate ExposedAt(ops: seq<Op>, i: nat, j: nat) {
    i < j < |ops| && Above(ops[j], ops[i]) && NonNested(ops[..i + 1])
  }

  predicate Exposed(ops: seq<Op>) {
    exists i, j :: 0 <= i < j < |ops| && ExposedAt(ops, i, j)
  }
}
