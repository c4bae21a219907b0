/** Preparing a transaction: what `prepare_patch` refuses, and what it promises of the rest. */
module Preparation {
  import opened Wrappers
  import opened GitModel
  import opened Text
  import opened Disk

  const MAX_OPERATIONS := 32
  const TRANSACTION_FILE_PREFIX := ".nuillu-code-"
  const TRANSACTION_FILE_SUFFIX := ".tmp"

  datatype Request =
    | CreateFile(path: Path, content: Content)
    | UpdateFile(path: Path, hash: string, replacements: seq<Replacement>)
    | DeleteFile(path: Path, hash: string)
    | RenameFile(from: Path, to: Path, hash: string)

  /** The workspace as preparation sees it; `sha` is the hash function and stays uninterpreted. */
  datatype Scene = Scene(disk: Disk, visible: (Tree, Path) -> bool, sha: Content -> string)

  function LowerChar(c: char): char {
    if 'A' <= c <= 'Z' then ((c as int) + 32) as char else c
  }

  function Lower(s: string): (r: string)
    ensures |r| == |s| && forall i | 0 <= i < |s| :: r[i] == LowerChar(s[i])
  {
    if s == [] then [] else [LowerChar(s[0])] + Lower(s[1..])
  }

  function Fold(p: Path): (r: Path)
    ensures |r| == |p|
  {
    if p == [] then [] else [Lower(p[0])] + Fold(p[1..])
  }

  predicate EndsWith(s: string, suffix: string) {
    |suffix| <= |s| && s[|s| - |suffix|..] == suffix
  }

  /** The rule of Paths.LegalSegment, on the components this module's paths are made of. */
  predicate LegalName(name: string) {
    && name !in ["", ".", "..", ".git"] && '/' !in name
    && !(TRANSACTION_FILE_PREFIX <= name && EndsWith(name, TRANSACTION_FILE_SUFFIX))
  }

  predicate LegalPath(p: Path) {
    p != [] && forall name | name in p :: LegalName(name)
  }

  predicate HexDigit(c: char) {
    '0' <= c <= '9' || 'a' <= c <= 'f' || 'A' <= c <= 'F'
  }

  predicate LegalHash(hash: string) {
    |hash| == 64 && forall c | c in hash :: HexDigit(c)
  }

  /** `read_visible_bytes`, followed by the hash check. */
  predicate Readable(scene: Scene, p: Path, hash: string) {
    && LegalPath(p) && LegalHash(hash) && p in scene.disk.files
    && scene.visible(scene.disk.files, p) && '\0' !in scene.disk.files[p]
    && scene.sha(scene.disk.files[p]) == Lower(hash)
  }

  /** `validate_new_path`. */
  predicate Available(d: Disk, p: Path) {
    LegalPath(p) && Free(d, p)
  }

  /** One request on its own. */
  function Plan(scene: Scene, request: Request): Option<Op> {
    var files := scene.disk.files;
    match request
    case CreateFile(path, content) =>
      if Available(scene.disk, path) && '\0' !in content then Some(Create(path, content)) else None
    case UpdateFile(path, hash, replacements) =>
      if !Readable(scene, path, hash) then None
      else if Edit(files[path], replacements).None? then None
      else Some(Update(path, files[path], Edit(files[path], replacements).value))
    case DeleteFile(path, hash) =>
      if Readable(scene, path, hash) then Some(Delete(path, files[path])) else None
    case RenameFile(from, to, hash) =>
      if Readable(scene, from, hash) && Available(scene.disk, to) then Some(Rename(from, to, files[from])) else None
  }

  /** The paths a request claims, in order. */
  function Claimed(request: Request): seq<Path> {
    match request
    case CreateFile(path, _) => [path]
    case UpdateFile(path, _, _) => [path]
    case DeleteFile(path, _) => [path]
    case RenameFile(from, to, _) => [from, to]
  }

  function AllClaimed(requests: seq<Request>): seq<Path> {
    if requests == [] then [] else AllClaimed(requests[..|requests| - 1]) + Claimed(requests[|requests| - 1])
  }

  /** No two claimed paths are equal up to ASCII case. */
  predicate Distinct(paths: seq<Path>) {
    forall i, j | 0 <= i < j < |paths| :: Fold(paths[i]) != Fold(paths[j])
  }

  /** The characters with the Unicode property White_Space. */
  const WHITE_SPACE := "\t\n\U{b}\U{c}\r \U{85}\U{a0}\U{1680}\U{2000}\U{2001}\U{2002}\U{2003}\U{2004}\U{2005}"
                     + "\U{2006}\U{2007}\U{2008}\U{2009}\U{200a}\U{2028}\U{2029}\U{202f}\U{205f}\U{3000}"

  predicate Blank(purpose: string) {
    forall c | c in purpose :: c in WHITE_SPACE
  }

  /** Everything the tool demands of a request list. */
  predicate Acceptable(scene: Scene, requests: seq<Request>, purpose: string) {
    && 1 <= |requests| <= MAX_OPERATIONS && !Blank(purpose)
    && Distinct(AllClaimed(requests))
    && forall i | 0 <= i < |requests| :: Plan(scene, requests[i]).Some?
  }

  lemma PlanPrepared(scene: Scene, request: Request)
    requires Plan(scene, request).Some?
    requires Distinct(Claimed(request))
    ensures PreparedOp(scene.disk, Plan(scene, request).value)
    ensures forall p :: p in Claims(Plan(scene, request).value) <==> p in Claimed(request)
  {
  }

  lemma DistinctParts(a: seq<Path>, b: seq<Path>)
    requires Distinct(a + b)
    ensures Distinct(a) && Distinct(b)
    ensures forall p :: !(p in a && p in b)
  {
    hide Fold;
    forall i, j | 0 <= i < j < |a|
      ensures Fold(a[i]) != Fold(a[j])
    {
      assert (a + b)[i] == a[i] && (a + b)[j] == a[j];
    }
    forall i, j | 0 <= i < j < |b|
      ensures Fold(b[i]) != Fold(b[j])
    {
      assert (a + b)[|a| + i] == b[i] && (a + b)[|a| + j] == b[j];
    }
    forall i, j | 0 <= i < |a| && 0 <= j < |b|
      ensures a[i] != b[j]
    {
      assert (a + b)[i] == a[i] && (a + b)[|a| + j] == b[j];
    }
  }

  lemma {:induction false} ClaimedAmong(requests: seq<Request>, i: nat, p: Path)
    requires i < |requests| && p in Claimed(requests[i])
    ensures p in AllClaimed(requests)
  {
    hide Claimed;
    if i < |requests| - 1 {
      ClaimedAmong(requests[..|requests| - 1], i, p);
    }
  }

  lemma {:induction false} DistinctPrefix(requests: seq<Request>, m: nat)
    requires m <= |requests| && Distinct(AllClaimed(requests))
    ensures Distinct(AllClaimed(requests[..m]))
    decreases |requests|
  {
    hide Claimed, Distinct;
    var n := |requests| - 1;
    if m == |requests| {
      assert requests[..m] == requests;
    } else {
      DistinctParts(AllClaimed(requests[..n]), Claimed(requests[n]));
      DistinctPrefix(requests[..n], m);
      assert requests[..n][..m] == requests[..m];
    }
  }

  lemma DistinctRequest(requests: seq<Request>, i: nat)
    requires i < |requests| && Distinct(AllClaimed(requests))
    ensures Distinct(Claimed(requests[i]))
    ensures forall p :: !(p in AllClaimed(requests[..i]) && p in Claimed(requests[i]))
  {
    hide Claimed, Distinct;
    DistinctPrefix(requests, i + 1);
    assert requests[..i + 1][..i] == requests[..i];
    DistinctParts(AllClaimed(requests[..i]), Claimed(requests[i]));
  }

  lemma DistinctRequests(requests: seq<Request>, i: nat, j: nat, p: Path)
    requires i < j < |requests| && Distinct(AllClaimed(requests))
    requires p in Claimed(requests[i])
    ensures p !in Claimed(requests[j])
  {
    hide Claimed, Distinct, AllClaimed;
    DistinctRequest(requests, j);
    ClaimedAmong(requests[..j], i, p);
  }

  /** The operations an accepted request list stands for. */
  predicate Planned(scene: Scene, requests: seq<Request>, ops: seq<Op>) {
    |ops| == |requests| && forall i | 0 <= i < |ops| :: Plan(scene, requests[i]) == Some(ops[i])
  }

  /** Preparation promises what the transaction relies on. */
  lemma PlannedIsPrepared(scene: Scene, requests: seq<Request>, ops: seq<Op>)
    requires Planned(scene, requests, ops) && Distinct(AllClaimed(requests))
    ensures Prepared(scene.disk, ops)
  {
    hide Plan, Claimed, Distinct, PreparedOp, AllClaimed;
    forall i | 0 <= i < |ops|
      ensures PreparedOp(scene.disk, ops[i])
      ensures forall p :: p in Claims(ops[i]) <==> p in Claimed(requests[i])
    {
      DistinctRequest(requests, i);
      PlanPrepared(scene, requests[i]);
    }
    forall i, j | 0 <= i < j < |ops|
      ensures Claims(ops[i]) !! Claims(ops[j])
    {
      forall p | p in Claims(ops[i])
        ensures p !in Claims(ops[j])
      {
        DistinctRequests(requests, i, j, p);
      }
    }
  }

  // The check as the tool performs it.

  /** `claim_path`. */
  method ClaimPath(touched: set<Path>, path: Path) returns (ok: bool, now: set<Path>)
    ensures ok <==> Fold(path) !in touched
    ensures now == touched + {Fold(path)}
  {
    ok := Fold(path) !in touched;
    now := touched + {Fold(path)};
  }

  function Folded(paths: seq<Path>): set<Path> {
    set i | 0 <= i < |paths| :: Fold(paths[i])
  }

  lemma FoldedSnoc(paths: seq<Path>, p: Path)
    ensures Folded(paths + [p]) == Folded(paths) + {Fold(p)}
  {
    hide Fold;
    var more := paths + [p];
    forall f
      ensures f in Folded(more) <==> f in Folded(paths) + {Fold(p)}
    {
      assert Fold(more[|paths|]) == Fold(p);
      if i :| 0 <= i < |paths| && Fold(paths[i]) == f {
        assert Fold(more[i]) == f;
      }
    }
  }

  lemma DistinctSnoc(paths: seq<Path>, p: Path)
    ensures Distinct(paths + [p]) <==> Distinct(paths) && Fold(p) !in Folded(paths)
    ensures Folded(paths + [p]) == Folded(paths) + {Fold(p)}
  {
    hide Fold;
    FoldedSnoc(paths, p);
    var more := paths + [p];
    if Distinct(more) {
      DistinctParts(paths, [p]);
      forall i | 0 <= i < |paths|
        ensures Fold(paths[i]) != Fold(p)
      {
        assert Fold(more[i]) != Fold(more[|paths|]);
      }
    } else {
      var i, j :| 0 <= i < j < |more| && Fold(more[i]) == Fold(more[j]);
      assert j < |paths| ==> Fold(paths[i]) == Fold(paths[j]);
      assert j == |paths| ==> Fold(paths[i]) in Folded(paths);
    }
  }

  /** `claim_path` on each path of a request, in order. */
  method ClaimRequest(touched: set<Path>, request: Request, ghost paths: seq<Path>) returns (ok: bool, now: set<Path>)
    requires touched == Folded(paths) && Distinct(paths)
    ensures ok <==> Distinct(paths + Claimed(request))
    ensures ok ==> now == Folded(paths + Claimed(request))
  {
    match request
    case CreateFile(path, _) =>
      DistinctSnoc(paths, path);
      ok, now := ClaimPath(touched, path);
    case UpdateFile(path, _, _) =>
      DistinctSnoc(paths, path);
      ok, now := ClaimPath(touched, path);
    case DeleteFile(path, _) =>
      DistinctSnoc(paths, path);
      ok, now := ClaimPath(touched, path);
    case RenameFile(from, to, _) =>
      DistinctSnoc(paths, from);
      DistinctSnoc(paths + [from], to);
      assert paths + [from] + [to] == paths + [from, to];
      ok, now := ClaimPath(touched, from);
      if ok {
        ok, now := ClaimPath(now, to);
      }
  }

  method PrepareOne(scene: Scene, request: Request) returns (operation: Option<Op>)
    ensures operation == Plan(scene, request)
  {
    if request.UpdateFile? && Readable(scene, request.path, request.hash) {
      var before := scene.disk.files[request.path];
      var after := ApplyReplacements(before, request.replacements);
      return if after.None? then None else Some(Update(request.path, before, after.value));
    }
    return Plan(scene, request);
  }

  /** A list fails as soon as some prefix of it does. */
  lemma PrefixFails(scene: Scene, requests: seq<Request>, purpose: string, m: nat)
    requires m < |requests|
    requires !Distinct(AllClaimed(requests[..m + 1])) || Plan(scene, requests[m]).None?
    ensures !Acceptable(scene, requests, purpose)
  {
    if Acceptable(scene, requests, purpose) {
      DistinctPrefix(requests, m + 1);
      assert false;
    }
  }

  /**
   `prepare_patch`: a list is turned into operations exactly when it is acceptable, and then nothing
   stands in their way: every preimage is the file's content, every new path is free, no path is
   claimed twice.
   */
  method PreparePatch(scene: Scene, requests: seq<Request>, purpose: string) returns (ops: Option<seq<Op>>)
    ensures ops.Some? <==> Acceptable(scene, requests, purpose)
    ensures ops.Some? ==> Planned(scene, requests, ops.value) && Prepared(scene.disk, ops.value)
  {
    hide Plan, Claimed, PreparedOp, Claims, Prepared;
    if requests == [] || |requests| > MAX_OPERATIONS || Blank(purpose) {
      return None;
    }
    var touched: set<Path> := {};
    var operations: seq<Op> := [];
    for i := 0 to |requests|
      invariant Distinct(AllClaimed(requests[..i])) && touched == Folded(AllClaimed(requests[..i]))
      invariant Planned(scene, requests[..i], operations)
    {
      assert requests[..i + 1][..i] == requests[..i];
      var ok;
      ok, touched := ClaimRequest(touched, requests[i], AllClaimed(requests[..i]));
      var operation := PrepareOne(scene, requests[i]);
      if !ok || operation.None? {
        PrefixFails(scene, requests, purpose, i);
        return None;
      }
      operations := operations + [operation.value];
    }
    assert requests[..|requests|] == requests;
    PlannedIsPrepared(scene, requests, operations);
    return Some(operations);
  }
}
