/** What `prepare_patch` accepts, spelled out request by request. */
module Acceptance {
  import opened Wrappers
  import opened GitModel
  import opened Text
  import opened Disk
  import opened Preparation

  // Paths that are the same up to ASCII case.

  predicate SameLetter(a: char, b: char) {
    a == b || ('A' <= a <= 'Z' && b as int == a as int + 32) || ('A' <= b <= 'Z' && a as int == b as int + 32)
  }

  predicate SameName(a: string, b: string) {
    |a| == |b| && forall i | 0 <= i < |a| :: SameLetter(a[i], b[i])
  }

  predicate SamePath(p: Path, q: Path) {
    |p| == |q| && forall i | 0 <= i < |p| :: SameName(p[i], q[i])
  }

  lemma LowerIff(a: string, b: string)
    ensures Lower(a) == Lower(b) <==> SameName(a, b)
  {
    forall i | 0 <= i < |a| && i < |b|
      ensures LowerChar(a[i]) == LowerChar(b[i]) <==> SameLetter(a[i], b[i])
    {
    }
    if |a| == |b| {
      assert forall i | 0 <= i < |a| :: Lower(a)[i] == Lower(b)[i] <==> SameLetter(a[i], b[i]);
    }
  }

  lemma {:induction false} FoldIff(p: Path, q: Path)
    ensures Fold(p) == Fold(q) <==> SamePath(p, q)
  {
    hide SameName, Lower;
    if p != [] && q != [] {
      FoldIff(p[1..], q[1..]);
      LowerIff(p[0], q[0]);
      assert Fold(p)[0] == Lower(p[0]) && Fold(p)[1..] == Fold(p[1..]);
      assert Fold(q)[0] == Lower(q[0]) && Fold(q)[1..] == Fold(q[1..]);
      assert forall i | 0 < i < |p| :: p[i] == p[1..][i - 1];
      assert forall i | 0 < i < |q| :: q[i] == q[1..][i - 1];
      if SamePath(p[1..], q[1..]) && SameName(p[0], q[0]) {
        forall i | 0 <= i < |p|
          ensures SameName(p[i], q[i])
        {
          assert i > 0 ==> SameName(p[1..][i - 1], q[1..][i - 1]);
        }
      }
    }
  }

  // Claims.

  function Touches(request: Request): set<Path> {
    match request
    case CreateFile(path, _) => {path}
    case UpdateFile(path, _, _) => {path}
    case DeleteFile(path, _) => {path}
    case RenameFile(from, to, _) => {from, to}
  }

  /** No path is claimed twice, and no rename claims one path. */
  predicate ClaimedOnce(requests: seq<Request>) {
    && (forall i | 0 <= i < |requests| && requests[i].RenameFile? :: !SamePath(requests[i].from, requests[i].to))
    && (forall i, j, p, q | 0 <= i < j < |requests| && p in Touches(requests[i]) && q in Touches(requests[j]) ::
          !SamePath(p, q))
  }

  lemma TouchesClaimed(request: Request)
    ensures forall p :: p in Claimed(request) <==> p in Touches(request)
    ensures Distinct(Claimed(request)) <==> (request.RenameFile? ==> !SamePath(request.from, request.to))
  {
    hide Fold, SamePath;
    if request.RenameFile? {
      FoldIff(request.from, request.to);
      assert Claimed(request)[0] == request.from && Claimed(request)[1] == request.to;
    }
  }

  lemma {:induction false} AllTouched(requests: seq<Request>)
    ensures forall p :: p in AllClaimed(requests) <==> exists i :: 0 <= i < |requests| && p in Touches(requests[i])
  {
    hide Claimed, Touches;
    if requests != [] {
      var n := |requests| - 1;
      AllTouched(requests[..n]);
      TouchesClaimed(requests[n]);
      assert forall i | 0 <= i < n :: requests[..n][i] == requests[i];
    }
  }

  lemma DistinctConcat(a: seq<Path>, b: seq<Path>)
    ensures Distinct(a + b) <==> Distinct(a) && Distinct(b) && forall p, q | p in a && q in b :: Fold(p) != Fold(q)
  {
    hide Fold;
    var c := a + b;
    if Distinct(c) {
      DistinctParts(a, b);
      forall p, q | p in a && q in b
        ensures Fold(p) != Fold(q)
      {
        var i :| 0 <= i < |a| && a[i] == p;
        var j :| 0 <= j < |b| && b[j] == q;
        assert c[i] == p && c[|a| + j] == q;
      }
    }
    if Distinct(a) && Distinct(b) && forall p, q | p in a && q in b :: Fold(p) != Fold(q) {
      forall i, j | 0 <= i < j < |c|
        ensures Fold(c[i]) != Fold(c[j])
      {
        assert i < |a| <= j ==> c[i] in a && c[j] in b;
      }
    }
  }

  lemma {:induction false} DistinctIff(requests: seq<Request>)
    ensures Distinct(AllClaimed(requests)) <==> ClaimedOnce(requests)
  {
    hide Claimed, Touches, Distinct, Fold, SamePath;
    if requests == [] {
      assert Distinct(AllClaimed(requests)) by { NothingClaimed(); }
    } else {
      var n := |requests| - 1;
      var front, last := requests[..n], requests[n];
      DistinctIff(front);
      TouchesClaimed(last);
      DistinctConcat(AllClaimed(front), Claimed(last));
      CrossClaims(front, last);
      assert forall i | 0 <= i < n :: front[i] == requests[i];
      OnceSnoc(requests);
    }
  }

  /** No claim of the last request repeats one of those before it. */
  lemma CrossClaims(front: seq<Request>, last: Request)
    ensures (forall p, q | p in AllClaimed(front) && q in Claimed(last) :: Fold(p) != Fold(q)) <==>
              forall i, p, q | 0 <= i < |front| && p in Touches(front[i]) && q in Touches(last) :: !SamePath(p, q)
  {
    hide Claimed, Touches, Fold, SamePath;
    AllTouched(front);
    TouchesClaimed(last);
    if forall p, q | p in AllClaimed(front) && q in Claimed(last) :: Fold(p) != Fold(q) {
      forall i, p, q | 0 <= i < |front| && p in Touches(front[i]) && q in Touches(last)
        ensures !SamePath(p, q)
      {
        FoldIff(p, q);
        assert p in AllClaimed(front) && q in Claimed(last);
      }
    } else {
      var p, q :| p in AllClaimed(front) && q in Claimed(last) && Fold(p) == Fold(q);
      FoldIff(p, q);
    }
  }

  lemma NothingClaimed()
    ensures Distinct(AllClaimed([]))
  {
  }

  lemma OnceSnoc(requests: seq<Request>)
    requires requests != []
    ensures var n := |requests| - 1;
            ClaimedOnce(requests) <==>
              && ClaimedOnce(requests[..n])
              && (requests[n].RenameFile? ==> !SamePath(requests[n].from, requests[n].to))
              && (forall i, p, q | 0 <= i < n && p in Touches(requests[i]) && q in Touches(requests[n]) ::
                  !SamePath(p, q))
  {
    hide SamePath, Touches;
    var n := |requests| - 1;
    assert forall i | 0 <= i < n :: requests[..n][i] == requests[i];
  }

  // One request.

  /** The name of a file the tool writes while it works. */
  ghost predicate Reserved(name: string) {
    exists middle: string :: name == ".nuillu-code-" + middle + ".tmp"
  }

  /** A path of ordinary names. */
  ghost predicate Ordinary(p: Path) {
    |p| > 0 && forall i | 0 <= i < |p| :: p[i] !in {"", ".", "..", ".git"} && '/' !in p[i] && !Reserved(p[i])
  }

  lemma ReservedIff(name: string)
    ensures Reserved(name) <==> TRANSACTION_FILE_PREFIX <= name && EndsWith(name, TRANSACTION_FILE_SUFFIX)
  {
    if TRANSACTION_FILE_PREFIX <= name && EndsWith(name, TRANSACTION_FILE_SUFFIX) {
      NoOverlap(name);
      assert name == ".nuillu-code-" + name[13..|name| - 4] + ".tmp";
    }
    if middle: string :| name == ".nuillu-code-" + middle + ".tmp" {
      assert name[|name| - 4..] == ".tmp" && name[..13] == ".nuillu-code-";
    }
  }

  /** The reserved beginning does not run into the reserved end. */
  lemma NoOverlap(name: string)
    requires ".nuillu-code-" <= name && EndsWith(name, ".tmp")
    ensures 17 <= |name|
  {
    assert name[12] == '-' && name[11] == 'e' && name[10] == 'd' && name[9] == 'o';
    var tail := name[|name| - 4..];
    assert forall i | 0 <= i < 4 :: tail[i] == name[|name| - 4 + i];
    assert tail == ".tmp" && tail[0] == '.' && tail[3] == 'p';
    assert name[|name| - 1] == 'p' && name[|name| - 4] == '.';
  }

  lemma OrdinaryIff(p: Path)
    ensures LegalPath(p) <==> Ordinary(p)
  {
    hide Reserved, EndsWith;
    forall i | 0 <= i < |p|
      ensures LegalName(p[i]) <==> p[i] !in {"", ".", "..", ".git"} && '/' !in p[i] && !Reserved(p[i])
    {
      ReservedIff(p[i]);
    }
    if LegalPath(p) {
      assert forall i | 0 <= i < |p| :: p[i] in p;
    }
  }

  /** The hash is 64 hexadecimal digits, and spells the file's in either case. */
  predicate Attests(hash: string, sum: string) {
    && |hash| == 64 && |sum| == 64
    && (forall i | 0 <= i < 64 :: '0' <= hash[i] <= '9' || 'a' <= hash[i] <= 'f' || 'A' <= hash[i] <= 'F')
    && (forall i | 0 <= i < 64 :: sum[i] == if 'A' <= hash[i] <= 'F' then (hash[i] as int + 32) as char else hash[i])
  }

  lemma AttestsIff(hash: string, sum: string)
    ensures LegalHash(hash) && sum == Lower(hash) <==> Attests(hash, sum)
  {
    if LegalHash(hash) && sum == Lower(hash) {
      assert forall i | 0 <= i < 64 :: hash[i] in hash && HexDigit(hash[i]);
    }
    if Attests(hash, sum) {
      assert forall i | 0 <= i < 64 :: Lower(hash)[i] == sum[i];
    }
  }

  /** Nothing is at the path, and no file above it. */
  predicate Vacant(d: Disk, p: Path) {
    p !in d.files && p !in d.dirs && forall k | 0 <= k < |p| :: p[..k] !in d.files
  }

  /** A visible text file with the announced hash. */
  ghost predicate Attested(scene: Scene, p: Path, hash: string) {
    && Ordinary(p) && p in scene.disk.files && scene.visible(scene.disk.files, p)
    && '\0' !in scene.disk.files[p] && Attests(hash, scene.sha(scene.disk.files[p]))
  }

  ghost predicate Permitted(scene: Scene, request: Request) {
    match request
    case CreateFile(path, content) => Ordinary(path) && Vacant(scene.disk, path) && '\0' !in content
    case UpdateFile(path, hash, replacements) =>
      Attested(scene, path, hash) && exists after :: EditsTo(scene.disk.files[path], replacements, after)
    case DeleteFile(path, hash) => Attested(scene, path, hash)
    case RenameFile(from, to, hash) => Attested(scene, from, hash) && Ordinary(to) && Vacant(scene.disk, to)
  }

  lemma ReadableIff(scene: Scene, p: Path, hash: string)
    ensures Readable(scene, p, hash) <==> Attested(scene, p, hash)
  {
    hide LegalPath, Ordinary, LegalHash, Attests, Lower;
    OrdinaryIff(p);
    if p in scene.disk.files {
      AttestsIff(hash, scene.sha(scene.disk.files[p]));
    }
  }

  lemma PlanIff(scene: Scene, request: Request)
    ensures Plan(scene, request).Some? <==> Permitted(scene, request)
  {
    hide LegalPath, Ordinary, Readable, Attests, EditsTo, Edit;
    match request
    case CreateFile(path, content) =>
      OrdinaryIff(path);
    case UpdateFile(path, hash, replacements) =>
      ReadableIff(scene, path, hash);
      if Attested(scene, path, hash) {
        var before := scene.disk.files[path];
        forall after
          ensures Edit(before, replacements) == Some(after) <==> EditsTo(before, replacements, after)
        {
          EditIff(before, replacements, after);
        }
      }
    case DeleteFile(path, hash) =>
      ReadableIff(scene, path, hash);
    case RenameFile(from, to, hash) =>
      ReadableIff(scene, from, hash);
      OrdinaryIff(to);
  }

  /** The white space of Unicode, by code point. */
  predicate Space(c: char) {
    var code := c as int;
    || 9 <= code <= 13 || 0x2000 <= code <= 0x200a
    || code in [0x20, 0x85, 0xa0, 0x1680, 0x2028, 0x2029, 0x202f, 0x205f, 0x3000]
  }

  lemma SpaceIff(c: char)
    ensures c in WHITE_SPACE <==> Space(c)
  {
    var first := "\t\n\U{b}\U{c}\r \U{85}\U{a0}\U{1680}\U{2000}\U{2001}\U{2002}\U{2003}\U{2004}\U{2005}";
    assert c in WHITE_SPACE <==> c in first || c in WHITE_SPACE[|first|..];
  }

  /**
   The whole list: 1 to 32 requests, a purpose that is not blank, no path claimed twice up to ASCII case, and
   each request permitted.
   */
  lemma AcceptableIff(scene: Scene, requests: seq<Request>, purpose: string)
    ensures Preparation.Acceptable(scene, requests, purpose) <==>
              && 1 <= |requests| <= 32 && (exists c :: c in purpose && !Space(c))
              && ClaimedOnce(requests) && forall i | 0 <= i < |requests| :: Permitted(scene, requests[i])
  {
    hide Plan, Permitted, Distinct, ClaimedOnce, Space;
    DistinctIff(requests);
    forall c
      ensures c in WHITE_SPACE <==> Space(c)
    {
      SpaceIff(c);
    }
    forall i | 0 <= i < |requests|
      ensures Plan(scene, requests[i]).Some? <==> Permitted(scene, requests[i])
    {
      PlanIff(scene, requests[i]);
    }
  }
}
