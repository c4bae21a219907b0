/**
 Bounded file listings (crates/code/src/workspace.rs:108-121, 224-257, 628-645): what is read of a lister's
 output, how it is cut into paths, and what the filtered list promises when the output was cut short.
 */
module Listing {
  import opened Wrappers
  import opened Glob
  import opened Paths

  const NUL: Symbol := 0
  const STDERR_BYTE_LIMIT := 16 * 1024

  /** What the lister prints: every path followed by a NUL byte. */
  function Stream(paths: seq<Symbols>): Symbols {
    if paths == [] then [] else paths[0] + [NUL] + Stream(paths[1..])
  }

  /** Paths that can be printed that way. */
  predicate Printable(paths: seq<Symbols>) {
    forall i | 0 <= i < |paths| :: paths[i] != [] && NUL !in paths[i]
  }

  datatype Read = Read(bytes: Symbols, truncated: bool)

  /** `read_limited`: one byte more than the limit is asked for, to see whether there is more. */
  function ReadLimited(stream: Symbols, limit: nat): Read {
    var taken := if |stream| <= limit + 1 then stream else stream[..limit + 1];
    Read(if |taken| <= limit then taken else taken[..limit], |taken| > limit)
  }

  /** `complete_delimited_prefix`. */
  function DelimitedPrefix(bytes: Symbols, delimiter: Symbol): Symbols {
    if bytes == [] || bytes[|bytes| - 1] == delimiter then bytes else DelimitedPrefix(bytes[..|bytes| - 1], delimiter)
  }

  function FirstNul(s: Symbols): (k: nat)
    ensures k <= |s| && forall i | 0 <= i < k :: s[i] != NUL
    ensures k < |s| ==> s[k] == NUL
  {
    if s == [] || s[0] == NUL then 0 else 1 + FirstNul(s[1..])
  }

  /** The pieces between NUL bytes, without the empty ones. */
  function Pieces(bytes: Symbols): seq<Symbols>
    decreases |bytes|
  {
    var k := FirstNul(bytes);
    var piece := if k == 0 then [] else [bytes[..k]];
    if k == |bytes| then piece else piece + Pieces(bytes[k + 1..])
  }

  predicate AllLegal(paths: seq<Symbols>) {
    forall i | 0 <= i < |paths| :: LegalPath(paths[i])
  }

  /** `split_nul_paths`: one path that is not legal spoils the whole list. */
  method SplitNulPaths(bytes: Symbols) returns (paths: Option<seq<Symbols>>)
    ensures paths == if AllLegal(Pieces(bytes)) then Some(Pieces(bytes)) else None
  {
    var pieces := Pieces(bytes);
    for i := 0 to |pieces|
      invariant AllLegal(pieces[..i])
    {
      var ok := ValidateRelativePath(pieces[i]);
      if !ok {
        return None;
      }
    }
    assert pieces[..|pieces|] == pieces;
    return Some(pieces);
  }

  // Decoding a cut stream.

  lemma NulAfter(head: Symbols, tail: Symbols)
    requires NUL !in head
    ensures FirstNul(head + [NUL] + tail) == |head|
  {
    var s := head + [NUL] + tail;
    assert forall i | 0 <= i < |head| :: s[i] == head[i];
    assert s[|head|] == NUL;
  }

  /** Cutting the stream into pieces gives the paths back. */
  lemma {:induction false} StreamReadsBack(paths: seq<Symbols>)
    requires Printable(paths)
    ensures Pieces(Stream(paths)) == paths
  {
    if paths == [] {
      assert Pieces([]) == [];
    } else {
      var s := Stream(paths);
      NulAfter(paths[0], Stream(paths[1..]));
      assert s[..|paths[0]|] == paths[0] && s[|paths[0]| + 1..] == Stream(paths[1..]);
      StreamReadsBack(paths[1..]);
    }
  }

  /** How many whole paths fit into the limit. */
  function Fitting(paths: seq<Symbols>, limit: nat): (k: nat)
    ensures k <= |paths|
  {
    if paths == [] || |paths[0]| + 1 > limit then 0 else 1 + Fitting(paths[1..], limit - |paths[0]| - 1)
  }

  /** It is as many as possible. */
  lemma {:induction false} FittingIsLargest(paths: seq<Symbols>, limit: nat, k: nat)
    requires k <= |paths|
    ensures |Stream(paths[..k])| <= limit <==> k <= Fitting(paths, limit)
  {
    if k > 0 {
      var first := |paths[0]| + 1;
      assert paths[..k][0] == paths[0] && paths[..k][1..] == paths[1..][..k - 1];
      if first <= limit {
        FittingIsLargest(paths[1..], limit - first, k - 1);
      }
    }
  }

  lemma {:induction false} PrefixOfTail(bytes: Symbols, tail: Symbols)
    requires NUL !in tail
    ensures DelimitedPrefix(bytes + tail, NUL) == DelimitedPrefix(bytes, NUL)
  {
    if tail == [] {
      assert bytes + tail == bytes;
    } else {
      var all := bytes + tail;
      var front := tail[..|tail| - 1];
      assert all[|all| - 1] == tail[|tail| - 1] && tail[|tail| - 1] in tail;
      assert all[..|all| - 1] == bytes + front;
      assert forall b | b in front :: b in tail;
      PrefixOfTail(bytes, front);
    }
  }

  /** Cutting the stream anywhere and then at the last NUL leaves the stream of the paths that fit. */
  lemma {:induction false} CutStream(paths: seq<Symbols>, limit: nat)
    requires Printable(paths) && limit < |Stream(paths)|
    ensures DelimitedPrefix(Stream(paths)[..limit], NUL) == Stream(paths[..Fitting(paths, limit)])
  {
    var s, head, rest := Stream(paths), paths[0], paths[1..];
    if |head| + 1 > limit {
      assert s[..limit] == [] + head[..limit];
      PrefixOfTail([], head[..limit]);
      assert paths[..0] == [];
    } else {
      var n := |head| + 1;
      CutStream(rest, limit - n);
      assert s[..limit] == head + [NUL] + Stream(rest)[..limit - n];
      PrefixThrough(head, Stream(rest)[..limit - n]);
      var k := Fitting(rest, limit - n);
      assert paths[..k + 1][0] == head && paths[..k + 1][1..] == rest[..k];
    }
  }

  lemma {:induction false} PrefixThrough(head: Symbols, tail: Symbols)
    ensures DelimitedPrefix(head + [NUL] + tail, NUL) == head + [NUL] + DelimitedPrefix(tail, NUL)
  {
    var all := head + [NUL] + tail;
    if tail == [] {
      assert all == head + [NUL] && head + [NUL] + [] == head + [NUL];
    } else if tail[|tail| - 1] != NUL {
      assert all[..|all| - 1] == head + [NUL] + tail[..|tail| - 1];
      PrefixThrough(head, tail[..|tail| - 1]);
    }
  }

  /**
   What is decoded of a lister's output under a byte limit.  `noisy` says that its error output was cut, which
   the code does not tell from a cut of the output itself.
   */
  function FileBytes(stream: Symbols, limit: nat, noisy: bool): Symbols {
    var read := ReadLimited(stream, limit);
    if read.truncated || noisy then DelimitedPrefix(read.bytes, NUL) else read.bytes
  }

  lemma {:induction false} StreamEnds(paths: seq<Symbols>)
    ensures DelimitedPrefix(Stream(paths), NUL) == Stream(paths)
  {
    if paths != [] {
      StreamEnds(paths[1..]);
      PrefixThrough(paths[0], Stream(paths[1..]));
    }
  }

  /**
   Whatever the limit, decoding yields whole paths: the longest prefix of the list that fits.  Truncation is
   reported exactly when a path is missing or the error output was cut.
   */
  lemma DecodedIsPrefix(paths: seq<Symbols>, limit: nat, noisy: bool)
    requires Printable(paths)
    ensures var k := Fitting(paths, limit);
            && Pieces(FileBytes(Stream(paths), limit, noisy)) == paths[..k]
            && (ReadLimited(Stream(paths), limit).truncated || noisy <==> k < |paths| || noisy)
  {
    hide Stream, Pieces, Fitting, DelimitedPrefix, Printable;
    var s, k := Stream(paths), Fitting(paths, limit);
    StreamReadsBackPrefix(paths, k);
    FittingIsLargest(paths, limit, |paths|);
    assert paths[..|paths|] == paths;
    if limit < |s| {
      CutStream(paths, limit);
      assert ReadLimited(s, limit).bytes == s[..limit];
    } else {
      StreamEnds(paths);
    }
  }

  /**
   What is kept of the output, told without cutting: all of it, if nothing was cut; else all up to the last NUL
   byte within the limit.
   */
  predicate Kept(bytes: Symbols, stream: Symbols, limit: nat, noisy: bool) {
    && bytes <= stream && |bytes| <= limit
    && if |stream| <= limit && !noisy then bytes == stream
       else (bytes == [] || bytes[|bytes| - 1] == NUL)
            && forall i | |bytes| <= i < |stream| && i < limit :: stream[i] != NUL
  }

  lemma {:induction false} PrefixEnds(bytes: Symbols)
    ensures var r := DelimitedPrefix(bytes, NUL);
            && r <= bytes && (r == [] || r[|r| - 1] == NUL) && forall i | |r| <= i < |bytes| :: bytes[i] != NUL
  {
    if bytes != [] && bytes[|bytes| - 1] != NUL {
      PrefixEnds(bytes[..|bytes| - 1]);
    }
  }

  lemma FileBytesKept(stream: Symbols, limit: nat, noisy: bool)
    ensures Kept(FileBytes(stream, limit, noisy), stream, limit, noisy)
  {
    hide DelimitedPrefix;
    var taken := ReadLimited(stream, limit).bytes;
    assert taken == if |stream| <= limit then stream else stream[..limit];
    PrefixEnds(taken);
  }

  /** The bytes from i to j are a piece: neither end could be further out. */
  predicate PieceAt(bytes: Symbols, i: nat, j: nat) {
    && i < j <= |bytes| && NUL !in bytes[i..j]
    && (i == 0 || bytes[i - 1] == NUL) && (j == |bytes| || bytes[j] == NUL)
  }

  lemma {:induction false} PieceIff(bytes: Symbols, p: Symbols)
    ensures p in Pieces(bytes) <==> exists i: nat, j: nat :: PieceAt(bytes, i, j) && bytes[i..j] == p
    decreases |bytes|
  {
    var k := FirstNul(bytes);
    if k < |bytes| {
      var tail := bytes[k + 1..];
      PieceIff(tail, p);
      forall i: nat, j: nat
        ensures PieceAt(tail, i, j) <==> PieceAt(bytes, k + 1 + i, k + 1 + j)
        ensures PieceAt(tail, i, j) ==> tail[i..j] == bytes[k + 1 + i..k + 1 + j]
      {
        assert i <= j <= |tail| ==> tail[i..j] == bytes[k + 1 + i..k + 1 + j];
      }
    }
    if k > 0 {
      assert PieceAt(bytes, 0, k) && bytes[0..k] == bytes[..k];
    }
    forall i: nat, j: nat | PieceAt(bytes, i, j) && i <= k
      ensures i == 0 && j == k
    {
      assert forall m | i <= m < j :: bytes[m] == bytes[i..j][m - i];
    }
    if i: nat, j: nat :| PieceAt(bytes, i, j) && bytes[i..j] == p && i > k {
      assert PieceAt(bytes[k + 1..], i - (k + 1), j - (k + 1));
    }
  }

  lemma StreamReadsBackPrefix(paths: seq<Symbols>, k: nat)
    requires Printable(paths) && k <= |paths|
    ensures Pieces(Stream(paths[..k])) == paths[..k]
  {
    StreamReadsBack(paths[..k]);
  }

  // The listing.

  /** Symbol-wise lexicographic order. */
  predicate Leq(a: Symbols, b: Symbols) {
    a == [] || (b != [] && (a[0] < b[0] || (a[0] == b[0] && Leq(a[1..], b[1..]))))
  }

  /** The first difference between two texts is for the better. */
  ghost predicate SmallerAt(a: Symbols, b: Symbols, k: nat) {
    k < |a| && k < |b| && a[..k] == b[..k] && a[k] < b[k]
  }

  lemma SmallerLater(a: Symbols, b: Symbols, k: nat)
    requires a != [] && b != []
    ensures SmallerAt(a, b, 0) <==> a[0] < b[0]
    ensures SmallerAt(a, b, k + 1) <==> a[0] == b[0] && SmallerAt(a[1..], b[1..], k)
  {
    if k < |a| - 1 && k < |b| - 1 {
      assert a[..k + 1] == [a[0]] + a[1..][..k] && b[..k + 1] == [b[0]] + b[1..][..k];
      assert a[..k + 1] == b[..k + 1] ==> a[..k + 1][0] == b[..k + 1][0] && a[..k + 1][1..] == b[..k + 1][1..];
    }
  }

  /** One text is the beginning of the other, or the first difference decides. */
  lemma {:induction false} LeqIff(a: Symbols, b: Symbols)
    ensures Leq(a, b) <==> a <= b || exists k: nat :: SmallerAt(a, b, k)
  {
    if a != [] && b != [] {
      hide SmallerAt;
      LeqIff(a[1..], b[1..]);
      SmallerLater(a, b, 0);
      assert a == [a[0]] + a[1..] && b == [b[0]] + b[1..];
      if k: nat :| SmallerAt(a[1..], b[1..], k) {
        SmallerLater(a, b, k);
      }
      if k: nat :| SmallerAt(a, b, k) {
        if k > 0 {
          SmallerLater(a, b, k - 1);
        }
      }
    }
  }

  lemma {:induction false} LeqTotal(a: Symbols, b: Symbols)
    ensures Leq(a, b) || Leq(b, a)
  {
    if a != [] && b != [] {
      LeqTotal(a[1..], b[1..]);
    }
  }

  lemma {:induction false} LeqTransitive(a: Symbols, b: Symbols, c: Symbols)
    requires Leq(a, b) && Leq(b, c)
    ensures Leq(a, c)
  {
    if a != [] && a[0] == b[0] == c[0] {
      LeqTransitive(a[1..], b[1..], c[1..]);
    }
  }

  predicate Sorted(paths: seq<Symbols>) {
    forall i, j | 0 <= i < j < |paths| :: Leq(paths[i], paths[j])
  }

  function Place(paths: seq<Symbols>, p: Symbols): (k: nat)
    ensures k <= |paths|
    ensures forall i | 0 <= i < k :: !Leq(p, paths[i])
    ensures k < |paths| ==> Leq(p, paths[k])
  {
    if paths == [] || Leq(p, paths[0]) then 0 else 1 + Place(paths[1..], p)
  }

  lemma Inserted(paths: seq<Symbols>, p: Symbols)
    requires Sorted(paths)
    ensures var k := Place(paths, p); Sorted(paths[..k] + [p] + paths[k..])
  {
    var k := Place(paths, p);
    var r := paths[..k] + [p] + paths[k..];
    forall i, j | 0 <= i < j < |r|
      ensures Leq(r[i], r[j])
    {
      if i < k && j == k {
        LeqTotal(p, paths[i]);
      } else if i == k {
        if j > k + 1 {
          LeqTransitive(p, paths[k], paths[j - 1]);
        }
      }
    }
  }

  lemma InsertedMembers(paths: seq<Symbols>, k: nat, p: Symbols)
    requires k <= |paths|
    ensures multiset(paths[..k] + [p] + paths[k..]) == multiset(paths) + multiset{p}
  {
    assert paths == paths[..k] + paths[k..];
  }

  lemma NothingSorted()
    ensures Sorted([])
  {
  }

  /** `paths.sort()`. */
  method Sort(paths: seq<Symbols>) returns (sorted: seq<Symbols>)
    ensures Sorted(sorted) && multiset(sorted) == multiset(paths)
  {
    hide Leq, Sorted;
    sorted := [];
    NothingSorted();
    for i := 0 to |paths|
      invariant Sorted(sorted) && multiset(sorted) == multiset(paths[..i])
    {
      var k := Place(sorted, paths[i]);
      Inserted(sorted, paths[i]);
      InsertedMembers(sorted, k, paths[i]);
      assert paths[..i + 1] == paths[..i] + [paths[i]];
      sorted := sorted[..k] + [paths[i]] + sorted[k..];
    }
    assert paths[..|paths|] == paths;
  }

  /** What a caller asks for: a pattern and a scope, either of which may be missing. */
  datatype Query = Query(glob: Option<Symbols>, scope: Option<Symbols>)

  ghost predicate Wanted(query: Query, path: Symbols) {
    && (query.scope.Some? ==> PathContains(query.scope.value, path))
    && (query.glob.Some? ==> Matches(Tokens(query.glob.value), Subject(query.glob.value, path)))
  }

  ghost function Filter(query: Query, paths: seq<Symbols>): (r: seq<Symbols>)
    ensures |r| <= |paths|
    ensures forall p :: p in r <==> p in paths && Wanted(query, p)
  {
    if paths == [] then []
    else
      var front := Filter(query, paths[..|paths| - 1]);
      if Wanted(query, paths[|paths| - 1]) then front + [paths[|paths| - 1]] else front
  }

  method Retain(query: Query, paths: seq<Symbols>) returns (kept: seq<Symbols>)
    ensures kept == Filter(query, paths)
  {
    hide Matches, Tokens, PathContains, Subject;
    kept := [];
    for i := 0 to |paths|
      invariant kept == Filter(query, paths[..i])
    {
      var path := paths[i];
      var wanted := query.scope.None? || PathContains(query.scope.value, path);
      if wanted && query.glob.Some? {
        ghost var cells;
        wanted, cells := GlobMatches(query.glob.value, path);
      }
      assert paths[..i + 1][..i] == paths[..i];
      if wanted {
        kept := kept + [path];
      }
    }
    assert paths[..|paths|] == paths;
  }

  // What is listed, told without filtering.

  /** The path lies in the scope and matches the pattern, as far as either is given. */
  ghost predicate Asked(query: Query, path: Symbols) {
    && (query.scope.None? || Split(query.scope.value) <= Split(path))
    && (query.glob.None? || Matches(Tokens(query.glob.value), Subject(query.glob.value, path)))
  }

  lemma AskedIff(query: Query, path: Symbols)
    requires query.scope.Some? ==> LegalPath(query.scope.value)
    ensures Wanted(query, path) <==> Asked(query, path)
  {
    hide PathContains, Split, Matches, Tokens, Subject;
    if query.scope.Some? {
      ContainsIsPrefix(query.scope.value, path);
    }
  }

  /** Filtering keeps each wanted path as often as it occurs. */
  lemma {:induction false} FilterCounts(query: Query, paths: seq<Symbols>, p: Symbols)
    ensures multiset(Filter(query, paths))[p] == if Wanted(query, p) then multiset(paths)[p] else 0
  {
    hide Wanted;
    if paths != [] {
      var n := |paths| - 1;
      FilterCounts(query, paths[..n], p);
      assert paths == paths[..n] + [paths[n]];
    }
  }

  /** The list has the asked paths of those read, each as often, as many as the limit allows. */
  ghost predicate ListsAsked(list: FileList, read: seq<Symbols>, query: Query, limit: nat) {
    && |list.paths| <= limit
    && (forall p | p in list.paths :: p in read && Asked(query, p))
    && (forall p :: multiset(list.paths)[p] <= multiset(read)[p])
    && (|list.paths| < limit || !list.truncated ==>
          forall p | Asked(query, p) :: multiset(list.paths)[p] == multiset(read)[p])
  }

  lemma ListsAskedOf(list: FileList, read: seq<Symbols>, query: Query, limit: nat)
    requires query.scope.Some? ==> LegalPath(query.scope.value)
    requires var candidates := Filter(query, read);
             && |list.paths| == (if |candidates| < limit then |candidates| else limit)
             && multiset(list.paths) <= multiset(candidates) && (|candidates| > limit ==> list.truncated)
    ensures ListsAsked(list, read, query, limit)
  {
    hide Asked, Wanted, Filter;
    var candidates := Filter(query, read);
    forall p
      ensures multiset(candidates)[p] == (if Asked(query, p) then multiset(read)[p] else 0)
    {
      FilterCounts(query, read, p);
      AskedIff(query, p);
    }
    forall p | p in list.paths
      ensures p in read && Asked(query, p)
    {
      assert p in multiset(list.paths);
      assert p in multiset(read);
    }
    if |list.paths| < limit || !list.truncated {
      SameWhole(list.paths, candidates);
    }
  }

  lemma SameWhole(a: seq<Symbols>, b: seq<Symbols>)
    requires multiset(a) <= multiset(b) && |a| == |b|
    ensures multiset(a) == multiset(b)
  {
    assert multiset(b) == multiset(a) + (multiset(b) - multiset(a));
    assert |multiset(a)| == |a| && |multiset(b)| == |b|;
  }

  datatype FileList = FileList(paths: seq<Symbols>, truncated: bool)

  /** What the listing is chosen from: the wanted ones of the paths that were read whole. */
  ghost function Candidates(stream: Symbols, byteLimit: nat, noisy: bool, query: Query): seq<Symbols> {
    Filter(query, Pieces(FileBytes(stream, byteLimit, noisy)))
  }

  /**
   The filtering part of `visible_files`, on the lister's output: the list is sorted, as long as its limit lets
   it be, holds only whole paths that were asked for, leaves out none that sorts before one it holds, and holds all the
   wanted paths of the output unless it says that it was truncated.
   */
  method VisibleFiles(stream: Symbols, errors: Symbols, byteLimit: nat, query: Query, limit: nat)
    returns (list: Option<FileList>)
    ensures var noisy := |errors| > STDERR_BYTE_LIMIT;
            var candidates := Candidates(stream, byteLimit, noisy, query);
            && (list.Some? <==> AllLegal(Pieces(FileBytes(stream, byteLimit, noisy))))
            && (list.Some? ==>
              && Sorted(list.value.paths)
              && |list.value.paths| == (if |candidates| < limit then |candidates| else limit)
              && multiset(list.value.paths) <= multiset(candidates)
              && (forall p, q | p in candidates && q in list.value.paths :: p in list.value.paths || Leq(q, p))
              && (!list.value.truncated ==> multiset(list.value.paths) == multiset(Filter(query, Pieces(stream))))
              && (list.value.truncated <==> |stream| > byteLimit || noisy || |candidates| > limit))
    ensures list.Some? && (query.scope.Some? ==> LegalPath(query.scope.value)) ==>
              exists bytes :: Kept(bytes, stream, byteLimit, |errors| > 16384)
                && ListsAsked(list.value, Pieces(bytes), query, limit)
  {
    hide Pieces, Filter, Leq, DelimitedPrefix, LegalPath, ListsAsked, Kept;
    FileBytesKept(stream, byteLimit, |errors| > 16384);
    var output := ReadLimited(stream, byteLimit);
    var stderr := ReadLimited(errors, STDERR_BYTE_LIMIT);
    var cut := output.truncated || stderr.truncated;
    var fileBytes := if cut then DelimitedPrefix(output.bytes, NUL) else output.bytes;
    var decoded := SplitNulPaths(fileBytes);
    if decoded.None? {
      return None;
    }
    var kept := Retain(query, decoded.value);
    var paths := Sort(kept);
    SameSize(paths, kept);
    SameMembers(kept, paths);
    var truncated := cut || |paths| > limit;
    if |paths| > limit {
      FirstOf(paths, limit);
      paths := paths[..limit];
    }
    var result := FileList(paths, truncated);
    if query.scope.Some? ==> LegalPath(query.scope.value) {
      ListsAskedOf(result, decoded.value, query, limit);
    }
    return Some(result);
  }

  lemma SameSize(a: seq<Symbols>, b: seq<Symbols>)
    requires multiset(a) == multiset(b)
    ensures |a| == |b|
  {
    assert |multiset(a)| == |a| && |multiset(b)| == |b|;
  }

  lemma FirstOf(paths: seq<Symbols>, limit: nat)
    requires limit <= |paths|
    ensures multiset(paths[..limit]) <= multiset(paths)
    ensures Sorted(paths) ==> Sorted(paths[..limit])
    ensures Sorted(paths) ==>
              forall p, q | p in paths && q in paths[..limit] :: p in paths[..limit] || Leq(q, p)
  {
    assert paths == paths[..limit] + paths[limit..];
    forall p, q | Sorted(paths) && p in paths && q in paths[..limit]
      ensures p in paths[..limit] || Leq(q, p)
    {
      var i :| 0 <= i < |paths| && paths[i] == p;
      var j :| 0 <= j < limit && paths[..limit][j] == q;
      assert i < limit ==> paths[..limit][i] == p;
    }
  }

  lemma SameMembers(a: seq<Symbols>, b: seq<Symbols>)
    requires multiset(a) == multiset(b)
    ensures forall p :: p in a <==> p in b
  {
    forall p
      ensures p in a <==> p in b
    {
      assert p in multiset(a) <==> p in multiset(b);
    }
  }
}
