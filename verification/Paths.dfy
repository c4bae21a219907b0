/** Workspace paths (crates/code/src/workspace.rs:512-557): which are accepted, and when one contains another. */
module Paths {
  import opened Glob

  /** The text of a path with these segments. */
  function Join(segments: seq<Symbols>): Symbols {
    if segments == [] then []
    else if |segments| == 1 then segments[0]
    else segments[0] + [SLASH] + Join(segments[1..])
  }

  lemma {:induction false} JoinConcat(a: seq<Symbols>, b: seq<Symbols>)
    requires a != [] && b != []
    ensures Join(a + b) == Join(a) + [SLASH] + Join(b)
  {
    if |a| == 1 {
      assert (a + b)[1..] == b;
    } else {
      assert (a + b)[1..] == a[1..] + b;
      JoinConcat(a[1..], b);
      assert a[0] + [SLASH] + (Join(a[1..]) + [SLASH] + Join(b)) == (a[0] + [SLASH] + Join(a[1..])) + [SLASH] + Join(b);
    }
  }

  lemma {:induction false} JoinSplit(s: Symbols)
    ensures Join(Split(s)) == s
    decreases |s|
  {
    var k := FirstSlash(s);
    if k < |s| {
      JoinSplit(s[k + 1..]);
      assert Split(s)[1..] == Split(s[k + 1..]);
      assert s == s[..k] + [SLASH] + s[k + 1..];
    }
  }

  predicate NoSlash(segments: seq<Symbols>) {
    forall i | 0 <= i < |segments| :: SLASH !in segments[i]
  }

  lemma SlashAt(head: Symbols, tail: Symbols)
    requires SLASH !in head
    ensures FirstSlash(head + [SLASH] + tail) == |head|
  {
    var s := head + [SLASH] + tail;
    assert forall i | 0 <= i < |head| :: s[i] == head[i];
    assert s[|head|] == SLASH;
  }

  lemma {:induction false} SplitJoin(segments: seq<Symbols>)
    requires segments != [] && NoSlash(segments)
    ensures Split(Join(segments)) == segments
  {
    var head := segments[0];
    if |segments| == 1 {
      assert FirstSlash(head) == |head|;
    } else {
      var tail := Join(segments[1..]);
      SlashAt(head, tail);
      SplitJoin(segments[1..]);
      assert (head + [SLASH] + tail)[..|head|] == head && (head + [SLASH] + tail)[|head| + 1..] == tail;
    }
  }

  lemma {:induction false} SplitNoSlash(s: Symbols)
    ensures NoSlash(Split(s))
    decreases |s|
  {
    var k := FirstSlash(s);
    if k < |s| {
      SplitNoSlash(s[k + 1..]);
    }
  }

  function Codes(name: string): (codes: Symbols)
    ensures |codes| == |name| && forall i | 0 <= i < |name| :: codes[i] == name[i] as Symbol
  {
    seq(|name|, i requires 0 <= i < |name| => name[i] as Symbol)
  }

  // Which paths are accepted.

  const EMPTY: Symbols := []
  const DOT: Symbols := [46]
  const DOT_DOT: Symbols := [46, 46]
  /** `.git` */
  const DOT_GIT: Symbols := [46, 103, 105, 116]
  /** `.nuillu-code-` and `.tmp` */
  const TRANSACTION_PREFIX: Symbols := [46, 110, 117, 105, 108, 108, 117, 45, 99, 111, 100, 101, 45]
  const TRANSACTION_SUFFIX: Symbols := [46, 116, 109, 112]

  predicate TransactionName(name: Symbols) {
    TRANSACTION_PREFIX <= name && |TRANSACTION_SUFFIX| <= |name|
      && name[|name| - |TRANSACTION_SUFFIX|..] == TRANSACTION_SUFFIX
  }

  predicate LegalSegment(name: Symbols) {
    name !in {EMPTY, DOT, DOT_DOT, DOT_GIT} && !TransactionName(name)
  }

  /** Every segment between slashes is an ordinary name. */
  predicate LegalPath(path: Symbols) {
    forall i | 0 <= i < |Split(path)| :: LegalSegment(Split(path)[i])
  }

  /** The rule for one name, in letters. */
  ghost predicate Allowed(name: Symbols) {
    && name !in {Codes(""), Codes("."), Codes(".."), Codes(".git")}
    && !exists middle: Symbols :: name == Codes(".nuillu-code-") + middle + Codes(".tmp")
  }

  lemma Letters()
    ensures Codes("") == EMPTY && Codes(".") == DOT && Codes("..") == DOT_DOT && Codes(".git") == DOT_GIT
    ensures Codes(".nuillu-code-") == TRANSACTION_PREFIX && Codes(".tmp") == TRANSACTION_SUFFIX
  {
    var prefix := ".nuillu-code-";
    assert prefix[0] == '.' && prefix[1] == 'n' && prefix[2] == 'u' && prefix[3] == 'i' && prefix[4] == 'l';
    assert prefix[5] == 'l' && prefix[6] == 'u' && prefix[7] == '-' && prefix[8] == 'c' && prefix[9] == 'o';
    assert prefix[10] == 'd' && prefix[11] == 'e' && prefix[12] == '-';
  }

  lemma AllowedIff(name: Symbols)
    ensures LegalSegment(name) <==> Allowed(name)
  {
    Letters();
    var p, s := TRANSACTION_PREFIX, TRANSACTION_SUFFIX;
    if TransactionName(name) {
      PrefixBeforeSuffix(name);
      assert name == p + name[|p|..|name| - |s|] + s;
    }
    if middle: Symbols :| name == p + middle + s {
      assert name[|name| - |s|..] == s;
    }
  }

  ghost predicate AllAllowed(path: Symbols) {
    forall i | 0 <= i < |Split(path)| :: Allowed(Split(path)[i])
  }

  lemma AllAllowedIff(path: Symbols)
    ensures LegalPath(path) <==> AllAllowed(path)
  {
    hide LegalSegment, Allowed, Split;
    forall i | 0 <= i < |Split(path)|
      ensures LegalSegment(Split(path)[i]) <==> Allowed(Split(path)[i])
    {
      AllowedIff(Split(path)[i]);
    }
  }

  /** The reserved beginning does not run into the reserved end. */
  lemma PrefixBeforeSuffix(name: Symbols)
    requires TransactionName(name)
    ensures |TRANSACTION_PREFIX| + |TRANSACTION_SUFFIX| <= |name|
  {
    assert name[9] == 111 && name[10] == 100 && name[11] == 101 && name[12] == 45;
    var tail := name[|name| - 4..];
    assert forall i | 0 <= i < 4 :: tail[i] == name[|name| - 4 + i];
    assert tail[0] == 46 && tail[3] == 112;
  }

  /** `std::path::Component`, as Unix has them. */
  datatype Component = RootDir | CurDir | ParentDir | Normal(name: Symbols)

  /** The standard library's components: empty segments vanish, and so does every `.` but a leading one. */
  function Components(segments: seq<Symbols>, first: bool): seq<Component> {
    if segments == [] then []
    else
      var name := segments[0];
      var rest := Components(segments[1..], false);
      if name == EMPTY then (if first && |segments| > 1 then [RootDir] + rest else rest)
      else if name == DOT then (if first then [CurDir] + rest else rest)
      else if name == DOT_DOT then [ParentDir] + rest
      else [Normal(name)] + rest
  }

  /** Ordinary components only, none of them reserved. */
  predicate Acceptable(components: seq<Component>) {
    forall i | 0 <= i < |components| ::
      components[i].Normal? && components[i].name != DOT_GIT && !TransactionName(components[i].name)
  }

  function Names(components: seq<Component>): (names: seq<Symbols>)
    requires forall i | 0 <= i < |components| :: components[i].Normal?
    ensures |names| == |components| && forall i | 0 <= i < |names| :: names[i] == components[i].name
  {
    seq(|components|, i requires 0 <= i < |components| => components[i].name)
  }

  lemma LegalComponent(segments: seq<Symbols>, first: bool)
    requires segments != [] && LegalSegment(segments[0])
    ensures Components(segments, first) == [Normal(segments[0])] + Components(segments[1..], false)
    ensures segments[0] != DOT_GIT && !TransactionName(segments[0])
  {
  }

  lemma NamesStep(name: Symbols, rest: seq<Component>)
    requires Acceptable(rest) && name != DOT_GIT && !TransactionName(name)
    ensures Acceptable([Normal(name)] + rest) && Names([Normal(name)] + rest) == [name] + Names(rest)
  {
  }

  /** Legal segments are their own components. */
  lemma {:induction false} LegalComponents(segments: seq<Symbols>, first: bool)
    requires forall i | 0 <= i < |segments| :: LegalSegment(segments[i])
    ensures Acceptable(Components(segments, first)) && Names(Components(segments, first)) == segments
  {
    if segments != [] {
      hide LegalSegment, TransactionName;
      LegalComponents(segments[1..], false);
      LegalComponent(segments, first);
      NamesStep(segments[0], Components(segments[1..], false));
      assert [segments[0]] + segments[1..] == segments;
    }
  }

  lemma {:induction false} NamesAreSegments(segments: seq<Symbols>, first: bool)
    requires NoSlash(segments) && Acceptable(Components(segments, first))
    ensures NoSlash(Names(Components(segments, first)))
    ensures forall i | 0 <= i < |Components(segments, first)| :: LegalSegment(Components(segments, first)[i].name)
  {
    if segments != [] {
      var rest := Components(segments[1..], false);
      var all := Components(segments, first);
      assert all == rest || (|all| == |rest| + 1 && all[1..] == rest);
      if all == rest {
        NamesAreSegments(segments[1..], false);
      } else {
        assert forall i | 0 <= i < |rest| :: rest[i] == all[i + 1];
        NamesAreSegments(segments[1..], false);
        assert forall i | 0 <= i < |rest| :: Names(rest)[i] == Names(all)[i + 1];
        assert all[0].name == segments[0];
      }
    }
  }

  lemma NoEmptyPath()
    ensures !LegalPath([])
  {
    assert Split([]) == [EMPTY];
    assert !LegalSegment(Split([])[0]);
  }

  /** `validate_relative_path` accepts exactly the paths whose segments are all ordinary names. */
  method ValidateRelativePath(path: Symbols) returns (ok: bool)
    ensures ok <==> LegalPath(path)
    ensures ok <==> AllAllowed(path)
  {
    hide AllAllowed, LegalPath, Split, Components, TransactionName;
    AllAllowedIff(path);
    if path == [] {
      NoEmptyPath();
      return false;
    }
    var components := Components(Split(path), true);
    var normalized: seq<Symbols> := [];
    for i := 0 to |components|
      invariant Acceptable(components[..i]) && normalized == Names(components[..i])
    {
      if !components[i].Normal? || components[i].name == DOT_GIT || TransactionName(components[i].name) {
        assert !Acceptable(components);
        NotLegal(path);
        return false;
      }
      normalized := normalized + [components[i].name];
    }
    assert components[..|components|] == components;
    ok := normalized != [] && Join(normalized) == path;
    CanonicalIffLegal(path);
  }

  lemma NotLegal(path: Symbols)
    requires !Acceptable(Components(Split(path), true))
    ensures !LegalPath(path)
  {
  }

  /** Paths with acceptable components are legal exactly when joining the components gives them back. */
  lemma CanonicalIffLegal(path: Symbols)
    requires Acceptable(Components(Split(path), true))
    ensures var names := Names(Components(Split(path), true));
            LegalPath(path) <==> names != [] && Join(names) == path
  {
    var components := Components(Split(path), true);
    if LegalPath(path) {
      LegalComponents(Split(path), true);
      JoinSplit(path);
    }
    if Names(components) != [] && Join(Names(components)) == path {
      SplitNoSlash(path);
      NamesAreSegments(Split(path), true);
      SplitJoin(Names(components));
    }
  }

  // Containment.

  function TrimSlashes(s: Symbols): Symbols {
    if s != [] && s[|s| - 1] == SLASH then TrimSlashes(s[..|s| - 1]) else s
  }

  /** `path_contains`. */
  predicate PathContains(scope: Symbols, candidate: Symbols) {
    var s := TrimSlashes(scope);
    candidate == s || Below(s, candidate)
  }

  lemma {:induction false} SplitConcat(a: Symbols, b: Symbols)
    ensures Split(a + [SLASH] + b) == Split(a) + Split(b)
  {
    JoinSplit(a);
    JoinSplit(b);
    JoinConcat(Split(a), Split(b));
    SplitNoSlash(a);
    SplitNoSlash(b);
    SplitJoin(Split(a) + Split(b));
  }

  /** Slashes at the end of a scope say nothing. */
  lemma {:induction false} ScopeTrimmed(scope: Symbols, slashes: Symbols, candidate: Symbols)
    requires forall i | 0 <= i < |slashes| :: slashes[i] == SLASH
    ensures PathContains(scope + slashes, candidate) <==> PathContains(scope, candidate)
    decreases |slashes|
  {
    if slashes == [] {
      assert scope + slashes == scope;
    } else {
      var n := |slashes| - 1;
      ScopeTrimmed(scope, slashes[..n], candidate);
      var all := scope + slashes;
      assert all[|all| - 1] == SLASH && all[..|all| - 1] == scope + slashes[..n];
    }
  }

  lemma TrailingSlash(path: Symbols)
    requires path != [] && path[|path| - 1] == SLASH
    ensures Split(path)[|Split(path)| - 1] == EMPTY
  {
  }

  lemma NoTrailingSlash(path: Symbols)
    requires LegalPath(path)
    ensures TrimSlashes(path) == path
  {
    if path != [] && path[|path| - 1] == SLASH {
      TrailingSlash(path);
    }
  }

  lemma BelowIsLonger(scope: Symbols, candidate: Symbols)
    requires Below(scope, candidate)
    ensures Split(scope) <= Split(candidate)
  {
    hide Split;
    var rest := candidate[|scope| + 1..];
    assert candidate == scope + [SLASH] + rest;
    SplitConcat(scope, rest);
  }

  predicate Below(scope: Symbols, candidate: Symbols) {
    scope <= candidate && |scope| < |candidate| && candidate[|scope|] == SLASH
  }

  lemma ExtendedIsBelow(scope: Symbols, rest: Symbols)
    ensures Below(scope, scope + [SLASH] + rest)
  {
  }

  lemma LongerIsBelow(scope: Symbols, candidate: Symbols)
    requires Split(scope) < Split(candidate)
    ensures Below(scope, candidate)
  {
    hide Join, Split, Below;
    var a, b := Split(scope), Split(candidate)[|Split(scope)|..];
    assert a + b == Split(candidate);
    JoinSplit(scope);
    JoinSplit(candidate);
    JoinConcat(a, b);
    ExtendedIsBelow(scope, Join(b));
  }

  /** A legal scope contains a path exactly when its segments are the path's first segments. */
  lemma ContainsIsPrefix(scope: Symbols, candidate: Symbols)
    requires LegalPath(scope)
    ensures PathContains(scope, candidate) <==> Split(scope) <= Split(candidate)
  {
    NoTrailingSlash(scope);
    hide Split, TrimSlashes;
    if PathContains(scope, candidate) && candidate != scope {
      BelowIsLonger(scope, candidate);
    }
    if Split(scope) < Split(candidate) {
      LongerIsBelow(scope, candidate);
    } else if Split(scope) == Split(candidate) {
      JoinSplit(scope);
      JoinSplit(candidate);
    }
  }
}
