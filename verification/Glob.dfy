/**
 The glob matcher (crates/code/src/workspace.rs:559-626).  The code runs it on the bytes of pattern and path;
 the same matcher on their characters is what it is compared with in Questions.dfy.
 */
module Glob {
  /** A byte or a character. */
  newtype Symbol = c: int | 0 <= c < 0x110000
  type Symbols = seq<Symbol>

  const STAR: Symbol := 42
  const SLASH: Symbol := 47
  const QUESTION: Symbol := 63

  datatype Token =
    | AnyPath
    | AnySegment
    | AnyChar
    | Literal(symbol: Symbol)

  // Patterns and tokens.

  function Spell(token: Token): Symbols {
    match token
    case AnyPath => [STAR, STAR]
    case AnySegment => [STAR]
    case AnyChar => [QUESTION]
    case Literal(symbol) => [symbol]
  }

  /** The longest token the pattern starts with. */
  function FirstToken(pattern: Symbols): (t: Token)
    requires pattern != []
    ensures Spell(t) <= pattern && Spell(t) != []
  {
    if pattern[0] == STAR && |pattern| > 1 && pattern[1] == STAR then AnyPath
    else if pattern[0] == STAR then AnySegment
    else if pattern[0] == QUESTION then AnyChar
    else Literal(pattern[0])
  }

  function Tokens(pattern: Symbols): seq<Token> {
    if pattern == [] then []
    else [FirstToken(pattern)] + Tokens(pattern[|Spell(FirstToken(pattern))|..])
  }

  function Unparse(tokens: seq<Token>): Symbols {
    if tokens == [] then [] else Spell(tokens[0]) + Unparse(tokens[1..])
  }

  lemma TokensStep(pattern: Symbols)
    requires pattern != []
    ensures Tokens(pattern) == [FirstToken(pattern)] + Tokens(pattern[|Spell(FirstToken(pattern))|..])
  {
  }

  lemma UnparseStep(first: Token, rest: seq<Token>)
    ensures Unparse([first] + rest) == Spell(first) + Unparse(rest)
  {
  }

  lemma NoTokens()
    ensures Tokens([]) == [] && Unparse([]) == []
  {
  }

  /** Printing the tokens gives the pattern back, and there are no more of them than symbols. */
  lemma {:induction false} TokensSpellPattern(pattern: Symbols)
    ensures Unparse(Tokens(pattern)) == pattern && |Tokens(pattern)| <= |pattern|
  {
    hide FirstToken, Spell, Tokens, Unparse;
    if pattern == [] {
      NoTokens();
    } else {
      var first := FirstToken(pattern);
      var rest := pattern[|Spell(first)|..];
      TokensSpellPattern(rest);
      TokensStep(pattern);
      UnparseStep(first, Tokens(rest));
      assert Spell(first) + rest == pattern;
    }
  }

  /** What no tokenizer may produce: a special symbol taken literally, or a single star with another star after it. */
  predicate Canonical(tokens: seq<Token>) {
    && (forall t | t in tokens && t.Literal? :: t.symbol != STAR && t.symbol != QUESTION)
    && (forall i | 0 <= i < |tokens| - 1 && tokens[i] == AnySegment :: tokens[i + 1] !in {AnySegment, AnyPath})
  }

  /** Reading is the inverse of printing on every canonical list, so the tokens of a pattern are unique. */
  lemma {:induction false} CanonicalReadsBack(tokens: seq<Token>)
    requires Canonical(tokens)
    ensures Tokens(Unparse(tokens)) == tokens
  {
    if tokens != [] {
      var rest := tokens[1..];
      CanonicalReadsBack(rest);
      var p := Unparse(tokens);
      assert p[|Spell(tokens[0])|..] == Unparse(rest);
      if tokens[0] == AnySegment && rest != [] {
        assert p[1] == Spell(rest[0])[0];
      }
    }
  }

  /** One arm of the tokenizer's match, and how far it moves on. */
  method ReadToken(pattern: Symbols, index: nat) returns (token: Token, width: nat)
    requires index < |pattern|
    ensures token == FirstToken(pattern[index..]) && width == |Spell(token)| && 0 < width <= |pattern| - index
  {
    if pattern[index] == STAR && index + 1 < |pattern| && pattern[index + 1] == STAR {
      return AnyPath, 2;
    } else if pattern[index] == STAR {
      return AnySegment, 1;
    } else if pattern[index] == QUESTION {
      return AnyChar, 1;
    } else {
      return Literal(pattern[index]), 1;
    }
  }

  method TokenizeGlob(pattern: Symbols) returns (tokens: seq<Token>)
    ensures tokens == Tokens(pattern) && Unparse(tokens) == pattern && |tokens| <= |pattern|
  {
    hide FirstToken, Spell, Unparse;
    tokens := [];
    var index := 0;
    while index < |pattern|
      invariant 0 <= index <= |pattern| && tokens + Tokens(pattern[index..]) == Tokens(pattern)
    {
      var token, width := ReadToken(pattern, index);
      assert pattern[index..][width..] == pattern[index + width..];
      tokens, index := tokens + [token], index + width;
    }
    TokensSpellPattern(pattern);
  }

  // What matching means.

  predicate TokenMatches(token: Token, piece: Symbols) {
    match token
    case AnyPath => true
    case AnySegment => SLASH !in piece
    case AnyChar => |piece| == 1 && piece[0] != SLASH
    case Literal(symbol) => piece == [symbol]
  }

  /** The text can be cut into one piece per token, each matched by its token. */
  ghost predicate Matches(tokens: seq<Token>, text: Symbols)
    decreases |tokens|
  {
    if tokens == [] then text == []
    else exists k :: 0 <= k <= |text| && TokenMatches(tokens[0], text[..k]) && Matches(tokens[1..], text[k..])
  }

  lemma CutFirst(token: Token, rest: seq<Token>, text: Symbols) returns (k: nat)
    requires Matches([token] + rest, text)
    ensures k <= |text| && TokenMatches(token, text[..k]) && Matches(rest, text[k..])
  {
    assert ([token] + rest)[1..] == rest;
    k :| 0 <= k <= |text| && TokenMatches(token, text[..k]) && Matches(rest, text[k..]);
  }

  lemma GlueFirst(token: Token, rest: seq<Token>, text: Symbols, k: nat)
    requires k <= |text| && TokenMatches(token, text[..k]) && Matches(rest, text[k..])
    ensures Matches([token] + rest, text)
  {
  }

  /** A star may take nothing, or one more symbol. */
  lemma StarStep(star: Token, rest: seq<Token>, text: Symbols)
    requires star in {AnyPath, AnySegment}
    ensures Matches([star] + rest, text) <==>
              || Matches(rest, text)
              || (text != [] && (star == AnyPath || text[0] != SLASH) && Matches([star] + rest, text[1..]))
  {
    hide Matches;
    if Matches([star] + rest, text) {
      var k := CutFirst(star, rest, text);
      if k == 0 {
        assert text[0..] == text;
      } else {
        assert text[0] == text[..k][0] && text[1..][..k - 1] == text[..k][1..] && text[1..][k - 1..] == text[k..];
        GlueFirst(star, rest, text[1..], k - 1);
      }
    }
    if Matches(rest, text) {
      assert text[0..] == text;
      GlueFirst(star, rest, text, 0);
    }
    if text != [] && (star == AnyPath || text[0] != SLASH) && Matches([star] + rest, text[1..]) {
      var k := CutFirst(star, rest, text[1..]);
      assert text[..k + 1] == [text[0]] + text[1..][..k] && text[k + 1..] == text[1..][k..];
      GlueFirst(star, rest, text, k + 1);
    }
  }

  /** Any other token takes exactly one symbol. */
  lemma SymbolStep(token: Token, rest: seq<Token>, text: Symbols)
    requires token !in {AnyPath, AnySegment}
    ensures Matches([token] + rest, text) <==>
              text != [] && TokenMatches(token, [text[0]]) && Matches(rest, text[1..])
  {
  }

  // The matcher.

  /** The symbols after the last slash. */
  function LastSegment(path: Symbols): Symbols {
    if path == [] || path[|path| - 1] == SLASH then [] else LastSegment(path[..|path| - 1]) + [path[|path| - 1]]
  }

  /** What a pattern is matched against. */
  function Subject(pattern: Symbols, candidate: Symbols): Symbols {
    if SLASH in pattern then candidate else LastSegment(candidate)
  }

  lemma {:induction false} LastSegmentShort(path: Symbols)
    ensures |LastSegment(path)| <= |path|
  {
    if path != [] {
      LastSegmentShort(path[..|path| - 1]);
    }
  }

  /** A table cell in terms of the cell below it, the cell to its right and the cell below that. */
  lemma CellStep(token: Token, rest: seq<Token>, text: Symbols, j: nat)
    requires j <= |text|
    ensures var more := j < |text|;
            Matches([token] + rest, text[j..]) <==>
              match token
              case AnyPath => Matches(rest, text[j..]) || (more && Matches([token] + rest, text[j + 1..]))
              case AnySegment =>
                Matches(rest, text[j..]) || (more && text[j] != SLASH && Matches([token] + rest, text[j + 1..]))
              case AnyChar => more && text[j] != SLASH && Matches(rest, text[j + 1..])
              case Literal(symbol) => more && text[j] == symbol && Matches(rest, text[j + 1..])
  {
    hide Matches;
    assert j < |text| ==> text[j..][1..] == text[j + 1..];
    if token in {AnyPath, AnySegment} {
      StarStep(token, rest, text[j..]);
    } else {
      SymbolStep(token, rest, text[j..]);
    }
  }

  /** Fills one row of the table from the row below it. */
  method NextRow(token: Token, ghost rest: seq<Token>, text: Symbols, row: array<bool>)
    returns (next: array<bool>, ghost cells: nat)
    requires row.Length == |text| + 1
    requires forall j | 0 <= j <= |text| :: row[j] == Matches(rest, text[j..])
    ensures fresh(next) && next.Length == |text| + 1
    ensures forall j | 0 <= j <= |text| :: next[j] == Matches([token] + rest, text[j..])
    ensures cells == |text| + 1
  {
    hide Matches;
    next := new bool[|text| + 1];
    cells := 0;
    var j := |text| + 1;
    while j > 0
      invariant 0 <= j <= |text| + 1 && cells == |text| + 1 - j
      invariant forall i | j <= i <= |text| :: next[i] == Matches([token] + rest, text[i..])
    {
      j := j - 1;
      var more := j < |text|;
      CellStep(token, rest, text, j);
      match token {
        case AnyPath => next[j] := row[j] || (more && next[j + 1]);
        case AnySegment => next[j] := row[j] || (more && text[j] != SLASH && next[j + 1]);
        case AnyChar => next[j] := more && text[j] != SLASH && row[j + 1];
        case Literal(symbol) => next[j] := more && text[j] == symbol && row[j + 1];
      }
      cells := cells + 1;
    }
  }

  lemma MoreCells(done: nat, width: nat)
    ensures (done + 1) * width == done * width + width
  {
  }

  lemma FewerCells(a: nat, b: nat, w: nat, v: nat)
    requires a <= b && w <= v
    ensures a * w <= b * v
  {
  }

  /**
   `glob_matches`: the rolling row finds out whether the subject can be cut up as the tokens demand, in at
   most pattern length times candidate length plus one cell updates.
   */
  method GlobMatches(pattern: Symbols, candidate: Symbols) returns (matched: bool, ghost cells: nat)
    ensures matched <==> Matches(Tokens(pattern), Subject(pattern, candidate))
    ensures cells <= |pattern| * (|candidate| + 1)
  {
    hide Tokens, LastSegment;
    var text := Subject(pattern, candidate);
    LastSegmentShort(candidate);
    var tokens := TokenizeGlob(pattern);
    var row := new bool[|text| + 1](j => j == |text|);
    cells := 0;
    var index := |tokens|;
    while index > 0
      invariant 0 <= index <= |tokens| && row.Length == |text| + 1 && fresh(row)
      invariant forall j | 0 <= j <= |text| :: row[j] == Matches(tokens[index..], text[j..])
      invariant cells == (|tokens| - index) * (|text| + 1)
    {
      index := index - 1;
      ghost var updated;
      row, updated := NextRow(tokens[index], tokens[index + 1..], text, row);
      assert tokens[index..] == [tokens[index]] + tokens[index + 1..];
      MoreCells(|tokens| - index - 1, |text| + 1);
      cells := cells + updated;
    }
    matched := row[0];
    assert tokens[0..] == tokens && text[0..] == text;
    FewerCells(|tokens|, |pattern|, |text| + 1, |candidate| + 1);
  }

  // Segments.

  function FirstSlash(s: Symbols): (k: nat)
    ensures k <= |s| && forall i | 0 <= i < k :: s[i] != SLASH
    ensures k < |s| ==> s[k] == SLASH
  {
    if s == [] || s[0] == SLASH then 0 else 1 + FirstSlash(s[1..])
  }

  function Split(s: Symbols): (segments: seq<Symbols>)
    ensures segments != []
    decreases |s|
  {
    var k := FirstSlash(s);
    if k == |s| then [s] else [s[..k]] + Split(s[k + 1..])
  }

  /** As many segments on both sides, matching pairwise. */
  ghost predicate SegmentsMatch(patterns: seq<Symbols>, segments: seq<Symbols>) {
    |patterns| == |segments| && forall i | 0 <= i < |patterns| :: Matches(Tokens(patterns[i]), segments[i])
  }

  /** No two stars in a row. */
  predicate NoDoubleStar(pattern: Symbols) {
    forall i | 0 <= i < |pattern| - 1 :: !(pattern[i] == STAR && pattern[i + 1] == STAR)
  }

  lemma FirstBeforeSlash(a: Symbols, b: Symbols)
    requires a != []
    ensures FirstToken(a + [SLASH] + b) == FirstToken(a)
  {
  }

  lemma SlashToken(b: Symbols)
    ensures Tokens([SLASH] + b) == [Literal(SLASH)] + Tokens(b)
  {
  }

  /** Stars never pair up across a slash. */
  lemma {:induction false} TokensAcrossSlash(a: Symbols, b: Symbols)
    ensures Tokens(a + [SLASH] + b) == Tokens(a) + [Literal(SLASH)] + Tokens(b)
    decreases |a|
  {
    hide FirstToken, Spell, Tokens;
    var all := a + [SLASH] + b;
    if a == [] {
      NoTokens();
      SlashToken(b);
      assert all == [SLASH] + b;
    } else {
      var first := FirstToken(a);
      var rest := a[|Spell(first)|..];
      FirstBeforeSlash(a, b);
      TokensStep(a);
      TokensStep(all);
      assert all[|Spell(first)|..] == rest + [SLASH] + b;
      TokensAcrossSlash(rest, b);
      var x, y := Tokens(rest), Tokens(b);
      assert [first] + (x + [Literal(SLASH)] + y) == ([first] + x) + [Literal(SLASH)] + y;
    }
  }

  lemma FirstNoDoubleStar(pattern: Symbols)
    requires pattern != [] && NoDoubleStar(pattern)
    ensures FirstToken(pattern) != AnyPath && |Spell(FirstToken(pattern))| == 1
    ensures pattern[0] != SLASH ==> FirstToken(pattern) != Literal(SLASH)
    ensures NoDoubleStar(pattern[1..])
  {
  }

  lemma {:induction false} TokensNoDoubleStar(pattern: Symbols)
    requires NoDoubleStar(pattern)
    ensures AnyPath !in Tokens(pattern)
    ensures SLASH !in pattern ==> Literal(SLASH) !in Tokens(pattern)
  {
    if pattern != [] {
      FirstNoDoubleStar(pattern);
      hide FirstToken, NoDoubleStar;
      TokensNoDoubleStar(pattern[1..]);
    }
  }

  lemma NotInParts(a: Symbols, b: Symbols)
    requires SLASH !in a && SLASH !in b
    ensures SLASH !in a + b
  {
  }

  lemma RestHasNone(tokens: seq<Token>, t: Token)
    requires tokens != [] && t !in tokens
    ensures t != tokens[0] && t !in tokens[1..]
  {
  }

  /** Without a double star or a slash, tokens match only within a segment. */
  lemma {:induction false} WithinSegment(tokens: seq<Token>, text: Symbols)
    requires AnyPath !in tokens && Literal(SLASH) !in tokens && Matches(tokens, text)
    ensures SLASH !in text
    decreases |tokens|
  {
    if tokens != [] {
      var first, rest := tokens[0], tokens[1..];
      RestHasNone(tokens, AnyPath);
      RestHasNone(tokens, Literal(SLASH));
      assert tokens == [first] + rest;
      var k := CutFirst(first, rest, text);
      WithinSegment(rest, text[k..]);
      PieceWithinSegment(first, text[..k]);
      NotInParts(text[..k], text[k..]);
      assert text == text[..k] + text[k..];
    }
  }

  lemma PieceWithinSegment(token: Token, piece: Symbols)
    requires token != AnyPath && token != Literal(SLASH) && TokenMatches(token, piece)
    ensures SLASH !in piece
  {
  }

  /** A token list in two parts matches exactly the texts in two such parts. */
  lemma {:induction false} CutParts(a: seq<Token>, b: seq<Token>, text: Symbols) returns (n: nat)
    requires Matches(a + b, text)
    ensures n <= |text| && Matches(a, text[..n]) && Matches(b, text[n..])
    decreases |a|
  {
    if a == [] {
      assert a + b == b && text[..0] == [] && text[0..] == text;
      n := 0;
    } else {
      hide Matches;
      var first, rest := a[0], a[1..];
      assert a + b == [first] + (rest + b) && a == [first] + rest;
      var k := CutFirst(first, rest + b, text);
      var m := CutParts(rest, b, text[k..]);
      n := k + m;
      assert text[k..][m..] == text[n..];
      assert text[..n][..k] == text[..k] && text[..n][k..] == text[k..][..m];
      GlueFirst(first, rest, text[..n], k);
    }
  }

  lemma {:induction false} GlueParts(a: seq<Token>, b: seq<Token>, text: Symbols, n: nat)
    requires n <= |text| && Matches(a, text[..n]) && Matches(b, text[n..])
    ensures Matches(a + b, text)
    decreases |a|
  {
    if a == [] {
      assert a + b == b && n == 0 && text[0..] == text;
    } else {
      hide Matches;
      var first, rest := a[0], a[1..];
      assert a + b == [first] + (rest + b) && a == [first] + rest;
      var k := CutFirst(first, rest, text[..n]);
      assert text[..n][..k] == text[..k] && text[..n][k..] == text[k..][..n - k] && text[n..] == text[k..][n - k..];
      GlueParts(rest, b, text[k..], n - k);
      GlueFirst(first, rest + b, text, k);
    }
  }

  lemma SlashThen(b: seq<Token>, text: Symbols, n: nat)
    requires n <= |text|
    ensures Matches([Literal(SLASH)] + b, text[n..]) <==> n < |text| && text[n] == SLASH && Matches(b, text[n + 1..])
  {
    SymbolStep(Literal(SLASH), b, text[n..]);
    assert n < |text| ==> text[n..][1..] == text[n + 1..];
  }

  /** A first pattern segment and a slash match exactly a first path segment and a slash. */
  lemma FirstSegment(first: Symbols, rest: Symbols, text: Symbols)
    requires SLASH !in first && NoDoubleStar(first)
    ensures var k := FirstSlash(text);
            Matches(Tokens(first + [SLASH] + rest), text) <==>
              k < |text| && Matches(Tokens(first), text[..k]) && Matches(Tokens(rest), text[k + 1..])
  {
    hide Tokens, Matches;
    var a, b, slash := Tokens(first), Tokens(rest), [Literal(SLASH)];
    TokensAcrossSlash(first, rest);
    TokensNoDoubleStar(first);
    assert a + slash + b == a + (slash + b);
    if Matches(a + (slash + b), text) {
      var n := CutParts(a, slash + b, text);
      SlashThen(b, text, n);
      WithinSegment(a, text[..n]);
      assert forall i | 0 <= i < n :: text[i] == text[..n][i];
    }
    var k := FirstSlash(text);
    SlashThen(b, text, k);
    if Matches(a, text[..k]) && Matches(slash + b, text[k..]) {
      GlueParts(a, slash + b, text, k);
    }
  }

  lemma OneSegment(p: Symbols, segments: seq<Symbols>)
    ensures SegmentsMatch([p], segments) <==> |segments| == 1 && Matches(Tokens(p), segments[0])
  {
  }

  /** A pattern without a double star matches a path segment by segment. */
  lemma {:induction false} SegmentBySegment(pattern: Symbols, path: Symbols)
    requires NoDoubleStar(pattern)
    ensures Matches(Tokens(pattern), path) <==> SegmentsMatch(Split(pattern), Split(path))
    decreases |pattern|
  {
    hide Tokens, Matches, SegmentsMatch;
    var k, m := FirstSlash(pattern), FirstSlash(path);
    if k == |pattern| {
      TokensNoDoubleStar(pattern);
      OneSegment(pattern, Split(path));
      if Matches(Tokens(pattern), path) {
        WithinSegment(Tokens(pattern), path);
      }
    } else {
      var first, rest := pattern[..k], pattern[k + 1..];
      assert pattern == first + [SLASH] + rest;
      FirstSegment(first, rest, path);
      if m < |path| {
        SegmentBySegment(rest, path[m + 1..]);
        SegmentsSnoc(first, Split(rest), path[..m], Split(path[m + 1..]));
      } else {
        NotOneSegment(first, Split(rest), path);
      }
    }
  }

  lemma NotOneSegment(p: Symbols, ps: seq<Symbols>, s: Symbols)
    requires ps != []
    ensures !SegmentsMatch([p] + ps, [s])
  {
  }

  lemma SegmentsSnoc(p: Symbols, ps: seq<Symbols>, s: Symbols, ss: seq<Symbols>)
    ensures SegmentsMatch([p] + ps, [s] + ss) <==> Matches(Tokens(p), s) && SegmentsMatch(ps, ss)
  {
    var a, b := [p] + ps, [s] + ss;
    assert a[0] == p && b[0] == s;
    assert forall i | 0 <= i < |ps| :: a[i + 1] == ps[i];
    assert forall i | 0 <= i < |ss| :: b[i + 1] == ss[i];
    if SegmentsMatch(a, b) {
      forall i | 0 <= i < |ps|
        ensures Matches(Tokens(ps[i]), ss[i])
      {
        assert Matches(Tokens(a[i + 1]), b[i + 1]);
      }
    }
  }

  /** The symbols after the last slash are the last segment. */
  lemma {:induction false} LastIsLast(path: Symbols)
    ensures LastSegment(path) == Split(path)[|Split(path)| - 1]
    decreases |path|
  {
    hide LastSegment;
    var k := FirstSlash(path);
    if k == |path| {
      assert path[..k] == path;
      LastWithoutSlash(path);
    } else {
      LastIsLast(path[k + 1..]);
      LastAfterSlash(path[..k], path[k + 1..]);
      assert path == path[..k] + [SLASH] + path[k + 1..];
    }
  }

  lemma {:induction false} LastWithoutSlash(path: Symbols)
    requires SLASH !in path
    ensures LastSegment(path) == path
  {
    if path != [] {
      LastWithoutSlash(path[..|path| - 1]);
    }
  }

  lemma {:induction false} LastAfterSlash(a: Symbols, b: Symbols)
    ensures LastSegment(a + [SLASH] + b) == LastSegment(b)
  {
    var all := a + [SLASH] + b;
    if b != [] {
      assert all[..|all| - 1] == a + [SLASH] + b[..|b| - 1];
      LastAfterSlash(a, b[..|b| - 1]);
    }
  }

  /**
   The matcher's answer in terms of segments alone: a pattern without a slash, double stars included, against
   the last one, and a pattern with slashes and without a double star segment by segment.
   */
  lemma GlobBySegments(pattern: Symbols, path: Symbols)
    requires SLASH in pattern ==> NoDoubleStar(pattern)
    ensures var segments := Split(path);
            Matches(Tokens(pattern), Subject(pattern, path)) <==>
              if SLASH in pattern then SegmentsMatch(Split(pattern), segments)
              else Matches(Tokens(pattern), segments[|segments| - 1])
  {
    if SLASH in pattern {
      SegmentBySegment(pattern, path);
    } else {
      LastIsLast(path);
    }
  }
}
