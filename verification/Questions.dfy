/** Which patterns mean the same on bytes as on characters: where a question mark stands decides it. */
module Questions {
  import opened Glob
  import opened Unicode

  predicate IsStar(token: Token) {
    token in {AnyPath, AnySegment}
  }

  /** Between any two question marks there is a literal. */
  predicate Single(tokens: seq<Token>) {
    forall i, j | 0 <= i < j < |tokens| && tokens[i] == tokens[j] == AnyChar ::
      exists k :: i < k < j && tokens[k].Literal?
  }

  /** A star stands next to the token. */
  predicate Beside(tokens: seq<Token>, i: nat)
    requires i < |tokens|
  {
    (i > 0 && IsStar(tokens[i - 1])) || (i + 1 < |tokens| && IsStar(tokens[i + 1]))
  }

  /** Each question mark stands next to a star, and no other is in the same run of wildcards. */
  predicate Absorbed(tokens: seq<Token>) {
    Single(tokens) && forall i | 0 <= i < |tokens| && tokens[i] == AnyChar :: Beside(tokens, i)
  }

  /** How many stars come first. */
  function Stars(tokens: seq<Token>): (n: nat)
    ensures n <= |tokens| && forall i | 0 <= i < n :: IsStar(tokens[i])
    ensures n < |tokens| ==> !IsStar(tokens[n])
  {
    if tokens == [] || !IsStar(tokens[0]) then 0 else 1 + Stars(tokens[1..])
  }

  /** Stars, then a question mark. */
  predicate Asks(tokens: seq<Token>) {
    Stars(tokens) < |tokens| && tokens[Stars(tokens)] == AnyChar
  }

  lemma {:induction false} CalmOrAsks(tokens: seq<Token>)
    ensures Calm(tokens) <==> !Asks(tokens)
  {
    if tokens != [] && IsStar(tokens[0]) {
      CalmOrAsks(tokens[1..]);
    }
  }

  lemma SingleLater(tokens: seq<Token>, m: nat)
    requires Single(tokens) && m <= |tokens|
    ensures Single(tokens[m..])
  {
    var rest := tokens[m..];
    forall i, j | 0 <= i < j < |rest| && rest[i] == rest[j] == AnyChar
      ensures exists k :: i < k < j && rest[k].Literal?
    {
      var k :| m + i < k < m + j && tokens[k].Literal?;
      assert rest[k - m] == tokens[k];
    }
  }

  /** Behind a question mark come stars and a literal, or stars and nothing. */
  lemma CalmBehind(tokens: seq<Token>, i: nat)
    requires Single(tokens) && i < |tokens| && tokens[i] == AnyChar
    ensures Calm(tokens[i + 1..])
  {
    var rest := tokens[i + 1..];
    CalmOrAsks(rest);
    assert forall k | i < k < i + 1 + Stars(rest) :: tokens[k] == rest[k - i - 1];
    assert Stars(rest) < |rest| ==> tokens[i + 1 + Stars(rest)] == rest[Stars(rest)];
  }

  // Stars and a question mark.

  /** The stars and the question mark take the text up to and including symbol i. */
  ghost predicate EndsAt(across: bool, rest: seq<Token>, text: Symbols, i: nat) {
    i < |text| && text[i] != SLASH && (across || SLASH !in text[..i]) && Matches(rest, text[i + 1..])
  }

  ghost predicate Ends(across: bool, rest: seq<Token>, text: Symbols) {
    exists i: nat :: EndsAt(across, rest, text, i)
  }

  lemma EndsStep(across: bool, rest: seq<Token>, text: Symbols)
    ensures Ends(across, rest, text) <==>
              && text != []
              && ((text[0] != SLASH && Matches(rest, text[1..])) ||
                  ((across || text[0] != SLASH) && Ends(across, rest, text[1..])))
    ensures Ends(false, rest, text) ==> Ends(true, rest, text)
  {
    hide Matches;
    if i: nat :| EndsAt(across, rest, text, i) {
      if i > 0 {
        assert text[..i] == [text[0]] + text[1..][..i - 1] && text[1..][i..] == text[i + 1..];
        assert EndsAt(across, rest, text[1..], i - 1);
      }
    }
    if text != [] && text[0] != SLASH && Matches(rest, text[1..]) {
      assert EndsAt(across, rest, text, 0);
    }
    if text != [] && (across || text[0] != SLASH) && Ends(across, rest, text[1..]) {
      var i: nat :| EndsAt(across, rest, text[1..], i);
      assert text[..i + 1] == [text[0]] + text[1..][..i] && text[1..][i + 1..] == text[i + 2..];
      assert EndsAt(across, rest, text, i + 1);
    }
    if i: nat :| EndsAt(false, rest, text, i) {
      assert EndsAt(true, rest, text, i);
    }
  }

  lemma {:induction false} StarsThenQuestion(stars: seq<Token>, rest: seq<Token>, text: Symbols)
    requires stars != [] && forall t | t in stars :: IsStar(t)
    ensures Matches(stars + [AnyChar] + rest, text) <==> Ends(AnyPath in stars, rest, text)
    decreases |stars|, |text|
  {
    hide Matches, Ends;
    var first, more := stars[0], stars[1..];
    assert first in stars;
    var later := more + [AnyChar] + rest;
    assert stars == [first] + more && stars + [AnyChar] + rest == [first] + later;
    assert AnyPath in stars <==> first == AnyPath || AnyPath in more;
    StarStep(first, later, text);
    EndsStep(true, rest, text);
    EndsStep(false, rest, text);
    if text != [] {
      StarsThenQuestion(stars, rest, text[1..]);
    }
    if more == [] {
      assert later == [AnyChar] + rest;
      SymbolStep(AnyChar, rest, text);
    } else {
      StarsThenQuestion(more, rest, text);
    }
  }

  lemma {:induction false} FlatStars(stars: seq<Token>, rest: seq<Token>)
    requires forall t | t in stars :: IsStar(t)
    ensures Flat(stars + [AnyChar] + rest) == stars + [AnyChar] + Flat(rest)
  {
    hide Flat;
    if stars == [] {
      assert stars + [AnyChar] + rest == [AnyChar] + rest;
      FlatStep(AnyChar, rest);
    } else {
      var first, later := stars[0], stars[1..] + [AnyChar] + rest;
      assert stars + [AnyChar] + rest == [first] + later && stars == [first] + stars[1..];
      FlatStars(stars[1..], rest);
      FlatStep(first, later);
      assert first in stars;
      assert stars + [AnyChar] + Flat(rest) == [first] + (stars[1..] + [AnyChar] + Flat(rest));
    }
  }

  // A question mark takes the last byte of a character.

  /** Byte j belongs to a character: the text before it, and the bytes behind it in that character. */
  lemma {:induction false} CharacterAt(text: Symbols, j: nat) returns (i: nat, inside: Symbols)
    requires j < |Encode(text)|
    ensures i < |text| && (forall k | 0 <= k < |inside| :: Continues(inside[k]))
    ensures Encode(text)[j + 1..] == inside + Encode(text[i + 1..])
    ensures text[i] == SLASH ==> Encode(text)[j] == SLASH
    ensures SLASH in text[..i] ==> SLASH in Encode(text)[..j]
  {
    hide Utf8, Encode;
    NothingEncoded();
    FirstEncoded(text);
    var first, later := Utf8(text[0]), Encode(text[1..]);
    if j < |first| {
      i, inside := 0, first[j + 1..];
      assert Encode(text)[j + 1..] == inside + later;
    } else {
      var n: nat;
      n, inside := CharacterAt(text[1..], j - |first|);
      i := n + 1;
      assert Encode(text)[j + 1..] == later[j - |first| + 1..];
      assert text[1..][n + 1..] == text[i + 1..];
      assert text[..i] == [text[0]] + text[1..][..n];
      assert Encode(text)[..j] == first + later[..j - |first|];
      assert text[0] == SLASH ==> first == [SLASH];
    }
  }

  lemma EndsInCharacter(across: bool, rest: seq<Token>, text: Symbols, j: nat) returns (i: nat)
    requires Calm(rest) && EndsAt(across, Flat(rest), Encode(text), j)
    ensures i < |text| && text[i] != SLASH && (across || SLASH !in text[..i])
    ensures Matches(Flat(rest), Encode(text[i + 1..]))
  {
    hide Utf8, Encode, Flat, Matches, Calm;
    var inside: Symbols;
    i, inside := CharacterAt(text, j);
    if inside != [] {
      SkipInside(rest, inside, text[i + 1..]);
    } else {
      assert inside + Encode(text[i + 1..]) == Encode(text[i + 1..]);
    }
  }

  /** The last byte of the character ends the bytes. */
  lemma EndsInByte(across: bool, rest: seq<Token>, text: Symbols, i: nat)
    requires i < |text| && text[i] != SLASH && (across || SLASH !in text[..i])
    requires Matches(Flat(rest), Encode(text[i + 1..]))
    ensures Ends(across, Flat(rest), Encode(text))
  {
    hide Utf8, Encode, Flat, Matches;
    var a, b, bytes := text[..i], text[i + 1..], Utf8(text[i]);
    EncodeAround(a, text[i], b);
    assert text == a + [text[i]] + b;
    var j := |Encode(a)| + |bytes| - 1;
    assert Encode(text)[j] == bytes[|bytes| - 1];
    assert Encode(text)[j + 1..] == Encode(b);
    SlashEncoded(a);
    SlashEncoded([text[i]]);
    EncodeOne(text[i]);
    assert Encode(text)[..j] == Encode(a) + bytes[..|bytes| - 1];
    assert EndsAt(across, Flat(rest), Encode(text), j);
  }

  lemma EncodeAround(a: Symbols, c: Symbol, b: Symbols)
    ensures Encode(a + [c] + b) == Encode(a) + Utf8(c) + Encode(b)
  {
    hide Utf8, Encode;
    EncodeConcat(a + [c], b);
    EncodeConcat(a, [c]);
    EncodeOne(c);
  }

  lemma EndsInBytes(across: bool, rest: seq<Token>, text: Symbols)
    requires Calm(rest)
    requires forall t: Symbols | |t| < |text| :: Matches(Flat(rest), Encode(t)) <==> Matches(rest, t)
    ensures Ends(across, Flat(rest), Encode(text)) <==> Ends(across, rest, text)
  {
    hide Encode, Flat, Matches, Calm;
    if Ends(across, Flat(rest), Encode(text)) {
      var j: nat :| EndsAt(across, Flat(rest), Encode(text), j);
      var i := EndsInCharacter(across, rest, text, j);
      assert EndsAt(across, rest, text, i);
    }
    if i: nat :| EndsAt(across, rest, text, i) {
      EndsInByte(across, rest, text, i);
    }
  }

  // Bytes against characters.

  lemma AbsorbedLater(tokens: seq<Token>, m: nat)
    requires Absorbed(tokens) && 0 < m <= |tokens|
    requires IsStar(tokens[m - 1]) && m < |tokens| ==> tokens[m] != AnyChar
    ensures Absorbed(tokens[m..])
  {
    SingleLater(tokens, m);
    var rest := tokens[m..];
    forall i | 0 <= i < |rest| && rest[i] == AnyChar
      ensures Beside(rest, i)
    {
      assert Beside(tokens, m + i);
    }
  }

  /** A question mark and the star behind it, in bytes. */
  lemma QuestionThenStar(star: Token, rest: seq<Token>, text: Symbols)
    requires IsStar(star) && Calm(rest)
    ensures Matches([AnyChar, star] + Flat(rest), Encode(text)) <==>
              text != [] && text[0] != SLASH && Matches([star] + Flat(rest), Encode(text[1..]))
  {
    hide Matches, Utf8, Encode, Flat, Calm;
    NothingEncoded();
    assert [AnyChar, star] + Flat(rest) == [AnyChar] + ([star] + Flat(rest));
    SymbolStep(AnyChar, [star] + Flat(rest), Encode(text));
    if text != [] {
      FirstEncoded(text);
      var inside := Utf8(text[0])[1..];
      assert Encode(text)[1..] == inside + Encode(text[1..]);
      StarOverInside(star, rest, inside, text[1..]);
    }
  }

  /** A run of stars with a question mark behind them. */
  lemma RunMatches(tokens: seq<Token>, text: Symbols)
    requires Single(tokens) && Asks(tokens) && Stars(tokens) > 0
    requires var rest := tokens[Stars(tokens) + 1..];
             forall t: Symbols | |t| < |text| :: Matches(Flat(rest), Encode(t)) <==> Matches(rest, t)
    ensures Matches(Flat(tokens), Encode(text)) <==> Matches(tokens, text)
  {
    hide Matches, Encode, Flat, Ends, Single;
    var n := Stars(tokens);
    var stars, rest := tokens[..n], tokens[n + 1..];
    assert tokens == stars + [AnyChar] + rest;
    CalmBehind(tokens, n);
    FlatStars(stars, rest);
    StarsThenQuestion(stars, rest, text);
    StarsThenQuestion(stars, Flat(rest), Encode(text));
    EndsInBytes(AnyPath in stars, rest, text);
  }

  /** Where every question mark is absorbed, bytes match bytes exactly when characters match characters. */
  lemma {:induction false} AbsorbedMatches(tokens: seq<Token>, text: Symbols)
    requires Absorbed(tokens)
    ensures Matches(Flat(tokens), Encode(text)) <==> Matches(tokens, text)
    decreases |tokens|, |text|
  {
    hide Utf8, Encode, Flat, Absorbed, Single, Beside, Calm, Asks;
    NothingEncoded();
    if tokens != [] {
      hide Matches;
      var first, rest := tokens[0], tokens[1..];
      assert tokens == [first] + rest;
      FlatStep(first, rest);
      if first.Literal? {
        AbsorbedLater(tokens, 1);
        if text != [] {
          AbsorbedMatches(rest, text[1..]);
        }
        LiteralOverCharacter(first.symbol, rest, text);
        SymbolStep(first, rest, text);
      } else if first == AnyChar {
        AbsorbedQuestion(tokens);
        if text != [] {
          AbsorbedMatches(rest, text[1..]);
        }
        QuestionThenStar(rest[0], rest[1..], text);
        assert rest == [rest[0]] + rest[1..];
        FlatStep(rest[0], rest[1..]);
        assert [AnyChar, rest[0]] + Flat(rest[1..]) == [AnyChar] + Flat(rest);
        SymbolStep(first, rest, text);
      } else if Asks(tokens) {
        AskedLater(tokens);
        forall t: Symbols | |t| < |text|
          ensures Matches(Flat(tokens[Stars(tokens) + 1..]), Encode(t)) <==> Matches(tokens[Stars(tokens) + 1..], t)
        {
          AbsorbedMatches(tokens[Stars(tokens) + 1..], t);
        }
        RunMatches(tokens, text);
      } else {
        CalmLater(tokens);
        AbsorbedMatches(rest, text);
        StarStep(first, rest, text);
        if text == [] {
          StarStep(first, Flat(rest), Encode(text));
        } else {
          StarOverCharacter(first, rest, text);
          AbsorbedMatches(tokens, text[1..]);
        }
      }
    }
  }

  lemma AbsorbedQuestion(tokens: seq<Token>)
    requires Absorbed(tokens) && tokens != [] && tokens[0] == AnyChar
    ensures |tokens| > 1 && IsStar(tokens[1]) && Absorbed(tokens[1..]) && Calm(tokens[2..])
  {
    assert Beside(tokens, 0);
    AbsorbedLater(tokens, 1);
    CalmBehind(tokens, 0);
    assert tokens[1..][1..] == tokens[2..];
  }

  lemma AskedLater(tokens: seq<Token>)
    requires Absorbed(tokens) && Asks(tokens)
    ensures Single(tokens) && Stars(tokens) < |tokens| && Absorbed(tokens[Stars(tokens) + 1..])
    ensures tokens[0] != AnyChar ==> Stars(tokens) > 0
  {
    AbsorbedLater(tokens, Stars(tokens) + 1);
  }

  lemma CalmLater(tokens: seq<Token>)
    requires Absorbed(tokens) && tokens != [] && IsStar(tokens[0]) && !Asks(tokens)
    ensures Calm(tokens[1..]) && Absorbed(tokens[1..])
  {
    CalmOrAsks(tokens);
    AbsorbedLater(tokens, 1);
  }

  // Paths on which the two differ.

  /** The fewest symbols that match. */
  function Least(tokens: seq<Token>): nat {
    if tokens == [] then 0 else (if IsStar(tokens[0]) then 0 else 1) + Least(tokens[1..])
  }

  const FILLER: Symbol := 120
  /** A character of two bytes. */
  const WIDE: Symbol := 233

  function Fill(tokens: seq<Token>): Symbols {
    if tokens == [] then []
    else
      (match tokens[0] case Literal(c) => [c] case AnyChar => [FILLER] case _ => []) + Fill(tokens[1..])
  }

  lemma {:induction false} LeastConcat(a: seq<Token>, b: seq<Token>)
    ensures Least(a + b) == Least(a) + Least(b)
  {
    if a == [] {
      assert a + b == b;
    } else {
      assert (a + b)[1..] == a[1..] + b;
      LeastConcat(a[1..], b);
    }
  }

  lemma {:induction false} LeastOfStars(stars: seq<Token>)
    requires forall i | 0 <= i < |stars| :: IsStar(stars[i])
    ensures Least(stars) == 0 && Matches(stars, [])
  {
    if stars != [] {
      LeastOfStars(stars[1..]);
      var none: Symbols := [];
      assert stars == [stars[0]] + stars[1..] && none[..0] == none && none[0..] == none;
      GlueFirst(stars[0], stars[1..], none, 0);
    }
  }

  lemma {:induction false} LeastNeeded(tokens: seq<Token>, text: Symbols)
    requires Matches(tokens, text)
    ensures Least(tokens) <= |text|
    decreases |tokens|
  {
    if tokens != [] {
      var first, rest := tokens[0], tokens[1..];
      assert tokens == [first] + rest;
      var k := CutFirst(first, rest, text);
      LeastNeeded(rest, text[k..]);
    }
  }

  lemma FillStep(first: Token, rest: seq<Token>)
    ensures Fill([first] + rest)
         == (match first case Literal(c) => [c] case AnyChar => [FILLER] case _ => []) + Fill(rest)
    ensures Least([first] + rest) == (if IsStar(first) then 0 else 1) + Least(rest)
  {
    assert ([first] + rest)[1..] == rest;
  }

  /** The filled tokens match, in characters and in bytes. */
  lemma {:induction false} FillMatches(tokens: seq<Token>)
    ensures Matches(tokens, Fill(tokens)) && Matches(Flat(tokens), Encode(Fill(tokens)))
    ensures |Fill(tokens)| == Least(tokens)
  {
    hide Utf8, Encode, Flat, Fill, Least;
    if tokens == [] {
      NothingEncoded();
      assert Fill([]) == [] && Least([]) == 0 by { NothingFilled(); }
    } else {
      hide Matches;
      var first, rest := tokens[0], tokens[1..];
      assert tokens == [first] + rest;
      FillMatches(rest);
      FillStep(first, rest);
      FlatStep(first, rest);
      if IsStar(first) {
        assert Fill(tokens) == Fill(rest);
        StarStep(first, rest, Fill(rest));
        StarStep(first, Flat(rest), Encode(Fill(rest)));
      } else {
        var c := if first.Literal? then first.symbol else FILLER;
        assert Fill(tokens) == [c] + Fill(rest) && Fill(tokens)[1..] == Fill(rest);
        SymbolStep(first, rest, Fill(tokens));
        if first.Literal? {
          LiteralOverCharacter(c, rest, Fill(tokens));
        } else {
          FirstEncoded(Fill(tokens));
          assert Encode(Fill(tokens))[1..] == Encode(Fill(rest));
          SymbolStep(first, Flat(rest), Encode(Fill(tokens)));
        }
      }
    }
  }

  lemma NothingFilled()
    ensures Fill([]) == [] && Least([]) == 0
  {
  }

  lemma {:induction false} FlatConcat(a: seq<Token>, b: seq<Token>)
    ensures Flat(a + b) == Flat(a) + Flat(b)
  {
    if a == [] {
      assert a + b == b;
    } else {
      hide Flat, Literals, Utf8;
      assert a == [a[0]] + a[1..] && a + b == [a[0]] + (a[1..] + b);
      FlatConcat(a[1..], b);
      FlatStep(a[0], a[1..]);
      FlatStep(a[0], a[1..] + b);
    }
  }

  // Two question marks in one run: a character of two bytes feeds both.

  lemma {:induction false} NextQuestion(tokens: seq<Token>, i: nat, j: nat) returns (n: nat)
    requires i < j < |tokens| && tokens[i] == tokens[j] == AnyChar
    requires forall k | i < k < j :: !tokens[k].Literal?
    ensures i < n <= j && tokens[n] == AnyChar && forall k | i < k < n :: IsStar(tokens[k])
    decreases j
  {
    n := j;
    if k :| i < k < j && !IsStar(tokens[k]) {
      n := NextQuestion(tokens, i, k);
    }
  }

  lemma WideFeedsTwo(stars: seq<Token>)
    requires forall i | 0 <= i < |stars| :: IsStar(stars[i])
    ensures Matches([AnyChar] + stars + [AnyChar], Utf8(WIDE)) && |Utf8(WIDE)| == 2
  {
    hide Matches;
    var bytes := Utf8(WIDE);
    assert |bytes| == 2;
    LeastOfStars(stars);
    var one: seq<Token> := [AnyChar];
    SymbolStep(AnyChar, [], bytes[1..]);
    NothingMatches();
    assert one == [AnyChar] + [] && bytes[1..][1..] == [];
    assert bytes[1..][..0] == [] && bytes[1..][0..] == bytes[1..];
    GlueParts(stars, one, bytes[1..], 0);
    SymbolStep(AnyChar, stars + one, bytes);
    assert [AnyChar] + stars + one == [AnyChar] + (stars + one);
  }

  lemma NothingMatches()
    ensures Matches([], [])
  {
  }

  lemma FlatRun(stars: seq<Token>)
    requires forall i | 0 <= i < |stars| :: IsStar(stars[i])
    ensures Flat([AnyChar] + stars + [AnyChar]) == [AnyChar] + stars + [AnyChar]
  {
    hide Flat;
    FlatStars(stars, []);
    NothingEncoded();
    assert stars + [AnyChar] + [] == stars + [AnyChar];
    FlatStep(AnyChar, stars + [AnyChar]);
    assert [AnyChar] + stars + [AnyChar] == [AnyChar] + (stars + [AnyChar]);
  }

  lemma DoubleDiffers(tokens: seq<Token>) returns (text: Symbols)
    requires !Single(tokens)
    ensures Matches(Flat(tokens), Encode(text)) && !Matches(tokens, text)
    ensures forall c | c in text :: c in {FILLER, WIDE} || Literal(c) in tokens
  {
    hide Matches, Flat, Encode, Utf8, Fill, Least;
    var i, j :| 0 <= i < j < |tokens| && tokens[i] == tokens[j] == AnyChar
      && forall k | i < k < j :: !tokens[k].Literal?;
    j := NextQuestion(tokens, i, j);
    var a, stars, b := tokens[..i], tokens[i + 1..j], tokens[j + 1..];
    var run := [AnyChar] + stars + [AnyChar];
    assert tokens == a + (run + b);
    text := Fill(a) + [WIDE] + Fill(b);
    TooShort(a, stars, b, text);
    EncodeAround(Fill(a), WIDE, Fill(b));
    FlatConcat(a, run + b);
    FlatConcat(run, b);
    FlatRun(stars);
    WideFeedsTwo(stars);
    FillMatches(a);
    FillMatches(b);
    ThreeParts(Flat(a), run, Flat(b), Encode(Fill(a)), Utf8(WIDE), Encode(Fill(b)));
    FilledFrom(a);
    FilledFrom(b);
  }

  lemma TooShort(a: seq<Token>, stars: seq<Token>, b: seq<Token>, text: Symbols)
    requires (forall i | 0 <= i < |stars| :: IsStar(stars[i])) && text == Fill(a) + [WIDE] + Fill(b)
    ensures !Matches(a + ([AnyChar] + stars + [AnyChar] + b), text)
  {
    hide Matches, Fill;
    var run := [AnyChar] + stars + [AnyChar];
    LeastConcat(a, run + b);
    LeastConcat(run, b);
    LeastConcat([AnyChar] + stars, [AnyChar]);
    LeastConcat([AnyChar], stars);
    LeastOfStars(stars);
    FillMatches(a);
    FillMatches(b);
    if Matches(a + (run + b), text) {
      LeastNeeded(a + (run + b), text);
    }
  }

  lemma ThreeParts(a: seq<Token>, b: seq<Token>, c: seq<Token>, x: Symbols, y: Symbols, z: Symbols)
    requires Matches(a, x) && Matches(b, y) && Matches(c, z)
    ensures Matches(a + (b + c), x + y + z)
  {
    hide Matches;
    assert (y + z)[..|y|] == y && (y + z)[|y|..] == z;
    GlueParts(b, c, y + z, |y|);
    var all := x + y + z;
    assert all[..|x|] == x && all[|x|..] == y + z;
    GlueParts(a, b + c, all, |x|);
  }

  lemma {:induction false} FilledFrom(tokens: seq<Token>)
    ensures forall c | c in Fill(tokens) :: c == FILLER || Literal(c) in tokens
  {
    if tokens != [] {
      FilledFrom(tokens[1..]);
    }
  }

  // A question mark away from any star takes one byte of a character of one byte.

  predicate Alone(tokens: seq<Token>, k: nat) {
    k < |tokens| && tokens[k] == AnyChar && !Beside(tokens, k)
  }

  /** What is known of a text whose bytes match: it is long enough, and where it is no longer, ASCII at a lone mark. */
  predicate Tight(tokens: seq<Token>, text: Symbols, k: nat) {
    && Least(tokens) <= |text|
    && (Least(tokens) == |text| && Alone(tokens, k) ==> Least(tokens[..k]) < |text| && text[Least(tokens[..k])] < 128)
  }

  /** The text behind one symbol, the tokens behind n of which one takes a symbol. */
  lemma TightLater(tokens: seq<Token>, n: nat, text: Symbols, k: nat)
    requires n < |tokens| && Least(tokens[..n + 1]) == 1 && text != []
    requires k > n ==> Tight(tokens[n + 1..], text[1..], k - n - 1)
    requires Least(tokens[n + 1..]) < |text|
    requires Alone(tokens, k) ==> k > n || (k == 0 && text[0] < 128)
    ensures Tight(tokens, text, k)
  {
    hide Least;
    var front, rest := tokens[..n + 1], tokens[n + 1..];
    assert tokens == front + rest;
    LeastConcat(front, rest);
    NothingFilled();
    assert k == 0 ==> tokens[..k] == [];
    if Alone(tokens, k) && k > n {
      var m := k - n - 1;
      assert rest[m] == tokens[k];
      assert Alone(rest, m);
      assert tokens[..k] == front + rest[..m];
      LeastConcat(front, rest[..m]);
    }
  }

  lemma NothingTight(text: Symbols, k: nat)
    ensures Tight([], text, k)
  {
  }

  /** A token that is no star takes one character, and a lone question mark one of one byte. */
  lemma OneTaken(tokens: seq<Token>, text: Symbols)
    requires Single(tokens) && tokens != [] && !IsStar(tokens[0]) && Matches(Flat(tokens), Encode(text))
    ensures text != [] && Matches(Flat(tokens[1..]), Encode(text[1..]))
    ensures Alone(tokens, 0) ==> text[0] < 128
  {
    hide Matches, Utf8, Encode, Flat, Calm;
    var first, rest := tokens[0], tokens[1..];
    assert tokens == [first] + rest;
    FlatStep(first, rest);
    NothingEncoded();
    if first.Literal? {
      LiteralOverCharacter(first.symbol, rest, text);
    } else if rest != [] && IsStar(rest[0]) {
      CalmBehind(tokens, 0);
      FlatStep(rest[0], rest[1..]);
      assert rest == [rest[0]] + rest[1..];
      assert [AnyChar, rest[0]] + Flat(rest[1..]) == [AnyChar] + Flat(rest);
      QuestionThenStar(rest[0], rest[1..], text);
    } else {
      SymbolStep(first, Flat(rest), Encode(text));
      FirstEncoded(text);
      assert rest != [] ==> rest[0].Literal?;
      var inside := Utf8(text[0])[1..];
      assert Encode(text)[1..] == inside + Encode(text[1..]);
      NotInside(rest, inside, text[1..]);
      assert inside + Encode(text[1..]) == Encode(text[1..]);
    }
  }

  /** Neither a literal nor the end matches inside a character. */
  lemma NotInside(rest: seq<Token>, inside: Symbols, text: Symbols)
    requires (rest != [] ==> rest[0].Literal?) && forall i | 0 <= i < |inside| :: Continues(inside[i])
    requires Matches(Flat(rest), inside + Encode(text))
    ensures inside == []
  {
    hide Utf8, Encode, Flat;
    NothingEncoded();
    if rest != [] {
      FlatStep(rest[0], rest[1..]);
      assert rest == [rest[0]] + rest[1..];
      LiteralsStep(Utf8(rest[0].symbol), Flat(rest[1..]), inside + Encode(text));
    }
  }

  lemma RunTaken(tokens: seq<Token>, text: Symbols) returns (i: nat)
    requires Single(tokens) && Asks(tokens) && IsStar(tokens[0]) && Matches(Flat(tokens), Encode(text))
    ensures Stars(tokens) < |tokens| && i < |text|
    ensures Matches(Flat(tokens[Stars(tokens) + 1..]), Encode(text[i + 1..]))
  {
    hide Matches, Encode, Flat, Single;
    var n := Stars(tokens);
    var stars, rest := tokens[..n], tokens[n + 1..];
    assert tokens == stars + [AnyChar] + rest;
    CalmBehind(tokens, n);
    FlatStars(stars, rest);
    StarsThenQuestion(stars, Flat(rest), Encode(text));
    var j: nat :| EndsAt(AnyPath in stars, Flat(rest), Encode(text), j);
    i := EndsInCharacter(AnyPath in stars, rest, text, j);
  }

  lemma StarTaken(tokens: seq<Token>, text: Symbols)
    requires tokens != [] && IsStar(tokens[0]) && Calm(tokens) && Matches(Flat(tokens), Encode(text))
    ensures Matches(Flat(tokens[1..]), Encode(text)) || (text != [] && Matches(Flat(tokens), Encode(text[1..])))
  {
    hide Matches, Encode, Flat;
    var first, rest := tokens[0], tokens[1..];
    assert tokens == [first] + rest;
    FlatStep(first, rest);
    if text == [] {
      NothingEncoded();
      StarStep(first, Flat(rest), Encode(text));
    } else {
      StarOverCharacter(first, rest, text);
    }
  }

  lemma TightFirst(tokens: seq<Token>, text: Symbols, k: nat)
    requires tokens != [] && !IsStar(tokens[0]) && text != [] && (Alone(tokens, 0) ==> text[0] < 128)
    requires Tight(tokens[1..], text[1..], if k > 0 then k - 1 else |tokens|)
    ensures Tight(tokens, text, k)
  {
    assert Least(tokens[..1]) == 1 by { assert tokens[..1][1..] == []; }
    TightLater(tokens, 0, text, k);
  }

  lemma AloneBehind(tokens: seq<Token>, k: nat)
    requires Asks(tokens) && IsStar(tokens[0]) && Alone(tokens, k)
    ensures k > Stars(tokens)
  {
  }

  lemma LeastOfRun(tokens: seq<Token>)
    requires Asks(tokens)
    ensures Least(tokens[..Stars(tokens) + 1]) == 1 && Least(tokens) == 1 + Least(tokens[Stars(tokens) + 1..])
  {
    hide Least;
    var n := Stars(tokens);
    var front, rest := tokens[..n + 1], tokens[n + 1..];
    assert tokens == front + rest && front == tokens[..n] + [AnyChar];
    LeastConcat(front, rest);
    LeastConcat(tokens[..n], [AnyChar]);
    LeastOfStars(tokens[..n]);
    FillStep(AnyChar, []);
    NothingFilled();
    assert [AnyChar] + [] == [AnyChar];
  }

  lemma TightRun(tokens: seq<Token>, text: Symbols, i: nat, k: nat)
    requires Asks(tokens) && IsStar(tokens[0]) && i < |text|
    requires Tight(tokens[Stars(tokens) + 1..], text[i + 1..], if k > Stars(tokens) then k - Stars(tokens) - 1 else |tokens|)
    ensures Tight(tokens, text, k)
  {
    hide Least, Alone, Stars;
    LeastOfRun(tokens);
    if i == 0 {
      if Alone(tokens, k) {
        AloneBehind(tokens, k);
      }
      TightLater(tokens, Stars(tokens), text, k);
    }
  }

  lemma TightStar(tokens: seq<Token>, text: Symbols, k: nat)
    requires tokens != [] && IsStar(tokens[0]) && Tight(tokens[1..], text, if k > 0 then k - 1 else |tokens|)
    ensures Tight(tokens, text, k)
  {
    if Alone(tokens, k) {
      assert Alone(tokens[1..], k - 1);
      assert tokens[..k][1..] == tokens[1..][..k - 1];
    }
  }

  lemma TightMore(tokens: seq<Token>, text: Symbols, k: nat)
    requires text != [] && Tight(tokens, text[1..], k)
    ensures Tight(tokens, text, k)
  {
  }

  lemma {:induction false} BytesAreTight(tokens: seq<Token>, text: Symbols, k: nat)
    requires Single(tokens) && Matches(Flat(tokens), Encode(text))
    ensures Tight(tokens, text, k)
    decreases |tokens|, |text|
  {
    hide Utf8, Encode, Flat, Single, Calm, Asks, Least, Matches, Tight, Alone, Stars;
    if tokens == [] {
      NothingTight(text, k);
    } else {
      var first := tokens[0];
      if !IsStar(first) {
        OneTaken(tokens, text);
        SingleLater(tokens, 1);
        BytesAreTight(tokens[1..], text[1..], if k > 0 then k - 1 else |tokens|);
        TightFirst(tokens, text, k);
      } else if Asks(tokens) {
        var i := RunTaken(tokens, text);
        var n := Stars(tokens);
        SingleLater(tokens, n + 1);
        BytesAreTight(tokens[n + 1..], text[i + 1..], if k > n then k - n - 1 else |tokens|);
        TightRun(tokens, text, i, k);
      } else {
        CalmOrAsks(tokens);
        SingleLater(tokens, 1);
        StarTaken(tokens, text);
        if Matches(Flat(tokens[1..]), Encode(text)) {
          BytesAreTight(tokens[1..], text, if k > 0 then k - 1 else |tokens|);
          TightStar(tokens, text, k);
        } else {
          BytesAreTight(tokens, text[1..], k);
          TightMore(tokens, text, k);
        }
      }
    }
  }

  /** A question mark away from any star refuses a character of two bytes. */
  lemma LoneDiffers(tokens: seq<Token>, k: nat) returns (text: Symbols)
    requires Single(tokens) && Alone(tokens, k)
    ensures Matches(tokens, text) && !Matches(Flat(tokens), Encode(text))
    ensures forall c | c in text :: c in {FILLER, WIDE} || Literal(c) in tokens
  {
    hide Matches, Flat, Encode, Utf8, Fill, Least, Single;
    var a, b := tokens[..k], tokens[k + 1..];
    assert tokens == a + ([AnyChar] + b);
    text := Fill(a) + [WIDE] + Fill(b);
    FillMatches(a);
    FillMatches(b);
    SymbolStep(AnyChar, [], [WIDE]);
    NothingMatches();
    assert [AnyChar] + [] == [AnyChar] && [WIDE][1..] == [];
    ThreeParts(a, [AnyChar], b, Fill(a), [WIDE], Fill(b));
    LeastConcat(a, [AnyChar] + b);
    FillStep(AnyChar, b);
    assert |text| == Least(tokens) && text[Least(a)] == WIDE;
    if Matches(Flat(tokens), Encode(text)) {
      BytesAreTight(tokens, text, k);
    }
    FilledFrom(a);
    FilledFrom(b);
  }

  // The whole matcher.

  lemma {:induction false} NoQuestion(pattern: Symbols)
    requires QUESTION !in pattern
    ensures AnyChar !in Tokens(pattern)
    decreases |pattern|
  {
    if pattern != [] {
      assert pattern[0] in pattern;
      NoQuestion(pattern[|Spell(FirstToken(pattern))|..]);
    }
  }

  lemma {:induction false} LastSegmentAscii(text: Symbols)
    requires Ascii(text)
    ensures Ascii(LastSegment(text))
  {
    if text != [] {
      LastSegmentAscii(text[..|text| - 1]);
    }
  }

  /** On an ASCII text there is nothing to tell them apart. */
  lemma {:induction false} AsciiMatches(tokens: seq<Token>, text: Symbols)
    requires Ascii(text)
    ensures Matches(Flat(tokens), Encode(text)) <==> Matches(tokens, text)
    decreases |tokens|, |text|
  {
    hide Utf8, Encode, Flat;
    NothingEncoded();
    if tokens != [] {
      hide Matches;
      var first, rest := tokens[0], tokens[1..];
      assert tokens == [first] + rest;
      FlatStep(first, rest);
      AsciiMatches(rest, text);
      if text != [] {
        AsciiMatches(rest, text[1..]);
      }
      if first.Literal? {
        LiteralOverCharacter(first.symbol, rest, text);
        SymbolStep(first, rest, text);
      } else if first == AnyChar {
        SymbolStep(first, rest, text);
        SymbolStep(first, Flat(rest), Encode(text));
        AsciiIsItself(text);
        if text != [] {
          AsciiIsItself(text[1..]);
        }
      } else {
        StarStep(first, rest, text);
        if text == [] {
          StarStep(first, Flat(rest), Encode(text));
        } else {
          StarOverCharacter(first, rest, text);
          AsciiMatches(tokens, text[1..]);
        }
      }
    }
  }

  lemma NoneToAbsorb(pattern: Symbols)
    requires QUESTION !in pattern
    ensures Absorbed(Tokens(pattern))
  {
    NoQuestion(pattern);
  }

  /** Matching the bytes of a path against the bytes of a pattern is matching characters against characters. */
  ghost predicate Agrees(pattern: Symbols, path: Symbols) {
    Matches(Tokens(Encode(pattern)), Subject(Encode(pattern), Encode(path))) <==>
      Matches(Tokens(pattern), Subject(pattern, path))
  }

  lemma AgreesOn(pattern: Symbols, path: Symbols)
    ensures var tokens, text := Tokens(pattern), Subject(pattern, path);
            Agrees(pattern, path) <==> (Matches(Flat(tokens), Encode(text)) <==> Matches(tokens, text))
  {
    hide Encode, Tokens, Matches, LastSegment, Flat;
    TokensEncoded(pattern);
    SlashEncoded(pattern);
    LastSegmentEncoded(path);
  }

  /**
   Bytes match as characters do whenever the path is ASCII, or the pattern has no question mark, or it has a star
   next to each question mark and a literal between any two.
   */
  lemma BytesMatchAsCharacters(pattern: Symbols, path: Symbols)
    requires QUESTION !in pattern || Absorbed(Tokens(pattern)) || Ascii(path)
    ensures Agrees(pattern, path)
  {
    hide Encode, Tokens, Matches, LastSegment, Flat, Absorbed, Agrees;
    AgreesOn(pattern, path);
    if QUESTION !in pattern {
      NoneToAbsorb(pattern);
    }
    if Absorbed(Tokens(pattern)) {
      AbsorbedMatches(Tokens(pattern), Subject(pattern, path));
    } else {
      LastSegmentAscii(path);
      AsciiMatches(Tokens(pattern), Subject(pattern, path));
    }
  }

  lemma {:induction false} LiteralsFrom(pattern: Symbols, c: Symbol)
    requires Literal(c) in Tokens(pattern)
    ensures c in pattern
    decreases |pattern|
  {
    var first := FirstToken(pattern);
    var rest := pattern[|Spell(first)|..];
    assert pattern == Spell(first) + rest;
    if first != Literal(c) {
      LiteralsFrom(rest, c);
    }
  }

  /** A path made of the pattern's literals is matched as a whole. */
  lemma WholeSubject(pattern: Symbols, path: Symbols)
    requires forall c | c in path :: c in {FILLER, WIDE} || Literal(c) in Tokens(pattern)
    ensures Subject(pattern, path) == path
  {
    if SLASH !in pattern {
      if SLASH in path {
        LiteralsFrom(pattern, SLASH);
      }
      LastWithoutSlash(path);
    }
  }

  /**
   The exact condition: a pattern means the same on the bytes of every path as on its characters if and only if
   each of its question marks stands next to a star and has a literal between it and any other.
   */
  lemma MeansCharactersIff(pattern: Symbols)
    ensures (forall path :: Agrees(pattern, path)) <==> Absorbed(Tokens(pattern))
  {
    hide Encode, Tokens, Matches, Flat, Agrees, Single, Beside, Subject;
    var tokens := Tokens(pattern);
    if Absorbed(tokens) {
      forall path
        ensures Agrees(pattern, path)
      {
        BytesMatchAsCharacters(pattern, path);
      }
    } else {
      var path := PathThatDiffers(tokens);
      WholeSubject(pattern, path);
      AgreesOn(pattern, path);
    }
  }

  lemma PathThatDiffers(tokens: seq<Token>) returns (text: Symbols)
    requires !Absorbed(tokens)
    ensures Matches(Flat(tokens), Encode(text)) != Matches(tokens, text)
    ensures forall c | c in text :: c in {FILLER, WIDE} || Literal(c) in tokens
  {
    hide Encode, Matches, Flat, Single;
    if Single(tokens) {
      var k :| 0 <= k < |tokens| && tokens[k] == AnyChar && !Beside(tokens, k);
      text := LoneDiffers(tokens, k);
    } else {
      text := DoubleDiffers(tokens);
    }
  }

  // A question mark by itself.

  /** What a question mark alone matches: one symbol other than a slash. */
  lemma QuestionIsOneSymbol(text: Symbols)
    ensures Matches(Tokens([QUESTION]), text) <==> |text| == 1 && text[0] != SLASH
  {
    NoTokens();
    TokensStep([QUESTION]);
    SymbolStep(AnyChar, [], text);
    assert Tokens([QUESTION]) == [AnyChar] + [];
  }

  /**
   A question mark is documented to match any one character other than a slash.  Of the characters it matches
   exactly those of one byte, so that it means what it says if and only if the character is ASCII.
   */
  lemma QuestionIsOneByte(c: Symbol)
    ensures Matches(Tokens([QUESTION]), [c]) <==> c != SLASH
    ensures Matches(Tokens([QUESTION]), Utf8(c)) <==> |Utf8(c)| == 1 && c != SLASH
    ensures c != SLASH ==>
              ((Matches(Tokens([QUESTION]), Utf8(c)) <==> Matches(Tokens([QUESTION]), [c])) <==> Ascii([c]))
  {
    hide Utf8, Tokens, Matches;
    QuestionIsOneSymbol([c]);
    QuestionIsOneSymbol(Utf8(c));
  }
}
