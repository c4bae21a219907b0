/** Characters as bytes: what becomes of patterns and paths, and of a star that stops inside a character. */
module Unicode {
  import opened Glob

  predicate Ascii(text: Symbols) {
    forall i | 0 <= i < |text| :: text[i] < 128
  }

  /** A byte that goes on with a character: 10xxxxxx. */
  predicate Continues(b: Symbol) {
    128 <= b < 192
  }

  /** Section 3 of RFC 3629. */
  function Utf8(c: Symbol): (bytes: Symbols)
    ensures bytes != [] && forall i | 0 <= i < |bytes| :: bytes[i] < 256
    ensures |bytes| == 1 <==> c < 128
    ensures c < 128 ==> bytes[0] == c
    ensures 128 <= c ==> 192 <= bytes[0]
    ensures forall i | 0 < i < |bytes| :: Continues(bytes[i])
  {
    var n := c as int;
    if n < 0x80 then [c]
    else if n < 0x800 then [(192 + n / 64) as Symbol, Tail(n)]
    else if n < 0x10000 then [(224 + n / 4096) as Symbol, Tail(n / 64), Tail(n)]
    else [(240 + n / 262144) as Symbol, Tail(n / 4096), Tail(n / 64), Tail(n)]
  }

  function Tail(n: nat): (b: Symbol)
    ensures Continues(b)
  {
    (128 + n % 64) as Symbol
  }

  function Encode(text: Symbols): (bytes: Symbols)
    ensures |text| <= |bytes|
  {
    if text == [] then [] else Utf8(text[0]) + Encode(text[1..])
  }

  lemma {:induction false} AsciiIsItself(text: Symbols)
    requires Ascii(text)
    ensures Encode(text) == text
  {
    hide Utf8;
    if text != [] {
      AsciiIsItself(text[1..]);
      assert Utf8(text[0]) == [text[0]];
    }
  }

  /** How many bytes a character has, by its first. */
  function Width(first: Symbol): nat {
    if first < 128 then 1 else if first < 224 then 2 else if first < 240 then 3 else 4
  }

  function Value(bytes: Symbols): int
    requires 1 <= |bytes| <= 4
  {
    if |bytes| == 1 then bytes[0] as int
    else if |bytes| == 2 then (bytes[0] as int - 192) * 64 + (bytes[1] as int - 128)
    else if |bytes| == 3 then
      (bytes[0] as int - 224) * 4096 + (bytes[1] as int - 128) * 64 + (bytes[2] as int - 128)
    else
      (bytes[0] as int - 240) * 262144 + (bytes[1] as int - 128) * 4096
      + (bytes[2] as int - 128) * 64 + (bytes[3] as int - 128)
  }

  /** The bytes say which character it is, and the first how many there are. */
  lemma Decodes(c: Symbol)
    ensures |Utf8(c)| == Width(Utf8(c)[0]) && Value(Utf8(c)) == c as int
  {
    var n := c as int;
    if n >= 0x800 {
      Digits(n, 64);
      if n >= 0x10000 {
        Digits(n, 4096);
      }
    }
  }

  lemma Digits(n: nat, base: nat)
    requires base == 64 || base == 4096
    ensures n / (base * 64) * 64 + n / base % 64 == n / base
  {
  }

  /** No character's bytes begin with those of another. */
  lemma PrefixFree(c: Symbol, d: Symbol, more: Symbols)
    requires Utf8(c) <= Utf8(d) + more
    ensures c == d
  {
    Decodes(c);
    Decodes(d);
    hide Utf8, Value;
    var x, y := Utf8(c), Utf8(d);
    assert x[0] == (y + more)[0] == y[0];
    assert x == (y + more)[..|x|] == y;
  }

  lemma {:induction false} EncodeConcat(a: Symbols, b: Symbols)
    ensures Encode(a + b) == Encode(a) + Encode(b)
  {
    hide Utf8;
    if a == [] {
      assert a + b == b;
    } else {
      assert (a + b)[1..] == a[1..] + b;
      EncodeConcat(a[1..], b);
    }
  }

  lemma EncodeOne(c: Symbol)
    ensures Encode([c]) == Utf8(c)
  {
    hide Utf8;
    assert Encode([]) == [] && [c][1..] == [];
  }

  // The tokens of an encoded pattern.

  function Literals(bytes: Symbols): (tokens: seq<Token>)
    ensures |tokens| == |bytes|
  {
    if bytes == [] then [] else [Literal(bytes[0])] + Literals(bytes[1..])
  }

  function Flat(tokens: seq<Token>): seq<Token> {
    if tokens == [] then []
    else (if tokens[0].Literal? then Literals(Utf8(tokens[0].symbol)) else [tokens[0]]) + Flat(tokens[1..])
  }

  lemma {:induction false} HighTokens(bytes: Symbols, more: Symbols)
    requires forall i | 0 <= i < |bytes| :: 128 <= bytes[i]
    ensures Tokens(bytes + more) == Literals(bytes) + Tokens(more)
  {
    if bytes == [] {
      assert bytes + more == more;
    } else {
      var all := bytes + more;
      assert all[1..] == bytes[1..] + more;
      HighTokens(bytes[1..], more);
      assert FirstToken(all) == Literal(bytes[0]);
    }
  }

  lemma FirstEncoded(pattern: Symbols)
    requires pattern != []
    ensures Encode(pattern) == Utf8(pattern[0]) + Encode(pattern[1..]) && Encode(pattern) != []
    ensures pattern[0] < 128 ==> Encode(pattern)[0] == pattern[0]
    ensures 128 <= pattern[0] ==> 192 <= Encode(pattern)[0]
  {
    hide Utf8;
  }

  /** Encoding a pattern turns each literal character into its literal bytes. */
  lemma {:induction false} TokensEncoded(pattern: Symbols)
    ensures Tokens(Encode(pattern)) == Flat(Tokens(pattern))
    decreases |pattern|
  {
    hide Utf8, Encode, Flat, Literals;
    if pattern == [] {
      NothingEncoded();
    } else {
      var first := FirstToken(pattern);
      var rest := pattern[|Spell(first)|..];
      TokensEncoded(rest);
      FlatStep(first, Tokens(rest));
      EncodeConcat(Spell(first), rest);
      assert Spell(first) + rest == pattern;
      if first.Literal? {
        LiteralEncoded(first.symbol, rest);
      } else {
        SpecialEncoded(first, rest);
      }
    }
  }

  lemma NothingEncoded()
    ensures Encode([]) == [] && Flat([]) == []
  {
  }

  lemma FlatStep(first: Token, rest: seq<Token>)
    ensures Flat([first] + rest) == (if first.Literal? then Literals(Utf8(first.symbol)) else [first]) + Flat(rest)
  {
    assert ([first] + rest)[1..] == rest;
  }

  lemma LiteralEncoded(c: Symbol, rest: Symbols)
    requires c != STAR && c != QUESTION
    ensures Tokens(Encode([c]) + Encode(rest)) == Literals(Utf8(c)) + Tokens(Encode(rest))
  {
    hide Encode;
    EncodeOne(c);
    var bytes, more := Utf8(c), Encode(rest);
    if c < 128 {
      assert bytes == [c] && Literals([c]) == [Literal(c)] + Literals([]);
      assert (bytes + more)[1..] == more;
    } else {
      HighTokens(bytes, more);
    }
  }

  lemma SpecialEncoded(first: Token, rest: Symbols)
    requires !first.Literal? && (first == AnySegment ==> rest == [] || rest[0] != STAR)
    ensures Tokens(Encode(Spell(first)) + Encode(rest)) == [first] + Tokens(Encode(rest))
  {
    AsciiIsItself(Spell(first));
    hide Utf8, Encode;
    var all, more := Encode(Spell(first)) + Encode(rest), Encode(rest);
    NothingEncoded();
    if rest != [] {
      FirstEncoded(rest);
    }
    assert all[|Spell(first)|..] == more;
    assert FirstToken(all) == first;
  }

  // Matching byte by byte.

  lemma {:induction false} LiteralsStep(bytes: Symbols, rest: seq<Token>, text: Symbols)
    ensures Matches(Literals(bytes) + rest, text) <==> bytes <= text && Matches(rest, text[|bytes|..])
  {
    hide Matches;
    if bytes == [] {
      assert Literals(bytes) + rest == rest && text[0..] == text;
    } else {
      var later := Literals(bytes[1..]) + rest;
      assert Literals(bytes) + rest == [Literal(bytes[0])] + later;
      SymbolStep(Literal(bytes[0]), later, text);
      if text != [] {
        LiteralsStep(bytes[1..], rest, text[1..]);
        assert bytes[0] == text[0] ==> (bytes <= text <==> bytes[1..] <= text[1..]);
        assert bytes <= text ==> text[1..][|bytes| - 1..] == text[|bytes|..];
      }
    }
  }

  /** No question mark stands before the first literal. */
  predicate Calm(tokens: seq<Token>) {
    tokens == [] || tokens[0].Literal? || (tokens[0] != AnyChar && Calm(tokens[1..]))
  }

  lemma CalmStep(tokens: seq<Token>)
    requires Calm(tokens) && tokens != [] && !tokens[0].Literal?
    ensures tokens[0] != AnyChar && Calm(tokens[1..])
  {
  }

  /** A match that starts inside a character starts with a star, and the star can do without the rest of it. */
  lemma {:induction false} SkipInside(tokens: seq<Token>, inside: Symbols, text: Symbols)
    requires inside != [] && (forall i | 0 <= i < |inside| :: Continues(inside[i])) && Calm(tokens)
    requires Matches(Flat(tokens), inside + Encode(text))
    ensures Matches(Flat(tokens), Encode(text))
    decreases |tokens|, |inside|
  {
    hide Utf8, Encode, Flat;
    NothingEncoded();
    if tokens != [] {
      hide Matches, Calm;
      var first, rest, all := tokens[0], tokens[1..], inside + Encode(text);
      assert tokens == [first] + rest;
      FlatStep(first, rest);
      if first.Literal? {
        LiteralsStep(Utf8(first.symbol), Flat(rest), all);
        assert false;
      } else {
        CalmStep(tokens);
        StarStep(first, Flat(rest), all);
        StarStep(first, Flat(rest), Encode(text));
        if Matches(Flat(rest), all) {
          SkipInside(rest, inside, text);
        } else {
          assert all[1..] == inside[1..] + Encode(text);
          if |inside| == 1 {
            assert all[1..] == Encode(text);
          } else {
            SkipInside(tokens, inside[1..], text);
          }
        }
      }
    }
  }

  /** So a star takes the rest of a character or leaves it. */
  lemma {:induction false} StarOverInside(star: Token, rest: seq<Token>, inside: Symbols, text: Symbols)
    requires star in {AnyPath, AnySegment} && Calm(rest)
    requires forall i | 0 <= i < |inside| :: Continues(inside[i])
    ensures Matches([star] + Flat(rest), inside + Encode(text)) <==> Matches([star] + Flat(rest), Encode(text))
    decreases |inside|
  {
    hide Matches, Utf8, Encode, Flat, Calm;
    if inside == [] {
      assert inside + Encode(text) == Encode(text);
    } else {
      var all := inside + Encode(text);
      assert all[1..] == inside[1..] + Encode(text) && all[0] == inside[0];
      StarStep(star, Flat(rest), all);
      StarStep(star, Flat(rest), Encode(text));
      StarOverInside(star, rest, inside[1..], text);
      if Matches(Flat(rest), all) {
        SkipInside(rest, inside, text);
      }
    }
  }

  lemma StarOverCharacter(star: Token, rest: seq<Token>, text: Symbols)
    requires star in {AnyPath, AnySegment} && text != [] && (Calm(rest) || Ascii(text))
    ensures Matches([star] + Flat(rest), Encode(text)) <==>
              || Matches(Flat(rest), Encode(text))
              || ((star == AnyPath || text[0] != SLASH) && Matches([star] + Flat(rest), Encode(text[1..])))
  {
    hide Matches, Utf8, Encode, Flat, Calm;
    FirstEncoded(text);
    StarStep(star, Flat(rest), Encode(text));
    var inside := Utf8(text[0])[1..];
    assert Encode(text)[1..] == inside + Encode(text[1..]);
    if Calm(rest) {
      StarOverInside(star, rest, inside, text[1..]);
    } else {
      assert inside == [];
      assert Encode(text)[1..] == Encode(text[1..]);
    }
  }

  /** One literal character, or its bytes. */
  lemma LiteralOverCharacter(c: Symbol, rest: seq<Token>, text: Symbols)
    ensures Matches(Literals(Utf8(c)) + Flat(rest), Encode(text)) <==>
              text != [] && text[0] == c && Matches(Flat(rest), Encode(text[1..]))
  {
    hide Matches, Utf8, Encode, Flat;
    LiteralsStep(Utf8(c), Flat(rest), Encode(text));
    NothingEncoded();
    if text != [] {
      FirstEncoded(text);
      if Utf8(c) <= Encode(text) {
        PrefixFree(c, text[0], Encode(text[1..]));
      }
      if text[0] == c {
        assert Encode(text)[|Utf8(c)|..] == Encode(text[1..]);
      }
    }
  }

  // The subject.

  lemma {:induction false} SlashEncoded(text: Symbols)
    ensures SLASH in Encode(text) <==> SLASH in text
  {
    hide Utf8;
    if text != [] {
      SlashEncoded(text[1..]);
      assert text == [text[0]] + text[1..];
      assert SLASH in Utf8(text[0]) <==> text[0] == SLASH by {
        assert Utf8(text[0])[0] in Utf8(text[0]);
      }
    }
  }

  lemma {:induction false} LastSegmentEncoded(text: Symbols)
    ensures LastSegment(Encode(text)) == Encode(LastSegment(text))
    decreases |text|
  {
    hide Utf8, LastSegment, Encode;
    NothingEncoded();
    SlashEncoded(text);
    var k := FirstSlash(text);
    if SLASH !in text {
      LastWithoutSlash(text);
      LastWithoutSlash(Encode(text));
    } else {
      var a, b := text[..k], text[k + 1..];
      assert text == a + [SLASH] + b;
      LastAfterSlash(a, b);
      EncodeConcat(a + [SLASH], b);
      EncodeConcat(a, [SLASH]);
      EncodeOne(SLASH);
      assert Utf8(SLASH) == [SLASH];
      assert Encode(text) == Encode(a) + [SLASH] + Encode(b);
      LastAfterSlash(Encode(a), Encode(b));
      LastSegmentEncoded(b);
    }
  }
}
