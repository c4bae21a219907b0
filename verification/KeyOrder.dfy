/** The order of path texts: how a map from paths is kept, and walked backwards when a transaction is undone. */
module KeyOrder {
  import opened GitModel
  import opened Glob
  import opened Paths
  import opened Unicode
  import opened Listing

  function Segments(p: Path): (segments: seq<Symbols>)
    ensures |segments| == |p| && forall i | 0 <= i < |p| :: segments[i] == Codes(p[i])
  {
    seq(|p|, i requires 0 <= i < |p| => Codes(p[i]))
  }

  /** The bytes of the path's text. */
  function Key(p: Path): Symbols {
    Encode(Join(Segments(p)))
  }

  /** One path comes before another in a map. */
  predicate Before(a: Path, b: Path) {
    a != b && Leq(Key(a), Key(b))
  }

  /** The whole of a map, walked backwards. */
  predicate LastFirst(order: seq<Path>) {
    forall i, j | 0 <= i < j < |order| :: Before(order[j], order[i])
  }

  lemma BeforeTotal(a: Path, b: Path)
    ensures a == b || Before(a, b) || Before(b, a)
  {
    LeqTotal(Key(a), Key(b));
  }

  // Two names never come before each other.

  lemma {:induction false} LeqBoth(a: Symbols, b: Symbols)
    requires Leq(a, b) && Leq(b, a)
    ensures a == b
  {
    if a != [] {
      LeqBoth(a[1..], b[1..]);
      assert a == [a[0]] + a[1..] && b == [b[0]] + b[1..];
    }
  }

  lemma {:induction false} EncodeOnce(a: Symbols, b: Symbols)
    requires Encode(a) == Encode(b)
    ensures a == b
  {
    hide Utf8, Encode;
    NothingEncoded();
    if a != [] {
      FirstEncoded(a);
      if b == [] {
        assert false;
      } else {
        FirstEncoded(b);
        PrefixFree(a[0], b[0], Encode(b[1..]));
        assert Encode(a)[|Utf8(a[0])|..] == Encode(a[1..]) && Encode(b)[|Utf8(b[0])|..] == Encode(b[1..]);
        EncodeOnce(a[1..], b[1..]);
        assert a == [a[0]] + a[1..] && b == [b[0]] + b[1..];
      }
    } else if b != [] {
      FirstEncoded(b);
      assert false;
    }
  }

  /** A path whose names hold no slash, as every validated path. */
  predicate Plain(p: Path) {
    p != [] && forall i | 0 <= i < |p| :: '/' !in p[i]
  }

  lemma PlainSegments(p: Path)
    requires Plain(p)
    ensures Segments(p) != [] && NoSlash(Segments(p))
  {
    forall i | 0 <= i < |p|
      ensures SLASH !in Segments(p)[i]
    {
      assert forall j | 0 <= j < |p[i]| :: p[i][j] in p[i] && p[i][j] != '/';
    }
  }

  lemma KeyOnce(a: Path, b: Path)
    requires Plain(a) && Plain(b) && Key(a) == Key(b)
    ensures a == b
  {
    hide Encode, Join, Split;
    EncodeOnce(Join(Segments(a)), Join(Segments(b)));
    PlainSegments(a);
    PlainSegments(b);
    SplitJoin(Segments(a));
    SplitJoin(Segments(b));
    forall i | 0 <= i < |a|
      ensures a[i] == b[i]
    {
      assert Segments(a)[i] == Segments(b)[i];
      assert forall j | 0 <= j < |a[i]| :: a[i][j] as Symbol == b[i][j] as Symbol;
    }
  }

  lemma BeforeOnce(a: Path, b: Path)
    requires Plain(a) && Plain(b) && Before(a, b)
    ensures !Before(b, a)
  {
    if Before(b, a) {
      LeqBoth(Key(a), Key(b));
      KeyOnce(a, b);
      assert false;
    }
  }

  // A directory comes before what is below it.

  lemma {:induction false} ShorterFirst(a: Symbols, more: Symbols)
    requires more != []
    ensures !Leq(a + more, a)
  {
    if a != [] {
      assert (a + more)[1..] == a[1..] + more;
      ShorterFirst(a[1..], more);
    }
  }

  lemma AboveIsBefore(q: Path, p: Path)
    requires q != [] && q < p
    ensures Before(q, p) && !Before(p, q)
  {
    hide Leq, Join, Encode;
    var rest := p[|q|..];
    assert Segments(p) == Segments(q) + Segments(rest);
    JoinConcat(Segments(q), Segments(rest));
    var a, b := Join(Segments(q)), Join(Segments(rest));
    assert a + [SLASH] + b == a + ([SLASH] + b);
    EncodeConcat(a, [SLASH] + b);
    FirstEncoded([SLASH] + b);
    ShorterFirst(Key(q), Encode([SLASH] + b));
    LeqTotal(Key(q), Key(p));
  }

  // Walking a map backwards.

  function Slot(order: seq<Path>, p: Path): (k: nat)
    ensures k <= |order|
    ensures forall i | 0 <= i < k :: !Leq(Key(order[i]), Key(p))
    ensures k < |order| ==> Leq(Key(order[k]), Key(p))
  {
    if order == [] || Leq(Key(order[0]), Key(p)) then 0 else 1 + Slot(order[1..], p)
  }

  lemma Placed(order: seq<Path>, p: Path)
    requires LastFirst(order) && p !in order
    ensures var k := Slot(order, p); LastFirst(order[..k] + [p] + order[k..])
  {
    hide Leq, Key;
    var k := Slot(order, p);
    var r := order[..k] + [p] + order[k..];
    forall i, j | 0 <= i < j < |r|
      ensures Before(r[j], r[i])
    {
      if i < k && j == k {
        BeforeTotal(p, order[i]);
      } else if i == k && j > k + 1 {
        LeqTransitive(Key(order[j - 1]), Key(order[k]), Key(p));
      }
    }
  }

  lemma PlacedMembers(order: seq<Path>, k: nat, p: Path)
    requires k <= |order|
    ensures forall q :: q in order[..k] + [p] + order[k..] <==> q in order || q == p
  {
    assert order == order[..k] + order[k..];
  }

  /** A map's keys from the last to the first. */
  method Backwards(keys: set<Path>) returns (order: seq<Path>)
    ensures LastFirst(order) && forall p :: p in order <==> p in keys
  {
    hide Leq, Key;
    order := [];
    var rest := keys;
    while rest != {}
      invariant rest <= keys && LastFirst(order)
      invariant forall p :: p in order <==> p in keys - rest
    {
      var p :| p in rest;
      var k := Slot(order, p);
      Placed(order, p);
      PlacedMembers(order, k, p);
      order, rest := order[..k] + [p] + order[k..], rest - {p};
    }
  }
}
