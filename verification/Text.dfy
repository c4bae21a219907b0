/** The string operations of the Rust standard library that the patch and conflict tools rely on. */
module Text {
  import opened Wrappers

  // Lines, as `str::lines` sees them.

  function FirstNewline(t: string): (k: nat)
    ensures k <= |t|
    ensures k < |t| ==> t[k] == '\n'
    ensures forall i | 0 <= i < k :: t[i] != '\n'
  {
    if t == [] || t[0] == '\n' then 0 else 1 + FirstNewline(t[1..])
  }

  function StripCarriageReturn(line: string): string {
    if line != [] && line[|line| - 1] == '\r' then line[..|line| - 1] else line
  }

  function Lines(t: string): seq<string>
    decreases |t|
  {
    if t == [] then []
    else
      var k := FirstNewline(t);
      if k == |t| then [t] else [StripCarriageReturn(t[..k])] + Lines(t[k + 1..])
  }

  predicate IsMarker(line: string) {
    "<<<<<<< " <= line || line == "=======" || ">>>>>>> " <= line
  }

  /** `contains_conflict_markers`. */
  predicate HasMarkers(content: string) {
    exists line | line in Lines(content) :: IsMarker(line)
  }

  // Matching, counting and replacing a non-empty pattern.

  predicate OccursAt(t: string, pattern: string, k: int) {
    0 <= k && k + |pattern| <= |t| && t[k..k + |pattern|] == pattern
  }

  /** The first occurrence, or the length of the text when there is none. */
  function Find(t: string, pattern: string): (k: nat)
    requires pattern != []
    ensures k <= |t|
    ensures k < |t| ==> OccursAt(t, pattern, k)
    ensures forall i | 0 <= i < k :: !OccursAt(t, pattern, i)
  {
    FindFrom(t, pattern, 0)
  }

  function FindFrom(t: string, pattern: string, from: nat): (k: nat)
    requires pattern != [] && from <= |t|
    ensures from <= k <= |t|
    ensures k < |t| ==> OccursAt(t, pattern, k)
    ensures forall i | from <= i < k :: !OccursAt(t, pattern, i)
    decreases |t| - from
  {
    if from == |t| || OccursAt(t, pattern, from) then from else FindFrom(t, pattern, from + 1)
  }

  /** `text.matches(pattern).count()`: leftmost matches, left to right, never overlapping. */
  function CountMatches(t: string, pattern: string): nat
    requires pattern != []
  {
    CountFrom(t, pattern, 0)
  }

  function CountFrom(t: string, pattern: string, from: nat): nat
    requires pattern != [] && from <= |t|
    decreases |t| - from
  {
    var k := FindFrom(t, pattern, from);
    if k == |t| then 0 else 1 + CountFrom(t, pattern, k + |pattern|)
  }

  /** `text.replace(pattern, with)`. */
  function Replace(t: string, pattern: string, with: string): string
    requires pattern != []
  {
    ReplaceFrom(t, pattern, with, 0)
  }

  function ReplaceFrom(t: string, pattern: string, with: string, from: nat): string
    requires pattern != [] && from <= |t|
    decreases |t| - from
  {
    var k := FindFrom(t, pattern, from);
    if k == |t| then t[from..] else t[from..k] + with + ReplaceFrom(t, pattern, with, k + |pattern|)
  }

  // What counting and replacing mean.

  /** Positions, from `from` on, at which pairwise disjoint occurrences start, in order. */
  predicate DisjointOccurrences(t: string, pattern: string, from: nat, ps: seq<nat>) {
    && (forall i | 0 <= i < |ps| :: from <= ps[i] && OccursAt(t, pattern, ps[i]))
    && (forall i, j | 0 <= i < j < |ps| :: ps[i] + |pattern| <= ps[j])
  }

  /** No set of disjoint occurrences is larger than the count. */
  lemma {:induction false} CountIsLargest(t: string, pattern: string, from: nat, ps: seq<nat>)
    requires pattern != [] && from <= |t| && DisjointOccurrences(t, pattern, from, ps)
    ensures |ps| <= CountFrom(t, pattern, from)
    decreases |t| - from
  {
    if ps != [] {
      var k := FindFrom(t, pattern, from);
      assert k <= ps[0];
      var rest := ps[1..];
      forall i | 0 <= i < |rest|
        ensures k + |pattern| <= rest[i] && OccursAt(t, pattern, rest[i])
      {
        assert rest[i] == ps[i + 1];
      }
      CountIsLargest(t, pattern, k + |pattern|, rest);
    }
  }

  /** The count is reached by disjoint occurrences, so it is the maximum. */
  lemma {:induction false} CountIsReached(t: string, pattern: string, from: nat) returns (ps: seq<nat>)
    requires pattern != [] && from <= |t|
    ensures DisjointOccurrences(t, pattern, from, ps) && |ps| == CountFrom(t, pattern, from)
    decreases |t| - from
  {
    var k := FindFrom(t, pattern, from);
    if k == |t| {
      ps := [];
    } else {
      var rest := CountIsReached(t, pattern, k + |pattern|);
      ps := [k] + rest;
    }
  }

  /** The text between the matches. */
  function Pieces(t: string, pattern: string, from: nat): (pieces: seq<string>)
    requires pattern != [] && from <= |t|
    ensures |pieces| == CountFrom(t, pattern, from) + 1
    decreases |t| - from
  {
    var k := FindFrom(t, pattern, from);
    if k == |t| then [t[from..]] else [t[from..k]] + Pieces(t, pattern, k + |pattern|)
  }

  function Join(pieces: seq<string>, glue: string): string
    requires pieces != []
  {
    if |pieces| == 1 then pieces[0] else pieces[0] + glue + Join(pieces[1..], glue)
  }

  lemma JoinStep(first: string, rest: seq<string>, glue: string)
    requires rest != []
    ensures Join([first] + rest, glue) == first + glue + Join(rest, glue)
  {
  }

  /** Replacing is cutting the text at the counted matches and rejoining the pieces with the new text. */
  lemma {:induction false} ReplaceRejoins(t: string, pattern: string, with: string, from: nat)
    requires pattern != [] && from <= |t|
    ensures Join(Pieces(t, pattern, from), pattern) == t[from..]
    ensures Join(Pieces(t, pattern, from), with) == ReplaceFrom(t, pattern, with, from)
    decreases |t| - from
  {
    hide FindFrom, OccursAt;
    var k := FindFrom(t, pattern, from);
    if k < |t| {
      FoundHere(t, pattern, from);
      var next := k + |pattern|;
      var rest := Pieces(t, pattern, next);
      ReplaceRejoins(t, pattern, with, next);
      JoinStep(t[from..k], rest, pattern);
      JoinStep(t[from..k], rest, with);
    }
  }

  lemma FoundHere(t: string, pattern: string, from: nat)
    requires pattern != [] && from <= |t| && FindFrom(t, pattern, from) < |t|
    ensures var k := FindFrom(t, pattern, from);
            k + |pattern| <= |t| && t[from..] == t[from..k] + pattern + t[k + |pattern|..]
  {
  }

  /** A slice matches where the text does. */
  lemma OccursInSlice(t: string, pattern: string, lo: nat, hi: nat, m: nat)
    requires lo <= hi <= |t| && m + |pattern| <= hi - lo
    ensures OccursAt(t[lo..hi], pattern, m) <==> OccursAt(t, pattern, lo + m)
  {
    var u, n := t[lo..hi], |pattern|;
    var a, b := u[m..m + n], t[lo + m..lo + m + n];
    assert forall i | 0 <= i < n :: a[i] == u[m + i] && b[i] == a[i];
    assert a == b;
  }

  lemma LastPiece(t: string, pattern: string, from: nat)
    requires pattern != [] && from <= |t| && FindFrom(t, pattern, from) == |t|
    ensures CountMatches(t[from..], pattern) == 0
  {
    var m := Find(t[from..], pattern);
    if m < |t| - from {
      OccursInSlice(t, pattern, from, |t|, m);
    }
  }

  lemma CutPiece(t: string, pattern: string, from: nat)
    requires pattern != [] && from <= |t| && FindFrom(t, pattern, from) < |t|
    ensures Find(t[from..FindFrom(t, pattern, from)] + pattern, pattern) == FindFrom(t, pattern, from) - from
  {
    var k := FindFrom(t, pattern, from);
    var end := k + |pattern|;
    assert t[from..k] + pattern == t[from..end];
    OccursInSlice(t, pattern, from, end, k - from);
    var m := Find(t[from..end], pattern);
    OccursInSlice(t, pattern, from, end, m);
  }

  /** The cuts are leftmost: a piece followed by the pattern first matches where the piece ends. */
  lemma {:induction false} PiecesAreLeftmost(t: string, pattern: string, from: nat, i: nat)
    requires pattern != [] && from <= |t| && i < |Pieces(t, pattern, from)|
    ensures i < |Pieces(t, pattern, from)| - 1 ==>
              Find(Pieces(t, pattern, from)[i] + pattern, pattern) == |Pieces(t, pattern, from)[i]|
    ensures i == |Pieces(t, pattern, from)| - 1 ==> CountMatches(Pieces(t, pattern, from)[i], pattern) == 0
    decreases |t| - from
  {
    if i > 0 {
      PiecesAreLeftmost(t, pattern, FindFrom(t, pattern, from) + |pattern|, i - 1);
    } else if FindFrom(t, pattern, from) < |t| {
      CutPiece(t, pattern, from);
    } else {
      LastPiece(t, pattern, from);
    }
  }

  /** `n` steps, added up. */
  function Times(n: nat, step: int): int {
    if n == 0 then 0 else step + Times(n - 1, step)
  }

  lemma {:induction false} TimesIsProduct(n: nat, step: int)
    ensures Times(n, step) == n * step
  {
    if n > 0 {
      TimesIsProduct(n - 1, step);
      assert n * step == step + (n - 1) * step;
    }
  }

  lemma {:induction false} ReplaceLength(t: string, pattern: string, with: string, from: nat)
    requires pattern != [] && from <= |t|
    ensures |ReplaceFrom(t, pattern, with, from)|
         == |t| - from + Times(CountFrom(t, pattern, from), |with| - |pattern|)
    decreases |t| - from
  {
    var k := FindFrom(t, pattern, from);
    if k < |t| {
      ReplaceLength(t, pattern, with, k + |pattern|);
    }
  }

  // The replacement engine of an update.

  datatype Replacement = Replacement(find: string, with: string, expected: nat)

  /** `apply_replacements` after the UTF-8 check; `None` is any of its errors. */
  function ReplaceEach(t: string, rs: seq<Replacement>): Option<string>
    decreases |rs|
  {
    if rs == [] then Some(t)
    else
      var r := rs[0];
      if r.find == [] || r.expected == 0 then None
      else if CountMatches(t, r.find) != r.expected then None
      else ReplaceEach(Replace(t, r.find, r.with), rs[1..])
  }

  function Edit(t: string, rs: seq<Replacement>): Option<string> {
    if rs == [] then None
    else
      match ReplaceEach(t, rs)
      case None => None
      case Some(after) => if '\0' in after then None else Some(after)
  }

  /** The texts an edit goes through: each replacement finds as many matches as announced, and replaces them all. */
  predicate Stages(rs: seq<Replacement>, ts: seq<string>) {
    && |ts| == |rs| + 1
    && forall i | 0 <= i < |rs| ::
         && rs[i].find != [] && rs[i].expected > 0 && CountMatches(ts[i], rs[i].find) == rs[i].expected
         && ts[i + 1] == Replace(ts[i], rs[i].find, rs[i].with)
  }

  /** What an update's replacements lead to. */
  ghost predicate EditsTo(before: string, rs: seq<Replacement>, after: string) {
    && rs != [] && '\0' !in after
    && exists ts :: Stages(rs, ts) && ts[0] == before && ts[|rs|] == after
  }

  lemma {:induction false} StagesOfEach(t: string, rs: seq<Replacement>) returns (ts: seq<string>)
    requires ReplaceEach(t, rs).Some?
    ensures Stages(rs, ts) && ts[0] == t && ts[|rs|] == ReplaceEach(t, rs).value
    decreases |rs|
  {
    ts := [t];
    if rs != [] {
      var later := StagesOfEach(Replace(t, rs[0].find, rs[0].with), rs[1..]);
      ts := [t] + later;
    }
  }

  lemma LaterStages(rs: seq<Replacement>, ts: seq<string>)
    requires Stages(rs, ts) && rs != []
    ensures Stages(rs[1..], ts[1..]) && ts[1] == Replace(ts[0], rs[0].find, rs[0].with)
    ensures rs[0].find != [] && rs[0].expected > 0 && CountMatches(ts[0], rs[0].find) == rs[0].expected
  {
    hide CountMatches, Replace;
    assert forall i | 0 <= i < |rs| - 1 :: rs[1..][i] == rs[i + 1] && ts[1..][i] == ts[i + 1];
  }

  lemma {:induction false} EachOfStages(rs: seq<Replacement>, ts: seq<string>)
    requires Stages(rs, ts)
    ensures ReplaceEach(ts[0], rs) == Some(ts[|rs|])
    decreases |rs|
  {
    hide CountMatches, Replace;
    if rs != [] {
      LaterStages(rs, ts);
      EachOfStages(rs[1..], ts[1..]);
    }
  }

  lemma EditIff(before: string, rs: seq<Replacement>, after: string)
    ensures Edit(before, rs) == Some(after) <==> EditsTo(before, rs, after)
  {
    if ReplaceEach(before, rs).Some? {
      var ts := StagesOfEach(before, rs);
    }
    if ts :| Stages(rs, ts) && ts[0] == before && ts[|rs|] == after {
      EachOfStages(rs, ts);
    }
  }

  function Growth(rs: seq<Replacement>): int {
    if rs == [] then 0 else rs[0].expected * (|rs[0].with| - |rs[0].find|) + Growth(rs[1..])
  }

  /** A successful edit changes the length by what the request announces, whatever the text. */
  lemma {:induction false} EditLength(t: string, rs: seq<Replacement>)
    requires ReplaceEach(t, rs).Some?
    ensures |ReplaceEach(t, rs).value| == |t| + Growth(rs)
    decreases |rs|
  {
    if rs != [] {
      ReplaceLength(t, rs[0].find, rs[0].with, 0);
      TimesIsProduct(rs[0].expected, |rs[0].with| - |rs[0].find|);
      EditLength(Replace(t, rs[0].find, rs[0].with), rs[1..]);
    }
  }

  method ApplyReplacements(before: string, replacements: seq<Replacement>) returns (after: Option<string>)
    ensures after == Edit(before, replacements)
    ensures forall t :: after == Some(t) <==> EditsTo(before, replacements, t)
    ensures after.Some? ==> |after.value| == |before| + Growth(replacements) && '\0' !in after.value
  {
    forall t
      ensures Edit(before, replacements) == Some(t) <==> EditsTo(before, replacements, t)
    {
      EditIff(before, replacements, t);
    }
    hide EditsTo;
    if replacements == [] {
      return None;
    }
    var text := before;
    for i := 0 to |replacements|
      invariant ReplaceEach(text, replacements[i..]) == ReplaceEach(before, replacements)
    {
      var r := replacements[i];
      if r.find == [] || r.expected == 0 {
        return None;
      }
      var occurrences := CountMatches(text, r.find);
      if occurrences != r.expected {
        return None;
      }
      text := Replace(text, r.find, r.with);
      assert replacements[i..][1..] == replacements[i + 1..];
    }
    EditLength(before, replacements);
    if '\0' in text {
      return None;
    }
    return Some(text);
  }
}
