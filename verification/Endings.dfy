/** Line endings: the texts that have the same lines are the spellings of these lines. */
module Endings {
  import opened Text

  datatype Ending = Lf | CrLf | Unended

  function Ended(line: string, ending: Ending): string {
    match ending
    case Lf => line + "\n"
    case CrLf => line + "\r\n"
    case Unended => line
  }

  function Spelled(lines: seq<string>, endings: seq<Ending>): string
    requires |lines| == |endings|
  {
    if lines == [] then "" else Ended(lines[0], endings[0]) + Spelled(lines[1..], endings[1..])
  }

  /**
   The endings can be told from the lines: a line that ends in a carriage return is not ended by a line feed
   alone, and only a last line that is not empty may go without an ending.
   */
  predicate Spelling(lines: seq<string>, endings: seq<Ending>) {
    && |lines| == |endings|
    && (forall i | 0 <= i < |lines| :: '\n' !in lines[i])
    && (forall i | 0 <= i < |lines| && endings[i] == Lf && lines[i] != "" :: lines[i][|lines[i]| - 1] != '\r')
    && (forall i | 0 <= i < |lines| && endings[i] == Unended :: i == |lines| - 1 && lines[i] != "")
  }

  lemma NewlineAt(head: string, tail: string)
    requires '\n' !in head
    ensures FirstNewline(head + "\n" + tail) == |head|
  {
    var t := head + "\n" + tail;
    assert forall i | 0 <= i < |head| :: t[i] == head[i];
    assert t[|head|] == '\n';
  }

  lemma NoNewline(t: string)
    requires '\n' !in t
    ensures FirstNewline(t) == |t|
  {
  }

  lemma EndedLine(head: string, tail: string)
    requires '\n' !in head
    ensures Lines(head + "\n" + tail) == [StripCarriageReturn(head)] + Lines(tail)
  {
    NewlineAt(head, tail);
    var t := head + "\n" + tail;
    assert t[..|head|] == head && t[|head| + 1..] == tail;
  }

  lemma SpellingTail(lines: seq<string>, endings: seq<Ending>)
    requires Spelling(lines, endings) && lines != []
    ensures Spelling(lines[1..], endings[1..])
    ensures Spelled(lines, endings) == Ended(lines[0], endings[0]) + Spelled(lines[1..], endings[1..])
    ensures '\n' !in lines[0] && (endings[0] == Lf ==> StripCarriageReturn(lines[0]) == lines[0])
    ensures endings[0] == Unended ==> lines == [lines[0]] && lines[0] != "" && Spelled(lines, endings) == lines[0]
  {
    assert forall i | 0 <= i < |lines| - 1 :: lines[1..][i] == lines[i + 1] && endings[1..][i] == endings[i + 1];
    assert endings[0] == Unended ==> lines[1..] == [] && endings[1..] == [];
  }

  /** Whatever the endings, a spelling has the lines it spells. */
  lemma {:induction false} LinesOfSpelling(lines: seq<string>, endings: seq<Ending>)
    requires |lines| == |endings| && Spelling(lines, endings)
    ensures Lines(Spelled(lines, endings)) == lines
  {
    hide Lines, Spelled, Spelling, FirstNewline;
    if lines == [] {
      assert endings == [];
      NoLines();
    } else {
      var line, tail := lines[0], Spelled(lines[1..], endings[1..]);
      SpellingTail(lines, endings);
      LinesOfSpelling(lines[1..], endings[1..]);
      assert lines == [line] + lines[1..];
      match endings[0]
      case Lf =>
        EndedLine(line, tail);
      case CrLf =>
        assert line + "\r\n" + tail == (line + "\r") + "\n" + tail;
        EndedLine(line + "\r", tail);
      case Unended =>
        LastLine(line);
    }
  }

  lemma NoLines()
    ensures Lines("") == [] && Spelled([], []) == ""
  {
  }

  lemma LastLine(line: string)
    requires '\n' !in line && line != ""
    ensures Lines(line) == [line]
  {
    NoNewline(line);
  }

  /** Every text is a spelling of its lines. */
  lemma {:induction false} SpelledAsLines(t: string) returns (endings: seq<Ending>)
    ensures Spelling(Lines(t), endings) && Spelled(Lines(t), endings) == t
    decreases |t|
  {
    if t == "" {
      endings := [];
    } else {
      var k := FirstNewline(t);
      if k == |t| {
        endings := [Unended];
      } else {
        var head, tail := t[..k], t[k + 1..];
        assert t == head + "\n" + tail;
        var later := SpelledAsLines(tail);
        var ending := if StripCarriageReturn(head) == head then Lf else CrLf;
        endings := [ending] + later;
        Longer(head, ending, Lines(tail), later);
      }
    }
  }

  lemma Longer(head: string, ending: Ending, lines: seq<string>, endings: seq<Ending>)
    requires '\n' !in head && |lines| == |endings| && Spelling(lines, endings)
    requires ending == if StripCarriageReturn(head) == head then Lf else CrLf
    ensures var line := StripCarriageReturn(head);
            && Spelling([line] + lines, [ending] + endings)
            && Spelled([line] + lines, [ending] + endings) == head + "\n" + Spelled(lines, endings)
  {
    hide Spelled, Spelling;
    var line := StripCarriageReturn(head);
    var ls, es := [line] + lines, [ending] + endings;
    assert ls[1..] == lines && es[1..] == endings;
    SpelledFirst(ls, es);
    assert line == head || head == line + "\r";
    SpellingLonger(line, ending, lines, endings);
  }

  lemma SpellingLonger(line: string, ending: Ending, lines: seq<string>, endings: seq<Ending>)
    requires '\n' !in line && Spelling(lines, endings) && ending != Unended
    requires ending == Lf && line != "" ==> line[|line| - 1] != '\r'
    ensures Spelling([line] + lines, [ending] + endings)
  {
    var ls, es := [line] + lines, [ending] + endings;
    assert forall i | 0 < i < |ls| :: ls[i] == lines[i - 1] && es[i] == endings[i - 1];
  }

  lemma SpelledFirst(lines: seq<string>, endings: seq<Ending>)
    requires |lines| == |endings| > 0
    ensures Spelled(lines, endings) == Ended(lines[0], endings[0]) + Spelled(lines[1..], endings[1..])
  {
  }

  /** Nothing but line endings tells the texts apart. */
  ghost predicate SameButEndings(a: string, b: string) {
    exists lines, e, f :: Spells(lines, e, a) && Spells(lines, f, b)
  }

  predicate Spells(lines: seq<string>, endings: seq<Ending>, t: string) {
    Spelling(lines, endings) && Spelled(lines, endings) == t
  }

  lemma SameLinesIff(a: string, b: string)
    ensures Lines(a) == Lines(b) <==> SameButEndings(a, b)
  {
    if Lines(a) == Lines(b) {
      var e := SpelledAsLines(a);
      var f := SpelledAsLines(b);
      assert Spells(Lines(a), e, a) && Spells(Lines(a), f, b);
    }
    if lines, e, f :| Spells(lines, e, a) && Spells(lines, f, b) {
      LinesOfSpelling(lines, e);
      LinesOfSpelling(lines, f);
    }
  }
}
