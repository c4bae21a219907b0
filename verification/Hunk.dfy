/**
 The hunk renderer (crates/code/src/patch.rs:403-444) on line sequences: what it prints for an update
 can be read back and applied, forwards and backwards.
 */
module Hunk {
  import opened Wrappers
  import opened Text
  import opened Endings

  const DIFF_CONTEXT_LINES := 3

  /** A body line: its mark and the line itself. */
  datatype Mark = Context | Removed | Added
  datatype BodyLine = BodyLine(mark: Mark, line: string)

  /** `@@ -oldStart,oldCount +newStart,newCount @@` and the body below it. */
  datatype Hunk = Hunk(oldStart: nat, oldCount: nat, newStart: nat, newCount: nat, body: seq<BodyLine>)

  function Mark1(mark: Mark, lines: seq<string>): (body: seq<BodyLine>)
    ensures |body| == |lines| && forall i | 0 <= i < |lines| :: body[i] == BodyLine(mark, lines[i])
  {
    seq(|lines|, i requires 0 <= i < |lines| => BodyLine(mark, lines[i]))
  }

  // Reading a hunk back, knowing nothing of how it was made.

  /** The lines the body expects (without the added ones) or leaves (without the removed ones). */
  function Side(body: seq<BodyLine>, dropped: Mark): seq<string> {
    if body == [] then []
    else (if body[0].mark == dropped then [] else [body[0].line]) + Side(body[1..], dropped)
  }

  /** Applying at the header position; `None` when the lines there are not the expected ones. */
  function ApplyHunk(h: Hunk, lines: seq<string>): Option<seq<string>> {
    var at, expected := h.oldStart - 1, Side(h.body, Added);
    if 0 <= at && at + h.oldCount <= |lines| && lines[at..at + h.oldCount] == expected
    then Some(lines[..at] + Side(h.body, Removed) + lines[at + h.oldCount..])
    else None
  }

  function ReverseMark(mark: Mark): Mark {
    match mark
    case Context => Context
    case Removed => Added
    case Added => Removed
  }

  function ReverseBody(body: seq<BodyLine>): (r: seq<BodyLine>)
    ensures |r| == |body|
  {
    if body == [] then []
    else [BodyLine(ReverseMark(body[0].mark), body[0].line)] + ReverseBody(body[1..])
  }

  function ReverseHunk(h: Hunk): Hunk {
    Hunk(h.newStart, h.newCount, h.oldStart, h.oldCount, ReverseBody(h.body))
  }

  lemma {:induction false} SideOfReverse(body: seq<BodyLine>)
    ensures Side(ReverseBody(body), Added) == Side(body, Removed)
    ensures Side(ReverseBody(body), Removed) == Side(body, Added)
  {
    if body != [] {
      SideOfReverse(body[1..]);
      assert ReverseBody(body)[1..] == ReverseBody(body[1..]);
    }
  }

  lemma {:induction false} SideAppend(a: seq<BodyLine>, b: seq<BodyLine>, dropped: Mark)
    ensures Side(a + b, dropped) == Side(a, dropped) + Side(b, dropped)
  {
    hide Side;
    if a == [] {
      assert a + b == b;
      SideNone(dropped);
    } else {
      assert a + b == [a[0]] + (a[1..] + b) && a == [a[0]] + a[1..];
      SideStep(a[0], a[1..], dropped);
      SideStep(a[0], a[1..] + b, dropped);
      SideAppend(a[1..], b, dropped);
    }
  }

  lemma SideNone(dropped: Mark)
    ensures Side([], dropped) == []
  {
  }

  lemma SideStep(first: BodyLine, rest: seq<BodyLine>, dropped: Mark)
    ensures Side([first] + rest, dropped) == (if first.mark == dropped then [] else [first.line]) + Side(rest, dropped)
  {
    assert ([first] + rest)[1..] == rest;
  }

  lemma {:induction false} SideOfMarked(mark: Mark, lines: seq<string>, dropped: Mark)
    ensures Side(Mark1(mark, lines), dropped) == if mark == dropped then [] else lines
  {
    if lines != [] {
      assert Mark1(mark, lines)[1..] == Mark1(mark, lines[1..]);
      SideOfMarked(mark, lines[1..], dropped);
      assert [lines[0]] + lines[1..] == lines;
    }
  }

  /** The four stretches of a body: context, lines taken away, lines brought in, context. */
  datatype Parts = Parts(lead: seq<string>, gone: seq<string>, come: seq<string>, trail: seq<string>) {
    function Body(): seq<BodyLine> {
      Mark1(Context, lead) + Mark1(Removed, gone) + Mark1(Added, come) + Mark1(Context, trail)
    }

    function Expected(): seq<string> {
      lead + gone + trail
    }

    function Left(): seq<string> {
      lead + come + trail
    }

    function At(start: nat): Hunk {
      Hunk(start + 1, |Expected()|, start + 1, |Left()|, Body())
    }

    /** The change shown is no longer than it has to be, and its context no longer than promised. */
    predicate Tight() {
      && |lead| <= DIFF_CONTEXT_LINES && |trail| <= DIFF_CONTEXT_LINES
      && (gone != [] && come != [] ==> gone[0] != come[0] && gone[|gone| - 1] != come[|come| - 1])
    }

    /**
     The change starts at the first difference, and there are three lines of context on either side, or all the
     lines there are.
     */
    predicate Placed(before: seq<string>, after: seq<string>, start: nat) {
      var first := start + |lead|;
      && first <= |before| && first <= |after| && before[..first] == after[..first]
      && (first < |before| && first < |after| ==> before[first] != after[first])
      && (|lead| == 3 || start == 0)
      && (|trail| == 3 || start + |Expected()| == |before|)
    }
  }

  lemma SideOfBody(p: Parts, dropped: Mark)
    requires dropped != Context
    ensures Side(p.Body(), dropped)
         == p.lead + (if dropped == Removed then [] else p.gone) + (if dropped == Added then [] else p.come) + p.trail
  {
    hide Side, Mark1;
    var a, b, c, d := Mark1(Context, p.lead), Mark1(Removed, p.gone), Mark1(Added, p.come), Mark1(Context, p.trail);
    SideAppend(a, b, dropped);
    SideAppend(a + b, c, dropped);
    SideAppend(a + b + c, d, dropped);
    SideOfMarked(Context, p.lead, dropped);
    SideOfMarked(Removed, p.gone, dropped);
    SideOfMarked(Added, p.come, dropped);
    SideOfMarked(Context, p.trail, dropped);
  }

  lemma SidesOfBody(p: Parts)
    ensures Side(p.Body(), Added) == p.Expected() && Side(p.Body(), Removed) == p.Left()
  {
    hide Side, Mark1;
    SideOfBody(p, Added);
    SideOfBody(p, Removed);
    assert p.lead + p.gone + [] + p.trail == p.Expected();
    assert p.lead + [] + p.come + p.trail == p.Left();
  }

  predicate Changes(h: Hunk) {
    exists i :: 0 <= i < |h.body| && h.body[i].mark != Context
  }

  /** What a hunk for an update has to be: it leads from either side to the other, and counts its lines. */
  predicate Describes(h: Hunk, before: seq<string>, after: seq<string>) {
    && ApplyHunk(h, before) == Some(after)
    && ApplyHunk(ReverseHunk(h), after) == Some(before)
    && h.oldCount == |Side(h.body, Added)| && h.newCount == |Side(h.body, Removed)|
    && h.oldStart == h.newStart
  }

  lemma Splice(a: seq<string>, middle: seq<string>, z: seq<string>)
    ensures var all := a + middle + z;
            all[..|a|] == a && all[|a|..|a| + |middle|] == middle && all[|a| + |middle|..] == z
  {
  }

  lemma HunkDescribes(a: seq<string>, p: Parts, z: seq<string>)
    ensures Describes(p.At(|a|), a + p.Expected() + z, a + p.Left() + z)
  {
    SidesOfBody(p);
    SideOfReverse(p.Body());
    Splice(a, p.Expected(), z);
    Splice(a, p.Left(), z);
  }

  /** A tight hunk shows a change exactly when there is one. */
  lemma ChangesShown(a: seq<string>, p: Parts, z: seq<string>)
    requires p.Tight()
    ensures Changes(p.At(|a|)) <==> a + p.Expected() + z != a + p.Left() + z
  {
    var body := p.Body();
    if p.gone == [] && p.come == [] {
      assert forall i | 0 <= i < |body| :: body[i].mark == Context;
    } else {
      assert body[|p.lead|].mark != Context;
      var k := |a| + |p.lead|;
      var before, after := a + p.Expected() + z, a + p.Left() + z;
      if |p.gone| == |p.come| {
        assert before[k] == p.gone[0] && after[k] == p.come[0];
      } else {
        assert |before| != |after|;
      }
    }
  }

  // The text of a hunk.

  function Digit(n: nat): char
    requires n < 10
  {
    "0123456789"[n]
  }

  function Decimal(n: nat): (t: string)
    ensures t != []
  {
    if n < 10 then [Digit(n)] else Decimal(n / 10) + [Digit(n % 10)]
  }

  predicate IsDigit(c: char) {
    '0' <= c <= '9'
  }

  function Digits(t: string): (k: nat)
    ensures k <= |t|
  {
    if t == [] || !IsDigit(t[0]) then 0 else 1 + Digits(t[1..])
  }

  function DigitValue(c: char): nat {
    if IsDigit(c) then c as int - '0' as int else 0
  }

  function Value(t: string): nat {
    if t == [] then 0 else 10 * Value(t[..|t| - 1]) + DigitValue(t[|t| - 1])
  }

  lemma {:induction false} DecimalValue(n: nat)
    ensures forall c | c in Decimal(n) :: IsDigit(c)
    ensures Value(Decimal(n)) == n
  {
    if n >= 10 {
      DecimalValue(n / 10);
      assert Decimal(n)[..|Decimal(n)| - 1] == Decimal(n / 10);
    }
  }

  function MarkChar(mark: Mark): char {
    match mark
    case Context => ' '
    case Removed => '-'
    case Added => '+'
  }

  function RenderBody(body: seq<BodyLine>): string {
    if body == [] then [] else [MarkChar(body[0].mark)] + body[0].line + "\n" + RenderBody(body[1..])
  }

  function Header(oldStart: nat, oldCount: nat, newStart: nat, newCount: nat): string {
    "@@ -" + Decimal(oldStart) + "," + Decimal(oldCount) + " +" + Decimal(newStart) + "," + Decimal(newCount) + " @@\n"
  }

  function Render(h: Hunk): string {
    Header(h.oldStart, h.oldCount, h.newStart, h.newCount) + RenderBody(h.body)
  }

  // Reading the text back.

  function AfterLiteral(t: string, literal: string): Option<string> {
    if literal <= t then Some(t[|literal|..]) else None
  }

  function ReadNumber(t: string): Option<(nat, string)> {
    if Digits(t) == 0 then None else Some((Value(t[..Digits(t)]), t[Digits(t)..]))
  }

  /** A literal followed by a number. */
  function ReadField(t: string, literal: string): Option<(nat, string)> {
    match AfterLiteral(t, literal)
    case None => None
    case Some(rest) => ReadNumber(rest)
  }

  function MarkOf(c: char): Option<Mark> {
    if c == ' ' then Some(Context) else if c == '-' then Some(Removed) else if c == '+' then Some(Added) else None
  }

  function ParseBody(t: string): Option<seq<BodyLine>>
    decreases |t|
  {
    if t == [] then Some([])
    else
      var k := FirstNewline(t);
      if k == 0 || k == |t| || MarkOf(t[0]).None? then None
      else
        match ParseBody(t[k + 1..])
        case None => None
        case Some(rest) => Some([BodyLine(MarkOf(t[0]).value, t[1..k])] + rest)
  }

  function Parse(t: string): Option<Hunk> {
    match ReadField(t, "@@ -")
    case None => None
    case Some((a, t1)) =>
      match ReadField(t1, ",")
      case None => None
      case Some((b, t2)) =>
        match ReadField(t2, " +")
        case None => None
        case Some((c, t3)) =>
          match ReadField(t3, ",")
          case None => None
          case Some((d, t4)) =>
            match AfterLiteral(t4, " @@\n")
            case None => None
            case Some(t5) =>
              match ParseBody(t5)
              case None => None
              case Some(body) => Some(Hunk(a, b, c, d, body))
  }

  predicate OneLine(line: string) {
    '\n' !in line
  }

  predicate OneLineEach(body: seq<BodyLine>) {
    forall i | 0 <= i < |body| :: OneLine(body[i].line)
  }

  lemma NewlineAfter(head: string, rest: string)
    requires OneLine(head)
    ensures FirstNewline(head + "\n" + rest) == |head|
  {
    var t := head + "\n" + rest;
    assert forall i | 0 <= i < |head| :: t[i] == head[i];
    assert t[|head|] == '\n';
  }

  lemma LineReadsBack(line: BodyLine, rest: string)
    requires OneLine(line.line)
    ensures var t := [MarkChar(line.mark)] + line.line + "\n" + rest;
            var k := FirstNewline(t);
            && 0 < k < |t| && t[k + 1..] == rest
            && MarkOf(t[0]) == Some(line.mark) && t[1..k] == line.line
  {
    var head := [MarkChar(line.mark)] + line.line;
    NewlineAfter(head, rest);
    assert (head + "\n" + rest)[..|head|] == head;
  }

  lemma {:induction false} BodyReadsBack(body: seq<BodyLine>)
    requires OneLineEach(body)
    ensures ParseBody(RenderBody(body)) == Some(body)
  {
    if body != [] {
      hide OneLine, MarkOf, MarkChar;
      assert OneLine(body[0].line);
      LineReadsBack(body[0], RenderBody(body[1..]));
      BodyReadsBack(body[1..]);
      assert [body[0]] + body[1..] == body;
    }
  }

  lemma {:induction false} DigitsStop(digits: string, rest: string)
    requires forall c | c in digits :: IsDigit(c)
    requires rest == [] || !IsDigit(rest[0])
    ensures Digits(digits + rest) == |digits|
  {
    if digits == [] {
      assert digits + rest == rest;
    } else {
      assert (digits + rest)[1..] == digits[1..] + rest;
      DigitsStop(digits[1..], rest);
    }
  }

  lemma FieldReadsBack(literal: string, n: nat, rest: string)
    requires rest == [] || !IsDigit(rest[0])
    ensures ReadField(literal + Decimal(n) + rest, literal) == Some((n, rest))
  {
    var t := literal + Decimal(n) + rest;
    assert t[|literal|..] == Decimal(n) + rest;
    assert literal <= t;
    DecimalValue(n);
    DigitsStop(Decimal(n), rest);
    assert (Decimal(n) + rest)[..|Decimal(n)|] == Decimal(n) && (Decimal(n) + rest)[|Decimal(n)|..] == rest;
  }

  lemma HunkReadsBack(h: Hunk)
    requires OneLineEach(h.body)
    ensures Parse(Render(h)) == Some(h)
  {
    hide Decimal, ReadField, ParseBody, RenderBody, OneLineEach;
    BodyReadsBack(h.body);
    var t5 := RenderBody(h.body);
    var t4 := " @@\n" + t5;
    var t3 := "," + Decimal(h.newCount) + t4;
    var t2 := " +" + Decimal(h.newStart) + t3;
    var t1 := "," + Decimal(h.oldCount) + t2;
    assert Render(h) == "@@ -" + Decimal(h.oldStart) + t1;
    FieldReadsBack("@@ -", h.oldStart, t1);
    FieldReadsBack(",", h.oldCount, t2);
    FieldReadsBack(" +", h.newStart, t3);
    FieldReadsBack(",", h.newCount, t4);
    assert t4[|" @@\n"|..] == t5;
  }

  // The renderer.

  lemma {:induction false} RenderAppend(a: seq<BodyLine>, b: seq<BodyLine>)
    ensures RenderBody(a + b) == RenderBody(a) + RenderBody(b)
  {
    if a == [] {
      assert a + b == b;
    } else {
      assert (a + b)[0] == a[0] && (a + b)[1..] == a[1..] + b;
      RenderAppend(a[1..], b);
    }
  }

  /** One of the four loops that push marked lines. */
  method PushLines(rendered: string, mark: Mark, lines: seq<string>) returns (r: string)
    ensures r == rendered + RenderBody(Mark1(mark, lines))
  {
    r := rendered;
    for i := 0 to |lines|
      invariant r == rendered + RenderBody(Mark1(mark, lines[..i]))
    {
      var marked := Mark1(mark, lines[..i]);
      var line := BodyLine(mark, lines[i]);
      RenderAppend(marked, [line]);
      assert Mark1(mark, lines[..i + 1]) == marked + [line];
      assert RenderBody([line]) == [MarkChar(mark)] + lines[i] + "\n";
      r := r + ([MarkChar(mark)] + lines[i] + "\n");
    }
    assert lines[..|lines|] == lines;
  }

  /** How many leading and trailing lines two texts share, the trailing ones not among the leading ones. */
  method CommonEnds(before: seq<string>, after: seq<string>) returns (prefix: nat, suffix: nat)
    ensures prefix + suffix <= |before| && prefix + suffix <= |after|
    ensures before[..prefix] == after[..prefix]
    ensures before[|before| - suffix..] == after[|after| - suffix..]
    ensures prefix < |before| && prefix < |after| ==> before[prefix] != after[prefix]
    ensures prefix + suffix < |before| && prefix + suffix < |after| ==>
              before[|before| - 1 - suffix] != after[|after| - 1 - suffix]
  {
    var common := if |before| < |after| then |before| else |after|;
    prefix := 0;
    while prefix < common && before[prefix] == after[prefix]
      invariant prefix <= common && before[..prefix] == after[..prefix]
    {
      assert before[..prefix + 1] == before[..prefix] + [before[prefix]];
      prefix := prefix + 1;
    }
    suffix := 0;
    while suffix < common - prefix && before[|before| - 1 - suffix] == after[|after| - 1 - suffix]
      invariant suffix <= common - prefix && before[|before| - suffix..] == after[|after| - suffix..]
    {
      var b, a := |before| - 1 - suffix, |after| - 1 - suffix;
      assert before[b..] == [before[b]] + before[b + 1..] && after[a..] == [after[a]] + after[a + 1..];
      suffix := suffix + 1;
    }
  }

  lemma RenderParts(p: Parts, start: nat)
    ensures Render(p.At(start))
         == Header(start + 1, |p.Expected()|, start + 1, |p.Left()|)
          + RenderBody(Mark1(Context, p.lead)) + RenderBody(Mark1(Removed, p.gone))
          + RenderBody(Mark1(Added, p.come)) + RenderBody(Mark1(Context, p.trail))
  {
    hide RenderBody, Mark1, Header;
    var a, b, c, d := Mark1(Context, p.lead), Mark1(Removed, p.gone), Mark1(Added, p.come), Mark1(Context, p.trail);
    RenderAppend(a, b);
    RenderAppend(a + b, c);
    RenderAppend(a + b + c, d);
  }

  lemma Regroup(a: seq<string>, lead: seq<string>, middle: seq<string>, trail: seq<string>, z: seq<string>)
    ensures (a + lead) + middle + (trail + z) == a + (lead + middle + trail) + z
  {
  }

  lemma SliceInTwo(s: seq<string>, i: nat, j: nat)
    requires i <= j <= |s|
    ensures s[..j] == s[..i] + s[i..j] && s[i..] == s[i..j] + s[j..] && s == s[..i] + s[i..j] + s[j..]
  {
  }

  /** Both texts are the same lines around two different middles. */
  lemma CutUp(before: seq<string>, after: seq<string>, prefix: nat, suffix: nat, start: nat, end: nat)
    requires prefix + suffix <= |before| && prefix + suffix <= |after|
    requires start <= prefix && |before| - suffix <= end <= |before|
    requires before[..prefix] == after[..prefix]
    requires before[|before| - suffix..] == after[|after| - suffix..]
    ensures var p := Between(before, after, prefix, suffix, start, end);
            && before == before[..start] + p.Expected() + before[end..]
            && after == before[..start] + p.Left() + before[end..]
  {
    var p := Between(before, after, prefix, suffix, start, end);
    SliceInTwo(before, start, prefix);
    SliceInTwo(before, |before| - suffix, end);
    SliceInTwo(before, prefix, |before| - suffix);
    SliceInTwo(after, prefix, |after| - suffix);
    Regroup(before[..start], p.lead, p.gone, p.trail, before[end..]);
    Regroup(before[..start], p.lead, p.come, p.trail, before[end..]);
  }

  function Between(before: seq<string>, after: seq<string>, prefix: nat, suffix: nat, start: nat, end: nat): Parts
    requires prefix + suffix <= |before| && prefix + suffix <= |after|
    requires start <= prefix && |before| - suffix <= end <= |before|
  {
    Parts(before[start..prefix], before[prefix..|before| - suffix],
          after[prefix..|after| - suffix], before[|before| - suffix..end])
  }

  lemma {:induction false} LinesAreOneLine(t: string)
    ensures forall line | line in Lines(t) :: OneLine(line)
    decreases |t|
  {
    if t != [] {
      var k := FirstNewline(t);
      if k < |t| {
        LinesAreOneLine(t[k + 1..]);
      }
    }
  }

  lemma BetweenIsTight(before: seq<string>, after: seq<string>, prefix: nat, suffix: nat, start: nat, end: nat)
    requires prefix + suffix <= |before| && prefix + suffix <= |after|
    requires start <= prefix <= start + DIFF_CONTEXT_LINES
    requires |before| - suffix <= end <= |before| && end <= |before| - suffix + DIFF_CONTEXT_LINES
    requires prefix + suffix < |before| && prefix + suffix < |after| ==>
               before[prefix] != after[prefix] && before[|before| - 1 - suffix] != after[|after| - 1 - suffix]
    ensures var p := Between(before, after, prefix, suffix, start, end);
            && p.Tight()
            && |p.Expected()| == end - start
            && |p.Left()| == (end - (|before| - suffix)) + (|after| - suffix - start)
  {
  }

  lemma BetweenIsPlaced(before: seq<string>, after: seq<string>, prefix: nat, suffix: nat, start: nat, end: nat)
    requires prefix + suffix <= |before| && prefix + suffix <= |after| && before[..prefix] == after[..prefix]
    requires start == (if prefix < 3 then 0 else prefix - 3)
    requires end == (if |before| - suffix + 3 < |before| then |before| - suffix + 3 else |before|)
    requires prefix < |before| && prefix < |after| ==> before[prefix] != after[prefix]
    ensures Between(before, after, prefix, suffix, start, end).Placed(before, after, start)
  {
  }

  lemma BetweenOneLine(before: seq<string>, after: seq<string>, prefix: nat, suffix: nat, start: nat, end: nat)
    requires prefix + suffix <= |before| && prefix + suffix <= |after|
    requires start <= prefix && |before| - suffix <= end <= |before|
    requires forall line | line in before :: OneLine(line)
    requires forall line | line in after :: OneLine(line)
    ensures OneLineEach(Between(before, after, prefix, suffix, start, end).Body())
  {
  }

  lemma RenderedHunk(before: seq<string>, after: seq<string>, p: Parts, start: nat, end: nat, rendered: string)
    requires start <= end <= |before| && p.Tight() && rendered == Render(p.At(start))
    requires OneLineEach(p.Body())
    requires before == before[..start] + p.Expected() + before[end..]
    requires after == before[..start] + p.Left() + before[end..]
    ensures Parse(rendered) == Some(p.At(start))
    ensures Describes(p.At(start), before, after)
    ensures Changes(p.At(start)) <==> before != after
  {
    hide Render, Parse, Describes, Changes, Parts.Tight, OneLine;
    HunkReadsBack(p.At(start));
    HunkDescribes(before[..start], p, before[end..]);
    ChangesShown(before[..start], p, before[end..]);
  }

  lemma RenderedBetween(before: seq<string>, after: seq<string>, prefix: nat, suffix: nat, start: nat, end: nat)
    requires prefix + suffix <= |before| && prefix + suffix <= |after|
    requires start <= prefix <= start + DIFF_CONTEXT_LINES
    requires |before| - suffix <= end <= |before| && end <= |before| - suffix + DIFF_CONTEXT_LINES
    requires before[..prefix] == after[..prefix]
    requires before[|before| - suffix..] == after[|after| - suffix..]
    requires prefix + suffix < |before| && prefix + suffix < |after| ==>
               before[prefix] != after[prefix] && before[|before| - 1 - suffix] != after[|after| - 1 - suffix]
    requires forall line | line in before :: OneLine(line)
    requires forall line | line in after :: OneLine(line)
    ensures var p := Between(before, after, prefix, suffix, start, end);
            var beforeEnd, afterEnd := |before| - suffix, |after| - suffix;
            var rendered := Header(start + 1, end - start, start + 1, (end - beforeEnd) + (afterEnd - start))
                          + RenderBody(Mark1(Context, before[start..prefix]))
                          + RenderBody(Mark1(Removed, before[prefix..beforeEnd]))
                          + RenderBody(Mark1(Added, after[prefix..afterEnd]))
                          + RenderBody(Mark1(Context, before[beforeEnd..end]));
            && p.Tight() && Parse(rendered) == Some(p.At(start)) && Describes(p.At(start), before, after)
            && (Changes(p.At(start)) <==> before != after)
  {
    hide Parse, Describes, Changes, RenderBody, Mark1, Header, Parts.Tight, OneLine, OneLineEach, Render, Parts.Body;
    var p := Between(before, after, prefix, suffix, start, end);
    RenderParts(p, start);
    BetweenIsTight(before, after, prefix, suffix, start, end);
    BetweenOneLine(before, after, prefix, suffix, start, end);
    CutUp(before, after, prefix, suffix, start, end);
    RenderedHunk(before, after, p, start, end, Render(p.At(start)));
  }

  /**
   `render_changed_lines`: the text reads back as a hunk that turns the old lines into the new ones at the
   header's position, and back again when reversed, whose counts are those of its body, and that shows a
   change exactly when the lines differ: a change of line endings alone is shown as none.
   */
  method RenderChangedLines(before: string, after: string) returns (rendered: string)
    ensures Parse(rendered).Some?
    ensures Describes(Parse(rendered).value, Lines(before), Lines(after))
    ensures Changes(Parse(rendered).value) <==> Lines(before) != Lines(after)
    ensures Changes(Parse(rendered).value) <==> !SameButEndings(before, after)
    ensures exists p: Parts, start: nat ::
              p.Tight() && p.Placed(Lines(before), Lines(after), start) && Parse(rendered) == Some(p.At(start))
  {
    hide SameButEndings, Lines, Parse, Describes, Changes, RenderBody, Mark1, Header, Parts.Tight, Parts.Placed,
         OneLine, OneLineEach;
    var beforeLines, afterLines := Lines(before), Lines(after);
    var prefix, suffix := CommonEnds(beforeLines, afterLines);
    var beforeEnd, afterEnd := |beforeLines| - suffix, |afterLines| - suffix;
    var start := if prefix < DIFF_CONTEXT_LINES then 0 else prefix - DIFF_CONTEXT_LINES;
    var end := if beforeEnd + DIFF_CONTEXT_LINES < |beforeLines| then beforeEnd + DIFF_CONTEXT_LINES else |beforeLines|;
    rendered := Header(start + 1, end - start, start + 1, (end - beforeEnd) + (afterEnd - start));
    rendered := PushLines(rendered, Context, beforeLines[start..prefix]);
    rendered := PushLines(rendered, Removed, beforeLines[prefix..beforeEnd]);
    rendered := PushLines(rendered, Added, afterLines[prefix..afterEnd]);
    rendered := PushLines(rendered, Context, beforeLines[beforeEnd..end]);
    LinesAreOneLine(before);
    LinesAreOneLine(after);
    BetweenIsPlaced(beforeLines, afterLines, prefix, suffix, start, end);
    RenderedBetween(beforeLines, afterLines, prefix, suffix, start, end);
    SameLinesIff(before, after);
  }
}
