/**
 The conflict resolver's loop (crates/code/src/faculty.rs:104-233).  The model's turns are an arbitrary
 sequence; whatever they are, a result the loop returns is one the coordinator accepts.
 */
module Resolver {
  import opened Wrappers
  import opened GitModel
  import opened Text
  import opened ReviewSpec
  import Tidiness

  const CONFLICT_TOOL_CALL_LIMIT := 12

  /** Stray: a turn that failed, ended without a tool call, or made several. */
  datatype Turn =
    | Stray
    | ReadConflict(path: Path)
    | WriteConflict(path: Path, delete: bool, replacements: seq<Replacement>)
    | FinishConflict

  datatype Session = Session(files: map<Path, Option<Content>>, written: set<Path>)

  /** Exact replacements; here an expected count of zero is allowed. */
  function EditEach(t: string, rs: seq<Replacement>): Option<string>
    decreases |rs|
  {
    if rs == [] then Some(t)
    else if rs[0].find == [] || CountMatches(t, rs[0].find) != rs[0].expected then None
    else EditEach(Replace(t, rs[0].find, rs[0].with), rs[1..])
  }

  predicate MarkersRemain(content: Option<Content>) {
    content.Some? && HasMarkers(content.value)
  }

  /** What a write makes of a path's content; the outer `None` ends the conversation. */
  function Written(content: Option<Content>, delete: bool, replacements: seq<Replacement>): Option<Option<Content>> {
    if delete then (if replacements == [] then Some(None) else None)
    else if content.None? || replacements == [] then None
    else
      match EditEach(content.value, replacements)
      case None => None
      case Some(t) => Some(Some(t))
  }

  /** The session after one turn that is not the last. */
  function Next(s: Session, turn: Turn): Option<Session> {
    match turn
    case ReadConflict(path) => if path in s.files then Some(s) else None
    case WriteConflict(path, delete, replacements) =>
      if path !in s.files then None
      else
        (match Written(s.files[path], delete, replacements)
         case None => None
         case Some(content) =>
           Some(Session(s.files[path := content], if MarkersRemain(content) then s.written else s.written + {path})))
    case _ => None
  }

  function After(s: Session, turns: nat -> Turn, n: nat): Option<Session> {
    if n == 0 then Some(s)
    else
      match After(s, turns, n - 1)
      case None => None
      case Some(s1) => Next(s1, turns(n - 1))
  }

  /** The finish check. */
  predicate Complete(s: Session) {
    && |s.written| == |s.files| && s.files.Keys <= s.written
    && forall path | path in s.files :: !MarkersRemain(s.files[path])
  }

  function Start(conflict: seq<ConflictFile>): Session {
    Session(FilesOf(conflict), {})
  }

  function FilesOf(conflict: seq<ConflictFile>): (files: map<Path, Option<Content>>)
    ensures files.Keys == PathsOf(conflict)
  {
    if conflict == [] then map[]
    else
      var n := |conflict| - 1;
      var f := conflict[n];
      assert PathsOf(conflict) == PathsOf(conflict[..n]) + {f.path};
      FilesOf(conflict[..n])[f.path := f.content]
  }

  /** Turn n is a finish that finds everything written and free of markers. */
  predicate FinishesAt(s: Session, turns: nat -> Turn, n: nat) {
    && turns(n) == FinishConflict && After(s, turns, n).Some? && Complete(After(s, turns, n).value)
  }

  /** The list has each file of the map once. */
  ghost predicate Lists(files: seq<ConflictFile>, contents: map<Path, Option<Content>>) {
    && |files| == |contents| && PathsOf(files) == contents.Keys
    && forall f | f in files :: f.path in contents && f.content == contents[f.path]
  }

  lemma {:induction false} NothingAfterEnd(s: Session, turns: nat -> Turn, m: nat, n: nat)
    requires m <= n && After(s, turns, m).None?
    ensures After(s, turns, n).None?
  {
    if m < n {
      NothingAfterEnd(s, turns, m, n - 1);
    }
  }

  /** The conversation ends at turn m without a result. */
  predicate FailsAt(s: Session, turns: nat -> Turn, m: nat) {
    && After(s, turns, m).Some?
    && (if turns(m) == FinishConflict then !Complete(After(s, turns, m).value)
        else Next(After(s, turns, m).value, turns(m)).None?)
  }

  lemma FailedNeverFinishes(s: Session, turns: nat -> Turn, m: nat, n: nat)
    requires FailsAt(s, turns, m) && forall i | 0 <= i < m :: turns(i) != FinishConflict
    ensures !FinishesAt(s, turns, n)
  {
    if n > m {
      assert After(s, turns, m + 1).None?;
      NothingAfterEnd(s, turns, m + 1, n);
    }
  }

  // The conversation told path by path.

  /** The text with all matches of each old text replaced, one replacement after the other. */
  function Rewritten(t: string, rs: seq<Replacement>): string
    decreases |rs|
  {
    if rs == [] then t
    else Rewritten(if rs[0].find == [] then t else Replace(t, rs[0].find, rs[0].with), rs[1..])
  }

  /** What the first n turns make of one path: its write turns in order, and nothing else. */
  function ContentAfter(turns: nat -> Turn, path: Path, captured: Option<Content>, n: nat): Option<Content> {
    if n == 0 then captured
    else
      var content := ContentAfter(turns, path, captured, n - 1);
      match turns(n - 1)
      case WriteConflict(p, delete, replacements) =>
        if p != path then content
        else if delete then None
        else if content.None? then None
        else Some(Rewritten(content.value, replacements))
      case _ => content
  }

  /** Each replacement finds, when its turn has come, as many matches as announced. */
  predicate Found(t: string, rs: seq<Replacement>) {
    forall i | 0 <= i < |rs| ::
      rs[i].find != [] && CountMatches(Rewritten(t, rs[..i]), rs[i].find) == rs[i].expected
  }

  /** The file captured for a path; of several the last. */
  predicate Captured(conflict: seq<ConflictFile>, path: Path, content: Option<Content>) {
    exists i :: 0 <= i < |conflict| && conflict[i] == ConflictFile(path, content)
                && forall j | i < j < |conflict| :: conflict[j].path != path
  }

  /** Turn i may be taken: it reads a listed path, deletes one, or rewrites one that is there. */
  ghost predicate Fair(conflict: seq<ConflictFile>, turns: nat -> Turn, i: nat) {
    match turns(i)
    case ReadConflict(path) => exists captured :: Captured(conflict, path, captured)
    case WriteConflict(path, delete, replacements) =>
      exists captured :: Captured(conflict, path, captured) &&
        var content := ContentAfter(turns, path, captured, i);
        if delete then replacements == []
        else content.Some? && replacements != [] && Found(content.value, replacements)
    case _ => false
  }

  predicate Clean(content: Option<Content>) {
    content.Some? ==>
      forall line | line in Lines(content.value) :: !("<<<<<<< " <= line) && line != "=======" && !(">>>>>>> " <= line)
  }

  /** Some write among the first n turns leaves the path without a marker. */
  ghost predicate Cleared(turns: nat -> Turn, path: Path, captured: Option<Content>, n: nat) {
    exists i: nat :: i < n && turns(i).WriteConflict? && turns(i).path == path
      && Clean(ContentAfter(turns, path, captured, i + 1))
  }

  /** Turn n is a finish after fair turns only, and every path has been cleared and is clean. */
  ghost predicate Resolves(conflict: seq<ConflictFile>, turns: nat -> Turn, n: nat) {
    && turns(n) == FinishConflict && (forall i | 0 <= i < n :: Fair(conflict, turns, i))
    && forall path, captured | Captured(conflict, path, captured) ::
         Cleared(turns, path, captured, n) && Clean(ContentAfter(turns, path, captured, n))
  }

  lemma {:induction false} RewrittenSnoc(t: string, rs: seq<Replacement>, r: Replacement)
    ensures Rewritten(t, rs + [r])
         == if r.find == [] then Rewritten(t, rs) else Replace(Rewritten(t, rs), r.find, r.with)
    decreases |rs|
  {
    if rs == [] {
      assert rs + [r] == [r] && [r][1..] == [];
    } else {
      assert (rs + [r])[0] == rs[0] && (rs + [r])[1..] == rs[1..] + [r];
      RewrittenSnoc(if rs[0].find == [] then t else Replace(t, rs[0].find, rs[0].with), rs[1..], r);
    }
  }

  lemma {:induction false} EditEachIff(t: string, rs: seq<Replacement>)
    ensures EditEach(t, rs).Some? <==> Found(t, rs)
    ensures Found(t, rs) ==> EditEach(t, rs) == Some(Rewritten(t, rs))
    decreases |rs|
  {
    hide CountMatches, Replace;
    if rs != [] && rs[0].find != [] {
      EditEachIff(Replace(t, rs[0].find, rs[0].with), rs[1..]);
      FoundFirst(t, rs);
    }
  }

  lemma FoundFirst(t: string, rs: seq<Replacement>)
    requires rs != [] && rs[0].find != []
    ensures Found(t, rs) <==>
              CountMatches(t, rs[0].find) == rs[0].expected && Found(Replace(t, rs[0].find, rs[0].with), rs[1..])
  {
    hide CountMatches, Replace;
    var u := Replace(t, rs[0].find, rs[0].with);
    forall i | 0 < i <= |rs|
      ensures Rewritten(t, rs[..i]) == Rewritten(u, rs[1..][..i - 1])
    {
      assert rs[..i][0] == rs[0] && rs[..i][1..] == rs[1..][..i - 1];
    }
    assert Rewritten(t, rs[..0]) == t;
    if Found(t, rs) {
      forall i | 0 <= i < |rs| - 1
        ensures CountMatches(Rewritten(u, rs[1..][..i]), rs[1..][i].find) == rs[1..][i].expected
                && rs[1..][i].find != []
      {
        assert rs[1..][i] == rs[i + 1];
      }
    }
    if CountMatches(t, rs[0].find) == rs[0].expected && Found(u, rs[1..]) {
      forall i | 0 <= i < |rs|
        ensures rs[i].find != [] && CountMatches(Rewritten(t, rs[..i]), rs[i].find) == rs[i].expected
      {
        assert i > 0 ==> rs[1..][i - 1] == rs[i];
      }
    }
  }

  lemma CapturedSnoc(front: seq<ConflictFile>, last: ConflictFile, path: Path, content: Option<Content>)
    ensures Captured(front + [last], path, content) <==>
              last == ConflictFile(path, content) || (last.path != path && Captured(front, path, content))
  {
    var all, n := front + [last], |front|;
    assert all[n] == last && forall i | 0 <= i < n :: all[i] == front[i];
    if last == ConflictFile(path, content) {
      assert all[n] == ConflictFile(path, content);
    } else if last.path != path && Captured(front, path, content) {
      var i :| 0 <= i < n && front[i] == ConflictFile(path, content) && forall j | i < j < n :: front[j].path != path;
      assert all[i] == ConflictFile(path, content);
    }
  }

  lemma {:induction false} CapturedIff(conflict: seq<ConflictFile>, path: Path, content: Option<Content>)
    ensures Captured(conflict, path, content) <==> path in FilesOf(conflict) && FilesOf(conflict)[path] == content
    decreases |conflict|
  {
    if conflict != [] {
      hide Captured;
      var n := |conflict| - 1;
      CapturedIff(conflict[..n], path, content);
      CapturedSnoc(conflict[..n], conflict[n], path, content);
      assert conflict == conflict[..n] + [conflict[n]];
    }
  }

  lemma CleanIff(content: Option<Content>)
    ensures Clean(content) <==> !MarkersRemain(content)
  {
    hide Lines;
  }

  /** The session is what the turns make of each path by itself. */
  ghost predicate ToldBy(s: Session, conflict: seq<ConflictFile>, turns: nat -> Turn, n: nat) {
    && s.files.Keys == FilesOf(conflict).Keys && s.written <= s.files.Keys
    && forall path | path in FilesOf(conflict) ::
         && s.files[path] == ContentAfter(turns, path, FilesOf(conflict)[path], n)
         && (path in s.written <==> Cleared(turns, path, FilesOf(conflict)[path], n))
  }

  /** A turn may be taken exactly if it is fair. */
  lemma FairTurn(s: Session, conflict: seq<ConflictFile>, turns: nat -> Turn, n: nat)
    requires ToldBy(s, conflict, turns, n)
    ensures Next(s, turns(n)).Some? <==> Fair(conflict, turns, n)
  {
    hide FilesOf, Captured, EditEach, Found, HasMarkers, Cleared;
    forall path, content
      ensures Captured(conflict, path, content) <==> path in FilesOf(conflict) && FilesOf(conflict)[path] == content
    {
      CapturedIff(conflict, path, content);
    }
    match turns(n)
    case WriteConflict(path, delete, replacements) =>
      if path in s.files && s.files[path].Some? {
        EditEachIff(s.files[path].value, replacements);
      }
      assert path in FilesOf(conflict) ==> Captured(conflict, path, FilesOf(conflict)[path]);
    case ReadConflict(path) =>
      assert path in FilesOf(conflict) ==> Captured(conflict, path, FilesOf(conflict)[path]);
    case _ =>
  }

  lemma ClearedStep(turns: nat -> Turn, path: Path, captured: Option<Content>, n: nat)
    ensures Cleared(turns, path, captured, n + 1) <==>
              || Cleared(turns, path, captured, n)
              || (turns(n).WriteConflict? && turns(n).path == path && Clean(ContentAfter(turns, path, captured, n + 1)))
  {
    hide Clean, ContentAfter;
  }

  lemma ToldStep(s: Session, conflict: seq<ConflictFile>, turns: nat -> Turn, n: nat)
    requires ToldBy(s, conflict, turns, n) && Next(s, turns(n)).Some?
    ensures ToldBy(Next(s, turns(n)).value, conflict, turns, n + 1)
  {
    hide FilesOf, EditEach, HasMarkers, Cleared, Clean, Found, Rewritten;
    var r := Next(s, turns(n)).value;
    forall path | path in FilesOf(conflict)
      ensures r.files[path] == ContentAfter(turns, path, FilesOf(conflict)[path], n + 1)
      ensures path in r.written <==> Cleared(turns, path, FilesOf(conflict)[path], n + 1)
    {
      ClearedStep(turns, path, FilesOf(conflict)[path], n);
      CleanIff(r.files[path]);
      if turns(n).WriteConflict? && s.files[turns(n).path].Some? {
        EditEachIff(s.files[turns(n).path].value, turns(n).replacements);
      }
    }
  }

  lemma {:induction false} SessionTold(conflict: seq<ConflictFile>, turns: nat -> Turn, n: nat)
    ensures After(Start(conflict), turns, n).Some? <==> forall i | 0 <= i < n :: Fair(conflict, turns, i)
    ensures After(Start(conflict), turns, n).Some? ==> ToldBy(After(Start(conflict), turns, n).value, conflict, turns, n)
  {
    hide FilesOf, Fair, Next, ToldBy;
    if n == 0 {
      NothingTold(conflict, turns);
    } else {
      SessionTold(conflict, turns, n - 1);
      if After(Start(conflict), turns, n - 1).Some? {
        var s := After(Start(conflict), turns, n - 1).value;
        FairTurn(s, conflict, turns, n - 1);
        if Next(s, turns(n - 1)).Some? {
          ToldStep(s, conflict, turns, n - 1);
        }
      }
    }
  }

  lemma NothingTold(conflict: seq<ConflictFile>, turns: nat -> Turn)
    ensures ToldBy(Start(conflict), conflict, turns, 0)
  {
  }

  /** The finish check in these terms. */
  lemma FinishesIff(conflict: seq<ConflictFile>, turns: nat -> Turn, n: nat)
    ensures FinishesAt(Start(conflict), turns, n) <==> Resolves(conflict, turns, n)
  {
    hide FilesOf, Fair, Captured, HasMarkers, Cleared, ContentAfter, Clean;
    SessionTold(conflict, turns, n);
    forall path, content
      ensures Captured(conflict, path, content) <==> path in FilesOf(conflict) && FilesOf(conflict)[path] == content
    {
      CapturedIff(conflict, path, content);
    }
    if After(Start(conflict), turns, n).Some? {
      var s := After(Start(conflict), turns, n).value;
      forall path | path in s.files
        ensures Clean(s.files[path]) <==> !MarkersRemain(s.files[path])
      {
        CleanIff(s.files[path]);
      }
      assert |s.files.Keys| == |s.files|;
      assert s.files.Keys <= s.written ==> s.files.Keys == s.written;
      forall path | path in FilesOf(conflict)
        ensures Captured(conflict, path, FilesOf(conflict)[path])
      {
      }
    }
  }

  predicate Named(files: seq<ConflictFile>, path: Path) {
    exists i :: 0 <= i < |files| && files[i].path == path
  }

  lemma NamedIff(files: seq<ConflictFile>, path: Path)
    ensures Named(files, path) <==> path in PathsOf(files)
  {
    if i :| 0 <= i < |files| && files[i].path == path {
      assert files[i] in files;
    }
  }

  /** What a result holds, in these terms. */
  lemma ResultTold(conflict: seq<ConflictFile>, turns: nat -> Turn, n: nat, files: seq<ConflictFile>)
    requires FinishesAt(Start(conflict), turns, n) && Lists(files, After(Start(conflict), turns, n).value.files)
    ensures forall i, j | 0 <= i < j < |files| :: files[i].path != files[j].path
    ensures forall path :: Named(files, path) <==> Named(conflict, path)
    ensures forall f, captured | f in files && Captured(conflict, f.path, captured) ::
              f.content == ContentAfter(turns, f.path, captured, n)
  {
    hide FilesOf, Captured, Complete, ContentAfter, Cleared, After;
    SessionTold(conflict, turns, n);
    ListsOnce(files, After(Start(conflict), turns, n).value.files);
    forall path, content
      ensures Captured(conflict, path, content) <==> path in FilesOf(conflict) && FilesOf(conflict)[path] == content
    {
      CapturedIff(conflict, path, content);
    }
    forall path
      ensures Named(files, path) <==> Named(conflict, path)
    {
      NamedIff(files, path);
      NamedIff(conflict, path);
    }
  }

  lemma ListsOnce(files: seq<ConflictFile>, contents: map<Path, Option<Content>>)
    requires Lists(files, contents)
    ensures forall i, j | 0 <= i < j < |files| :: files[i].path != files[j].path
  {
    Tidiness.PathsCounted(files);
    assert |contents.Keys| == |contents|;
  }

  /** The map's entries, in whatever order it keeps them. */
  method IntoFiles(contents: map<Path, Option<Content>>) returns (files: seq<ConflictFile>)
    ensures Lists(files, contents)
  {
    files := [];
    var rest := contents.Keys;
    while rest != {}
      invariant rest <= contents.Keys && PathsOf(files) == contents.Keys - rest
      invariant |files| + |rest| == |contents|
      invariant forall f | f in files :: f.path in contents && f.content == contents[f.path]
    {
      var path :| path in rest;
      var more := files + [ConflictFile(path, contents[path])];
      PathsSnoc(files, ConflictFile(path, contents[path]));
      files, rest := more, rest - {path};
    }
  }

  lemma PathsSnoc(files: seq<ConflictFile>, f: ConflictFile)
    ensures PathsOf(files + [f]) == PathsOf(files) + {f.path}
  {
  }

  method WriteReplacements(t: string, replacements: seq<Replacement>) returns (after: Option<string>)
    ensures after == EditEach(t, replacements)
  {
    var content := t;
    for i := 0 to |replacements|
      invariant EditEach(t, replacements) == EditEach(content, replacements[i..])
    {
      assert replacements[i..][1..] == replacements[i + 1..];
      var r := replacements[i];
      if r.find == [] {
        return None;
      }
      var occurrences := CountMatches(content, r.find);
      if occurrences != r.expected {
        return None;
      }
      content := Replace(content, r.find, r.with);
    }
    return Some(content);
  }

  /**
   `resolve`: it returns a list exactly when some turn within the budget is a finish that passes the check,
   the list is then the edited files, each once, and the loop makes at most twelve calls in any case.
   */
  method Resolve(conflict: seq<ConflictFile>, turns: nat -> Turn) returns (result: Option<seq<ConflictFile>>, calls: nat)
    ensures calls <= CONFLICT_TOOL_CALL_LIMIT
    ensures calls <= 12
    ensures result.Some? <==> exists n: nat :: n < 12 && Resolves(conflict, turns, n)
    ensures result.Some? ==>
              && 0 < calls && Resolves(conflict, turns, calls - 1)
              && (forall i, j | 0 <= i < j < |result.value| :: result.value[i].path != result.value[j].path)
              && (forall path :: Named(result.value, path) <==> Named(conflict, path))
              && (forall f, captured | f in result.value && Captured(conflict, f.path, captured) ::
                    f.content == ContentAfter(turns, f.path, captured, calls - 1))
    ensures result.Some? <==> exists n: nat :: n < CONFLICT_TOOL_CALL_LIMIT && FinishesAt(Start(conflict), turns, n)
    ensures result.Some? ==>
              && 0 < calls && FinishesAt(Start(conflict), turns, calls - 1)
              && Lists(result.value, After(Start(conflict), turns, calls - 1).value.files)
  {
    hide Complete, HasMarkers, Written, FilesOf, Lists, Resolves, Captured, ContentAfter;
    ghost var start := Start(conflict);
    forall n: nat
      ensures FinishesAt(start, turns, n) <==> Resolves(conflict, turns, n)
    {
      FinishesIff(conflict, turns, n);
    }
    var files, written: set<Path> := FilesOf(conflict), {};
    calls := 0;
    while calls < CONFLICT_TOOL_CALL_LIMIT
      invariant calls <= CONFLICT_TOOL_CALL_LIMIT
      invariant After(start, turns, calls) == Some(Session(files, written))
      invariant forall i | 0 <= i < calls :: turns(i) != FinishConflict
    {
      ghost var m := calls;
      var turn := turns(calls);
      calls := calls + 1;
      var ok := true;
      match turn {
        case Stray =>
          ok := false;
        case ReadConflict(path) =>
          ok := path in files;
        case WriteConflict(path, delete, replacements) =>
          ok := path in files;
          if ok {
            var content;
            ok, content := Write(files[path], delete, replacements);
            if ok {
              files := files[path := content];
              if !MarkersRemain(content) {
                written := written + {path};
              }
            }
          }
        case FinishConflict =>
          var complete := Complete(Session(files, written));
          if complete {
            var list := IntoFiles(files);
            assert FinishesAt(start, turns, m);
            ResultTold(conflict, turns, m, list);
            return Some(list), calls;
          }
          ok := false;
      }
      if !ok {
        forall n: nat
          ensures !FinishesAt(start, turns, n)
        {
          FailedNeverFinishes(start, turns, m, n);
        }
        return None, calls;
      }
    }
    result := None;
  }

  /** One write call. */
  method Write(slot: Option<Content>, delete: bool, replacements: seq<Replacement>)
    returns (ok: bool, content: Option<Content>)
    ensures Written(slot, delete, replacements) == if ok then Some(content) else None
  {
    if delete {
      return replacements == [], None;
    }
    if slot.None? || replacements == [] {
      return false, slot;
    }
    content := WriteReplacements(slot.value, replacements);
    ok := content.Some?;
  }

  // What the coordinator makes of a result.

  lemma {:induction false} PathsStay(s: Session, turns: nat -> Turn, n: nat)
    requires After(s, turns, n).Some?
    ensures After(s, turns, n).value.files.Keys == s.files.Keys
  {
    if n > 0 {
      PathsStay(s, turns, n - 1);
    }
  }

  /** A result always passes the path-set and marker checks of `apply_conflict_resolution`. */
  lemma ResultIsAcceptable(conflict: seq<ConflictFile>, turns: nat -> Turn, n: nat, files: seq<ConflictFile>)
    requires FinishesAt(Start(conflict), turns, n) && Lists(files, After(Start(conflict), turns, n).value.files)
    ensures CoversOnce(PathsOf(conflict), files)
    ensures forall f | f in files :: !MarkersRemain(f.content)
  {
    PathsStay(Start(conflict), turns, n);
    var contents := After(Start(conflict), turns, n).value.files;
    assert |contents.Keys| == |contents|;
  }

  /** The file can be put where it belongs: written, or removed and known to the index. */
  predicate Placeable(s: State, f: ConflictFile) {
    if f.content.Some? then Writable(s.work, f.path) else Clear(s.work, f.path) && f.path in TreeOf(s, s.head)
  }

  lemma {:induction false} ReachesAll(t: Tree, files: seq<ConflictFile>)
    ensures Reach(t, files) == |files| <==> forall f | f in files :: CanTake(t, f)
    decreases |files|
  {
    hide CanTake;
    if files != [] {
      ReachesAll(t, files[1..]);
      assert files == [files[0]] + files[1..];
    }
  }

  /** What lands is what is free of markers and can be put where it belongs. */
  lemma LandsIff(s: State, files: seq<ConflictFile>)
    requires forall f | f in files :: !MarkersRemain(f.content)
    ensures Lands(s, files) <==> forall f | f in files :: Placeable(s, f)
  {
    hide HasMarkers, Writable, Clear, Reach, TreeOf;
    ReachesAll(s.work, files);
    forall f | f in files
      ensures CanTake(s.work, f) && (f.content.None? ==> f.path in TreeOf(s, s.head)) <==> Placeable(s, f)
    {
    }
  }

  /**
   With such a result, the staged check passed, the coordinator keeps the item if and only if the resolution
   changes the tip and each of its files can be put where it belongs.
   */
  lemma ResolvedItemIsKept(s: State, item: Item, conflict: seq<ConflictFile>, turns: nat -> Turn, n: nat,
                           files: seq<ConflictFile>)
    requires CherryPick(s, item.id) == Stopped(PathsOf(conflict)) && conflict != []
    requires FinishesAt(Start(conflict), turns, n) && Lists(files, After(Start(conflict), turns, n).value.files)
    ensures var s1 := ResolveStep(s, item, Answered(files, true));
            if Resolved(s, files) != TreeOf(s, s.head) && forall f | f in files :: Placeable(s, f)
            then s1.history.lost == s.history.lost && TreeOf(s1, s1.head) == Resolved(s, files)
                 && |s1.commits| == |s.commits| + 1 && s1.commits[|s.commits|].purposes == item.purposes
            else s1.history.lost == s.history.lost + [item] && s1.commits == s.commits
  {
    hide CherryPick, Overwrite, HasMarkers, Show, Tip, FinishesAt, Lists, After, CoversOnce, FilesOf, Placeable, Reach,
         Known, Lands;
    ResultIsAcceptable(conflict, turns, n, files);
    LandsIff(s, files);
    assert conflict[0].path in PathsOf(conflict);
  }

  /** Where a file of a resolution can go: its directory is there, no file is above it and no directory at it. */
  predicate HasPlace(s: State, path: Path, delete: bool) {
    && path != [] && (forall q | q in s.work :: !(path < q)) && (forall n | 0 < n < |path| :: path[..n] !in s.work)
    && if delete then path in TreeOf(s, s.head)
       else |path| == 1 || exists q :: q in s.work && path[..|path| - 1] < q
  }

  lemma HasPlaceIff(s: State, f: ConflictFile)
    ensures CanTake(s.work, f) && (f.content.None? ==> f.path in TreeOf(s, s.head)) <==>
              Clean(f.content) && HasPlace(s, f.path, f.content.None?)
  {
    hide TreeOf, Clean, HasMarkers;
    CleanIff(f.content);
  }

  /** Each conflicted path is among the files exactly once. */
  ghost predicate EachOnce(conflicts: set<Path>, files: seq<ConflictFile>) {
    && (forall path :: path in conflicts <==> Named(files, path))
    && (forall i, j | 0 <= i < j < |files| :: files[i].path != files[j].path)
  }

  lemma {:induction false} DistinctCounted(files: seq<ConflictFile>)
    requires forall i, j | 0 <= i < j < |files| :: files[i].path != files[j].path
    ensures |PathsOf(files)| == |files|
  {
    hide PathsOf;
    if files == [] {
      Tidiness.NoPaths();
    } else {
      var init, last := files[..|files| - 1], files[|files| - 1];
      assert forall i | 0 <= i < |init| :: init[i] == files[i];
      DistinctCounted(init);
      PathsSnoc(init, last);
      assert files == init + [last];
      NamedIff(init, last.path);
    }
  }

  lemma EachOnceIff(conflicts: set<Path>, files: seq<ConflictFile>)
    ensures CoversOnce(conflicts, files) <==> EachOnce(conflicts, files)
  {
    hide PathsOf, Named;
    forall path
      ensures Named(files, path) <==> path in PathsOf(files)
    {
      NamedIff(files, path);
    }
    Tidiness.PathsCounted(files);
    if EachOnce(conflicts, files) {
      DistinctCounted(files);
      assert PathsOf(files) == conflicts;
    }
  }

  lemma AcceptableTold(s: State, conflicts: set<Path>, answer: Answer)
    requires answer.Answered?
    requires Reach(s.work, answer.files) == |answer.files| <==> forall f | f in answer.files :: CanTake(s.work, f)
    ensures Acceptable(s, conflicts, answer) <==>
              && CoversOnce(conflicts, answer.files) && answer.staged
              && forall f | f in answer.files :: CanTake(s.work, f) && (f.content.None? ==> f.path in TreeOf(s, s.head))
  {
    hide CoversOnce, Reach, CanTake, TreeOf;
  }

  /**
   The coordinator takes an answer exactly when it has each conflicted path once, no content has a marker line,
   each file can go where it belongs, and the staged check has passed.
   */
  lemma TakenIff(s: State, conflicts: set<Path>, answer: Answer)
    requires answer.Answered?
    ensures Acceptable(s, conflicts, answer) <==>
              && EachOnce(conflicts, answer.files) && answer.staged
              && forall f | f in answer.files :: Clean(f.content) && HasPlace(s, f.path, f.content.None?)
  {
    hide CanTake, HasPlace, Clean, CoversOnce, EachOnce, Reach, Acceptable, TreeOf;
    EachOnceIff(conflicts, answer.files);
    ReachesAll(s.work, answer.files);
    forall f | f in answer.files
      ensures CanTake(s.work, f) && (f.content.None? ==> f.path in TreeOf(s, s.head)) <==>
                Clean(f.content) && HasPlace(s, f.path, f.content.None?)
    {
      HasPlaceIff(s, f);
    }
    AcceptableTold(s, conflicts, answer);
  }

  lemma KeptIfAcceptable(s: State, item: Item, answer: Answer)
    requires CherryPick(s, item.id).Stopped? && CherryPick(s, item.id).conflicts != {}
    ensures var r := ResolveStep(s, item, answer);
            if && answer.Answered? && Acceptable(s, CherryPick(s, item.id).conflicts, answer)
               && Overwrite(TreeOf(s, s.head), answer.files) != TreeOf(s, s.head)
            then && r.history.lost == s.history.lost && TreeOf(r, r.head) == Overwrite(TreeOf(s, s.head), answer.files)
                 && r.commits == s.commits + [item.(id := r.head, diff := Show(r, r.head))] && r.aliases == s.aliases
            else r.history.lost == s.history.lost + [item] && r.commits == s.commits && r.aliases == s.aliases
  {
    hide CherryPick, Overwrite, Tip, CoversOnce, Reach, Lands, DiffOf;
  }

  /**
   After a conflict an item is kept exactly when the answer has each conflicted path once, no content has a marker
   line, each file can go where it belongs, the staged check has passed and the tree changes.  Otherwise it is
   reported lost, and the queue is as it was.
   */
  lemma KeptIff(s: State, item: Item, answer: Answer)
    requires CherryPick(s, item.id).Stopped? && CherryPick(s, item.id).conflicts != {}
    ensures var r := ResolveStep(s, item, answer);
            if && answer.Answered? && EachOnce(CherryPick(s, item.id).conflicts, answer.files)
               && (forall f | f in answer.files :: Clean(f.content) && HasPlace(s, f.path, f.content.None?))
               && answer.staged && Overwrite(TreeOf(s, s.head), answer.files) != TreeOf(s, s.head)
            then && r.history.lost == s.history.lost && TreeOf(r, r.head) == Overwrite(TreeOf(s, s.head), answer.files)
                 && r.commits == s.commits + [item.(id := r.head, diff := Show(r, r.head))] && r.aliases == s.aliases
            else r.history.lost == s.history.lost + [item] && r.commits == s.commits && r.aliases == s.aliases
  {
    hide CherryPick, Overwrite, Show, Tip, HasPlace, Clean, EachOnce, ResolveStep, Acceptable;
    KeptIfAcceptable(s, item, answer);
    if answer.Answered? {
      TakenIff(s, CherryPick(s, item.id).conflicts, answer);
    }
  }

  // A resolution that changes nothing.

  lemma LongerNeverOccurs(t: string, c: char)
    ensures CountMatches(t, t + [c]) == 0
  {
    assert Find(t, t + [c]) == |t|;
  }

  /** The write that leaves a path as it is. */
  function Confirm(path: Path, content: Option<Content>): Turn {
    if content.None? then WriteConflict(path, true, [])
    else WriteConflict(path, false, [Replacement(content.value + "x", "", 0)])
  }

  lemma ZeroReplacement(t: string, find: string, with: string)
    requires find != [] && CountMatches(t, find) == 0
    ensures EditEach(t, [Replacement(find, with, 0)]) == Some(t)
  {
    var rs := [Replacement(find, with, 0)];
    assert Replace(t, find, with) == t;
    assert EditEach(t, rs) == EditEach(t, rs[1..]);
  }

  /** A write that expects and replaces nothing counts as writing the path exactly when no marker is in it. */
  lemma ZeroReplacementCountsAsWritten(s: Session, path: Path, find: string, with: string)
    requires path in s.files && s.files[path].Some?
    requires find != [] && CountMatches(s.files[path].value, find) == 0
    ensures Next(s, WriteConflict(path, false, [Replacement(find, with, 0)]))
         == Some(s.(written := if MarkersRemain(s.files[path]) then s.written else s.written + {path}))
  {
    hide HasMarkers, EditEach;
    ZeroReplacement(s.files[path].value, find, with);
    assert s.files[path := s.files[path]] == s.files;
  }

  lemma ConfirmCountsIff(s: Session, path: Path)
    requires path in s.files
    ensures Next(s, Confirm(path, s.files[path]))
         == Some(s.(written := if MarkersRemain(s.files[path]) then s.written else s.written + {path}))
  {
    hide HasMarkers, EditEach;
    var content := s.files[path];
    if content.Some? {
      LongerNeverOccurs(content.value, 'x');
      ZeroReplacementCountsAsWritten(s, path, content.value + "x", "");
    } else {
      assert s.files[path := content] == s.files;
    }
  }

  lemma {:induction false} OneWritePerTurn(s: Session, turns: nat -> Turn, n: nat)
    requires After(s, turns, n).Some?
    ensures |After(s, turns, n).value.written| <= |s.written| + n
  {
    hide Written, HasMarkers;
    if n > 0 {
      OneWritePerTurn(s, turns, n - 1);
    }
  }

  function SetOf(paths: seq<Path>): set<Path> {
    set i | 0 <= i < |paths| :: paths[i]
  }

  lemma SetSnoc(paths: seq<Path>, path: Path)
    ensures SetOf(paths + [path]) == SetOf(paths) + {path}
  {
    var all := paths + [path];
    assert all[|paths|] == path && forall i | 0 <= i < |paths| :: all[i] == paths[i];
  }

  lemma {:induction false} InSomeOrder(keys: set<Path>) returns (paths: seq<Path>)
    ensures |paths| == |keys| && SetOf(paths) == keys
    decreases |keys|
  {
    paths := [];
    if keys != {} {
      var path :| path in keys;
      paths := InSomeOrder(keys - {path});
      SetSnoc(paths, path);
      paths := paths + [path];
    }
  }

  lemma {:induction false} ConfirmAll(s: Session, turns: nat -> Turn, paths: seq<Path>, n: nat)
    requires s.written == {} && n <= |paths| && forall i | 0 <= i < |paths| :: paths[i] in s.files
    requires forall i | 0 <= i < |paths| :: turns(i) == Confirm(paths[i], s.files[paths[i]])
    requires forall path | path in s.files :: !MarkersRemain(s.files[path])
    ensures After(s, turns, n) == Some(s.(written := SetOf(paths[..n])))
  {
    hide HasMarkers, Next;
    if n > 0 {
      ConfirmAll(s, turns, paths, n - 1);
      ConfirmCountsIff(s.(written := SetOf(paths[..n - 1])), paths[n - 1]);
      SetSnoc(paths[..n - 1], paths[n - 1]);
      assert paths[..n] == paths[..n - 1] + [paths[n - 1]];
    } else {
      assert SetOf(paths[..0]) == {};
    }
  }

  /** Turn n finishes with every file as it was captured. */
  predicate FinishesUnchanged(s: Session, turns: nat -> Turn, n: nat) {
    n < CONFLICT_TOOL_CALL_LIMIT && FinishesAt(s, turns, n) && After(s, turns, n).value.files == s.files
  }

  lemma ConfirmedInOrder(s: Session, paths: seq<Path>) returns (turns: nat -> Turn)
    requires s.written == {} && SetOf(paths) == s.files.Keys && |paths| == |s.files| < CONFLICT_TOOL_CALL_LIMIT
    requires forall path | path in s.files :: !MarkersRemain(s.files[path])
    ensures FinishesUnchanged(s, turns, |paths|)
  {
    hide HasMarkers;
    assert forall i | 0 <= i < |paths| :: paths[i] in SetOf(paths);
    turns := (i: nat) => if i < |paths| && paths[i] in s.files then Confirm(paths[i], s.files[paths[i]])
                         else FinishConflict;
    ConfirmAll(s, turns, paths, |paths|);
    assert paths[..|paths|] == paths && |s.files.Keys| == |s.files|;
  }

  lemma UnchangedNeeds(s: Session, turns: nat -> Turn, n: nat)
    requires s.written == {} && FinishesUnchanged(s, turns, n)
    ensures |s.files| < CONFLICT_TOOL_CALL_LIMIT && forall path | path in s.files :: !MarkersRemain(s.files[path])
  {
    hide HasMarkers;
    OneWritePerTurn(s, turns, n);
  }

  /**
   The exact condition for a conversation to get a resolution accepted that changes nothing: no marker is in
   any of the conflicted files, and there are few enough of them to confirm each within the budget.
   */
  lemma UnchangedResolutionIff(conflict: seq<ConflictFile>)
    ensures var files := FilesOf(conflict);
            (exists turns: nat -> Turn, n: nat :: FinishesUnchanged(Start(conflict), turns, n)) <==>
              |files| < CONFLICT_TOOL_CALL_LIMIT && forall path | path in files :: !MarkersRemain(files[path])
  {
    hide MarkersRemain, FilesOf, FinishesUnchanged;
    var s := Start(conflict);
    if turns: nat -> Turn, n: nat :| FinishesUnchanged(s, turns, n) {
      UnchangedNeeds(s, turns, n);
    }
    if |s.files| < CONFLICT_TOOL_CALL_LIMIT && forall path | path in s.files :: !MarkersRemain(s.files[path]) {
      var paths := InSomeOrder(s.files.Keys);
      assert |s.files.Keys| == |s.files|;
      var turns := ConfirmedInOrder(s, paths);
    }
  }
}
