/**
 Displayed names.  The alias map is what the coordinator follows; the origins say which commit each commit
 was cleanly picked or rebuilt from.  Following aliases finds exactly the queued descendants.
 */
module Names {
  import opened ReviewSpec

  /** `q` is `x`, or was made from a commit that descends from `x`. */
  predicate Descends(origins: map<Id, Id>, q: Id, x: Id)
    decreases q
  {
    q == x || (q in origins && origins[q] < q && Descends(origins, origins[q], x))
  }

  /** The same work, with at most some of the changes left: the tree already held the others. */
  predicate Narrower(a: Item, b: Item) {
    && a.purposes == b.purposes && a.paths == b.paths
    && forall p | p in a.diff :: p in b.diff && a.diff[p] == b.diff[p]
  }

  /** The part of the state that names are about; `bound` is the next fresh name. */
  datatype Book = Book(aliases: map<Id, Id>, origins: map<Id, Id>, shown: map<Id, Item>, bound: Id)

  function BookOf(s: State): Book {
    Book(s.aliases, s.history.origins, s.history.shown, |s.repo|)
  }

  /** Commits are made from older ones, and every alias leads to a commit made from the aliased one. */
  predicate Consistent(b: Book) {
    && (forall c | c in b.origins :: b.origins[c] < c < b.bound)
    && (forall k | k in b.aliases :: b.aliases[k] in b.origins && b.origins[b.aliases[k]] == k)
    && (forall k | k in b.shown :: k < b.bound && b.shown[k].id == k)
    && (forall c | c in b.origins && c in b.shown ::
          b.origins[c] in b.shown && Narrower(b.shown[c], b.shown[b.origins[c]]))
  }

  /** On the line from `q` back to its oldest ancestor every step is still an alias. */
  ghost predicate Live(b: Book, q: Id) {
    forall c: Id | Descends(b.origins, q, c) && c in b.origins ::
      b.origins[c] in b.aliases && b.aliases[b.origins[c]] == c
  }

  /** No name descends from another. */
  ghost predicate Unrelated(origins: map<Id, Id>, names: set<Id>) {
    forall q, x | q in names && x in names && q != x :: !Descends(origins, q, x)
  }

  /** `done` are the queued items; `targets` holds their names and those of items still being replayed. */
  ghost predicate Traced(b: Book, done: seq<Item>, targets: set<Id>) {
    && Consistent(b)
    && (forall q | q in targets :: q < b.bound && Live(b, q))
    && Unrelated(b.origins, targets)
    && (forall i | 0 <= i < |done| :: Recorded(b, done[i]) && done[i].id in targets && done[i].id !in b.aliases)
    && (forall i, j | 0 <= i < j < |done| :: done[i].id < done[j].id)
  }

  predicate Recorded(b: Book, item: Item) {
    item.id in b.shown && b.shown[item.id] == item
  }

  // Lines of descent.

  lemma {:induction false} DescendsDown(origins: map<Id, Id>, q: Id, x: Id)
    requires Descends(origins, q, x)
    ensures x <= q
    decreases q
  {
    if q != x {
      DescendsDown(origins, origins[q], x);
    }
  }

  /** An ancestor's own origin is an ancestor too. */
  lemma {:induction false} DescendsFurther(origins: map<Id, Id>, q: Id, c: Id)
    requires Descends(origins, q, c) && c in origins && origins[c] < c
    ensures Descends(origins, q, origins[c])
    decreases q
  {
    if q != c {
      DescendsFurther(origins, origins[q], c);
    } else {
      assert Descends(origins, origins[c], origins[c]);
    }
  }

  /** The commit on the line that was made from a given proper ancestor. */
  lemma {:induction false} MadeFromAncestor(origins: map<Id, Id>, q: Id, x: Id) returns (c: Id)
    requires Descends(origins, q, x) && q != x
    ensures Descends(origins, q, c) && c in origins && origins[c] == x && x < c <= q
    decreases q
  {
    if origins[q] == x {
      c := q;
    } else {
      c := MadeFromAncestor(origins, origins[q], x);
    }
  }

  /** New commits do not change the lines of old ones. */
  predicate OriginsGrow(a: map<Id, Id>, b: map<Id, Id>, bound: Id) {
    && (forall c | c in a :: c in b && b[c] == a[c])
    && (forall c | c in b && c !in a :: bound <= c)
  }

  lemma {:induction false} SameLine(a: map<Id, Id>, b: map<Id, Id>, bound: Id, q: Id, x: Id)
    requires OriginsGrow(a, b, bound) && q < bound
    ensures Descends(a, q, x) <==> Descends(b, q, x)
    decreases q
  {
    if q in a && a[q] < q {
      SameLine(a, b, bound, a[q], x);
    }
  }

  // Walking.

  /** `n` links from a name, or fewer where they run out. */
  function Hop(aliases: map<Id, Id>, x: Id, n: nat): Id
    decreases n
  {
    if n == 0 || x !in aliases then x else Hop(aliases, aliases[x], n - 1)
  }

  ghost predicate Returns(aliases: map<Id, Id>, x: Id, y: Id) {
    exists n: nat :: n > 0 && Hop(aliases, x, n) == y
  }

  lemma {:induction false} HopFurther(aliases: map<Id, Id>, x: Id, n: nat)
    requires Hop(aliases, x, n) in aliases
    ensures Hop(aliases, x, n + 1) == aliases[Hop(aliases, x, n)]
    decreases n
  {
    if n > 0 && x in aliases {
      HopFurther(aliases, aliases[x], n - 1);
    }
  }

  lemma ReturnsFurther(aliases: map<Id, Id>, x: Id, y: Id)
    requires y in aliases && (x == y || Returns(aliases, x, y))
    ensures Returns(aliases, x, aliases[y])
  {
    if x == y {
      assert Hop(aliases, x, 0) == y;
      HopFurther(aliases, x, 0);
    } else {
      var n: nat :| n > 0 && Hop(aliases, x, n) == y;
      HopFurther(aliases, x, n);
      assert Hop(aliases, x, n + 1) == aliases[y];
    }
  }

  /** Whatever the alias map, the walk stops: at a name without a link, or once round a cycle. */
  lemma {:induction false} WalkStops(aliases: map<Id, Id>, current: Id, seen: set<Id>)
    requires forall k | k in seen :: Returns(aliases, k, current)
    ensures var r := ResolveFrom(aliases, current, seen);
            && (r == current || Returns(aliases, current, r))
            && (r !in aliases || Returns(aliases, r, r))
    decreases aliases.Keys - seen
  {
    if current !in seen && current in aliases {
      assert current in aliases.Keys - seen;
      var next := aliases[current];
      forall k | k in seen + {current}
        ensures Returns(aliases, k, next)
      {
        ReturnsFurther(aliases, k, current);
      }
      WalkStops(aliases, next, seen + {current});
      var r := ResolveFrom(aliases, next, seen + {current});
      if r != next {
        var n: nat :| n > 0 && Hop(aliases, next, n) == r;
        assert Hop(aliases, current, n + 1) == r;
      }
    }
  }

  /** Where every step of the line is an alias, the walk follows it to its end and arrives nowhere else. */
  lemma {:induction false} WalkIsLine(b: Book, current: Id, seen: set<Id>, q: Id)
    requires Consistent(b) && (forall k | k in seen :: k < current)
    requires Live(b, q) && q !in b.aliases
    ensures ResolveFrom(b.aliases, current, seen) == q <==> Descends(b.origins, q, current)
    decreases b.aliases.Keys - seen
  {
    if current in b.aliases {
      assert current in b.aliases.Keys - seen;
      var next := b.aliases[current];
      WalkIsLine(b, next, seen + {current}, q);
      if Descends(b.origins, q, next) {
        DescendsFurther(b.origins, q, next);
      }
    }
    if Descends(b.origins, q, current) && q != current {
      var c := MadeFromAncestor(b.origins, q, current);
      assert b.aliases[current] == c;
    }
  }

  /** A displayed name resolves to a queued commit exactly when that commit descends from it. */
  lemma ResolvesIffDescends(b: Book, done: seq<Item>, targets: set<Id>, name: Id, k: nat)
    requires Traced(b, done, targets) && k < |done|
    ensures Resolve(b.aliases, name) == done[k].id <==> Descends(b.origins, done[k].id, name)
  {
    assert done[k].id in targets;
    WalkIsLine(b, name, {}, done[k].id);
  }

  /** A descendant is the displayed work, narrowed. */
  lemma {:induction false} DescendantsAreNarrower(b: Book, x: Id, q: Id)
    requires Consistent(b) && q in b.shown && Descends(b.origins, q, x)
    ensures x in b.shown && Narrower(b.shown[q], b.shown[x])
    decreases q
  {
    if q != x {
      DescendantsAreNarrower(b, x, b.origins[q]);
    }
  }

  // Bookkeeping turns.

  function Moved(b: Book, was: Id, item: Item): Book {
    Book(b.aliases[was := b.bound], b.origins[b.bound := was], b.shown[b.bound := item], b.bound + 1)
  }

  function Added(b: Book, item: Item): Book {
    b.(shown := b.shown[b.bound := item], bound := b.bound + 1)
  }

  lemma MovedConsistent(b: Book, was: Item, item: Item)
    requires Consistent(b) && Recorded(b, was) && item.id == b.bound && Narrower(item, was)
    ensures Consistent(Moved(b, was.id, item)) && b.bound !in b.origins && b.bound !in b.aliases && was.id < b.bound
    ensures OriginsGrow(b.origins, Moved(b, was.id, item).origins, b.bound)
  {
  }

  /** Giving one name a new descendant leaves the lines of unrelated names as they are. */
  lemma MovedLive(b: Book, was: Id, item: Item, q: Id)
    requires OriginsGrow(b.origins, b.origins[b.bound := was], b.bound) && q < b.bound && Live(b, q)
    requires forall c | c in b.origins :: b.origins[c] < c
    requires !Descends(b.origins, q, was) || q == was
    ensures Live(Moved(b, was, item), q)
  {
    var b' := Moved(b, was, item);
    forall c: Id | Descends(b'.origins, q, c) && c in b'.origins
      ensures b'.origins[c] in b'.aliases && b'.aliases[b'.origins[c]] == c
    {
      SameLine(b.origins, b'.origins, b.bound, q, c);
      DescendsDown(b.origins, q, c);
      assert c in b.origins;
      DescendsFurther(b.origins, q, c);
      assert b.origins[c] != was;
    }
  }

  /** The new descendant's line is the old one's and one step more. */
  lemma NewLive(b: Book, was: Id, item: Item)
    requires Consistent(b) && was < b.bound && Live(b, was) && Live(Moved(b, was, item), was)
    ensures Live(Moved(b, was, item), b.bound)
  {
    var b' := Moved(b, was, item);
    forall c: Id | Descends(b'.origins, b.bound, c) && c in b'.origins
      ensures b'.origins[c] in b'.aliases && b'.aliases[b'.origins[c]] == c
    {
      assert c != b.bound ==> Descends(b'.origins, was, c);
    }
  }

  lemma MovedUnrelated(b: Book, was: Id, item: Item, targets: set<Id>)
    requires OriginsGrow(b.origins, b.origins[b.bound := was], b.bound) && Unrelated(b.origins, targets)
    requires was in targets && was < b.bound && forall q | q in targets :: q < b.bound
    ensures Unrelated(Moved(b, was, item).origins, targets - {was} + {b.bound})
  {
    var b' := Moved(b, was, item);
    forall q, x | q in targets - {was} + {b.bound} && x in targets - {was} + {b.bound} && q != x
      ensures !Descends(b'.origins, q, x)
    {
      if q == b.bound {
        SameLine(b.origins, b'.origins, b.bound, was, x);
      } else {
        SameLine(b.origins, b'.origins, b.bound, q, x);
        if x == b.bound && Descends(b.origins, q, x) {
          DescendsDown(b.origins, q, x);
        }
      }
    }
  }

  /** A clean replay: the old name links to the new item, and need not be followed further. */
  lemma MovedTraced(b: Book, done: seq<Item>, targets: set<Id>, was: Item, item: Item)
    requires Traced(b, done, targets) && Recorded(b, was) && was.id in targets
    requires forall i | 0 <= i < |done| :: done[i].id != was.id
    requires item.id == b.bound && Narrower(item, was)
    ensures Traced(Moved(b, was.id, item), done + [item], targets - {was.id} + {b.bound})
  {
    hide Narrower, Unrelated, Live, Descends;
    MovedConsistent(b, was, item);
    MovedUnrelated(b, was.id, item, targets);
    AllMovedLive(b, was.id, item, targets);
    NewLive(b, was.id, item);
    var b', done' := Moved(b, was.id, item), done + [item];
    forall i | 0 <= i < |done'|
      ensures Recorded(b', done'[i]) && done'[i].id in targets - {was.id} + {b.bound} && done'[i].id !in b'.aliases
    {
      if i < |done| {
        assert Recorded(b, done[i]) && done[i].id in targets;
      }
    }
  }

  lemma AllMovedLive(b: Book, was: Id, item: Item, targets: set<Id>)
    requires OriginsGrow(b.origins, b.origins[b.bound := was], b.bound) && Unrelated(b.origins, targets)
             && was in targets
    requires forall c | c in b.origins :: b.origins[c] < c
    requires forall q | q in targets :: q < b.bound && Live(b, q)
    ensures forall q | q in targets :: Live(Moved(b, was, item), q)
  {
    forall q | q in targets
      ensures Live(Moved(b, was, item), q)
    {
      MovedLive(b, was, item, q);
    }
  }

  /** The names a replay started from stay as they are, for the case that it has to be repeated. */
  lemma MovedLoose(b: Book, targets: set<Id>, was: Item, item: Item)
    requires Traced(b, [], targets) && Recorded(b, was) && was.id in targets
    requires item.id == b.bound && Narrower(item, was)
    ensures Traced(Moved(b, was.id, item), [], targets)
  {
    MovedConsistent(b, was, item);
    AllMovedLive(b, was.id, item, targets);
    var b' := Moved(b, was.id, item);
    forall q, x | q in targets && x in targets && q != x
      ensures !Descends(b'.origins, q, x)
    {
      SameLine(b.origins, b'.origins, b.bound, q, x);
    }
  }

  /** A new, resolved, merged or collapsed commit: it descends from nothing. */
  lemma AddedTraced(b: Book, done: seq<Item>, targets: set<Id>, item: Item)
    requires Traced(b, done, targets) && item.id == b.bound
    ensures Traced(Added(b, item), done + [item], targets + {b.bound})
  {
    AddedUnrelated(b, targets);
    hide Narrower, Unrelated, Live, Descends;
    AddedLive(b, targets, item);
    var b', done' := Added(b, item), done + [item];
    forall i | 0 <= i < |done'|
      ensures Recorded(b', done'[i]) && done'[i].id in targets + {b.bound} && done'[i].id !in b'.aliases
    {
      assert i < |done| ==> Recorded(b, done[i]) && done[i].id in targets;
    }
  }

  lemma AddedLive(b: Book, targets: set<Id>, item: Item)
    requires b.bound !in b.origins && forall q | q in targets :: Live(b, q)
    ensures forall q | q in targets + {b.bound} :: Live(Added(b, item), q)
  {
  }

  lemma AddedUnrelated(b: Book, targets: set<Id>)
    requires Consistent(b) && Unrelated(b.origins, targets) && forall q | q in targets :: q < b.bound
    ensures Unrelated(b.origins, targets + {b.bound}) && b.bound !in b.origins && b.bound !in b.aliases
  {
    forall q | q in targets
      ensures !Descends(b.origins, q, b.bound)
    {
      if Descends(b.origins, q, b.bound) {
        DescendsDown(b.origins, q, b.bound);
      }
    }
  }

  /** The same bookkeeping in a larger store, perhaps with commits that were made and never queued. */
  predicate Later(b: Book, r: Book) {
    && r.aliases == b.aliases && r.shown == b.shown && b.bound <= r.bound
    && OriginsGrow(b.origins, r.origins, b.bound)
    && forall c | c in r.origins && c !in b.origins :: r.origins[c] < c < r.bound
  }

  /** Fewer names that matter, perhaps an emptied queue, and a larger store. */
  lemma FewerTraced(b: Book, done: seq<Item>, targets: set<Id>, r: Book, fewer: seq<Item>, names: set<Id>)
    requires Traced(b, done, targets) && Later(b, r) && names <= targets
    requires fewer == [] || (fewer == done && forall i | 0 <= i < |done| :: done[i].id in names)
    ensures Traced(r, fewer, names)
  {
    hide Narrower;
    forall q | q in names
      ensures Live(r, q)
    {
      forall c: Id | Descends(r.origins, q, c) && c in r.origins
        ensures r.origins[c] in r.aliases && r.aliases[r.origins[c]] == c
      {
        SameLine(b.origins, r.origins, b.bound, q, c);
        DescendsDown(b.origins, q, c);
      }
    }
    forall q, x | q in names && x in names && q != x
      ensures !Descends(r.origins, q, x)
    {
      SameLine(b.origins, r.origins, b.bound, q, x);
    }
  }

  /** Dropping every link is harmless once nothing is queued. */
  lemma ClearedTraced(b: Book, targets: set<Id>)
    requires Traced(b, [], targets)
    ensures Traced(b.(aliases := map[]), [], {})
  {
    hide Narrower;
  }
}
