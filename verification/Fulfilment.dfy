/** What an accepted request list does to the workspace, told from the requests alone. */
module Fulfilment {
  import opened Wrappers
  import opened GitModel
  import opened Text
  import opened Disk
  import opened Preparation
  import opened Acceptance
  import opened Atomicity
  import opened Simultaneous

  /** One request between the files before and the files after. */
  ghost predicate Fulfilled(before: Tree, after: Tree, request: Request) {
    match request
    case CreateFile(path, content) => path !in before && Get(after, path) == Some(content)
    case UpdateFile(path, _, replacements) =>
      path in before && path in after && EditsTo(before[path], replacements, after[path])
    case DeleteFile(path, _) => path in before && path !in after
    case RenameFile(from, to, _) =>
      from in before && to !in before && from !in after && Get(after, to) == Some(before[from])
  }

  /** All requests are met, and no other path is touched. */
  ghost predicate AllFulfilled(before: Tree, after: Tree, requests: seq<Request>) {
    && (forall i | 0 <= i < |requests| :: Fulfilled(before, after, requests[i]))
    && (forall p | forall i | 0 <= i < |requests| :: p !in Touches(requests[i]) :: Get(after, p) == Get(before, p))
  }

  /** The name a request brings into being. */
  function NewName(request: Request): Option<Path> {
    match request
    case CreateFile(path, _) => Some(path)
    case RenameFile(_, to, _) => Some(to)
    case _ => None
  }

  /** The name under which a request's result is to be seen. */
  function ResultName(request: Request): Option<Path> {
    match request
    case CreateFile(path, _) => Some(path)
    case UpdateFile(path, _, _) => Some(path)
    case RenameFile(_, to, _) => Some(to)
    case DeleteFile(_, _) => None
  }

  /** No new name lies below another. */
  predicate Unnested(requests: seq<Request>) {
    forall i, j | 0 <= i < |requests| && 0 <= j < |requests| && NewName(requests[i]).Some?
      && NewName(requests[j]).Some? ::
      !(NewName(requests[i]).value < NewName(requests[j]).value)
  }

  predicate AllSeen(visible: (Tree, Path) -> bool, after: Tree, requests: seq<Request>) {
    forall i | 0 <= i < |requests| && ResultName(requests[i]).Some? :: visible(after, ResultName(requests[i]).value)
  }

  /** One planned operation, as the request says. */
  lemma PlanMeans(scene: Scene, request: Request, op: Op, after: Tree)
    requires Plan(scene, request) == Some(op) && PreparedOp(scene.disk, op)
    requires forall p | p in Effect(op) :: Get(after, p) == Effect(op)[p]
    ensures Fulfilled(scene.disk.files, after, request)
    ensures Claims(op) == Touches(request) && NewPath(op) == NewName(request) && ResultPath(op) == ResultName(request)
  {
    hide Readable, Available, EditsTo, Edit;
    if request.UpdateFile? {
      EditIff(scene.disk.files[request.path], request.replacements, op.after);
    }
    EffectClaims(op);
  }

  lemma PlannedFulfils(scene: Scene, requests: seq<Request>, ops: seq<Op>)
    requires Planned(scene, requests, ops) && Prepared(scene.disk, ops)
    ensures AllFulfilled(scene.disk.files, Overlay(scene.disk.files, Effects(ops)), requests)
    ensures forall i | 0 <= i < |ops| ::
              && Claims(ops[i]) == Touches(requests[i]) && NewPath(ops[i]) == NewName(requests[i])
              && ResultPath(ops[i]) == ResultName(requests[i])
  {
    hide Plan, Fulfilled, Effect, Effects, Overlay, Claims, Touches, NewName, ResultName, PreparedOp;
    EffectsAt(ops);
    var after := Overlay(scene.disk.files, Effects(ops));
    forall i | 0 <= i < |ops|
      ensures Fulfilled(scene.disk.files, after, requests[i]) && Claims(ops[i]) == Touches(requests[i])
      ensures NewPath(ops[i]) == NewName(requests[i]) && ResultPath(ops[i]) == ResultName(requests[i])
    {
      assert Covers(Effects(ops), ops[i]);
      PlanMeans(scene, requests[i], ops[i], after);
    }
  }

  /** The requests leave only one choice. */
  lemma FulfilledOnce(scene: Scene, requests: seq<Request>, ops: seq<Op>, after: Tree)
    requires Planned(scene, requests, ops) && Prepared(scene.disk, ops)
    requires AllFulfilled(scene.disk.files, after, requests)
    ensures after == Overlay(scene.disk.files, Effects(ops))
  {
    hide Plan, Fulfilled, Claims, Touches, PreparedOp, Effects, Overlay;
    PlannedFulfils(scene, requests, ops);
    var other := Overlay(scene.disk.files, Effects(ops));
    forall p
      ensures Get(after, p) == Get(other, p)
    {
      if i :| 0 <= i < |requests| && p in Touches(requests[i]) {
        SameResult(scene.disk.files, requests[i], after, other, p);
      }
    }
    TreeExt(after, other);
  }

  lemma SameResult(before: Tree, request: Request, a: Tree, b: Tree, p: Path)
    requires Fulfilled(before, a, request) && Fulfilled(before, b, request) && p in Touches(request)
    ensures Get(a, p) == Get(b, p)
  {
    if request.UpdateFile? {
      EditIff(before[p], request.replacements, a[p]);
      EditIff(before[p], request.replacements, b[p]);
    }
  }

  lemma NestingTold(requests: seq<Request>, ops: seq<Op>)
    requires |ops| == |requests| && forall i | 0 <= i < |ops| :: NewPath(ops[i]) == NewName(requests[i])
    ensures NonNested(ops) <==> Unnested(requests)
  {
    hide NewPath, NewName;
    if NonNested(ops) {
      forall i, j | 0 <= i < |requests| && 0 <= j < |requests| && NewName(requests[i]).Some?
        && NewName(requests[j]).Some?
        ensures !(NewName(requests[i]).value < NewName(requests[j]).value)
      {
        assert i < j ==> !Nested(ops[i], ops[j]);
        assert j < i ==> !Nested(ops[j], ops[i]);
      }
    }
  }

  /** Claims of the operations, in terms of the requests. */
  lemma ClaimsTold(requests: seq<Request>, ops: seq<Op>)
    requires |ops| == |requests| && forall i | 0 <= i < |ops| :: Claims(ops[i]) == Touches(requests[i])
    ensures forall p :: p in AllClaims(ops) <==> exists i :: 0 <= i < |requests| && p in Touches(requests[i])
  {
    hide Claims, Touches;
  }

  /** What a new name's missing directories come to. */
  lemma MissingTold(d: Disk, requests: seq<Request>, ops: seq<Op>, q: Path)
    requires |ops| == |requests| && forall i | 0 <= i < |ops| :: NewPath(ops[i]) == NewName(requests[i])
    ensures q in d.dirs + Missing(d, ops) <==>
              q in d.dirs || exists i ::
                  0 <= i < |requests| && NewName(requests[i]).Some? && q < NewName(requests[i]).value
  {
    hide NewPath, NewName;
    if i :| 0 <= i < |requests| && NewName(requests[i]).Some? && q < NewName(requests[i]).value {
      var p := NewPath(ops[i]).value;
      assert p[..|q|] == q;
    }
  }
}
