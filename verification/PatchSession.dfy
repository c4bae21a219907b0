/** The patch tool and the coordinator together: one call of `execute_with_resolver`. */
module PatchSession {
  import opened Wrappers
  import opened GitModel
  import opened ReviewSpec
  import opened Queue
  import opened Finishing
  import opened Runs
  import Disk
  import Exposure
  import KeyOrder
  import Leftovers
  import Preparation
  import Undoing
  import Simultaneous

  /** What the session worktree is besides its files, and how the call's transaction is carried out. */
  datatype Setting = Setting(dirs: set<Path>, left: Option<nat>, visible: (Tree, Path) -> bool,
                             order: seq<Path>, list: seq<Path>)

  function Worktree(s: State, setting: Setting): Disk.Disk {
    Disk.Disk(s.work, setting.dirs, setting.left)
  }

  /** Preparation has passed, and undoing walks the snapshot map from its last path to its first. */
  predicate Ready(s: State, setting: Setting, ops: seq<Disk.Op>) {
    && Disk.Sane(Worktree(s, setting)) && Disk.Prepared(Worktree(s, setting), ops)
    && Undoing.Walks(setting.order, ops) && KeyOrder.LastFirst(setting.order) && Leftovers.AllPlain(ops)
    && Undoing.DeepestFirst(setting.list, Disk.Missing(Worktree(s, setting), ops))
    && Disk.AllRooted(ops)
  }

  /** Preparation lets no slash into the names of a path. */
  lemma PlannedIsPlain(scene: Preparation.Scene, requests: seq<Preparation.Request>, ops: seq<Disk.Op>)
    requires Preparation.Planned(scene, requests, ops)
    ensures Leftovers.AllPlain(ops)
  {
    hide Preparation.Readable, Preparation.Available, Preparation.LegalPath;
    forall i, p | 0 <= i < |ops| && p in Disk.Claims(ops[i])
      ensures KeyOrder.Plain(p)
    {
      assert Preparation.Plan(scene, requests[i]) == Some(ops[i]);
      LegalIsPlain(scene, p);
    }
  }

  lemma LegalIsPlain(scene: Preparation.Scene, p: Path)
    ensures Preparation.LegalPath(p) ==> KeyOrder.Plain(p)
    ensures forall hash :: Preparation.Readable(scene, p, hash) ==> Preparation.LegalPath(p)
    ensures Preparation.Available(scene.disk, p) ==> Preparation.LegalPath(p)
  {
    assert forall i | 0 <= i < |p| :: p[i] in p;
  }

  function Transaction(s: State, setting: Setting, ops: seq<Disk.Op>): Disk.Outcome
    requires Ready(s, setting, ops)
  {
    Disk.ApplyPatch(Worktree(s, setting), ops, setting.visible, setting.order, setting.list)
  }

  /** A failed transaction is returned as it is; only a failed finish resets the worktree. */
  function AfterTransaction(s: State, outcome: Disk.Outcome, purpose: string, fault: Fault): State {
    match outcome
    case Applied(d, changed) =>
      (match FinishPatch(s.(work := d.files), purpose, changed, fault)
       case Done(s1) => s1
       case Failed(s1) => ResetHard(s1, s1.head))
    case Undone(d) => s.(work := d.files)
    case Stranded(d) => s.(work := d.files)
  }

  /**
   A transaction on a synchronized session keeps the queue invariant, whatever fails, unless it can leave files
   changed or takes back all the work it is committed with.
   */
  lemma TransactionKeepsInvariant(s: State, setting: Setting, ops: seq<Disk.Op>, purpose: string, fault: Fault)
    requires Invariant(s) && s.mode != ReadOnly && Ready(s, setting, ops) && !Leftovers.Litters(ops)
    requires var outcome := Transaction(s, setting, ops);
             outcome.Applied? && s.mode == Review && outcome.disk.files != TreeOf(s, s.head) ==>
               !NetEmpty(s, outcome.disk.files)
    ensures Invariant(AfterTransaction(s, Transaction(s, setting, ops), purpose, fault))
  {
    hide Disk.Sane, Disk.Prepared, Disk.ApplyPatch, Disk.AllRooted, Undoing.DeepestFirst, Undoing.Walks, Disk.Exposed,
      KeyOrder.LastFirst, Leftovers.AllPlain, Leftovers.Litters, NetEmpty, FinishPatch, Struct, DiffOf;
    var outcome := Transaction(s, setting, ops);
    Leftovers.ChangedMeansLitters(Worktree(s, setting), ops, setting.visible, setting.order, setting.list);
    if outcome.Applied? {
      Simultaneous.ChangeIsReported(Worktree(s, setting), ops, setting.visible, setting.order, setting.list);
      PatchInvariant(s, outcome.disk.files, purpose, outcome.changed, fault);
    }
  }

  /** A call whose transaction fails keeps the queue invariant if and only if it leaves the files as they were. */
  lemma FailedCallKeepsInvariantIff(s: State, outcome: Disk.Outcome, purpose: string, fault: Fault)
    requires Invariant(s) && !outcome.Applied?
    ensures Invariant(AfterTransaction(s, outcome, purpose, fault)) <==> outcome.disk.files == s.work
  {
    hide Sound;
    var r := AfterTransaction(s, outcome, purpose, fault);
    assert TreeOf(r, r.head) == TreeOf(s, s.head);
    assert outcome.disk.files == s.work ==> r == s;
  }

  // What a stranded transaction leaves behind.

  /** However the device fails and whatever can be seen, a failed transaction leaves the files alone. */
  ghost predicate FailsTidily(s: State, setting: Setting, ops: seq<Disk.Op>) {
    forall other: Setting | Ready(s, other, ops) && other.dirs == setting.dirs ::
      Transaction(s, other, ops).Applied? || Transaction(s, other, ops).disk.files == s.work
  }

  /** A failure that strands the transaction with a changed file. */
  lemma StrandedWithFile(s: State, setting: Setting, ops: seq<Disk.Op>) returns (stranded: Setting, c: Path)
    requires Ready(s, setting, ops) && Leftovers.Litters(ops)
    ensures Ready(s, stranded, ops) && stranded == setting.(left := stranded.left)
    ensures var o := Transaction(s, stranded, ops); o.Stranded? && Get(o.disk.files, c) != Get(s.work, c)
  {
    hide Disk.Sane, Disk.Prepared, Disk.ApplyPatch, Disk.AllRooted, Undoing.DeepestFirst, Undoing.Walks,
      KeyOrder.LastFirst, Leftovers.AllPlain, Leftovers.Litters;
    var n: nat;
    n, c := Leftovers.LittersMeansChanged(Worktree(s, setting), ops, setting.visible, setting.order, setting.list);
    Exposure.AnyBudget(Worktree(s, setting), Some(n), ops);
    stranded := setting.(left := Some(n));
    assert Worktree(s, stranded) == Exposure.Budget(Worktree(s, setting), n);
  }

  /** The exact condition for every failure to leave the worktree as it was. */
  lemma FailsTidilyIff(s: State, setting: Setting, ops: seq<Disk.Op>)
    requires Ready(s, setting, ops)
    ensures FailsTidily(s, setting, ops) <==> !Leftovers.Litters(ops)
  {
    hide Disk.Sane, Disk.Prepared, Disk.ApplyPatch, Disk.AllRooted, Undoing.DeepestFirst, Undoing.Walks,
      KeyOrder.LastFirst, Leftovers.AllPlain, Leftovers.Litters;
    if Leftovers.Litters(ops) {
      var stranded, c := StrandedWithFile(s, setting, ops);
    } else {
      forall other: Setting | Ready(s, other, ops) && other.dirs == setting.dirs
        ensures Transaction(s, other, ops).Applied? || Transaction(s, other, ops).disk.files == s.work
      {
        Leftovers.ChangedMeansLitters(Worktree(s, other), ops, other.visible, other.order, other.list);
      }
    }
  }

  /** Off the reported paths a patch commits whatever the worktree held before it. */
  lemma OffReport(s: State, setting: Setting, ops: seq<Disk.Op>, p: Path)
    requires Ready(s, setting, ops) && Transaction(s, setting, ops).Applied?
    requires p !in Transaction(s, setting, ops).changed
    ensures p in PatchDiff(s, Transaction(s, setting, ops).disk.files) <==> Get(s.work, p) != Get(TreeOf(s, s.head), p)
  {
    hide Disk.Sane, Disk.Prepared, Disk.ApplyPatch, Disk.AllRooted, Undoing.DeepestFirst, Undoing.Walks,
      KeyOrder.LastFirst, Leftovers.AllPlain;
    var o := Transaction(s, setting, ops);
    Simultaneous.ChangeIsReported(Worktree(s, setting), ops, setting.visible, setting.order, setting.list);
    assert p !in DiffOf(s.work, o.disk.files);
    assert Get(o.disk.files, p) == Get(s.work, p);
  }

  /** A patch reports all that is committed with it exactly if the worktree was at HEAD off the reported paths. */
  lemma ReportIsCompleteIff(s: State, setting: Setting, ops: seq<Disk.Op>)
    requires Ready(s, setting, ops) && Transaction(s, setting, ops).Applied?
    ensures var o := Transaction(s, setting, ops);
            PatchDiff(s, o.disk.files).Keys <= o.changed <==>
              forall p | p !in o.changed :: Get(s.work, p) == Get(TreeOf(s, s.head), p)
  {
    hide Ready, Transaction, DiffOf;
    var o := Transaction(s, setting, ops);
    forall p | p !in o.changed
      ensures p in PatchDiff(s, o.disk.files) <==> Get(s.work, p) != Get(TreeOf(s, s.head), p)
    {
      OffReport(s, setting, ops, p);
    }
  }

  /**
   A call that can leave a changed file is returned without a reset when it does: whatever patch comes next
   commits the change as well, and reports it only if it claims that path itself.
   */
  lemma StrandedFileIsCommitted(s: State, setting: Setting, ops: seq<Disk.Op>, purpose: string, fault: Fault)
    returns (stranded: Setting, c: Path)
    requires Invariant(s) && Ready(s, setting, ops) && Leftovers.Litters(ops)
    ensures Ready(s, stranded, ops) && stranded == setting.(left := stranded.left)
    ensures Transaction(s, stranded, ops).Stranded?
    ensures var r := AfterTransaction(s, Transaction(s, stranded, ops), purpose, fault);
            && !Invariant(r)
            && forall next: Setting, more: seq<Disk.Op>
                 | Ready(r, next, more) && Transaction(r, next, more).Applied?
                   && c !in Transaction(r, next, more).changed ::
                 c in PatchDiff(r, Transaction(r, next, more).disk.files)
  {
    hide Disk.Sane, Disk.Prepared, Disk.ApplyPatch, Disk.AllRooted, Undoing.DeepestFirst, Undoing.Walks,
      KeyOrder.LastFirst, Leftovers.AllPlain, Leftovers.Litters, FinishPatch, Sound, DiffOf;
    stranded, c := StrandedWithFile(s, setting, ops);
    var r := AfterTransaction(s, Transaction(s, stranded, ops), purpose, fault);
    assert Get(r.work, c) != Get(TreeOf(r, r.head), c);
    forall next: Setting, more: seq<Disk.Op>
      | Ready(r, next, more) && Transaction(r, next, more).Applied? && c !in Transaction(r, next, more).changed
      ensures c in PatchDiff(r, Transaction(r, next, more).disk.files)
    {
      OffReport(r, next, more, c);
    }
  }
}
