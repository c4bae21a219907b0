# Verified model of the coding workspace

A Dafny model of how the coding faculty changes a user's repository: the review queue kept in a session
worktree, the patch transactions that feed it, the conflict resolver that repairs it, and the path tools
(globs, listings, path checks) the language model sees the workspace through.

Run `dafny verify dfyconfig.toml` in this directory to check everything.

## What is modelled

**The review-queue coordinator.** `ReviewSpec` is a state machine over the object store, the parent working
tree, the worktree with its HEAD, and the coordinator's own fields (`baseline`, `observed`, `mode`, `commits`,
`aliases`). `Coordinator.GitState` is the same machine as an object changed in place: loops over the queue,
the alias walk, the rebuild; each method is proved to take the state exactly where the specification says.
Commands are atomic. A `Fault` lets the snapshot, the reset, or the replay of any chosen item fail, in Apply,
Apply-all and Discard alike; resolver answers are arbitrary; the user may put any tree into the parent between
commands. `history` is a set of history variables that no operation reads: what was reported, applied,
discarded, lost or displayed, and, recorded where a commit is made, which commit it was picked or rebuilt from.

`Modes` tells, for every state and failure, what changes the mode and what each mode lets a patch do.

Git is concrete and works on whole files (`GitModel`): a tree maps paths to contents, a diff maps each changed
path to the content it expects and the content it leaves, `apply` succeeds exactly when every expected content
is there, and cherry-picking is a per-path three-way merge that fails on a conflict or an empty result. The
worktree may hold files that HEAD does not have (*stray* files): a hard reset leaves them where they are, a pick
is refused if it would write over one, and `git add -A` takes them along. The files of a resolution are written
one after the other into the directories there are, so a resolution can break off half-way. Commit names are
positions in the object store, so a new commit always has a new name; two real commits made in the same second
with the same content, parent and author would share one.

The theorems about whole runs speak of *guarded* runs: a run that never enters Write from Read-only over a
pending queue, never finishes a Review patch that takes back all the work it would be committed with, has no
Discard whose replay is cut short, and no synchronization in which a resolution breaks off after creating a file
that the tip lacks, unless a patch that reports the file commits it at once (`Runs.Guarded`, which has every
patch call report the paths it changes, as `PatchSession.ReportIsCompleteIff` proves of the transaction in a
worktree without stray files). These conditions can be checked before each command, given the resolver's
answers, and they are exact: `Guards.GuardedRunsIff` proves that the queue invariant, and a worktree equal to
HEAD's tree, hold all along a run if and only if the run is guarded. The queue invariant itself, `Queue.Sound`,
tolerates stray files off the queued paths, and synchronization keeps it without any condition
(`Operations.SyncSound`). Other faults and arbitrary resolver answers are allowed. *Good* states
(`Confluence.Good`) are synchronized states that satisfy the queue invariant; `Based.SynchronizedRunsAreGood`
says that guarded runs in which no control fails late reach them. `Witness` and `Pitfalls` hold runs from a
fresh session in which the conditions of this and other theorems fail.

**The patch transaction.** `Disk` is a file system with files and directories and a budget of effects after
which the device fails, so a failure can happen between any two effects, the link and the removal of a rename
included. `PatchTool.Workspace` is the tool as an object over it. A failed transaction is undone from the last
path of the snapshot map to the first, by the bytes of their texts (`KeyOrder`); what is proved in `Undoing` and
`Exposure` holds of any order. While a failure is undone the device is sound again. `PatchSession` puts
transaction and coordinator together. `Acceptance` and `Fulfilment` say from the requests alone which lists are
accepted and what an applied one has done.

**The rest.** `Text` and `Endings` (exact-count replacements, lines and their endings, conflict markers), `Hunk`
(the rendered diff of an update, as text), `Glob`, `Paths` and `Listing` (on bytes), `Unicode` and `Questions` (bytes
against characters), `Resolver` (the resolver's loop over an arbitrary sequence of model turns).

## Where the code does less than one might expect

* `Discards.BrokenDiscard`: a Discard whose replay is cut short drops the rest of the queue, reports nothing,
  and can leave HEAD on a commit that is in no queue, because unlike Apply it has no rollback. It keeps the
  queue invariant exactly if the replay is not cut short (`Discards.DiscardSoundIff`), and the account of the
  work exactly then or if the item was the only one (`Discards.DiscardBalancedIff`). `Witness.LosingDiscard`
  is such a run.
* `LateFailure.FailedApplyIsMisreported` and `LateFailure.FailedApplyAllIsMisreported`: a failed Apply is undone,
  but the undoing is reported as an external change afterwards, because `observed` stays on the patched tree.
  The ledger is in order all along a guarded run exactly if none fails there (`Accounts.GuardedRunsAccountedIff`).
* `Setbacks.EditAfterFailureIsUnseen`: if the user then makes the same change by hand, synchronization does not
  see it, and the queue stays based on a tree the parent has left. An Apply that fails from there reports work
  as lost that is back in the queue (`Setbacks.StaleFailureReportsPendingWork`). In guarded runs the work is
  accounted for all along exactly if, at every Apply by id, each item replayed before a break still has its
  place on the parent (`Setbacks.GuardedRunsBalancedIff`). `Witness.LosingApply` is a run where one has not.
* `Discards.CutSyncForgets`: a synchronization whose reset fails has taken the queue already and does not put it
  back; the next one starts over without it and reports nothing. Nothing is lost exactly if the queue was empty
  (`Discards.CutSyncSoundIff`, `Discards.CutSyncBalancedIff`).
* `Resolver.ResolvedItemIsKept`: resolved files are written without creating directories, and a removed path must
  be known to the index. Where this fails the item is lost although its resolution is complete and changes the
  tip. `Pitfalls.UnwritableIsLost` is such a run: the item changes a file whose directory the user deletes.
* `Tidiness.TurnStrays`: a resolution that breaks off leaves behind the files it has created and the tip lacks;
  the reset does not remove them. A synchronization leaves the worktree at the tip exactly if that does not happen
  (`Tidiness.SyncTidyIff`), no control removes such files later (`Tidiness.DispatchKeepsStrays`), and the next
  patch commits them unreported (`Pitfalls.StrayIsCommitted`).
* `Exposure`: preparation accepts a list that creates `a/b` and then `a`; a failure between the two cannot be
  undone. The exact condition is `Disk.Exposed`, which depends on the paths alone.
* `Leftovers`: such a call is returned without a reset, and some exposed lists leave changed files then. Undoing
  stops at the path that has become a directory, and what sorts before it is not undone. `PatchSession.FailsTidilyIff`
  has the exact condition, again on the operations alone: creating `0`, `a/b` and `a` can leave `0`, and creating
  `a/b` and `a` leaves nothing (`Leftovers.ThreeCreatesLeaveOne`, `Leftovers.NestedCreatesLeaveNothing`). What is
  left is committed by the next patch, which does not report it (`PatchSession.StrandedFileIsCommitted`).
* `Limits.WriteSurvivesIffQueueEmpty`: a Write patch made over a pending queue is taken back by the next
  Apply-all. `Limits.DetourKeepsQueue` is how a queue gets there, and `Pitfalls.WrittenAndLost` a run.
* `Limits.PatchKeepsQueueIff`: a Review patch keeps the queue invariant exactly if it does not take back all the
  work it is committed with. Otherwise it stays queued over what it overlaps, and if it depends on one item the
  ids of the items before that one, and only these, lead nowhere (`Limits.CancelledMergeStrandsNames`, and the
  run `Pitfalls.TakenBack`).
* `Limits.ResolutionDropsCleanFiles`: after a conflict, cleanly merged files of the same commit are dropped, as in
  the run `Pitfalls.CleanFileDropped`.
* The documentation says that application stops when conflict resolution changed a reviewed diff
  (docs/security.md:59-60). The code stops Apply-all and the switch to Write in every such state
  (`Halting.ChangedReviewStops`), and neither Apply nor Discard by id of an item that still has its place
  (`Halting.ChangedReviewGoesOn`, and the run `Witness.ChangedReviewIsApplied`). That this is safe all the same
  is `Shown.AppliesOnlyWhatWasShown`.
* `Questions.QuestionIsOneByte`: `?` is documented as one character and matches one byte. A pattern means the same
  on bytes as on characters, for every path, exactly if each `?` stands next to a star and has a literal between it
  and any other `?` (`Questions.MeansCharactersIff`); on ASCII paths all patterns do
  (`Questions.BytesMatchAsCharacters`).
* `Endings.SameLinesIff`: exactly the texts that differ in line endings alone are displayed as unchanged.
* `Resolver.UnchangedResolutionIff`: a conversation can get a resolution accepted that changes nothing exactly
  if no marker is in any conflicted file and there are at most eleven of them.

## Model

| member | source | states |
|---|---|---|
| GitModel.DiffApplies | crates/code/src/git.rs:1424-1437 | a printed diff applies to the old tree and yields exactly the new one |
| GitModel.ReverseRestores | crates/code/src/git.rs:925-953 | a patch that applied can always be applied in reverse to its result, and that restores the old tree exactly |
| GitModel.MergeIsPatch | crates/code/src/git.rs:1288-1297 | cherry-picking a commit conflicts exactly on the paths where neither its old nor its new content is there, and otherwise is patching with its diff |
| Coordinator.GitState.constructor | crates/code/src/git.rs:253-372 | a session starts Read-only with an empty queue and no aliases; the startup snapshot, which holds the parent's tree, is HEAD, baseline and observation, and the worktree holds its files |
| Coordinator.GitState.GitCherryPick | crates/code/src/git.rs:1288-1297 | a pick either adds one commit with the merged tree and leaves stray files where they are, or reports the conflicts, or is refused because a stray file is in the way; without a commit everything stays as it was |
| Coordinator.GitState.ApplyPatchToParent | crates/code/src/git.rs:925-938 | the parent is patched if every preimage is there, and untouched otherwise |
| Coordinator.GitState.ReversePatchOnParent | crates/code/src/git.rs:940-953 | the same in reverse |
| Coordinator.GitState.ReplayOnto | crates/code/src/git.rs:746-785 | the replay loop leaves the specified state, wherever it breaks off |
| Coordinator.GitState.ReplayItemWithResolver | crates/code/src/git.rs:482-557 | one item is picked and aliased, or resolved and requeued without an alias, or reported lost after a reset that leaves new files of a broken-off resolution behind; the result says whether the review changed |
| Coordinator.GitState.ApplyConflictResolution | crates/code/src/git.rs:1343-1405 | writes the files in order up to the first that holds a marker or has no place in the tree, and changes nothing but the worktree; it stages the resolution exactly when all are written and every removed path is known; it succeeds exactly when, spelled out, each conflicted path is there once, no content has a marker line, each file can go where it belongs, and the staged check passes |
| Coordinator.GitState.SyncWithResolver | crates/code/src/git.rs:408-445 | a synchronization leaves the specified state and says whether a queued commit changed, or, if its reset fails, leaves an empty queue on the old tip |
| Coordinator.GitState.ResolveAlias | crates/code/src/git.rs:989-999 | the loop ends, cyclic alias maps included, where the specified walk ends |
| Coordinator.GitState.AdoptParentAndReplay | crates/code/src/git.rs:1021-1026 | snapshot, observation and replay, with the failures of each |
| Coordinator.GitState.ApplyOne | crates/code/src/git.rs:955-975 | Apply by displayed id, its rollback included, leaves the specified state |
| Coordinator.GitState.DiscardOne | crates/code/src/git.rs:977-987 | Discard by displayed id leaves the specified state, wherever its replay breaks off |
| Coordinator.GitState.ApplyAll | crates/code/src/git.rs:1001-1019 | Apply-all, its rollback included, leaves the specified state |
| Coordinator.GitState.SetMode | crates/code/src/git.rs:1028-1037 | a finished change of mode arrives at its target, from Review in Write with an empty queue; one that fails leaves the mode; every change but that from Review to Write only sets the mode |
| Modes.SetModeArrives | crates/code/src/git.rs:1028-1037 | the same in every state and with any failure, as a fact about the specified machine |
| Modes.PressArrives | crates/code/src/git.rs:447-480 | the same for the control as a whole: unless a changed review stops it, the mode is the target when it has finished |
| Modes.OnlySetModeChangesMode | crates/code/src/git.rs:408-1037 | no command but a change of mode changes the mode, and then it is the one asked for |
| Modes.PatchByMode | crates/code/src/git.rs:559-632 | in every state: a patch call in Read-only does nothing beyond the synchronization and fails, in Review it leaves the parent alone, in Write the queue |
| Modes.PatchSucceedsIff | crates/code/src/git.rs:559-632 | exactly which patch calls succeed, by mode, change and failure |
| Modes.FinishRefused | crates/code/src/git.rs:568-571 | finishing in Read-only is refused and puts the files of HEAD back |
| Modes.EmptyQueueForgets | crates/code/src/git.rs:781-783 | a replay that ends with an empty queue leaves no alias |
| Modes.EmptySyncForgets | crates/code/src/git.rs:437-440 | and so does a synchronization |
| Modes.LoopInTurn | crates/code/src/git.rs:432-435 | the resolver loop takes the items one after the other, each with an answer of its own |
| Coordinator.GitState.HandleControlWithResolver | crates/code/src/git.rs:447-480 | a control synchronizes first, and a changed review stops what would apply the whole queue |
| Coordinator.GitState.MergeDependencyComponent | crates/code/src/git.rs:856-923 | the rebuild loop leaves the specified state, or puts the old queue and tip back |
| Coordinator.GitState.CollapseDependentCommits | crates/code/src/git.rs:787-854 | the three outcomes of the dependency test leave the specified states |
| Coordinator.GitState.FinishPatch | crates/code/src/git.rs:559-632 | finishing a patch in each mode leaves the specified state |
| Coordinator.GitState.FinishWrite | crates/code/src/git.rs:579-615 | automatic Write, its rollback included, leaves the specified state |
| Coordinator.GitState.Execute | crates/code/src/git.rs:408-632 | a whole command performs one step of the specified machine, and a guarded one keeps the queue invariant of the object and its worktree at HEAD |
| Runs.GuardedRunsAreSound | crates/code/src/git.rs:746-1038 | in every guarded run, failing Applies and Writes and resolver answers included: the queue is a chain of stored commits from the baseline, each with its own diff, non-empty and within its announced paths; the diffs touch pairwise disjoint paths; HEAD is at the tip and the worktree holds its files and no others; Write mode has no pending queue |
| Guards.StepInvariantIff | crates/code/src/git.rs:447-632 | a command keeps the queue invariant and a worktree without stray files if and only if it is guarded, as long as a patch call reports the paths it changes |
| Guards.GuardedRunsIff | crates/code/src/git.rs:408-1038 | from a fresh session both hold after every prefix of a run if and only if the run is guarded |
| Queue.ChainTree | crates/code/src/git.rs:746-785 | the tree of every queued commit is the baseline patched with the queued diffs up to it |
| Queue.AppliesAlone | crates/code/src/git.rs:792-800 | every queued diff applies to the baseline alone |
| Operations.SyncSound | crates/code/src/git.rs:408-445 | for every resolver answer, synchronization keeps the queue invariant (stray files off the queued paths allowed), leaves the parent alone and observes it; an unchanged parent changes nothing but the store |
| Tidiness.TurnStrays | crates/code/src/git.rs:520-549 | one turn of the resolver loop removes no stray file, and creates one exactly if its resolution breaks off after writing a file the tip lacks |
| Tidiness.SyncTidyIff | crates/code/src/git.rs:408-557 | a synchronization leaves the worktree at the tip if and only if no resolution in it breaks off so |
| Tidiness.DispatchKeepsStrays | crates/code/src/git.rs:955-1037 | no Apply, Discard or change of mode on a synchronized parent removes or adds a stray file |
| Operations.ReplayOntoClean | crates/code/src/git.rs:746-785 | replaying onto a tree with every preimage rebuilds the same work in the same order and loses nothing |
| Replay.ResolutionTouchesConflictsOnly | crates/code/src/git.rs:482-535 | a resolved commit differs from the tip on conflicted paths only, and these are paths of the original diff |
| Dependency.DependencyIsOverlap | crates/code/src/git.rs:1460-1533 | a new patch applies to the baseline exactly when it overlaps no queued diff, and after one queued diff exactly when it overlaps no other |
| Dependency.DependencyIsUnique | crates/code/src/git.rs:802-820 | the search finds a dependency exactly when there is one queued diff that alone overlaps the patch, and then there is only that one |
| Merging.RebuildSound | crates/code/src/git.rs:867-907 | the rebuild loop meets no failing apply and no empty commit, keeps the invariant, and rebuilds every other item with its work |
| Merging.BuildTreeIsTip | crates/code/src/git.rs:874-905 | the rebuilt tip tree is the old tip tree, wherever in the queue the patch is folded in |
| Merging.RebuildStops | crates/code/src/git.rs:892-921 | a patch that cancels its dependency makes the rebuild fail |
| Finishing.MergeOutcome | crates/code/src/git.rs:856-923 | merging succeeds exactly when the two patches leave a net change; the queue is then one shorter than with the patch, the absorbing item carries the net change, its own purposes followed by the new one and both path sets, all others keep theirs, the tip tree is the patched tree and the invariant holds; after a failure the queue is the old one with the patch at its end, and HEAD and worktree are at its tip |
| Finishing.CollapseAllOutcome | crates/code/src/git.rs:822-853 | the full collapse succeeds exactly when the patched tree differs from the baseline; one commit then carries the whole difference, all purposes in queue order with the new one last, and exactly the announced paths; a failure leaves queue and worktree alone and HEAD at the baseline |
| Finishing.NetPathsCovered | crates/code/src/git.rs:830-852 | what the whole queue changes lies within the paths its items announced |
| Finishing.ReviewFinish | crates/code/src/git.rs:617-631 | a Review patch is finished exactly when it does not take back all the work it is committed with, and then the queue is sound with the patched tree at its tip |
| Finishing.WriteFinish | crates/code/src/git.rs:579-615 | a Write patch is on the parent in full, with baseline and observation on the new parent, or not at all, with baseline, observation and history unchanged; it succeeds exactly when it applies and nothing fails late |
| Confluence.AnyOrder | docs/security.md:53-54 | from a good state, applying and discarding queued items by displayed ids, each at most once and in any order, loses no other item, leaves the undecided items in order, and puts exactly the applied diffs on the parent |
| Orders.EveryOrderIsApplyAll | crates/code/src/git.rs:955-1019 | applying the whole queue one by one in any order ends in the same parent tree as Apply-all, with an empty queue |
| Orders.DiscardThenApplyAll | crates/code/src/git.rs:977-1019 | discarding any items first, in any order, makes Apply-all apply the remaining ones alone |
| Based.SynchronizedRunsAreGood | crates/code/src/git.rs:408-445 | after every guarded run in which no control fails late, synchronization leaves a state from which the confluence theorems hold |
| Ledger.RunsAreAccounted | crates/code/src/git.rs:417-443 | over every run in which no control fails late: the reported external diffs and the own patches, in order, lead from the startup snapshot exactly to the observed tree, the real edits and the own patches to the parent, and after each command other than an edit the two agree |
| Accounts.DispatchLedgerIff | crates/code/src/git.rs:955-1037 | from a synchronized state a control keeps reports and own patches leading to the observed tree if and only if it does not fail behind the snapshot of an Apply |
| Accounts.GuardedRunsAccountedIff | crates/code/src/git.rs:417-443 | in a guarded run, failures included, this holds after every command if and only if no Apply, Apply-all or change from Review to Write fails behind its snapshot |
| Discards.BrokenDiscard | crates/code/src/git.rs:977-987 | a Discard whose replay is cut short keeps only the items before the break, leaves HEAD off the tip, and reports none of the others lost |
| Discards.DiscardSoundIff | crates/code/src/git.rs:977-987 | Discard keeps the queue invariant if and only if its replay is not cut short |
| Discards.DiscardBalancedIff | crates/code/src/git.rs:977-987 | Discard keeps every purpose accounted for if and only if its replay is not cut short or the item was the only one |
| Discards.CutSyncSoundIff | crates/code/src/git.rs:424-430 | a synchronization whose reset fails keeps the queue invariant if and only if the queue was empty |
| Discards.CutSyncBalancedIff | crates/code/src/git.rs:424-430 | and every purpose accounted for in the same case only |
| Discards.CutSyncForgets | crates/code/src/git.rs:408-445 | the synchronization after it ends in a sound session with an empty queue and reports no item lost |
| Witness.LosingDiscard | crates/code/src/git.rs:977-987 | from a fresh session: three queued items, and a Discard cut short anywhere leaves others neither queued nor reported |
| Announced.RunsArePurposeful | crates/code/src/git.rs:617-631 | in every run, whatever fails, each queued item announces at least one purpose |
| Conservation.RunsAreBalanced | crates/code/src/git.rs:482-557 | over every run in which no control fails late, guarded or not: counted with multiplicity, every purpose committed for review is pending, applied, discarded by the user or reported lost, and in one of these places only |
| Losses.PicksIff | crates/code/src/git.rs:1288-1297 | a queued commit is picked cleanly exactly when nothing is in the way of its diff, stray files included, and something of it is not there yet |
| Losses.LostAtTip | crates/code/src/git.rs:766-780 | for every state: an item that a replay loses is reported, and leaves the queue, the names and the files Git does not know of alone, with HEAD and the other files at the tip |
| Losses.ReplayAllLost | crates/code/src/git.rs:746-785 | replaying a queue reports exactly the items, in order, that have no such place on the tree it starts from |
| Setbacks.FailedApplyReports | crates/code/src/git.rs:955-975 | a failed Apply by id puts the whole queue back, and reports as lost exactly those of the items it got to that have no place on the parent |
| Setbacks.ApplyOneBalancedIff | crates/code/src/git.rs:955-975 | an Apply by id, finished or failed, keeps every purpose accounted for if and only if each item replayed before the break has its place on the parent |
| Setbacks.GuardedRunsBalancedIff | crates/code/src/git.rs:955-1019 | in a guarded run, failures included, every purpose is accounted for after every command if and only if this holds at every Apply by id |
| Setbacks.GuardedRunsAreBalanced | crates/code/src/git.rs:955-1019 | so in guarded runs with failures that meet the condition every purpose is pending, applied, discarded or reported lost, once |
| Setbacks.BasedIsSteady | crates/code/src/git.rs:955-975 | the condition holds while the parent is the tree the queue is based on |
| Setbacks.EditAfterFailureIsUnseen | crates/code/src/git.rs:1021-1026 | after an Apply by id that fails anywhere behind the snapshot, the user making the same change by hand is not noticed by synchronization: the queue stays based on a tree the parent has left |
| Setbacks.StaleFailureReportsPendingWork | crates/code/src/git.rs:967-973 | from such a state, for any queue and any break, a failing Apply of another item puts the queue back in full and reports the item made by hand as lost exactly if the break is behind it |
| Witness.LosingApply | crates/code/src/git.rs:955-1026 | a guarded run from a fresh session that ends with a purpose both pending and reported lost |
| Names.WalkStops | crates/code/src/git.rs:989-999 | on any alias map the walk ends at a name without an alias or on a cycle it has gone round once |
| NameTheorems.NamesFindDescendants | crates/code/src/git.rs:955-961 | at the end of every guarded run an id resolves to a queued commit exactly when that commit was made from it by clean picks and unmerged rebuilds, as recorded where commits are made; such an id was displayed, and finds the displayed purposes and no change that was not displayed |
| Carrying.SyncCarries | crates/code/src/git.rs:482-501 | an id that finds a queued item finds, after a synchronization that picks the item cleanly, the commit made from it |
| Carrying.MergeCarries | crates/code/src/git.rs:867-907 | merging a patch into one item leaves every id of the other items finding the commit rebuilt from its item |
| Shown.AppliesOnlyWhatWasShown | crates/code/src/git.rs:447-480 | in every guarded run, Apply on a displayed id changes the parent only on paths of the displayed diff, from the old content it showed to the new content it showed, whatever is synchronized, resolved or fails meanwhile |
| Shown.AppliesOnlyTheQueueShown | crates/code/src/git.rs:452-463 | Apply-all and Review-to-Write change the parent only as the queue displayed before the command said |
| Halting.PickedIff | crates/code/src/git.rs:482-557 | an item is picked cleanly in a synchronization exactly when it has its place on the new parent, whatever becomes of the items before it |
| Halting.SyncChangedIff | crates/code/src/git.rs:482-557 | synchronization reports a changed review exactly when the parent has moved and some queued item has no place on it, whatever the resolver answers |
| Halting.ChangedReviewStops | crates/code/src/git.rs:447-463 | in every such state Apply-all and the switch to Write stop after the synchronization, and other mode changes go on |
| Halting.ChangedReviewGoesOn | docs/security.md:59-60 | in every such state Apply by id puts an item that still has its place on the parent, with no change it did not have before, and Discard by id drops it; the others of the new queue stay |
| Witness.ChangedReviewIsApplied | docs/security.md:59-60 | from a fresh session: an edit changes the review, Apply-all leaves the parent alone, and Apply by id patches it |
| LateFailure.FailureIsUndone | crates/code/src/git.rs:963-973 | a late failure restores parent and baseline exactly and rebuilds the queue with the same work in the same order; only the observation stays on the patched tree unless the snapshot failed |
| LateFailure.FailedApplyIsUndone | crates/code/src/git.rs:955-975 | the same for Apply by id, with nothing reported lost while the parent is the tree the queue is based on |
| LateFailure.FailedApplyAllIsUndone | crates/code/src/git.rs:1001-1019 | the same for Apply-all, with nothing reported lost in any case |
| LateFailure.FailedApplyIsMisreported | crates/code/src/git.rs:1024 | a failed Apply by id is followed by a report of its own undoing as an external change, exactly when it failed after the snapshot |
| LateFailure.FailedApplyAllIsMisreported | crates/code/src/git.rs:1001-1037 | the same for Apply-all and for the change from Review to Write |
| Operations.RollbackRestores | crates/code/src/git.rs:940-953 | the reverse check of a rollback always succeeds, and parent, baseline and a queue that matches the baseline come back |
| Limits.DetourKeepsQueue | crates/code/src/git.rs:1028-1037 | Review to Write empties the queue; by way of Read-only the same change keeps it |
| Limits.WriteSurvivesIffQueueEmpty | crates/code/src/git.rs:589-611 | a Write patch survives the next Apply-all exactly when the queue was empty; otherwise every path of it is put back |
| Limits.PatchKeepsQueueIff | crates/code/src/git.rs:787-854 | a Review patch call, its closing reset included, leaves a sound queue if and only if the patch does not take back all the work it is committed with, be it one item or the whole queue |
| Limits.CancelledMergeStrandsNames | crates/code/src/git.rs:892-921 | a patch that cancels the item it depends on fails and stays in the queue; the id of a queued item then finds it if and only if the item does not come before that one, and the ids of those before it find nothing |
| Limits.ResolutionDropsCleanFiles | crates/code/src/git.rs:502-535 | in the tree a resolution commits, a path of the original diff outside the conflict has the new content only if the tip already had it |
| Pitfalls.UnwritableIsLost | crates/code/src/git.rs:1365-1380 | from a fresh session: a resolution that differs from the tip loses its item because the directory of the file is gone |
| Pitfalls.StrayIsCommitted | crates/code/src/git.rs:536-549 | from a fresh session: a resolution breaks off after creating a file, the item is lost, the file stays, and the next patch is queued with a change it does not announce |
| Pitfalls.TakenBack | crates/code/src/git.rs:892-921 | from a fresh session: three items, and a patch taking back the second stays queued while the id of the first finds nothing |
| Pitfalls.WrittenAndLost | crates/code/src/git.rs:589-611 | from a fresh session: a file that a Write patch over three items put on the parent is gone after Apply-all |
| Pitfalls.CleanFileDropped | crates/code/src/git.rs:502-535 | from a fresh session: an item with two changes comes out of a resolution of one of them without the other, and nothing is reported lost |
| Text.CountIsLargest | crates/code/src/patch.rs:340 | no set of disjoint occurrences is larger than the counted matches |
| Text.CountIsReached | crates/code/src/patch.rs:340 | the counted matches are reached by disjoint occurrences |
| Text.ReplaceRejoins | crates/code/src/patch.rs:347 | the result of a replacement is the text cut at the counted matches and rejoined with the new text |
| Text.PiecesAreLeftmost | crates/code/src/patch.rs:347 | the cuts are the leftmost ones |
| Text.EditLength | crates/code/src/patch.rs:336-348 | over the whole list the length changes by the sum of expected count times (new length minus old length) |
| Text.EditIff | crates/code/src/patch.rs:329-350 | an edit leads from one text to another exactly if there are stages in between, each the one before with all matches replaced and their number as announced |
| Text.ApplyReplacements | crates/code/src/patch.rs:329-350 | the loop computes the specified edit, which succeeds exactly if each replacement finds its announced, non-zero number of matches when its turn comes and the result holds no NUL; the length law holds of the result |
| Preparation.PreparePatch | crates/code/src/patch.rs:133-205 | a request list becomes a transaction exactly when it is acceptable; every preimage is then the content of its file, every new path is free and no path is claimed twice |
| Acceptance.AcceptableIff | crates/code/src/patch.rs:128-206 | spelled out: 1 to 32 requests, a purpose that is not blank, no path claimed twice up to ASCII case, and each request with ordinary paths, vacant where new, visible, free of NUL and with the announced hash where not, and with replacements that can be carried out |
| Acceptance.FoldIff | crates/code/src/patch.rs:301-306 | two paths are claimed alike exactly if they differ in the case of ASCII letters alone |
| Fulfilment.PlannedFulfils | crates/code/src/patch.rs:133-205 | carried out together, the planned operations meet every request and touch no other path |
| Fulfilment.FulfilledOnce | crates/code/src/patch.rs:133-205 | only one tree meets the requests of an accepted list and changes nothing else |
| Preparation.ClaimRequest | crates/code/src/patch.rs:301-306 | claiming succeeds exactly when no claimed path repeats an earlier one up to ASCII case |
| Preparation.PlannedIsPrepared | crates/code/src/patch.rs:133-205 | what preparation accepts meets all that the transaction relies on |
| Atomicity.ForwardRuns | crates/code/src/patch.rs:220-270 | the forward pass, stopped by any failure, has changed files only on claimed paths and created only missing directories above new paths; complete, it has carried out every operation and every result is visible |
| Undoing.SnapshotsArePreimages | crates/code/src/patch.rs:446-464 | the snapshot map has exactly the claimed paths, with their contents before the transaction |
| Undoing.RollbackRestores | crates/code/src/patch.rs:506-521 | rollback, in any order of the map, meets no unsafe target and restores every file, unless a new path has become a directory |
| Undoing.RemoveDirsWorks | crates/code/src/patch.rs:491-504 | deepest first, every directory removal meets an empty directory, and exactly the created directories go |
| Undoing.RemoveDirsIff | crates/code/src/patch.rs:491-504 | for any list in any order: all directories are removed exactly if, when its turn comes, each that is still there has nothing left below it and none of the others is a file; then just the listed ones are gone |
| Undoing.AtomicOrExposed | crates/code/src/patch.rs:207-218 | with any failure at any point, any visibility rule and any order of undoing, a prepared transaction takes effect in full, or leaves files and directories exactly as they were, or is exposed |
| Exposure.UndoableIffNotExposed | crates/code/src/patch.rs:207-218 | every failure of a prepared transaction can be undone if and only if no operation claims a directory of an earlier one that can be carried out |
| Exposure.NestedCreatesAreExposed | crates/code/src/patch.rs:301-306 | creating a/b and then a passes preparation and is exposed |
| KeyOrder.AboveIsBefore | crates/code/src/patch.rs:506-507 | a path sorts before all paths below it, so undoing meets it after them |
| KeyOrder.BeforeOnce | crates/code/src/patch.rs:446-464 | of two validated paths only one sorts before the other |
| Leftovers.ChangedMeansLitters | crates/code/src/patch.rs:207-218 | a failure that leaves a file changed implies the condition on the operations: one claims a directory of an earlier one, and another that can be carried out changes a path sorting before that directory |
| Leftovers.LittersMeansChanged | crates/code/src/patch.rs:207-218 | under that condition a device failure exists after which undoing stops with a changed file |
| Leftovers.NestedCreatesLeaveNothing | crates/code/src/patch.rs:506-521 | creating a/b and then a is exposed and does not meet the condition |
| Leftovers.ThreeCreatesLeaveOne | crates/code/src/patch.rs:506-521 | creating 0, a/b and a passes preparation and meets it |
| Simultaneous.SucceedsExactly | crates/code/src/patch.rs:220-270 | without a failure a prepared transaction succeeds exactly when no new path lies above another and all results are visible; the result is all effects written over the tree at once, with the missing directories added |
| Simultaneous.OrderDoesNotShow | crates/code/src/patch.rs:220-270 | every permutation of a prepared list is prepared; both succeed or neither does, and both leave the same files and directories and report the same paths |
| Simultaneous.ChangeIsReported | crates/code/src/patch.rs:224-269 | the tree changes only on reported paths |
| PatchTool.Workspace.AtomicCreate | crates/code/src/patch.rs:549-555 | sets the file and no other, and only where no file or directory was, after creating the directories above it and no others; without a device failure it succeeds exactly if the name is free and no file is above it; a failure leaves all files alone |
| PatchTool.Workspace.AtomicReplace | crates/code/src/patch.rs:557-564 | sets the file and no other, after creating the directories above it and no others; without a device failure it succeeds exactly if no directory has the name and no file is above it; a failure leaves all files alone |
| PatchTool.Workspace.Move | crates/code/src/patch.rs:237-252 | gives the file its new name and removes the old one; without a device failure it succeeds exactly if the old name is a file, the new one is free and no file is above it; a failure leaves the files alone or the content under both names |
| PatchTool.Workspace.ApplyPatchInner | crates/code/src/patch.rs:220-270 | the two loops leave the specified disk and report exactly the claimed paths |
| PatchTool.Workspace.CreatedDirectories | crates/code/src/patch.rs:466-489 | walking up from every new path finds exactly the missing directories, and lists them deepest first |
| PatchTool.Workspace.RemoveCreatedDirectories | crates/code/src/patch.rs:491-504 | the loop skips what is gone and stops at a directory that is not empty; it goes through exactly if, spelled out, every listed directory is empty or gone when its turn comes, and then just these are gone |
| PatchTool.Workspace.RollbackFiles | crates/code/src/patch.rs:506-521 | the loop walks the whole snapshot map from its last path to its first, restoring each path and stopping at a directory |
| PatchTool.Workspace.TakeSnapshots | crates/code/src/patch.rs:446-464 | the loop collects the specified snapshots |
| PatchTool.Workspace.Patch | crates/code/src/patch.rs:95-96 | a request list is refused, spelled out, exactly when it is not acceptable, and then nothing is written; applied, a created path holds the requested content, an updated one its old content with the replacements made, a deleted one and a rename's source are gone, a rename's target holds the source's old content, every result is visible, just these paths are reported and all others are as before; undone, everything is as before; without a device failure it is applied exactly if no new path lies below another and every result is visible |
| PatchTool.Workspace.ApplyPatch | crates/code/src/patch.rs:207-218 | the tool ends applied in full, undone exactly, or stranded; it is stranded only if exposed, and with changed files only if an operation changes a path that sorts before the directory at which undoing stops; without a device failure it is undone only for nested new paths or an invisible result |
| PatchSession.TransactionKeepsInvariant | crates/code/src/patch.rs:83-110 | one patch call on a synchronized session keeps the queue invariant, whatever fails, unless its list can leave changed files or takes back all the work it is committed with |
| PatchSession.PlannedIsPlain | crates/code/src/patch.rs:133-205 | the paths of an accepted request list hold no slash in their names, as the condition takes for granted |
| PatchSession.FailedCallKeepsInvariantIff | crates/code/src/patch.rs:95-101 | a call whose transaction fails keeps the queue invariant if and only if it leaves the files as they were |
| PatchSession.FailsTidilyIff | crates/code/src/patch.rs:83-110 | every failure of a call leaves the worktree as it was if and only if no operation that can be carried out changes a path sorting before the directory that exposes the list |
| PatchSession.ReportIsCompleteIff | crates/code/src/patch.rs:224-269 | what is committed for a patch lies within its reported paths if and only if the worktree held HEAD's files off these paths before the call |
| PatchSession.StrandedFileIsCommitted | crates/code/src/patch.rs:95-101 | for every list that fails this condition there is a device failure that leaves a changed path, and every later patch that does not claim the path commits the change unreported |
| Hunk.CommonEnds | crates/code/src/patch.rs:409-419 | the loops find the longest common prefix and, beyond it, the longest common suffix |
| Hunk.RenderChangedLines | crates/code/src/patch.rs:403-444 | the rendered text reads back as a hunk that turns the old lines into the new ones at its header position and back again when reversed, whose header counts are those of its body, whose change starts at the first difference and is as short as possible, with three lines of context on either side or all there are, and that shows a change exactly when the texts differ in more than line endings |
| Hunk.HunkReadsBack | crates/code/src/patch.rs:425-443 | reading the text of a hunk of single lines gives the hunk back, header numbers included |
| Hunk.HunkDescribes | crates/code/src/patch.rs:425-443 | a hunk built around a changed stretch leads from either text to the other |
| Endings.LinesOfSpelling | crates/code/src/patch.rs:404-407 | whatever endings a list of lines is written with, the text has these lines |
| Endings.SpelledAsLines | crates/code/src/patch.rs:404-407 | every text is such a spelling of its lines |
| Endings.SameLinesIff | crates/code/src/patch.rs:404-407 | two texts have the same lines exactly when they differ in nothing but line endings |
| Glob.TokensSpellPattern | crates/code/src/workspace.rs:570-594 | printing the tokens of a pattern gives the pattern back, and there are no more tokens than bytes |
| Glob.CanonicalReadsBack | crates/code/src/workspace.rs:570-594 | a token list with no special literal and no star directly after a single star is exactly what the tokenizer reads from its print |
| Glob.TokenizeGlob | crates/code/src/workspace.rs:570-594 | the tokenizer loop computes these tokens |
| Glob.GlobMatches | crates/code/src/workspace.rs:599-626 | the rolling rows decide whether the subject can be cut into one piece per token, in at most pattern length times (candidate length + 1) cell updates |
| Glob.SegmentBySegment | crates/code/src/workspace.rs:599-626 | a pattern without a double star matches a path exactly when both split into equally many segments that match pairwise |
| Glob.GlobBySegments | crates/code/src/workspace.rs:600-604 | a pattern without a slash, double stars included, matches against the last segment; one with slashes and without a double star matches segment by segment |
| Questions.QuestionIsOneByte | crates/code/src/workspace.rs:565 | a question mark matches exactly the characters other than a slash that are one byte long, so it agrees with its description if and only if the character is ASCII |
| Questions.BytesMatchAsCharacters | crates/code/src/workspace.rs:599-626 | on an ASCII path, on a pattern without a question mark, and on one whose question marks each stand next to a star with a literal between any two, matching bytes gives the answer of matching characters |
| Questions.MeansCharactersIff | crates/code/src/workspace.rs:559-626 | a pattern gives the same answer on the bytes of every path as on its characters if and only if each of its question marks stands next to a star and has a literal between it and any other |
| Paths.ValidateRelativePath | crates/code/src/workspace.rs:512-541 | a path is accepted exactly when every segment between slashes is a name other than empty, `.`, `..`, `.git` and those that start with `.nuillu-code-` and end with `.tmp`, all spelled out |
| Paths.ContainsIsPrefix | crates/code/src/workspace.rs:550-557 | a legal scope contains a path exactly when its segments are the first segments of the path |
| Paths.ScopeTrimmed | crates/code/src/workspace.rs:550-557 | slashes at the end of a scope change nothing |
| Listing.SplitNulPaths | crates/code/src/workspace.rs:628-638 | the pieces between NUL bytes, all of them legal paths, or no result |
| Listing.PieceIff | crates/code/src/workspace.rs:628-632 | the pieces are exactly the runs without a NUL byte that cannot be made longer, an unfinished last one included, and never an empty one |
| Listing.FittingIsLargest | crates/code/src/workspace.rs:108-121 | the number of paths that fit is the largest whose stream is within the limit |
| Listing.LeqIff | crates/code/src/workspace.rs:253 | the order of a listing: one path is the beginning of the other, or the first different byte is smaller |
| Listing.DecodedIsPrefix | crates/code/src/workspace.rs:108-121 | for every path stream and limit, decoding the cut and trimmed bytes yields the longest prefix of the list that fits, never a cut path, and truncation is reported exactly when a path is missing or the error output was cut |
| Listing.FileBytesKept | crates/code/src/workspace.rs:241-245 | on any output: all of it is decoded if nothing was cut, else all up to the last NUL byte within the limit |
| Listing.VisibleFiles | crates/code/src/workspace.rs:224-257 | on any output of the lister: the list is sorted, has as many paths as its limit allows, holds only paths read whole that lie in the given scope and match the given pattern, each as often as it was read unless the list stops at its limit, leaves out none that sorts before one it holds, and says it was truncated exactly when output, error output or paths were cut off; one illegal path and there is no list |
| Resolver.Resolve | crates/code/src/faculty.rs:89-235 | for every sequence of turns the loop makes at most 12 calls and returns a list exactly when one of these turns is a finish after allowed turns only, with every path written free of markers at some point and free of them now; the list has each conflicted path once, with its captured content changed by the write turns on that path in order |
| Resolver.FinishesIff | crates/code/src/faculty.rs:104-233 | the finish check, told path by path from the turns |
| Resolver.ResultIsAcceptable | crates/code/src/git.rs:1343-1377 | such a result always passes the path-set and marker checks |
| Resolver.ResolvedItemIsKept | crates/code/src/git.rs:520-549 | with such a result that passes the staged check the coordinator requeues the item, on the tip with the resolved files, if and only if the resolution changes the tip and each file can be put in its place; otherwise the item is reported lost |
| Resolver.KeptIff | crates/code/src/git.rs:502-549 | for every state, item and answer: after a conflict the item is requeued exactly when the answer has each conflicted path once, no content has a marker line, each file can go where it belongs, the staged check passed and the tree changes; otherwise it is reported lost and the queue is unchanged |
| Resolver.ZeroReplacementCountsAsWritten | crates/code/src/faculty.rs:155-193 | a write that expects and replaces nothing counts as writing the path if and only if no marker is in it |
| Resolver.UnchangedResolutionIff | crates/code/src/faculty.rs:104-233 | some conversation ends in an accepted resolution with every file, present or missing, as captured, if and only if no marker is in any of them and there are at most eleven |

## Left out

* Process spawning, executable identity checks, environments, locks, timeouts, start-up validation, stale worktree cleanup, cleanup on exit, and the checks that the branch and the repository state are unchanged: each command body is one atomic step on a valid repository.
* Hunk-level merging, modes, binary deltas, rename detection, directory/file conflicts inside a tree, and author and committer data: diffs and merges work on whole files.
* Git's search for a committer: `replay_onto` picks without naming one (crates/code/src/git.rs:750-754) under a cleared environment. Where Git can neither find nor detect an identity every such pick fails, so that each Apply and each Discard by id reports all other items lost; the model, `Confluence.AnyOrder` included, has an identity there.
* Empty directories of the session worktree, which `git` does not track: a directory exists as long as HEAD or the worktree has a file in it. Files that ignore rules hide from `git add`.
* The non-resolver `sync_from_parent` and `handle_control` (crates/code/src/git.rs:389-406, crates/code/src/git.rs:634-650): the same operations with `replay_onto` in place of the resolver loop; Apply, Discard and rollback use `replay_onto` and are modelled.
* Purposes are lists of the original purposes; the code joins them with "; " into one text.
* `capture_conflict` (crates/code/src/git.rs:1299-1341), its size limits and the check of conflict paths: a failed capture is a missing answer. The verdict of `git diff --cached --check` is part of the resolver's answer, chosen arbitrarily.
* The rendered diff that replaces `git show` output should `git show` fail (crates/code/src/git.rs:577-578).
* Symbolic links, temporary transaction files, the 16 MiB limit on files, and UTF-8 validation: files are text, links do not exist, and a transaction file comes and goes within one effect.
* SHA-256 is an arbitrary function in `Preparation`; visibility is an arbitrary predicate on the tree and the path.
* Failures while a failure is being undone: a second failure inside the rollback of an Apply (crates/code/src/git.rs:967-973) or of a transaction; and races between user edits and a command in flight.
* `render_diff` apart from updates, and its 256 KiB display limit (crates/code/src/patch.rs:352-401).
* Ripgrep itself, the JSON search results, `search` and `read`, and the `.gitignore` probe; `validate_glob` is one condition on the pattern's text.
* The language-model session, prompts, memos, tool budgets and the user interface; the resolver's turns are an arbitrary sequence.
- Coordinator.GitState.SyncWithResolver: the commands of a run use it with a reset that succeeds; Discards.CutSyncSoundIff and Discards.CutSyncBalancedIff have the exact conditions for one that fails (crates/code/src/git.rs:424-430).
- Ledger.RunsAreAccounted: leaves out controls that fail late, for which Accounts.GuardedRunsAccountedIff has the exact condition.
- Conservation.RunsAreBalanced: leaves out late failures, for which Setbacks.GuardedRunsBalancedIff and Discards.DiscardBalancedIff have the exact conditions.
- Operations.RollbackRestores: does not model a replay that itself breaks off while a failed Apply is being undone (crates/code/src/git.rs:971-973), which would drop the rest of the saved queue as a broken Discard does.
- Guards.GuardedRunsIff: a run has no command for a patch call whose transaction fails and is returned without a reset (crates/code/src/patch.rs:95-96). One that is undone does what a synchronization does; for one that is stranded PatchSession.FailedCallKeepsInvariantIff and PatchSession.FailsTidilyIff have the exact conditions.
- Runs.GuardedRunsAreSound: leaves out the commands that Guards.StepInvariantIff proves never to keep the invariant, among them a Discard whose replay is cut short.
- Setbacks.GuardedRunsAreBalanced: asks of every Apply by id that what it replays before a break has its place on the parent, because otherwise work is reported lost that is not (Setbacks.GuardedRunsBalancedIff).
