# Format reconciliation: a Dafny model

This project models how the format service keeps the derivative files of one book in step with its
canonical file on a remote server, and proves what that protocol keeps. `dafny verify dfyconfig.toml`
checks all of it.

## What is modelled

**Replacement protocol.** `Checkpoints` holds the durable rows of a book (the book row, the derivative
rows, the upload intents) and each store method as one atomic transition. `World` joins them to the
server's listing and to an environment: a script says how every request, store call, conversion and
local check ends (done, failed without effect, failed after taking effect, or the process dies) and
what somebody else does to the book just before. A crash freezes all effects until `Restart`; only the
rows and the server survive it. `Recovery`, `Upload`, `Derivative`, `Loop`, `Cleanup` and `Reconcile`
are the methods of `reconcile/service.go` over that world, up to `Sync`. `Sync` and `createMissingMain`
share the derivative loop; they differ in their inputs and in one line of the adoption branch, which is
kept and proved unobservable (`Loop.CopiesFollowCommit`). `Runs` puts any number of runs, faults,
crashes and restarts together; `Interruption` follows one run from an empty store to a chosen point.

**Polling.** `Polls` has the poll rows and their store methods, `Poller` one book's part in a scan
around the real `Sync`, `Backoff` the retry delay.

**Lock and limiter.** `BookLock` is the step machine of the limiter and the reference-counted lock
objects, one step for each thing the code does atomically.

**Pieces the protocol leans on.** `ArtifactName` (the sanitizer), `Inventory` (the ways two listings are
compared), `Planner` (library policy and plans), `TagMutation` (the lock-aware tag write).

Each imperative method is proved against its contract; the contract speaks of four kinds of environment:

- any script at all: `World.OK` stays true. It says that the rows have one unambiguous owner
  (`Checkpoints.RowsOK`) and that the ghost history is sound (`World.HistoryOK`). The history is written
  by the world itself: the orders of every run, what the latest run has seen, each listing that showed
  a run its replacement tag, and for each preparation, upload, delete, commit and tag removal the run,
  the data and the rows it happened under, for a delete also the formats of the files that vanished;
- `Steady`, nobody else touches the book, while anything may fail or die: what is owed stays
  recoverable, completed work stays done, a completed run has converged;
- `Quiet`, nothing fails either: what is owed gets finished;
- a book that is `Settled`: nothing is uploaded or deleted any more.

`Reconcile.Promised` collects the last three for one `Sync`, as a relation between the states before
and after it.

## Findings

- A run that finds a cleanup pending reports `completed` without looking at the outputs
  (service.go:440-447, 1446-1470). While nobody interferes and the policy stays, that is as good as any
  completion: a pending marker then means that every output was dealt with (`Runs.ConvergeWhenever`). With
  a third party it is not: the book is settled afterwards exactly when every output was current before
  (`Reconcile.CleanupSettles`). `Interruption.CleanupMissesRemoval` is such a history from an empty store:
  a run replaces a file and dies once its cleanup marker is durable, somebody removes the committed
  file, and the next run, in which nothing fails, reports completion over a missing output;
  `Poller.CleanupThenSilence` shows that the scheduler marks the book current and does not look again
  while the observation stays the same.
- The value of a saved generation fingerprint never decides a plan, only its presence and shape do:
  the rule for legacy fingerprints (service.go:2051-2052, 2113-2119) accepts every text of the version
  and 64 hex digits, and so all that the service itself writes (`Planner.FingerprintValueDoesNotDecide`).
- The branch for an owner without an intent (service.go:628-636, 981-989) cannot be reached, because
  the owner is the format of some intent.

## Model

| member | source | states |
|---|---|---|
| `Checkpoints.PrepareOK` | converter/internal/state/state.go:497-534 | recording intent, target and phase together leaves exactly that format as the owner |
| `Checkpoints.CommitOK` | converter/internal/state/state.go:544-587 | a commit of the owner, or of any format when there is none, leaves nobody owning a phase |
| `Checkpoints.ReplacementOwner` | converter/internal/reconcile/service.go:1267-1295 | when it answers, and exactly when it must refuse: two prepared intents, or none and not a single intent |
| `Checkpoints.PhaseHasOneOwner` | converter/internal/reconcile/service.go:1267-1295 | the in-progress flag is set iff one intent and only one carries a target |
| `Checkpoints.RecoverOwner` | converter/internal/reconcile/service.go:1267-1295 | in every reachable store recovery finds the one owner iff a phase is open |
| `Inventory.SameFileInventory` | converter/internal/reconcile/service.go:1900-1916 | the counting loop is true iff the multisets of file keys are equal |
| `Inventory.KeyIsExact` | converter/internal/reconcile/service.go:1891-1916 | two files have the same key iff they agree in each field that the comparison names |
| `Inventory.FindFileIsFirst` | converter/internal/reconcile/service.go:2194-2207 | the file found for a format is the first of it by name, then by id |
| `Inventory.FindFileIgnoresOrder` | converter/internal/reconcile/service.go:2194-2207 | so two listings of the same files, in any order, give the same file |
| `Inventory.FingerprintDecides` | converter/internal/reconcile/service.go:1632-1652 | with unique ids, equal fingerprints iff equal multisets outside the excluded format, in any order |
| `Inventory.FingerprintIgnoresExcluded` | converter/internal/reconcile/service.go:1632-1652 | files of the excluded format do not count |
| `Inventory.FingerprintIsTheOnlySorting` | converter/internal/reconcile/service.go:1641-1649 | with unique ids there is only one sorted order, so the sort need not be stable |
| `ArtifactName.OutputFilename` | converter/internal/artifactname/artifactname.go:11-45 | the loop over runes computes the naming policy that the lemmas below speak of |
| `ArtifactName.RenamingIsStable` | converter/internal/artifactname/artifactname.go:11-45 | naming for g from the name for f is naming for g from the source, for every name, also across the 180-rune cut |
| `ArtifactName.ThreeLayersAreOne` | converter/internal/grimmory/client.go:865-871 | two more sanitizing layers on the upload path change nothing |
| `ArtifactName.OutputNameIsSafe` | converter/internal/artifactname/artifactname.go:11-45 | the result is a plain file name with the wanted extension, not empty and of at most 180 runes before it, made of letters, digits, spaces and the listed punctuation |
| `ArtifactName.PathIsNamed` | converter/internal/artifactname/artifactname.go:11-45 | of a path in either style of slashes the last part counts; each of its letters, digits and listed punctuation is kept, everything else becomes an underscore, and the extension is exchanged |
| `Planner.NormalizeFormats` | converter/internal/reconcile/service.go:2313-2328 | the valid formats, each once, where each comes first |
| `Planner.ResolveLibraryPolicy` | converter/internal/reconcile/service.go:218-249 | a library has a policy iff its first valid priority is supported and not disallowed; that is the main format, and fallbacks and outputs are the selected ones in priority order and in configured order |
| `Planner.PolicyIsValid` | converter/internal/reconcile/service.go:218-249 | which formats are outputs and fallbacks: none repeated, invalid, unsupported or disallowed, never the main format |
| `Planner.SelectSource` | converter/internal/reconcile/service.go:2181-2192 | the first fallback in policy order that has a file, or none has |
| `Planner.PlanDerivatives` | converter/internal/reconcile/service.go:1993-2072 | the loop gives each output its plan, in order; what a plan says is in the next four rows |
| `Planner.PlanShape` | converter/internal/reconcile/service.go:1993-2081 | create iff there is no file; blocked iff an existing file would have to go |
| `Planner.UnchangedExactly` | converter/internal/reconcile/service.go:2008-2072 | an output that exists is left alone iff nothing forces a rebuild and its row vouches for the file: complete, of this format and file, the expected name, the present canonical hash, no other checksum, an acceptable fingerprint, not older than the source |
| `Planner.ReasonIsTrue` | converter/internal/reconcile/service.go:2008-2072 | what the reason given for a rebuild says is so |
| `Planner.CommittedPlansUnchanged` | converter/internal/reconcile/service.go:2022-2070 | a committed row makes the next plan unchanged iff the server's checksum is right and its timestamp is not older |
| `Planner.FingerprintValueDoesNotDecide` | converter/internal/reconcile/service.go:2046-2056 | any two fingerprints of the computed shape plan alike, whoever wrote them |
| `Planner.PrioritizeReplacementOwner` | converter/internal/reconcile/service.go:1297-1323 | the owner's plan moves to the front, the others keep their order; without it nothing may proceed |
| `World.World.PrepareReplacement` | converter/internal/state/state.go:497-534 | a preparation leaves a grant: the run, the target, what the run had seen and the rows just before; `World.GrantOK` demands the preflight, an authorization, the tag where only a tag allows it, and force where the file may be an interrupted upload |
| `World.World.Delete` | converter/internal/reconcile/service.go:1693-1702 | a delete leaves a record of the run, the id, the rows it happened under and the formats of the files that vanished from the server as it was when the request arrived; `World.DeleteOK` demands a recorded target that this run has just checked, never the canonical file on record |
| `World.World.CommitDerived` | converter/internal/state/state.go:544-587 | a commit leaves a record of the run, the row, the canonical row and everything the run had seen; `World.HistoryOK` demands evidence in it, a run of that main format, and such a record for each stored row |
| `World.World.RemoveTag` | converter/internal/grimmory/client.go:303-407 | a removed tag leaves a record of the rows; `World.RemovalOK` demands the durable marker unless the tag is the process's failure tag |
| `Recovery.AdoptionIsSound` | converter/internal/reconcile/service.go:1571-1613 | the adoption checks amount to the evidence every commit needs |
| `Recovery.RecoverableIntentCandidate` | converter/internal/reconcile/service.go:1531-1614 | changes nothing; adopts only on full evidence, and undisturbed whenever the evidence agrees |
| `Recovery.RevalidateReplacementInventory` | converter/internal/reconcile/service.go:1735-1785 | whoever interferes, the preflight accepts only on two complete looks, each a listing and then the canonical bytes; undisturbed it accepts iff the book is replaceable |
| `Recovery.RevalidateCanonicalSource` | converter/internal/reconcile/service.go:1813-1847 | the canonical file was seen in the expected listing and its bytes were fetched after that |
| `Resume.DropIsRecoverable` | converter/internal/reconcile/service.go:1693-1702 | deleting the recorded target keeps the evidence and touches no other format |
| `Resume.AddIsRecoverable` | converter/internal/reconcile/service.go:1711-1722 | the upload puts exactly the intended file there, under the name recovery looks for |
| `Upload.PrepareTarget` | converter/internal/reconcile/service.go:1665-1692 | whoever interferes, target and phase are recorded only right after such a preflight, and the new grant shows it |
| `Upload.ProbeAndUpload` | converter/internal/reconcile/service.go:1703-1734 | at most one upload, and only after a listing without any file of the format; an ambiguous error is resolved by adoption |
| `Upload.ReplaceFile` | converter/internal/reconcile/service.go:1658-1722 | wherever it fails or dies the replacement stays recoverable; undisturbed it ends with the intended file, or with nothing changed |
| `Derivative.StoreIntentAndUpload` | converter/internal/reconcile/service.go:1658-1664 | the intent is durable before the upload, and an owner's evidence survives it |
| `Derivative.VerifyUpload` | converter/internal/reconcile/service.go:741-749 | success yields the evidence for the commit; undisturbed it succeeds on a correct upload |
| `Derivative.VerifyAndCommit` | converter/internal/reconcile/service.go:741-765 | the row is written only on evidence this run has seen (w.OK), and then vouches for the one file of the format, which is not the replaced one |
| `Derivative.AddedIsVerifiable` | converter/internal/reconcile/service.go:2209-2219 | a restored file passes the exact-name check and every other check of its verification |
| `Derivative.VerifiedIsNew` | converter/internal/reconcile/service.go:701-765 | a format that had no file to spare holds nothing but uploads of this run after a verified attempt |
| `Loop.CopiesFollowCommit` | converter/internal/reconcile/service.go:750-766 | the in-memory flag, tag and authorization agree with the row after every commit, in both loops |
| `Loop.OwnerHasAWayOn` | converter/internal/reconcile/service.go:625-637 | an unfinished replacement resumes, restores or adopts; there is no fourth case |
| `Loop.IntendedIsAdoptable` | converter/internal/reconcile/service.go:1531-1614 | a file that arrived before the interruption passes every adoption check |
| `Reconcile.DeliveredIsArrived` | converter/internal/reconcile/service.go:1531-1614 | so does an upload without a target that an interrupted run left, as long as canonical file and the rest of the listing are those of its intent |
| `Reconcile.UploadedIsDelivered` | converter/internal/reconcile/service.go:1658-1664 | a run that stores its intent and uploads, and dies before it commits, leaves such an upload |
| `Loop.RecoverIntent` | converter/internal/reconcile/service.go:637-700 | adopted and committed, stopped, or left to a rebuild with nothing changed, the last never where a file may be the upload of an earlier run, but for force; undisturbed it adopts whenever the evidence agrees |
| `Loop.RebuildFormat` | converter/internal/reconcile/service.go:701-790 | without authorization nothing at all happens; otherwise committed, failed with nothing changed, or stopped; undisturbed it commits, if the phase is open or the plan is a create or an allowed rebuild of a file that may go |
| `Loop.ProcessPlan` | converter/internal/reconcile/service.go:584-791 | one turn keeps copies and store in step, other formats alone, owed work recoverable, and undisturbed finishes the owner and every plan that can be had: a create, an allowed rebuild, or the adoption of what an earlier run uploaded |
| `Loop.ProcessPlans` | converter/internal/reconcile/service.go:573-791 | without a failure no phase is open at the end and every output is committed or was current; undisturbed nothing fails if every plan can be had |
| `Cleanup.WriteBook` | converter/internal/state/state.go:374-405 | the whole row is written only where that changes no phase column |
| `Cleanup.ClearReplacementTag` | converter/internal/reconcile/service.go:1918-1965 | the tag goes only under its durable marker and, when that is confirmed, it is gone; when it is not confirmed the tag is put back |
| `Cleanup.FinishPendingReplacementCleanup` | converter/internal/reconcile/service.go:1446-1470 | the cleanup touches no derivative, intent or file; the row is as it was, rested, or rested without its marker, and the last iff it finishes; undisturbed the tag is gone then, and the failure tag, too, if it completes |
| `Cleanup.Finish` | converter/internal/reconcile/service.go:808-848 | completion rests the row: no phase, no tag, no marker; nothing this run recorded is erased; undisturbed the spent tag is off the book once the run has finished, and the failure tag once it completes; however it ends, tags other than the failure tag went only under their durable markers |
| `Reconcile.PlanIsLocal` | converter/internal/reconcile/service.go:1993-2072 | a plan depends on the saved row and the files of its own format only |
| `Reconcile.CompletedConverges` | converter/internal/reconcile/service.go:792-848 | what a run that reached its end leaves, be it with a cleanup pending, is what the next run plans as unchanged, on a credible server |
| `Reconcile.HonestlyConverges` | converter/internal/reconcile/service.go:792-848 | on a server whose checksums are right and whose clock never ran backwards there is no proviso |
| `Reconcile.MissingMainOwesNothing` | converter/internal/reconcile/service.go:468-504 | while nobody interferes, a missing main file means that no replacement is owed |
| `Reconcile.CreateMissingMain` | converter/internal/reconcile/service.go:850-1196 | the same promises on the path that first creates the main file: it completes if there is a source for it and each output is missing or may be replaced |
| `Reconcile.SyncWithMain` | converter/internal/reconcile/service.go:506-848 | the promises on the path with a main file; finished, each output that needed work is in sync and the tags the commits used are gone; undisturbed it completes if nothing stands in its way |
| `Reconcile.SyncPending` | converter/internal/reconcile/service.go:440-447 | a pending cleanup allows no other work; completed, it leaves nothing owed or pending and not the tag, otherwise at most the marker as it was |
| `Reconcile.CleanupSettles` | converter/internal/reconcile/service.go:440-447 | a completed cleanup leaves the book settled iff every output was current before |
| `Reconcile.SettledVouches` | converter/internal/reconcile/service.go:1993-2072 | a book is settled iff nothing is under way and each output exists with a row that vouches for it; that row then names the present canonical bytes, the file, the name and the advertised checksum |
| `Reconcile.Sync` | converter/internal/reconcile/service.go:384-848 | for every environment: ownership and history stay sound; while nobody interferes: recoverable, convergent, all work done and all used tags gone once it finishes, idle on a settled or ignored book and over a main file with a wrong checksum; undisturbed: restoring, and completing unless something stands in its way |
| `Reconcile.PromiseKeepsPace` | converter/internal/reconcile/service.go:792-848 | undisturbed and under one policy, a pending cleanup keeps meaning that everything else is done, and every run that finishes has converged |
| `Runs.Operate` | converter/internal/reconcile/service.go:384-848 | any sequence of runs, faults, crashes and interference keeps rows and history sound, and the history has the orders of exactly these runs |
| `Runs.RecoverAfterAnything` | converter/internal/reconcile/service.go:1267-1323 | after exactly these runs from an empty store: an open phase has one owner and recovery finds it; a format removed by the service, and one whose file vanished with a delete, is that owner, the latter unless somebody changed the file's format under the service |
| `Runs.MissingFormatIsTheOwner` | converter/internal/reconcile/service.go:1658-1722 | at most one format is missing because the service deleted its recorded file, and the store names it; a format whose file vanished with a delete is that one, or the same run had just seen the id as the only file of another format |
| `Runs.EveryDeleteIsAccountedFor` | converter/internal/reconcile/service.go:1762-1785 | every delete hit the recorded target of the open phase, never the canonical file on record, after a preflight in the same run, and goes back to an authorization |
| `Runs.EveryGrantIsAuthorized` | converter/internal/reconcile/service.go:1228-1247 | every preparation rests on the orders of that very run and the tags it had just seen, on a tag on record that a listing showed to a run configured with it, or on the same target being on record; what only a tag allows is recorded under that tag; a file that an interrupted run may have uploaded is replaced only by force |
| `Runs.EveryUploadIsAccountedFor` | converter/internal/reconcile/service.go:1658-1722 | every upload is a derivative behind a durable intent, in an owner's place only once that is seen empty, or the main file of a library seen without one |
| `Runs.NothingAuthorizedNothingDeleted` | converter/internal/reconcile/service.go:1228-1247 | no force, no replace policy and no listing that showed a run its replacement tag: nothing prepared, nothing deleted |
| `Runs.PreserveUnlessTagged` | converter/internal/reconcile/service.go:1228-1247 | the same for exactly these runs from an empty store; so if neither the book at the start nor anything others make of it has the replacement tag of any run, nothing is prepared or deleted |
| `Runs.EveryCommitIsBacked` | converter/internal/reconcile/service.go:741-765 | each row in the store was committed by a run on record, for a library with the main format of the canonical row then, and that run had seen, in this order, the sole file with the exact name, its bytes, and the canonical bytes on record |
| `Runs.EveryRemovalIsCovered` | converter/internal/reconcile/service.go:817-841 | a tag that is nobody's failure tag was removed only with its marker durable, no phase open, and a commit made under it |
| `Runs.AccountForEverything` | converter/internal/reconcile/service.go:384-848 | after exactly these runs from an empty store, whatever fails and whoever interferes: every stored row, preparation, usable tag, delete, upload and tag removal is backed in these ways |
| `Runs.Endure` | converter/internal/reconcile/service.go:584-791 | after any number of failing and dying runs every unfinished replacement is recoverable |
| `Runs.ResumeOnce` | converter/internal/reconcile/service.go:625-765 | then one undisturbed run closes the phase and leaves the owner with exactly one verified file; nothing removed stays missing |
| `Runs.ConvergeWhenever` | converter/internal/reconcile/service.go:384-848 | after exactly these runs from an empty store, under one policy and undisturbed, whatever fails or dies: what is owed stays recoverable, and if the last run finished, be it only a cleanup, the book has converged |
| `Runs.CompleteOnce` | converter/internal/reconcile/service.go:792-848 | a completed run leaves a settled book, given right checksums and timestamps |
| `Runs.RunThrough` | converter/internal/reconcile/service.go:506-848 | an undisturbed run that nothing stands in the way of completes, be it over an interrupted upload: each output that needed work is the verified product of the source, the book has converged, and the tags used and the failure tag are gone |
| `Runs.FirstRun` | converter/internal/reconcile/service.go:384-848 | from an empty store: if the main file is there or can be made and each output is missing or may be replaced, the first undisturbed run completes with every output in sync |
| `Runs.StaySettled` | converter/internal/reconcile/service.go:506-848 | any number of later runs over a settled book upload and delete nothing |
| `Runs.CleanupCompletesUnsettled` | converter/internal/reconcile/service.go:1446-1470 | a quiet cleanup completes, and leaves the book unsettled wherever an output is missing |
| `Interruption.PendingIsReachable` | converter/internal/reconcile/service.go:506-841 | from an empty store and any book with a main file and a tagged file in the way, the methods of Sync in its order lead to a committed output with its cleanup pending |
| `Interruption.CleanupMissesRemoval` | converter/internal/reconcile/service.go:440-447 | two runs from an empty store: the first dies there, somebody removes the committed file, and the second reports completion over the missing output |
| `Polls.RowsStayOK` | converter/internal/state/state.go:689-908 | what each status implies, and the attempt bound, after any store calls by anybody |
| `Polls.StaleReportChangesNothing` | converter/internal/state/state.go:832-908 | the fingerprint guard |
| `Polls.NewObservationStaysDue` | converter/internal/state/state.go:706-725 | a new observation is due and stays due whatever stale workers report |
| `Polls.AppliedWasReported` | converter/internal/state/state.go:832-859 | what counts as applied was reported successful |
| `Polls.RevertedIsCurrent` | converter/internal/state/state.go:706-725 | a change that is taken back before any success is reported leaves the row current and not due |
| `Polls.RetriesAreCounted` | converter/internal/state/state.go:885-899 | failed exactly when the transient failures reach the bound, not before |
| `Polls.FailsWithinBound` | converter/internal/state/state.go:885-899 | with final failures among them never later |
| `Polls.FailedStaysFailed` | converter/internal/state/state.go:790-830 | a failed row is not due until something else is seen or a success is reported |
| `Polls.PollStore.ListDuePollStates` | converter/internal/state/state.go:790-830 | exactly the due rows, each once |
| `Poller.OperationalTagsDoNotCount` | converter/internal/grimmory/client.go:743-766 | the two operational tags make no new observation, any other difference in the tags does; the failure tag does not decide whether a book is ignored |
| `Poller.ObservationIsExact` | converter/internal/grimmory/client.go:682-766 | two listings are one observation iff their files agree, position by position, in id, name, format, kind and size, and their tags do outside the operational ones |
| `Poller.ChangeIsSynced` | converter/internal/polling/scheduler.go:213-285 | in a quiet scan, a book that is not to be passed over and whose row tells of another such listing, with no success for the present one, is reconciled |
| `Poller.ProcessLocked` | converter/internal/polling/scheduler.go:482-541 | what a worker may do to the row of its book: after a success the fingerprint of the listing seen last, after a failure a retry within the jittered delay or, with the attempts used up, the end and the failure tag; and what Sync promised in between |
| `Poller.VisitBook` | converter/internal/polling/scheduler.go:213-285 | one scan of one book: in any environment its row takes the fingerprint of the listing this scan saw, and after a success that of the listing seen last; when nothing fails, exactly when it is passed over, when Sync runs, and what that leaves |
| `Poller.FirstScan` | converter/internal/polling/scheduler.go:261-285 | a new book is reconciled at once; if that finishes, it is settled, not ignored, and current or due for one more look; otherwise its row says that it failed; it completes if nothing stands in the way |
| `Poller.LaterScans` | converter/internal/polling/scheduler.go:482-541 | over a settled book the first scan calls Sync iff the row is not current; after it the row is current and no scan calls Sync |
| `Poller.PollNewBook` | converter/internal/polling/scheduler.go:213-285 | a new book on a credible server, quiet, scanned any number of times: unless the first Sync fails, which takes something in its way, at most two scans call Sync, none once the row is current, and the book is settled |
| `Poller.CleanupThenSilence` | converter/internal/polling/scheduler.go:261-285 | a finished cleanup is marked current whether or not the outputs are, and later scans stay away |
| `Backoff.NextDelay` | converter/internal/polling/scheduler.go:587-613 | min(base * 2^attempt, max), computed within 64 bits, jittered to between half and all of it |
| `Backoff.CappedIsMonotone` | converter/internal/polling/scheduler.go:587-613 | more attempts never wait less |
| `BookLock.NextKeepsInv` | converter/internal/reconcile/service.go:302-335 | every step keeps the counts, the table and the holders in agreement |
| `BookLock.MutualExclusion` | converter/internal/reconcile/service.go:302-340 | never two goroutines in the section of one book, under any interleaving |
| `BookLock.LimitHolds` | converter/internal/reconcile/service.go:402-420 | never more books at once than the limiter has slots |
| `BookLock.CountIsUsers` | converter/internal/reconcile/service.go:2263-2281 | the reference count is holders plus waiters, and the object is in the table iff there are any |
| `BookLock.NestedCallsAreFree` | converter/internal/reconcile/service.go:318-340 | after any schedule: nested calls for the book that the caller's context holds take no slot and touch no lock, and when they have returned the state is what it was |
| `BookLock.SomebodyCanStep` | converter/internal/reconcile/service.go:302-335 | while a goroutine is not idle, some goroutine can go on |
| `BookLock.LockTable.GetLock` | converter/internal/reconcile/service.go:2263-2273 | the first critical section is the step Get |
| `BookLock.LockTable.ReleaseLock` | converter/internal/reconcile/service.go:2274-2280 | the second is the step Release |
| `TagMutation.Metadata.WriteUnlocked` | converter/internal/grimmory/client.go:360-377 | the requests are an unlock, the write iff that was reported done, and a relock in any case |
| `TagMutation.Metadata.SetBookTagScoped` | converter/internal/grimmory/client.go:303-407 | it succeeds iff the tag is not empty, the lock could be read and every request was fine; then the lock is as before and exactly the one tag is added or removed; otherwise the set is the old or the wanted one; each unlock is followed by a relock, and locked tags end unlocked iff the unlock took effect and the last relock reported that it did not |
| `TagMutation.LeftUnlocked` | converter/internal/grimmory/client.go:360-407 | for any requests in which each unlock is followed by a relock: tags are left unlocked only by a last relock that was lost and said so |

## Left out

- Dry runs and the per-item results and error codes: they only report.
- The fallback branches for stores without the optional interfaces: production always has SQLite.
- HTTP, tokens, multipart and JSON: a request is one step with one of four endings. The client already
  rejects a book of another id or library, so the later identity checks are not repeated.
- SHA-256 and the JSON digests: taken as injective, so a digest stands for what goes into it.
- The file system, workspaces, size limits and the converter: a conversion yields any content or fails,
  and each check of a local file is a step that may fail.
- Rounding of the jitter, which the program computes in floating point.
- Context deadlines and cancellation: a request that fails. The detached completion context has no model
  of its own.
- The text of file ids: an id is a number, 0 for the empty one, and ids compare as numbers where the program
  compares texts, which only breaks ties between files of one name.
- Raw format tokens: formats are the normalized ones a policy can hold (`ArtifactName.ValidFormat`).
- Times in the rows that no decision reads (last successful sync, generated, updated, last seen).
- Several libraries and books in one scan, the worker channel and the scan counters: books do not share a
  row, a lock object or a world, so `Poller` follows one book and frames the rest.
- ListDuePollStates: does not state the order of the due rows or the limit, which only affect scheduling.
- A nested lock call for a different book while one is held: the code makes none.
- World.AddTag and World.RemoveTag: one step with the usual endings; the requests inside are in
  `TagMutation`, where the server is taken to ignore tag writes while the tags are locked.
- Credible, CredibleServer and MainIsTruthful: convergence and recovery take the server's advertised
  checksums to be right, because the code rejects or rebuilds on a wrong one every time.
- ObservationIsExact: metadata other than the tags (title, authors, series and so on) is part of the program's
  observation, too. A book of the model has none: the service never writes it and no decision reads it, so a
  change of it only makes one more observation.
- FeasibleAt: completion is not promised where a file of the format is there with an unfinished intent that
  does not describe it, without force: there the program stops. Nor where an upload to be adopted comes after
  other work of the same run, which changes the listing that its intent names.
- EveryRemovalIsCovered: says nothing of a tag that is the failure tag of one configuration and the
  replacement tag of another; within one configuration the service refuses to start (config.go:117-132).
