# pg_dbmigrator: a verified model

`pg_dbmigrator` moves a PostgreSQL database by driving `pg_dump`, `pg_restore`, a
replication slot and a subscription. This project models the code around those tools in
Dafny and proves what it guarantees:

- the crash-resumable migration protocol, offline and online, over whole histories of runs,
  crashes, cancellations, resumed runs, source writes and apply-worker progress;
- the apply/cutover loop, as the loop it is and as steps interleaved with its requesters;
- the direct copy of large tables by concurrent streams over page ranges;
- the sequence synchronisation at cutover, down to the SQL text it sends;
- the parallel row-count verification and the accounting of `pg_restore`'s stderr.

`dafny verify dfyconfig.toml` checks everything.

## How it is put together

| file | what it holds |
|---|---|
| `Prelude.dfy`, `Config.dfy` | shared types; the configuration and its cross-field checks |
| `Resume.dfy` | the resume token, its file, and which configurations may pick it up |
| `Protocol.dfy` | the protocol as a state machine: one event per awaited effect, plus everything the rest of the world does between two effects |
| `ProtocolInvariant.dfy`, `ProtocolSteps.dfy` | what every event keeps, one lemma per event |
| `ProtocolTheorems.dfy` | the guarantees, in every reachable state |
| `Migrator.dfy`, `RunEffects.dfy` | `run_offline` and `run_online` as imperative code, on an input that says what a run meets; every run of it is a history of the state machine, so the guarantees become its contracts |
| `ProtocolStretches.dfy`, `ProtocolCounterexamples.dfy` | histories, under any ordinary configuration, in which replay goes wrong |
| `OfflineScope.dfy`, `OnlineScope.dfy`, `SingleRun.dfy`, `OfflineLeftover.dfy`, `OnlineLeftover.dfy` | exactly which configurations, and which leftovers of earlier migrations, allow a migration to be interrupted and resumed at will |
| `Cutover.dfy`, `ApplyLoop.dfy`, `CutoverProtocol.dfy` | the cutover handle and lag sampler, the polling loop, and both interleaved with signals |
| `SplitPages.dfy`, `SplitCopy.dfy`, `SplitRoutes.dfy` | page ranges on 64-bit integers; planning and the concurrent copy; the copy inside the protocol |
| `Quoting.dfy`, `DollarQuoting.dfy`, `SequenceScript.dfy`, `SequenceSync.dfy` | SQL quoting and its readers, the batch script and its reader, the sync with its fallback |
| `Verify.dfy`, `RestoreErrors.dfy` | row-count comparison; stderr accounting |

A WAL position is the number of changes logged before it, and the content of a table is the
sequence of changes that produced it. "Each change once and in order" is then an equation:
a table that holds the source as of position `n` equals `Of(wal[..n], t)`. A row replayed
twice, lost or out of order breaks that equation.

In the protocol `pg_dump`, `pg_restore` and the apply worker are explicit transitions.
`pg_restore` without `--clean` fails on a table that exists and drops none; killed, it may
leave any table content behind. The worker reads from the later of the subscription's origin and the
slot's confirmed position, applies a change and advances the origin in one transaction, and
confirms no further than the origin. A save of the token is two steps, and the process may
die at any step.

What one run of the migrator meets is an input of it: whether it is steady, that is, neither
killed nor failed by a call that the servers permit; which of the statements succeed whose
failure is only logged; the catalog, the turns of the apply loop, and the order in which the
counting workers move. What other clients do in between is open in every run.

## Hypotheses

A history starts where nothing of this migration exists yet: no token and no archive on disk,
no subscription and no worker on the target, and no slot, or one that is idle and from which
nothing has been consumed. The publication may exist. It is one run without `--resume`
followed by resumed runs with the same configuration. `OfflineLeftover` and `OnlineLeftover`
drop the assumption about the disk, and the latter that about the slot, and say exactly which
leftovers do harm.

Everything else may happen in a history: crashes, cancellations, failed saves of the token,
cutovers, resumes after a cutover. The results on tokens, resources, snapshots and offline
content hold of every history. Two things can go wrong with replay, and the history records
them: `forgotten`, that a run which had attached its subscription ended without the Restore
mark on disk, which takes a failed save; and `reopened`, that a subscription was created again
after an earlier one had been dropped. The results on replay name them, and `OnlineScope` says
for which configurations they cannot do harm.

## What turned out not to hold

- Exactly-once replay does not hold of all configurations. Over all histories of an online
  migration of the whole database it holds if and only if the subscription is kept at cutover
  and the target is not dropped first, or there is nothing to resume: no second run can start
  (no dump path, or a split threshold), or no run gets past the publication
  (`OnlineScope.ExactIffNothingDropped`). Dropping the subscription is the default. Each half
  has its own failing history, under every ordinary configuration, that is, one that can be
  resumed and whose publication exists or may be created: a resume after a cutover
  replays a change (`ProtocolCounterexamples.ResumeAfterCutoverDuplicates`), and a forgotten
  restore is restored again under a subscription that has moved on
  (`ProtocolCounterexamples.FailedSaveLosesChange`). Without `--drop-target-first` a forgotten
  restore is refused instead (`ProtocolTheorems.ForgottenIsRefused`).
- If the process dies after the slot was created and before the dump was recorded, the next
  run reuses the slot, gets no snapshot, and dumps at a later instant
  (`ProtocolCounterexamples.ReusedSlotDuplicates`). `ProtocolTheorems.ExactlyOnceIff` says
  which tables are still exact: those without a change between the slot's start and the
  archive.
- A retried data-only restore loads its rows twice; all other dump scopes are safe
  (`OfflineScope.ExactIffSchemaDumped`, for configurations that can be resumed).
- A run without `--resume` leaves an old token in place until its own first save, and a crash
  before that makes the resumed run believe it. For configurations that can be resumed, every
  offline history is exact if and only if the leftover token is not one that is accepted and
  records a restore, or a dump when an old archive is there too
  (`OfflineLeftover.ExactIffNotMisled`). Online, for configurations that are exact from a clean
  disk, the same holds with an old archive that was dumped from a slot's snapshot
  (`OnlineLeftover.ExactIffNotMisled`).
- `split_pages` overflows for one part count, 2^63, which is cast to the smallest integer and
  from which one is then taken, if the table has two pages or more
  (`SplitPages.PartsLessOneFits`, `SplitPages.SplitPages`). A build that checks for overflow
  panics there and plans nothing (`SplitCopy.PlanSplitTables`); any other, the default release
  profile among them, wraps around and cuts the ranges that other large part counts give.
- The batch that sets the sequences reads back if and only if no name contains the tag of its
  DO block, which is a legal identifier (`SequenceScript.ScriptRoundTrip`); otherwise the block
  ends inside a literal, the batch fails and the fallback sets them one by one.
- The split threshold is cast to a signed 64-bit integer: from 2^63 on, tables of any size
  are planned (`SplitCopy.PlannedIffLarge`).
- Row counts are compared under the right names if and only if the table's own name has no
  dot (`Verify.SplitsBackIff`).
- A token records neither the dump scope, nor the exclusions, nor the split threshold, so a
  changed value is not noticed (`Resume.CompatibleIff` says what is).

Two statements of the documentation differ from the code, and the model follows the code.
`README.md:326` says that the loop flushes feedback when it notices the request; the loop
disables the subscription instead. The comment on the publication option
(`pg_dbmigrator/src/config.rs:469`) says that the library does not create it; by default a
missing publication is created.

## Model

| member | source | states |
|---|---|---|
| `Migrator.Migrator.RunOnline` | pg_dbmigrator/src/orchestrator.rs:222-479 | every online run is a history of the protocol; it is refused exactly if its configuration is invalid or what it resumes does not fit; if it ends well it was by cutover or cancellation, as a turn of its loop says; it has then performed exactly the effects that its token did not record, in order, and after a cutover exactly the teardown and clean-up asked for, and publication, subscription and slot are there or gone accordingly; each table holds the source as of the last replicated position, each change once and in order, if the dump read the slot's snapshot, no dropped subscription was created again, and the run did not start from a forgotten restore with the target dropped first; a steady run does end well if publication, restore and loop permit it; unless the loop was left by cutover, whether the run failed or not, slot, subscription and publication are still there |
| `Migrator.Migrator.RunOffline` | pg_dbmigrator/src/orchestrator.rs:155-218 | an offline run that ends well has performed exactly the effects its token did not record and leaves in every table the content of one pg_dump that finished, whatever earlier runs of the history did and whatever saves failed; it is refused exactly if its configuration is invalid or what it resumes does not fit; a steady run whose restore is permitted ends well exactly if the verification is not strict or every named table has equal counts on both sides; however it ends, slot, subscription and publication are still there |
| `Migrator.Migrator.Await` | pg_dbmigrator/src/orchestrator.rs:155-479 | an awaited call either performs its one protocol step, on a world that has moved on but left process, disk and the existence of slot, subscription and publication alone, or ends the run with the token on disk untouched; in a steady run it is performed if it is bound to be possible |
| `Migrator.Migrator.LoadOrInitResume` | pg_dbmigrator/src/orchestrator.rs:752-776 | the run starts if and only if the configuration is valid and, when it resumes, the file is not torn and compatible; it starts from the token on disk if it resumes and there is one, and otherwise from a new one; a refusal changes nothing |
| `Migrator.Migrator.ReadToken` | pg_dbmigrator/src/orchestrator.rs:752-776 | which token that is, and when there is one: a valid configuration, and nothing torn or written for another migration to resume |
| `Migrator.Migrator.SaveResume` | pg_dbmigrator/src/orchestrator.rs:778-785 | the token file is afterwards untouched or the whole new token, even if the process is killed; the run goes on after a failure; without any failed save the new token is there and the sibling gone |
| `Migrator.Migrator.RenameToken` | pg_dbmigrator/src/resume.rs:186-192 | the second half of a save: the file is untouched or the whole token, whatever happens |
| `Migrator.Migrator.RunSourceVacuumStage` | pg_dbmigrator/src/orchestrator.rs:794-815 | skipped or recorded before, it does nothing; otherwise there is one vacuum, the stage is marked exactly if it succeeded, and the run goes on either way |
| `Migrator.Migrator.EnsurePublication` | pg_dbmigrator/src/orchestrator.rs:253-289 | the token remembers that the publication was created by the migration exactly when it was missing; it passes only if the publication exists or may be created, and in a steady run exactly then |
| `Migrator.Migrator.PrepareReplicationSlot` | pg_dbmigrator/src/orchestrator.rs:291-304 | the stage is marked, a stream is held exactly if the slot was new, and the token has the name of its snapshot and otherwise none |
| `Migrator.Migrator.PrepareStream` | pg_dbmigrator/src/orchestrator.rs:249-312 | nothing is done when the dump is recorded; otherwise publication and slot are prepared in this order |
| `Migrator.Migrator.PlanTables` | pg_dbmigrator/src/orchestrator.rs:532-541 | the plan names exactly the tables of the catalog with columns and pages that are at or above the threshold, or of any size past the signed range, and cuts the pages of each; only an overflow that is checked ends the run |
| `Migrator.Migrator.PrepareSplit` | pg_dbmigrator/src/orchestrator.rs:525-590 | there is a split exactly if the plan is not empty; online it shares the slot's snapshot, which must exist, offline one exported for it and held by this run |
| `Migrator.Migrator.ShareSnapshot` | pg_dbmigrator/src/orchestrator.rs:540-590 | the second half of that: which snapshot the plan shares |
| `Migrator.Migrator.RunPgDump` | pg_dbmigrator/src/orchestrator.rs:318-340 | the archive was made with the token's snapshot online and the split's offline, and without the planned tables; the dump is marked on success, and reaches the disk only after pg_dump has succeeded; a steady run always gets through, as the snapshot is alive |
| `Migrator.Migrator.RestoreArchive` | pg_dbmigrator/src/orchestrator.rs:651-691 | success means exactly these effects in this order: one pg_restore and then the direct copy, or pre-data, data, direct copy, post-data; it takes a target whose tables permit the restore, and in a steady run nothing else |
| `Migrator.Migrator.RestoreSections` | pg_dbmigrator/src/orchestrator.rs:664-690 | pre-data, then data, then the direct copy if there is a plan |
| `Migrator.Migrator.RunSplitCopyStage` | pg_dbmigrator/src/orchestrator.rs:695-725 | no plan, no effect; otherwise the streams get through and leave exactly the rows of the protocol's copy step in every table, or the run ends; a steady run that restores definitions always gets through |
| `Migrator.Migrator.CopyTables` | pg_dbmigrator/src/orchestrator.rs:705-714 | the streams read the snapshot this run holds, under any schedule, and succeed only where the protocol's copy step is enabled and with its result; in a steady run they do succeed there |
| `Migrator.Migrator.RunRestoreStage` | pg_dbmigrator/src/orchestrator.rs:349-358 | the restore is marked on success, and reaches the disk only after all of its effects |
| `Migrator.Migrator.DumpAndRestore` | pg_dbmigrator/src/orchestrator.rs:167-206 | the effects performed are exactly those of the stages not recorded, in order |
| `Migrator.Migrator.RunTargetAnalyzeStage` | pg_dbmigrator/src/orchestrator.rs:819-840 | skipped, it does nothing; otherwise the stage is marked exactly if ANALYZE succeeded, and the run goes on either way |
| `Migrator.Migrator.RunVerifyStage` | pg_dbmigrator/src/orchestrator.rs:846-862 | off, nothing is compared; otherwise the report has the counts of both sides at one moment; undisturbed and with every worker served, the run passes if and only if the mode is not strict or every named table has equal counts on both sides |
| `RunEffects.ReportMeans` | pg_dbmigrator/src/orchestrator.rs:846-862 | what equal counts and the report are: rows on the source, and rows on the target or -1 for a table that is not there |
| `Migrator.Migrator.ReleaseSlot` | pg_dbmigrator/src/orchestrator.rs:370-397 | the stream is dropped, a resumed run disables the old subscription whether or not that works, and then the slot was seen idle, in this order; a steady run gets there |
| `Migrator.Migrator.WaitForSlotInactive` | pg_dbmigrator/src/native_apply.rs:193-238 | success means that the last poll found the slot absent or inactive; a slot that stays active ends the run |
| `Migrator.Migrator.RunNativeApply` | pg_dbmigrator/src/native_apply.rs:353-501 | attached, then the loop, then exactly the teardown its end asks for, whose outcome the subscription shows; only cutover and cancellation count as success, and the statistics say which; a steady run succeeds if a turn is cancelled or finds a request before a worker was found dead |
| `Migrator.Migrator.RunApplyLoop` | pg_dbmigrator/src/native_apply.rs:411-493 | how the loop ended, in terms of its turns: by cancellation exactly if the last was cancelled, by cutover exactly if it found a request and was not stopped before, by a failed check only if the worker was dead, and no earlier turn was cancelled or found a request |
| `Migrator.Migrator.TeardownSubscription` | pg_dbmigrator/src/native_apply.rs:571-605 | one statement, or up to three after a cutover that is to drop the subscription, each only if the one before succeeded; it is gone exactly if all three were due and succeeded, and otherwise disabled if the first did; the run goes on |
| `Migrator.Migrator.DropSubscription` | pg_dbmigrator/src/native_apply.rs:587-596 | it is detached before it is dropped, and dropped exactly if both succeed: if the drop fails it is left without its slot, if detaching fails nothing else is tried |
| `Migrator.Migrator.ReportLoop` | pg_dbmigrator/src/orchestrator.rs:402-404 | the position of the last sample is recorded in the token, and nothing else of it changes |
| `Migrator.Migrator.AfterLoop` | pg_dbmigrator/src/orchestrator.rs:406-471 | without a cutover nothing happens; after one, exactly the sequences if asked for, the publication if the migration created it, and the wait and the drop of the slot if asked for, in this order |
| `Migrator.Migrator.CleanupSourceAfterCutover` | pg_dbmigrator/src/orchestrator.rs:931-976 | the publication is dropped if and only if the token claims it, and the slot waited for and dropped if and only if the configuration says so; each is gone exactly if its statement was due and succeeded, but for a slot somebody is connected to, which in a steady run after a successful disable is nobody |
| `Migrator.Migrator.DropSlot` | pg_dbmigrator/src/orchestrator.rs:955-975 | after the wait, whatever its outcome, the slot is dropped if the statement succeeds and nobody is connected; a slot that is active when its turn comes survives unchanged; the outcome does not fail the run |
| `RunEffects.StartsIff` | pg_dbmigrator/src/orchestrator.rs:752-776 | a run may start if and only if its configuration is valid and what it resumes is neither torn nor written for another migration |
| `RunEffects.DumpIsPossible` | pg_dbmigrator/src/orchestrator.rs:318-340 | every dump a run gets to can be made, because the snapshot it asks for is alive |
| `RunEffects.RestoreIsPossible` | pg_dbmigrator/src/restore.rs:335-341 | a restore is possible exactly if the tables of the target permit it |
| `RunEffects.CopyIsPossible` | pg_dbmigrator/src/copy_split.rs:323-344 | the direct copy of a run that restores definitions is never refused |
| `SplitRoutes.SteadyIsServed` | pg_dbmigrator/src/copy_split.rs:361-379 | streams that move in rounds are all served |
| `ProtocolTheorems.ExactlyOnce` | pg_dbmigrator/src/orchestrator.rs:222-479 | once Restore is recorded, over every later crash, cancellation, failed save and resume, unless the restore is forgotten or a dropped subscription created again, each table equals the source as of the position up to which changes were replicated, which is the later of the subscription's origin and the slot's start |
| `ProtocolTheorems.ExactlyOnceIff` | pg_dbmigrator/src/snapshot.rs:80-90 | whether or not a snapshot was exported: a table is exact if and only if none of its changes was logged between the start of the slot and the instant the archive shows |
| `ProtocolTheorems.RestoredAndReplayed` | pg_dbmigrator/src/native_apply.rs:371-400 | a table is what the archive showed followed by the changes from the slot's start on, because resume re-enables the subscription instead of recreating it |
| `ProtocolTheorems.ForgottenOnlyAtAnEnd` | pg_dbmigrator/src/orchestrator.rs:778-785 | a restore is forgotten only when a run with the subscription attached or dropped ends, its Restore mark is not on disk, and some save has failed |
| `ProtocolTheorems.ForgottenMeansFailed` | pg_dbmigrator/src/orchestrator.rs:778-785 | where no save has failed no restore is forgotten |
| `ProtocolTheorems.ForgottenIsRefused` | pg_dbmigrator/src/restore.rs:335-341 | without `--drop-target-first` no run ever records a restore again once one is forgotten, and every table still exists; what a refused pg_restore does to their rows before it fails is left open |
| `ProtocolTheorems.OfflineExact` | pg_dbmigrator/src/orchestrator.rs:155-218 | offline, over every history, a recorded restore or a completed run means the content of one finished pg_dump in every table, with retries either reset by `--clean` or refused |
| `OnlineScope.ExactIffNothingDropped` | pg_dbmigrator/src/native_apply.rs:587-602 | online and for the whole database, replay is exactly-once over all histories if and only if the configuration keeps the subscription at cutover and does not drop the target first, or cannot be resumed, or has no publication and may not create one |
| `OnlineScope.InexactMeansForgottenOrReopened` | pg_dbmigrator/src/native_apply.rs:383-400 | a wrong table has one of two causes, a subscription created again, which takes the first setting, or a forgotten restore, which takes the second and a failed save |
| `OnlineScope.KeptIsNeverReopened` | pg_dbmigrator/src/native_apply.rs:587-602 | a kept subscription is never dropped and created again |
| `OnlineScope.DroppedSubscriptionDuplicates` | pg_dbmigrator/src/native_apply.rs:383-400 | a dropped one can be, under every ordinary configuration: one that can be resumed and whose publication exists or may be created; and then a change is applied twice |
| `OnlineScope.DroppedTargetLoses` | pg_dbmigrator/src/orchestrator.rs:778-785 | with the target dropped first a change can be lost, under every ordinary configuration |
| `OnlineScope.MigrationCanSucceed` | pg_dbmigrator/src/orchestrator.rs:222-479 | under every valid configuration whose publication exists or may be created a run can reach a cutover with a concurrent write replicated once, and leave exactly what it is to keep: the subscription, the slot and the publication are gone if and only if they are to be dropped, or were created by it |
| `SingleRun.NothingToResume` | pg_dbmigrator/src/config.rs:249-303 | where no second run can start, or no run gets past the publication, no restore is recorded after one was forgotten or a subscription created twice |
| `SingleRun.StepStays` | pg_dbmigrator/src/orchestrator.rs:222-479 | every event keeps the invariant behind this |
| `OfflineScope.ExactIffSchemaDumped` | pg_dbmigrator/src/restore.rs:335-341 | starting from empty tables, an offline history of a configuration that can be resumed is always exact if and only if the scope is not data-only |
| `OfflineScope.DataOnlyDoubles` | pg_dbmigrator/src/orchestrator.rs:187-192 | a data-only restore that is interrupted and retried doubles its rows, under every configuration that can be resumed |
| `OfflineLeftover.ExactIffNotMisled` | pg_dbmigrator/src/orchestrator.rs:752-776 | for a configuration that can be resumed, with any token and any archive left on disk, every offline history that completes is exact if and only if the token is not an accepted one that records a restore, or a dump when there is an archive |
| `OfflineLeftover.ArchiveMatters` | pg_dbmigrator/src/orchestrator.rs:752-776 | without an archive the condition is about the Restore mark alone; an archive adds exactly the accepted tokens with a Dump and no Restore mark |
| `OfflineLeftover.RestoreIsSkipped` | pg_dbmigrator/src/orchestrator.rs:752-776 | with any accepted token that records a restore, a crash before the first save and a resume complete with an empty target |
| `OfflineLeftover.OldArchiveIsRestored` | pg_dbmigrator/src/orchestrator.rs:752-776 | with one that records a dump the old archive is restored |
| `OfflineLeftover.StepKeeps` | pg_dbmigrator/src/orchestrator.rs:155-218 | every event keeps the invariant behind this |
| `OnlineLeftover.ExactIffNotMisled` | pg_dbmigrator/src/orchestrator.rs:752-776 | with any token, archive and slot left over, for an ordinary configuration that keeps the subscription and does not drop the target first: wherever a run claims a restore of an archive with a snapshot the tables are exact, over all histories, if and only if the token is not an accepted one that records a restore, or a dump when the archive left over has a snapshot |
| `OnlineLeftover.RestoreIsSkipped` | pg_dbmigrator/src/orchestrator.rs:752-776 | with any accepted token that records a restore, failed saves and a crash lead to a resumed run that takes an empty target for restored |
| `OnlineLeftover.OldArchiveIsRestored` | pg_dbmigrator/src/orchestrator.rs:752-776 | with one that records a dump the old archive is restored, and what came between it and the slot is lost |
| `OnlineLeftover.StepKeeps` | pg_dbmigrator/src/orchestrator.rs:222-479 | every event keeps the invariant behind this |
| `OnlineLeftover.MoveKeeps` | pg_dbmigrator/src/orchestrator.rs:222-479 | a step that touches neither content nor position nor the marks of dump and restore keeps it |
| `ProtocolCounterexamples.ReusedSlotDuplicates` | pg_dbmigrator/src/snapshot.rs:80-90 | under every ordinary configuration a crash between slot creation and the Dump mark can make a row arrive twice |
| `ProtocolCounterexamples.FailedSaveLosesChange` | pg_dbmigrator/src/orchestrator.rs:778-785 | a failed save of the Restore mark loses a replicated change when the target is dropped first |
| `ProtocolCounterexamples.ResumeAfterCutoverDuplicates` | pg_dbmigrator/src/native_apply.rs:397-400 | resuming after a cutover that dropped the subscription can replay a change |
| `ProtocolTheorems.SplitConservation` | pg_dbmigrator/src/orchestrator.rs:525-628 | when the restore of a split run has succeeded every table holds exactly the rows of the one snapshot shared by archive and direct copy, and the archive left out exactly the planned tables |
| `ProtocolTheorems.RoutesAreDisjoint` | pg_dbmigrator/src/orchestrator.rs:651-691 | restoring the archive's data changes no planned table, the direct copy no other |
| `SplitRoutes.CopySplitTables` | pg_dbmigrator/src/copy_split.rs:314-395 | under any schedule, success leaves in every table the rows of the protocol's copy step, and a refusal means that the step is not enabled; undisturbed, it succeeds if and only if the step is enabled and otherwise refuses |
| `SplitRoutes.DeliverBothRoutes` | pg_dbmigrator/src/orchestrator.rs:651-691 | when the archive's data is in and the streams get through, in any interleaving, every table holds exactly the rows of the one snapshot |
| `SplitRoutes.BothRoutes` | pg_dbmigrator/src/orchestrator.rs:525-628 | in every reachable state the copy step completes the snapshot in all tables |
| `SplitRoutes.BagNext` | pg_dbmigrator/src/copy_split.rs:279-303 | every change adds its row to the bag a table is compared by |
| `ProtocolTheorems.NoDeadSnapshot` | pg_dbmigrator/src/orchestrator.rs:248-375 | a snapshot id given to pg_dump or to the direct copy is held open by this very process, and both get the same |
| `ProtocolTheorems.EnabledOnlyAfterRestore` | pg_dbmigrator/src/native_apply.rs:371-400 | a subscription is created or enabled only when slot, dump and restore have finished and are recorded by the run, and on disk unless a save has failed |
| `ProtocolTheorems.TokenSound` | pg_dbmigrator/src/resume.rs:177-193 | the token file is absent or a whole token of some save; its stages are closed under precedence and really finished; a recorded dump has an archive |
| `ProtocolTheorems.TokenOnlyGrows` | pg_dbmigrator/src/orchestrator.rs:752-785 | along any chain of runs the recorded stages only grow |
| `ProtocolTheorems.DroppedOnlyAfterCutover` | pg_dbmigrator/src/orchestrator.rs:931-976 | slot, subscription and publication disappear only in a run that left its loop by cutover, the slot only while inactive, the publication only if the migration created it |
| `ProtocolTheorems.NothingDroppedBeforeCutover` | pg_dbmigrator/src/orchestrator.rs:462-471 | as long as no loop ends by cutover, no number of runs and crashes drops anything |
| `ProtocolTheorems.PublicationSurvives` | pg_dbmigrator/src/orchestrator.rs:253-274 | a publication that existed before is never dropped nor recorded as created, across all crashes |
| `ProtocolTheorems.OfflineNeverReopens` | pg_dbmigrator/src/orchestrator.rs:155-218 | offline no subscription is ever involved, and nothing is forgotten |
| `ProtocolSteps.StepKeeps` | pg_dbmigrator/src/orchestrator.rs:155-479 | every single event, failed saves included, keeps the invariant of the protocol and does none of what no step may do |
| `ProtocolSteps.RunKeeps` | pg_dbmigrator/src/orchestrator.rs:155-479 | so does every history |
| `ProtocolSteps.ReplayOne` | pg_dbmigrator/src/native_apply.rs:371-400 | the worker's next change lands behind those it has replayed |
| `Config.ValidIff` | pg_dbmigrator/src/config.rs:249-345 | which configurations are valid |
| `Config.RefusalIsTrue` | pg_dbmigrator/src/config.rs:249-345 | a refusal names something that is wrong |
| `Resume.CompatibleIff` | pg_dbmigrator/src/resume.rs:198-219 | a token is accepted if and only if mode, endpoints without credentials, the include lists as multisets and the online names agree |
| `Resume.SortCanonical` | pg_dbmigrator/src/resume.rs:250-256 | sorting makes the key independent of the order of the lists, and of nothing else |
| `Resume.SortedUnique` | pg_dbmigrator/src/resume.rs:250-256 | two sorted lists with the same elements are the same list |
| `Resume.ResumeToken.Mark` | pg_dbmigrator/src/resume.rs:140-143 | marking adds that stage and no other |
| `Resume.TokenFile.Save` | pg_dbmigrator/src/resume.rs:177-193 | whatever goes wrong, the file is afterwards either untouched or the whole new token, and only the sibling can be torn |
| `Resume.TokenFile.SaveAll` | pg_dbmigrator/src/resume.rs:177-193 | after any saves with any faults the file is the token of the last one that got through, and never torn |
| `Resume.TokenFile.Load` | pg_dbmigrator/src/resume.rs:153-175 | absent, unreadable, not a token, of another layout version, and whole are told apart |
| `Cutover.CutoverHandle.Request` | pg_dbmigrator/src/cutover.rs:40-45 | sets flag and permit and returns the previous flag |
| `Cutover.CutoverHandle.PollNotified` | pg_dbmigrator/src/cutover.rs:53-55 | ready exactly if a permit was stored, which it takes |
| `Cutover.LagSampler.Observe` | pg_dbmigrator/src/cutover.rs:86-108 | on the positions: caught up if and only if the source is at most the threshold ahead, lag the distance or zero, and the transition tells whether that changed and in which direction |
| `ApplyLoop.Engine.Turn` | pg_dbmigrator/src/native_apply.rs:421-493 | one turn is cancelled exactly if it finds the loop cancelled, cuts over exactly if it is not stopped before it finds a request, and fails only on a dead worker after three, six, … samples in a row without progress; it takes its sample exactly if it gets that far |
| `ApplyLoop.Engine.Run` | pg_dbmigrator/src/native_apply.rs:421-493 | the loop ends at the first turn that is cancelled or finds a request, for the cause that turn shows, or at one that finds the worker dead; never by lag; `cutover_triggered` exactly for the cutover; it does end at such a turn if no worker is found dead before |
| `ApplyLoop.Engine.Measure` | pg_dbmigrator/src/native_apply.rs:452-464 | on the positions: lag and statistics of the sample, the fast interval exactly if the source is at most the threshold ahead, and the reports this sample causes |
| `ApplyLoop.Engine.Progress` | pg_dbmigrator/src/native_apply.rs:466-487 | the counter is the length of the current run of stale samples modulo 3, and a check is due exactly when that length is a positive multiple of 3 |
| `ApplyLoop.StaleRunIsLongest` | pg_dbmigrator/src/native_apply.rs:466-472 | that length counts all stale samples since the last one that was not |
| `ApplyLoop.StaleIff` | pg_dbmigrator/src/native_apply.rs:466-472 | a sample is stale if and only if the confirmed position has not moved and is behind the source |
| `ApplyLoop.CheckDueIff` | pg_dbmigrator/src/native_apply.rs:466-487 | a check is due if and only if a positive multiple of three samples in a row, and no more, are stale |
| `ApplyLoop.ReportsAlternate` | pg_dbmigrator/src/native_apply.rs:645-689 | "ready for cutover" and "fell behind" strictly alternate, the former first, and their number tells whether the sampler is caught up |
| `CutoverProtocol.NoLostWakeUp` | pg_dbmigrator/src/cutover.rs:40-55 | in every interleaving a permit implies the flag, a loop parked after a completed request has a permit to wake on, at most one more sample completes once the flag is set, and exits have the cause they claim: a request, a cancellation, or a check that found the worker dead |
| `CutoverProtocol.NeverBlocked` | pg_dbmigrator/src/native_apply.rs:421-440 | after a completed request the loop can always move without the timer |
| `CutoverProtocol.LatencyBound` | pg_dbmigrator/src/native_apply.rs:421-493 | from the moment the flag is set the loop takes at most seven steps, whatever is interleaved |
| `CutoverProtocol.CancelBound` | pg_dbmigrator/src/native_apply.rs:421-437 | from a cancellation on the loop takes at most five steps, whatever is interleaved |
| `CutoverProtocol.LeftStep` | pg_dbmigrator/src/native_apply.rs:421-493 | each of its steps brings it closer to the exit, and no other step moves it away |
| `CutoverProtocol.OfflineNeverCutsOver` | pg_dbmigrator/src/bin/pg_dbmigrator/main.rs:83-88 | offline, Ctrl+C never requests a cutover |
| `CutoverProtocol.SecondSigintCancels` | pg_dbmigrator/src/bin/pg_dbmigrator/main.rs:83-113 | online, a Ctrl+C cancels if and only if a cutover was requested before |
| `CutoverProtocol.ServeSignals` | pg_dbmigrator/src/bin/pg_dbmigrator/main.rs:90-113 | how many deliveries the handler serves, when it requests and when it cancels |
| `CutoverProtocol.RunKeeps` | pg_dbmigrator/src/native_apply.rs:421-493 | every interleaving keeps the protocol's invariant |
| `SplitPages.SplitPages` | pg_dbmigrator/src/copy_split.rs:98-122 | with min(pages, parts) ranges cut at multiples of the step, the last one open, for every 64-bit part count; a build that checks for overflow panics instead if and only if there are 2^63 parts and two pages or more, and a wrapping one cuts the same way there; nothing else overflows |
| `SplitPages.PartsLessOneFits` | pg_dbmigrator/src/copy_split.rs:110-110 | `parts - 1` stays in the signed range for every part count but 2^63 |
| `SplitPages.StepOf` | pg_dbmigrator/src/copy_split.rs:102-103 | the step is the pages divided by the parts, at least one, also for part counts that the cast makes negative |
| `SplitPages.StepFits` | pg_dbmigrator/src/copy_split.rs:102-121 | `start + step` never exceeds the page count, and the loop's stop test is true exactly at the last range |
| `SplitPages.ExactlyOnePart` | pg_dbmigrator/src/copy_split.rs:55-66 | every row address, on any page the heap may grow to, satisfies exactly one range's predicate |
| `SplitPages.Balanced` | pg_dbmigrator/src/copy_split.rs:102-121 | all ranges but the last have the same number of pages, and the last exceeds it by fewer than the number of parts |
| `SplitCopy.StreamsCoverSnapshot` | pg_dbmigrator/src/copy_split.rs:279-303 | together the streams of a table deliver every row of the snapshot once |
| `SplitCopy.OneMoreRow` | pg_dbmigrator/src/copy_split.rs:55-66 | a further row adds to its own stream and to no other |
| `SplitCopy.CopiedWithin` | pg_dbmigrator/src/copy_split.rs:361-379 | when only some streams have committed, no row is there too often |
| `SplitCopy.PlanSplitTables` | pg_dbmigrator/src/copy_split.rs:137-196 | the plan has an entry for each table with copyable columns and pages that passes the cast threshold, with ranges that cut its pages; there is none exactly if overflow is checked, there are 2^63 parts, and a table to be planned has two pages or more |
| `SplitCopy.ChosenDistinct` | pg_dbmigrator/src/copy_split.rs:168-195 | the plan never names a table twice |
| `SplitCopy.ChosenIff` | pg_dbmigrator/src/copy_split.rs:159-182 | a table is chosen if and only if the catalog lists it with columns and pages and it is at or above the threshold, or the cast has made that negative |
| `SplitCopy.PlannedIffLarge` | pg_dbmigrator/src/copy_split.rs:164-164 | the plan picks only tables at or above the threshold if and only if the threshold fits a signed 64-bit integer |
| `SplitCopy.Target.RunStreams` | pg_dbmigrator/src/copy_split.rs:361-379 | under any interleaving the table holds what the streams that committed had selected, and each stream has come as far as its turns allow |
| `SplitCopy.Target.CopyTable` | pg_dbmigrator/src/copy_split.rs:361-379 | under any interleaving success means exactly the snapshot's rows, failure never a row too many, no other table changes, a cancellation fails it as such, and it succeeds if no stream is starved |
| `SplitCopy.Target.CopyPlanned` | pg_dbmigrator/src/copy_split.rs:323-379 | without the opt-in a table that holds rows is refused and left alone; a connection, query or TRUNCATE that fails leaves everything as it was |
| `SplitCopy.Target.RunSplitCopy` | pg_dbmigrator/src/copy_split.rs:314-395 | success returns the sum of the planned tables' row counts and delivers each; tables outside the plan never change; occupied tables fail the run with their rows untouched; where no connection, statement or stream fails, nothing but an occupied table does |
| `SplitCopy.TotalCounts` | pg_dbmigrator/src/copy_split.rs:314-395 | the total returned counts every row of every planned table |
| `Quoting.SetvalRoundTrip` | pg_dbmigrator/src/sequences.rs:307-317 | the statement exists exactly for names without NUL, and read by the server's rules (sections 4.1.1 and 4.1.2 of the PostgreSQL manual) addresses precisely that sequence, if pg_walstream doubles quotes and leaves backslashes alone |
| `Quoting.SetvalInjective` | pg_dbmigrator/src/sequences.rs:293-317 | two sequences never share a statement |
| `Quoting.SetvalText` | pg_dbmigrator/src/sequences.rs:314-316 | the statement for a plain name, in full |
| `Quoting.QualifiedReadsBack` | pg_dbmigrator/src/sequences.rs:308-312 | the qualified name parses back to its two halves |
| `Quoting.WarningRoundTrip` | pg_dbmigrator/src/sequences.rs:221-225 | the RAISE literal is one literal, and its format has exactly one placeholder and expands to the original qualified name |
| `Quoting.CutStaysOpen` | pg_dbmigrator/src/sequences.rs:214-225 | a quoted text cut off anywhere but at a quote is left open |
| `SequenceScript.BuildBatchSql` | pg_dbmigrator/src/sequences.rs:203-231 | the loop over a growing string builds the script of all sequences, or fails on the first name that cannot be quoted |
| `SequenceScript.ScriptRoundTrip` | pg_dbmigrator/src/sequences.rs:203-231 | the script exists exactly when no name contains NUL, and reads back as the given sequences and values in order if and only if no name contains the tag of the DO block; otherwise the body the server finds cannot be read, and the script fails whatever follows it |
| `SequenceScript.CutBlocks` | pg_dbmigrator/src/sequences.rs:207-229 | whichever name contains the tag first, the blocks up to there cannot be read |
| `SequenceScript.TagAsName` | pg_dbmigrator/src/sequences.rs:207-229 | a sequence named like the tag breaks the script |
| `SequenceScript.BlockTagged` | pg_dbmigrator/src/sequences.rs:216-226 | a block contains the tag exactly if one of its names does, in spite of all quoting |
| `DollarQuoting.DollarReadsBack` | pg_dbmigrator/src/sequences.rs:207-229 | a body without the tag reads back and any other ends early |
| `DollarQuoting.FindSplit` | pg_dbmigrator/src/sequences.rs:207-229 | where a tag is first found in a text around a character that is not in it |
| `DollarQuoting.OccursDoubled` | pg_dbmigrator/src/sequences.rs:214-225 | doubling a character that is not in the tag neither makes nor hides an occurrence |
| `DollarQuoting.OccursSplit` | pg_dbmigrator/src/sequences.rs:214-225 | no occurrence straddles a character that is not in the tag |
| `SequenceScript.BlockReadsBack` | pg_dbmigrator/src/sequences.rs:208-227 | one block reads back as its sequence and value, whatever follows |
| `SequenceScript.BlockText` | pg_dbmigrator/src/sequences.rs:208-227 | one block for a plain name, in full |
| `SequenceScript.ScriptText` | pg_dbmigrator/src/sequences.rs:203-231 | the script around the blocks, in full, with numbers in decimal |
| `SequenceSync.ApplySequences` | pg_dbmigrator/src/sequences.rs:160-196 | on the source's sequences: each that was advanced and can be set has the source's value and is counted, every other value is as it was, whatever the batch did before it failed; a name with NUL among those that were advanced is the only error |
| `SequenceSync.ApplyBatch` | pg_dbmigrator/src/sequences.rs:235-243 | success is the full sync with its count; failure leaves a partial one, or none when a name cannot be quoted or contains the tag; undisturbed, nothing else makes it fail |
| `SequenceSync.ApplyIndividually` | pg_dbmigrator/src/sequences.rs:267-291 | every settable sequence is set and counted, the others skipped |
| `SequenceSync.ApplySingle` | pg_dbmigrator/src/sequences.rs:246-264 | the same for one |
| `SequenceSync.SyncedMeans` | pg_dbmigrator/src/sequences.rs:160-196 | key by key: settable advanced sequences have their source value, all others are unchanged |
| `SequenceSync.ActionableIff` | pg_dbmigrator/src/sequences.rs:164-180 | actionable are exactly the sequences that were advanced, with their values |
| `SequenceSync.ActionableCount` | pg_dbmigrator/src/sequences.rs:164-180 | the count is the number of listed sequences that were advanced and can be set |
| `SequenceSync.Converges` | pg_dbmigrator/src/sequences.rs:186-195 | syncing again erases every trace of a partial batch |
| `SequenceSync.ActionableSize` | pg_dbmigrator/src/sequences.rs:332-335 | the count of skipped sequences cannot underflow |
| `Verify.VerifyRowCounts` | pg_dbmigrator/src/verify.rs:177-280 | workers interleaved in any way return the rows of one sequential pass, and do return if none is starved or fails |
| `Verify.Chunks` | pg_dbmigrator/src/verify.rs:179-189 | the chunks are non-empty, at most as many as jobs, all of the same size but possibly the last, and concatenate to the list |
| `Verify.ReportMeans` | pg_dbmigrator/src/verify.rs:63-71 | for tables without a dot in their own name, one entry per table with its counts on both sides, -1 for a table the target lacks, and ok if and only if every one exists on the target with the same count |
| `Verify.VerifySelected` | pg_dbmigrator/src/verify.rs:141-280 | for dot-free names, from candidates to report: one entry per selected table with its counts, ok if and only if each exists on the target with the same count, for any number of jobs and any interleaving |
| `Verify.SelectedLabels` | pg_dbmigrator/src/verify.rs:94-117 | selecting labels is selecting tables, for dot-free names |
| `Verify.ChosenOnce` | pg_dbmigrator/src/verify.rs:94-117 | each relation is chosen as often as it is a candidate, if it is wanted |
| `Verify.SelectMeans` | pg_dbmigrator/src/verify.rs:94-117 | a name is selected if and only if it is a candidate, included and not excluded |
| `Verify.SelectedIff` | pg_dbmigrator/src/verify.rs:94-117 | the same in terms of schema and table, for names without dots |
| `Verify.SplitsBackIff` | pg_dbmigrator/src/verify.rs:211-218 | the label splits back into schema and table if and only if the table's name has no dot |
| `RestoreErrors.Summary.Ingest` | pg_dbmigrator/src/restore.rs:252-275 | one more line keeps the bounded summary in agreement with the whole stream: counts, first five texts per category, last reported total |
| `RestoreErrors.Summary.IngestAll` | pg_dbmigrator/src/restore.rs:252-275 | after a whole stream, from the empty summary, each category has its count and its first five texts |
| `RestoreErrors.Summary.GetVerdict` | pg_dbmigrator/src/restore.rs:179-201 | the verdict demands review if and only if some line was classified as data loss, and reports none if and only if no line was an error; the counts add up to the total |
| `RestoreErrors.CategoriesAddUp` | pg_dbmigrator/src/restore.rs:111-156 | the categories partition the error lines |
| `RestoreErrors.ClassifyIff` | pg_dbmigrator/src/restore.rs:111-154 | which texts fall into which category, whatever their case, the first category listed winning |
| `RestoreErrors.ErrorParsed` | pg_dbmigrator/src/restore.rs:101-105 | an error line carries the text behind its prefix |
| `RestoreErrors.IgnoredParsed` | pg_dbmigrator/src/restore.rs:252-262 | the line with the number of ignored errors reads back, if it fits 32 bits |
| `RestoreErrors.NoiseParsed` | pg_dbmigrator/src/restore.rs:252-265 | a line is an error exactly if it begins with the error prefix |
| `RestoreErrors.LastIgnoredMeans` | pg_dbmigrator/src/restore.rs:252-262 | the number kept is that of the last such line |
| `RestoreErrors.DataLossSeen` | pg_dbmigrator/src/restore.rs:179-185 | texts of the data-loss category exist if and only if a line was so classified |

## Left out

- `force_clean`: a history never uses it, on resumed runs as on the first.
- `allow_restore_errors`: taken to be off, so that a failing pg_restore fails the run.
- Migrator.Migrator.RunOnline: says nothing of the tables when the dump did not read the slot's snapshot; `ProtocolTheorems.ExactlyOnceIff` says which tables are exact then.
- ProtocolTheorems.ExactlyOnce: says nothing once a restore is forgotten or a dropped subscription created again; `OnlineScope.ExactIffNothingDropped` says for which configurations neither matters.
- OnlineLeftover.ExactIffNotMisled: a subscription left over from an earlier migration is not modelled; it covers the tables there were when it was created, and is not refreshed when it is enabled again.
- OfflineLeftover.ExactIffNotMisled: is stated for configurations that can be resumed, as are the results of OfflineScope.
- Quoting.SetvalRoundTrip: rests on pg_walstream's `quote_literal`, which is not part of this model, leaving backslashes alone.
- Migrator.Migrator.SyncSequences: the outcome of the sync is only logged; what it does to the sequences is the subject of `SequenceSync`.
- Networks, TLS, process spawning, SQL execution and logging: each call is the change it makes, with failure where the code handles it.
- Argument vectors of pg_dump and pg_restore beyond the exclude list, sections and `--clean`: flat mappings.
- `parse_lsn` and `parse_size`: the former lives in pg_walstream, which is not part of this model; positions are natural numbers.
- Updates and deletes in the bags of rows: module SplitRoutes counts every change as a row inserted.
- The tables a publication covers after filtering, and generated columns: include and exclude filters are empty in the protocol.
- Preflight: version and privilege checks are single branches.
- The standalone verify mode: the comparison of module Verify, always strict.
- Hash collisions: the configuration hash is modelled as the value it is computed from.
- Wall-clock time: an elapsed interval is a wake-up that may come at any moment; only which interval is in force is kept, and the 30 seconds of the slot wait are a number of polls.
- Letters and white space beyond ASCII in pg_restore's stderr.
- `render_report`, progress events and the JSON form of the token: presentation.
- Sequence counts are taken to fit the 32-bit integer they travel in.
