# Verified model of the OPNsense control tools

This project models four stateful parts of the repository, and two steps of the
upgrade flow that carry their own claims, and proves what each keeps over whole
runs.

- **Chardev drain relay.** `Drain` is a step machine: one step is one critical
  section of the hub's mutex, one channel operation or one call on a connection,
  so a sequence of steps is any interleaving of readers, writers, the accept loop
  and the client pumps. `DrainProofs` holds the claims over every execution,
  `DrainOrder` those across sessions, `DrainReopen` two executions that show them.
  `DrainHub` holds the hub object and the loop bodies in the source's own form;
  each is proved to be a sequence of the machine's actions.
- **Resumable upload.** `Upload` has the server's commands as lists of file
  operations on a disk that distinguishes what the process sees from what a crash
  can take back: the fsynced prefix of the temp file, and the directory entries
  since the last directory fsync. Whether an fsync of a file also makes its name
  durable is a property of the file system; both kinds are covered. A crash may
  follow any operation. `UploadProofs`, `UploadTrace` and `UploadLoss` hold the
  claims over every run of streams, errors, crashes and resumes, `UploadExact` what
  each command does from its inputs. `UploadServer` is the server's object with its
  methods, `UploadClient` the client's stop-and-wait loop.
- **Upgrade lifecycle.** `Lifecycle` has prepare, execute, validate, rollback,
  commit, gc, reset and run as lists of external effects, each call with an
  outcome the environment chooses (it works, it fails, or it reports failure after
  taking effect). `LifecycleProofs` and `LifecycleSweep` hold the claims over every
  history of commands and crashes, `LifecycleExact` and `LifecycleRun` what each
  command does from its inputs. `UpgradeHost` has the commands as methods.
  `Listing` has the snapshot names and the two parsers of `qm listsnapshot` output.
- **Deploy slots.** `Deploy` has the file operations of DeployFromPath, Revert and
  MarkHealthy, `DeployState` the state file's printer and parser, `DeployProofs` the
  claims, `DeployExact` when a command works and what it tidies, `DeployCrash` the
  claims about a crash inside a deploy, `DeployManager` the object with its methods.
- **Firmware and reboot.** `Firmware` has the update plan, the update and the check
  after it against a guest; `Reboot` has the wait for a new boot.

The pattern is the same throughout: a specification function gives the effects of
a command, in order; a crash leaves a prefix of them; an imperative method is
proved to perform exactly those effects; and the claims are lemmas about every
sequence of commands, prefixes included.

Where the code and its documentation differ, the model follows the code:

- `allowedTransitions` (`internal/upgrade/state.go:139-186`) is not the relation the
  commands write. `TableAgainstCode` names the six differences.
- gc goes on without protecting the active snapshot when state.json cannot be read.
  `UnreadableStateLosesBaseline` says exactly when that deletes a pending baseline,
  `WeekOldBaselineIsLost` shows one that is lost.
- The wait for a reboot can make one probe more than timeout/interval + 1 when the
  interval does not divide the timeout. `RoundingDownIsExact` states both directions.
- A crash can lose more than one checkpoint interval of an upload, in two ways. The
  directory of the temp file is not fsynced when it is created, so on a file system
  that does not make the name durable with the file a crash can take the whole file
  (`UnsyncedNameLosesAll`). And a receive error ignores the result of its save; if
  only the fsync of the state directory fails, an old state file can come back
  (`UnsyncedSaveLosesMore`). `CrashLossIsExact` says exactly when neither can happen,
  from the outcomes of the commands so far.
- A client that stays attached across a re-opening of the chardev can see a gap
  (`ReopenCanLeaveGap`) or the chunks out of order (`ReopenCanReorder`).
  `ReopenIsInOrderWhen` says exactly when it sees neither.
- A commit that is cut short after it released the snapshot cannot be repeated, and
  reset refuses; `OnlyCommitLeads` says exactly which commands lead out.
- A deploy that fails at its last rename has already overwritten `.previous`;
  `FailedDeployAgreement` says exactly when Status is still right,
  `FailedSwapMisreports` shows a machine on which it is not. `CrashAgreement` says the
  same of every point a crash can cut a deploy at.
- When the repository offers an updater the guest does not take, an update that
  worked fails its check: `UpdateIsVerified` states the exact condition,
  `NewerUpdaterFailsTheCheck` shows such a guest.

## Model

| member | source | states |
|---|---|---|
| DrainProofs.GapFree | cmd/opnsensectl/opnsense_drain.go:479-542 | In every execution and every chardev session, what a connection has received, a write under way included, is a prefix of what the reader stamped with that connection's epoch, and no chunk is written to a connection of another epoch |
| DrainProofs.NothingLostWhileAttached | cmd/opnsensectl/opnsense_drain.go:484-542 | While a client stays attached, the stamped bytes are exactly the delivered ones followed by those still in the pipeline |
| DrainProofs.EveryChunkInOnePlace | cmd/opnsensectl/opnsense_drain.go:447-542 | Every stamped chunk is in exactly one of: at the reader, queued, held by the writer, written, discarded; the queue never exceeds 256 |
| DrainProofs.ReaderNeverStalls | cmd/opnsensectl/opnsense_drain.go:484-514 | After a read the reader's next action is enabled unless the accept loop is flushing, and then the flush can step; nobody else moves the reader, and each own action brings it nearer to the next read |
| DrainProofs.FlushIsBounded | cmd/opnsensectl/opnsense_drain.go:65-78 | While setClient holds the mutex it receives at most the queue it found plus one chunk, under any interleaving |
| DrainProofs.FlushEmpties | cmd/opnsensectl/opnsense_drain.go:65-82 | When it lets go of the mutex, the open session's queue is empty |
| DrainProofs.HubMovesByName | cmd/opnsensectl/opnsense_drain.go:65-96 | In every execution and step: an attached client goes exactly when a swap replaces it or a clear names it; only a swap attaches one or takes a new epoch, the next one; a connection is closed exactly when a close has named it |
| DrainProofs.ReplacedIsClosed | cmd/opnsensectl/opnsense_drain.go:75-81 | A client that a swap replaced is closed, unless the accept loop is still on its way to closing it |
| DrainOrder.ReopenIsInOrderWhen | cmd/opnsensectl/opnsense_drain.go:454-542 | The promise is per session. In every execution, the chunks the client attached at its end received over all sessions are in order and without a gap exactly when each write to it by one session returned when every earlier session had nothing on its way for it and stamped nothing more for it; every such write was whole |
| DrainOrder.InOrderBytes | cmd/opnsensectl/opnsense_drain.go:454-542 | The bytes the client received, in the order it received them, are then a prefix of everything stamped for it, session after session |
| DrainReopen.ReopenCanLeaveGap | cmd/opnsensectl/opnsense_drain.go:458-466 | An execution in which the chardev is re-opened under the same client and that client misses a chunk in between |
| DrainReopen.ReopenCanReorder | cmd/opnsensectl/opnsense_drain.go:526-539 | An execution in which the old session's writer writes its last chunk after the new session's writer: nothing is lost or on its way, and the client received the chunks in the wrong order |
| DrainHub.DrainHub.SetClient | cmd/opnsensectl/opnsense_drain.go:65-82 | Installs the connection under the next epoch, leaves the queue empty, having received exactly what was in it, and closes the prior connection |
| DrainHub.DrainHub.ClearClient | cmd/opnsensectl/opnsense_drain.go:90-96 | Detaches the connection if it is the client, leaves any other client attached, and leaves the epoch and what is closed as they were |
| DrainHub.RelayData | cmd/opnsensectl/opnsense_drain.go:487-504 | One pass of the read loop is the machine's read, stamp, send and, on overflow, client-dropping actions, and ends ready to read |
| DrainHub.ForwardOne | cmd/opnsensectl/opnsense_drain.go:526-539 | One pass of the write loop is the machine's take, snapshot, write and failure actions |
| DrainHub.ReaderTurnEnds | cmd/opnsensectl/opnsense_drain.go:487-504 | An undisturbed read stamps the hub's epoch; it queues the chunk, or, when the queue is full, drops the client and leaves the queue as it was |
| DrainHub.WriterTurnEnds | cmd/opnsensectl/opnsense_drain.go:526-539 | An undisturbed write reaches the client exactly when the chunk has the hub's epoch and there is a client; a short write drops that client |
| UploadProofs.HasherFollowsFile | internal/svc/transfer.go:479-509 | In every run the live hasher has absorbed exactly the bytes the client sent, which are exactly the temp file, up to CommittedOffset |
| UploadProofs.SameHashAsUninterrupted | internal/svc/transfer.go:593-646 | However often an upload broke, crashed and resumed, the hasher has absorbed exactly data[..CommittedOffset] and so ends with the hash of data |
| UploadProofs.OffsetIsDurable | internal/svc/transfer.go:511-523 | Wherever a crash hits, any offset it can leave in the state file is at most the length of any content it can leave of the temp file, and that content agrees with what was sent up to the offset. Whether the file keeps its name is the next row |
| UploadLoss.OffsetKeepsItsFile | internal/svc/transfer.go:542-583 | Between any two commands a crash can leave an offset beyond the start without a file under any name exactly when such an offset and the missing name are both unsettled |
| UploadProofs.ResumeNeverExtends | internal/svc/transfer.go:606-624 | The truncation of a resume never lengthens the file |
| UploadProofs.InstalledIsWhole | internal/svc/transfer.go:648-693 | In every run and at every crash point each of the target and the staged path holds its prior content, or everything the client sent, durable and with the Final's checksum |
| UploadProofs.FinishInstalls | internal/svc/transfer.go:648-751 | Exactly when a Final installs and exactly when it reports a terminal; the terminal's length and hash are those of what was sent; the other path is untouched; a backup is reported exactly when SNAPSHOT_THEN_REPLACE found a target, and then holds its bytes |
| UploadProofs.ChecksumIsChecked | internal/svc/transfer.go:648-667 | Where hash texts and the given sum are lower-case: a Final installs only what has exactly that hash; with any other sum both paths stay as they were, there is no terminal, and the stream is over |
| UploadProofs.InstalledHasItsHash | internal/svc/transfer.go:648-693 | The same of every run and every crash point |
| Text.FoldMeans | internal/svc/transfer.go:651 | Two hash texts count as equal exactly when they are as long and agree at every index up to the case of an ASCII letter |
| Text.FoldIsEqual | internal/svc/deploy.go:199 | On texts without upper-case letters that is equality |
| UploadExact.OpenIsExact | internal/svc/transfer.go:542-591 | An upload is opened exactly when its file is made, its state saved and synced, and the acknowledgement sent; it starts with an empty file and the offset 0 on record |
| UploadExact.ChunkIsExact | internal/svc/transfer.go:439-523 | Exactly when a chunk is acknowledged, and with which offset; the state file is written exactly when the chunk takes the offset 16 MiB or more past the last checkpoint |
| UploadExact.ResumeIsExact | internal/svc/transfer.go:593-646 | Exactly when a resume is accepted; the acknowledged offset is that of the state file, and the file is cut there; a refusal before the acknowledgement removes nothing |
| UploadProofs.NextKeeps | internal/svc/transfer.go:411-523 | Every command and every crash keeps the invariant that ties the state file, the fsynced prefix, the hasher, the offset and the installed names together |
| UploadLoss.CheckpointBound | internal/svc/transfer.go:497-508 | Between any two commands CommittedOffset is less than 16 MiB ahead of the offset in the state file |
| UploadLoss.CrashLossIsExact | internal/svc/transfer.go:497-583 | In every run with a live stream, wherever in the next command a crash hits and whatever it leaves, less than 16 MiB of acknowledged bytes are lost, a refused resume counting as the loss of all, exactly when less than that has been acknowledged, or every name and offset that the outcomes so far leave unsettled is good and the command does not itself take one away |
| UploadLoss.KeptIsWhatResumes | internal/svc/transfer.go:593-646 | What counts as kept is what the next stream finds: the acknowledged resume offset, nothing when every resume is refused, everything when the file is installed |
| UploadLoss.AcceptedResumesAreNear | internal/svc/transfer.go:593-646 | Of the resumes that are accepted after a crash, none goes on 16 MiB or more behind the last acknowledged offset exactly when every unsettled offset is nearer, or the temp name cannot come back and none is accepted |
| UploadTrace.UnsettledIsExact | internal/svc/transfer.go:511-523 | What a crash can bring back of the state file is the last offset saved without error and those saved with an error since |
| UploadTrace.NamesAreExact | internal/svc/transfer.go:511-591 | What a crash can bring back of the file's name is what the creations, fsyncs, renames and removals so far leave unsettled, for both kinds of file system |
| UploadLoss.CrashLosesLittle | internal/svc/transfer.go:497-523 | So where an fsync of a file makes its name durable, a crash loses less than 16 MiB as long as every state file that was renamed had its directory synced and nobody took the temp file or the state away |
| UploadLoss.UnsyncedSaveLosesMore | internal/svc/transfer.go:433-437 | Without the directory syncs, runs exist that lose everything acknowledged, 16 MiB or more |
| UploadLoss.UnsyncedNameLosesAll | internal/svc/transfer.go:551-583 | Where an fsync of a file does not make its name durable, for every upload of 16 MiB or more in one chunk there is a run in which every call works and a crash leaves the full offset on record, no file, and no resume that is accepted |
| UploadServer.WriteTransfer.OpenWriteState | internal/svc/transfer.go:542-591 | Performs exactly the specified operations and leaves the specified stream and reply, for every outcome of its calls |
| UploadServer.WriteTransfer.ResumeWriteState | internal/svc/transfer.go:593-646 | The same for a resume: truncates to the offset in the state file and rebuilds the hasher from the file |
| UploadServer.WriteTransfer.WriteChunk | internal/svc/transfer.go:479-509 | The same for one chunk; it works exactly when the offset is the committed one, the write works and a due checkpoint is saved |
| UploadServer.WriteTransfer.ServeChunk | internal/svc/transfer.go:439-455 | The same for the chunk with its acknowledgement or its cleanup |
| UploadServer.WriteTransfer.RecvFails | internal/svc/transfer.go:433-437 | A receive error fsyncs and saves the committed offset, as far as those calls work |
| UploadServer.WriteTransfer.SnapshotThenReplace | internal/svc/transfer.go:713-751 | Backs the target up before the rename, and reports a backup exactly when there was a target |
| UploadServer.WriteTransfer.FinalizeWrite | internal/svc/transfer.go:648-711 | The same for the Final; where hash texts and the given sum are lower-case it installs only if the hash of what was absorbed is that sum, and with another sum it ends in a failure that leaves both paths as they were |
| UploadClient.UploadChunks | cmd/opnsensectl/opnsense_file.go:254-286 | Runs in lockstep: at each loop head the offset is the server's committed one and both hashers hold data[..offset]; every message is at most the chunk size; it ends; success means all of data is sent, and it succeeds when no call fails |
| UploadClient.StreamUpload | cmd/opnsensectl/opnsense_file.go:198-248 | On success the path the upload finishes into holds data, the other path is unchanged, and the terminal has data's length and hash; it succeeds when no call fails |
| LifecycleProofs.BaselineKept | internal/upgrade/rollback.go:15-58 | At every point of every history, crashes between any two effects included: if the persisted phase is one Rollback accepts, the recorded baseline is on the VM |
| LifecycleProofs.CommandOk | internal/upgrade/state.go:131-226 | Every effect of every command, from any sound host, spares a pending baseline and writes only along the real transitions with the writer and the record that belong to them |
| LifecycleProofs.CommitIsJustified | internal/upgrade/commit.go:31-57 | The state file write before any write of committed is a validation in which every check passed or a rollback that saved rolled_back |
| LifecycleProofs.StuckUntilReset | internal/upgrade/state.go:131-199 | From rollback_failed, or from executing left by a crash, no history without a reset writes or removes the state file |
| LifecycleProofs.ResetFrees | internal/upgrade/reset.go:172-219 | Reset does remove it when its calls work and the VM lists the baseline |
| LifecycleProofs.CommitStrands | internal/upgrade/commit.go:49-60 | A commit cut short after the release, or whose save fails, leaves its phase with the baseline gone |
| LifecycleProofs.OnlyCommitLeads | internal/upgrade/commit.go:36-60 | From such a host, with a VM that neither deletes nor lists what is not there, a command leads out of the two phases exactly when it is a commit that keeps the snapshot or is given another one to release |
| LifecycleProofs.TableAgainstCode | internal/upgrade/state.go:139-186 | The transitions the commands write and the documented table differ in exactly six pairs |
| LifecycleProofs.WritesAreEdges | internal/upgrade/state.go:188-226 | Every state file write in every history is one of the real transitions |
| LifecycleProofs.EdgeIsTaken | internal/upgrade/state.go:188-226 | Each real transition is written by some command on a sound host |
| LifecycleProofs.RunEndsWell | internal/upgrade/run.go:26-101 | Without an error the persisted record is the returned one, in validated_pass, validated_partial or rolled_back; AutoRollback is true exactly for rolled_back; validated_partial needs AcceptPartial |
| LifecycleProofs.RunSparesItsBaseline | internal/upgrade/run.go:26-101 | However it ends, Run deletes no baseline of its cycle and never writes committed |
| LifecycleRun.RunIsExact | internal/upgrade/run.go:26-101 | After a prepare that works and a reload: AutoRollback exactly when the peek sees execute_hung or validation saved a failure; then no error exactly when the rollback starts and restore, guest and save work; otherwise no error exactly when validation saved a pass or an accepted partial pass; the baseline, or the snapshot asked for, is restored exactly in the first case when the rollback starts and its call takes effect; and the phase Run leaves, all from the inputs |
| LifecycleRun.RunStops | internal/upgrade/run.go:31-54 | Without such a prepare and reload it fails there and does nothing more |
| LifecycleRun.ValidateIsExact | internal/upgrade/validate.go:14-88 | Exactly when validate saves a result; the record holds the phase of its checks and the names of exactly the failing ones |
| LifecycleProofs.RollbackEndsIn | internal/upgrade/rollback.go:15-58 | A rollback that starts leaves rolled_back when the restore works and the guest comes back, else rollback_failed, and what was there when that save fails; it succeeds exactly when restore, guest and save all do; the returned record is the one it tried to save, or the loaded one exactly when the guest could not be started |
| LifecycleProofs.RolledBackMeansRestored | internal/upgrade/rollback.go:20-48 | rolled_back is written only after the target has been restored |
| LifecycleExact.RollbackStartsWhen | internal/upgrade/rollback.go:63-96 | Exactly when a rollback starts and when it is refused; otherwise it does nothing |
| LifecycleSweep.RollbackIsExact | internal/upgrade/rollback.go:15-113 | What a rollback that starts does: asks for the watchdog snapshots listed below its target, newest first and whatever became of the others, restores the target as that call ends, and then saves its end phase |
| LifecycleSweep.ChildrenAreGone | internal/upgrade/rollback.go:20-113 | Where the deletes take effect, what the VM has when the restore is made is what it had less exactly those |
| LifecycleProofs.CommitReleases | internal/upgrade/commit.go:44-60 | Wherever a commit is cut short, committed is persisted only once the snapshot is released, unless it is kept or there is none |
| LifecycleProofs.ExecuteOk | internal/upgrade/execute.go:18-181 | Execute writes executing first and only then the end phase of its run; a crash in between leaves executing |
| LifecycleExact.PrepareIsExact | internal/upgrade/prepare.go:33-175 | When prepare works, when it is refused, when it takes the snapshot, and the record it leaves |
| LifecycleExact.ExecuteIsExact | internal/upgrade/execute.go:18-181 | When execute starts, and that its end phase is executed, execute_failed or execute_hung as the guest's run finished, broke or met the watchdog |
| LifecycleExact.CommitIsExact | internal/upgrade/commit.go:15-79 | When commit works, when it is refused, and when it releases which snapshot |
| LifecycleProofs.AggregateMeans | internal/upgrade/validate.go:102-177 | The phase is validated_pass exactly when there are checks and all pass, and validated_partial exactly when AcceptPartial is set and some checks pass and some fail |
| LifecycleProofs.FailingNamesMean | internal/upgrade/validate.go:138-150 | The failing names are exactly those of the failing checks, one for each |
| LifecycleSweep.GCIsExact | internal/upgrade/gc.go:65-98 | gc deletes on exactly the upgrade-named entries that are not active and old enough, none in a dry run; Deleted and Skipped together hold each upgrade-named entry as often as it is listed and no other name |
| LifecycleExact.GCGuards | internal/upgrade/gc.go:100-118 | With a readable state file the snapshot on record is skipped, whatever its age, in all phases but committed and rollback_failed; every other goes by its age alone |
| LifecycleExact.StaleIsAWeek | internal/upgrade/gc.go:48-84 | The age is a week unless another one is given |
| LifecycleSweep.UnreadableStateLosesBaseline | internal/upgrade/gc.go:100-118 | gc deletes a pending baseline exactly when state.json cannot be read and the baseline is listed and old enough |
| LifecycleSweep.WeekOldBaselineIsLost | internal/upgrade/gc.go:100-118 | A prepared host whose listed baseline is a week old loses it to a gc that cannot read state.json |
| LifecycleSweep.NewestFirst | internal/upgrade/rollback.go:96-114 | The children of a rollback target are asked for in reverse order, each once and whatever became of the others; what happens is that list less the calls that fail |
| LifecycleSweep.PlanIsExact | internal/upgrade/reset.go:109-152 | Reset refuses exactly when the baseline it would restore is not listed; otherwise it will delete, in order, every other upgrade snapshot as often as it is listed |
| LifecycleSweep.ResetIsOrdered | internal/upgrade/reset.go:166-219 | What reset did is always a prefix of: delete the orphans, roll back, remove the state file |
| LifecycleExact.ResetIsExact | internal/upgrade/reset.go:69-219 | A confirmed reset whose calls work: all upgrade snapshots but the baseline deleted in order, the baseline of any cycle on record but a committed one restored, a failed rollback's included, and the state file removed; nothing at all when that baseline is not listed or there is nothing to do |
| LifecycleExact.ResetStops | internal/upgrade/reset.go:172-219 | Nothing comes after a deletion or a restore that did not work |
| UpgradeHost.UpgradeHost.Prepare | internal/upgrade/prepare.go:33-175 | Performs exactly the specified effects in order, returns the specified record and error, and keeps a pending baseline on the VM |
| UpgradeHost.UpgradeHost.Execute | internal/upgrade/execute.go:18-181 | The same for execute |
| UpgradeHost.UpgradeHost.AggregateChecks | internal/upgrade/validate.go:152-176 | The counting loop gives all-pass, any-fail and partial of the whole list |
| UpgradeHost.UpgradeHost.Validate | internal/upgrade/validate.go:14-88 | The same for validate |
| UpgradeHost.UpgradeHost.DeleteChildSnapshots | internal/upgrade/rollback.go:96-114 | The backward loop asks for every child, going on past failures |
| UpgradeHost.UpgradeHost.Rollback | internal/upgrade/rollback.go:15-182 | The same for rollback, its clearing of the children and the stale record of a failed start included |
| UpgradeHost.UpgradeHost.Commit | internal/upgrade/commit.go:15-79 | The same for commit |
| UpgradeHost.UpgradeHost.GC | internal/upgrade/gc.go:37-98 | The sweeping loop deletes and reports what the specification says |
| UpgradeHost.UpgradeHost.PlanReset | internal/upgrade/reset.go:69-164 | Builds the plan and changes nothing |
| UpgradeHost.UpgradeHost.ResetExecute | internal/upgrade/reset.go:172-219 | Applies the plan in order and stops at the first failure |
| UpgradeHost.UpgradeHost.Run | internal/upgrade/run.go:26-101 | The same for the unattended pipeline; without an error it returns the persisted record, in one of the three end phases |
| Listing.ParsersAgree | internal/upgrade/snapshots_after.go:22-54 | For any listing with lines under the scanner limit, snapshotsAfter is the watchdog-named part of parseSnapshotNames after the target's first occurrence |
| Listing.OnlyWatchdogsAfter | internal/upgrade/snapshots_after.go:48-51 | On any text, only watchdog-named snapshots are returned |
| Listing.ParseOfRender | internal/upgrade/gc.go:120-144 | A rendered tree of legal names, with any indentation and columns, parses to the names in order; the row of the running state is passed over |
| Listing.AfterOfRender | internal/upgrade/snapshots_after.go:22-54 | On such a tree snapshotsAfter yields the watchdog's names behind the target's first row |
| Listing.SnapshotsAfterLoop | internal/upgrade/snapshots_after.go:22-54 | The line loop with its flag computes the specification |
| Listing.ParseSnapshotNamesLoop | internal/upgrade/gc.go:124-144 | The scanner loop computes the specification |
| Listing.TimestampFromName | internal/upgrade/gc.go:149-162 | The digit loop yields the tail as a wrapping int64 exactly for upgrade-named input |
| Listing.TimestampRoundTrip | internal/upgrade/state.go:228-253 | The timestamp of SnapshotName(t) is t for 0 <= t < 2^63; for negative t the name is no upgrade name |
| Listing.UpgradeNameIsNotWatchdog | internal/upgrade/snapshots_after.go:8-15 | A name made by prepare never matches the watchdog's patterns |
| Listing.UpgradeNameMeans | internal/upgrade/state.go:228-253 | An upgrade snapshot is the prefix and one or more decimal digits |
| Listing.WatchdogMeans | internal/upgrade/snapshots_after.go:8-15 | A watchdog snapshot holds one of the two marks with a character that is no white space behind it |
| Listing.LongLineEnds | internal/upgrade/gc.go:120-144 | A line of 65536 characters or more ends the scan: the names before it are all there is |
| DeployProofs.CurrentSurvivesDeploy | internal/svc/deploy.go:163-269 | At every point of a deploy an existing .current is its old bytes or the new ones whose hash was asked for |
| DeployProofs.DeployResult | internal/svc/deploy.go:163-269 | An error leaves .current as it was; success makes it the source's bytes and .previous the bytes that were current |
| DeployProofs.DeployChecksHash | internal/svc/deploy.go:163-225 | Where hash texts and the given one are lower-case: a deploy works only if the source has exactly that hash, and with any other it does nothing at all |
| DeployExact.DeployIsExact | internal/svc/deploy.go:163-269 | Exactly when a deploy works; what is refused before the first rename changes nothing |
| DeployExact.DeployTidies | internal/svc/deploy.go:204-269 | Where removals work, whatever else fails, an accepted deploy leaves neither the staged file nor a new temporary one |
| DeployProofs.DeployRecords | internal/svc/deploy.go:230-269 | A deploy that works records the source's hash, the version and the time; Status reports pending and the marker is there |
| DeployProofs.SourceMustNotBeCurrent | internal/svc/deploy.go:211-249 | .current is present at every point of an accepted deploy exactly when the source is another file |
| DeployProofs.CurrentSurvivesRevert | internal/svc/deploy.go:335-377 | At every point of a revert .current is its old bytes or .previous's |
| DeployProofs.RevertResult | internal/svc/deploy.go:335-377 | A successful revert makes .current the bytes of .previous; a failed one leaves it |
| DeployProofs.RevertRecords | internal/svc/deploy.go:335-377 | It records the hash of .previous in both fields, the version reverted and the time; Status reports pending and the marker is there |
| DeployProofs.HealthyIsExact | internal/svc/deploy.go:273-308 | A health mark works exactly when its calls do; then Status reports ok, the marker is gone, and the record keeps its version, its hashes and a time that is not zero, and gets what it had not |
| DeployProofs.RevertUndoesDeploy | internal/svc/deploy.go:163-377 | A deploy over an existing .current and then a revert restores the earlier bytes |
| DeployProofs.StatusAgreesWithDisk | internal/svc/deploy.go:230-377 | After any sequence of successful deploys, reverts and health marks, Status reports the hashes of .current and .previous, and the marker exists exactly while Status reports pending |
| DeployProofs.StatusAgreesFromFresh | internal/svc/deploy.go:310-331 | The same from a machine that has no state file yet |
| DeployProofs.HealthFollowsLast | internal/svc/deploy.go:230-377 | After any such sequence Status reports ok exactly when its last command was a health mark, and pending otherwise |
| DeployProofs.StatusWithoutRecord | internal/svc/deploy.go:310-331 | Without a record Status reports the disk's hashes, pending and no time; a record without health is pending; one that cannot be read gives no report |
| DeployProofs.FailedDeployAgreement | internal/svc/deploy.go:231-248 | Exactly when Status still agrees with the disk after a deploy that failed |
| DeployCrash.CrashAgreement | internal/svc/deploy.go:206-263 | A crash at any point of an accepted deploy leaves Status right exactly when the new record is written, or neither slot has got bytes that the old record's hash denies |
| DeployProofs.FailedSwapMisreports | internal/svc/deploy.go:231-248 | A machine with two recorded binaries on which a failed last rename makes Status wrong |
| DeployProofs.NewlineInVersionForgesActive | internal/svc/deploy.go:420-445 | Why the version must be one line: a version with a newline that makes the parser read another active hash |
| DeployState.RoundTrip | internal/svc/deploy.go:420-479 | Parsing what was printed gives the record back exactly when its text fields hold no newline and do not end in whitespace, for every int64 time |
| DeployState.ParseStateFile | internal/svc/deploy.go:449-479 | The line loop computes the specification |
| DeployManager.DeployManager.CopyFile | internal/svc/deploy.go:515-549 | Performs exactly the specified file operations, for every failing call |
| DeployManager.DeployManager.DeployFromPath | internal/svc/deploy.go:163-225 | The same for a deploy; an error leaves .current, success installs the bytes and answers with the hash that was wanted, to the letter where both are lower-case, and, when the notes are written, Status agrees with the disk |
| DeployManager.DeployManager.FinishSwap | internal/svc/deploy.go:230-269 | The same for the swap, the record and the marker |
| DeployManager.DeployManager.RevertToPrevious | internal/svc/deploy.go:335-377 | The same for a revert; it returns the hash of .previous, whose bytes .current then holds |
| DeployManager.DeployManager.MarkCurrentHealthy | internal/svc/deploy.go:273-308 | The same for a health mark, hashes that fail included; it returns the record it wrote, keeps the agreement, and leaves ok on record and in Status, and no marker |
| DeployManager.DeployManager.ReportStatus | internal/svc/deploy.go:312-331 | Reports the recorded hashes and time, and the disk's hashes, as far as they can be computed, where the record has none |
| Reboot.WaitForReboot | internal/upgrade/reboot.go:99-141 | Of every wait that ends: it ends at the first probe that finds a new boot, the deadline or the end of the context, and succeeds exactly when that probe answered with another boot ID |
| Reboot.RebootGuest | internal/upgrade/reboot.go:57-71 | Shutdown is issued exactly when the boot ID could be read before it; success is that of the wait |
| Reboot.SuccessIsANewBoot | internal/upgrade/reboot.go:95-141 | If boots have different IDs, the wait succeeds exactly when its last probe was answered by a later boot than the one read before shutdown, and every earlier answer came from the old boot |
| Reboot.TicksEnd | internal/upgrade/reboot.go:107-136 | The wait ends when each pause advances the clock by the interval, whatever the guest does |
| Reboot.ProbesAreBounded | internal/upgrade/reboot.go:107-136 | At most timeout/interval, rounded up, plus one probes |
| Reboot.RoundingDownIsExact | internal/upgrade/reboot.go:107-136 | That bound is met, and rounding down instead is right exactly when the interval divides the timeout |
| Reboot.DefaultProbes | internal/upgrade/reboot.go:26-51 | 301 probes with the defaults |
| Reboot.ParseBootID | internal/upgrade/reboot.go:33-93 | Yields an ID exactly when the trimmed output is the fixed head and 32 hex digits |
| Firmware.UpdateIsVerified | internal/upgrade/firmware.go:257-421 | For a guest that is as planned, an update without command failure passes the check exactly when the installed updater can bring the planned sets; it asks for the reboot the plan predicted exactly then, or when the setting is on and a package changed |
| Firmware.UntakenUpdaterFails | internal/upgrade/firmware.go:398-421 | Every guest that does not take the updater on offer, with its base and kernel at its own updater's release and no package revisions: nothing is installed, the predicted reboot does not come, and the check fails |
| Firmware.NewerUpdaterFailsTheCheck | internal/upgrade/firmware.go:398-421 | One such guest, at 26.7.3 with 26.7.2 on offer |
| Firmware.GuestRunner.ApplyPendingUpdate | internal/upgrade/firmware.go:339-380 | The update sequence leaves the guest and the result of the specification, and ends in no error when no command fails |
| Firmware.VerifyFirmware | internal/upgrade/firmware.go:398-421 | Reports no problem exactly when everything pending or applied is there |
| Firmware.PlanIsExact | internal/upgrade/firmware.go:222-293 | When there is a plan and what it holds: the series decides for a major upgrade; else what is pending follows from the guest and the repository, and the reboot from that and the setting |
| Firmware.MissedFails | internal/upgrade/firmware.go:398-421 | After an update, a core, a base or a kernel that is not where it should be fails the check, each for itself |
| Firmware.MajorIsVerified | internal/upgrade/firmware.go:398-421 | A major upgrade passes exactly when the core is in the target's series |
| Firmware.SeriesOfVersion | internal/upgrade/firmware.go:439-456 | The series of a.b with any patch level and package revision is a.b |
| Firmware.SeriesIsItsOwn | internal/upgrade/firmware.go:430-448 | A series is its own series, so upgrading to the installed series is no major upgrade |

## Left out

- gRPC, yamux, the serial device, systemd's fd store, qm and the notifier: their calls are steps with an outcome the environment chooses.
- SHA-256 is a function parameter of which nothing is assumed but, for the deploy record, that its text is not empty, holds no newline and does not end in whitespace; "has the checksum" is equality of hashes up to the case of ASCII letters; other letters, which Unicode folds too, do not occur in a hex text.
- JSON and hex encoding: records and hash texts are values.
- Text is a sequence of characters; bytes that are no valid UTF-8 are not modelled.
- The hub's epoch is unbounded; its wrap at 2^64 swaps is not modelled.
- A write of a chunk is one step with a count of bytes that arrived; a write that blocks forever is a step that is never taken.
- The chardev write direction of the client pump: it does not touch the queue, the epoch or the client but for dropping its own connection.
- One stream at a time per transfer, and one upgrade command at a time per VM: the code takes no lock across them.
- A snapshot call that reports failure after taking effect takes it before the call returns; one that lands only after later commands, as a detached process could, is not modelled.
- An fsync that fails is taken to leave the earlier durable prefix as it was.
- A backup's own directory fsync is modelled only as success or failure of the backup; what a crash between its rename and that fsync leaves is not.
- Downloads, transfer GC of old state files, the path allow list and the status call: they would only add easy members.
- The client's watchdog is one more way for a send or receive to fail.
- The crash of the upgrade commands and of the deploy is that of the process between two effects: state.json and the slot renames are not followed by a directory fsync in the source, so a power loss may undo them.
- Reset's plan and its execution are one command; the prompt between them is not modelled.
- gc's times are exact up to the saturation of the age; a time beyond the range of the clock type's internal seconds is not modelled.
- Deploys run under the manager's mutex, so no two of them interleave; the staged slot has no other writer meanwhile.
- Reboot.WaitForReboot: speaks of waits that end; on a clock that stands still the source's loop need not end, and then there is nothing to state.
- The firmware guest is the documented one: a package update never downgrades, the sets follow the updater package, and installing the sets sets both versions. Package listings are compared as maps.
- The liveness poll after a rollback is one answer, in time or not.
- The major upgrade's guest side, and prepare's captures of version, interfaces and routes: they do not affect the phase or the snapshots.
- XML and xpath edits, the rc.d script, the installer, the CLI, mail and logging.
