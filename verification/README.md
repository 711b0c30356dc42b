# Verification of Vidyut's transfer engine

Vidyut moves files and clipboard payloads between a phone and a laptop. This
project models the parts of it whose correctness is a matter of order, crashes
and interleavings, in Dafny, and proves what they promise:

- **The durable transfer engine.** A phone uploads a file in chunks. Accepted
  offsets live in memory, some are synced and saved, and a verified file is
  published by a hard link that never overwrites. `UploadEngine` is that
  protocol as a state machine whose steps are the stretches between two awaits,
  with saves that lag or fail and crashes at any instant. `UploadSafety`,
  `UploadResume`, `UploadRuns`, `UploadRecovery` and `UploadProgress` prove what
  holds over every run, `UploadUndisturbed` that a transfer or a hold left alone
  gets through, and `UploadFindings` shows the runs that make the conditions
  there necessary. `ProgressSessions`, `KeyLock` and `Finalization`
  are its objects and loops in the form the program has them.
- **The transfer queue.** `TransferFile` and `QueueModel` say what each
  operation does to a file and to the batches. `TransferQueue` is the object
  whose methods do it. `QueueRuns`, `QueueScheduling`, `QueueRecovery`, `Offers`,
  `SaveChain` and `PersistTail` prove what every run keeps: lawful status
  changes, single flight, first come first served, no idle line, snapshots that
  always load, recovery that closes the loop, offers that can be repeated, and
  saves that never go backwards. `Coordinator` is the handler of control
  messages above it, and `Download` the way from laptop to phone.
- **The encrypted stage** (Android). `StageFormat` and `Stage` prove that an
  indexed random read agrees with the scan and with the source, with no overflow.
- **The sealed session.** `Seal` proves that each end acts on a prefix of what
  the other sealed, against any network.
- **Smaller machines.** `Relay` (socket lifecycle), `Pool` (last writer wins)
  and `Search` (breadth-first search).

The two engines meet in `TransferFile`: a step of the queue is, for each file,
one `FileChange` or none (`QueueRuns.ApplySteps`), and those changes are the
ones the upload engine performs on its file.

## What was found

Some things the program's comments and shape suggest do not hold without a
condition. Each is proved both ways or shown by a run.

- *The stored offset is durable* needs one thing: when a fresh partial is
  created, no snapshot a crash could bring back may resume from a positive
  offset (`UploadRuns.CreatingThePartial`, an equivalence). Retrying before the
  save of a cancellation has landed breaks it
  (`UploadFindings.StaleSnapshotLosesItsPrefix`).
- *A completed file is the source* fails for an empty file that is cancelled,
  retried and claimed between its final link and `complete`, exactly when the
  name it asked for holds something else
  (`UploadSafety.CompletingIsSafeExactly`,
  `UploadFindings.EmptyRetryCompletesTheWrongFile`, `RetriedBeforeCompletion`).
- *Confirmed equals durable* needs every retry to find nothing counted and every
  handler to see its save succeed, and is lost at the first event where one does
  not (`UploadProgress.NextKeepsAlignedExactly`). Cancelling a single file
  clears its session; cancelling the whole transfer of a paused one does not, and
  the retry of the next offer comes upon it
  (`UploadFindings.RetryUnderLiveSession`).
- *A crash loses less than one checkpoint* is exactly a condition on the store
  (`UploadProgress.LossIsBoundedExactly`), and agreement in memory does not give
  it: after a failed save the queue keeps the offset, the next chunk takes it for
  durable, and a crash then loses a whole checkpoint
  (`UploadFindings.FailedSaveLosesACheckpoint`).
- *A repeated offer is recognised* needs more than the same files: the JSON keys
  of each file must be those `offer` writes, in that order
  (`Offers.OffersMatchExactly`), and the digest must not have been learnt since
  (`Offers.LearntDigestConflicts`). The offer's `batchId` and `createdAtMs` are
  not compared at all.
- *The indexed read agrees with the scan* only within the source: past its end
  the scan returns what there is and the indexed read throws
  (`Stage.IndexedAt`, `Stage.ScanAt`).
- *A device that leaves is reported* unless its id is the empty string, which
  the guard of `notifyDeviceDisconnected` takes for none
  (`Relay.ReportedExactlyOnTheLast`).
- *The newest payload wins* needs distinct nonces: a frame sent again keeps its
  first stamp while it is held (`Pool.RepublishingDoesNotConverge`). What wins
  in any case is said by `Pool.HoldsTheLastGreatestNotHeld`.

## Assumptions

- SHA-256 and AES-GCM are ideal: a digest determines its content, and what
  verifies under a key was sealed under it.
- The sender is honest: a chunk that decrypts for an offset holds the sender's
  bytes there, and a digest it claims is its file's.
- Directory entries are durable, synced bytes survive a crash, and unsynced
  bytes of a file become arbitrary, no longer than what was lost.
- File ids are unique across transfers and hold no dot or colon, as their
  pattern demands.
- The phone sends `transfer_progress` and `transfer_file_complete` only for
  files it receives; the handlers do not look at the direction.
- A connection authenticates once.

## Model

| member | source | states |
|---|---|---|
| `TransferFile.ChangeKeepsFileOk` | src/transfer/transfer-queue.ts:293-615 | whatever change the queue makes to a file: the offset stays a safe integer within the size, equals the size once verification starts, a finalizing file names its path, and the timing keeps at most four attempts with stages that end after they start |
| `TransferFile.ChangeIsLawful` | src/transfer/transfer-queue.ts:293-615 | one change of any kind: completed is absorbing, failed and cancelled are left only by a fresh attempt at offset 0, progress falls only then, a known digest never changes and an unknown one only on completion |
| `TransferFile.MarkTimingKeeps` | src/transfer/transfer-queue.ts:685-715 | marking a stage keeps a timing loadable whatever the clock says |
| `TransferFile.StagesMeasureElapsedTime` | src/transfer/transfer-queue.ts:685-715 | a stage opened, marked again and closed spans the time from its first opening to its closing; no other stage and no other attempt moves |
| `TransferFile.RetryOpensTheNextAttempt` | src/transfer/transfer-queue.ts:511-516 | a retry opens the attempt numbered next, empty, right behind the previous one, and at most four remain |
| `TransferFile.RecoveryIsIdempotent` | src/transfer/transfer-queue.ts:565-622 | a recovered file is not in flight, and recovering it again, with whatever answer from the disk, changes nothing |
| `TransferFile.PausedFilesGoOn` | src/transfer/transfer-queue.ts:458-488 | a file that waits or is sent can be paused, and resuming puts it back in the queue with its progress; neither touches a file in any other state |
| `TransferFile.StoppedFilesStartOver` | src/transfer/transfer-queue.ts:444-563 | cancelling, failing and expiring each end an unfinished file in their own way and leave a finished one alone; a retry takes every file that did not complete back to the same start |
| `TransferFile.UploadStepsExactly` | src/transfer/transfer-queue.ts:293-430 | exactly when progress, verification, publishing and completion are allowed, and what progress and completion leave |
| `TransferFile.OtherChangesExactly` | src/transfer/transfer-queue.ts:263-544 | what claiming, verification, publishing, marking a stage and naming a destination leave: each just its own field, and the timing where a stage is marked |
| `TransferFile.UploadIsTimed` | src/transfer/transfer-queue.ts:322-430 | verification is timed from its beginning to the first name announced, publishing from there to completion |
| `Paths.PartialNamesAreDistinct` | src/transfer/transfer-paths.ts:3-11 | two uploads share a partial path if and only if they have the same destination and the same (dot-free) file id |
| `Paths.CandidateExactly` | src/transfer/laptop-data-plane.ts:746-755 | the n-th name tried is the requested one with " (n)" before its extension: before its last dot, or at the end if it has none or only a leading one, in decimal digits that read back as n, in the same directory |
| `Paths.CandidatesAreDistinct` | src/transfer/laptop-data-plane.ts:742-755 | the final names tried for one file are pairwise different |
| `Paths.DecimalIsInjective` | src/transfer/laptop-data-plane.ts:753-753 | two suffixes never print alike |
| `SaveChain.SettleKeepsValid` | src/transfer/transfer-queue.ts:674-679 | settling the oldest save never moves the store backwards |
| `SaveChain.ResolvedSaveIsStored` | src/transfer/transfer-queue.ts:674-679 | once a save has resolved, the store holds its snapshot or a later one |
| `PersistTail.TailRefinesChain` | src/transfer/transfer-queue.ts:674-679 | every step of the promise tail (mutation, start, rename, resolution, failure) is one step of the chain of saves or none, and saves take effect in order |
| `PersistTail.TapesRefineChains` | src/transfer/transfer-queue.ts:674-679 | hence every run of mutations, saves and failures in any order the promises allow is a run of the chain |
| `PersistTail.PersistenceNeverGoesBackwards` | src/transfer/transfer-queue.ts:674-679 | at any two moments of any run the store holds the state at some mutation, never an earlier one than before, and includes every mutation whose persist has resolved |
| `UploadSafety.NextKeepsSafe` | src/transfer/laptop-data-plane.ts:378-703 | every stretch of the upload handler, of a locked or unlocked control, of a save, a crash or a recovery keeps the safety invariant |
| `UploadSafety.RunsAreSafe` | src/transfer/laptop-data-plane.ts:378-703 | hence so does every run with an honest sender that never completes an overtaken record onto something else than the sender's file |
| `UploadSafety.CompletingIsSafeExactly` | src/transfer/transfer-queue.ts:322-373 | running `complete` keeps the invariant if and only if it is not a record that a retry has made active again, empty, and asking for a name that holds something else; when it is, the completed record is wrong |
| `UploadSafety.CompletionNamesTheLink` | src/transfer/transfer-queue.ts:322-373 | the record `complete` leaves names another file than the one linked if and only if it is active, empty and asks for another name |
| `UploadSafety.RunsExtend` | src/transfer/laptop-data-plane.ts:378-703 | no run gets stuck: after any run, any honest and allowed event is defined and leads on |
| `UploadSafety.CompletedFileIsTheSource` | src/transfer/laptop-data-plane.ts:617-687 | whenever memory, the store or a snapshot on its way there says completed, the destination holds exactly the sender's bytes, durably |
| `UploadSafety.EarlierFilesAreUntouched` | src/transfer/laptop-data-plane.ts:742-789 | in every run whatever, no file that was there before the transfer is ever changed, renamed or removed |
| `UploadSafety.CrashKeepsSafe` | src/transfer/transfer-queue.ts:565-622 | a crash at any instant, losing memory, unsynced bytes and unsaved snapshots, keeps the invariant |
| `UploadEngine.CrashMayLoseAnyTail` | src/transfer/laptop-data-plane.ts:551-561 | the crashes spoken of are as bad as can be: of the bytes not synced any number may be gone and any others in their place |
| `UploadResume.WritingExtendsPrefix` | src/transfer/laptop-data-plane.ts:524-561 | a chunk written at the accepted offset extends the sender's prefix in the partial |
| `UploadResume.NextBacks` | src/transfer/laptop-data-plane.ts:378-703 | every event keeps all resumable snapshots backed by durable bytes of the partial, given the condition of `CreatingThePartial` |
| `UploadRuns.StoredOffsetIsDurable` | src/transfer/laptop-data-plane.ts:517-605 | while the partial is there, the stored offset never exceeds its synced bytes, and that prefix is the sender's |
| `UploadRuns.NoSpuriousMismatch` | src/transfer/laptop-data-plane.ts:617-635 | a complete upload never fails its digest check |
| `UploadRuns.CreatingThePartial` | src/transfer/laptop-data-plane.ts:473-505 | creating the partial keeps the stored offsets truthful if and only if no snapshot a crash could bring back resumes from a positive offset |
| `UploadRuns.PatientRunsAreSettled` | src/transfer/transfer-queue.ts:505-532 | the condition holds in every run whose retries wait until the store has no snapshot ahead of the fresh attempt |
| `UploadRuns.RunsWithoutRetryAreSettled` | src/transfer/transfer-queue.ts:505-532 | and in every run without retries |
| `UploadRecovery.FinalizationIsCrashAtomic` | src/transfer/laptop-data-plane.ts:617-687 | from a crash at any instant of any run, recovery ends with a linked finalizing file completed under its final name and an unlinked or verifying one failed without a partial, memory and store agreeing, and no final name added or removed |
| `UploadRecovery.RecoveredFileIsTheSource` | src/transfer/transfer-queue.ts:565-622 | the file recovery completes is the sender's, byte for byte and durable |
| `UploadRecovery.RestartedFollows` | src/transfer/transfer-queue.ts:124-130 | the recovery spoken of there is six events of the engine itself, the crash first |
| `UploadProgress.RunsAreBounded` | src/transfer/laptop-data-plane.ts:158-182 | over every run: durable <= accepted <= size, and accepted less than one checkpoint ahead |
| `UploadProgress.NextKeepsAlignedExactly` | src/transfer/laptop-data-plane.ts:92-124 | every event keeps the session's durable offset and the queue's confirmed one in step if and only if it is orderly: a retry finds nothing counted, and no handler leaves behind a failed save of something new |
| `UploadProgress.RetryingKeepsAligned` | src/transfer/transfer-queue.ts:505-532 | a retry keeps them in step if and only if neither the session nor a save under way counts a byte |
| `UploadProgress.LeavingASaveExactly` | src/transfer/transfer-queue.ts:674-679 | leaving the save of an offset (a checkpoint's, a verification's or a hold's), the store has it if and only if that save or a later one landed, or it was nothing new |
| `UploadProgress.OrderlyRunsAreAligned` | src/transfer/laptop-data-plane.ts:92-124 | hence over every orderly run they agree except while their save is being awaited |
| `UploadProgress.LossIsBoundedExactly` | src/transfer/laptop-data-plane.ts:517-605 | over every run, whatever saves fail: a crash loses less than one checkpoint, however much is accepted before the next, if and only if the stored snapshot is at or past the session's durable offset or within a checkpoint of the end of the file |
| `UploadProgress.NextKeepsCoveredExactly` | src/transfer/laptop-data-plane.ts:66-81 | every event keeps the store at or past the session's durable offset if and only if it is none of three: a chunk lifting the session past the store, a save landing a fresh attempt, a checkpoint noted behind one |
| `UploadProgress.CrashLosesLessThanACheckpoint` | src/transfer/laptop-data-plane.ts:517-605 | in orderly runs, whenever the lock is free: confirmed = durable <= accepted, and a crash loses less than one checkpoint of accepted bytes |
| `UploadUndisturbed.UndisturbedTransfer` | src/transfer/laptop-data-plane.ts:378-703 | every transfer left alone gets through: sent in chunks of whatever size the laptop takes, it ends completed, in memory and in the store, under the first free name beside the one asked for, which links exactly the sender's bytes, durably; no other name has changed and neither partial nor session is left |
| `UploadUndisturbed.UndisturbedHold` | src/transfer/laptop-data-plane.ts:92-124 | a pause, cancel or disconnect left alone: what was accepted is confirmed, durable and saved; the file ends cancelled or failed without partial or session, or paused with both |
| `UploadUndisturbed.HoldGivesUp` | src/transfer/laptop-data-plane.ts:92-124 | and exactly then: a hold that cannot confirm what was accepted changes neither record nor session |
| `UploadUndisturbed.PutIsTakenExactly` | src/transfer/laptop-data-plane.ts:378-470 | a PUT is taken exactly at the offset reached, for an active file with somewhere to go, within the file and the chunk size, and with bytes in it unless the file is empty |
| `UploadUndisturbed.ChunkIsReceived` | src/transfer/laptop-data-plane.ts:473-605 | a chunk that does not end the file is in, and confirmed, durable and saved if a checkpoint was due: after enough bytes or enough time |
| `UploadUndisturbed.WrongBytesFail` | src/transfer/laptop-data-plane.ts:617-635 | bytes that do not hash to the digest: the file fails with hash_mismatch, its partial and session gone |
| `UploadUndisturbed.CaughtErrorFails` | src/transfer/laptop-data-plane.ts:660-703 | anything thrown while publishing: the link announced last is taken back if it is ours, the partial goes, the file fails |
| `UploadUndisturbed.CaughtAfterTheEnd` | src/transfer/laptop-data-plane.ts:642-703 | a file failed or cancelled meanwhile stays what it is, but link and partial go all the same |
| `UploadFindings.FailedSaveLosesACheckpoint` | src/transfer/transfer-queue.ts:293-320 | a run without retries in which a save fails, confirmed equals durable, and a crash loses a whole checkpoint |
| `UploadFindings.RetryUnderLiveSession` | src/transfer/transfer-coordinator.ts:531-543 | a run in which a paused file, cancelled with its whole transfer and offered again, has confirmed at 0 under a session that still counts a byte |
| `UploadFindings.StaleSnapshotLosesItsPrefix` | src/transfer/laptop-data-plane.ts:473-505 | a run that reaches a store asking to resume at byte 1 of an empty partial: why the condition of `CreatingThePartial` is needed |
| `UploadFindings.EmptyRetryCompletesTheWrongFile` | src/transfer/transfer-queue.ts:322-373 | for every empty file offered under a taken name: a run that completes it onto the file that was there before |
| `UploadFindings.RetriedBeforeCompletion` | src/transfer/transfer-queue.ts:505-532 | in that interleaving the completed record names the link if and only if the file was linked under the very name it asked for, and the sender's file if and only if that name holds it |
| `Finalization.Folder.FinalizeWithoutOverwrite` | src/transfer/laptop-data-plane.ts:742-772 | links the partial under the first free name, the requested one or the one with the smallest number before its extension, announces every name up to it and no other, and changes no existing name; none when ten thousand are taken |
| `Finalization.UndoRestoresTheNames` | src/transfer/laptop-data-plane.ts:774-789 | publishing and then undoing it by what the record says restores every name, whether a free one was found or not |
| `Finalization.RoundsLinkTheFirstFreeName` | src/transfer/laptop-data-plane.ts:636-641 | the stretches of the engine, left alone, do what that loop does |
| `ProgressSessions.KeysAreDistinct` | src/transfer/laptop-data-plane.ts:724-726 | two files share a session key if and only if they are the same file of the same transfer |
| `ProgressSessions.LittleIsEverAtRisk` | src/transfer/laptop-data-plane.ts:158-163 | however chunks come, what is accepted and not durable is less than a checkpoint and was accepted within an interval of the last one, and nothing is at risk once the file has ended |
| `ProgressSessions.CheckpointsAreSpacedOut` | src/transfer/laptop-data-plane.ts:158-177 | the checkpoints made for bytes take up a checkpoint's worth of the file each, those made for time an interval each |
| `ProgressSessions.ReceiverProgressSessions.SessionFor` | src/transfer/laptop-data-plane.ts:66-81 | yields the session the engine works with and leaves every other session alone |
| `ProgressSessions.ReceiverProgressSessions.Clear` | src/transfer/laptop-data-plane.ts:126-128 | forgets one session and no other |
| `ProgressSessions.ReceiverProgressSessions.Arrive` | src/transfer/laptop-data-plane.ts:45-56 | the stretch of `runExclusive` up to its await, as a step of the lock |
| `ProgressSessions.ReceiverProgressSessions.Leave` | src/transfer/laptop-data-plane.ts:57-64 | its finally block, as a step of the lock |
| `KeyLock.RunsKeepInv` | src/transfer/laptop-data-plane.ts:45-64 | over every interleaving each caller awaits the one right before it on its key, or nobody if all before are done |
| `KeyLock.MutualExclusion` | src/transfer/laptop-data-plane.ts:45-64 | at most one operation runs per key |
| `KeyLock.ArrivalOrder` | src/transfer/laptop-data-plane.ts:45-64 | operations start in order of arrival, each after all before it on the key have finished, thrown or not |
| `KeyLock.EntryWhileEngaged` | src/transfer/laptop-data-plane.ts:45-64 | the map holds an entry exactly for the keys somebody holds or awaits |
| `KeyLock.NoDeadlock` | src/transfer/laptop-data-plane.ts:45-64 | an engaged key always has a caller that can start or leave |
| `QueueRuns.ApplySteps` | src/transfer/transfer-queue.ts:136-622 | every operation is, file by file, nothing or one change that module TransferFile allows; batches keep place and identity |
| `QueueRuns.ChangeOneIsLocal` | src/transfer/transfer-queue.ts:660-672 | a change of one file reaches that file and leaves every other file and batch as it was |
| `QueueRuns.ChangeOneIsRefused` | src/transfer/transfer-queue.ts:656-672 | and is refused for want of the transfer, of the file, or because the file refuses it, in that order |
| `QueueRuns.ChangeOneLeavesTheBatch` | src/transfer/transfer-queue.ts:624-654 | around the file it touches only the clocks, and the status only if the change moves files from state to state |
| `QueueRuns.WholeIsEverywhere` | src/transfer/transfer-queue.ts:458-532 | a change of a whole transfer reaches every file of it and no other batch; its status is paused or says what the files are |
| `QueueRuns.AssociationFillsADevice` | src/transfer/transfer-queue.ts:218-227 | a receiver names itself once: the first name stays, and only taking it down counts as activity |
| `QueueRuns.WhatExpiryDoes` | src/transfer/transfer-queue.ts:546-563 | expiry touches exactly the batches whose time has come, and in them exactly the files that have not ended |
| `QueueRuns.ActivityDefersExpiry` | src/transfer/transfer-queue.ts:650-654 | a batch that any operation added or changed does not expire for seven days; only a sender naming itself again and expiry itself do not count |
| `QueueRuns.ApplyKeepsStatus` | src/transfer/transfer-queue.ts:624-648 | every operation keeps each batch status equal to the fold over its files, but for whole-batch paused (nothing queued or active) and expired (all terminal) |
| `QueueModel.DeriveStatusExactly` | src/transfer/transfer-queue.ts:624-648 | the fold gives exactly the status that says what the files are, stated over the file statuses alone |
| `QueueRuns.EveryStatusSays` | src/transfer/transfer-queue.ts:624-648 | in every run each batch has files and its status says what they are, but for a batch paused as a whole with nothing left queued or active and one expired as a whole with everything in it ended |
| `QueueRuns.ApplyKeepsSingleFlight` | src/transfer/transfer-queue.ts:263-563 | every operation keeps at most one file over all batches active, verifying or finalizing |
| `QueueRuns.RunsKeepQueueOk` | src/transfer/transfer-queue.ts:136-622 | hence all of that holds after every run of operations |
| `QueueRuns.EverySnapshotLoads` | src/transfer/transfer-queue.ts:793-836 | whatever snapshot is persisted, the next open accepts it |
| `QueueRuns.RunsAreLawful` | src/transfer/transfer-queue.ts:263-622 | between any two points of a run: completed stays completed with its digest and offset, known digests stay, identity and size stay |
| `QueueRuns.StepsOfRunsAreLawful` | src/transfer/transfer-queue.ts:263-622 | every single step of a run is lawful for every file |
| `QueueScheduling.ClaimsOvertakeNobody` | src/transfer/transfer-queue.ts:263-291 | a claim takes a queued file, and any earlier queued file is in a paused or terminal batch |
| `QueueScheduling.ClaimsAreFirstComeFirstServed` | src/transfer/transfer-queue.ts:263-291 | in every run there is no such batch: the claimed file is the first queued one of all |
| `QueueScheduling.ClaimsWheneverItCan` | src/transfer/transfer-queue.ts:263-291 | nothing is claimed if and only if a file is in flight or none is queued |
| `QueueScheduling.WorkIsConserved` | src/transfer/transfer-coordinator.ts:252-265 | whenever a claim returns, a file is in flight or none waits |
| `QueueScheduling.EndingsAreRounds` | src/transfer/transfer-queue.ts:322-373 | completing or failing the file in flight is a round's ending in the sense below |
| `QueueScheduling.DrainsInExactlyAsManyClaims` | src/transfer/transfer-queue.ts:263-291 | with no new files and none expiring, the queue drains in exactly as many claims as files were queued |
| `QueueRecovery.RecoveryLandsEverything` | src/transfer/transfer-queue.ts:565-622 | after recovery nothing is in flight |
| `QueueRecovery.WhatRecoveryDoes` | src/transfer/transfer-queue.ts:565-622 | a finalizing file is completed if and only if its final name is the partial's inode; an interrupted file goes back to the queue if and only if bytes are missing (or it is empty); no other file changes |
| `QueueRecovery.OpenRestoresTheQueue` | src/transfer/transfer-queue.ts:124-130 | from any point of any run the next open succeeds, restores the whole invariant, leaves nothing in flight, and recovering again changes nothing |
| `QueueRecovery.OpeningTwiceIsOpeningOnce` | src/transfer/transfer-queue.ts:124-130 | opening what an open stored, with nothing due to expire, changes nothing at all |
| `QueueRecovery.PublishedBeforeExpired` | src/transfer/transfer-queue.ts:124-130 | recovery comes before expiry: a published file is completed on opening even if its time has come |
| `TransferQueue.TransferQueue.Open` | src/transfer/transfer-queue.ts:124-130 | a bad snapshot throws; otherwise the object holds the recovered and expired queue, saved if it differs |
| `TransferQueue.TransferQueue.Enqueue` | src/transfer/transfer-queue.ts:136-172 | refuses an empty batch; any other it stores queued, to be kept for seven days, every file as given and at the start, and persists |
| `TransferQueue.TransferQueue.AcceptAnOffer` | src/transfer/transfer-queue.ts:175-217 | a new offer is stored at the end with its particulars, each file at the start and to be received under the path meant for it; a known one is matched, and only a missing device is filled in and saved |
| `TransferQueue.TransferQueue.AssociateSourceDevice` | src/transfer/transfer-queue.ts:218-227 | fills in a missing device once, and persists exactly then |
| `TransferQueue.TransferQueue.ClaimNext` | src/transfer/transfer-queue.ts:263-291 | the loop over batches claims what the specification claims, or nothing |
| `TransferQueue.TransferQueue.ConfirmProgress` | src/transfer/transfer-queue.ts:293-320 | moves the offset forward within the file, or throws and changes nothing |
| `TransferQueue.TransferQueue.CompleteFile` | src/transfer/transfer-queue.ts:322-373 | completes a file whose bytes and digest are right, or throws and changes nothing |
| `TransferQueue.TransferQueue.BeginVerifying` | src/transfer/transfer-queue.ts:375-400 | starts verification only of an active file with every byte in |
| `TransferQueue.TransferQueue.BeginFinalizing` | src/transfer/transfer-queue.ts:402-430 | names the final path of a verifying or finalizing file |
| `TransferQueue.TransferQueue.MarkStage` | src/transfer/transfer-queue.ts:432-442 | marks a stage relative to the file's anchor |
| `TransferQueue.TransferQueue.FailFile` | src/transfer/transfer-queue.ts:444-456 | fails a file that has not ended; otherwise does nothing, not even a save |
| `TransferQueue.TransferQueue.PauseFiles` | src/transfer/transfer-queue.ts:458-476 | pauses one file, or all queued and active ones with the batch status written outright |
| `TransferQueue.TransferQueue.ResumeFiles` | src/transfer/transfer-queue.ts:478-488 | requeues one or all paused files |
| `TransferQueue.TransferQueue.CancelFiles` | src/transfer/transfer-queue.ts:490-503 | cancels one or all files that have not ended |
| `TransferQueue.TransferQueue.RetryFiles` | src/transfer/transfer-queue.ts:505-532 | gives one or all failed and cancelled files a fresh attempt |
| `TransferQueue.TransferQueue.SetDestinationPath` | src/transfer/transfer-queue.ts:534-544 | changes the destination and nothing else but the clock |
| `TransferQueue.TransferQueue.ExpireDue` | src/transfer/transfer-queue.ts:546-563 | the nested loop expires exactly the due batches and persists exactly when there is one |
| `TransferQueue.TransferQueue.RecoverInterrupted` | src/transfer/transfer-queue.ts:565-622 | the nested loop with its early persists recovers exactly what the specification recovers, and the last save is what memory holds |
| `TransferQueue.TransferQueue.StatusOf` | src/transfer/transfer-queue.ts:624-648 | the status written is the one that says what the files are |
| `Offers.ReadPrinted` | src/transfer/transfer-queue.ts:229-261 | reading an offered file back gives the file |
| `Offers.MatchIsSetEquality` | src/transfer/transfer-queue.ts:718-728 | two offers match if and only if they agree on transfer, origin and direction and have the same file objects but for order and sender timing |
| `Offers.OffersMatchExactly` | src/transfer/transfer-queue.ts:718-728 | a repeated offer matches a batch if and only if it agrees on those, has the same files, and writes each with the keys `offer` writes, in that order |
| `Offers.RepeatedOffer` | src/transfer/transfer-queue.ts:175-199 | a repeated offer is refused if and only if it does not agree; otherwise it changes nothing but a missing device |
| `Offers.ReofferingIsIdempotent` | src/transfer/transfer-queue.ts:175-199 | an agreeing offer with known digests can be repeated at any later point of any run and leaves the queue as it is |
| `Offers.NewBatchAgrees` | src/transfer/transfer-queue.ts:200-216 | a new offer is stored at the end of the queue, each file with its own fields and destination, and agrees with itself from then on if and only if its keys are written as `offer` writes them |
| `Offers.AcceptedExactly` | src/transfer/transfer-queue.ts:175-216 | an offer is accepted if and only if it is one, every file of it has somewhere to go, and it agrees with the batch of its id if there is one |
| `Offers.LastEntryCounts` | src/transfer/transfer-queue.ts:201-216 | in an offered file the last entry under a key counts |
| `Offers.OfferShowsTheBatch` | src/transfer/transfer-queue.ts:229-261 | the offer a batch makes shows the batch's particulars and of every file just what was offered of it |
| `Offers.LearntDigestConflicts` | src/transfer/transfer-queue.ts:187-190 | a digest deferred in the offer and stored since makes the same offer conflict |
| `Coordinator.TransferCoordinator.ActivateNext` | src/transfer/transfer-coordinator.ts:252-265 | claims the next file, tells the phone about that file and no other, and leaves a file in flight or none waiting |
| `Coordinator.TransferCoordinator.FailUnfinished` | src/transfer/transfer-coordinator.ts:404-440 | every file of an offer that no longer fits has ended, and the phone is told of each in order |
| `Coordinator.TransferCoordinator.RetryCancelled` | src/transfer/transfer-coordinator.ts:445-450 | exactly the cancelled files of a known offer get another attempt |
| `Coordinator.TransferCoordinator.RequiredBytes` | src/transfer/transfer-coordinator.ts:387-403 | the sum of what each file of the batch may still write |
| `Coordinator.TransferCoordinator.AcceptPhoneOffer` | src/transfer/transfer-coordinator.ts:339-459 | exactly when an offer is new, known, rejected or in error, what each makes of the queue and what the phone is told: a new one is stored with each file to be received under its own name in the destination directory, a known one gets its cancelled files back, one that does not fit ends unfinished or is not stored; an accepted one never has more left to write than there is space |
| `Coordinator.TransferCoordinator.AcceptReceiverOffset` | src/transfer/transfer-coordinator.ts:461-495 | taken if and only if the file is one the phone receives, the offset within confirmed..size and a confirmation, when due, not refused; then that file has exactly that offset and the chunk size agreed on, and every other file is as it was |
| `Coordinator.TransferCoordinator.HoldTransfer` | src/transfer/transfer-coordinator.ts:497-567 | pausing or cancelling a whole transfer: for each active file in order a confirmation if it has a checkpoint and then the hold of the file, and at the end the batch-wide change; when it succeeds each of them did |
| `Coordinator.TransferCoordinator.HandleControl` | src/transfer/transfer-coordinator.ts:166-250 | each kind of message has its effect on the queue (an offer's outcome, the sender named and its offset taken or not, one change of one file, a hold or, when it is given up, failures instead), by lawful operations only, and the phone hears what it should; then the next file is claimed and announced, and after a message that frees or fills the line a file is in flight or none waits |
| `Coordinator.HoldingKeepsWhatWasAccepted` | src/transfer/transfer-coordinator.ts:497-567 | so of the files that were active each ends with its accepted offset confirmed, every other offset stays, and none is active |
| `Coordinator.GivingUpFailsThem` | src/transfer/transfer-coordinator.ts:569-591 | a hold that is given up leaves none of the files it was about unfinished |
| `Coordinator.RetryingWritesNoMore` | src/transfer/transfer-coordinator.ts:387-403 | the space check stays right after cancelled files are retried |
| `Coordinator.WhatIsStillToWrite` | src/transfer/transfer-coordinator.ts:387-403 | what a file may still write falls with every byte confirmed, and is nothing once it has completed or failed |
| `Coordinator.NoticesAre` | src/transfer/transfer-coordinator.ts:404-440 | of an offer that does not fit the phone hears exactly: completed files with their digest, failed ones with their code, unfinished ones as failed for want of space, cancelled ones not at all |
| `Coordinator.ProgressIs` | src/transfer/transfer-coordinator.ts:267-295 | of one offered again it hears exactly: finished files as above and, when asked for, active ones that lack bytes with the offset reached |
| `Coordinator.Start` | src/relay/cli.ts:73-94 | a coordinator started on what any run stored continues that run, with nothing in flight |
| `Coordinator.CoordinatorsQueueIsSound` | src/transfer/transfer-coordinator.ts:166-265 | so the queue behind a coordinator, however often the program was started again, satisfies the invariant of every run, can be opened, and has changed lawfully since any earlier point |
| `Download.NegotiateChunkBytes` | src/transfer/transfer-chunk-policy.ts:4-16 | never above what either side can take, the legacy size unless a usable one is advertised, and positive |
| `Download.DownloadFile` | src/transfer/laptop-data-plane.ts:237-314 | accept at any offset, then get and confirm until the last chunk: refused exactly outside confirmed..size and at the end of a file that is not empty, otherwise the chunks concatenate to the rest of the source, all but the last have the negotiated size, their number is the least possible (one for an empty file), and the whole file ends up confirmed |
| `Download.ChunkCountIsCeiling` | src/transfer/laptop-data-plane.ts:268-273 | that number is the size over the negotiated size, rounded up |
| `Download.OnlyTheConfirmedOffsetIsServed` | src/transfer/laptop-data-plane.ts:237-258 | a chunk is served only at the confirmed offset, so a lost answer can be fetched again, and eof is true exactly on the last |
| `Download.ServedExactly` | src/transfer/laptop-data-plane.ts:237-285 | a GET is served if and only if it is at the confirmed offset of a file with bytes left, or with none at all, that is still what it was |
| `StageFormat.ScanIsTheSource` | app/packages/vidyut_files/android/src/main/kotlin/dev/snehit/vidyut/vidyut_files/VidyutFilesPlugin.kt:505-564 | scanning what was staged yields exactly the staged bytes, however they were split into blocks |
| `StageFormat.ParsesWhatWasWritten` | app/packages/vidyut_files/android/src/main/kotlin/dev/snehit/vidyut/vidyut_files/VidyutFilesPlugin.kt:693-714 | each block reads back at its file position as it was written, and the end is found where it is |
| `StageFormat.EntryReadsBack` | app/packages/vidyut_files/android/src/main/kotlin/dev/snehit/vidyut/vidyut_files/VidyutFilesPlugin.kt:716-730 | each index entry reads back as it was written |
| `StageFormat.LongRoundTrip` | app/packages/vidyut_files/android/src/main/kotlin/dev/snehit/vidyut/vidyut_files/VidyutFilesPlugin.kt:545-548 | a Long survives being written and read |
| `Stage.StageSource` | app/packages/vidyut_files/android/src/main/kotlin/dev/snehit/vidyut/vidyut_files/VidyutFilesPlugin.kt:505-564 | an uncancelled source within the limit is staged whole, with its size, its digest and an index of summed plaintext lengths and true file positions; and no other is staged; no Long or Int overflows |
| `Stage.WriteIndex` | app/packages/vidyut_files/android/src/main/kotlin/dev/snehit/vidyut/vidyut_files/VidyutFilesPlugin.kt:544-549 | writes the index entries in order |
| `Stage.StageSize` | app/packages/vidyut_files/android/src/main/kotlin/dev/snehit/vidyut/vidyut_files/VidyutFilesPlugin.kt:588-600 | the size read without decrypting is the source's |
| `Stage.HashStage` | app/packages/vidyut_files/android/src/main/kotlin/dev/snehit/vidyut/vidyut_files/VidyutFilesPlugin.kt:602-609 | the digest of a scan is the source's |
| `Stage.ReadStageIndex` | app/packages/vidyut_files/android/src/main/kotlin/dev/snehit/vidyut/vidyut_files/VidyutFilesPlugin.kt:716-730 | reads back the index that was written |
| `Stage.ScanAt` | app/packages/vidyut_files/android/src/main/kotlin/dev/snehit/vidyut/vidyut_files/VidyutFilesPlugin.kt:622-635 | the linear read returns the part of the range that lies in the source |
| `Stage.Select` | app/packages/vidyut_files/android/src/main/kotlin/dev/snehit/vidyut/vidyut_files/VidyutFilesPlugin.kt:645-656 | the binary search finds the last entry at or before the offset |
| `Stage.IndexedAt` | app/packages/vidyut_files/android/src/main/kotlin/dev/snehit/vidyut/vidyut_files/VidyutFilesPlugin.kt:638-691 | the indexed read returns exactly the range if it lies in the source, and runs into the end of the file if and only if it does not |
| `Stage.ReadStageAt` | app/packages/vidyut_files/android/src/main/kotlin/dev/snehit/vidyut/vidyut_files/VidyutFilesPlugin.kt:611-636 | hence both readings agree on every range within the source; bad ranges are refused |
| `Seal.NoncesAreDistinct` | src/shared/session-seal.ts:135-140 | two nonces are equal if and only if direction and counter are |
| `Seal.SealNonceIs` | src/shared/session-seal.ts:135-140 | twelve bytes: the direction, three zeros and the counter, which reads back; none beyond 64 bits |
| `Seal.SessionSealer.SealMessage` | src/shared/session-seal.ts:96-111 | counts up exactly when it yields a message |
| `Seal.SessionSealer.OpenMessage` | src/shared/session-seal.ts:114-132 | counts up exactly when it yields a message, and yields one only for the expected nonce and a tag that verifies |
| `Seal.OpensExactlyTheNext` | src/relay/relay.ts:320-344 | a sealed message opens if and only if it is the next one of its direction, whole |
| `Seal.StepKeepsChannelOk` | src/relay/relay.ts:313-344 | every send and every delivery, of anything at all, keeps the channel invariant |
| `Seal.ActedOnIsAPrefixOfSent` | src/relay/relay.ts:313-344 | over any dropping, replaying, reordering, reflecting, altering or clear-text network each end acts on a prefix of what the other sealed |
| `Seal.NoNonceRepeats` | src/shared/session-seal.ts:83-140 | no nonce is used twice, within a direction or across the two |
| `Seal.FaithfulDeliveryIsActedOn` | src/relay/relay.ts:785-788 | delivering the next message is acted on and keeps the session open |
| `Seal.SealedOpensOnce` | src/shared/session-seal.ts:96-132 | what is sealed opens at the peer at its own turn, at no other, and never at the sender |
| `Seal.DeliveryExactly` | src/relay/relay.ts:313-344 | on an open session the next sealed message is acted on, a frame that travels unsealed let through, and anything else closes it |
| `Relay.RelaySockets.OnSweep` | src/relay/relay.ts:142-164 | the sweep that deletes while it iterates skips nobody |
| `Relay.RelaySockets.OnClose` | src/relay/relay.ts:458-477 | a socket already reaped gets no second terminal event |
| `Relay.RelaySockets.NotifyDeviceDisconnected` | src/relay/relay.ts:547-562 | reports a device exactly when no authenticated socket of it is left and it has a name |
| `Relay.SweepReapsTheStale` | src/relay/relay.ts:142-164 | a sweep removes exactly the sockets silent for longer than the limit |
| `Relay.HeardOfSurvives` | src/relay/relay.ts:313-316 | a socket heard of survives every sweep until the limit has passed since |
| `Relay.OneTerminalEvent` | src/relay/relay.ts:293-477 | over every run every connection that has left has had exactly one terminal event and every other none |
| `Relay.ReportedExactlyOnTheLast` | src/relay/relay.ts:547-562 | a socket leaving reports its device if and only if it was the last authenticated one and the device id is not empty |
| `Relay.ReportedGoneOncePerDeparture` | src/relay/relay.ts:547-562 | over every run a named device is reported gone exactly as often as its authenticated sockets ran out |
| `Pool.PayloadPool.Publish` | src/relay/payload-pool.ts:20-39 | a held frame is accepted without effect, an older one refused, any other stored and told to every listener once |
| `Pool.HoldsTheLastGreatest` | src/relay/payload-pool.ts:20-39 | after frames with distinct nonces the pool holds an arrival if and only if it is the last with the greatest stamp |
| `Pool.Converges` | src/relay/payload-pool.ts:20-39 | with distinct stamps too, every order of arrival ends with the same frame |
| `Pool.RepublishingDoesNotConverge` | src/relay/payload-pool.ts:29-32 | with a repeated nonce the order can decide: why the nonces must differ |
| `Pool.HoldsTheLastGreatestNotHeld` | src/relay/payload-pool.ts:20-39 | whatever nonces repeat, the pool holds the last with the greatest stamp of the arrivals it did not hold when they came |
| `Pool.ConvergesExactly` | src/relay/payload-pool.ts:20-39 | hence two orders end alike if and only if those are the same |
| `Search.SearchFolders` | src/transfer/laptop-browser.ts:155-220 | what is found and what is missed together are what there is; nothing is missed unless the search says so and a limit was met; matches come in order of depth, nothing missed is shallower than anything found, and both caps hold |
| `Search.TakeEntry` | src/transfer/laptop-browser.ts:190-215 | one entry is queued if it is a folder and matched if it is wanted, unless a limit stops the walk |
| `Search.EntryConserves` | src/transfer/laptop-browser.ts:180-217 | one entry taken: found, queued and listed together stay the same |
| `Search.BelowIsWhatPathsReach` | src/transfer/laptop-browser.ts:155-220 | what there is to find is exactly what some path of shareable names through readable folders leads to |
| `Search.HiddenStaysOut` | src/transfer/laptop-browser.ts:396-403 | every name on the way to a match is plain: not hidden, without separators or control characters, of at most 255 bytes |
| `Search.PartialsAreNotShared` | src/transfer/transfer-paths.ts:3-11 | the partial of an upload under way is never found |

## Left out

- UploadSafety.RunsAreSafe: shuts out one step, completing an overtaken record onto something else than the sender's file, which `UploadSafety.CompletingIsSafeExactly` shows to be the only one; so do the theorems about runs that build on it, but for `UploadSafety.EarlierFilesAreUntouched`.
- UploadSafety.CompletedFileIsTheSource: of the same runs.
- UploadRuns.StoredOffsetIsDurable: holds of the runs that keep the condition of `UploadRuns.CreatingThePartial`, as those of patient retries do, and speaks of a partial that is there; where there is none the engine fails the file instead of resuming it.
- UploadProgress.OrderlyRunsAreAligned: of orderly runs; the events that are not are those of `UploadProgress.NextKeepsAlignedExactly`.
- UploadProgress.CrashLosesLessThanACheckpoint: of orderly runs; the condition over all runs is `UploadProgress.LossIsBoundedExactly`.
- ProgressSessions.LittleIsEverAtRisk: about one session between two holds, whose chunks come in order and whose clock does not run backwards.
- The stretches of the upload handler are functions of one world value, because steps of several callers, saves and crashes come between them; the objects it works on have their own classes in ProgressSessions, Finalization and TransferQueue.
- TransferQueue.TransferQueue.RetryFiles: taken as one step; the awaits on the unlinked partials inside its loop are not.
- TransferQueue.TransferQueue.RecoverInterrupted: leaves the unlinked partials to the upload engine, and says only of the last of its saves what it holds.
- Coordinator.TransferCoordinator.HandleControl: a handler is taken to run alone between two messages; that other operations may come between its steps is what QueueRuns covers, whose steps may be anybody's.
- Coordinator.TransferCoordinator.HoldTransfer: stands for pausing and cancelling alike, with one clock reading for all its steps; unlinking the partial and clearing the session after a cancel are steps of the upload engine.
- Stage.StageSource: needs the file's own length to fit in a Long, as any file's does; renames are taken to succeed and the files a failure leaves are taken to be deleted.
- UploadUndisturbed.UndisturbedTransfer: one reading of the clocks stands for all of a transfer's stretches.
- Download.DownloadFile: the file is in flight and unchanged on disk throughout; refusals are what `Serve` says, and no message is lost.
- QueueScheduling.DrainsInExactlyAsManyClaims: no batch expires while the queue drains.
- Relay.OneTerminalEvent: stopping the relay clears the set without events and ends the run.
- Search.SearchFolders: starts at one depth, as both forms of the search do; lower-casing is any function, and splitting the query into words is not modelled.
- Batches and files are values the methods put back; that a caller could hold on to one of the objects is not captured, nor is object identity.
- Each operation reads each clock once; the rounding of fractional milliseconds is not modelled.
- Errors of `unlink`, which the program ignores, are taken not to happen; `utimes`, `mkdir` and the JSON storage's own file handling are not modelled.
- HTTP parsing and status codes, headers, publishing intervals, telemetry, timers and logging.
- Attempts are counted up to the largest safe integer.
- Pairing proofs, key derivation and the handshake before a session is sealed.
- The phone's own code, the desktop shell, thumbnails, clipboard sync, discovery and setup.
