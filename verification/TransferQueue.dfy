/**
 The transfer queue as the object it is (class `TransferQueue` in
 src/transfer/transfer-queue.ts): its methods change the batches in place and
 hand snapshots to the storage.  Each is proved to do exactly what the
 functions of QueueModel and Offers say, to persist exactly what memory then
 holds, and to leave everything alone when it throws.
 */
module TransferQueue {
  import opened Wrappers
  import opened TransferFile
  import opened QueueModel
  import opened Offers
  import QueueRecovery

  type Key = (string, string)

  /** Milliseconds since the anchor of a file, or 0 when this reading becomes the anchor. */
  function Elapsed(anchors: map<Key, int>, key: Key, monotonicNow: int): nat {
    if key in anchors then Max(0, monotonicNow - anchors[key]) else 0
  }

  /** Time is counted from the first reading taken for a file, never backwards. */
  lemma ElapsedIs(anchors: map<Key, int>, key: Key, first: int, later: int)
    ensures Elapsed(anchors, key, first) == if key in anchors && first >= anchors[key] then first - anchors[key] else 0
    ensures key !in anchors && first <= later ==> Elapsed(anchors[key := first], key, later) == later - first
  {
  }

  /** The change asked for on one file, or on every file when none is named. */
  function Asked(q: seq<Batch>, transferId: string, fileId: Option<string>, c: FileChange, now: int)
    : Result<seq<Batch>, QueueError>
    requires ForWhole(c)
  {
    if fileId.Some? then ChangeOne(q, transferId, fileId.value, c, now) else ChangeWhole(q, transferId, c, now)
  }

  /** `target` on the stretch from `start` to `end`, `before` elsewhere. */
  ghost function Partly<T>(before: seq<T>, target: seq<T>, start: nat, end: nat): (r: seq<T>)
    requires |before| == |target| && start <= end <= |before|
    ensures |r| == |before|
  {
    before[..start] + target[start..end] + before[end..]
  }

  lemma {:induction false} PartlyAt<T>(before: seq<T>, target: seq<T>, start: nat, end: nat)
    requires |before| == |target| && start <= end < |before|
    ensures Partly(before, target, start, end)[end] == before[end]
    ensures Partly(before, target, start, end + 1) == Partly(before, target, start, end)[end := target[end]]
  {
  }

  lemma {:induction false} PartlyDone<T>(before: seq<T>, target: seq<T>, start: nat, end: nat)
    requires |before| == |target| && start <= end <= |before|
    ensures start == end ==> Partly(before, target, start, end) == before
    ensures start == 0 && end == |before| ==> Partly(before, target, start, end) == target
    ensures end == start + 1 ==> Partly(before, target, start, end) == before[start := target[start]]
  {
  }

  datatype Outcome = Untouched | Repaired | Published

  /** The batches differ in nothing but their files, status and clocks. */
  predicate Same(b: Batch, d: Batch) {
    b == d.(files := b.files, status := b.status, updatedAtMs := b.updatedAtMs, expiresAtMs := b.expiresAtMs)
  }

  /** Recovering a batch is recovering its files and, if any changed, deriving the status. */
  lemma {:induction false} RecoveredInSteps(b: Batch, d: Batch, links: Links, now: int)
    requires Same(d, b) && d.files == RecoveredFiles(b.files, links) && !IsTerminalBatch(b.status)
    ensures d.files != b.files ==> RecoveredBatch(b, links, now) == Derived(d, now)
    ensures d.files == b.files ==> RecoveredBatch(b, links, now) == b
  {
  }

  /** The queue with a change made on the files of one batch from `start` to `end`. */
  ghost function WithFiles(q: seq<Batch>, i: nat, c: FileChange, now: int, start: nat, end: nat): (r: seq<Batch>)
    requires i < |q| && (ForWhole(c) || c.Expire?) && start <= end <= |q[i].files|
    ensures |r| == |q| && |r[i].files| == |q[i].files|
  {
    q[i := q[i].(files := Partly(q[i].files, ChangeFiles(q[i].files, c, now), start, end))]
  }

  lemma {:induction false} WithFilesNext(q: seq<Batch>, i: nat, c: FileChange, now: int, start: nat, end: nat)
    requires i < |q| && (ForWhole(c) || c.Expire?) && start <= end < |q[i].files|
    ensures var was, f := WithFiles(q, i, c, now, start, end), Changed(q[i].files[end], c, now).value;
            && was[i].files[end] == q[i].files[end]
            && WithFiles(q, i, c, now, start, end + 1) == was[i := was[i].(files := was[i].files[end := f])]
            && (f == q[i].files[end] ==> WithFiles(q, i, c, now, start, end + 1) == was)
  {
    PartlyAt(q[i].files, ChangeFiles(q[i].files, c, now), start, end);
    var was := WithFiles(q, i, c, now, start, end);
    assert was[i].files[end := was[i].files[end]] == was[i].files;
    assert was[i := was[i].(files := was[i].files)] == was;
  }

  lemma {:induction false} WithFilesDone(q: seq<Batch>, i: nat, c: FileChange, now: int, start: nat, end: nat)
    requires i < |q| && (ForWhole(c) || c.Expire?) && start <= end <= |q[i].files|
    ensures start == end ==> WithFiles(q, i, c, now, start, end) == q
    ensures start == 0 && end == |q[i].files| ==>
              WithFiles(q, i, c, now, start, end) == q[i := q[i].(files := ChangeFiles(q[i].files, c, now))]
    ensures end == start + 1 ==>
              WithFiles(q, i, c, now, start, end)
              == q[i := q[i].(files := q[i].files[start := Changed(q[i].files[start], c, now).value])]
  {
    PartlyDone(q[i].files, ChangeFiles(q[i].files, c, now), start, end);
    assert q[i].(files := q[i].files) == q[i];
  }

  class TransferQueue {
    var batches: seq<Batch>
    /** The snapshots handed to the storage, oldest first. */
    var saves: seq<seq<Batch>>
    var anchors: map<Key, int>

    /** The call did what `r` says, starting from `before`, and persisted the outcome. */
    ghost predicate Did(before: seq<Batch>, savesBefore: seq<seq<Batch>>,
                        r: Result<seq<Batch>, QueueError>, error: Option<QueueError>)
      reads this
    {
      && error == (if r.Err? then Some(r.error) else None)
      && batches == (if r.Ok? then r.value else before)
      && saves == (if r.Ok? then savesBefore + [r.value] else savesBefore)
    }

    constructor (stored: seq<Batch>)
      ensures batches == stored && saves == [] && anchors == map[]
    {
      batches, saves, anchors := stored, [], map[];
    }

    /** `open`: a bad snapshot throws; otherwise the queue is recovered and expired before anyone sees it. */
    static method Open(stored: seq<Batch>, links: Links, now: int) returns (r: Result<TransferQueue, QueueError>)
      ensures r.Ok? <==> QueueRecovery.Open(stored, links, now, now).Ok?
      ensures r.Ok? ==> fresh(r.value) && r.value.batches == QueueRecovery.Open(stored, links, now, now).value
      ensures r.Ok? ==> r.value.batches == stored || (r.value.saves != [] && r.value.saves[|r.value.saves| - 1] == r.value.batches)
    {
      if !AssertSnapshot(stored) {
        return Err(InvalidBatch);
      }
      var queue := new TransferQueue(stored);
      queue.RecoverInterrupted(links, now);
      queue.ExpireDue(now);
      return Ok(queue);
    }

    method Persist()
      modifies `saves
      ensures saves == old(saves) + [batches]
    {
      saves := saves + [batches];
    }

    method PutFile(i: nat, j: nat, f: FileRecord)
      requires i < |batches| && j < |batches[i].files|
      modifies `batches
      ensures batches == old(batches[i := batches[i].(files := batches[i].files[j := f])])
    {
      batches := batches[i := batches[i].(files := batches[i].files[j := f])];
    }

    method Touch(i: nat, now: int)
      requires i < |batches|
      modifies `batches
      ensures batches == old(batches[i := Touched(batches[i], now)])
    {
      batches := batches[i := Touched(batches[i], now)];
    }

    /** The status `deriveBatchStatus` writes: the one that says what the files are. */
    static method StatusOf(files: seq<FileRecord>) returns (status: BatchStatus)
      ensures status == DeriveStatus(files)
      ensures files != [] ==> Says(status, files)
    {
      status :=
        if AllCompleted(files) then BatchStatus.Completed
        else if AllCancelled(files) then BatchStatus.Cancelled
        else if AllTerminal(files) then CompletedWithIssues
        else if SomeInFlight(files) then BatchStatus.Active
        else if SomeQueued(files) then BatchStatus.Queued
        else BatchStatus.Paused;
      if files != [] {
        DeriveStatusExactly(files, status);
      }
    }

    /** `deriveBatchStatus` */
    method Derive(i: nat, now: int)
      requires i < |batches|
      modifies `batches
      ensures batches == old(batches[i := Derived(batches[i], now)])
    {
      var status := StatusOf(batches[i].files);
      batches := batches[i := batches[i].(status := status)];
      Touch(i, now);
    }

    /** `markTiming` on a record the caller then stores. */
    method Marked(transferId: string, f: FileRecord, stage: string, end: bool, now: int, monotonicNow: int)
      returns (marked: FileRecord)
      modifies `anchors
      ensures marked == f.(timing := Some(MarkTiming(f.timing, now, stage, end,
                             Elapsed(old(anchors), (transferId, f.fileId), monotonicNow))))
      ensures Elapsed(anchors, (transferId, f.fileId), monotonicNow)
              == Elapsed(old(anchors), (transferId, f.fileId), monotonicNow)
      ensures var key := (transferId, f.fileId);
              && anchors == old(anchors)[key := if key in old(anchors) then old(anchors)[key] else monotonicNow]
              && marked == f.(timing := Some(MarkTiming(f.timing, now, stage, end, Max(0, monotonicNow - anchors[key]))))
    {
      var key := (transferId, f.fileId);
      var anchor := if key in anchors then anchors[key] else monotonicNow;
      anchors := anchors[key := anchor];
      marked := f.(timing := Some(MarkTiming(f.timing, now, stage, end, Max(0, monotonicNow - anchor))));
    }

    // ----- new batches -----------------------------------------------------

    method Enqueue(draft: Draft, now: int) returns (error: Option<QueueError>)
      modifies this
      ensures draft.files == [] ==> error == Some(EmptyBatch) && batches == old(batches) && saves == old(saves)
      ensures draft.files != [] ==> Did(old(batches), old(saves), Apply(old(batches), Add(draft), now), error)
      ensures error.None? ==> |batches| == |old(batches)| + 1 && StoredDraft(batches[|old(batches)|], draft, now)
    {
      if draft.files == [] {
        return Some(EmptyBatch);
      }
      var batch := NewBatch(draft, now);
      NewBatchIsStored(draft, now);
      if !AssertBatch(batch) {
        return Some(InvalidBatch);
      }
      batches := batches + [batch];
      Persist();
      return None;
    }

    /** Known offers are matched, not stored again; only a missing device is filled in and saved. */
    method AcceptAnOffer(o: Offer, destinations: map<string, Path>, device: Option<string>, less: Order, now: int)
      returns (error: Option<QueueError>)
      modifies this
      ensures var r := AcceptOffer(old(batches), o, destinations, device, less, now);
              && error == (if r.Err? then Some(r.error) else None)
              && batches == (if r.Ok? then r.value else old(batches))
              && saves == (if batches == old(batches) then old(saves) else old(saves) + [batches])
      ensures error.None? && FindBatch(old(batches), o.transferId) == |old(batches)| ==>
                && |batches| == |old(batches)| + 1 && old(batches) <= batches
                && StoredOffer(batches[|old(batches)|], o, destinations, device, now)
    {
      if !IsTransferOffer(o) {
        return Some(InvalidOffer);
      }
      if exists i :: 0 <= i < |o.files| && Read(o.files[i]).fileId !in destinations {
        return Some(MissingDestination);
      }
      var i := FindBatch(batches, o.transferId);
      if i < |batches| {
        if !OffersMatch(OfferOf(batches[i]), o, less) {
          return Some(IdentityConflict);
        }
        if device.Some? && batches[i].sourceDeviceId.None? {
          ghost var was := batches;
          batches := batches[i := batches[i].(sourceDeviceId := device)];
          assert batches[i] != was[i];
          Persist();
        }
        return None;
      }
      var batch := NewBatch(DraftOf(o, destinations, device), now);
      if !AssertBatch(batch) {
        return Some(InvalidBatch);
      }
      ghost var was := batches;
      DraftIsStored(o, destinations, device, now);
      batches := batches + [batch];
      assert |batches| != |was|;
      Persist();
      return None;
    }

    method AssociateSourceDevice(transferId: string, device: string, now: int) returns (error: Option<QueueError>)
      modifies this
      ensures var r := Apply(old(batches), Associate(transferId, device), now);
              && error == (if r.Err? then Some(r.error) else None)
              && batches == (if r.Ok? then r.value else old(batches))
              && saves == (if batches == old(batches) then old(saves) else old(saves) + [batches])
    {
      var i := FindBatch(batches, transferId);
      if i == |batches| {
        return Some(UnknownTransfer);
      }
      if batches[i].sourceDeviceId.Some? {
        return None;
      }
      ghost var was := batches;
      batches := batches[i := batches[i].(sourceDeviceId := Some(device))];
      Touch(i, now);
      assert batches[i] != was[i];
      Persist();
      return None;
    }

    // ----- scheduling ------------------------------------------------------

    /** The stretch of `claimNext` behind its `expire`; that one is `ExpireDue`. */
    method ClaimNext(now: int) returns (claim: Option<(Batch, FileRecord)>)
      modifies this
      ensures batches == ClaimFirst(old(batches), now)
      ensures claim.None? <==> NextClaim(old(batches)).None?
      ensures claim.Some? ==>
                var (i, j) := NextClaim(old(batches)).value;
                claim.value == (batches[i], batches[i].files[j]) && saves == old(saves) + [batches]
      ensures claim.None? ==> saves == old(saves)
    {
      if Busy(batches) {
        return None;
      }
      var i := 0;
      while i < |batches|
        invariant 0 <= i <= |batches| && batches == old(batches) && saves == old(saves)
        invariant forall k :: 0 <= k < i ==> !Claimable(batches[k])
      {
        if !IsTerminalBatch(batches[i].status) && !batches[i].status.Paused? {
          var j := FirstQueued(batches[i].files);
          if j < |batches[i].files| {
            assert Claimable(batches[i]);
            batches := batches[i := batches[i].(files := batches[i].files[j := batches[i].files[j].(status := FileStatus.Active)],
                                                status := BatchStatus.Active)];
            Touch(i, now);
            Persist();
            return Some((batches[i], batches[i].files[j]));
          }
        }
        i := i + 1;
      }
      return None;
    }

    // ----- one file --------------------------------------------------------

    method ConfirmProgress(transferId: string, fileId: string, offset: int, chunk: Option<int>, now: int)
      returns (error: Option<QueueError>)
      modifies this
      ensures Did(old(batches), old(saves), ChangeOne(old(batches), transferId, fileId, Confirm(offset, chunk), now), error)
    {
      var i := FindBatch(batches, transferId);
      if i == |batches| { return Some(UnknownTransfer); }
      var j := FindFile(batches[i].files, fileId);
      if j == |batches[i].files| { return Some(UnknownFile); }
      var file := batches[i].files[j];
      if file.status != FileStatus.Active { return Some(NotActive); }
      if !SafeInteger(offset) || offset < file.confirmedOffset || offset > file.size { return Some(OffsetOutOfRange); }
      if chunk.Some? && (!SafeInteger(chunk.value) || chunk.value <= 0) { return Some(BadChunkLimit); }
      file := file.(confirmedOffset := offset);
      if chunk.Some? {
        file := file.(maxChunkBytes := chunk);
      }
      PutFile(i, j, file);
      Touch(i, now);
      Persist();
      return None;
    }

    method BeginVerifying(transferId: string, fileId: string, offset: int, now: int, monotonicNow: int)
      returns (error: Option<QueueError>)
      modifies this
      ensures Did(old(batches), old(saves), ChangeOne(old(batches), transferId, fileId,
                    BeginVerification(offset, Elapsed(old(anchors), (transferId, fileId), monotonicNow)), now), error)
    {
      var i := FindBatch(batches, transferId);
      if i == |batches| { return Some(UnknownTransfer); }
      var j := FindFile(batches[i].files, fileId);
      if j == |batches[i].files| { return Some(UnknownFile); }
      var file := batches[i].files[j];
      if file.status != FileStatus.Active { return Some(NotActive); }
      if offset != file.size || offset < file.confirmedOffset { return Some(OffsetOutOfRange); }
      file := file.(confirmedOffset := offset);
      file := file.(status := Verifying);
      file := Marked(transferId, file, RECEIVER_VERIFICATION, false, now, monotonicNow);
      PutFile(i, j, file);
      Derive(i, now);
      Persist();
      return None;
    }

    method BeginFinalizing(transferId: string, fileId: string, path: Path, now: int, monotonicNow: int)
      returns (error: Option<QueueError>)
      modifies this
      ensures Did(old(batches), old(saves), ChangeOne(old(batches), transferId, fileId,
                    BeginFinalization(path, Elapsed(old(anchors), (transferId, fileId), monotonicNow)), now), error)
    {
      var i := FindBatch(batches, transferId);
      if i == |batches| { return Some(UnknownTransfer); }
      var j := FindFile(batches[i].files, fileId);
      if j == |batches[i].files| { return Some(UnknownFile); }
      var file := batches[i].files[j];
      if file.status != Verifying && file.status != Finalizing { return Some(NotVerifying); }
      file := file.(status := Finalizing);
      file := Marked(transferId, file, RECEIVER_VERIFICATION, true, now, monotonicNow);
      file := Marked(transferId, file, PUBLISH_FINALIZATION, false, now, monotonicNow);
      file := file.(finalizingPath := Some(path));
      PutFile(i, j, file);
      Derive(i, now);
      Persist();
      return None;
    }

    /** The part of `complete` that works on the record. */
    method Finish(transferId: string, f: FileRecord, digest: Digest, now: int, monotonicNow: int)
      returns (r: Result<FileRecord, QueueError>)
      modifies `anchors
      ensures r == CompletedWith(f, now, digest, Elapsed(old(anchors), (transferId, f.fileId), monotonicNow))
    {
      var file := f;
      if file.status != FileStatus.Active && file.status != Verifying && file.status != Finalizing {
        return Err(NotCompletable);
      }
      if file.confirmedOffset != file.size { return Err(BytesMissing); }
      if file.sha256 == Placeholder {
        if digest == Placeholder || digest == Malformed { return Err(HashMismatch); }
        file := file.(sha256 := digest);
      } else if digest != file.sha256 {
        return Err(HashMismatch);
      }
      if file.finalizingPath.Some? {
        file := file.(destinationPath := file.finalizingPath);
        file := file.(finalizingPath := None);
      }
      file := file.(status := FileStatus.Completed);
      file := Marked(transferId, file, PUBLISH_FINALIZATION, true, now, monotonicNow);
      file := Marked(transferId, file, DURABLE_COMPLETION, true, now, monotonicNow);
      file := file.(errorCode := None);
      return Ok(file);
    }

    method CompleteFile(transferId: string, fileId: string, digest: Digest, now: int, monotonicNow: int)
      returns (error: Option<QueueError>)
      modifies this
      ensures Did(old(batches), old(saves), ChangeOne(old(batches), transferId, fileId,
                    Complete(digest, Elapsed(old(anchors), (transferId, fileId), monotonicNow)), now), error)
    {
      var i := FindBatch(batches, transferId);
      if i == |batches| { return Some(UnknownTransfer); }
      var j := FindFile(batches[i].files, fileId);
      if j == |batches[i].files| { return Some(UnknownFile); }
      var finished := Finish(transferId, batches[i].files[j], digest, now, monotonicNow);
      if finished.Err? { return Some(finished.error); }
      PutFile(i, j, finished.value);
      Derive(i, now);
      Persist();
      return None;
    }

    method MarkStage(transferId: string, fileId: string, stage: string, end: bool, now: int, monotonicNow: int)
      returns (error: Option<QueueError>)
      modifies this
      ensures Did(old(batches), old(saves), ChangeOne(old(batches), transferId, fileId,
                    Mark(stage, end, Elapsed(old(anchors), (transferId, fileId), monotonicNow)), now), error)
    {
      var i := FindBatch(batches, transferId);
      if i == |batches| { return Some(UnknownTransfer); }
      var j := FindFile(batches[i].files, fileId);
      if j == |batches[i].files| { return Some(UnknownFile); }
      var file := Marked(transferId, batches[i].files[j], stage, end, now, monotonicNow);
      PutFile(i, j, file);
      Touch(i, now);
      Persist();
      return None;
    }

    /** Failing a file that has ended already does nothing, not even a save. */
    method FailFile(transferId: string, fileId: string, code: string, now: int) returns (error: Option<QueueError>)
      modifies this
      ensures var r := ChangeOne(old(batches), transferId, fileId, Fail(code), now);
              && error == (if r.Err? then Some(r.error) else None)
              && batches == (if r.Ok? then r.value else old(batches))
              && saves == (if batches == old(batches) then old(saves) else old(saves) + [batches])
    {
      var i := FindBatch(batches, transferId);
      if i == |batches| { return Some(UnknownTransfer); }
      var j := FindFile(batches[i].files, fileId);
      if j == |batches[i].files| { return Some(UnknownFile); }
      var file := batches[i].files[j];
      if IsTerminalFile(file.status) { return None; }
      file := file.(status := FileStatus.Failed);
      file := file.(errorCode := Some(code));
      file := file.(finalizingPath := None);
      ghost var was := batches;
      PutFile(i, j, file);
      Derive(i, now);
      assert batches[i].files[j].status != was[i].files[j].status;
      Persist();
      return None;
    }

    method SetDestinationPath(transferId: string, fileId: string, path: Path, now: int)
      returns (error: Option<QueueError>)
      modifies this
      ensures Did(old(batches), old(saves), ChangeOne(old(batches), transferId, fileId, SetDestination(path), now), error)
    {
      var i := FindBatch(batches, transferId);
      if i == |batches| { return Some(UnknownTransfer); }
      var j := FindFile(batches[i].files, fileId);
      if j == |batches[i].files| { return Some(UnknownFile); }
      PutFile(i, j, batches[i].files[j].(destinationPath := Some(path)));
      Touch(i, now);
      Persist();
      return None;
    }

    // ----- one file or all of them -----------------------------------------

    method PauseEach(i: nat, start: nat, end: nat, now: int)
      requires i < |batches| && start <= end <= |batches[i].files|
      modifies `batches
      ensures batches == WithFiles(old(batches), i, FileChange.Pause, now, start, end)
    {
      var j := start;
      WithFilesDone(batches, i, FileChange.Pause, now, start, start);
      while j < end
        invariant start <= j <= end
        invariant batches == WithFiles(old(batches), i, FileChange.Pause, now, start, j)
      {
        WithFilesNext(old(batches), i, FileChange.Pause, now, start, j);
        var file := batches[i].files[j];
        if file.status == FileStatus.Queued || file.status == FileStatus.Active {
          PutFile(i, j, file.(status := FileStatus.Paused));
        }
        j := j + 1;
      }
    }

    /** Pausing a whole batch writes its status instead of deriving it. */
    method PauseFiles(transferId: string, fileId: Option<string>, now: int) returns (error: Option<QueueError>)
      modifies this
      ensures Did(old(batches), old(saves), Asked(old(batches), transferId, fileId, FileChange.Pause, now), error)
    {
      var i := FindBatch(batches, transferId);
      if i == |batches| { return Some(UnknownTransfer); }
      if fileId.Some? {
        var j := FindFile(batches[i].files, fileId.value);
        if j == |batches[i].files| { return Some(UnknownFile); }
        PauseEach(i, j, j + 1, now);
        WithFilesDone(old(batches), i, FileChange.Pause, now, j, j + 1);
        Derive(i, now);
      } else {
        PauseEach(i, 0, |batches[i].files|, now);
        WithFilesDone(old(batches), i, FileChange.Pause, now, 0, |old(batches)[i].files|);
        batches := batches[i := batches[i].(status := BatchStatus.Paused)];
        Touch(i, now);
      }
      Persist();
      return None;
    }

    method ResumeEach(i: nat, start: nat, end: nat, now: int)
      requires i < |batches| && start <= end <= |batches[i].files|
      modifies `batches
      ensures batches == WithFiles(old(batches), i, FileChange.Resume, now, start, end)
    {
      var j := start;
      WithFilesDone(batches, i, FileChange.Resume, now, start, start);
      while j < end
        invariant start <= j <= end
        invariant batches == WithFiles(old(batches), i, FileChange.Resume, now, start, j)
      {
        WithFilesNext(old(batches), i, FileChange.Resume, now, start, j);
        var file := batches[i].files[j];
        if file.status == FileStatus.Paused {
          PutFile(i, j, file.(status := FileStatus.Queued));
        }
        j := j + 1;
      }
    }

    method ResumeFiles(transferId: string, fileId: Option<string>, now: int) returns (error: Option<QueueError>)
      modifies this
      ensures Did(old(batches), old(saves), Asked(old(batches), transferId, fileId, FileChange.Resume, now), error)
    {
      var i := FindBatch(batches, transferId);
      if i == |batches| { return Some(UnknownTransfer); }
      var j, end := 0, |batches[i].files|;
      if fileId.Some? {
        j := FindFile(batches[i].files, fileId.value);
        if j == |batches[i].files| { return Some(UnknownFile); }
        end := j + 1;
      }
      ResumeEach(i, j, end, now);
      WithFilesDone(old(batches), i, FileChange.Resume, now, j, end);
      Derive(i, now);
      Persist();
      return None;
    }

    method CancelEach(i: nat, start: nat, end: nat, now: int)
      requires i < |batches| && start <= end <= |batches[i].files|
      modifies `batches
      ensures batches == WithFiles(old(batches), i, FileChange.Cancel, now, start, end)
    {
      var j := start;
      WithFilesDone(batches, i, FileChange.Cancel, now, start, start);
      while j < end
        invariant start <= j <= end
        invariant batches == WithFiles(old(batches), i, FileChange.Cancel, now, start, j)
      {
        WithFilesNext(old(batches), i, FileChange.Cancel, now, start, j);
        var file := batches[i].files[j];
        if !IsTerminalFile(file.status) {
          PutFile(i, j, file.(status := FileStatus.Cancelled, errorCode := None));
        }
        j := j + 1;
      }
    }

    method CancelFiles(transferId: string, fileId: Option<string>, now: int) returns (error: Option<QueueError>)
      modifies this
      ensures Did(old(batches), old(saves), Asked(old(batches), transferId, fileId, FileChange.Cancel, now), error)
    {
      var i := FindBatch(batches, transferId);
      if i == |batches| { return Some(UnknownTransfer); }
      var j, end := 0, |batches[i].files|;
      if fileId.Some? {
        j := FindFile(batches[i].files, fileId.value);
        if j == |batches[i].files| { return Some(UnknownFile); }
        end := j + 1;
      }
      CancelEach(i, j, end, now);
      WithFilesDone(old(batches), i, FileChange.Cancel, now, j, end);
      Derive(i, now);
      Persist();
      return None;
    }

    /** The part of `retry` that works on the record. */
    static method RetryRecord(f: FileRecord, now: int) returns (file: FileRecord)
      ensures Changed(f, FileChange.Retry, now) == Ok(file)
    {
      file := f;
      if file.status != FileStatus.Failed && file.status != FileStatus.Cancelled {
        return;
      }
      var timing := if file.timing.Some? then file.timing.value else NewTiming(now);
      var attempt := (if timing.attempts == [] then -1 else timing.attempts[|timing.attempts| - 1].number) + 1;
      timing := timing.(attempts := LastFour(timing.attempts + [Attempt(attempt, map[])]));
      file := file.(status := FileStatus.Queued);
      file := file.(confirmedOffset := 0);
      file := file.(timing := Some(timing));
      file := file.(errorCode := None);
      file := file.(finalizingPath := None);
    }

    method RetryEach(i: nat, start: nat, end: nat, now: int)
      requires i < |batches| && start <= end <= |batches[i].files|
      modifies `batches
      ensures batches == WithFiles(old(batches), i, FileChange.Retry, now, start, end)
    {
      var j := start;
      WithFilesDone(batches, i, FileChange.Retry, now, start, start);
      while j < end
        invariant start <= j <= end
        invariant batches == WithFiles(old(batches), i, FileChange.Retry, now, start, j)
      {
        WithFilesNext(old(batches), i, FileChange.Retry, now, start, j);
        var file := RetryRecord(batches[i].files[j], now);
        PutFile(i, j, file);
        j := j + 1;
      }
    }

    /** Taken as one step: nothing else runs while the partials are unlinked. */
    method RetryFiles(transferId: string, fileId: Option<string>, now: int) returns (error: Option<QueueError>)
      modifies this
      ensures Did(old(batches), old(saves), Asked(old(batches), transferId, fileId, FileChange.Retry, now), error)
    {
      var i := FindBatch(batches, transferId);
      if i == |batches| { return Some(UnknownTransfer); }
      var j, end := 0, |batches[i].files|;
      if fileId.Some? {
        j := FindFile(batches[i].files, fileId.value);
        if j == |batches[i].files| { return Some(UnknownFile); }
        end := j + 1;
      }
      RetryEach(i, j, end, now);
      WithFilesDone(old(batches), i, FileChange.Retry, now, j, end);
      Derive(i, now);
      Persist();
      return None;
    }

    // ----- expiry and recovery ---------------------------------------------

    /** `expire` */
    method ExpireDue(now: int)
      modifies this
      ensures batches == ExpireBatches(old(batches), now)
      ensures saves == (if batches == old(batches) then old(saves) else old(saves) + [batches])
    {
      var changed := false;
      var i := 0;
      ghost var target := ExpireBatches(batches, now);
      while i < |batches|
        invariant 0 <= i <= |batches| == |old(batches)| == |target| && saves == old(saves)
        invariant forall k :: 0 <= k < i ==> batches[k] == target[k]
        invariant forall k :: i <= k < |batches| ==> batches[k] == old(batches)[k]
        invariant changed ==> exists k :: 0 <= k < i && target[k] != old(batches)[k]
        invariant !changed ==> batches == old(batches)
      {
        var due := ExpireIfDue(i, now);
        changed := changed || due;
        i := i + 1;
      }
      if changed {
        Persist();
      }
    }

    method ExpireIfDue(i: nat, now: int) returns (due: bool)
      requires i < |batches|
      modifies `batches
      ensures batches == old(batches)[i := ExpiredBatch(old(batches)[i], now)]
      ensures due <==> ExpiredBatch(old(batches)[i], now) != old(batches)[i]
      ensures !due ==> batches == old(batches)
    {
      due := !IsTerminalBatch(batches[i].status) && batches[i].expiresAtMs <= now;
      if due {
        batches := batches[i := batches[i].(status := BatchStatus.Expired)];
        ghost var expired := batches;
        ExpireEach(i, now);
        WithFilesDone(expired, i, Expire, now, 0, |expired[i].files|);
        batches := batches[i := batches[i].(updatedAtMs := now)];
      }
    }

    method ExpireEach(i: nat, now: int)
      requires i < |batches|
      modifies `batches
      ensures batches == WithFiles(old(batches), i, Expire, now, 0, |old(batches)[i].files|)
    {
      var j := 0;
      WithFilesDone(batches, i, Expire, now, 0, 0);
      while j < |batches[i].files|
        invariant i < |batches| && 0 <= j <= |batches[i].files| == |old(batches)[i].files|
        invariant batches == WithFiles(old(batches), i, Expire, now, 0, j)
      {
        WithFilesNext(old(batches), i, Expire, now, 0, j);
        var file := batches[i].files[j];
        if !IsTerminalFile(file.status) {
          PutFile(i, j, file.(status := FileStatus.Failed, errorCode := Some("transfer_expired")));
        }
        j := j + 1;
      }
    }

    /** The last snapshot handed to the storage is what memory holds. */
    ghost predicate LastSaved()
      reads this
    {
      saves != [] && saves[|saves| - 1] == batches
    }

    /** The body of the inner loop of `recoverInterrupted`, as far as the record goes. */
    static method RecoverRecord(f: FileRecord, links: Links) returns (g: FileRecord, outcome: Outcome)
      ensures g == Recovered(f, LinkedIn(links, f))
      ensures outcome.Untouched? <==> g == f
      ensures outcome.Published? <==> f.status.Finalizing? && LinkedIn(links, f)
    {
      g, outcome := f, Untouched;
      if g.status == Finalizing {
        if LinkedIn(links, g) {
          g := g.(destinationPath := g.finalizingPath);
          g := g.(finalizingPath := None);
          g := g.(errorCode := None);
          g := g.(status := FileStatus.Completed);
          outcome := Published;
        } else {
          g := g.(finalizingPath := None);
          g := g.(status := FileStatus.Failed);
          g := g.(errorCode := Some("finalization_interrupted"));
          outcome := Repaired;
        }
      } else if g.status == Verifying
             || (g.status == FileStatus.Active && g.size > 0 && g.confirmedOffset == g.size) {
        g := g.(status := FileStatus.Failed);
        g := g.(errorCode := Some("verification_interrupted"));
        outcome := Repaired;
      } else if g.status == FileStatus.Active {
        g := g.(status := FileStatus.Queued);
        outcome := Repaired;
      }
    }

    /** The files of one batch in `recoverInterrupted`; `changed` asks the caller to derive the status. */
    method RecoverFiles(i: nat, links: Links, now: int) returns (changed: bool)
      requires i < |batches|
      modifies `batches, `saves
      ensures |batches| == |old(batches)| && batches == old(batches)[i := batches[i]]
      ensures batches[i].files == RecoveredFiles(old(batches)[i].files, links) && Same(batches[i], old(batches)[i])
      ensures batches[i].files == old(batches)[i].files ==> !changed && batches == old(batches) && saves == old(saves)
      ensures batches[i].files != old(batches)[i].files && !changed ==>
                batches[i] == Derived(batches[i], now) && LastSaved()
    {
      changed := false;
      ghost var published := false;
      ghost var before, target := batches[i].files, RecoveredFiles(batches[i].files, links);
      var j := 0;
      while j < |batches[i].files|
        invariant |batches| == |old(batches)| && batches == old(batches)[i := batches[i]]
        invariant Same(batches[i], old(batches)[i])
        invariant 0 <= j <= |before| == |target| == |batches[i].files|
        invariant forall k :: 0 <= k < j ==> batches[i].files[k] == target[k]
        invariant forall k :: j <= k < |before| ==> batches[i].files[k] == before[k]
        invariant changed || published ==> exists k :: 0 <= k < j && target[k] != before[k]
        invariant !changed && !published ==> batches == old(batches) && saves == old(saves)
        invariant published && !changed ==> batches[i] == Derived(batches[i], now) && LastSaved()
      {
        var g, outcome := RecoverRecord(batches[i].files[j], links);
        assert g == target[j];
        if outcome.Published? {
          PutFile(i, j, g);
          Derive(i, now);
          Persist();
          published := true;
        } else if outcome.Repaired? {
          PutFile(i, j, g);
          changed := true;
        }
        j := j + 1;
      }
      assert batches[i].files == target;
    }

    /** `recoverInterrupted`; the unlinked partials are part of module UploadEngine. */
    method RecoverInterrupted(links: Links, now: int)
      modifies this
      ensures batches == RecoverBatches(old(batches), links, now)
      ensures batches == old(batches) || LastSaved()
    {
      var changed := false;
      var i := 0;
      ghost var target := RecoverBatches(batches, links, now);
      while i < |batches|
        invariant 0 <= i <= |batches| == |old(batches)| == |target|
        invariant forall k :: 0 <= k < i ==> batches[k] == target[k]
        invariant forall k :: i <= k < |batches| ==> batches[k] == old(batches)[k]
        invariant changed || batches == old(batches) || LastSaved()
      {
        assert target[i] == RecoveredBatch(batches[i], links, now);
        if !IsTerminalBatch(batches[i].status) {
          ghost var b := batches[i];
          var batchChanged := RecoverFiles(i, links, now);
          RecoveredInSteps(b, batches[i], links, now);
          if batchChanged {
            Derive(i, now);
            changed := true;
          }
        }
        i := i + 1;
      }
      if changed {
        Persist();
      }
    }
  }
}
