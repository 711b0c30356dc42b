/**
 What every operation of the queue keeps, for every file at once, and what
 follows for whole runs.
 */
module QueueRuns {
  import opened Wrappers
  import opened TransferFile
  import opened QueueModel

  // ----- every operation is a change per file ------------------------------

  /** The file stays, or undergoes one applicable change. */
  ghost predicate StepsTo(f: FileRecord, g: FileRecord, now: int) {
    f == g || exists c :: Applicable(f, c) && Changed(f, c, now) == Ok(g)
  }

  ghost predicate FilesStep(files: seq<FileRecord>, after: seq<FileRecord>, now: int) {
    |after| == |files| && forall j :: 0 <= j < |files| ==> StepsTo(files[j], after[j], now)
  }

  /** Batches keep their place; new ones come last; nothing but the device is filled in at batch level. */
  ghost predicate QueueSteps(q: seq<Batch>, after: seq<Batch>, now: int) {
    && |q| <= |after|
    && (forall i :: 0 <= i < |q| ==>
          && after[i].transferId == q[i].transferId && after[i].batchId == q[i].batchId
          && after[i].origin == q[i].origin && after[i].direction == q[i].direction
          && after[i].createdAtMs == q[i].createdAtMs
          && (q[i].sourceDeviceId.Some? ==> after[i].sourceDeviceId == q[i].sourceDeviceId)
          && FilesStep(q[i].files, after[i].files, now))
  }

  lemma {:induction false} ChangeOneSteps(q: seq<Batch>, transferId: string, fileId: string, c: FileChange, now: int)
    requires ForOne(c)
    ensures var r := ChangeOne(q, transferId, fileId, c, now); r.Ok? ==> QueueSteps(q, r.value, now)
  {
    var i := FindBatch(q, transferId);
    if i < |q| {
      var j := FindFile(q[i].files, fileId);
      if j < |q[i].files| {
        assert Applicable(q[i].files[j], c);
      }
    }
  }

  lemma {:induction false} ChangeFilesSteps(files: seq<FileRecord>, c: FileChange, now: int)
    requires ForWhole(c) || c.Expire?
    ensures FilesStep(files, ChangeFiles(files, c, now), now)
  {
    forall j | 0 <= j < |files|
      ensures StepsTo(files[j], ChangeFiles(files, c, now)[j], now)
    {
      assert Applicable(files[j], c);
    }
  }

  lemma {:induction false} ChangeWholeSteps(q: seq<Batch>, transferId: string, c: FileChange, now: int)
    requires ForWhole(c)
    ensures var r := ChangeWhole(q, transferId, c, now); r.Ok? ==> QueueSteps(q, r.value, now)
  {
    var i := FindBatch(q, transferId);
    if i < |q| {
      ChangeFilesSteps(q[i].files, c, now);
    }
  }

  lemma {:induction false} ClaimSteps(q: seq<Batch>, now: int)
    ensures QueueSteps(q, ClaimFirst(q, now), now)
  {
    if NextClaim(q).Some? {
      var (i, j) := NextClaim(q).value;
      assert Changed(q[i].files[j], Claim, now) == Ok(ClaimFirst(q, now)[i].files[j]);
      assert Applicable(q[i].files[j], Claim);
    }
  }

  lemma {:induction false} ExpireSteps(q: seq<Batch>, now: int)
    ensures QueueSteps(q, ExpireBatches(q, now), now)
  {
    forall i | 0 <= i < |q|
      ensures FilesStep(q[i].files, ExpireBatches(q, now)[i].files, now)
    {
      ChangeFilesSteps(q[i].files, Expire, now);
    }
  }

  lemma {:induction false} RecoverSteps(q: seq<Batch>, links: Links, now: int)
    ensures QueueSteps(q, RecoverBatches(q, links, now), now)
  {
    forall i, j | 0 <= i < |q| && 0 <= j < |q[i].files|
      ensures |RecoverBatches(q, links, now)[i].files| == |q[i].files|
      ensures StepsTo(q[i].files[j], RecoverBatches(q, links, now)[i].files[j], now)
    {
      var c := FileChange.Recover(LinkedIn(links, q[i].files[j]));
      assert Applicable(q[i].files[j], c);
      assert Changed(q[i].files[j], c, now) == Ok(Recovered(q[i].files[j], c.linked));
    }
  }

  /** Every operation that succeeds is, file by file, nothing or one lawful change. */
  lemma {:induction false} ApplySteps(q: seq<Batch>, op: Op, now: int)
    requires Apply(q, op, now).Ok?
    ensures QueueSteps(q, Apply(q, op, now).value, now)
  {
    match op
    case Add(draft) =>
    case Associate(transferId, device) =>
    case Adopt(transferId, device) =>
    case ClaimNext => ClaimSteps(q, now);
    case One(transferId, fileId, change) =>
      if ForOne(change) {
        ChangeOneSteps(q, transferId, fileId, change, now);
      }
    case Whole(transferId, change) =>
      if ForWhole(change) {
        ChangeWholeSteps(q, transferId, change, now);
      }
    case ExpireAll => ExpireSteps(q, now);
    case RecoverAll(links) => RecoverSteps(q, links, now);
  }

  lemma StepIsLawful(f: FileRecord, g: FileRecord, now: int)
    requires StepsTo(f, g, now)
    ensures LawfulStep(f, g)
  {
    if f != g {
      var c :| Applicable(f, c) && Changed(f, c, now) == Ok(g);
      ChangeIsLawful(f, c, now);
    }
  }

  lemma StepKeepsFileOk(f: FileRecord, g: FileRecord, now: int, n: nat)
    requires StepsTo(f, g, now) && FileOk(f, n) && SafeInteger(now)
    ensures FileOk(g, n + 1)
  {
    if f != g {
      var c :| Applicable(f, c) && Changed(f, c, now) == Ok(g);
      ChangeKeepsFileOk(f, c, now, n);
    }
  }

  // ----- what operations leave alone -----------------------------------------

  /** A change of one file touches no other file and no other batch, and does to the file what it should. */
  lemma {:induction false} ChangeOneIsLocal(q: seq<Batch>, transferId: string, fileId: string, c: FileChange, now: int)
    requires ChangeOne(q, transferId, fileId, c, now).Ok?
    ensures var r, i := ChangeOne(q, transferId, fileId, c, now).value, FindBatch(q, transferId);
            && |r| == |q| && i < |q|
            && (forall k :: 0 <= k < |q| && k != i ==> r[k] == q[k])
            && |r[i].files| == |q[i].files|
            && var j := FindFile(q[i].files, fileId);
               && j < |q[i].files|
               && (forall k :: 0 <= k < |q[i].files| && k != j ==> r[i].files[k] == q[i].files[k])
               && Changed(q[i].files[j], c, now) == Ok(r[i].files[j])
  {
  }

  /** A change of one file is refused for want of the transfer, of the file, or because the file refuses it, in that order. */
  lemma {:induction false} ChangeOneIsRefused(q: seq<Batch>, transferId: string, fileId: string, c: FileChange, now: int)
    ensures var r, i := ChangeOne(q, transferId, fileId, c, now), FindBatch(q, transferId);
            if forall k :: 0 <= k < |q| ==> q[k].transferId != transferId then r == Err(UnknownTransfer)
            else
              i < |q| && if forall j :: 0 <= j < |q[i].files| ==> q[i].files[j].fileId != fileId then r == Err(UnknownFile)
              else
                var j := FindFile(q[i].files, fileId);
                j < |q[i].files| && (r.Ok? <==> Changed(q[i].files[j], c, now).Ok?)
                && (r.Err? ==> r.error == Changed(q[i].files[j], c, now).error)
  {
    var i := FindBatch(q, transferId);
    if i < |q| {
      assert q[i].transferId == transferId;
      var j := FindFile(q[i].files, fileId);
      if j < |q[i].files| {
        assert q[i].files[j].fileId == fileId;
      }
    }
  }

  /**
   Of the batch around the file a change touches only the clocks, and the status
   only if the change is one that moves files from state to state; progress,
   timing and destinations leave it as it is.
   */
  lemma {:induction false} ChangeOneLeavesTheBatch(q: seq<Batch>, transferId: string, fileId: string, c: FileChange, now: int)
    requires ChangeOne(q, transferId, fileId, c, now).Ok? && ChangeOne(q, transferId, fileId, c, now).value != q
    ensures var r, i := ChangeOne(q, transferId, fileId, c, now).value, FindBatch(q, transferId);
            && i < |q| == |r|
            && r[i] == q[i].(files := r[i].files, status := r[i].status, updatedAtMs := now, expiresAtMs := now + SEVEN_DAYS_MS)
            && (if c.Confirm? || c.Mark? || c.SetDestination? then r[i].status == q[i].status else Says(r[i].status, r[i].files))
  {
    var r, i := ChangeOne(q, transferId, fileId, c, now).value, FindBatch(q, transferId);
    DeriveStatusExactly(r[i].files, r[i].status);
  }

  /** A change of a whole transfer reaches every file of it and no other batch; its status is paused or says what the files are. */
  lemma {:induction false} WholeIsEverywhere(q: seq<Batch>, transferId: string, c: FileChange, now: int)
    requires ForWhole(c)
    ensures var r, i := ChangeWhole(q, transferId, c, now), FindBatch(q, transferId);
            && (r.Ok? <==> i < |q|)
            && (r.Ok? ==>
                  var d := r.value[i];
                  && |r.value| == |q| && (forall k :: 0 <= k < |q| && k != i ==> r.value[k] == q[k])
                  && |d.files| == |q[i].files|
                  && (forall j :: 0 <= j < |d.files| ==> d.files[j] == After(q[i].files[j], c, now))
                  && d == q[i].(files := d.files, status := d.status, updatedAtMs := now, expiresAtMs := now + SEVEN_DAYS_MS)
                  && (if c.Pause? then d.status == BatchStatus.Paused else d.files != [] ==> Says(d.status, d.files)))
  {
    var i := FindBatch(q, transferId);
    if i < |q| {
      var files := ChangeFiles(q[i].files, c, now);
      forall j | 0 <= j < |files|
        ensures files[j] == After(q[i].files[j], c, now)
      {
        assert Changed(q[i].files[j], c, now) == Ok(files[j]);
      }
      if files != [] {
        DeriveStatusExactly(files, DeriveStatus(files));
      }
    }
  }

  /** A receiver names itself once: the first name stays, and only taking it down counts as activity. */
  lemma {:induction false} AssociationFillsADevice(q: seq<Batch>, transferId: string, device: string, now: int)
    ensures var r, i := Apply(q, Associate(transferId, device), now), FindBatch(q, transferId);
            && (r.Ok? <==> i < |q|)
            && (r.Ok? ==> r.value == if q[i].sourceDeviceId != None then q
                                     else q[i := q[i].(sourceDeviceId := Some(device), updatedAtMs := now,
                                                       expiresAtMs := now + SEVEN_DAYS_MS)])
  {
  }

  /** Expiry touches exactly the batches whose time has come, and in those exactly the files that have not ended. */
  lemma {:induction false} WhatExpiryDoes(q: seq<Batch>, now: int, i: nat)
    requires i < |q|
    ensures var b, d := q[i], ExpireBatches(q, now)[i];
            && (d != b <==> !IsTerminalBatch(b.status) && b.expiresAtMs <= now)
            && (d != b ==> forall j :: 0 <= j < |b.files| && Unfinished(b.files[j]) ==>
                             j < |d.files| && d.files[j].status == FileStatus.Failed && d.files[j].errorCode == Some("transfer_expired"))
            && (d != b ==> d.status.Expired? && AllTerminal(d.files) && |d.files| == |b.files|
                           && forall j :: 0 <= j < |b.files| ==> (d.files[j] != b.files[j] <==> !IsTerminalFile(b.files[j].status)))
  {
    ExpiredFilesAreTerminal(q[i].files, now);
    forall j | 0 <= j < |q[i].files|
      ensures Changed(q[i].files[j], Expire, now) == Ok(ChangeFiles(q[i].files, Expire, now)[j])
    {
    }
  }

  /**
   Whatever an operation does to a batch at `now`, adding it included, keeps it
   for seven days more; only a sender naming itself again and expiry do not count.
   */
  lemma {:induction false} ActivityDefersExpiry(q: seq<Batch>, op: Op, now: int, later: int, k: nat)
    requires Apply(q, op, now).Ok? && !op.Adopt? && !op.ExpireAll? && later < now + SEVEN_DAYS_MS
    requires k < |Apply(q, op, now).value| && (k < |q| ==> Apply(q, op, now).value[k] != q[k])
    ensures var r := Apply(q, op, now).value;
            && r[k].updatedAtMs == now && r[k].expiresAtMs == now + SEVEN_DAYS_MS
            && k < |ExpireBatches(r, later)| && ExpireBatches(r, later)[k] == r[k]
  {
  }

  // ----- batch status ------------------------------------------------------

  predicate NoneQueuedOrActive(files: seq<FileRecord>) {
    forall i :: 0 <= i < |files| ==> !files[i].status.Queued? && !files[i].status.Active?
  }

  /**
   A batch's status is the fold of its files', but for two: a whole batch can be
   paused while nothing in it is queued or active, and expired once everything
   in it is terminal.
   */
  predicate StatusOk(b: Batch) {
    || b.status == DeriveStatus(b.files)
    || (b.status.Paused? && NoneQueuedOrActive(b.files))
    || (b.status.Expired? && AllTerminal(b.files))
  }

  lemma {:induction false} ChangeOneKeepsStatus(q: seq<Batch>, transferId: string, fileId: string, c: FileChange, now: int)
    requires ForOne(c) && forall i :: 0 <= i < |q| ==> StatusOk(q[i])
    ensures var r := ChangeOne(q, transferId, fileId, c, now);
            r.Ok? ==> forall i :: 0 <= i < |r.value| ==> StatusOk(r.value[i])
  {
    var r := ChangeOne(q, transferId, fileId, c, now);
    var i := FindBatch(q, transferId);
    if r.Ok? && r.value != q && (c.Confirm? || c.Mark? || c.SetDestination?) {
      var j := FindFile(q[i].files, fileId);
      assert r.value[i].files[j].status == q[i].files[j].status;
      SameStatuses(q[i], r.value[i]);
    }
  }

  /** Derivation looks at nothing but the statuses. */
  lemma {:induction false} SameStatuses(b: Batch, d: Batch)
    requires |d.files| == |b.files| && d.status == b.status
    requires forall j :: 0 <= j < |b.files| ==> d.files[j].status == b.files[j].status
    ensures DeriveStatus(d.files) == DeriveStatus(b.files)
    ensures StatusOk(b) ==> StatusOk(d)
  {
    if SomeInFlight(b.files) {
      var i :| 0 <= i < |b.files| && InFlight(b.files[i].status);
      assert InFlight(d.files[i].status);
    }
    if SomeInFlight(d.files) {
      var i :| 0 <= i < |d.files| && InFlight(d.files[i].status);
      assert InFlight(b.files[i].status);
    }
    if SomeQueued(b.files) {
      var i :| 0 <= i < |b.files| && b.files[i].status.Queued?;
      assert d.files[i].status.Queued?;
    }
    if SomeQueued(d.files) {
      var i :| 0 <= i < |d.files| && d.files[i].status.Queued?;
      assert b.files[i].status.Queued?;
    }
  }

  ghost predicate AllStatusOk(q: seq<Batch>) {
    forall i :: 0 <= i < |q| ==> StatusOk(q[i])
  }

  lemma NewBatchStatusOk(draft: Draft, now: int)
    requires draft.files != []
    ensures StatusOk(NewBatch(draft, now))
  {
    var b := NewBatch(draft, now);
    assert b.files[0].status.Queued?;
    assert SomeQueued(b.files) && !SomeInFlight(b.files);
  }

  lemma {:induction false} ClaimKeepsStatus(q: seq<Batch>, now: int)
    requires AllStatusOk(q)
    ensures AllStatusOk(ClaimFirst(q, now))
  {
    var r := ClaimFirst(q, now);
    if NextClaim(q).Some? {
      var (i, j) := NextClaim(q).value;
      assert r[i].files[j].status.Active?;
      assert SomeInFlight(r[i].files);
      assert DeriveStatus(r[i].files) == BatchStatus.Active;
    }
  }

  lemma {:induction false} ChangeWholeKeepsStatus(q: seq<Batch>, transferId: string, c: FileChange, now: int)
    requires ForWhole(c) && AllStatusOk(q)
    ensures var r := ChangeWhole(q, transferId, c, now); r.Ok? ==> AllStatusOk(r.value)
  {
    var i := FindBatch(q, transferId);
    if i < |q| && c.Pause? {
      var files := ChangeFiles(q[i].files, c, now);
      forall j | 0 <= j < |files|
        ensures !files[j].status.Queued? && !files[j].status.Active?
      {
        assert Changed(q[i].files[j], c, now) == Ok(files[j]);
      }
      assert NoneQueuedOrActive(files);
    }
  }

  lemma {:induction false} ExpireKeepsStatus(q: seq<Batch>, now: int)
    requires AllStatusOk(q)
    ensures AllStatusOk(ExpireBatches(q, now))
  {
    forall i | 0 <= i < |q|
      ensures StatusOk(ExpiredBatch(q[i], now))
    {
      ExpiredFilesAreTerminal(q[i].files, now);
    }
  }

  lemma {:induction false} ExpiredFilesAreTerminal(files: seq<FileRecord>, now: int)
    ensures AllTerminal(ChangeFiles(files, Expire, now))
  {
    forall j | 0 <= j < |files|
      ensures IsTerminalFile(ChangeFiles(files, Expire, now)[j].status)
    {
      assert Changed(files[j], Expire, now) == Ok(ChangeFiles(files, Expire, now)[j]);
    }
  }

  lemma {:induction false} RecoverKeepsStatus(q: seq<Batch>, links: Links, now: int)
    requires AllStatusOk(q)
    ensures AllStatusOk(RecoverBatches(q, links, now))
  {
    forall i | 0 <= i < |q|
      ensures StatusOk(RecoveredBatch(q[i], links, now))
    {
    }
  }

  lemma {:induction false} ApplyKeepsStatus(q: seq<Batch>, op: Op, now: int)
    requires AllStatusOk(q) && Apply(q, op, now).Ok?
    ensures AllStatusOk(Apply(q, op, now).value)
  {
    match op
    case Add(draft) => NewBatchStatusOk(draft, now);
    case Associate(transferId, device) =>
    case Adopt(transferId, device) =>
    case ClaimNext => ClaimKeepsStatus(q, now);
    case One(transferId, fileId, change) =>
      if ForOne(change) {
        ChangeOneKeepsStatus(q, transferId, fileId, change, now);
      }
    case Whole(transferId, change) =>
      if ForWhole(change) {
        ChangeWholeKeepsStatus(q, transferId, change, now);
      }
    case ExpireAll => ExpireKeepsStatus(q, now);
    case RecoverAll(links) => RecoverKeepsStatus(q, links, now);
  }

  // ----- the whole queue ---------------------------------------------------

  /** At most one file over all batches is active, verifying or finalizing. */
  predicate SingleFlight(q: seq<Batch>) {
    forall i, j, k, l ::
      0 <= i < |q| && 0 <= j < |q[i].files| && InFlight(q[i].files[j].status)
      && 0 <= k < |q| && 0 <= l < |q[k].files| && InFlight(q[k].files[l].status)
      ==> i == k && j == l
  }

  /** The invariant of the queue after at most `n` operations. */
  predicate QueueOk(q: seq<Batch>, n: nat) {
    && (forall i :: 0 <= i < |q| ==> q[i].files != [] && DistinctIds(q[i].files) && StatusOk(q[i]))
    && (forall i, j :: 0 <= i < |q| && 0 <= j < |q[i].files| ==> FileOk(q[i].files[j], n))
    && SingleFlight(q)
  }

  /** Operations other than `claimNext` put no file in flight. */
  lemma {:induction false} OthersTakeNothingOff(q: seq<Batch>, op: Op, now: int, i: nat, j: nat)
    requires Apply(q, op, now).Ok? && !op.ClaimNext?
    requires i < |Apply(q, op, now).value| && j < |Apply(q, op, now).value[i].files|
    requires InFlight(Apply(q, op, now).value[i].files[j].status)
    ensures i < |q| && j < |q[i].files| && InFlight(q[i].files[j].status)
  {
    ApplySteps(q, op, now);
    if i < |q| {
      assert StepsTo(q[i].files[j], Apply(q, op, now).value[i].files[j], now);
      OthersActivateNothing(q, op, now, i, j);
    } else {
      OnlyAddGrows(q, op, now);
    }
  }

  lemma {:induction false} OnlyAddGrows(q: seq<Batch>, op: Op, now: int)
    requires Apply(q, op, now).Ok?
    ensures !op.Add? ==> |Apply(q, op, now).value| == |q|
    ensures op.Add? ==> Apply(q, op, now).value == q + [NewBatch(op.draft, now)]
  {
  }

  /** No change but a claim makes a file active. */
  lemma OnlyClaimActivates(f: FileRecord, c: FileChange, now: int)
    requires !c.Claim? && Changed(f, c, now).Ok? && InFlight(Changed(f, c, now).value.status)
    ensures InFlight(f.status)
  {
  }

  lemma {:induction false} OneActivatesNothing(q: seq<Batch>, transferId: string, fileId: string, c: FileChange, now: int, i: nat, j: nat)
    requires ForOne(c) && ChangeOne(q, transferId, fileId, c, now).Ok? && i < |q| && j < |q[i].files|
    requires InFlight(ChangeOne(q, transferId, fileId, c, now).value[i].files[j].status)
    ensures InFlight(q[i].files[j].status)
  {
    if i == FindBatch(q, transferId) && j == FindFile(q[i].files, fileId) {
      if !(c.Fail? && IsTerminalFile(q[i].files[j].status)) {
        OnlyClaimActivates(q[i].files[j], c, now);
      }
    }
  }

  lemma {:induction false} OthersActivateNothing(q: seq<Batch>, op: Op, now: int, i: nat, j: nat)
    requires Apply(q, op, now).Ok? && !op.ClaimNext? && i < |q| && j < |q[i].files|
    requires i < |Apply(q, op, now).value| && j < |Apply(q, op, now).value[i].files|
    requires InFlight(Apply(q, op, now).value[i].files[j].status)
    ensures InFlight(q[i].files[j].status)
  {
    match op
    case Add(draft) =>
    case Associate(transferId, device) =>
    case Adopt(transferId, device) =>
    case One(transferId, fileId, change) =>
      if ForOne(change) {
        OneActivatesNothing(q, transferId, fileId, change, now, i, j);
      }
    case Whole(transferId, change) =>
    case ExpireAll =>
    case RecoverAll(links) =>
  }

  lemma {:induction false} ClaimTakesOneOff(q: seq<Batch>, now: int, i: nat, j: nat)
    requires NextClaim(q).Some? && i < |q| && j < |q[i].files|
    requires InFlight(ClaimFirst(q, now)[i].files[j].status)
    ensures (i, j) == NextClaim(q).value
  {
    assert !SomeInFlight(q[i].files);
    assert !InFlight(q[i].files[j].status);
  }

  lemma {:induction false} ApplyKeepsSingleFlight(q: seq<Batch>, op: Op, now: int)
    requires SingleFlight(q) && Apply(q, op, now).Ok?
    ensures SingleFlight(Apply(q, op, now).value)
  {
    var r := Apply(q, op, now).value;
    if op.ClaimNext? {
      if NextClaim(q).Some? {
        forall i, j | 0 <= i < |r| && 0 <= j < |r[i].files| && InFlight(r[i].files[j].status)
          ensures (i, j) == NextClaim(q).value
        {
          ClaimTakesOneOff(q, now, i, j);
        }
      }
    } else {
      forall i, j | 0 <= i < |r| && 0 <= j < |r[i].files| && InFlight(r[i].files[j].status)
        ensures i < |q| && j < |q[i].files| && InFlight(q[i].files[j].status)
      {
        OthersTakeNothingOff(q, op, now, i, j);
      }
    }
  }

  lemma {:induction false} ApplyKeepsFiles(q: seq<Batch>, op: Op, now: int, n: nat)
    requires QueueOk(q, n) && SafeInteger(now) && Apply(q, op, now).Ok?
    ensures var r := Apply(q, op, now).value;
            && (forall i :: 0 <= i < |r| ==> r[i].files != [] && DistinctIds(r[i].files))
            && (forall i, j :: 0 <= i < |r| && 0 <= j < |r[i].files| ==> FileOk(r[i].files[j], n + 1))
  {
    var r := Apply(q, op, now).value;
    ApplySteps(q, op, now);
    forall i, j | 0 <= i < |r| && 0 <= j < |r[i].files|
      ensures FileOk(r[i].files[j], n + 1)
      ensures i < |q| ==> r[i].files[j].fileId == q[i].files[j].fileId
    {
      if i < |q| {
        assert StepsTo(q[i].files[j], r[i].files[j], now);
        StepKeepsFileOk(q[i].files[j], r[i].files[j], now, n);
        StepIsLawful(q[i].files[j], r[i].files[j], now);
      }
    }
  }

  /** The queue invariant survives every operation, whatever its arguments. */
  lemma {:induction false} ApplyKeepsQueueOk(q: seq<Batch>, op: Op, now: int, n: nat)
    requires QueueOk(q, n) && SafeInteger(now) && Apply(q, op, now).Ok?
    ensures QueueOk(Apply(q, op, now).value, n + 1)
  {
    ApplyKeepsStatus(q, op, now);
    ApplyKeepsSingleFlight(q, op, now);
    ApplyKeepsFiles(q, op, now, n);
  }

  // ----- runs --------------------------------------------------------------

  /** A run of operations on an empty queue; one that throws leaves the queue as it was. */
  datatype History = Fresh | Then(before: History, op: Op, now: int)

  function Now(h: History): seq<Batch> {
    match h
    case Fresh => []
    case Then(before, op, now) =>
      var r := Apply(Now(before), op, now);
      if r.Ok? then r.value else Now(before)
  }

  predicate ClockOk(h: History) {
    h.Then? ==> ClockOk(h.before) && SafeInteger(h.now)
  }

  function Length(h: History): nat {
    if h.Fresh? then 0 else Length(h.before) + 1
  }

  lemma {:induction false} QueueOkGrows(q: seq<Batch>, n: nat)
    requires QueueOk(q, n)
    ensures QueueOk(q, n + 1)
  {
    forall i, j | 0 <= i < |q| && 0 <= j < |q[i].files|
      ensures FileOk(q[i].files[j], n + 1)
    {
      assert FileOk(q[i].files[j], n);
    }
  }

  lemma {:induction false} RunsKeepQueueOk(h: History)
    requires ClockOk(h)
    ensures QueueOk(Now(h), Length(h))
  {
    if h.Then? {
      RunsKeepQueueOk(h.before);
      if Apply(Now(h.before), h.op, h.now).Ok? {
        ApplyKeepsQueueOk(Now(h.before), h.op, h.now, Length(h.before));
      } else {
        QueueOkGrows(Now(h.before), Length(h.before));
      }
    }
  }

  /**
   In every run each batch has files, and its status says what they are, but
   for a batch paused as a whole with nothing left queued or active and one
   expired as a whole with everything in it ended.
   */
  lemma {:induction false} EveryStatusSays(h: History, i: nat)
    requires ClockOk(h) && i < |Now(h)|
    ensures var b := Now(h)[i];
            && b.files != []
            && (|| Says(b.status, b.files)
                || (b.status == BatchStatus.Paused && forall j :: 0 <= j < |b.files| ==>
                      b.files[j].status !in {FileStatus.Queued, FileStatus.Active})
                || (b.status == BatchStatus.Expired && forall j :: 0 <= j < |b.files| ==>
                      b.files[j].status in {FileStatus.Completed, FileStatus.Failed, FileStatus.Cancelled}))
  {
    RunsKeepQueueOk(h);
    var b := Now(h)[i];
    DeriveStatusExactly(b.files, b.status);
    assert b.status.Expired? && AllTerminal(b.files) ==> forall j :: 0 <= j < |b.files| ==> IsTerminalFile(b.files[j].status);
  }

  /** Whatever snapshot is persisted, the next `open` accepts it (as long as attempts can still be counted). */
  lemma {:induction false} EverySnapshotLoads(h: History)
    requires ClockOk(h) && Length(h) <= MAX_SAFE_INTEGER
    ensures AssertSnapshot(Now(h))
  {
    RunsKeepQueueOk(h);
    var q := Now(h);
    forall i, j | 0 <= i < |q| && 0 <= j < |q[i].files|
      ensures ProgressOk(q[i].files[j])
      ensures q[i].files[j].timing.Some? ==> IsTiming(q[i].files[j].timing.value)
    {
      assert FileOk(q[i].files[j], Length(h));
    }
  }

  /** How a file may have changed between two points of a run. */
  predicate LawfulHistory(f: FileRecord, g: FileRecord) {
    && g.fileId == f.fileId && g.size == f.size && g.meta == f.meta && g.sourcePath == f.sourcePath
    && (f.status.Completed? ==>
          g.status.Completed? && g.confirmedOffset == f.confirmedOffset && g.sha256 == f.sha256)
    && (f.sha256 != Placeholder ==> g.sha256 == f.sha256)
    && (f.sha256 != g.sha256 ==> g.status.Completed?)
  }

  /** `h` with the operations of `more` after it. */
  predicate Continues(h: History, more: History) {
    more == h || (more.Then? && Continues(h, more.before))
  }

  lemma {:induction false} RunsAreLawful(h: History, more: History, i: nat, j: nat)
    requires Continues(h, more) && i < |Now(h)| && j < |Now(h)[i].files|
    ensures i < |Now(more)| && |Now(more)[i].files| == |Now(h)[i].files|
    ensures LawfulHistory(Now(h)[i].files[j], Now(more)[i].files[j])
    decreases more
  {
    if more != h {
      RunsAreLawful(h, more.before, i, j);
      var q := Now(more.before);
      if Apply(q, more.op, more.now).Ok? {
        ApplySteps(q, more.op, more.now);
        assert StepsTo(q[i].files[j], Now(more)[i].files[j], more.now);
        StepIsLawful(q[i].files[j], Now(more)[i].files[j], more.now);
      }
    }
  }

  /** One step of a run, for every file: `LawfulStep` of module TransferFile. */
  lemma {:induction false} StepsOfRunsAreLawful(h: History, i: nat, j: nat)
    requires h.Then? && i < |Now(h.before)| && j < |Now(h.before)[i].files|
    ensures i < |Now(h)| && j < |Now(h)[i].files|
    ensures LawfulStep(Now(h.before)[i].files[j], Now(h)[i].files[j])
  {
    var q := Now(h.before);
    if Apply(q, h.op, h.now).Ok? {
      ApplySteps(q, h.op, h.now);
      assert StepsTo(q[i].files[j], Now(h)[i].files[j], h.now);
      StepIsLawful(q[i].files[j], Now(h)[i].files[j], h.now);
    }
  }
}
