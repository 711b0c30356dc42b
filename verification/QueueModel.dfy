/**
 The transfer queue as a value: its batches, every operation of
 src/transfer/transfer-queue.ts as a function of the batches, and the shape
 those operations keep.
 */
module QueueModel {
  import opened Wrappers
  import opened TransferFile
  import Paths

  const SEVEN_DAYS_MS := 7 * 24 * 60 * 60 * 1000

  datatype Direction = LaptopToPhone | PhoneToLaptop

  datatype BatchStatus = Queued | Active | Paused | Completed | CompletedWithIssues | Cancelled | Expired

  datatype Batch = Batch(
    transferId: string,
    batchId: string,
    origin: string,
    direction: Direction,
    sourceDeviceId: Option<string>,
    createdAtMs: int,
    updatedAtMs: int,
    expiresAtMs: int,
    status: BatchStatus,
    files: seq<FileRecord>
  )

  predicate IsTerminalBatch(s: BatchStatus) {
    s.Completed? || s.CompletedWithIssues? || s.Cancelled? || s.Expired?
  }

  // ----- status ------------------------------------------------------------

  predicate AllCompleted(files: seq<FileRecord>) {
    forall i :: 0 <= i < |files| ==> files[i].status.Completed?
  }

  predicate AllCancelled(files: seq<FileRecord>) {
    forall i :: 0 <= i < |files| ==> files[i].status.Cancelled?
  }

  predicate AllTerminal(files: seq<FileRecord>) {
    forall i :: 0 <= i < |files| ==> IsTerminalFile(files[i].status)
  }

  predicate SomeInFlight(files: seq<FileRecord>) {
    exists i :: 0 <= i < |files| && InFlight(files[i].status)
  }

  predicate SomeQueued(files: seq<FileRecord>) {
    exists i :: 0 <= i < |files| && files[i].status.Queued?
  }

  /** `deriveBatchStatus` */
  function DeriveStatus(files: seq<FileRecord>): BatchStatus {
    if AllCompleted(files) then BatchStatus.Completed
    else if AllCancelled(files) then BatchStatus.Cancelled
    else if AllTerminal(files) then CompletedWithIssues
    else if SomeInFlight(files) then BatchStatus.Active
    else if SomeQueued(files) then BatchStatus.Queued
    else BatchStatus.Paused
  }

  /** What a derived status says of the files, for any batch that has some. */
  predicate Says(status: BatchStatus, files: seq<FileRecord>) {
    match status
    case Completed => forall i :: 0 <= i < |files| ==> files[i].status == FileStatus.Completed
    case Cancelled => forall i :: 0 <= i < |files| ==> files[i].status == FileStatus.Cancelled
    case CompletedWithIssues =>
      && (forall i :: 0 <= i < |files| ==>
            files[i].status in {FileStatus.Completed, FileStatus.Failed, FileStatus.Cancelled})
      && (exists i :: 0 <= i < |files| && files[i].status != FileStatus.Completed)
      && (exists i :: 0 <= i < |files| && files[i].status != FileStatus.Cancelled)
    case Active =>
      exists i :: 0 <= i < |files| && files[i].status in {FileStatus.Active, Verifying, Finalizing}
    case Queued =>
      && (exists i :: 0 <= i < |files| && files[i].status == FileStatus.Queued)
      && (forall i :: 0 <= i < |files| ==> files[i].status !in {FileStatus.Active, Verifying, Finalizing})
    case Paused =>
      && (exists i :: 0 <= i < |files| && files[i].status == FileStatus.Paused)
      && (forall i :: 0 <= i < |files| ==>
            files[i].status in {FileStatus.Paused, FileStatus.Completed, FileStatus.Failed, FileStatus.Cancelled})
    case Expired => false
  }

  /** The fold gives the one status that says so. */
  lemma {:induction false} DeriveStatusExactly(files: seq<FileRecord>, status: BatchStatus)
    requires files != []
    ensures DeriveStatus(files) == status <==> Says(status, files)
  {
    assert files[0] in files;
    if SomeInFlight(files) {
      var i :| 0 <= i < |files| && InFlight(files[i].status);
      assert files[i].status in {FileStatus.Active, Verifying, Finalizing};
    }
    if SomeQueued(files) {
      var i :| 0 <= i < |files| && files[i].status.Queued?;
      assert files[i].status == FileStatus.Queued;
    }
  }

  function Touched(b: Batch, now: int): Batch {
    b.(updatedAtMs := now, expiresAtMs := now + SEVEN_DAYS_MS)
  }

  function Derived(b: Batch, now: int): Batch {
    Touched(b.(status := DeriveStatus(b.files)), now)
  }

  // ----- finding -----------------------------------------------------------

  /** The index of the first batch with the id, or the length of the queue. */
  function FindBatch(q: seq<Batch>, transferId: string): (i: nat)
    ensures i <= |q|
    ensures i < |q| ==> q[i].transferId == transferId
    ensures forall j :: 0 <= j < i ==> q[j].transferId != transferId
  {
    if q == [] then 0
    else if q[0].transferId == transferId then 0
    else 1 + FindBatch(q[1..], transferId)
  }

  function FindFile(files: seq<FileRecord>, fileId: string): (i: nat)
    ensures i <= |files|
    ensures i < |files| ==> files[i].fileId == fileId
    ensures forall j :: 0 <= j < i ==> files[j].fileId != fileId
  {
    if files == [] then 0
    else if files[0].fileId == fileId then 0
    else 1 + FindFile(files[1..], fileId)
  }

  // ----- new batches -------------------------------------------------------

  datatype DraftFile = DraftFile(
    fileId: string,
    meta: FileMeta,
    size: int,
    sha256: Digest,
    sourcePath: Option<Path>,
    destinationPath: Option<Path>
  )

  /** What `enqueue` and `acceptOffer` put a new batch together from. */
  datatype Draft = Draft(
    transferId: string,
    batchId: string,
    origin: string,
    direction: Direction,
    sourceDeviceId: Option<string>,
    createdAtMs: int,
    files: seq<DraftFile>
  )

  function NewFile(d: DraftFile, now: int): FileRecord {
    FileRecord(d.fileId, d.meta, d.size, d.sha256, d.sourcePath, d.destinationPath, None, None,
               FileStatus.Queued, 0, None, Some(NewTiming(now)))
  }

  function NewBatch(d: Draft, now: int): Batch {
    Batch(d.transferId, d.batchId, d.origin, d.direction, d.sourceDeviceId, d.createdAtMs,
          now, now + SEVEN_DAYS_MS, BatchStatus.Queued,
          seq(|d.files|, i requires 0 <= i < |d.files| => NewFile(d.files[i], now)))
  }

  predicate DistinctIds(files: seq<FileRecord>) {
    forall i, j :: 0 <= i < j < |files| ==> files[i].fileId != files[j].fileId
  }

  /** `assertBatch` */
  predicate AssertBatch(b: Batch) {
    && b.files != [] && DistinctIds(b.files)
    && (forall i :: 0 <= i < |b.files| ==>
          ProgressOk(b.files[i]) && (b.files[i].timing.Some? ==> IsTiming(b.files[i].timing.value)))
  }

  /** `assertSnapshot` */
  predicate AssertSnapshot(q: seq<Batch>) {
    forall i :: 0 <= i < |q| ==> AssertBatch(q[i])
  }

  /** A file nothing has happened to yet. */
  predicate StartsOut(f: FileRecord, now: int) {
    && f.status == FileStatus.Queued && f.confirmedOffset == 0
    && f.finalizingPath == None && f.maxChunkBytes == None && f.errorCode == None
    && f.timing == Some(Timing(now, []))
  }

  /** A batch that has just been stored: queued, and to be kept for seven days. */
  predicate StartsOutBatch(b: Batch, now: int) {
    && b.status == BatchStatus.Queued && b.updatedAtMs == now && b.expiresAtMs == now + 604_800_000
    && forall i :: 0 <= i < |b.files| ==> StartsOut(b.files[i], now)
  }

  /** What becomes of the files handed to `enqueue`. */
  predicate StoredDraft(b: Batch, d: Draft, now: int) {
    && StartsOutBatch(b, now)
    && b.transferId == d.transferId && b.batchId == d.batchId && b.origin == d.origin && b.direction == d.direction
    && b.sourceDeviceId == d.sourceDeviceId && b.createdAtMs == d.createdAtMs
    && |b.files| == |d.files|
    && forall i :: 0 <= i < |d.files| ==>
         && b.files[i].fileId == d.files[i].fileId && b.files[i].meta == d.files[i].meta
         && b.files[i].size == d.files[i].size && b.files[i].sha256 == d.files[i].sha256
         && b.files[i].sourcePath == d.files[i].sourcePath && b.files[i].destinationPath == d.files[i].destinationPath
  }

  lemma {:induction false} NewBatchIsStored(d: Draft, now: int)
    ensures StoredDraft(NewBatch(d, now), d, now)
    ensures SafeInteger(now) ==>
              (AssertBatch(NewBatch(d, now)) <==>
                 && d.files != []
                 && (forall i, j :: 0 <= i < j < |d.files| ==> d.files[i].fileId != d.files[j].fileId)
                 && (forall i :: 0 <= i < |d.files| ==> 0 <= d.files[i].size && SafeInteger(d.files[i].size)))
  {
    var b := NewBatch(d, now);
    assert forall i :: 0 <= i < |d.files| ==> b.files[i] == NewFile(d.files[i], now);
    if AssertBatch(b) {
      forall i, j | 0 <= i < j < |d.files|
        ensures d.files[i].fileId != d.files[j].fileId
      {
        assert b.files[i].fileId != b.files[j].fileId;
      }
      forall i | 0 <= i < |d.files|
        ensures 0 <= d.files[i].size && SafeInteger(d.files[i].size)
      {
        assert ProgressOk(b.files[i]);
      }
    }
  }

  // ----- operations --------------------------------------------------------

  /** Pairs of paths that share an inode: the answers of `pathsShareInode`. */
  type Links = set<(Path, Path)>

  function PartialOf(f: FileRecord): Option<Path> {
    if f.destinationPath.Some? then Some(Paths.PartialPathFor(f.destinationPath.value, f.fileId)) else None
  }

  predicate LinkedIn(links: Links, f: FileRecord) {
    PartialOf(f).Some? && f.finalizingPath.Some? && (PartialOf(f).value, f.finalizingPath.value) in links
  }

  /** `Associate` is a receiver naming itself, `Adopt` the sender of a known offer; only the first touches the batch. */
  datatype Op =
    | Add(draft: Draft)
    | Associate(transferId: string, device: string)
    | Adopt(transferId: string, device: string)
    | ClaimNext
    | One(transferId: string, fileId: string, change: FileChange)
    | Whole(transferId: string, change: FileChange)
    | ExpireAll
    | RecoverAll(links: Links)

  /** The changes a caller can ask for on one file. */
  predicate ForOne(c: FileChange) {
    !c.Claim? && !c.Expire? && !c.Recover?
  }

  /** The changes a caller can ask for on a whole batch. */
  predicate ForWhole(c: FileChange) {
    c.Pause? || c.Resume? || c.Cancel? || c.Retry?
  }

  /** Progress, timing and destination only touch the batch; everything else derives its status. */
  function Afterwards(b: Batch, c: FileChange, now: int): Batch {
    if c.Confirm? || c.Mark? || c.SetDestination? then Touched(b, now) else Derived(b, now)
  }

  function ChangeOne(q: seq<Batch>, transferId: string, fileId: string, c: FileChange, now: int)
    : Result<seq<Batch>, QueueError>
  {
    var i := FindBatch(q, transferId);
    if i == |q| then Err(UnknownTransfer)
    else
      var j := FindFile(q[i].files, fileId);
      if j == |q[i].files| then Err(UnknownFile)
      else if c.Fail? && IsTerminalFile(q[i].files[j].status) then Ok(q)
      else
        var r := Changed(q[i].files[j], c, now);
        if r.Err? then Err(r.error)
        else Ok(q[i := Afterwards(q[i].(files := q[i].files[j := r.value]), c, now)])
  }

  /** One change on every file; the changes used here never fail. */
  function ChangeFiles(files: seq<FileRecord>, c: FileChange, now: int): (r: seq<FileRecord>)
    requires ForWhole(c) || c.Expire?
    ensures |r| == |files|
    ensures forall i :: 0 <= i < |files| ==> Changed(files[i], c, now) == Ok(r[i])
  {
    seq(|files|, i requires 0 <= i < |files| => Changed(files[i], c, now).value)
  }

  function ChangeWhole(q: seq<Batch>, transferId: string, c: FileChange, now: int): Result<seq<Batch>, QueueError>
    requires ForWhole(c)
  {
    var i := FindBatch(q, transferId);
    if i == |q| then Err(UnknownTransfer)
    else
      var b := q[i].(files := ChangeFiles(q[i].files, c, now));
      Ok(q[i := if c.Pause? then Touched(b.(status := BatchStatus.Paused), now) else Derived(b, now)])
  }

  // ----- claiming ----------------------------------------------------------

  predicate Busy(q: seq<Batch>) {
    exists i :: 0 <= i < |q| && SomeInFlight(q[i].files)
  }

  function FirstQueued(files: seq<FileRecord>): (j: nat)
    ensures j <= |files|
    ensures j < |files| ==> files[j].status.Queued?
    ensures forall k :: 0 <= k < j ==> !files[k].status.Queued?
  {
    if files == [] then 0
    else if files[0].status.Queued? then 0
    else 1 + FirstQueued(files[1..])
  }

  /** A batch `claimNext` does not skip, with a file it can take. */
  predicate Claimable(b: Batch) {
    !IsTerminalBatch(b.status) && !b.status.Paused? && SomeQueued(b.files)
  }

  function FirstClaimable(q: seq<Batch>): (i: nat)
    ensures i <= |q|
    ensures i < |q| ==> Claimable(q[i])
    ensures forall k :: 0 <= k < i ==> !Claimable(q[k])
  {
    if q == [] then 0
    else if Claimable(q[0]) then 0
    else 1 + FirstClaimable(q[1..])
  }

  function ClaimedBatch(b: Batch, now: int): Batch
    requires SomeQueued(b.files)
  {
    var j := FirstQueued(b.files);
    Touched(b.(files := b.files[j := b.files[j].(status := FileStatus.Active)], status := BatchStatus.Active), now)
  }

  /** What `claimNext` takes: a batch and a file index, or nothing. */
  function NextClaim(q: seq<Batch>): Option<(nat, nat)> {
    var i := FirstClaimable(q);
    if Busy(q) || i == |q| then None else Some((i, FirstQueued(q[i].files)))
  }

  function ClaimFirst(q: seq<Batch>, now: int): seq<Batch> {
    if NextClaim(q).None? then q
    else var i := NextClaim(q).value.0; q[i := ClaimedBatch(q[i], now)]
  }

  // ----- expiry and recovery -----------------------------------------------

  function ExpiredBatch(b: Batch, now: int): Batch {
    if !IsTerminalBatch(b.status) && b.expiresAtMs <= now then
      b.(status := BatchStatus.Expired, files := ChangeFiles(b.files, Expire, now), updatedAtMs := now)
    else b
  }

  function ExpireBatches(q: seq<Batch>, now: int): seq<Batch> {
    seq(|q|, i requires 0 <= i < |q| => ExpiredBatch(q[i], now))
  }

  function RecoveredFiles(files: seq<FileRecord>, links: Links): seq<FileRecord> {
    seq(|files|, i requires 0 <= i < |files| => Recovered(files[i], LinkedIn(links, files[i])))
  }

  function RecoveredBatch(b: Batch, links: Links, now: int): Batch {
    var files := RecoveredFiles(b.files, links);
    if IsTerminalBatch(b.status) || files == b.files then b else Derived(b.(files := files), now)
  }

  /** `recoverInterrupted` */
  function RecoverBatches(q: seq<Batch>, links: Links, now: int): seq<Batch> {
    seq(|q|, i requires 0 <= i < |q| => RecoveredBatch(q[i], links, now))
  }

  function Apply(q: seq<Batch>, op: Op, now: int): Result<seq<Batch>, QueueError> {
    match op
    case Add(draft) =>
      if AssertBatch(NewBatch(draft, now)) then Ok(q + [NewBatch(draft, now)]) else Err(InvalidBatch)
    case Associate(transferId, device) =>
      var i := FindBatch(q, transferId);
      if i == |q| then Err(UnknownTransfer)
      else if q[i].sourceDeviceId.Some? then Ok(q)
      else Ok(q[i := Touched(q[i].(sourceDeviceId := Some(device)), now)])
    case Adopt(transferId, device) =>
      var i := FindBatch(q, transferId);
      if i == |q| then Err(UnknownTransfer)
      else if q[i].sourceDeviceId.Some? then Ok(q)
      else Ok(q[i := q[i].(sourceDeviceId := Some(device))])
    case ClaimNext => Ok(ClaimFirst(q, now))
    case One(transferId, fileId, change) =>
      if ForOne(change) then ChangeOne(q, transferId, fileId, change, now) else Ok(q)
    case Whole(transferId, change) =>
      if ForWhole(change) then ChangeWhole(q, transferId, change, now) else Ok(q)
    case ExpireAll => Ok(ExpireBatches(q, now))
    case RecoverAll(links) => Ok(RecoverBatches(q, links, now))
  }
}
