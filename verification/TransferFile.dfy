/**
 One file of a transfer and the changes the queue makes to it
 (src/transfer/transfer-queue.ts).  Both the queue and the upload engine are
 built from these changes, so what is proved here holds in both.
 */
module TransferFile {
  import opened Wrappers

  type byte = b: int | 0 <= b < 256

  const MAX_SAFE_INTEGER := 0x1F_FFFF_FFFF_FFFF

  predicate SafeInteger(n: int) {
    -MAX_SAFE_INTEGER <= n <= MAX_SAFE_INTEGER
  }

  /** A path as its directory and its last component: what `dirname`, `basename` and `join` work on. */
  datatype Path = Path(dir: string, name: string)

  /**
   A SHA-256 digest under the usual ideal assumption that it determines the
   content: `Of(c)` is the digest of `c`.  `Placeholder` is the string of 64
   zeros an offer carries while its digest is still unknown and `Malformed`
   stands for every string that is not 64 hexadecimal digits.
   */
  datatype Digest = Placeholder | Of(content: seq<byte>) | Malformed

  datatype FileStatus =
    | Queued | Active | Verifying | Finalizing | Paused
    | Completed | Failed | Cancelled

  datatype Span = Span(startMs: int, endMs: Option<int>)

  datatype Attempt = Attempt(number: int, stages: map<string, Span>)

  datatype Timing = Timing(wallAnchorMs: int, attempts: seq<Attempt>)

  /** The part of an offered file that no transition reads or writes. */
  datatype FileMeta = FileMeta(
    filename: string,
    mime: string,
    lastModifiedMs: int,
    lastModifiedKnown: Option<bool>,
    folder: Option<string>,
    senderTiming: Option<Timing>
  )

  datatype FileRecord = FileRecord(
    fileId: string,
    meta: FileMeta,
    size: int,
    sha256: Digest,
    sourcePath: Option<Path>,
    destinationPath: Option<Path>,
    finalizingPath: Option<Path>,
    maxChunkBytes: Option<int>,
    status: FileStatus,
    confirmedOffset: int,
    errorCode: Option<string>,
    timing: Option<Timing>
  )

  datatype QueueError =
    | UnknownTransfer
    | UnknownFile
    | NotActive
    | OffsetOutOfRange
    | BadChunkLimit
    | NotCompletable
    | BytesMissing
    | HashMismatch
    | NotVerifying
    | InvalidBatch
    | EmptyBatch
    | InvalidOffer
    | MissingDestination
    | IdentityConflict

  predicate IsTerminalFile(s: FileStatus) {
    s.Completed? || s.Failed? || s.Cancelled?
  }

  /** The single-flight test of `claimNext`. */
  predicate InFlight(s: FileStatus) {
    s.Active? || s.Verifying? || s.Finalizing?
  }

  // ----- timing ------------------------------------------------------------

  function Max(a: int, b: int): int {
    if a < b then b else a
  }

  const RECEIVER_VERIFICATION := "receiver_verification"
  const PUBLISH_FINALIZATION := "publish_finalization"
  const DURABLE_COMPLETION := "durable_completion"

  /** `slice(-4)` */
  function LastFour<T>(s: seq<T>): seq<T> {
    if |s| <= 4 then s else s[|s| - 4..]
  }

  function NewTiming(now: int): Timing {
    Timing(now, [])
  }

  /** `markTiming`: opens or closes a stage of the newest attempt. */
  function MarkTiming(timing: Option<Timing>, now: int, stage: string, end: bool, elapsed: nat): Timing {
    var t := if timing.Some? then timing.value else NewTiming(now);
    var attempts := if t.attempts == [] then [Attempt(0, map[])] else t.attempts;
    var last := attempts[|attempts| - 1];
    var startMs := if stage in last.stages then last.stages[stage].startMs else elapsed;
    var endMs :=
      if end then Some(Max(startMs, elapsed))
      else if stage in last.stages then last.stages[stage].endMs
      else None;
    var marked := last.(stages := last.stages[stage := Span(startMs, endMs)]);
    t.(attempts := LastFour(attempts[|attempts| - 1 := marked]))
  }

  /** Two stages marked one after the other, as finalization and completion do. */
  function MarkTwice(timing: Option<Timing>, now: int, first: string, firstEnd: bool,
                     second: string, secondEnd: bool, elapsed: nat): Timing {
    MarkTiming(Some(MarkTiming(timing, now, first, firstEnd, elapsed)), now, second, secondEnd, elapsed)
  }

  /** The new attempt `retry` opens. */
  function RetryTiming(timing: Option<Timing>, now: int): Timing {
    var t := if timing.Some? then timing.value else NewTiming(now);
    var last := if t.attempts == [] then -1 else t.attempts[|t.attempts| - 1].number;
    t.(attempts := LastFour(t.attempts + [Attempt(last + 1, map[])]))
  }

  predicate SpanOk(s: Span) {
    s.endMs.Some? ==> s.endMs.value >= s.startMs
  }

  /** `isTiming`, the shape a persisted timing must have to be loaded again. */
  predicate IsTiming(t: Timing) {
    && SafeInteger(t.wallAnchorMs)
    && |t.attempts| <= 4
    && (forall i :: 0 <= i < |t.attempts| ==>
          SafeInteger(t.attempts[i].number)
          && forall stage :: stage in t.attempts[i].stages ==> SpanOk(t.attempts[i].stages[stage]))
  }

  // ----- changes -----------------------------------------------------------

  /**
   Every change the queue makes to one file.  `elapsed` is the reading of the
   monotonic clock relative to the file's anchor, `linked` the answer of
   `pathsShareInode` for the file's partial and its `finalizingPath`.
   */
  datatype FileChange =
    | Claim
    | Confirm(offset: int, chunk: Option<int>)
    | BeginVerification(offset: int, elapsed: nat)
    | BeginFinalization(path: Path, elapsed: nat)
    | Complete(digest: Digest, elapsed: nat)
    | Mark(stage: string, end: bool, elapsed: nat)
    | Fail(code: string)
    | Pause
    | Resume
    | Cancel
    | Retry
    | SetDestination(path: Path)
    | Expire
    | Recover(linked: bool)

  function Confirmed(f: FileRecord, offset: int, chunk: Option<int>): Result<FileRecord, QueueError> {
    if f.status != Active then Err(NotActive)
    else if !SafeInteger(offset) || offset < f.confirmedOffset || offset > f.size then Err(OffsetOutOfRange)
    else if chunk.Some? && (!SafeInteger(chunk.value) || chunk.value <= 0) then Err(BadChunkLimit)
    else Ok(f.(confirmedOffset := offset,
               maxChunkBytes := if chunk.Some? then chunk else f.maxChunkBytes))
  }

  function VerificationBegun(f: FileRecord, now: int, offset: int, elapsed: nat): Result<FileRecord, QueueError> {
    if f.status != Active then Err(NotActive)
    else if offset != f.size || offset < f.confirmedOffset then Err(OffsetOutOfRange)
    else Ok(f.(confirmedOffset := offset, status := Verifying,
               timing := Some(MarkTiming(f.timing, now, RECEIVER_VERIFICATION, false, elapsed))))
  }

  function FinalizationBegun(f: FileRecord, now: int, path: Path, elapsed: nat): Result<FileRecord, QueueError> {
    if f.status != Verifying && f.status != Finalizing then Err(NotVerifying)
    else
      Ok(f.(status := Finalizing, finalizingPath := Some(path),
            timing := Some(MarkTwice(f.timing, now, RECEIVER_VERIFICATION, true, PUBLISH_FINALIZATION, false, elapsed))))
  }

  function CompletedWith(f: FileRecord, now: int, digest: Digest, elapsed: nat): Result<FileRecord, QueueError> {
    if !InFlight(f.status) then Err(NotCompletable)
    else if f.confirmedOffset != f.size then Err(BytesMissing)
    else if f.sha256 == Placeholder && (digest == Placeholder || digest == Malformed) then Err(HashMismatch)
    else if f.sha256 != Placeholder && digest != f.sha256 then Err(HashMismatch)
    else
      Ok(f.(sha256 := digest,
            destinationPath := if f.finalizingPath.Some? then f.finalizingPath else f.destinationPath,
            finalizingPath := None,
            status := Completed,
            errorCode := None,
            timing := Some(MarkTwice(f.timing, now, PUBLISH_FINALIZATION, true, DURABLE_COMPLETION, true, elapsed))))
  }

  /** `recoverInterrupted` on one file of a batch that is not terminal. */
  function Recovered(f: FileRecord, linked: bool): FileRecord {
    if f.status == Finalizing then
      if f.destinationPath.Some? && f.finalizingPath.Some? && linked then
        f.(destinationPath := f.finalizingPath, finalizingPath := None, errorCode := None, status := Completed)
      else
        f.(finalizingPath := None, status := Failed, errorCode := Some("finalization_interrupted"))
    else if f.status == Verifying || (f.status == Active && f.size > 0 && f.confirmedOffset == f.size) then
      f.(status := Failed, errorCode := Some("verification_interrupted"))
    else if f.status == Active then
      f.(status := Queued)
    else
      f
  }

  function Changed(f: FileRecord, c: FileChange, now: int): Result<FileRecord, QueueError> {
    match c
    case Claim => Ok(f.(status := Active))
    case Confirm(offset, chunk) => Confirmed(f, offset, chunk)
    case BeginVerification(offset, elapsed) => VerificationBegun(f, now, offset, elapsed)
    case BeginFinalization(path, elapsed) => FinalizationBegun(f, now, path, elapsed)
    case Complete(digest, elapsed) => CompletedWith(f, now, digest, elapsed)
    case Mark(stage, end, elapsed) => Ok(f.(timing := Some(MarkTiming(f.timing, now, stage, end, elapsed))))
    case Fail(code) =>
      Ok(if IsTerminalFile(f.status) then f
         else f.(status := Failed, errorCode := Some(code), finalizingPath := None))
    case Pause => Ok(if f.status == Queued || f.status == Active then f.(status := Paused) else f)
    case Resume => Ok(if f.status == Paused then f.(status := Queued) else f)
    case Cancel => Ok(if IsTerminalFile(f.status) then f else f.(status := Cancelled, errorCode := None))
    case Retry =>
      Ok(if f.status == Failed || f.status == Cancelled then
           f.(status := Queued, confirmedOffset := 0, timing := Some(RetryTiming(f.timing, now)),
              errorCode := None, finalizingPath := None)
         else f)
    case SetDestination(path) => Ok(f.(destinationPath := Some(path)))
    case Expire =>
      Ok(if IsTerminalFile(f.status) then f else f.(status := Failed, errorCode := Some("transfer_expired")))
    case Recover(linked) => Ok(Recovered(f, linked))
  }

  // ----- what every change keeps -------------------------------------------

  /** What `assertBatch` demands of one file's numbers. */
  predicate ProgressOk(f: FileRecord) {
    && SafeInteger(f.size) && 0 <= f.size
    && SafeInteger(f.confirmedOffset) && 0 <= f.confirmedOffset <= f.size
    && (f.maxChunkBytes.Some? ==> SafeInteger(f.maxChunkBytes.value) && f.maxChunkBytes.value > 0)
  }

  /** Every attempt is numbered in `0..n`, and stages end after they start. */
  predicate TimingWithin(t: Timing, n: nat) {
    && SafeInteger(t.wallAnchorMs)
    && |t.attempts| <= 4
    && (forall i :: 0 <= i < |t.attempts| ==>
          0 <= t.attempts[i].number <= n
          && forall stage :: stage in t.attempts[i].stages ==> SpanOk(t.attempts[i].stages[stage]))
  }

  /**
   The invariant of a file record after at most `n` retries: progress inside
   the file, every byte confirmed once verification starts, a finalizing file
   names the path it is being published to, and a loadable timing.
   */
  predicate FileOk(f: FileRecord, n: nat) {
    && ProgressOk(f)
    && (f.status.Verifying? || f.status.Finalizing? || f.status.Completed? ==> f.confirmedOffset == f.size)
    && (f.status.Finalizing? ==> f.finalizingPath.Some?)
    && (f.timing.Some? ==> TimingWithin(f.timing.value, n))
  }

  lemma {:induction false} MarkTimingKeeps(timing: Option<Timing>, now: int, stage: string, end: bool, elapsed: nat, n: nat)
    requires SafeInteger(now)
    requires timing.Some? ==> TimingWithin(timing.value, n)
    ensures TimingWithin(MarkTiming(timing, now, stage, end, elapsed), n)
  {
    var t := if timing.Some? then timing.value else NewTiming(now);
    var attempts := if t.attempts == [] then [Attempt(0, map[])] else t.attempts;
    var r := MarkTiming(timing, now, stage, end, elapsed);
    assert |r.attempts| == |attempts|;
    forall i | 0 <= i < |r.attempts|
      ensures 0 <= r.attempts[i].number <= n
      ensures forall s :: s in r.attempts[i].stages ==> SpanOk(r.attempts[i].stages[s])
    {
      assert r.attempts[i].number == attempts[i].number;
    }
  }

  /** The attempt that stages are marked in: the newest, or a first one. */
  function Newest(timing: Option<Timing>): Attempt {
    if timing.None? || timing.value.attempts == [] then Attempt(0, map[])
    else timing.value.attempts[|timing.value.attempts| - 1]
  }

  /**
   A stage opened and closed again spans the time between, no matter what is
   marked twice: the first opening counts, and no other stage moves.
   */
  lemma StagesMeasureElapsedTime(timing: Option<Timing>, now: int, stage: string, first: nat, again: nat, closed: nat)
    requires stage !in Newest(timing).stages && first <= again <= closed
    requires timing.Some? ==> |timing.value.attempts| <= 4
    ensures var once := MarkTiming(timing, now, stage, false, first);
            var twice := MarkTiming(Some(once), now, stage, false, again);
            var ended := MarkTiming(Some(twice), now, stage, true, closed);
            && Newest(Some(ended)).number == Newest(timing).number
            && Newest(Some(ended)).stages == Newest(timing).stages[stage := Span(first, Some(closed))]
            && |ended.attempts| == Max(1, if timing.Some? then |timing.value.attempts| else 0)
  {
    var once := MarkTiming(timing, now, stage, false, first);
    MarkedIsNewest(timing, now, stage, false, first);
    var twice := MarkTiming(Some(once), now, stage, false, again);
    MarkedIsNewest(Some(once), now, stage, false, again);
    MarkedIsNewest(Some(twice), now, stage, true, closed);
    assert Newest(timing).stages[stage := Span(first, None)][stage := Span(first, Some(closed))]
        == Newest(timing).stages[stage := Span(first, Some(closed))];
  }

  lemma MarkedIsNewest(timing: Option<Timing>, now: int, stage: string, end: bool, elapsed: nat)
    requires timing.Some? ==> |timing.value.attempts| <= 4
    ensures var last, marked := Newest(timing), Newest(Some(MarkTiming(timing, now, stage, end, elapsed)));
            var start := if stage in last.stages then last.stages[stage].startMs else elapsed;
            var stop := if end then Some(Max(start, elapsed))
                        else if stage in last.stages then last.stages[stage].endMs else None;
            marked == last.(stages := last.stages[stage := Span(start, stop)])
    ensures |MarkTiming(timing, now, stage, end, elapsed).attempts|
            == Max(1, if timing.Some? then |timing.value.attempts| else 0)
  {
  }

  /** Attempts are numbered one after the other. */
  predicate Consecutive(t: Timing) {
    forall i :: 0 <= i < |t.attempts| - 1 ==> t.attempts[i + 1].number == t.attempts[i].number + 1
  }

  /** A retry opens the next attempt and keeps at most the three before it. */
  lemma RetryOpensTheNextAttempt(timing: Option<Timing>, now: int)
    requires timing.Some? ==> Consecutive(timing.value) && |timing.value.attempts| <= 4
    ensures var t := RetryTiming(timing, now);
            && Consecutive(t) && 1 <= |t.attempts| <= 4
            && Newest(Some(t)).stages == map[]
            && (timing.Some? && timing.value.attempts != [] ==>
                  && Newest(Some(t)).number == Newest(timing).number + 1
                  && |t.attempts| >= 2 && t.attempts[|t.attempts| - 2] == Newest(timing))
  {
  }

  lemma RetryTimingKeeps(timing: Option<Timing>, now: int, n: nat)
    requires SafeInteger(now)
    requires timing.Some? ==> TimingWithin(timing.value, n)
    ensures TimingWithin(RetryTiming(timing, now), n + 1)
  {
  }

  /** Claiming needs a queued file; the queue claims no other. */
  predicate Applicable(f: FileRecord, c: FileChange) {
    c.Claim? ==> f.status == Queued
  }

  lemma ChangeKeepsProgress(f: FileRecord, c: FileChange, now: int, n: nat)
    requires FileOk(f, n) && Applicable(f, c)
    ensures Changed(f, c, now).Ok? ==>
              var g := Changed(f, c, now).value;
              && ProgressOk(g)
              && (g.status.Verifying? || g.status.Finalizing? || g.status.Completed? ==> g.confirmedOffset == g.size)
              && (g.status.Finalizing? ==> g.finalizingPath.Some?)
  {
  }

  /** The timing a change leaves behind. */
  function NextTiming(f: FileRecord, c: FileChange, now: int): Option<Timing> {
    match c
    case BeginVerification(_, elapsed) =>
      Some(MarkTiming(f.timing, now, RECEIVER_VERIFICATION, false, elapsed))
    case BeginFinalization(_, elapsed) =>
      Some(MarkTwice(f.timing, now, RECEIVER_VERIFICATION, true, PUBLISH_FINALIZATION, false, elapsed))
    case Complete(_, elapsed) =>
      Some(MarkTwice(f.timing, now, PUBLISH_FINALIZATION, true, DURABLE_COMPLETION, true, elapsed))
    case Mark(stage, end, elapsed) => Some(MarkTiming(f.timing, now, stage, end, elapsed))
    case Retry =>
      if f.status.Failed? || f.status.Cancelled? then Some(RetryTiming(f.timing, now)) else f.timing
    case _ => f.timing
  }

  lemma NextTimingWithin(f: FileRecord, c: FileChange, now: int, n: nat)
    requires f.timing.Some? ==> TimingWithin(f.timing.value, n)
    requires SafeInteger(now)
    ensures NextTiming(f, c, now).Some? ==> TimingWithin(NextTiming(f, c, now).value, n + 1)
  {
    if c.BeginVerification? {
      MarkTimingKeeps(f.timing, now, RECEIVER_VERIFICATION, false, c.elapsed, n);
    } else if c.BeginFinalization? {
      MarkTwiceKeeps(f.timing, now, RECEIVER_VERIFICATION, true, PUBLISH_FINALIZATION, false, c.elapsed, n);
    } else if c.Complete? {
      MarkTwiceKeeps(f.timing, now, PUBLISH_FINALIZATION, true, DURABLE_COMPLETION, true, c.elapsed, n);
    } else if c.Mark? {
      MarkTimingKeeps(f.timing, now, c.stage, c.end, c.elapsed, n);
    } else if c.Retry? {
      RetryTimingKeeps(f.timing, now, n);
    }
  }

  lemma MarkTwiceKeeps(timing: Option<Timing>, now: int, first: string, firstEnd: bool,
                       second: string, secondEnd: bool, elapsed: nat, n: nat)
    requires SafeInteger(now)
    requires timing.Some? ==> TimingWithin(timing.value, n)
    ensures TimingWithin(MarkTwice(timing, now, first, firstEnd, second, secondEnd, elapsed), n)
  {
    MarkTimingKeeps(timing, now, first, firstEnd, elapsed, n);
    MarkTimingKeeps(Some(MarkTiming(timing, now, first, firstEnd, elapsed)), now, second, secondEnd, elapsed, n);
  }

  lemma {:induction false} ChangeKeepsFileOk(f: FileRecord, c: FileChange, now: int, n: nat)
    requires FileOk(f, n) && SafeInteger(now) && Applicable(f, c)
    ensures Changed(f, c, now).Ok? ==> FileOk(Changed(f, c, now).value, n + 1)
  {
    ChangeKeepsProgress(f, c, now, n);
    NextTimingWithin(f, c, now, n);
  }

  /**
   What one change may do to a file, stated without looking at which change it
   is: `completed` is absorbing, `failed` and `cancelled` are left only by a
   fresh attempt, progress only grows within an attempt, a known digest never
   changes, and identity, size and source never do.
   */
  predicate LawfulStep(f: FileRecord, g: FileRecord) {
    && g.fileId == f.fileId && g.size == f.size && g.meta == f.meta && g.sourcePath == f.sourcePath
    && (f.status.Completed? ==>
          g.status.Completed? && g.confirmedOffset == f.confirmedOffset && g.sha256 == f.sha256)
    && (f.status.Failed? || f.status.Cancelled? ==>
          (g.status == f.status && g.confirmedOffset == f.confirmedOffset) || FreshAttempt(f, g))
    && (g.confirmedOffset < f.confirmedOffset ==> FreshAttempt(f, g))
    && (f.sha256 != Placeholder ==> g.sha256 == f.sha256)
    && (f.sha256 != g.sha256 ==> g.status.Completed? && g.sha256 != Placeholder)
  }

  predicate FreshAttempt(f: FileRecord, g: FileRecord) {
    && (f.status.Failed? || f.status.Cancelled?)
    && g.status.Queued? && g.confirmedOffset == 0 && g.finalizingPath.None?
  }

  lemma {:induction false} ChangeIsLawful(f: FileRecord, c: FileChange, now: int)
    requires Applicable(f, c)
    ensures Changed(f, c, now).Ok? ==> LawfulStep(f, Changed(f, c, now).value)
  {
  }

  /** Two recoveries do no more than one: after the first there is nothing left to repair. */
  lemma {:induction false} RecoveryIsIdempotent(f: FileRecord, linked: bool, linkedAgain: bool)
    ensures !InFlight(Recovered(f, linked).status)
    ensures Recovered(Recovered(f, linked), linkedAgain) == Recovered(f, linked)
  {
  }

  // ----- what the controls come to -------------------------------------------

  function After(f: FileRecord, c: FileChange, now: int): FileRecord {
    if Changed(f, c, now).Ok? then Changed(f, c, now).value else f
  }

  /** Neither completed, failed nor cancelled. */
  predicate Unfinished(f: FileRecord) {
    f.status != Completed && f.status != Failed && f.status != Cancelled
  }

  /**
   A file that waits or is being sent can be paused, and resuming puts it back
   in the queue with its progress; nothing else about it changes, and no file
   in any other state is affected by either.
   */
  lemma PausedFilesGoOn(f: FileRecord, now: int, later: int)
    ensures After(f, Pause, now).status == (if f.status in {Queued, Active} then Paused else f.status)
    ensures After(f, Pause, now) == f.(status := After(f, Pause, now).status)
    ensures After(f, Resume, now) == (if f.status == Paused then f.(status := Queued) else f)
    ensures f.status in {Queued, Active, Paused} ==>
              After(After(f, Pause, now), Resume, later) == f.(status := Queued)
    ensures f.status == Paused ==> After(After(f, Resume, now), Pause, later) == f
  {
  }

  /**
   Cancelling, failing and expiring each end an unfinished file in their own way
   and leave a finished one alone; a retry takes every file that did not
   complete back to the same start, and no other anywhere.
   */
  lemma StoppedFilesStartOver(f: FileRecord, code: string, now: int, later: int)
    ensures After(f, Cancel, now) == if Unfinished(f) then f.(status := Cancelled, errorCode := None) else f
    ensures After(f, Fail(code), now)
            == if Unfinished(f) then f.(status := Failed, errorCode := Some(code), finalizingPath := None) else f
    ensures After(f, Expire, now) == if Unfinished(f) then f.(status := Failed, errorCode := Some("transfer_expired")) else f
    ensures var start := f.(status := Queued, confirmedOffset := 0, errorCode := None, finalizingPath := None,
                            timing := Some(RetryTiming(f.timing, later)));
            && (Unfinished(f) ==> After(After(f, Cancel, now), Retry, later) == start
                                  && After(After(f, Fail(code), now), Retry, later) == start
                                  && After(After(f, Expire, now), Retry, later) == start
                                  && After(f, Retry, later) == f)
            && (f.status in {Failed, Cancelled} ==> After(f, Retry, later) == start)
            && (f.status == Completed ==> After(f, Retry, later) == f)
  {
  }

  /** When the steps of an upload are allowed at all, and what they leave. */
  lemma UploadStepsExactly(f: FileRecord, offset: int, chunk: Option<int>, path: Path, digest: Digest, elapsed: nat, now: int)
    requires ProgressOk(f)
    ensures Changed(f, Confirm(offset, chunk), now).Ok? <==>
            && f.status == Active && f.confirmedOffset <= offset <= f.size
            && (chunk.Some? ==> 0 < chunk.value <= 9_007_199_254_740_991)
    ensures Changed(f, BeginVerification(offset, elapsed), now).Ok? <==> f.status == Active && offset == f.size
    ensures Changed(f, BeginFinalization(path, elapsed), now).Ok? <==> f.status in {Verifying, Finalizing}
    ensures Changed(f, Complete(digest, elapsed), now).Ok? <==>
            && f.status in {Active, Verifying, Finalizing} && f.confirmedOffset == f.size
            && (if f.sha256 == Placeholder then digest.Of? else digest == f.sha256)
    ensures var g := After(f, Confirm(offset, chunk), now);
            g != f ==> g == f.(confirmedOffset := offset, maxChunkBytes := if chunk.Some? then chunk else f.maxChunkBytes)
    ensures var g := After(f, Complete(digest, elapsed), now);
            Changed(f, Complete(digest, elapsed), now).Ok? ==>
              g == f.(status := Completed, sha256 := digest, errorCode := None, finalizingPath := None, timing := g.timing,
                      destinationPath := if f.finalizingPath != None then f.finalizingPath else f.destinationPath)
  {
  }

  /** What the remaining changes leave of a file: each just its own field, and the timing where a stage is marked. */
  lemma OtherChangesExactly(f: FileRecord, path: Path, stage: string, end: bool, elapsed: nat, now: int)
    requires ProgressOk(f)
    ensures After(f, Claim, now) == f.(status := Active)
    ensures After(f, SetDestination(path), now) == f.(destinationPath := Some(path))
    ensures var g := After(f, Mark(stage, end, elapsed), now); g == f.(timing := g.timing)
    ensures var g := After(f, BeginVerification(f.size, elapsed), now);
            f.status == Active ==> g == f.(status := Verifying, confirmedOffset := f.size, timing := g.timing)
    ensures var g := After(f, BeginFinalization(path, elapsed), now);
            f.status in {Verifying, Finalizing} ==> g == f.(status := Finalizing, finalizingPath := Some(path), timing := g.timing)
  {
  }

  /** A timing whose newest attempt holds just these stages. */
  predicate Holds(timing: Option<Timing>, stages: map<string, Span>) {
    timing.Some? && |timing.value.attempts| <= 4 && Newest(timing).stages == stages
  }

  lemma VerificationIsTimed(timing: Option<Timing>, now: int, begun: nat)
    requires Newest(timing).stages == map[] && (timing.Some? ==> |timing.value.attempts| <= 4)
    ensures Holds(Some(MarkTiming(timing, now, RECEIVER_VERIFICATION, false, begun)),
                  map["receiver_verification" := Span(begun, None)])
  {
    MarkedIsNewest(timing, now, RECEIVER_VERIFICATION, false, begun);
  }

  lemma NamingIsTimed(timing: Option<Timing>, now: int, begun: nat, named: nat)
    requires Holds(timing, map["receiver_verification" := Span(begun, None)]) && begun <= named
    ensures Holds(Some(MarkTwice(timing, now, RECEIVER_VERIFICATION, true, PUBLISH_FINALIZATION, false, named)),
                  map["receiver_verification" := Span(begun, Some(named)), "publish_finalization" := Span(named, None)])
  {
    MarkedIsNewest(timing, now, RECEIVER_VERIFICATION, true, named);
    MarkedIsNewest(Some(MarkTiming(timing, now, RECEIVER_VERIFICATION, true, named)), now, PUBLISH_FINALIZATION, false, named);
  }

  lemma CompletionIsTimed(timing: Option<Timing>, now: int, begun: nat, named: nat, completed: nat)
    requires Holds(timing, map["receiver_verification" := Span(begun, Some(named)), "publish_finalization" := Span(named, None)])
    requires named <= completed
    ensures Holds(Some(MarkTwice(timing, now, PUBLISH_FINALIZATION, true, DURABLE_COMPLETION, true, completed)),
                  map["receiver_verification" := Span(begun, Some(named)), "publish_finalization" := Span(named, Some(completed)),
                      "durable_completion" := Span(completed, Some(completed))])
  {
    MarkedIsNewest(timing, now, PUBLISH_FINALIZATION, true, completed);
    MarkedIsNewest(Some(MarkTiming(timing, now, PUBLISH_FINALIZATION, true, completed)), now, DURABLE_COMPLETION, true, completed);
  }

  /**
   The clock of an upload: verification is timed from its beginning to the first
   name announced, publishing from there to completion, which has its own mark.
   */
  lemma UploadIsTimed(f: FileRecord, path: Path, digest: Digest, begun: nat, named: nat, completed: nat, now: int)
    requires ProgressOk(f) && f.status == Active && begun <= named <= completed
    requires Newest(f.timing).stages == map[] && (f.timing.Some? ==> |f.timing.value.attempts| <= 4)
    requires digest.Of? && (f.sha256 == digest || f.sha256 == Placeholder)
    ensures var verifying := After(f, BeginVerification(f.size, begun), now);
            var finalizing := After(verifying, BeginFinalization(path, named), now);
            var done := After(finalizing, Complete(digest, completed), now);
            && verifying.status == Verifying && finalizing.status == Finalizing && done.status == Completed
            && finalizing.finalizingPath == Some(path) == done.destinationPath
            && Newest(done.timing).stages == map["receiver_verification" := Span(begun, Some(named)),
                                                 "publish_finalization" := Span(named, Some(completed)),
                                                 "durable_completion" := Span(completed, Some(completed))]
  {
    VerificationIsTimed(f.timing, now, begun);
    var verifying := After(f, BeginVerification(f.size, begun), now);
    NamingIsTimed(verifying.timing, now, begun, named);
    var finalizing := After(verifying, BeginFinalization(path, named), now);
    CompletionIsTimed(finalizing.timing, now, begun, named, completed);
  }
}
