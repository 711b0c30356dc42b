/**
 The coordinator on top of the queue (class `TransferCoordinator` in
 src/transfer/transfer-coordinator.ts): what each control message does to the
 queue, in which order, and what it publishes.

 Every call on the queue is recorded in the ghost history of module QueueRuns,
 so all that is proved there of runs holds of the queue behind a coordinator.
 A handler is taken to run on its own here; that nothing depends on it is what
 QueueRuns shows, whose steps may be anybody's.
 */
module Coordinator {
  import opened Wrappers
  import opened TransferFile
  import opened QueueModel
  import opened QueueRuns
  import opened QueueScheduling
  import opened QueueRecovery
  import opened Offers
  import Download
  import Q = TransferQueue

  datatype Message =
    | Offered(offer: Offer)
    | Accept(transferId: string, fileId: string, confirmedOffset: int, maxChunkBytes: Option<nat>)
    | FileComplete(transferId: string, fileId: string, digest: Digest)
    | FileFailed(transferId: string, fileId: string, code: string)

  datatype Outcome = New | Existing | Rejected

  /** What `checkpointAnd` finds for a file: a session ahead of its checkpoint, or one whose partial cannot be synced. */
  datatype Checkpoint = Behind(accepted: int) | Broken

  datatype Control =
    | OfferControl(offer: Offer)
    | AcceptControl(transferId: string, fileId: string, confirmedOffset: int, maxChunkBytes: Option<int>)
    | ProgressControl(transferId: string, fileId: string, confirmedOffset: int)
    | CompleteControl(transferId: string, fileId: string, digest: Digest)
    | FailedControl(transferId: string, fileId: string, code: string)
    | HoldControl(transferId: string, only: Option<string>, hold: FileChange)
    | ResumeControl(transferId: string, only: Option<string>)

  /** `transfer_pause` and `transfer_cancel` */
  predicate IsHold(c: FileChange) {
    c.Pause? || c.Cancel?
  }

  /** What a handler meets: free space, checkpoints by file id, and the clocks. */
  datatype Meeting = Meeting(availableBytes: int, checkpoints: map<string, Checkpoint>, now: int, monotonicNow: int)

  datatype Handled = Threw | OfferRejected | Done

  // ----- storage -------------------------------------------------------------

  /** Bytes a file may still write: the rest of it, or all of it once a cancelled one is retried. */
  function StillToWrite(f: FileRecord): int {
    if f.status.Cancelled? then f.size
    else if IsTerminalFile(f.status) then 0
    else Max(0, f.size - f.confirmedOffset)
  }

  function BytesToWrite(files: seq<FileRecord>): int {
    if files == [] then 0 else BytesToWrite(files[..|files| - 1]) + StillToWrite(files[|files| - 1])
  }

  /** The bytes a file may still write fall with every one confirmed; a file that completed or failed writes none. */
  lemma {:induction false} WhatIsStillToWrite(f: FileRecord, offset: int, chunk: Option<int>, now: int)
    requires ProgressOk(f)
    ensures StillToWrite(f) >= 0
    ensures f.status in {FileStatus.Completed, FileStatus.Failed} ==> StillToWrite(f) == 0
    ensures Changed(f, Confirm(offset, chunk), now).Ok? ==>
              StillToWrite(Changed(f, Confirm(offset, chunk), now).value) == StillToWrite(f) - (offset - f.confirmedOffset)
    ensures Unfinished(f) ==> StillToWrite(f) + f.confirmedOffset == f.size
    ensures f.status == FileStatus.Cancelled ==> StillToWrite(f) == f.size
  {
  }

  /** The same bytes once cancelled files have been put back in the queue. */
  lemma {:induction false} RetryingWritesNoMore(files: seq<FileRecord>, after: seq<FileRecord>, now: int)
    requires |after| == |files|
    requires forall j :: 0 <= j < |files| ==> ProgressOk(files[j])
    requires forall j :: 0 <= j < |files| ==>
               after[j] == if files[j].status.Cancelled? then Changed(files[j], Retry, now).value else files[j]
    ensures BytesToWrite(after) == BytesToWrite(files)
  {
    var n := |files|;
    if n > 0 {
      RetryingWritesNoMore(files[..n - 1], after[..n - 1], now);
    }
  }

  /** The bytes of two lots of files are those of the one and those of the other. */
  lemma {:induction false} BytesAddUp(files: seq<FileRecord>, others: seq<FileRecord>)
    ensures BytesToWrite(files + others) == BytesToWrite(files) + BytesToWrite(others)
    ensures |files| == 1 ==> BytesToWrite(files) == StillToWrite(files[0])
    ensures files == [] ==> BytesToWrite(files) == 0
  {
    if |files| == 1 {
      assert files[..0] == [];
    }
    if others == [] {
      assert files + others == files;
    } else {
      var n := |others| - 1;
      BytesAddUp(files, others[..n]);
      assert (files + others)[..|files| + n] == files + others[..n];
    }
  }

  function OfferBytes(files: seq<FileObject>): int {
    if files == [] then 0 else OfferBytes(files[..|files| - 1]) + Read(files[|files| - 1]).size
  }

  /** A batch just made of an offer has all of the offer's bytes to write. */
  lemma {:induction false} NewFilesWriteEverything(files: seq<FileRecord>, objects: seq<FileObject>)
    requires |files| == |objects|
    requires forall j :: 0 <= j < |files| ==>
               files[j].status.Queued? && files[j].confirmedOffset == 0 && files[j].size == Read(objects[j]).size >= 0
    ensures BytesToWrite(files) == OfferBytes(objects)
  {
    var n := |files|;
    if n > 0 {
      NewFilesWriteEverything(files[..n - 1], objects[..n - 1]);
    }
  }

  lemma {:induction false} KnownOfferAdoptsAtMost(q: seq<Batch>, o: Offer, destinations: map<string, Path>, device: Option<string>, less: Order)
    requires FindBatch(q, o.transferId) < |q| && Accepting(q, o, destinations, device, less).Ok?
    ensures var op := Accepting(q, o, destinations, device, less).value;
            op.None? || (op.value.Adopt? && op.value.transferId == o.transferId)
  {
  }

  lemma {:induction false} AdoptingMovesNothing(q: seq<Batch>, transferId: string, device: string, now: int)
    requires FindBatch(q, transferId) < |q|
    ensures var r := Apply(q, Adopt(transferId, device), now);
            var i := FindBatch(q, transferId);
            r.Ok? && SameIds(q, r.value) && r.value[i].files == q[i].files && OthersStay(q, r.value, i)
  {
  }

  /** Accepting a known offer moves no batch and touches no file. */
  lemma {:induction false} KnownOfferMovesNothing(q: seq<Batch>, op: Option<Op>, r: seq<Batch>, transferId: string, now: int)
    requires FindBatch(q, transferId) < |q|
    requires op.None? ==> r == q
    requires op.Some? ==> op.value.Adopt? && op.value.transferId == transferId && Apply(q, op.value, now) == Ok(r)
    ensures var i := FindBatch(q, transferId);
            SameIds(q, r) && FindBatch(r, transferId) == i && r[i].files == q[i].files && OthersStay(q, r, i)
  {
    if op.Some? {
      AdoptingMovesNothing(q, transferId, op.value.device, now);
    }
    SameIdsSameFind(q, r, transferId);
  }

  /** The active files of a batch, in order. */
  function ActiveOf(files: seq<FileRecord>): seq<string> {
    if files == [] then []
    else
      var last := files[|files| - 1];
      ActiveOf(files[..|files| - 1]) + if last.status.Active? then [last.fileId] else []
  }

  function ActiveIn(q: seq<Batch>, transferId: string): seq<string> {
    var i := FindBatch(q, transferId);
    if i < |q| then ActiveOf(q[i].files) else []
  }

  /** A cancelled file the phone offers again starts over. */
  function Revived(f: FileRecord, now: int): FileRecord {
    if f.status.Cancelled? then Changed(f, FileChange.Retry, now).value else f
  }

  // ----- holding a transfer ------------------------------------------------------

  /** The operation at the end of a history did not throw. */
  predicate Took(h: History) {
    h.Then? && Apply(Now(h.before), h.op, h.now).Ok?
  }

  /** Every operation from `h` to `more` took effect. */
  predicate AllTook(h: History, more: History) {
    more == h || (Took(more) && AllTook(h, more.before))
  }

  /** `checkpointAnd` before it acts: a session ahead of its checkpoint is confirmed. */
  function Checkpointed(h: History, transferId: string, id: string, checkpoints: map<string, Checkpoint>, now: int): History {
    if id in checkpoints && checkpoints[id].Behind?
    then Then(h, One(transferId, id, Confirm(checkpoints[id].accepted, None)), now)
    else h
  }

  function Held(h: History, transferId: string, id: string, hold: FileChange, checkpoints: map<string, Checkpoint>, now: int)
    : History
  {
    Then(Checkpointed(h, transferId, id, checkpoints, now), One(transferId, id, hold), now)
  }

  /** One file after the other, each checkpointed and then held. */
  function AllHeld(h: History, transferId: string, ids: seq<string>, hold: FileChange, checkpoints: map<string, Checkpoint>, now: int)
    : History
    decreases |ids|
  {
    if ids == [] then h
    else
      var n := |ids| - 1;
      Held(AllHeld(h, transferId, ids[..n], hold, checkpoints, now), transferId, ids[n], hold, checkpoints, now)
  }

  /** Holding one file stopped at `more`: its partial could not be synced, or the queue threw. */
  predicate Stopped(h: History, more: History, transferId: string, id: string, hold: FileChange,
                    checkpoints: map<string, Checkpoint>, now: int)
  {
    || (more == h && id in checkpoints && checkpoints[id].Broken?)
    || (more == Checkpointed(h, transferId, id, checkpoints, now) && more.Then? && !Took(more))
    || (more == Held(h, transferId, id, hold, checkpoints, now) && !Took(more))
  }

  // ----- one file of one batch -------------------------------------------------

  predicate SameIds(q: seq<Batch>, r: seq<Batch>) {
    |r| == |q| && forall k :: 0 <= k < |q| ==> r[k].transferId == q[k].transferId
  }

  /** Every batch but the one at `i` is as it was. */
  predicate OthersStay(q: seq<Batch>, r: seq<Batch>, i: nat) {
    |r| == |q| && forall k :: 0 <= k < |q| && k != i ==> r[k] == q[k]
  }

  lemma {:induction false} SameIdsSameFind(q: seq<Batch>, r: seq<Batch>, transferId: string)
    requires SameIds(q, r)
    ensures FindBatch(r, transferId) == FindBatch(q, transferId)
  {
  }

  lemma {:induction false} FoundWhereItIs(files: seq<FileRecord>, j: nat)
    requires DistinctIds(files) && j < |files|
    ensures FindFile(files, files[j].fileId) == j
  {
  }

  lemma {:induction false} PutInPlace(q: seq<Batch>, transferId: string, b: Batch)
    requires FindBatch(q, transferId) < |q| && b.transferId == transferId
    ensures var i := FindBatch(q, transferId);
            SameIds(q, q[i := b]) && FindBatch(q[i := b], transferId) == i && q[i := b][i] == b
  {
    SameIdsSameFind(q, q[FindBatch(q, transferId) := b], transferId);
  }

  /** A change asked for by file id lands on the file meant, and only there. */
  lemma {:induction false} LandsOn(q: seq<Batch>, transferId: string, j: nat, c: FileChange, now: int, g: FileRecord)
    requires FindBatch(q, transferId) < |q| && ForOne(c)
    requires var b := q[FindBatch(q, transferId)]; DistinctIds(b.files) && j < |b.files| && Changed(b.files[j], c, now) == Ok(g)
    ensures var i := FindBatch(q, transferId);
            var r := ChangeOne(q, transferId, q[i].files[j].fileId, c, now);
            && r.Ok? && SameIds(q, r.value) && FindBatch(r.value, transferId) == i
            && r.value[i].files == q[i].files[j := g] && OthersStay(q, r.value, i)
  {
    var i := FindBatch(q, transferId);
    var files := q[i].files;
    FoundWhereItIs(files, j);
    if c.Fail? && IsTerminalFile(files[j].status) {
      assert files[j := g] == files;
    } else {
      PutInPlace(q, transferId, Afterwards(q[i].(files := files[j := g]), c, now));
    }
  }

  /** What the phone is told of a file of an offer that does not fit. */
  function Notice(transferId: string, f: FileRecord): seq<Message> {
    if f.status.Completed? then [FileComplete(transferId, f.fileId, f.sha256)]
    else if f.status.Failed? then
      [FileFailed(transferId, f.fileId, if f.errorCode.Some? then f.errorCode.value else "transfer_failed")]
    else if f.status.Cancelled? then []
    else [FileFailed(transferId, f.fileId, "insufficient_storage")]
  }

  function Notices(transferId: string, files: seq<FileRecord>): seq<Message> {
    if files == [] then [] else Notices(transferId, files[..|files| - 1]) + Notice(transferId, files[|files| - 1])
  }

  lemma {:induction false} OneMoreEnded(before: seq<FileRecord>, after: seq<FileRecord>, files: seq<FileRecord>, j: nat)
    requires |before| == |after| == |files| && j < |files|
    requires AllTerminal(before[..j]) && before[j..] == files[j..]
    requires after == before[j := after[j]] && IsTerminalFile(after[j].status)
    ensures AllTerminal(after[..j + 1]) && after[j + 1..] == files[j + 1..]
  {
    assert after[j + 1..] == before[j..][1..];
  }

  lemma {:induction false} NoticeIs(transferId: string, f: FileRecord, m: Message)
    ensures m in Notice(transferId, f) <==> NoticeOf(transferId, f, m, "insufficient_storage")
  {
  }

  /** Some file of these has that said of it. */
  predicate SomeNotice(transferId: string, files: seq<FileRecord>, m: Message) {
    exists j :: 0 <= j < |files| && NoticeOf(transferId, files[j], m, "insufficient_storage")
  }

  lemma {:induction false} SomeNoticeNext(transferId: string, files: seq<FileRecord>, m: Message)
    requires files != []
    ensures var n := |files| - 1;
            SomeNotice(transferId, files, m) <==>
            SomeNotice(transferId, files[..n], m) || NoticeOf(transferId, files[n], m, "insufficient_storage")
  {
    var n := |files| - 1;
    if SomeNotice(transferId, files[..n], m) {
      var j :| 0 <= j < n && NoticeOf(transferId, files[..n][j], m, "insufficient_storage");
      assert files[j] == files[..n][j];
    }
    if j :| 0 <= j < n && NoticeOf(transferId, files[j], m, "insufficient_storage") {
      assert files[..n][j] == files[j];
    }
  }

  /** Everything that is said of the files of an offer that does not fit, in terms of the files alone. */
  lemma {:induction false} NoticesAre(transferId: string, files: seq<FileRecord>, m: Message)
    ensures m in Notices(transferId, files) <==>
            exists j :: 0 <= j < |files| && NoticeOf(transferId, files[j], m, "insufficient_storage")
  {
    assert SomeNotice(transferId, files, m) <==>
           exists j :: 0 <= j < |files| && NoticeOf(transferId, files[j], m, "insufficient_storage");
    if files != [] {
      NoticesAre(transferId, files[..|files| - 1], m);
      NoticeIs(transferId, files[|files| - 1], m);
      SomeNoticeNext(transferId, files, m);
    }
  }

  /** A completed file is reported with its digest, a failed one with its code, a cancelled one not at all, any other with `code`. */
  predicate NoticeOf(transferId: string, f: FileRecord, m: Message, code: string) {
    match f.status
    case Completed => m == FileComplete(transferId, f.fileId, f.sha256)
    case Failed => m == FileFailed(transferId, f.fileId, if f.errorCode.Some? then f.errorCode.value else "transfer_failed")
    case Cancelled => false
    case _ => m == FileFailed(transferId, f.fileId, code)
  }

  /** And of the files of one offered again: finished ones as above, active ones with the offset reached, no other. */
  lemma {:induction false} ProgressIs(transferId: string, files: seq<FileRecord>, includeActive: bool, live: map<string, int>,
                                      chunk: Option<nat>, m: Message)
    ensures m in ProgressNotices(transferId, files, includeActive, live, chunk) <==>
            exists j :: 0 <= j < |files| && ProgressOf(transferId, files[j], includeActive, live, chunk, m)
  {
    if files != [] {
      var n := |files| - 1;
      ProgressIs(transferId, files[..n], includeActive, live, chunk, m);
      if m in ProgressNotices(transferId, files[..n], includeActive, live, chunk) {
        var j :| 0 <= j < n && ProgressOf(transferId, files[..n][j], includeActive, live, chunk, m);
        assert files[j] == files[..n][j];
      } else if m in ProgressNotices(transferId, files, includeActive, live, chunk) {
        assert ProgressOf(transferId, files[n], includeActive, live, chunk, m);
      }
      if j :| 0 <= j < |files| && ProgressOf(transferId, files[j], includeActive, live, chunk, m) {
        if j < n {
          assert files[..n][j] == files[j];
        }
      }
    }
  }

  predicate ProgressOf(transferId: string, f: FileRecord, includeActive: bool, live: map<string, int>, chunk: Option<nat>, m: Message) {
    match f.status
    case Completed => m == FileComplete(transferId, f.fileId, f.sha256)
    case Failed => m == FileFailed(transferId, f.fileId, if f.errorCode.Some? then f.errorCode.value else "transfer_failed")
    case Active =>
      && includeActive && (f.confirmedOffset < f.size || f.size == 0)
      && m == Accept(transferId, f.fileId, if f.fileId in live then live[f.fileId] else f.confirmedOffset, chunk)
    case _ => false
  }

  /** How far a file of a known offer has come, as `republishPhoneProgress` says it. */
  function ProgressNotice(transferId: string, f: FileRecord, includeActive: bool, live: map<string, int>, chunk: Option<nat>)
    : seq<Message>
  {
    if f.status.Completed? || f.status.Failed? then Notice(transferId, f)
    else if includeActive && f.status.Active? && (f.size == 0 || f.confirmedOffset < f.size) then
      [Accept(transferId, f.fileId, if f.fileId in live then live[f.fileId] else f.confirmedOffset, chunk)]
    else []
  }

  function ProgressNotices(transferId: string, files: seq<FileRecord>, includeActive: bool, live: map<string, int>, chunk: Option<nat>)
    : seq<Message>
  {
    if files == [] then []
    else
      ProgressNotices(transferId, files[..|files| - 1], includeActive, live, chunk)
      + ProgressNotice(transferId, files[|files| - 1], includeActive, live, chunk)
  }

  /** What the phone hears of a transfer it has offered again. */
  function Progress(q: seq<Batch>, transferId: string, includeActive: bool, live: map<string, int>, chunk: Option<nat>): seq<Message> {
    var i := FindBatch(q, transferId);
    if i < |q| && q[i].direction.PhoneToLaptop? then ProgressNotices(transferId, q[i].files, includeActive, live, chunk) else []
  }

  /** What the phone hears of the file claimed next: an accept for one it sends, an offer for one it receives. */
  function Announcement(q: seq<Batch>, now: int, chunk: Option<nat>): seq<Message> {
    if NextClaim(q).None? then []
    else
      var (i, j) := NextClaim(q).value;
      var b := ClaimFirst(q, now)[i];
      [if b.direction.PhoneToLaptop? then Accept(b.transferId, b.files[j].fileId, b.files[j].confirmedOffset, chunk)
       else Offered(OfferOf(b))]
  }

  function CheckpointFailures(transferId: string, ids: seq<string>): seq<Message> {
    seq(|ids|, k requires 0 <= k < |ids| => FileFailed(transferId, ids[k], "checkpoint_failed"))
  }

  lemma {:induction false} OneMoreFailure(transferId: string, ids: seq<string>, k: nat)
    requires k < |ids|
    ensures CheckpointFailures(transferId, ids[..k + 1])
            == CheckpointFailures(transferId, ids[..k]) + [FileFailed(transferId, ids[k], "checkpoint_failed")]
  {
  }

  /** What an unfinished file of an offer that does not fit becomes; the others stay. */
  predicate EndedFor(f: FileRecord, g: FileRecord, code: string) {
    if f.status in {FileStatus.Completed, FileStatus.Failed, FileStatus.Cancelled} then g == f
    else g == f.(status := FileStatus.Failed, errorCode := Some(code), finalizingPath := None)
  }

  /** `said` is `first` and then what is to be told of the first `j` files. */
  predicate Told(first: seq<Message>, said: seq<Message>, transferId: string, files: seq<FileRecord>, j: nat) {
    j <= |files| && said == first + Notices(transferId, files[..j])
  }

  lemma {:induction false} ToldNext(first: seq<Message>, said: seq<Message>, transferId: string, files: seq<FileRecord>, j: nat)
    requires Told(first, said, transferId, files, j) && j < |files|
    ensures Told(first, said + Notice(transferId, files[j]), transferId, files, j + 1)
  {
    assert files[..j + 1][..j] == files[..j];
    assert first + Notices(transferId, files[..j]) + Notice(transferId, files[j])
        == first + (Notices(transferId, files[..j]) + Notice(transferId, files[j]));
  }

  lemma {:induction false} ToldNothing(first: seq<Message>, transferId: string, files: seq<FileRecord>)
    ensures Told(first, first, transferId, files, 0)
  {
  }

  lemma {:induction false} ContinuesTransitive(h: History, more: History, most: History)
    requires Continues(h, more) && Continues(more, most)
    ensures Continues(h, most)
    decreases most
  {
    if most != more {
      ContinuesTransitive(h, more, most.before);
    }
  }

  lemma {:induction false} AllTookTransitive(h: History, more: History, most: History)
    requires AllTook(h, more) && AllTook(more, most)
    ensures AllTook(h, most)
    decreases most
  {
    if most != more {
      AllTookTransitive(h, more, most.before);
    }
  }

  // ----- what holding a transfer comes to ----------------------------------------

  /** The files of a transfer, wherever its batch is; none when there is no such batch. */
  function FilesOf(h: History, transferId: string): seq<FileRecord> {
    var i := FindBatch(Now(h), transferId);
    if i < |Now(h)| then Now(h)[i].files else []
  }

  /** The same files in the same places, whatever became of them. */
  predicate SameFiles(before: seq<FileRecord>, after: seq<FileRecord>) {
    |after| == |before| && forall j :: 0 <= j < |before| ==> after[j].fileId == before[j].fileId
  }

  /** One change has reached the file named and no other. */
  predicate Reached(before: seq<FileRecord>, after: seq<FileRecord>, id: string, c: FileChange, now: int) {
    && SameFiles(before, after)
    && forall j :: 0 <= j < |before| ==>
         if before[j].fileId == id then Changed(before[j], c, now) == Ok(after[j]) else after[j] == before[j]
  }

  lemma {:induction false} ChangeOneKeepsIds(q: seq<Batch>, transferId: string, id: string, c: FileChange, now: int)
    requires ChangeOne(q, transferId, id, c, now).Ok?
    ensures SameIds(q, ChangeOne(q, transferId, id, c, now).value)
  {
  }

  lemma {:induction false} ChangeOneReaches(q: seq<Batch>, transferId: string, id: string, c: FileChange, now: int)
    requires ChangeOne(q, transferId, id, c, now).Ok? && (c.Confirm? || c.Fail? || IsHold(c))
    requires DistinctIds(q[FindBatch(q, transferId)].files)
    ensures var r, i := ChangeOne(q, transferId, id, c, now).value, FindBatch(q, transferId);
            FindBatch(r, transferId) == i < |q| == |r| && Reached(q[i].files, r[i].files, id, c, now)
  {
    var r := ChangeOne(q, transferId, id, c, now).value;
    ChangeOneIsLocal(q, transferId, id, c, now);
    ChangeOneKeepsIds(q, transferId, id, c, now);
    SameIdsSameFind(q, r, transferId);
  }

  lemma {:induction false} OneReachesOne(h: History, transferId: string, id: string, c: FileChange)
    requires Took(h) && h.op == One(transferId, id, c) && (c.Confirm? || c.Fail? || IsHold(c))
    requires DistinctIds(FilesOf(h.before, transferId))
    ensures Reached(FilesOf(h.before, transferId), FilesOf(h, transferId), id, c, h.now)
  {
    ChangeOneReaches(Now(h.before), transferId, id, c, h.now);
  }

  /** The checkpoint a file starts out with, if there is one to confirm. */
  predicate Ahead(checkpoints: map<string, Checkpoint>, id: string) {
    id in checkpoints && checkpoints[id].Behind?
  }

  /** What holding does to one file: it keeps what was confirmed or accepted, and it is not active. */
  predicate HeldFile(f: FileRecord, g: FileRecord, checkpoints: map<string, Checkpoint>) {
    && !g.status.Active?
    && g.confirmedOffset == if Ahead(checkpoints, f.fileId) then checkpoints[f.fileId].accepted else f.confirmedOffset
  }

  /** The files named have been held and no other has been touched. */
  predicate TheseHeld(before: seq<FileRecord>, after: seq<FileRecord>, ids: seq<string>, checkpoints: map<string, Checkpoint>) {
    && SameFiles(before, after)
    && forall j :: 0 <= j < |before| ==>
         if before[j].fileId in ids then HeldFile(before[j], after[j], checkpoints) else after[j] == before[j]
  }

  lemma {:induction false} ConfirmedThenHeld(before: seq<FileRecord>, between: seq<FileRecord>, after: seq<FileRecord>, id: string,
                                             hold: FileChange, checkpoints: map<string, Checkpoint>, now: int)
    requires IsHold(hold) && Reached(between, after, id, hold, now)
    requires if Ahead(checkpoints, id) then Reached(before, between, id, Confirm(checkpoints[id].accepted, None), now)
             else between == before
    ensures TheseHeld(before, after, [id], checkpoints)
  {
  }

  lemma {:induction false} OneMoreHeld(before: seq<FileRecord>, between: seq<FileRecord>, after: seq<FileRecord>, ids: seq<string>,
                                       id: string, checkpoints: map<string, Checkpoint>)
    requires TheseHeld(before, between, ids, checkpoints) && TheseHeld(between, after, [id], checkpoints)
    ensures TheseHeld(before, after, ids + [id], checkpoints)
  {
  }

  predicate HeldTook(h: History, transferId: string, id: string, hold: FileChange, checkpoints: map<string, Checkpoint>, now: int) {
    && Took(Held(h, transferId, id, hold, checkpoints, now))
    && (Ahead(checkpoints, id) ==> Took(Checkpointed(h, transferId, id, checkpoints, now)))
  }

  lemma {:induction false} SameFilesSameIds(before: seq<FileRecord>, after: seq<FileRecord>)
    requires SameFiles(before, after) && DistinctIds(before)
    ensures DistinctIds(after)
  {
  }

  lemma {:induction false} HoldingOneFile(h: History, transferId: string, id: string, hold: FileChange,
                                          checkpoints: map<string, Checkpoint>, now: int)
    requires HeldTook(h, transferId, id, hold, checkpoints, now) && IsHold(hold)
    requires DistinctIds(FilesOf(h, transferId))
    ensures TheseHeld(FilesOf(h, transferId), FilesOf(Held(h, transferId, id, hold, checkpoints, now), transferId), [id], checkpoints)
  {
    var confirmed := Checkpointed(h, transferId, id, checkpoints, now);
    var held := Then(confirmed, One(transferId, id, hold), now);
    if Ahead(checkpoints, id) {
      OneReachesOne(confirmed, transferId, id, Confirm(checkpoints[id].accepted, None));
      SameFilesSameIds(FilesOf(h, transferId), FilesOf(confirmed, transferId));
    }
    OneReachesOne(held, transferId, id, hold);
    ConfirmedThenHeld(FilesOf(h, transferId), FilesOf(confirmed, transferId), FilesOf(held, transferId), id, hold, checkpoints, now);
  }

  lemma {:induction false} HoldingGrows(h: History, transferId: string, ids: seq<string>, hold: FileChange,
                                        checkpoints: map<string, Checkpoint>, now: int)
    ensures Length(AllHeld(h, transferId, ids, hold, checkpoints, now)) >= Length(h) + |ids|
    decreases |ids|
  {
    if ids != [] {
      HoldingGrows(h, transferId, ids[..|ids| - 1], hold, checkpoints, now);
    }
  }

  lemma {:induction false} HeldTookBefore(h: History, most: History, transferId: string, id: string, hold: FileChange,
                                          checkpoints: map<string, Checkpoint>, now: int)
    requires AllTook(h, Held(most, transferId, id, hold, checkpoints, now)) && Length(most) >= Length(h)
    ensures AllTook(h, most) && HeldTook(most, transferId, id, hold, checkpoints, now)
  {
    assert Length(Held(most, transferId, id, hold, checkpoints, now)) > Length(h);
  }

  lemma {:induction false} HoldingAll(h: History, transferId: string, ids: seq<string>, hold: FileChange,
                                      checkpoints: map<string, Checkpoint>, now: int)
    requires AllTook(h, AllHeld(h, transferId, ids, hold, checkpoints, now)) && IsHold(hold)
    requires DistinctIds(FilesOf(h, transferId))
    ensures TheseHeld(FilesOf(h, transferId), FilesOf(AllHeld(h, transferId, ids, hold, checkpoints, now), transferId), ids, checkpoints)
    decreases |ids|
  {
    if ids != [] {
      var n := |ids| - 1;
      var most := AllHeld(h, transferId, ids[..n], hold, checkpoints, now);
      var all := Held(most, transferId, ids[n], hold, checkpoints, now);
      HoldingGrows(h, transferId, ids[..n], hold, checkpoints, now);
      HeldTookBefore(h, most, transferId, ids[n], hold, checkpoints, now);
      HoldingAll(h, transferId, ids[..n], hold, checkpoints, now);
      SameFilesSameIds(FilesOf(h, transferId), FilesOf(most, transferId));
      HoldingOneFile(most, transferId, ids[n], hold, checkpoints, now);
      OneMoreHeld(FilesOf(h, transferId), FilesOf(most, transferId), FilesOf(all, transferId), ids[..n], ids[n], checkpoints);
      assert ids == ids[..n] + [ids[n]];
    }
  }

  lemma {:induction false} ActiveOfIs(files: seq<FileRecord>)
    ensures forall j :: 0 <= j < |files| && files[j].status.Active? ==> files[j].fileId in ActiveOf(files)
    ensures forall id :: id in ActiveOf(files) ==>
              exists j :: 0 <= j < |files| && files[j].fileId == id && files[j].status.Active?
  {
    if files != [] {
      var n := |files| - 1;
      ActiveOfIs(files[..n]);
      assert files == files[..n] + [files[n]];
      forall id | id in ActiveOf(files)
        ensures exists j :: 0 <= j < |files| && files[j].fileId == id && files[j].status.Active?
      {
        if id in ActiveOf(files[..n]) {
          var j :| 0 <= j < n && files[..n][j].fileId == id && files[..n][j].status.Active?;
          assert files[j].fileId == id;
        } else {
          assert files[n].fileId == id && files[n].status.Active?;
        }
      }
    }
  }

  lemma {:induction false} WholeReachesAll(h: History, transferId: string, hold: FileChange)
    requires Took(h) && h.op == Whole(transferId, hold) && IsHold(hold)
    ensures var before, after := FilesOf(h.before, transferId), FilesOf(h, transferId);
            |after| == |before| && forall j :: 0 <= j < |before| ==> Changed(before[j], hold, h.now) == Ok(after[j])
  {
    var q := Now(h.before);
    var i := FindBatch(q, transferId);
    var files := ChangeFiles(q[i].files, hold, h.now);
    var b := q[i].(files := files);
    PutInPlace(q, transferId, if hold.Pause? then Touched(b.(status := BatchStatus.Paused), h.now) else Derived(b, h.now));
  }

  /** What `HoldingKeepsWhatWasAccepted` says of one file. */
  predicate Kept(f: FileRecord, g: FileRecord, checkpoints: map<string, Checkpoint>) {
    && g.fileId == f.fileId && !g.status.Active?
    && g.confirmedOffset == if f.status.Active? && Ahead(checkpoints, f.fileId) then checkpoints[f.fileId].accepted
                            else f.confirmedOffset
  }

  lemma {:induction false} HeldThenWhole(files: seq<FileRecord>, between: seq<FileRecord>, after: seq<FileRecord>, hold: FileChange,
                                         checkpoints: map<string, Checkpoint>, now: int)
    requires DistinctIds(files) && TheseHeld(files, between, ActiveOf(files), checkpoints) && IsHold(hold)
    requires |after| == |between| && forall j :: 0 <= j < |between| ==> Changed(between[j], hold, now) == Ok(after[j])
    ensures |after| == |files| && forall j :: 0 <= j < |files| ==> Kept(files[j], after[j], checkpoints)
  {
    ActiveOfIs(files);
    forall j | 0 <= j < |files|
      ensures Kept(files[j], after[j], checkpoints)
    {
      assert Changed(between[j], hold, now) == Ok(after[j]);
    }
  }

  /**
   Pausing or cancelling a whole transfer loses nothing that was accepted: of
   the files that were active each ends with its checkpoint's offset confirmed,
   every other offset stays, and none is active any more.
   */
  lemma {:induction false} HoldingKeepsWhatWasAccepted(h: History, transferId: string, hold: FileChange,
                                                       checkpoints: map<string, Checkpoint>, now: int)
    requires ClockOk(h) && IsHold(hold)
    requires AllTook(h, Then(AllHeld(h, transferId, ActiveIn(Now(h), transferId), hold, checkpoints, now), Whole(transferId, hold), now))
    ensures var most := AllHeld(h, transferId, ActiveIn(Now(h), transferId), hold, checkpoints, now);
            var files, after := FilesOf(h, transferId), FilesOf(Then(most, Whole(transferId, hold), now), transferId);
            |after| == |files| && forall j :: 0 <= j < |files| ==> Kept(files[j], after[j], checkpoints)
  {
    var files, ids := FilesOf(h, transferId), ActiveIn(Now(h), transferId);
    var most := AllHeld(h, transferId, ids, hold, checkpoints, now);
    var all := Then(most, Whole(transferId, hold), now);
    assert DistinctIds(files) by {
      RunsKeepQueueOk(h);
    }
    HoldingGrows(h, transferId, ids, hold, checkpoints, now);
    assert Length(all) > Length(h);
    HoldingAll(h, transferId, ids, hold, checkpoints, now);
    WholeReachesAll(all, transferId, hold);
    HeldThenWhole(files, FilesOf(most, transferId), FilesOf(all, transferId), hold, checkpoints, now);
  }

  /** Pausing or cancelling as asked, with nothing refused on the way. */
  predicate HoldsAll(before: History, acted: History, transferId: string, only: Option<string>, hold: FileChange, m: Meeting) {
    && AllTook(before, acted)
    && acted == if only.Some? then Held(before, transferId, only.value, hold, m.checkpoints, m.now)
                else Then(AllHeld(before, transferId, ActiveIn(Now(before), transferId), hold, m.checkpoints, m.now),
                          Whole(transferId, hold), m.now)
  }

  /** One file after the other reported as failed. */
  function AllFailed(h: History, transferId: string, ids: seq<string>, now: int): History
    decreases |ids|
  {
    if ids == [] then h
    else
      var n := |ids| - 1;
      Then(AllFailed(h, transferId, ids[..n], now), One(transferId, ids[n], FileChange.Fail("checkpoint_failed")), now)
  }

  /** The files named have been failed, as far as they were unfinished, and no other has been touched. */
  predicate TheseFailed(before: seq<FileRecord>, after: seq<FileRecord>, ids: seq<string>) {
    && SameFiles(before, after)
    && forall j :: 0 <= j < |before| ==>
         if before[j].fileId in ids then EndedFor(before[j], after[j], "checkpoint_failed") else after[j] == before[j]
  }

  lemma {:induction false} OneMoreFailed(before: seq<FileRecord>, between: seq<FileRecord>, after: seq<FileRecord>, ids: seq<string>,
                                         id: string, now: int)
    requires TheseFailed(before, between, ids) && Reached(between, after, id, FileChange.Fail("checkpoint_failed"), now)
    ensures TheseFailed(before, after, ids + [id])
  {
  }

  lemma {:induction false} FailedTookBefore(h: History, transferId: string, ids: seq<string>, now: int)
    requires AllTook(h, AllFailed(h, transferId, ids, now)) && ids != []
    ensures AllTook(h, AllFailed(h, transferId, ids[..|ids| - 1], now)) && Took(AllFailed(h, transferId, ids, now))
  {
    FailingGrows(h, transferId, ids, now);
  }

  lemma {:induction false} LastIsFailed(h: History, most: History, transferId: string, ids: seq<string>, id: string, now: int)
    requires Took(Then(most, One(transferId, id, FileChange.Fail("checkpoint_failed")), now))
    requires DistinctIds(FilesOf(h, transferId)) && TheseFailed(FilesOf(h, transferId), FilesOf(most, transferId), ids)
    ensures TheseFailed(FilesOf(h, transferId),
                        FilesOf(Then(most, One(transferId, id, FileChange.Fail("checkpoint_failed")), now), transferId), ids + [id])
  {
    var all := Then(most, One(transferId, id, FileChange.Fail("checkpoint_failed")), now);
    SameFilesSameIds(FilesOf(h, transferId), FilesOf(most, transferId));
    OneReachesOne(all, transferId, id, FileChange.Fail("checkpoint_failed"));
    OneMoreFailed(FilesOf(h, transferId), FilesOf(most, transferId), FilesOf(all, transferId), ids, id, now);
  }

  /** So a hold that is given up leaves none of the files it was about unfinished. */
  lemma {:induction false} GivingUpFailsThem(h: History, transferId: string, ids: seq<string>, now: int)
    requires AllTook(h, AllFailed(h, transferId, ids, now)) && DistinctIds(FilesOf(h, transferId))
    ensures TheseFailed(FilesOf(h, transferId), FilesOf(AllFailed(h, transferId, ids, now), transferId), ids)
    decreases |ids|
  {
    if ids != [] {
      var n := |ids| - 1;
      FailedTookBefore(h, transferId, ids, now);
      GivingUpFailsThem(h, transferId, ids[..n], now);
      LastIsFailed(h, AllFailed(h, transferId, ids[..n], now), transferId, ids[..n], ids[n], now);
      assert ids == ids[..n] + [ids[n]];
    }
  }

  lemma {:induction false} FailingGrows(h: History, transferId: string, ids: seq<string>, now: int)
    ensures Length(AllFailed(h, transferId, ids, now)) == Length(h) + |ids|
    decreases |ids|
  {
    if ids != [] {
      FailingGrows(h, transferId, ids[..|ids| - 1], now);
    }
  }

  /** `failProgressControl`, from wherever the hold was given up. */
  ghost predicate FailsInstead(before: History, acted: History, transferId: string, only: Option<string>, now: int) {
    exists stopped ::
      && Continues(before, stopped)
      && acted == AllFailed(stopped, transferId, if only.Some? then [only.value] else ActiveIn(Now(stopped), transferId), now)
  }

  /** The chunk size the laptop goes along with. */
  function LocalMaximum(settings: Settings): nat {
    if settings.maxChunkBytes.Some? then settings.maxChunkBytes.value else 262_144
  }

  /**
   When a receiver's offset is taken: for a file of a transfer to the phone,
   within what is confirmed and the file's end, and, when there is something to
   confirm, for an active file and a chunk size that is any at all.
   */
  predicate MayAccept(q: seq<Batch>, transferId: string, fileId: string, offset: int, chunk: Option<int>, localMaximum: nat) {
    var i := FindBatch(q, transferId);
    && i < |q| && q[i].direction == LaptopToPhone
    && var j := FindFile(q[i].files, fileId);
       && j < |q[i].files|
       && q[i].files[j].confirmedOffset <= offset <= q[i].files[j].size
       && (offset > q[i].files[j].confirmedOffset || chunk.Some? ==> q[i].files[j].status == FileStatus.Active)
       && (chunk.Some? ==> localMaximum > 0)
  }

  /** And what it does then: that file has the offset and the chunk size agreed on, every other is as it was. */
  predicate OffsetTaken(q: seq<Batch>, r: seq<Batch>, transferId: string, fileId: string, offset: int, chunk: Option<int>,
                        localMaximum: nat)
  {
    var i := FindBatch(q, transferId);
    && i < |q| && OthersStay(q, r, i) && |r[i].files| == |q[i].files|
    && var j := FindFile(q[i].files, fileId);
       && j < |q[i].files|
       && (forall k :: 0 <= k < |q[i].files| && k != j ==> r[i].files[k] == q[i].files[k])
       && r[i].files[j] == q[i].files[j].(
            confirmedOffset := offset,
            maxChunkBytes := if chunk.Some? then Some(Download.NegotiateChunkBytes(chunk, localMaximum))
                             else q[i].files[j].maxChunkBytes)
       && Download.ReceiverAccepted(q[i].files[j], offset, chunk, localMaximum) == Ok(r[i].files[j])
  }

  /** A confirmation that is due goes through exactly when the offset may be taken, and then takes it. */
  lemma {:induction false} OffsetLands(q: seq<Batch>, transferId: string, fileId: string, offset: int, chunk: Option<int>,
                                       localMaximum: nat, now: int)
    requires FindBatch(q, transferId) < |q| && q[FindBatch(q, transferId)].direction == LaptopToPhone
    requires var files := q[FindBatch(q, transferId)].files;
             && FindFile(files, fileId) < |files|
             && var f := files[FindFile(files, fileId)];
                && ProgressOk(f) && f.confirmedOffset <= offset <= f.size && (offset > f.confirmedOffset || chunk.Some?)
    ensures var negotiated := if chunk.None? then None else Some(Download.NegotiateChunkBytes(chunk, localMaximum));
            var r := ChangeOne(q, transferId, fileId, Confirm(offset, negotiated), now);
            && (r.Ok? <==> MayAccept(q, transferId, fileId, offset, chunk, localMaximum))
            && (r.Ok? ==> OffsetTaken(q, r.value, transferId, fileId, offset, chunk, localMaximum))
  {
    var i := FindBatch(q, transferId);
    var f := q[i].files[FindFile(q[i].files, fileId)];
    var negotiated := if chunk.None? then None else Some(Download.NegotiateChunkBytes(chunk, localMaximum));
    assert Download.ReceiverAccepted(f, offset, chunk, localMaximum) == Confirmed(f, offset, negotiated);
  }

  /** With nothing to confirm nothing changes, and that is right. */
  lemma {:induction false} NothingDue(q: seq<Batch>, transferId: string, fileId: string, offset: int, localMaximum: nat)
    requires FindBatch(q, transferId) < |q| && q[FindBatch(q, transferId)].direction == LaptopToPhone
    requires var files := q[FindBatch(q, transferId)].files;
             && FindFile(files, fileId) < |files|
             && var f := files[FindFile(files, fileId)]; f.confirmedOffset == offset <= f.size
    ensures MayAccept(q, transferId, fileId, offset, None, localMaximum)
    ensures OffsetTaken(q, q, transferId, fileId, offset, None, localMaximum)
  {
  }

  /** `transfer_accept`: the sender of it is taken down, then its offset is taken or not. */
  predicate AcceptTaken(before: History, acted: History, transferId: string, fileId: string, offset: int, chunk: Option<int>,
                        device: string, localMaximum: nat, now: int, ok: bool)
  {
    var named := Then(before, Associate(transferId, device), now);
    && (ok <==> MayAccept(Now(named), transferId, fileId, offset, chunk, localMaximum))
    && if ok then OffsetTaken(Now(named), Now(acted), transferId, fileId, offset, chunk, localMaximum)
       else Now(acted) == Now(named)
  }

  /** The one change of one file, which throws or takes effect. */
  predicate Asks(before: History, acted: History, transferId: string, id: string, c: FileChange, now: int, handled: Handled) {
    acted == Then(before, One(transferId, id, c), now) && handled == if Took(acted) then Done else Threw
  }

  ghost predicate Takes(settings: Settings, before: History, acted: History, o: Offer, device: string, m: Meeting,
                        outcome: Result<Outcome, QueueError>)
  {
    OfferTaken(Now(before), Now(acted), o, device, m.availableBytes, settings, m.now, outcome)
  }

  /**
   What a message does to the queue before the next file is claimed.  A hold
   that could not be carried out fails files instead (`failProgressControl`).
   */
  ghost predicate Effect(settings: Settings, before: History, anchors: map<Q.Key, int>, message: Control, device: string, m: Meeting,
                         acted: History, handled: Handled)
  {
    match message
    case OfferControl(offer) =>
      && Continues(before, acted)
      && (handled.Threw? ==> Takes(settings, before, acted, offer, device, m, Err(InvalidOffer)))
      && (handled.OfferRejected? ==> Takes(settings, before, acted, offer, device, m, Ok(Rejected)))
      && (handled.Done? ==> Takes(settings, before, acted, offer, device, m, Ok(New))
                            || Takes(settings, before, acted, offer, device, m, Ok(Existing)))
    case AcceptControl(transferId, fileId, offset, chunk) =>
      && Continues(Then(before, Associate(transferId, device), m.now), acted)
      && handled != OfferRejected
      && AcceptTaken(before, acted, transferId, fileId, offset, chunk, device, LocalMaximum(settings), m.now, handled.Done?)
    case ProgressControl(transferId, fileId, offset) => Asks(before, acted, transferId, fileId, Confirm(offset, None), m.now, handled)
    case CompleteControl(transferId, fileId, digest) =>
      Asks(before, acted, transferId, fileId,
           Complete(digest, Q.Elapsed(anchors, (transferId, fileId), m.monotonicNow)), m.now, handled)
    case FailedControl(transferId, fileId, code) => Asks(before, acted, transferId, fileId, FileChange.Fail(code), m.now, handled)
    case HoldControl(transferId, only, hold) =>
      && Continues(before, acted)
      && (handled.Done? ==> HoldsAll(before, acted, transferId, only, hold, m)
                            || FailsInstead(before, acted, transferId, only, m.now))
    case ResumeControl(transferId, only) =>
      && handled == (if Took(acted) then Done else Threw)
      && acted == Then(before, if only.Some? then One(transferId, only.value, FileChange.Resume)
                               else Whole(transferId, FileChange.Resume), m.now)
  }

  // ----- what an offer comes to ---------------------------------------------------

  predicate Received(w: FileObject, destinations: map<string, Path>, directory: string) {
    Read(w).fileId in destinations && destinations[Read(w).fileId] == Path(directory, Read(w).meta.filename)
  }

  /** A new offer is stored, each file to be received under its own name in the directory. */
  predicate StoredUnder(b: Batch, o: Offer, directory: string, device: string, now: int) {
    && StartsOutBatch(b, now)
    && b.transferId == o.transferId && b.batchId == o.batchId && b.origin == o.origin && b.direction == o.direction
    && b.createdAtMs == o.createdAtMs && b.sourceDeviceId == Some(device)
    && |b.files| == |o.files|
    && forall i :: 0 <= i < |o.files| ==>
         var f, w := b.files[i], Read(o.files[i]);
         && f.fileId == w.fileId && f.meta == w.meta && f.size == w.size && f.sha256 == w.sha256
         && f.sourcePath == None && f.destinationPath == Some(Path(directory, w.meta.filename))
  }

  lemma {:induction false} StoredUnderDirectory(b: Batch, o: Offer, destinations: map<string, Path>, directory: string, device: string, now: int)
    requires StoredOffer(b, o, destinations, Some(device), now)
    requires forall i :: 0 <= i < |o.files| ==> Received(o.files[i], destinations, directory)
    ensures StoredUnder(b, o, directory, device, now)
  {
    forall i | 0 <= i < |o.files|
      ensures b.files[i].destinationPath == Some(Path(directory, Read(o.files[i]).meta.filename))
    {
      assert StoredFile(b.files[i], Read(o.files[i]), destinations) && Received(o.files[i], destinations, directory);
    }
  }

  /** No file is too large and there is room for all of them. */
  predicate Fits(o: Offer, maxFileBytes: int, availableBytes: int) {
    && (forall j :: 0 <= j < |o.files| ==> Read(o.files[j]).size <= maxFileBytes)
    && OfferBytes(o.files) <= availableBytes
  }

  /** What the phone is told of a new offer that does not: of the first file that is too large, or of every file. */
  predicate ToldOff(said: seq<Message>, o: Offer, maxFileBytes: int) {
    if exists j :: 0 <= j < |o.files| && Read(o.files[j]).size > maxFileBytes then
      exists j :: 0 <= j < |o.files| && Read(o.files[j]).size > maxFileBytes
        && (forall k :: 0 <= k < j ==> Read(o.files[k]).size <= maxFileBytes)
        && said == [FileFailed(o.transferId, Read(o.files[j]).fileId, "file_too_large")]
    else
      |said| == |o.files| && forall k :: 0 <= k < |o.files| ==>
        said[k] == FileFailed(o.transferId, Read(o.files[k]).fileId, "insufficient_storage")
  }

  /** What a coordinator is set up with. */
  datatype Settings = Settings(directory: string, maxFileBytes: int, maxChunkBytes: Option<nat>, less: Order)

  /**
   The outcome of an offer and what it made of the queue.  The four outcomes
   exclude each other, so each comes about exactly under its condition.
   */
  ghost predicate OfferTaken(q: seq<Batch>, r: seq<Batch>, o: Offer, device: string, availableBytes: int, settings: Settings,
                             now: int, outcome: Result<Outcome, QueueError>)
  {
    var i := FindBatch(q, o.transferId);
    var known := i < |q|;
    var sound := IsTransferOffer(o) && o.direction == PhoneToLaptop && (known && TotalOrder(settings.less) ==> Agrees(q[i], o));
    match outcome
    case Err(_) => r == q && (TotalOrder(settings.less) ==> !sound)
    case Ok(New) =>
      && sound && !known && Fits(o, settings.maxFileBytes, availableBytes)
      && |r| == |q| + 1 && q <= r && StoredUnder(r[|q|], o, settings.directory, device, now)
    case Ok(Existing) =>
      && sound && known && BytesToWrite(q[i].files) <= availableBytes
      && OthersStay(q, r, i) && |r[i].files| == |q[i].files|
      && forall k :: 0 <= k < |q[i].files| ==> r[i].files[k] == Revived(q[i].files[k], now)
    case Ok(Rejected) =>
      && sound
      && if known then
           && BytesToWrite(q[i].files) > availableBytes
           && OthersStay(q, r, i) && |r[i].files| == |q[i].files|
           && forall k :: 0 <= k < |q[i].files| ==> EndedFor(q[i].files[k], r[i].files[k], "insufficient_storage")
         else
           r == q && !Fits(o, settings.maxFileBytes, availableBytes)
  }

  class TransferCoordinator {
    const queue: Q.TransferQueue
    const destinationDirectory: string
    const maxFileBytes: int
    const maxChunkBytes: Option<nat>
    const less: Order
    var published: seq<Message>
    ghost var history: History

    function Rules(): Settings {
      Settings(destinationDirectory, maxFileBytes, maxChunkBytes, less)
    }

    /** Everything the queue has been through since it was empty. */
    ghost predicate Valid()
      reads this, queue
    {
      queue.batches == Now(history) && ClockOk(history)
    }

    /** The queue is where `op` takes it from where it was. */
    ghost predicate Moved(before: History, op: Op, now: int)
      reads this, queue
    {
      Valid() && history == Then(before, op, now)
    }

    /** A coordinator over a queue that has been through `past`. */
    constructor (queue: Q.TransferQueue, ghost past: History, destinationDirectory: string, maxFileBytes: int,
                 maxChunkBytes: Option<nat>, less: Order)
      requires queue.batches == Now(past) && ClockOk(past)
      ensures Valid() && this.queue == queue && published == [] && history == past
      ensures this.destinationDirectory == destinationDirectory && this.less == less
      ensures this.maxFileBytes == maxFileBytes && this.maxChunkBytes == maxChunkBytes
    {
      this.queue, this.destinationDirectory, this.less := queue, destinationDirectory, less;
      this.maxFileBytes, this.maxChunkBytes := maxFileBytes, maxChunkBytes;
      published, history := [], past;
    }

    method Publish(m: Message)
      modifies `published
      ensures published == old(published) + [m]
    {
      published := published + [m];
    }

    // ----- the queue's operations, recorded ------------------------------------

    method Claim(now: int) returns (claim: Option<(Batch, FileRecord)>)
      requires Valid() && SafeInteger(now)
      modifies queue, `history
      ensures Moved(Then(old(history), ExpireAll, now), ClaimNext, now)
      ensures var before := Now(Then(old(history), ExpireAll, now));
              && (claim.None? <==> NextClaim(before).None?)
              && (claim.Some? ==> var (i, j) := NextClaim(before).value;
                                  claim.value == (queue.batches[i], queue.batches[i].files[j]))
    {
      queue.ExpireDue(now);
      claim := queue.ClaimNext(now);
      history := Then(Then(history, ExpireAll, now), ClaimNext, now);
    }

    method Fail(transferId: string, fileId: string, code: string, now: int) returns (error: Option<QueueError>)
      requires Valid() && SafeInteger(now)
      modifies queue, `history
      ensures Moved(old(history), One(transferId, fileId, FileChange.Fail(code)), now)
      ensures var r := ChangeOne(old(queue.batches), transferId, fileId, FileChange.Fail(code), now);
              error == (if r.Err? then Some(r.error) else None)
    {
      error := queue.FailFile(transferId, fileId, code, now);
      history := Then(history, One(transferId, fileId, FileChange.Fail(code)), now);
    }

    // ----- activateNext --------------------------------------------------------

    /**
     Claims the next file and tells the phone: an accept for a file it sends, an
     offer for one it receives.  On return a file is in flight or none waits.
     */
    method ActivateNext(now: int) returns (claim: Option<(Batch, FileRecord)>)
      requires Valid() && SafeInteger(now)
      modifies this`published, this`history, queue
      ensures Moved(Then(old(history), ExpireAll, now), ClaimNext, now)
      ensures Busy(queue.batches) || !SomethingQueued(queue.batches)
      ensures published == old(published) + Announcement(Now(Then(old(history), ExpireAll, now)), now, maxChunkBytes)
      ensures claim.None? <==> NextClaim(Now(Then(old(history), ExpireAll, now))).None?
      ensures claim.None? ==> published == old(published)
      ensures claim.Some? ==>
                var (batch, file) := claim.value;
                && file in batch.files && file.status.Active? && batch in queue.batches
                && published == old(published)
                   + [if batch.direction.PhoneToLaptop?
                      then Accept(batch.transferId, file.fileId, file.confirmedOffset, maxChunkBytes)
                      else Offered(OfferOf(batch))]
    {
      ghost var expired := Then(history, ExpireAll, now);
      claim := Claim(now);
      RunsKeepQueueOk(expired);
      WorkIsConserved(Now(expired), now);
      if claim.Some? {
        var (batch, file) := claim.value;
        if batch.direction.PhoneToLaptop? {
          Publish(Accept(batch.transferId, file.fileId, file.confirmedOffset, maxChunkBytes));
        } else {
          Publish(Offered(OfferOf(batch)));
        }
      }
    }

    // ----- acceptPhoneOffer ------------------------------------------------------

    /** The batch has these files, at the same place as ever. */
    ghost predicate Holds(i: nat, transferId: string, files: seq<FileRecord>)
      reads this, queue
    {
      && Valid() && FindBatch(queue.batches, transferId) == i < |queue.batches|
      && queue.batches[i].files == files && DistinctIds(files)
    }

    /** File ids within a batch stay distinct. */
    lemma IdsStay(i: nat)
      requires Valid() && i < |queue.batches|
      ensures DistinctIds(queue.batches[i].files)
    {
      RunsKeepQueueOk(history);
    }

    /** One unfinished file of a batch fails and the phone is told. */
    method FailAndTell(ghost i: nat, transferId: string, ghost files: seq<FileRecord>, ghost j: nat, fileId: string, now: int)
      requires Holds(i, transferId, files) && SafeInteger(now)
      requires j < |files| && files[j].fileId == fileId && !IsTerminalFile(files[j].status)
      modifies this`published, this`history, queue
      ensures history == Then(old(history), One(transferId, fileId, FileChange.Fail("insufficient_storage")), now)
      ensures Holds(i, transferId, files[j := Changed(files[j], FileChange.Fail("insufficient_storage"), now).value])
      ensures OthersStay(old(queue.batches), queue.batches, i)
      ensures published == old(published) + [FileFailed(transferId, fileId, "insufficient_storage")]
    {
      ghost var g := Changed(files[j], FileChange.Fail("insufficient_storage"), now).value;
      LandsOn(queue.batches, transferId, j, FileChange.Fail("insufficient_storage"), now, g);
      var _ := Fail(transferId, fileId, "insufficient_storage", now);
      IdsStay(i);
      Publish(FileFailed(transferId, fileId, "insufficient_storage"));
    }

    /** One file of an offer that no longer fits. */
    method SettleOne(ghost start: History, ghost i: nat, transferId: string, ghost files: seq<FileRecord>, ghost j: nat,
                     file: FileRecord, now: int)
      returns (ghost after: seq<FileRecord>)
      requires Holds(i, transferId, files) && Continues(start, history)
      requires SafeInteger(now) && j < |files| && files[j] == file
      modifies this`published, this`history, queue
      ensures Holds(i, transferId, after) && Continues(start, history)
      ensures |after| == |files| && IsTerminalFile(after[j].status) && after == files[j := after[j]]
      ensures EndedFor(file, after[j], "insufficient_storage") && OthersStay(old(queue.batches), queue.batches, i)
      ensures published == old(published) + Notice(transferId, file)
    {
      after := files;
      assert files[j := file] == files;
      if file.status == FileStatus.Completed {
        Publish(FileComplete(transferId, file.fileId, file.sha256));
      } else if file.status == FileStatus.Failed {
        Publish(FileFailed(transferId, file.fileId, if file.errorCode.Some? then file.errorCode.value else "transfer_failed"));
      } else if file.status != FileStatus.Cancelled {
        FailAndTell(i, transferId, files, j, file.fileId, now);
        after := queue.batches[i].files;
      }
    }

    /** An offer that no longer fits: every file of it that has not ended fails, and the phone is told of each. */
    method FailUnfinished(ghost i: nat, transferId: string, files: seq<FileRecord>, now: int)
      requires Holds(i, transferId, files) && SafeInteger(now)
      modifies this`published, this`history, queue
      ensures Valid() && Continues(old(history), history)
      ensures FindBatch(queue.batches, transferId) == i < |queue.batches| && AllTerminal(queue.batches[i].files)
      ensures |queue.batches[i].files| == |files|
      ensures forall k :: 0 <= k < |files| ==> EndedFor(files[k], queue.batches[i].files[k], "insufficient_storage")
      ensures OthersStay(old(queue.batches), queue.batches, i)
      ensures Told(old(published), published, transferId, files, |files|)
    {
      ghost var current, start, first := files, history, published;
      var j := 0;
      ToldNothing(first, transferId, files);
      while j < |files|
        invariant 0 <= j <= |files| == |current|
        invariant Holds(i, transferId, current) && Continues(start, history)
        invariant AllTerminal(current[..j]) && current[j..] == files[j..]
        invariant forall k :: 0 <= k < j ==> EndedFor(files[k], current[k], "insufficient_storage")
        invariant OthersStay(old(queue.batches), queue.batches, i)
        invariant Told(first, published, transferId, files, j)
      {
        assert current[j] == current[j..][0] == files[j..][0] == files[j];
        ghost var before := current;
        ToldNext(first, published, transferId, files, j);
        current := SettleOne(start, i, transferId, current, j, files[j], now);
        OneMoreEnded(before, current, files, j);
        j := j + 1;
      }
      assert current[..j] == current;
    }

    /** A file the phone offers again is put back in the queue. */
    method RetryOne(ghost i: nat, transferId: string, ghost files: seq<FileRecord>, ghost j: nat, fileId: string, now: int)
      requires Holds(i, transferId, files) && SafeInteger(now)
      requires j < |files| && files[j].fileId == fileId
      modifies `history, queue
      ensures history == Then(old(history), One(transferId, fileId, FileChange.Retry), now)
      ensures Holds(i, transferId, files[j := Changed(files[j], FileChange.Retry, now).value])
      ensures OthersStay(old(queue.batches), queue.batches, i)
    {
      ghost var g, before := Changed(files[j], FileChange.Retry, now).value, queue.batches;
      LandsOn(before, transferId, j, FileChange.Retry, now, g);
      var error := queue.RetryFiles(transferId, Some(fileId), now);
      assert Q.Asked(before, transferId, Some(fileId), FileChange.Retry, now) == ChangeOne(before, transferId, fileId, FileChange.Retry, now);
      history := Then(history, One(transferId, fileId, FileChange.Retry), now);
      IdsStay(i);
    }

    /** A known offer that fits: its cancelled files get another attempt. */
    method RetryCancelled(ghost i: nat, transferId: string, files: seq<FileRecord>, now: int)
      requires Holds(i, transferId, files) && SafeInteger(now)
      modifies `history, queue
      ensures Valid() && Continues(old(history), history)
      ensures FindBatch(queue.batches, transferId) == i < |queue.batches| && |queue.batches[i].files| == |files|
      ensures forall k :: 0 <= k < |files| ==> queue.batches[i].files[k] == Revived(files[k], now)
      ensures OthersStay(old(queue.batches), queue.batches, i)
    {
      ghost var current, start := files, history;
      var j := 0;
      while j < |files|
        invariant 0 <= j <= |files| == |current| && Continues(start, history)
        invariant Holds(i, transferId, current) && OthersStay(old(queue.batches), queue.batches, i)
        invariant forall k :: 0 <= k < j ==> current[k] == Revived(files[k], now)
        invariant forall k :: j <= k < |files| ==> current[k] == files[k]
      {
        if files[j].status == FileStatus.Cancelled {
          ghost var before := history;
          RetryOne(i, transferId, current, j, files[j].fileId, now);
          current := queue.batches[i].files;
          ContinuesTransitive(start, before, history);
        }
        j := j + 1;
      }
    }

    /** Every file is received under its own name in the destination directory. */
    method DestinationsFor(o: Offer) returns (destinations: map<string, Path>)
      requires DistinctFiles(o.files)
      ensures forall i :: 0 <= i < |o.files| ==> Received(o.files[i], destinations, destinationDirectory)
    {
      destinations := map[];
      for i := 0 to |o.files|
        invariant forall k :: 0 <= k < i ==> Received(o.files[k], destinations, destinationDirectory)
      {
        var f := Read(o.files[i]);
        destinations := destinations[f.fileId := Path(destinationDirectory, f.meta.filename)];
      }
    }

    /** `acceptOffer`, recorded. */
    method Enlist(o: Offer, destinations: map<string, Path>, device: string, now: int) returns (error: Option<QueueError>)
      requires Valid() && SafeInteger(now)
      modifies `history, queue
      ensures Valid() && Continues(old(history), history)
      ensures error.Some? ==> history == old(history)
      ensures var r := AcceptOffer(Now(old(history)), o, destinations, Some(device), less, now);
              && error == (if r.Err? then Some(r.error) else None)
              && (r.Ok? ==> queue.batches == r.value)
    {
      ghost var accepting := Accepting(queue.batches, o, destinations, Some(device), less);
      error := queue.AcceptAnOffer(o, destinations, Some(device), less, now);
      if error.None? && accepting.value.Some? {
        history := Then(history, accepting.value.value, now);
      }
    }

    method RequiredBytes(files: seq<FileRecord>) returns (total: int)
      ensures total == BytesToWrite(files)
    {
      total := 0;
      for j := 0 to |files|
        invariant total == BytesToWrite(files[..j])
      {
        assert files[..j + 1][..j] == files[..j];
        var file := files[j];
        if file.status.Queued? || file.status.Active? || file.status.Verifying? || file.status.Finalizing? || file.status.Paused? {
          total := total + Max(0, file.size - file.confirmedOffset);
        } else if file.status.Cancelled? {
          total := total + file.size;
        }
      }
      assert files[..|files|] == files;
    }

    method OfferedBytes(o: Offer) returns (total: int)
      ensures total == OfferBytes(o.files)
    {
      total := 0;
      for j := 0 to |o.files|
        invariant total == OfferBytes(o.files[..j])
      {
        assert o.files[..j + 1][..j] == o.files[..j];
        total := total + Read(o.files[j]).size;
      }
      assert o.files[..|o.files|] == o.files;
    }

    method TellAll(o: Offer, code: string)
      modifies `published
      ensures |published| == |old(published)| + |o.files| && old(published) <= published
      ensures forall k :: 0 <= k < |o.files| ==>
                published[|old(published)|..][k] == FileFailed(o.transferId, Read(o.files[k]).fileId, code)
    {
      for j := 0 to |o.files|
        invariant |published| == |old(published)| + j && old(published) <= published
        invariant forall k :: 0 <= k < j ==>
                    published[|old(published)|..][k] == FileFailed(o.transferId, Read(o.files[k]).fileId, code)
      {
        Publish(FileFailed(o.transferId, Read(o.files[j]).fileId, code));
      }
    }

    /** A known offer is enlisted again: nothing of it moves, or it throws and nothing has happened. */
    method EnlistKnown(ghost i: nat, o: Offer, destinations: map<string, Path>, device: string, now: int)
      returns (error: Option<QueueError>)
      requires Valid() && SafeInteger(now) && FindBatch(queue.batches, o.transferId) == i < |queue.batches|
      modifies `history, queue
      ensures Valid() && Continues(old(history), history)
      ensures error.Some? ==> history == old(history)
      ensures error.None? ==> i < |queue.batches| && Holds(i, o.transferId, queue.batches[i].files)
      ensures error.None? ==> OthersStay(old(queue.batches), queue.batches, i)
                              && queue.batches[i].files == old(queue.batches[i].files)
      ensures Deliverable(o, destinations) && TotalOrder(less) ==> (error.None? <==> Agrees(old(queue.batches[i]), o))
    {
      IdsStay(i);
      if Deliverable(o, destinations) && TotalOrder(less) {
        RepeatedOffer(queue.batches, o, destinations, Some(device), less, now);
      }
      ghost var before := queue.batches;
      ghost var accepting := Accepting(before, o, destinations, Some(device), less);
      if accepting.Ok? {
        KnownOfferAdoptsAtMost(before, o, destinations, Some(device), less);
      }
      error := Enlist(o, destinations, device, now);
      if error.None? {
        KnownOfferMovesNothing(before, accepting.value, queue.batches, o.transferId, now);
        IdsStay(i);
      }
    }

    /** A known offer that is enlisted: failed if it no longer fits, otherwise ready to go on. */
    method FitKnownOffer(ghost i: nat, o: Offer, files: seq<FileRecord>, availableBytes: int, now: int) returns (r: Outcome)
      requires Holds(i, o.transferId, files) && SafeInteger(now)
      modifies this`published, this`history, queue
      ensures Valid() && Continues(old(history), history) && r != New
      ensures FindBatch(queue.batches, o.transferId) == i < |queue.batches|
      ensures OthersStay(old(queue.batches), queue.batches, i) && |queue.batches[i].files| == |files|
      ensures r == Existing <==> BytesToWrite(files) <= availableBytes
      ensures r == Existing ==>
                && published == old(published)
                && BytesToWrite(queue.batches[i].files) <= availableBytes
                && forall k :: 0 <= k < |files| ==> queue.batches[i].files[k] == Revived(files[k], now)
      ensures r == Rejected ==>
                && Told(old(published), published, o.transferId, files, |files|)
                && forall k :: 0 <= k < |files| ==> EndedFor(files[k], queue.batches[i].files[k], "insufficient_storage")
    {
      var required := RequiredBytes(files);
      if required > availableBytes {
        FailUnfinished(i, o.transferId, files, now);
        return Rejected;
      }
      FilesAreOk(i);
      RetryCancelled(i, o.transferId, files, now);
      RetryingWritesNoMore(files, queue.batches[i].files, now);
      return Existing;
    }

    /** A known offer: refused if it differs, and nothing has happened; otherwise failed or ready to go on. */
    method AcceptKnownOffer(ghost i: nat, o: Offer, destinations: map<string, Path>, device: string, availableBytes: int, now: int)
      returns (r: Result<Outcome, QueueError>)
      requires Valid() && SafeInteger(now) && FindBatch(queue.batches, o.transferId) == i < |queue.batches|
      requires Deliverable(o, destinations) && o.direction.PhoneToLaptop?
      modifies this`published, this`history, queue
      ensures Valid() && Continues(old(history), history)
      ensures r.Err? ==> history == old(history) && published == old(published)
      ensures r.Ok? ==> FindBatch(queue.batches, o.transferId) == i < |queue.batches|
      ensures r == Ok(Existing) ==> BytesToWrite(queue.batches[i].files) <= availableBytes && published == old(published)
      ensures r == Ok(Rejected) ==> Told(old(published), published, o.transferId, old(queue.batches)[i].files, |old(queue.batches)[i].files|)
      ensures OfferTaken(old(queue.batches), queue.batches, o, device, availableBytes, Rules(), now, r)
    {
      ghost var start := history;
      ghost var before := queue.batches;
      var error := EnlistKnown(i, o, destinations, device, now);
      if error.Some? {
        return Err(error.value);
      }
      ghost var enlisted := history;
      var files := queue.batches[FindBatch(queue.batches, o.transferId)].files;
      var outcome := FitKnownOffer(i, o, files, availableBytes, now);
      ContinuesTransitive(start, enlisted, history);
      return Ok(outcome);
    }

    lemma FilesAreOk(i: nat)
      requires Valid() && i < |queue.batches|
      ensures forall j :: 0 <= j < |queue.batches[i].files| ==> ProgressOk(queue.batches[i].files[j])
    {
      RunsKeepQueueOk(history);
      forall j | 0 <= j < |queue.batches[i].files|
        ensures ProgressOk(queue.batches[i].files[j])
      {
        assert FileOk(queue.batches[i].files[j], Length(history));
      }
    }

    /** A new offer: refused if a file is too large or the whole does not fit, otherwise queued. */
    method AcceptNewOffer(o: Offer, destinations: map<string, Path>, device: string, availableBytes: int, now: int)
      returns (r: Outcome)
      requires Valid() && SafeInteger(now) && Deliverable(o, destinations) && o.direction.PhoneToLaptop?
      requires forall i :: 0 <= i < |o.files| ==> Received(o.files[i], destinations, destinationDirectory)
      requires FindBatch(queue.batches, o.transferId) == |queue.batches|
      modifies this`published, this`history, queue
      ensures Valid() && Continues(old(history), history)
      ensures r == New <==> Fits(o, maxFileBytes, availableBytes)
      ensures r == Rejected ==> history == old(history) && queue.batches == old(queue.batches)
      ensures r == Rejected ==>
                old(published) <= published && ToldOff(published[|old(published)|..], o, maxFileBytes)
      ensures r == New ==>
                && published == old(published) && |queue.batches| == |old(queue.batches)| + 1
                && BytesToWrite(queue.batches[|old(queue.batches)|].files) <= availableBytes
      ensures OfferTaken(old(queue.batches), queue.batches, o, device, availableBytes, Rules(), now, Ok(r))
    {
      var j := 0;
      while j < |o.files|
        invariant 0 <= j <= |o.files|
        invariant forall k :: 0 <= k < j ==> Read(o.files[k]).size <= maxFileBytes
      {
        if Read(o.files[j]).size > maxFileBytes {
          Publish(FileFailed(o.transferId, Read(o.files[j]).fileId, "file_too_large"));
          assert published[|old(published)|..] == [FileFailed(o.transferId, Read(o.files[j]).fileId, "file_too_large")];
          return Rejected;
        }
        j := j + 1;
      }
      var required := OfferedBytes(o);
      if required > availableBytes {
        TellAll(o, "insufficient_storage");
        return Rejected;
      }
      NewBatchPasses(o, destinations, Some(device), now);
      NewBatchWrites(o, destinations, device, now);
      DraftIsStored(o, destinations, Some(device), now);
      StoredUnderDirectory(NewBatch(DraftOf(o, destinations, Some(device)), now), o, destinations, destinationDirectory, device, now);
      var _ := Enlist(o, destinations, device, now);
      return New;
    }

    lemma {:induction false} NewBatchWrites(o: Offer, destinations: map<string, Path>, device: string, now: int)
      requires Deliverable(o, destinations)
      ensures BytesToWrite(NewBatch(DraftOf(o, destinations, Some(device)), now).files) == OfferBytes(o.files)
    {
      var b := NewBatch(DraftOf(o, destinations, Some(device)), now);
      forall j | 0 <= j < |o.files|
        ensures b.files[j].status.Queued? && b.files[j].confirmedOffset == 0
        ensures b.files[j].size == Read(o.files[j]).size >= 0
      {
      }
      NewFilesWriteEverything(b.files, o.files);
    }

    /**
     `acceptPhoneOffer`: exactly when an offer is new, known, rejected or in
     error, and what each makes of the queue.  An accepted offer never promises
     more than fits: what its batch still has to write is within the space there was.
     */
    method AcceptPhoneOffer(o: Offer, device: string, availableBytes: int, now: int) returns (r: Result<Outcome, QueueError>)
      requires Valid() && SafeInteger(now)
      modifies this`published, this`history, queue
      ensures Valid() && Continues(old(history), history)
      ensures OfferTaken(old(queue.batches), queue.batches, o, device, availableBytes, Rules(), now, r)
      ensures r.Err? ==> history == old(history)
      ensures r.Err? || r.value != Rejected ==> published == old(published)
      ensures r.Ok? && r.value != Rejected ==>
                var i := FindBatch(queue.batches, o.transferId);
                i < |queue.batches| && BytesToWrite(queue.batches[i].files) <= availableBytes
      ensures r == Ok(Rejected) ==>
                var i := FindBatch(old(queue.batches), o.transferId);
                if i < |old(queue.batches)| then
                  Told(old(published), published, o.transferId, old(queue.batches)[i].files, |old(queue.batches)[i].files|)
                else
                  old(published) <= published && ToldOff(published[|old(published)|..], o, maxFileBytes)
    {
      if !IsTransferOffer(o) || !o.direction.PhoneToLaptop? {
        return Err(InvalidOffer);
      }
      var destinations := DestinationsFor(o);
      ghost var before := queue.batches;
      if FindBatch(queue.batches, o.transferId) < |queue.batches| {
        r := AcceptKnownOffer(FindBatch(queue.batches, o.transferId), o, destinations, device, availableBytes, now);
      } else {
        var outcome := AcceptNewOffer(o, destinations, device, availableBytes, now);
        if outcome == New {
          FindsTheNewOne(before, queue.batches, o.transferId);
        }
        r := Ok(outcome);
      }
    }

    lemma {:induction false} FindsTheNewOne(before: seq<Batch>, after: seq<Batch>, transferId: string)
      requires |after| == |before| + 1 && before <= after && after[|before|].transferId == transferId
      requires FindBatch(before, transferId) == |before|
      ensures FindBatch(after, transferId) == |before|
    {
      forall k | 0 <= k < |before|
        ensures after[k].transferId != transferId
      {
        assert after[k] == before[k];
      }
    }

    // ----- pauseTransfer and cancelTransfer -----------------------------------------

    /** The checkpoint `checkpointAnd` takes before it acts; it throws if the partial or the queue refuses. */
    method TakeCheckpoint(transferId: string, fileId: string, checkpoints: map<string, Checkpoint>, now: int) returns (ok: bool)
      requires Valid() && SafeInteger(now)
      modifies `history, queue
      ensures Valid() && history == Checkpointed(old(history), transferId, fileId, checkpoints, now)
      ensures ok <==> fileId !in checkpoints || (checkpoints[fileId].Behind? && Took(history))
    {
      if fileId !in checkpoints {
        return true;
      }
      if checkpoints[fileId].Broken? {
        return false;
      }
      var accepted := checkpoints[fileId].accepted;
      var error := queue.ConfirmProgress(transferId, fileId, accepted, None, now);
      history := Then(history, One(transferId, fileId, Confirm(accepted, None)), now);
      return error.None?;
    }

    method HoldOne(transferId: string, fileId: string, hold: FileChange, checkpoints: map<string, Checkpoint>, now: int)
      returns (ok: bool)
      requires Valid() && SafeInteger(now) && IsHold(hold)
      modifies `history, queue
      ensures Valid() && Continues(old(history), history)
      ensures ok ==> history == Held(old(history), transferId, fileId, hold, checkpoints, now)
                     && AllTook(old(history), history)
      ensures !ok ==> Stopped(old(history), history, transferId, fileId, hold, checkpoints, now)
    {
      ok := TakeCheckpoint(transferId, fileId, checkpoints, now);
      if !ok {
        return;
      }
      var error;
      if hold.Pause? {
        error := queue.PauseFiles(transferId, Some(fileId), now);
      } else {
        error := queue.CancelFiles(transferId, Some(fileId), now);
      }
      ok := error.None?;
      history := Then(history, One(transferId, fileId, hold), now);
    }

    method ActiveIds(transferId: string) returns (ids: seq<string>)
      ensures ids == ActiveIn(queue.batches, transferId)
    {
      ids := [];
      var i := FindBatch(queue.batches, transferId);
      if i < |queue.batches| {
        var files := queue.batches[i].files;
        for j := 0 to |files|
          invariant ids == ActiveOf(files[..j])
        {
          assert files[..j + 1][..j] == files[..j];
          if files[j].status.Active? {
            ids := ids + [files[j].fileId];
          }
        }
        assert files[..|files|] == files;
      }
    }

    /** Every file named, in order: its checkpoint confirmed if it has one, then the file itself held.  What throws stops it there. */
    method HoldEach(transferId: string, ids: seq<string>, hold: FileChange, checkpoints: map<string, Checkpoint>, now: int)
      returns (ok: bool, ghost k: nat)
      requires Valid() && SafeInteger(now) && IsHold(hold)
      modifies `history, queue
      ensures Valid() && Continues(old(history), history) && k <= |ids| && (ok <==> k == |ids|)
      ensures ok ==> history == AllHeld(old(history), transferId, ids, hold, checkpoints, now) && AllTook(old(history), history)
      ensures !ok ==> Stopped(AllHeld(old(history), transferId, ids[..k], hold, checkpoints, now), history,
                              transferId, ids[k], hold, checkpoints, now)
    {
      ghost var start := history;
      var n := 0;
      while n < |ids|
        invariant 0 <= n <= |ids| && Valid() && Continues(start, history) && AllTook(start, history)
        invariant history == AllHeld(start, transferId, ids[..n], hold, checkpoints, now)
      {
        ghost var before := history;
        ok := HoldOne(transferId, ids[n], hold, checkpoints, now);
        ContinuesTransitive(start, before, history);
        if !ok {
          return false, n;
        }
        AllTookTransitive(start, before, history);
        assert ids[..n + 1][..n] == ids[..n];
        n := n + 1;
      }
      assert ids[..n] == ids;
      return true, n;
    }

    /** `pauseTransfer` and `cancelTransfer`: of a whole transfer every active file comes first, and only then the batch. */
    method HoldTransfer(transferId: string, fileId: Option<string>, hold: FileChange, checkpoints: map<string, Checkpoint>, now: int)
      returns (ok: bool)
      requires Valid() && SafeInteger(now) && IsHold(hold)
      modifies `history, queue
      ensures Valid() && Continues(old(history), history)
      ensures ok ==> AllTook(old(history), history)
      ensures ok && fileId.Some? ==> history == Held(old(history), transferId, fileId.value, hold, checkpoints, now)
      ensures ok && fileId.None? ==>
                var ids := ActiveIn(old(queue.batches), transferId);
                history == Then(AllHeld(old(history), transferId, ids, hold, checkpoints, now), Whole(transferId, hold), now)
    {
      if fileId.Some? {
        ok := HoldOne(transferId, fileId.value, hold, checkpoints, now);
        return;
      }
      var ids := ActiveIds(transferId);
      ghost var start, k := history, 0;
      ok, k := HoldEach(transferId, ids, hold, checkpoints, now);
      if !ok {
        return;
      }
      ghost var before := history;
      var error;
      if hold.Pause? {
        error := queue.PauseFiles(transferId, None, now);
      } else {
        error := queue.CancelFiles(transferId, None, now);
      }
      ok := error.None?;
      history := Then(history, Whole(transferId, hold), now);
      assert Continues(before, history);
    }

    /** `failProgressControl` */
    method FailProgressControl(transferId: string, fileId: Option<string>, now: int) returns (ok: bool)
      requires Valid() && SafeInteger(now)
      modifies this`published, this`history, queue
      ensures Valid() && Continues(old(history), history) && old(published) <= published
      ensures ok ==> history == AllFailed(old(history), transferId,
                                          if fileId.Some? then [fileId.value] else ActiveIn(old(queue.batches), transferId), now)
      ensures ok ==> published == old(published) + CheckpointFailures(transferId,
                                          if fileId.Some? then [fileId.value] else ActiveIn(old(queue.batches), transferId))
    {
      var ids := if fileId.Some? then [fileId.value] else [];
      if fileId.None? {
        ids := ActiveIds(transferId);
      }
      ghost var start := history;
      var k := 0;
      while k < |ids|
        invariant 0 <= k <= |ids| && Valid() && Continues(start, history)
        invariant history == AllFailed(start, transferId, ids[..k], now)
        invariant published == old(published) + CheckpointFailures(transferId, ids[..k])
      {
        ghost var before := history;
        var error := Fail(transferId, ids[k], "checkpoint_failed", now);
        ContinuesTransitive(start, before, history);
        if error.Some? {
          return false;
        }
        Publish(FileFailed(transferId, ids[k], "checkpoint_failed"));
        assert ids[..k + 1][..k] == ids[..k];
        OneMoreFailure(transferId, ids, k);
        k := k + 1;
      }
      assert ids[..k] == ids;
      return true;
    }

    /** `transfer_pause` and `transfer_cancel`. */
    method HoldOrFail(transferId: string, only: Option<string>, hold: FileChange, m: Meeting) returns (ok: bool)
      requires Valid() && SafeInteger(m.now) && IsHold(hold)
      modifies this`published, this`history, queue
      ensures Valid() && Continues(old(history), history) && old(published) <= published
      ensures ok ==> (HoldsAll(old(history), history, transferId, only, hold, m) && published == old(published))
                     || FailsInstead(old(history), history, transferId, only, m.now)
    {
      ghost var start := history;
      ok := HoldTransfer(transferId, only, hold, m.checkpoints, m.now);
      if !ok {
        ghost var before := history;
        ok := FailProgressControl(transferId, only, m.now);
        ContinuesTransitive(start, before, history);
      }
    }

    // ----- handleControl --------------------------------------------------------------

    /** `confirmProgress`, recorded. */
    method ConfirmFor(transferId: string, fileId: string, offset: int, chunk: Option<int>, now: int) returns (ok: bool)
      requires Valid() && SafeInteger(now)
      modifies `history, queue
      ensures Moved(old(history), One(transferId, fileId, Confirm(offset, chunk)), now)
      ensures var r := ChangeOne(old(queue.batches), transferId, fileId, Confirm(offset, chunk), now);
              (ok <==> r.Ok?) && queue.batches == if r.Ok? then r.value else old(queue.batches)
    {
      var error := queue.ConfirmProgress(transferId, fileId, offset, chunk, now);
      history := Then(history, One(transferId, fileId, Confirm(offset, chunk)), now);
      ok := error.None?;
    }

    /** The record of a file the phone receives, if there is one. */
    method FileForPhone(transferId: string, fileId: string) returns (file: Option<FileRecord>)
      requires Valid()
      ensures var q := queue.batches;
              var i := FindBatch(q, transferId);
              && (file.Some? <==>
                    i < |q| && q[i].direction == LaptopToPhone && FindFile(q[i].files, fileId) < |q[i].files|)
              && (file.Some? ==> file.value == q[i].files[FindFile(q[i].files, fileId)] && ProgressOk(file.value))
    {
      var i := FindBatch(queue.batches, transferId);
      if i == |queue.batches| || !queue.batches[i].direction.LaptopToPhone? {
        return None;
      }
      var j := FindFile(queue.batches[i].files, fileId);
      if j == |queue.batches[i].files| {
        return None;
      }
      FilesAreOk(i);
      return Some(queue.batches[i].files[j]);
    }

    /** `acceptReceiverOffset`, exactly: when it is taken and what it does. */
    method AcceptReceiverOffset(transferId: string, fileId: string, offset: int, chunk: Option<int>, now: int) returns (ok: bool)
      requires Valid() && SafeInteger(now)
      modifies `history, queue
      ensures Valid() && (history == old(history) || (history.Then? && history.before == old(history)))
      ensures ok <==> MayAccept(old(queue.batches), transferId, fileId, offset, chunk, LocalMaximum(Rules()))
      ensures ok ==> OffsetTaken(old(queue.batches), queue.batches, transferId, fileId, offset, chunk, LocalMaximum(Rules()))
      ensures !ok ==> queue.batches == old(queue.batches)
    {
      var found := FileForPhone(transferId, fileId);
      if found.None? {
        return false;
      }
      var file := found.value;
      if offset < file.confirmedOffset || offset > file.size {
        return false;
      }
      var localMaximum := if maxChunkBytes.Some? then maxChunkBytes.value else Download.LEGACY_CHUNK_BYTES;
      var negotiated := if chunk.None? then None else Some(Download.NegotiateChunkBytes(chunk, localMaximum));
      if offset == file.confirmedOffset && negotiated.None? {
        NothingDue(queue.batches, transferId, fileId, offset, localMaximum);
        return true;
      }
      OffsetLands(queue.batches, transferId, fileId, offset, chunk, localMaximum, now);
      ok := ConfirmFor(transferId, fileId, offset, negotiated, now);
    }

    /** `transfer_accept`: the phone names itself, then its offset. */
    method AcceptFromReceiver(transferId: string, fileId: string, offset: int, chunk: Option<int>, device: string, now: int)
      returns (ok: bool)
      requires Valid() && SafeInteger(now)
      modifies `history, queue
      ensures Valid() && Continues(Then(old(history), Associate(transferId, device), now), history)
      ensures Continues(old(history), history)
      ensures AcceptTaken(old(history), history, transferId, fileId, offset, chunk, device, LocalMaximum(Rules()), now, ok)
    {
      var error := queue.AssociateSourceDevice(transferId, device, now);
      history := Then(history, Associate(transferId, device), now);
      if error.Some? {
        return false;
      }
      ok := AcceptReceiverOffset(transferId, fileId, offset, chunk, now);
    }

    /** One file of `republishPhoneProgress`. */
    method ReportOne(transferId: string, file: FileRecord, includeActive: bool, live: map<string, int>)
      modifies `published
      ensures published == old(published) + ProgressNotice(transferId, file, includeActive, live, maxChunkBytes)
    {
      if file.status == FileStatus.Completed {
        Publish(FileComplete(transferId, file.fileId, file.sha256));
      } else if file.status == FileStatus.Failed {
        Publish(FileFailed(transferId, file.fileId, if file.errorCode.Some? then file.errorCode.value else "transfer_failed"));
      } else if includeActive && file.status == FileStatus.Active && (file.size == 0 || file.confirmedOffset < file.size) {
        var offset := if file.fileId in live then live[file.fileId] else file.confirmedOffset;
        Publish(Accept(transferId, file.fileId, offset, maxChunkBytes));
      }
    }

    /** `republishPhoneProgress`: a known offer is answered with how far each of its files has come. */
    method RepublishPhoneProgress(transferId: string, includeActive: bool, live: map<string, int>)
      modifies `published
      ensures published == old(published) + Progress(queue.batches, transferId, includeActive, live, maxChunkBytes)
    {
      var i := FindBatch(queue.batches, transferId);
      if i == |queue.batches| || !queue.batches[i].direction.PhoneToLaptop? {
        return;
      }
      var files := queue.batches[i].files;
      for j := 0 to |files|
        invariant published == old(published) + ProgressNotices(transferId, files[..j], includeActive, live, maxChunkBytes)
      {
        assert files[..j + 1][..j] == files[..j];
        ReportOne(transferId, files[j], includeActive, live);
      }
      assert files[..|files|] == files;
    }

    method CompleteFromPhone(transferId: string, fileId: string, digest: Digest, now: int, monotonicNow: int) returns (ok: bool)
      requires Valid() && SafeInteger(now)
      modifies `history, queue
      ensures Moved(old(history), One(transferId, fileId, Complete(digest,
                      Q.Elapsed(old(queue.anchors), (transferId, fileId), monotonicNow))), now)
      ensures ok <==> Apply(Now(old(history)), history.op, now).Ok?
    {
      ghost var elapsed := Q.Elapsed(queue.anchors, (transferId, fileId), monotonicNow);
      var error := queue.CompleteFile(transferId, fileId, digest, now, monotonicNow);
      history := Then(history, One(transferId, fileId, Complete(digest, elapsed)), now);
      ok := error.None?;
    }

    method ResumeTransfer(transferId: string, only: Option<string>, now: int) returns (ok: bool)
      requires Valid() && SafeInteger(now)
      modifies `history, queue
      ensures Moved(old(history), if only.Some? then One(transferId, only.value, FileChange.Resume)
                                  else Whole(transferId, FileChange.Resume), now)
      ensures ok <==> Apply(Now(old(history)), history.op, now).Ok?
    {
      var error := queue.ResumeFiles(transferId, only, now);
      history := Then(history,
        if only.Some? then One(transferId, only.value, FileChange.Resume) else Whole(transferId, FileChange.Resume), now);
      ok := error.None?;
    }

    /** What the phone hears while a message takes effect: only a rejected offer and a hold that had to be given up have something to say. */
    predicate Tells(q: seq<Batch>, first: seq<Message>, said: seq<Message>, message: Control, handled: Handled) {
      && first <= said
      && (message.OfferControl? && handled.OfferRejected? ==>
            var i := FindBatch(q, message.offer.transferId);
            if i < |q| then Told(first, said, message.offer.transferId, q[i].files, |q[i].files|)
            else ToldOff(said[|first|..], message.offer, maxFileBytes))
      && (message.OfferControl? && !handled.OfferRejected? ==> said == first)
      && (!message.OfferControl? && !message.HoldControl? ==> said == first)
    }

    method ActOnOffer(offer: Offer, device: string, m: Meeting) returns (handled: Handled)
      requires Valid() && SafeInteger(m.now)
      modifies this`published, this`history, queue
      ensures Valid() && Continues(old(history), history)
      ensures Effect(Rules(), old(history), old(queue.anchors), OfferControl(offer), device, m, history, handled)
      ensures Tells(old(queue.batches), old(published), published, OfferControl(offer), handled)
    {
      var accepted := AcceptPhoneOffer(offer, device, m.availableBytes, m.now);
      handled := if accepted.Err? then Threw else if accepted.value == Rejected then OfferRejected else Done;
    }

    /** The messages about one file. */
    method ActOnFile(message: Control, device: string, m: Meeting) returns (handled: Handled)
      requires Valid() && SafeInteger(m.now) && !message.OfferControl? && !message.HoldControl? && !message.ResumeControl?
      modifies this`published, this`history, queue
      ensures Valid() && Continues(old(history), history)
      ensures Effect(Rules(), old(history), old(queue.anchors), message, device, m, history, handled)
      ensures Tells(old(queue.batches), old(published), published, message, handled)
    {
      var ok;
      if message.AcceptControl? {
        ok := AcceptFromReceiver(message.transferId, message.fileId, message.confirmedOffset, message.maxChunkBytes, device, m.now);
      } else if message.ProgressControl? {
        ok := ConfirmFor(message.transferId, message.fileId, message.confirmedOffset, None, m.now);
      } else if message.CompleteControl? {
        ok := CompleteFromPhone(message.transferId, message.fileId, message.digest, m.now, m.monotonicNow);
      } else {
        var error := Fail(message.transferId, message.fileId, message.code, m.now);
        ok := error.None?;
      }
      handled := if ok then Done else Threw;
    }

    /** The messages about a file or a whole transfer. */
    method ActOnTransfer(message: Control, device: string, m: Meeting) returns (handled: Handled)
      requires Valid() && SafeInteger(m.now) && ((message.HoldControl? && IsHold(message.hold)) || message.ResumeControl?)
      modifies this`published, this`history, queue
      ensures Valid() && Continues(old(history), history)
      ensures Effect(Rules(), old(history), old(queue.anchors), message, device, m, history, handled)
      ensures Tells(old(queue.batches), old(published), published, message, handled)
    {
      var ok;
      if message.HoldControl? {
        ok := HoldOrFail(message.transferId, message.only, message.hold, m);
      } else {
        ok := ResumeTransfer(message.transferId, message.only, m.now);
      }
      handled := if ok then Done else Threw;
    }

    /** The part of `handleControl` before `activateNext`. */
    method ActOn(message: Control, device: string, m: Meeting) returns (handled: Handled)
      requires Valid() && SafeInteger(m.now) && (message.HoldControl? ==> IsHold(message.hold))
      modifies this`published, this`history, queue
      ensures Valid() && Continues(old(history), history)
      ensures Effect(Rules(), old(history), old(queue.anchors), message, device, m, history, handled)
      ensures Tells(old(queue.batches), old(published), published, message, handled)
    {
      if message.OfferControl? {
        handled := ActOnOffer(message.offer, device, m);
      } else if message.HoldControl? || message.ResumeControl? {
        handled := ActOnTransfer(message, device, m);
      } else {
        handled := ActOnFile(message, device, m);
      }
    }

    /** Messages after which the line may have room for the next file. */
    predicate FreesTheLine(message: Control, handled: Handled) {
      handled.Done? && !message.AcceptControl? && !message.ProgressControl?
    }

    /** `activateNext`, and an answer about the transfer if it was offered before. */
    method GoOn(again: Option<string>, live: map<string, int>, now: int)
      requires Valid() && SafeInteger(now)
      modifies this`published, this`history, queue
      ensures Moved(Then(old(history), ExpireAll, now), QueueModel.ClaimNext, now)
      ensures Busy(queue.batches) || !SomethingQueued(queue.batches)
      ensures published == Heard(old(published), again, Now(Then(old(history), ExpireAll, now)), queue.batches, live, now)
    {
      var claimed := ActivateAny(now);
      if again.Some? {
        RepublishPhoneProgress(again.value, !claimed, live);
      }
    }

    method ActivateAny(now: int) returns (claimed: bool)
      requires Valid() && SafeInteger(now)
      modifies this`published, this`history, queue
      ensures Moved(Then(old(history), ExpireAll, now), QueueModel.ClaimNext, now)
      ensures Busy(queue.batches) || !SomethingQueued(queue.batches)
      ensures var expired := Now(Then(old(history), ExpireAll, now));
              && claimed == NextClaim(expired).Some?
              && published == old(published) + Announcement(expired, now, maxChunkBytes)
    {
      var claim := ActivateNext(now);
      claimed := claim.Some?;
    }

    /** What the phone has heard once the next file is claimed, and then of the transfer it offered again, if it did. */
    function Heard(first: seq<Message>, again: Option<string>, expired: seq<Batch>, after: seq<Batch>, live: map<string, int>, now: int)
      : seq<Message>
    {
      var announced := first + Announcement(expired, now, maxChunkBytes);
      if again.Some? then announced + Progress(after, again.value, NextClaim(expired).None?, live, maxChunkBytes) else announced
    }

    /** The transfer a message offers although it is known. */
    function Again(q: seq<Batch>, message: Control): Option<string> {
      if message.OfferControl? && FindBatch(q, message.offer.transferId) < |q| then Some(message.offer.transferId) else None
    }

    /**
     `handleControl`.  Each message has its effect on the queue, which only ever
     takes lawful steps; then the next file is claimed, and when a message that
     frees or fills the line has been handled, a file is in flight or none waits.
     */
    method HandleControl(message: Control, device: string, live: map<string, int>, m: Meeting)
      returns (handled: Handled, ghost acted: History, ghost said: seq<Message>)
      requires Valid() && SafeInteger(m.now) && (message.HoldControl? ==> IsHold(message.hold))
      modifies this`published, this`history, queue
      ensures Valid() && Continues(old(history), history)
      ensures Effect(Rules(), old(history), old(queue.anchors), message, device, m, acted, handled)
      ensures Tells(old(queue.batches), old(published), said, message, handled)
      ensures FreesTheLine(message, handled) ==>
                && history == Then(Then(acted, ExpireAll, m.now), QueueModel.ClaimNext, m.now)
                && published == Heard(said, Again(old(queue.batches), message), Now(Then(acted, ExpireAll, m.now)),
                                      queue.batches, live, m.now)
                && (Busy(queue.batches) || !SomethingQueued(queue.batches))
      ensures !FreesTheLine(message, handled) ==> history == acted && published == said
    {
      ghost var start := history;
      var again := Again(queue.batches, message);
      handled := ActOn(message, device, m);
      acted, said := history, published;
      if FreesTheLine(message, handled) {
        GoOn(again, live, m.now);
        ContinuesTransitive(start, acted, history);
      }
    }
  }

  /** The start of the program: the queue is opened on what some run stored, and a coordinator put over it. */
  method Start(ghost past: History, stored: seq<Batch>, links: Links, now: int, destinationDirectory: string, maxFileBytes: int,
               maxChunkBytes: Option<nat>, less: Order)
    returns (r: Result<TransferCoordinator, QueueError>)
    requires stored == Now(past) && ClockOk(past) && Length(past) <= MAX_SAFE_INTEGER && SafeInteger(now)
    ensures r.Ok? && fresh(r.value) && r.value.Valid() && !Busy(r.value.queue.batches)
    ensures r.value.history == Then(Then(past, RecoverAll(links), now), ExpireAll, now)
  {
    OpenRestoresTheQueue(past, links, now, now);
    var loaded := Q.TransferQueue.Open(stored, links, now);
    var coordinator := new TransferCoordinator(loaded.value, Then(Then(past, RecoverAll(links), now), ExpireAll, now),
                                               destinationDirectory, maxFileBytes, maxChunkBytes, less);
    r := Ok(coordinator);
  }

  /**
   What a coordinator's queue always is, however often the program has been
   started again on what it stored: within the invariant of every run, ready to
   be opened, and lawfully changed since any earlier point.
   */
  lemma {:induction false} CoordinatorsQueueIsSound(c: TransferCoordinator, h: History, links: Links, now: int, i: nat, j: nat)
    requires c.Valid() && Continues(h, c.history) && Length(c.history) <= MAX_SAFE_INTEGER && SafeInteger(now)
    requires i < |Now(h)| && j < |Now(h)[i].files|
    ensures QueueOk(c.queue.batches, Length(c.history)) && Open(c.queue.batches, links, now, now).Ok?
    ensures i < |c.queue.batches| && j < |c.queue.batches[i].files|
    ensures LawfulHistory(Now(h)[i].files[j], c.queue.batches[i].files[j])
  {
    RunsKeepQueueOk(c.history);
    OpenRestoresTheQueue(c.history, links, now, now);
    RunsAreLawful(h, c.history, i, j);
  }
}
