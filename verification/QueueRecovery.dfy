/**
 Opening the queue again (`open`, `recoverInterrupted` and `expire` in
 src/transfer/transfer-queue.ts).
 */
module QueueRecovery {
  import opened Wrappers
  import opened TransferFile
  import opened QueueModel
  import opened QueueRuns

  /** `open`: check the stored snapshot, recover it, expire it. */
  function Open(stored: seq<Batch>, links: Links, now: int, expireNow: int): Result<seq<Batch>, QueueError> {
    if !AssertSnapshot(stored) then Err(InvalidBatch)
    else Ok(ExpireBatches(RecoverBatches(stored, links, now), expireNow))
  }

  lemma {:induction false} RecoveryLandsEverything(q: seq<Batch>, links: Links, now: int)
    requires AllStatusOk(q)
    ensures !Busy(RecoverBatches(q, links, now))
  {
    var r := RecoverBatches(q, links, now);
    forall i, j | 0 <= i < |r| && 0 <= j < |r[i].files|
      ensures !InFlight(r[i].files[j].status)
    {
      RecoveryIsIdempotent(q[i].files[j], LinkedIn(links, q[i].files[j]), false);
      if IsTerminalBatch(q[i].status) {
        TerminalBatchesHaveLanded(q[i], j);
      } else {
        assert r[i].files == RecoveredFiles(q[i].files, links);
      }
    }
  }

  lemma {:induction false} TerminalBatchesHaveLanded(b: Batch, j: nat)
    requires StatusOk(b) && IsTerminalBatch(b.status) && j < |b.files|
    ensures !InFlight(b.files[j].status)
  {
    if InFlight(b.files[j].status) {
      assert SomeInFlight(b.files);
    }
  }

  /** A queue with nothing in flight is a fixed point of recovery, whatever is on the disk. */
  lemma {:induction false} NothingToRecover(q: seq<Batch>, links: Links, now: int)
    requires !Busy(q)
    ensures RecoverBatches(q, links, now) == q
  {
    forall i | 0 <= i < |q|
      ensures RecoveredBatch(q[i], links, now) == q[i]
    {
      assert !SomeInFlight(q[i].files);
      assert RecoveredFiles(q[i].files, links) == q[i].files;
    }
  }

  lemma {:induction false} ExpiryTakesNothingOff(q: seq<Batch>, now: int)
    requires !Busy(q)
    ensures !Busy(ExpireBatches(q, now))
  {
    var r := ExpireBatches(q, now);
    forall i, j | 0 <= i < |r| && 0 <= j < |r[i].files|
      ensures !InFlight(r[i].files[j].status)
    {
      assert !SomeInFlight(q[i].files);
      assert !InFlight(q[i].files[j].status);
      assert r[i].files != q[i].files ==> Changed(q[i].files[j], Expire, now) == Ok(r[i].files[j]);
    }
  }

  lemma {:induction false} OpenKeepsQueueOk(q: seq<Batch>, links: Links, now: int, expireNow: int, n: nat)
    requires QueueOk(q, n) && SafeInteger(now) && SafeInteger(expireNow)
    ensures QueueOk(ExpireBatches(RecoverBatches(q, links, now), expireNow), n + 2)
  {
    var recovered := RecoverBatches(q, links, now);
    assert Apply(q, RecoverAll(links), now) == Ok(recovered);
    ApplyKeepsQueueOk(q, RecoverAll(links), now, n);
    assert Apply(recovered, ExpireAll, expireNow) == Ok(ExpireBatches(recovered, expireNow));
    ApplyKeepsQueueOk(recovered, ExpireAll, expireNow, n + 1);
  }

  lemma {:induction false} OpenLandsEverything(q: seq<Batch>, links: Links, now: int, expireNow: int)
    requires AllStatusOk(q)
    ensures !Busy(ExpireBatches(RecoverBatches(q, links, now), expireNow))
  {
    RecoveryLandsEverything(q, links, now);
    ExpiryTakesNothingOff(RecoverBatches(q, links, now), expireNow);
  }

  /**
   Recovery closes the loop: whatever point of whatever run was stored, the
   next `open` accepts it, restores the queue's invariant, leaves nothing in
   flight, and recovering the result again changes nothing.
   */
  lemma {:induction false} OpenRestoresTheQueue(h: History, links: Links, now: int, expireNow: int)
    requires ClockOk(h) && Length(h) <= MAX_SAFE_INTEGER && SafeInteger(now) && SafeInteger(expireNow)
    ensures Open(Now(h), links, now, expireNow).Ok?
    ensures var q := Open(Now(h), links, now, expireNow).value;
            && QueueOk(q, Length(h) + 2)
            && !Busy(q)
            && forall others, later :: RecoverBatches(q, others, later) == q
  {
    EverySnapshotLoads(h);
    RunsKeepQueueOk(h);
    OpenKeepsQueueOk(Now(h), links, now, expireNow, Length(h));
    OpenLandsEverything(Now(h), links, now, expireNow);
    var q := Open(Now(h), links, now, expireNow).value;
    forall others, later
      ensures RecoverBatches(q, others, later) == q
    {
      NothingToRecover(q, others, later);
    }
  }

  /** The link recovery looks for is between a file's hidden partial and the final name it announced. */
  lemma LinkedInIs(links: Links, f: FileRecord)
    ensures LinkedIn(links, f) <==>
            && f.destinationPath != None && f.finalizingPath != None
            && (Path(f.destinationPath.value.dir, "." + f.destinationPath.value.name + "." + f.fileId + ".vidyut-part"),
                f.finalizingPath.value) in links
  {
  }

  /** Recovery comes before expiry: a published file is completed even if its time has come. */
  lemma {:induction false} PublishedBeforeExpired(q: seq<Batch>, links: Links, now: int, expireNow: int, i: nat, j: nat)
    requires AssertSnapshot(q) && AllStatusOk(q) && i < |q| && j < |q[i].files|
    requires q[i].files[j].status == Finalizing && LinkedIn(links, q[i].files[j])
    ensures var r := Open(q, links, now, expireNow);
            && r.Ok? && i < |r.value| && j < |r.value[i].files|
            && r.value[i].files[j].status == FileStatus.Completed
            && r.value[i].files[j].destinationPath == q[i].files[j].finalizingPath
  {
    WhatRecoveryDoes(q, links, now, i, j);
    var recovered := RecoverBatches(q, links, now);
    WhatExpiryDoes(recovered, expireNow, i);
  }

  /** Opening what an `open` stored, at a time when nothing expires, changes nothing at all. */
  lemma {:induction false} OpeningTwiceIsOpeningOnce(h: History, links: Links, now: int, expireNow: int, others: Links, later: int)
    requires ClockOk(h) && Length(h) + 2 <= MAX_SAFE_INTEGER && SafeInteger(now) && SafeInteger(expireNow)
    requires Open(Now(h), links, now, expireNow).Ok?
    requires var q := Open(Now(h), links, now, expireNow).value;
             forall i :: 0 <= i < |q| ==> !IsTerminalBatch(q[i].status) ==> q[i].expiresAtMs > later
    ensures Open(Open(Now(h), links, now, expireNow).value, others, later, later) == Open(Now(h), links, now, expireNow)
  {
    var q := Open(Now(h), links, now, expireNow).value;
    var reopened := Then(Then(h, RecoverAll(links), now), ExpireAll, expireNow);
    assert Now(reopened) == q;
    EverySnapshotLoads(reopened);
    OpenRestoresTheQueue(h, links, now, expireNow);
    assert RecoverBatches(q, others, later) == q;
    assert ExpireBatches(q, later) == q;
  }

  /**
   What recovery does to each file: a file caught finalizing is completed under
   its final name exactly when that name already is the partial's inode, any
   other file with all its bytes in is failed, an interrupted one goes back to
   the queue with its progress, and no other file changes.
   */
  lemma {:induction false} WhatRecoveryDoes(q: seq<Batch>, links: Links, now: int, i: nat, j: nat)
    requires AllStatusOk(q) && i < |q| && j < |q[i].files|
    ensures j < |RecoverBatches(q, links, now)[i].files|
    ensures var f, g := q[i].files[j], RecoverBatches(q, links, now)[i].files[j];
            && (InFlight(f.status) || g == f)
            && (f.status.Finalizing? && LinkedIn(links, f) <==>
                g.status.Completed? && g.destinationPath == f.finalizingPath && InFlight(f.status))
            && (InFlight(f.status) && g.status.Queued? <==>
                f.status.Active? && !(f.size > 0 && f.confirmedOffset == f.size))
            && (g.status.Queued? ==> g.confirmedOffset == f.confirmedOffset)
            && (InFlight(f.status) && g.status == FileStatus.Failed ==>
                  g.errorCode == Some(if f.status == Finalizing then "finalization_interrupted" else "verification_interrupted"))
            && (g.status.Completed? ==> g.sha256 == f.sha256 && g.confirmedOffset == f.confirmedOffset)
  {
    var b := q[i];
    if IsTerminalBatch(b.status) {
      TerminalBatchesHaveLanded(b, j);
    } else {
      assert RecoverBatches(q, links, now)[i].files == RecoveredFiles(b.files, links);
    }
  }
}
