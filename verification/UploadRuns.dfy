/**
 The resume theorems over whole runs, the exact condition they need, and the
 discipline of retries that guarantees it.
 */
module UploadRuns {
  import opened Wrappers
  import opened TransferFile
  import opened SaveChain
  import opened UploadEngine
  import opened UploadSafety
  import opened UploadResume

  /** In the run, a partial is created only when nothing resumable is left over. */
  ghost predicate AllSettled(r: Run) {
    r.After? ==> AllSettled(r.before) && (CreatesPartial(r.before.now, r.event) ==> Settled(r.before.now))
  }

  lemma {:induction false} SettledRunsAreBacked(c: Config, r: Run)
    requires Happens(c, r) && AllAllowed(c, r) && AllSettled(r)
    ensures Safe(c, r.now) && Backed(c, r.now)
  {
    RunsAreSafe(c, r);
    match r
    case Start(w) => InitialIsBacked(c, w);
    case After(before, e, w) =>
      SettledRunsAreBacked(c, before);
      NextBacks(c, before.now, e);
  }

  /**
   The offset in the store never runs ahead of the disk: if the partial is
   there, its durable bytes reach the stored offset and are the sender's.
   */
  lemma {:induction false} StoredOffsetIsDurable(c: Config, r: Run)
    requires Happens(c, r) && AllAllowed(c, r) && AllSettled(r)
    ensures Framed(r.now)
    ensures var f := Store(r.now.chain);
            Resumable(f) && r.now.disk.partial.Some? ==>
              && f.confirmedOffset <= PartialInode(r.now.disk).durable <= |PartialInode(r.now.disk).data|
              && f.confirmedOffset <= |c.source|
              && (forall k :: 0 <= k < f.confirmedOffset ==> PartialInode(r.now.disk).data[k] == c.source[k])
  {
    SettledRunsAreBacked(c, r);
  }

  /** A complete upload never fails its digest check: the bytes hashed are the sender's. */
  lemma {:induction false} NoSpuriousMismatch(c: Config, r: Run, choice: Choice)
    requires Happens(c, r) && AllAllowed(c, r) && AllSettled(r) && Framed(r.now)
    requires r.now.pc.Hashing? && InUse(r.now) && !choice.throws
    ensures PartialInode(r.now.disk).data == c.source
    ensures Shaped(c, r.now) && AdvanceStep(c, r.now, choice).pc.Naming?
  {
    SettledRunsAreBacked(c, r);
  }

  /**
   The condition is exact.  Creating the partial keeps the stored offsets
   truthful if and only if no snapshot that a crash could bring back resumes
   from a positive offset.
   */
  lemma {:induction false} CreatingThePartial(c: Config, w: World, choice: Choice)
    requires Safe(c, w) && Backed(c, w) && CreatesPartial(w, Advance(choice))
    ensures Shaped(c, Next(c, w, Advance(choice)))
    ensures DurableLog(c, Next(c, w, Advance(choice))) <==> Settled(w)
  {
    var next := Next(c, w, Advance(choice));
    CreatingKeepsShape(c, w, choice);
    assert PartialInode(next.disk) == Inode([], 0);
    if Settled(w) {
      NextBacks(c, w, Advance(choice));
    } else {
      var i :| w.chain.stored <= i < |w.chain.points| && Resumable(w.chain.points[i]) && w.chain.points[i].confirmedOffset > 0;
      assert next.chain.points[i] == w.chain.points[i];
      assert !KeepsPrefix(c, PartialInode(next.disk), next.chain.points[i].confirmedOffset);
    }
  }

  lemma CreatingKeepsShape(c: Config, w: World, choice: Choice)
    requires Safe(c, w) && CreatesPartial(w, Advance(choice))
    ensures Shaped(c, AdvanceStep(c, w, choice))
  {
    AdvanceKeepsSafe(c, w, choice);
  }

  // ----- who guarantees the condition --------------------------------------

  /** A retry that takes effect. */
  predicate Retries(w: World, e: Event)
    requires |w.chain.points| > 0
  {
    && e.Control? && e.change.Retry? && !Down(w.pc)
    && (Record(w).status.Failed? || Record(w).status.Cancelled?)
  }

  /** No resumable snapshot is ahead of memory. */
  ghost predicate Ordered(w: World) {
    && |w.chain.points| > 0
    && NoneAhead(w.chain, Record(w).confirmedOffset)
  }

  /** Every change but a retry keeps or raises the offset. */
  lemma OnlyRetryLowers(f: FileRecord, change: FileChange, now: int)
    requires Changed(f, change, now).Ok?
    requires change.Retry? ==> !f.status.Failed? && !f.status.Cancelled?
    ensures Changed(f, change, now).value.confirmedOffset >= f.confirmedOffset
  {
  }

  lemma NextKeepsOrdered(c: Config, w: World, e: Event)
    requires Shaped(c, w) && Ordered(w)
    requires Retries(w, e) ==> NoneAhead(w.chain, 0)
    ensures Ordered(Next(c, w, e))
  {
    var next := Next(c, w, e);
    if e.Crash? {
      assert Record(next) == w.chain.points[w.chain.stored];
    } else if e.Save? {
      SettleKeepsValid(w.chain, e.ok);
      assert next.chain.points == w.chain.points;
    } else if next.chain == w.chain {
    } else {
      var g := Record(next);
      AppendedOne(c, w, e);
      MutateKeepsNoneAhead(w, g, if Retries(w, e) then 0 else Record(w).confirmedOffset, g.confirmedOffset);
    }
  }

  /** What a step that hands over a snapshot does to the offset. */
  lemma AppendedOne(c: Config, w: World, e: Event)
    requires Shaped(c, w) && !e.Crash? && !e.Save?
    requires Next(c, w, e).chain != w.chain
    ensures |Next(c, w, e).chain.points| > 0
    ensures Next(c, w, e).chain == Persist(w.chain, Memory(Next(c, w, e).chain))
    ensures Memory(Next(c, w, e).chain).confirmedOffset >= (if Retries(w, e) then 0 else Record(w).confirmedOffset)
  {
    if e.Advance? {
      AdvanceAppendsOne(c, w, e.choice);
    } else if e.Control? {
      if !Retries(w, e) {
        OnlyRetryLowers(Record(w), e.change, e.now);
      }
    }
  }

  lemma ReceiveAppendsOne(c: Config, w: World, choice: Choice)
    requires Shaped(c, w) && ReceiveStep(c, w, choice).chain != w.chain
    ensures Appends(w, ReceiveStep(c, w, choice))
  {
  }

  lemma HoldAppendsOne(c: Config, w: World, choice: Choice)
    requires Shaped(c, w) && HoldAdvance(w, choice).chain != w.chain
    ensures Appends(w, HoldAdvance(w, choice))
  {
  }

  lemma AdvanceAppendsOne(c: Config, w: World, choice: Choice)
    requires Shaped(c, w)
    requires AdvanceStep(c, w, choice).chain != w.chain
    ensures Appends(w, AdvanceStep(c, w, choice))
  {
    if Receiving(w.pc) {
      ReceiveAppendsOne(c, w, choice);
    } else if Publishing(w.pc) {
      assert Appends(w, PublishStep(c, w, choice));
    } else if Holding(w.pc) {
      HoldAppendsOne(c, w, choice);
    } else if Down(w.pc) {
      assert Appends(w, RecoverAdvance(w));
    } else {
      assert Appends(w, TailStep(c, w, choice));
    }
  }

  /** One more snapshot, not behind the record it follows. */
  predicate Appends(w: World, next: World)
    requires |w.chain.points| > 0
  {
    && |next.chain.points| > 0
    && next.chain == Persist(w.chain, Record(next))
    && Record(next).confirmedOffset >= Record(w).confirmedOffset
  }

  /** In the run, a retry waits until no resumable snapshot with a positive offset is left. */
  ghost predicate AllPatient(r: Run) {
    r.After? ==>
      && AllPatient(r.before) && |r.before.now.chain.points| > 0
      && (Retries(r.before.now, r.event) ==> NoneAhead(r.before.now.chain, 0))
  }

  lemma {:induction false} PatientRunsAreSettled(c: Config, r: Run)
    requires Happens(c, r) && AllAllowed(c, r) && AllPatient(r)
    ensures AllSettled(r) && Ordered(r.now)
  {
    if r.After? {
      PatientRunsAreSettled(c, r.before);
      SettledRunsAreBacked(c, r.before);
      NextKeepsOrdered(c, r.before.now, r.event);
    }
  }

  predicate NeverRetries(r: Run) {
    r.After? ==> NeverRetries(r.before) && !(r.event.Control? && r.event.change.Retry?)
  }

  /** Without retries there is nothing to wait for: PUTs, pauses, cancels, failures, crashes and restarts resume soundly. */
  lemma {:induction false} RunsWithoutRetryAreSettled(c: Config, r: Run)
    requires Happens(c, r) && AllAllowed(c, r) && NeverRetries(r)
    ensures AllPatient(r) && AllSettled(r)
  {
    if r.After? {
      RunsWithoutRetryAreSettled(c, r.before);
    }
    PatientRunsAreSettled(c, r);
  }
}
