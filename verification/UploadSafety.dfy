/**
 What holds in every reachable state of the upload engine, whatever the
 interleaving of PUTs, pauses, cancels, failures, expiry, retries, saves that
 lag or fail, and crashes: a completed file is the sender's file, durable on
 the disk, and nothing that was there before is touched.
 */
module UploadSafety {
  import opened Wrappers
  import opened TransferFile
  import opened SaveChain
  import opened UploadEngine
  import Paths

  function Base(c: Config): nat {
    |c.before.inodes|
  }

  ghost predicate Published(d: Disk, ino: nat) {
    exists p :: p in d.names && d.names[p] == ino
  }

  /** The inode holds exactly the sender's bytes and no crash can take them. */
  predicate Verified(c: Config, i: Inode) {
    i.data == c.source && i.durable == |i.data|
  }

  predicate RecordOk(c: Config, f: FileRecord) {
    && f.size == |c.source| && SafeInteger(f.size)
    && 0 <= f.confirmedOffset <= f.size
    && (f.sha256 == Placeholder || f.sha256 == Of(c.source))
    && (f.status.Verifying? || f.status.Finalizing? || f.status.Completed? ==> f.confirmedOffset == f.size)
    && (f.status.Finalizing? ==> f.finalizingPath.Some?)
    && f.destinationPath.Some?
  }

  /** The statuses a record can have while the partial is also linked under a final name. */
  predicate MayBeLinked(d: Disk, f: FileRecord) {
    || IsTerminalFile(f.status)
    || (f.status.Finalizing? && Linked(d, f.finalizingPath))
  }

  /** The record's `destinationPath` names a durable copy of the sender's file. */
  predicate Landed(c: Config, d: Disk, f: FileRecord) {
    && f.destinationPath.Some? && f.destinationPath.value in d.names
    && d.names[f.destinationPath.value] < |d.inodes|
    && Verified(c, d.inodes[d.names[f.destinationPath.value]])
  }

  ghost predicate PointOk(c: Config, d: Disk, f: FileRecord) {
    && RecordOk(c, f)
    && (f.status.Completed? ==> Landed(c, d, f))
    && (d.partial.Some? && Published(d, d.partial.value) ==> MayBeLinked(d, f))
  }

  /** Every snapshot that a crash could still bring back, and memory itself. */
  ghost predicate LogOk(c: Config, chain: Chain<FileRecord>, d: Disk) {
    && (forall i :: chain.stored <= i < |chain.points| ==> PointOk(c, d, chain.points[i]))
    && (forall i :: chain.stored <= i < |chain.points| && chain.points[i].status.Completed? ==>
          Memory(chain).status.Completed?)
  }

  /** No inode of ours has two final names. */
  predicate NamedOnce(d: Disk, ino: nat) {
    forall p, q :: p in d.names && q in d.names && d.names[p] == ino && d.names[q] == ino ==> p == q
  }

  ghost predicate DiskOk(c: Config, d: Disk) {
    && Base(c) <= |d.inodes|
    && (forall i :: 0 <= i < Base(c) ==> d.inodes[i] == c.before.inodes[i])
    && (forall p :: p in c.before.names ==> p in d.names && d.names[p] == c.before.names[p] < Base(c))
    && (forall p :: p in d.names ==>
          && d.names[p] < |d.inodes|
          && (d.names[p] < Base(c) ==> p in c.before.names)
          && (d.names[p] >= Base(c) ==> Verified(c, d.inodes[d.names[p]])))
    && (d.partial.Some? ==>
          && Base(c) <= d.partial.value < |d.inodes|
          && NamedOnce(d, d.partial.value))
  }

  predicate PutOk(c: Config, put: Upload) {
    && put.offset + put.count <= |c.source|
    && (put.offered == Placeholder || put.offered == Of(c.source))
    && (put.claimed.Some? && put.claimed.value.Of? ==> put.claimed.value == Of(c.source))
  }

  /** The handler's file handle: an inode of ours, not published, and the partial's if there is one. */
  ghost predicate HandleOk(c: Config, d: Disk, ino: nat) {
    && Base(c) <= ino < |d.inodes|
    && !Published(d, ino)
    && (d.partial.Some? ==> d.partial.value == ino)
  }

  predicate Durable(d: Disk, ino: nat)
    requires ino < |d.inodes|
  {
    d.inodes[ino].durable == |d.inodes[ino].data|
  }

  /** The record once the final link exists and until `complete` runs. */
  predicate AwaitsCompletion(f: FileRecord, path: Path) {
    && !f.status.Verifying?
    && (f.status.Finalizing? ==> f.finalizingPath == Some(path))
    && (f.status.Queued? || f.status.Active? || f.status.Paused? ==>
          f.confirmedOffset < f.size || (f.size == 0 && f.finalizingPath.None?))
  }

  /** The record from the moment a candidate is named, as long as the partial is still there. */
  predicate NamedOrStopped(f: FileRecord, path: Path) {
    || (f.status.Finalizing? && f.finalizingPath == Some(path))
    || f.status.Failed? || f.status.Cancelled?
  }

  ghost predicate PcOk(c: Config, w: World)
    requires |w.chain.points| > 0
  {
    match w.pc
    case Opening(put) =>
      PutOk(c, put) && (w.disk.partial.Some? ==> !Published(w.disk, w.disk.partial.value))
    case Writing(put, ino, due) => PutOk(c, put) && HandleOk(c, w.disk, ino) && (EndsFile(c, put) ==> due)
    case Syncing(put, ino, due) => PutOk(c, put) && HandleOk(c, w.disk, ino) && (EndsFile(c, put) ==> due)
    case Confirming(put, ino, due) =>
      && PutOk(c, put) && HandleOk(c, w.disk, ino) && (EndsFile(c, put) ==> due)
      && (due ==> Durable(w.disk, ino))
    case CheckpointSaving(put, ticket) => PutOk(c, put)
    case VerifySaving(put, ino, ticket) =>
      PutOk(c, put) && HandleOk(c, w.disk, ino) && Durable(w.disk, ino) && Expected(put) == Of(c.source)
    case Hashing(put, ino) =>
      PutOk(c, put) && HandleOk(c, w.disk, ino) && Durable(w.disk, ino) && Expected(put) == Of(c.source)
    case Naming(put, ino, suffix) =>
      PutOk(c, put) && HandleOk(c, w.disk, ino) && Verified(c, w.disk.inodes[ino]) && Expected(put) == Of(c.source)
    case Linking(put, ino, suffix, ticket) =>
      && PutOk(c, put) && HandleOk(c, w.disk, ino) && Verified(c, w.disk.inodes[ino]) && Expected(put) == Of(c.source)
      && ticket < |w.chain.points|
      && (w.disk.partial.Some? ==> forall i :: ticket <= i < |w.chain.points| ==>
            NamedOrStopped(w.chain.points[i], Paths.Candidate(c.destination, suffix)))
    case Completing(put, path) =>
      && Expected(put) == Of(c.source)
      && path in w.disk.names && w.disk.names[path] >= Base(c)
      && AwaitsCompletion(Record(w), path)
    case CompleteSaving(ticket) => Record(w).status.Completed?
    case Undoing(link) => !Record(w).status.Completed?
    case Discarding => !Record(w).status.Completed?
    case Failing => !Record(w).status.Completed?
    case _ => true
  }

  ghost predicate Safe(c: Config, w: World) {
    && Shaped(c, w)
    && LogOk(c, w.chain, w.disk)
    && DiskOk(c, w.disk)
    && PcOk(c, w)
  }

  /** `complete` is about to run on a record that a retry has made active again: an empty one, with nothing left to confirm. */
  predicate Overtaken(c: Config, w: World)
    requires |w.chain.points| > 0
  {
    w.pc.Completing? && c.source == [] && Record(w).status.Active?
  }

  /**
   The one step the safety claim shuts out: completing such a record when the
   path it asks for holds something else than the sender's file.  Lemma
   `CompletingIsSafeExactly` shows that nothing less would do, and
   `EmptyRetryCompletesTheWrongFile` in module UploadFindings gets there.
   */
  predicate Allowed(c: Config, w: World, e: Event) {
    e.Advance? && |w.chain.points| > 0 && Overtaken(c, w) ==> Landed(c, w.disk, Record(w))
  }

  // ----- single facts ------------------------------------------------------

  lemma InitialIsSafe(c: Config, w: World)
    requires Initial(c, w)
    ensures Safe(c, w)
  {
  }

  /** Handing over one more snapshot keeps the log, if the snapshot itself is in order. */
  lemma MutateKeepsLog(c: Config, w: World, g: FileRecord)
    requires Safe(c, w)
    requires PointOk(c, w.disk, g)
    requires Record(w).status.Completed? ==> g.status.Completed?
    ensures Valid(Mutate(w, g).chain) && LogOk(c, Mutate(w, g).chain, w.disk) && Record(Mutate(w, g)) == g
  {
    var points := w.chain.points + [g];
    forall i | w.chain.stored <= i < |points| && points[i].status.Completed?
      ensures g.status.Completed?
    {
      if i < |w.chain.points| {
        assert w.chain.points[i].status.Completed?;
      }
    }
  }

  /** The memory record is one of the snapshots the log vouches for. */
  lemma RecordIsOk(c: Config, w: World)
    requires Safe(c, w)
    ensures PointOk(c, w.disk, Record(w))
  {
    assert w.chain.points[|w.chain.points| - 1] == Record(w);
  }

  /** Moving on without touching the queue or the disk. */
  lemma MovingOnKeepsSafe(c: Config, w: World, next: World)
    requires Safe(c, w)
    requires next.chain == w.chain && next.disk == w.disk
    requires next.pc.Idle? || next.pc.Clearing? || next.pc.Catching? || next.pc == w.pc
             || next.pc.HoldConfirming? || next.pc.HoldActing? || next.pc.HoldUnlinking?
    ensures Safe(c, next)
  {
  }

  // ----- the upload handler ------------------------------------------------

  lemma PutKeepsSafe(c: Config, w: World, offset: nat, count: nat, claimed: Option<Digest>)
    requires Safe(c, w) && Honest(c, Put(offset, count, claimed))
    ensures Safe(c, PutStep(c, w, offset, count, claimed))
  {
    RecordIsOk(c, w);
  }

  lemma FailThenKeepsSafe(c: Config, w: World, code: string, now: int, saving: Pc, already: Pc)
    requires Safe(c, w)
    requires saving.FailSaving? || saving.MismatchSaving? || saving.HoldActSaving?
    requires already.Clearing? || already.HoldUnlinking?
    ensures Safe(c, FailThen(w, code, now, saving, already))
  {
    RecordIsOk(c, w);
    if !IsTerminalFile(Record(w).status) {
      MutateKeepsLog(c, w, Changed(Record(w), Fail(code), now).value);
    }
  }

  lemma OpenKeepsSafe(c: Config, w: World, put: Upload, choice: Choice)
    requires Safe(c, w) && w.pc == Opening(put)
    ensures Safe(c, OpenStep(c, w, put, choice))
  {
    var next := OpenStep(c, w, put, choice);
    if !choice.throws {
      if put.offset == 0 {
        if w.disk.partial.Some? {
          assert !Published(w.disk, w.disk.partial.value);
          assert forall p :: p in w.disk.names ==> w.disk.names[p] != w.disk.partial.value;
          assert LogOk(c, next.chain, next.disk);
        } else {
          assert forall p :: p in w.disk.names ==> w.disk.names[p] != |w.disk.inodes|;
          assert LogOk(c, next.chain, next.disk);
        }
      } else if w.disk.partial.None? {
        FailThenKeepsSafe(c, w, "partial_state_missing", choice.now, FailSaving(Ticket(w)), Clearing);
      }
    }
  }

  /** Changing an unpublished inode of ours disturbs neither the disk's promises nor the log. */
  lemma ChangingHandleKeepsDisk(c: Config, w: World, ino: nat, inode: Inode)
    requires Safe(c, w) && HandleOk(c, w.disk, ino)
    requires inode.durable <= |inode.data|
    ensures var d := w.disk.(inodes := w.disk.inodes[ino := inode]);
            InodesOk(d) && DiskOk(c, d) && LogOk(c, w.chain, d) && HandleOk(c, d, ino)
  {
    var d := w.disk.(inodes := w.disk.inodes[ino := inode]);
    assert forall p :: p in d.names ==> d.names[p] != ino;
    assert forall k: nat :: Published(d, k) <==> Published(w.disk, k);
    forall i | w.chain.stored <= i < |w.chain.points|
      ensures PointOk(c, d, w.chain.points[i])
    {
      assert PointOk(c, w.disk, w.chain.points[i]);
    }
  }

  lemma WriteKeepsSafe(c: Config, w: World, put: Upload, ino: nat, due: bool, choice: Choice)
    requires Safe(c, w) && w.pc == Writing(put, ino, due)
    ensures Safe(c, WriteStep(c, w, put, ino, due, choice))
  {
    if !choice.throws {
      var written := if choice.written < put.count then choice.written else put.count;
      var bytes := c.source[put.offset..put.offset + written];
      ChangingHandleKeepsDisk(c, w, ino, Written(w.disk.inodes[ino], put.offset, bytes));
    }
  }

  lemma SyncKeepsSafe(c: Config, w: World, put: Upload, ino: nat, due: bool, choice: Choice)
    requires Safe(c, w) && w.pc == Syncing(put, ino, due)
    ensures Safe(c, SyncStep(w, put, ino, due, choice))
  {
    ChangingHandleKeepsDisk(c, w, ino, Synced(w.disk.inodes[ino]));
  }

  lemma VerificationKeepsSafe(c: Config, w: World, put: Upload, ino: nat, choice: Choice)
    requires Safe(c, w) && w.pc == Confirming(put, ino, true) && EndsFile(c, put) && !DigestRefused(put)
    ensures var r := Changed(Record(w), BeginVerification(put.offset + put.count, choice.elapsed), choice.now);
            r.Ok? ==> Safe(c, Mutate(w, r.value).(pc := VerifySaving(put, ino, Ticket(w))))
  {
    RecordIsOk(c, w);
    var r := Changed(Record(w), BeginVerification(put.offset + put.count, choice.elapsed), choice.now);
    if r.Ok? {
      MutateKeepsLog(c, w, r.value);
    }
  }

  lemma CheckpointKeepsSafe(c: Config, w: World, put: Upload, ino: nat, due: bool, choice: Choice)
    requires Safe(c, w) && w.pc == Confirming(put, ino, due)
    ensures var r := Changed(Record(w), Confirm(put.offset + put.count, None), choice.now);
            r.Ok? ==> Safe(c, Mutate(w, r.value).(pc := CheckpointSaving(put, Ticket(w))))
  {
    RecordIsOk(c, w);
    var r := Changed(Record(w), Confirm(put.offset + put.count, None), choice.now);
    if r.Ok? {
      MutateKeepsLog(c, w, r.value);
    }
  }

  lemma ConfirmKeepsSafe(c: Config, w: World, put: Upload, ino: nat, due: bool, choice: Choice)
    requires Safe(c, w) && w.pc == Confirming(put, ino, due)
    ensures Safe(c, ConfirmStep(c, w, put, ino, due, choice))
  {
    var next := ConfirmStep(c, w, put, ino, due, choice);
    if next.pc.Idle? {
      MovingOnKeepsSafe(c, w, next);
    } else if EndsFile(c, put) {
      VerificationKeepsSafe(c, w, put, ino, choice);
    } else {
      CheckpointKeepsSafe(c, w, put, ino, due, choice);
    }
  }

  /** Taking the partial's name away never hurts: what was written under it is left alone. */
  lemma WithoutPartialKeeps(c: Config, w: World)
    requires Safe(c, w)
    ensures var d := WithoutPartial(w.disk);
            InodesOk(d) && DiskOk(c, d) && LogOk(c, w.chain, d)
  {
    var d := WithoutPartial(w.disk);
    forall i | w.chain.stored <= i < |w.chain.points|
      ensures PointOk(c, d, w.chain.points[i])
    {
      assert PointOk(c, w.disk, w.chain.points[i]);
    }
  }

  lemma HashKeepsSafe(c: Config, w: World, put: Upload, ino: nat, choice: Choice)
    requires Safe(c, w) && w.pc == Hashing(put, ino)
    ensures Safe(c, HashStep(w, put, ino, choice))
  {
    WithoutPartialKeeps(c, w);
  }

  lemma NameKeepsSafe(c: Config, w: World, put: Upload, ino: nat, suffix: nat, choice: Choice)
    requires Safe(c, w) && w.pc == Naming(put, ino, suffix)
    ensures Safe(c, NameStep(c, w, put, ino, suffix, choice))
  {
    RecordIsOk(c, w);
    if suffix < 10_000 {
      var r := Changed(Record(w), BeginFinalization(Paths.Candidate(c.destination, suffix), choice.elapsed), choice.now);
      if r.Ok? {
        MutateKeepsLog(c, w, r.value);
      }
    }
  }

  /**
   The final link is made only after the record naming it is in the store, so
   every snapshot a crash could bring back knows about it.
   */
  lemma LinkKeepsSafe(c: Config, w: World, put: Upload, ino: nat, suffix: nat, ticket: nat, choice: Choice)
    requires Safe(c, w) && w.pc == Linking(put, ino, suffix, ticket)
    ensures Safe(c, LinkStep(c, w, put, ino, suffix, ticket, choice))
  {
    var next := LinkStep(c, w, put, ino, suffix, ticket, choice);
    var path := Paths.Candidate(c.destination, suffix);
    RecordIsOk(c, w);
    if next.pc.Completing? {
      ResolvedSaveIsStored(w.chain, ticket);
      assert next.disk.names == w.disk.names[path := ino];
      forall i | w.chain.stored <= i < |w.chain.points|
        ensures PointOk(c, next.disk, w.chain.points[i])
      {
        assert PointOk(c, w.disk, w.chain.points[i]);
        assert NamedOrStopped(w.chain.points[i], path);
      }
      assert NamedOrStopped(w.chain.points[|w.chain.points| - 1], path);
    }
  }

  lemma CompleteKeepsSafe(c: Config, w: World, put: Upload, path: Path, choice: Choice)
    requires Safe(c, w) && w.pc == Completing(put, path) && Allowed(c, w, Advance(choice))
    ensures Safe(c, CompleteStep(w, put, choice))
  {
    RecordIsOk(c, w);
    var r := Changed(Record(w), Complete(Expected(put), choice.elapsed), choice.now);
    if r.Ok? {
      assert r.value.destinationPath == if Record(w).status.Finalizing? then Some(path) else Record(w).destinationPath;
      assert Landed(c, w.disk, r.value);
      MutateKeepsLog(c, w, r.value);
    }
  }

  /**
   The exclusion is exact: `complete` keeps the safety invariant if and only if
   it is allowed, and when it is not, the record it completes does not name the
   sender's file.
   */
  lemma {:induction false} CompletingIsSafeExactly(c: Config, w: World, choice: Choice)
    requires Safe(c, w) && w.pc.Completing?
    ensures var next := CompleteStep(w, w.pc.put, choice);
            && (Safe(c, next) <==> Allowed(c, w, Advance(choice)))
            && |next.chain.points| > 0
            && (!Allowed(c, w, Advance(choice)) ==>
                  Record(next).status.Completed? && !Landed(c, next.disk, Record(next)))
  {
    RecordIsOk(c, w);
    var next := CompleteStep(w, w.pc.put, choice);
    if Allowed(c, w, Advance(choice)) {
      CompleteKeepsSafe(c, w, w.pc.put, w.pc.path, choice);
    } else {
      var r := Changed(Record(w), Complete(Expected(w.pc.put), choice.elapsed), choice.now);
      assert r.Ok? && r.value.destinationPath == Record(w).destinationPath;
      assert Record(next) == r.value;
      assert !PointOk(c, next.disk, next.chain.points[|next.chain.points| - 1]);
    }
  }

  /** Which name the completed record carries: the link's, unless the record is active, empty and asks for another. */
  lemma {:induction false} CompletionNamesTheLink(c: Config, w: World, choice: Choice)
    requires Safe(c, w) && w.pc.Completing? && CompleteStep(w, w.pc.put, choice).pc.CompleteSaving?
    ensures var next := CompleteStep(w, w.pc.put, choice);
            && |next.chain.points| > 0 && Record(next).status.Completed?
            && (Record(next).destinationPath != Some(w.pc.path) <==>
                Record(w).status.Active? && c.source == [] && Record(w).destinationPath != Some(w.pc.path))
  {
    RecordIsOk(c, w);
  }

  /** Undoing a link removes only a name of ours, and only while no snapshot says completed. */
  lemma UndoKeepsSafe(c: Config, w: World, link: Option<Path>)
    requires Safe(c, w) && w.pc == Undoing(link)
    ensures Safe(c, w.(disk := UnlinkedFinal(w.disk, link), pc := Discarding))
  {
    var d := UnlinkedFinal(w.disk, link);
    if Linked(w.disk, link) {
      assert !Published(d, w.disk.partial.value);
      forall i | w.chain.stored <= i < |w.chain.points|
        ensures PointOk(c, d, w.chain.points[i])
      {
        assert PointOk(c, w.disk, w.chain.points[i]);
        assert !w.chain.points[i].status.Completed?;
      }
    }
  }

  lemma DroppingPartialKeepsSafe(c: Config, w: World, pc: Pc)
    requires Safe(c, w)
    requires pc.Clearing? || pc.Idle? || pc.RecoverFailing? || (pc.Failing? && !Record(w).status.Completed?)
    ensures Safe(c, w.(disk := WithoutPartial(w.disk), pc := pc))
  {
    WithoutPartialKeeps(c, w);
  }

  lemma AwaitingKeepsSafe(c: Config, w: World, choice: Choice)
    requires Safe(c, w)
    requires w.pc.CheckpointSaving? || w.pc.MismatchSaving? || w.pc.FailSaving? || w.pc.Clearing? || w.pc.Idle?
    ensures Safe(c, TailStep(c, w, choice))
  {
    var next := TailStep(c, w, choice);
    assert next.chain == w.chain && next.disk == w.disk;
    MovingOnKeepsSafe(c, w, next);
  }

  lemma VerifySavedKeepsSafe(c: Config, w: World, choice: Choice)
    requires Safe(c, w) && w.pc.VerifySaving?
    ensures Safe(c, TailStep(c, w, choice))
  {
  }

  lemma CompleteSavedKeepsSafe(c: Config, w: World, choice: Choice)
    requires Safe(c, w) && w.pc.CompleteSaving?
    ensures Safe(c, TailStep(c, w, choice))
  {
    DroppingPartialKeepsSafe(c, w, Clearing);
    MovingOnKeepsSafe(c, w, w.(pc := Catching));
  }

  lemma CatchKeepsSafe(c: Config, w: World, choice: Choice)
    requires Safe(c, w)
    requires w.pc.Catching? || w.pc.Discarding? || w.pc.Failing? || w.pc.Mismatched?
    ensures Safe(c, TailStep(c, w, choice))
  {
    if w.pc.Mismatched? {
      FailThenKeepsSafe(c, w, "hash_mismatch", choice.now, MismatchSaving(Ticket(w)), Clearing);
    } else if w.pc.Failing? {
      FailThenKeepsSafe(c, w, "terminal_processing_failed", choice.now, FailSaving(Ticket(w)), Clearing);
    } else if w.pc.Discarding? {
      DroppingPartialKeepsSafe(c, w, Failing);
    }
  }

  lemma TailKeepsSafe(c: Config, w: World, choice: Choice)
    requires Safe(c, w)
    requires !Receiving(w.pc) && !Publishing(w.pc) && !Holding(w.pc) && !Down(w.pc)
    ensures Safe(c, TailStep(c, w, choice))
  {
    if w.pc.VerifySaving? {
      VerifySavedKeepsSafe(c, w, choice);
    } else if w.pc.CompleteSaving? {
      CompleteSavedKeepsSafe(c, w, choice);
    } else if w.pc.Catching? || w.pc.Discarding? || w.pc.Failing? || w.pc.Mismatched? {
      CatchKeepsSafe(c, w, choice);
    } else {
      AwaitingKeepsSafe(c, w, choice);
    }
  }

  // ----- checkpointAnd -----------------------------------------------------

  lemma HoldSyncKeepsSafe(c: Config, w: World, hold: Hold, choice: Choice)
    requires Safe(c, w) && w.pc == HoldSyncing(hold)
    ensures Safe(c, HoldSyncStep(w, hold, choice))
  {
    var next := HoldSyncStep(w, hold, choice);
    if next.pc.HoldConfirming? {
      forall i | w.chain.stored <= i < |w.chain.points|
        ensures PointOk(c, next.disk, w.chain.points[i])
      {
        assert PointOk(c, w.disk, w.chain.points[i]);
      }
    }
  }

  lemma HoldConfirmKeepsSafe(c: Config, w: World, hold: Hold, choice: Choice)
    requires Safe(c, w) && w.pc == HoldConfirming(hold)
    ensures Safe(c, HoldConfirmStep(w, hold, choice))
  {
    RecordIsOk(c, w);
    if w.session.Some? {
      var r := Changed(Record(w), Confirm(w.session.value.accepted, None), choice.now);
      if r.Ok? {
        MutateKeepsLog(c, w, r.value);
      }
    }
  }

  lemma HoldActKeepsSafe(c: Config, w: World, hold: Hold, choice: Choice)
    requires Safe(c, w) && w.pc == HoldActing(hold)
    ensures Safe(c, HoldActStep(w, hold, choice))
  {
    RecordIsOk(c, w);
    match hold
    case Pausing => MutateKeepsLog(c, w, Changed(Record(w), Pause, choice.now).value);
    case Cancelling => MutateKeepsLog(c, w, Changed(Record(w), Cancel, choice.now).value);
    case Disconnecting =>
      FailThenKeepsSafe(c, w, "peer_disconnected", choice.now, HoldActSaving(hold, Ticket(w)), HoldUnlinking);
  }

  lemma HoldWaitKeepsSafe(c: Config, w: World, choice: Choice)
    requires Safe(c, w)
    requires w.pc.HoldSaving? || w.pc.HoldActSaving? || w.pc.HoldUnlinking?
    ensures Safe(c, HoldAdvance(w, choice))
  {
    if w.pc.HoldUnlinking? {
      DroppingPartialKeepsSafe(c, w, Clearing);
    } else {
      MovingOnKeepsSafe(c, w, HoldAdvance(w, choice));
    }
  }

  lemma HoldKeepsSafe(c: Config, w: World, choice: Choice)
    requires Safe(c, w) && Holding(w.pc)
    ensures Safe(c, HoldAdvance(w, choice))
  {
    if w.pc.HoldSyncing? {
      HoldSyncKeepsSafe(c, w, w.pc.hold, choice);
    } else if w.pc.HoldConfirming? {
      HoldConfirmKeepsSafe(c, w, w.pc.hold, choice);
    } else if w.pc.HoldActing? {
      HoldActKeepsSafe(c, w, w.pc.hold, choice);
    } else {
      HoldWaitKeepsSafe(c, w, choice);
    }
  }

  // ----- unlocked control, saves, crashes, recovery ------------------------

  /** The record after an unlocked change, in a disk where a retry has dropped the partial. */
  lemma ControlPointOk(c: Config, w: World, change: FileChange, now: int)
    requires Safe(c, w) && Unlocked(change) && Applicable(Record(w), change)
    ensures PointOk(c, ControlDisk(w, change), Changed(Record(w), change, now).value)
  {
    RecordIsOk(c, w);
  }

  function ControlDisk(w: World, change: FileChange): Disk
    requires |w.chain.points| > 0
  {
    var retried := change.Retry? && (Record(w).status.Failed? || Record(w).status.Cancelled?);
    if retried && Record(w).destinationPath.Some? then WithoutPartial(w.disk) else w.disk
  }

  /** The world after an unlocked change. */
  function Controlled(w: World, change: FileChange, now: int): World
    requires |w.chain.points| > 0 && Unlocked(change)
  {
    Mutate(w, Changed(Record(w), change, now).value).(disk := ControlDisk(w, change))
  }

  lemma ControlKeepsLinking(c: Config, w: World, change: FileChange, now: int)
    requires Safe(c, w) && w.pc.Linking?
    requires Unlocked(change) && Applicable(Record(w), change)
    ensures PcOk(c, Controlled(w, change, now))
  {
    RecordIsOk(c, w);
    if ControlDisk(w, change).partial.Some? {
      var path := Paths.Candidate(c.destination, w.pc.suffix);
      assert NamedOrStopped(w.chain.points[|w.chain.points| - 1], path);
      assert NamedOrStopped(Changed(Record(w), change, now).value, path);
    }
  }

  lemma ControlKeepsCompleting(c: Config, w: World, change: FileChange, now: int)
    requires Safe(c, w) && w.pc.Completing?
    requires Unlocked(change) && Applicable(Record(w), change)
    ensures PcOk(c, Controlled(w, change, now))
  {
    RecordIsOk(c, w);
    assert AwaitsCompletion(Changed(Record(w), change, now).value, w.pc.path);
  }

  lemma ControlKeepsDiskPc(c: Config, w: World, change: FileChange, now: int)
    requires Safe(c, w) && Unlocked(change) && Applicable(Record(w), change)
    requires Receiving(w.pc) || w.pc.VerifySaving? || w.pc.Hashing? || w.pc.Naming?
    ensures PcOk(c, Controlled(w, change, now))
  {
    assert ControlDisk(w, change) == w.disk || ControlDisk(w, change) == WithoutPartial(w.disk);
    assert forall ino :: Published(ControlDisk(w, change), ino) ==> Published(w.disk, ino);
  }

  lemma ControlKeepsOtherPc(c: Config, w: World, change: FileChange, now: int)
    requires Safe(c, w) && Unlocked(change) && Applicable(Record(w), change)
    requires !Receiving(w.pc) && !w.pc.VerifySaving? && !w.pc.Hashing? && !w.pc.Naming?
    requires !w.pc.Linking? && !w.pc.Completing?
    ensures PcOk(c, Controlled(w, change, now))
  {
    ChangeIsLawful(Record(w), change, now);
    assert Record(Controlled(w, change, now)) == Changed(Record(w), change, now).value;
    assert !Record(w).status.Completed? ==> !Changed(Record(w), change, now).value.status.Completed?;
  }

  lemma ControlKeepsPc(c: Config, w: World, change: FileChange, now: int)
    requires Safe(c, w)
    requires Unlocked(change) && Applicable(Record(w), change)
    ensures PcOk(c, Controlled(w, change, now))
  {
    if w.pc.Linking? {
      ControlKeepsLinking(c, w, change, now);
    } else if w.pc.Completing? {
      ControlKeepsCompleting(c, w, change, now);
    } else if Receiving(w.pc) || w.pc.VerifySaving? || w.pc.Hashing? || w.pc.Naming? {
      ControlKeepsDiskPc(c, w, change, now);
    } else {
      ControlKeepsOtherPc(c, w, change, now);
    }
  }

  lemma ControlKeepsLog(c: Config, w: World, change: FileChange, now: int)
    requires Safe(c, w) && Unlocked(change) && Applicable(Record(w), change)
    ensures var next := Controlled(w, change, now);
            Valid(next.chain) && LogOk(c, next.chain, next.disk)
  {
    ControlPointOk(c, w, change, now);
    WithoutPartialKeeps(c, w);
    ChangeIsLawful(Record(w), change, now);
    var g := Changed(Record(w), change, now).value;
    var d := ControlDisk(w, change);
    assert LogOk(c, w.chain, d);
    var points := w.chain.points + [g];
    forall i | w.chain.stored <= i < |points|
      ensures PointOk(c, d, points[i])
      ensures points[i].status.Completed? ==> g.status.Completed?
    {
      if i < |w.chain.points| {
        assert points[i] == w.chain.points[i];
      }
    }
  }

  lemma ControlKeepsSafe(c: Config, w: World, change: FileChange, now: int)
    requires Safe(c, w)
    ensures Safe(c, ControlStep(w, change, now))
  {
    if !Down(w.pc) && Unlocked(change) && Applicable(Record(w), change) {
      ControlKeepsLog(c, w, change, now);
      ControlKeepsPc(c, w, change, now);
      WithoutPartialKeeps(c, w);
    }
  }

  lemma SiblingKeepsSafe(c: Config, w: World)
    requires Safe(c, w)
    ensures Safe(c, Mutate(w, Record(w)))
  {
    RecordIsOk(c, w);
    MutateKeepsLog(c, w, Record(w));
    if w.pc.Linking? && w.disk.partial.Some? {
      assert NamedOrStopped(w.chain.points[|w.chain.points| - 1], Paths.Candidate(c.destination, w.pc.suffix));
    }
  }

  lemma SaveKeepsSafe(c: Config, w: World, ok: bool)
    requires Safe(c, w)
    ensures Safe(c, w.(chain := Settle(w.chain, ok)))
  {
    SettleKeepsValid(w.chain, ok);
  }

  /** A crash leaves published inodes and foreign files alone: they are durable to the last byte. */
  lemma {:induction false} CrashKeepsSafe(c: Config, w: World, tails: seq<seq<byte>>)
    requires Safe(c, w)
    requires forall i :: 0 <= i < Base(c) ==> c.before.inodes[i].durable == |c.before.inodes[i].data|
    ensures Safe(c, CrashStep(w, tails))
  {
    var next := CrashStep(w, tails);
    assert PointOk(c, w.disk, w.chain.points[w.chain.stored]);
    forall i | 0 <= i < |w.disk.inodes| && w.disk.inodes[i].durable == |w.disk.inodes[i].data|
      ensures next.disk.inodes[i] == w.disk.inodes[i]
    {
      assert w.disk.inodes[i].data[..w.disk.inodes[i].durable] == w.disk.inodes[i].data;
      if i < |tails| && |tails[i]| == 0 {
        assert w.disk.inodes[i].data + tails[i] == w.disk.inodes[i].data;
      }
    }
    assert forall k: nat :: Published(next.disk, k) <==> Published(w.disk, k);
    assert PointOk(c, next.disk, Record(next));
  }

  lemma RecoveredPointOk(c: Config, w: World)
    requires Safe(c, w)
    ensures PointOk(c, w.disk, Recovered(Record(w), Linked(w.disk, Record(w).finalizingPath)))
    ensures PointOk(c, w.disk, Recovered(Record(w), false))
  {
    RecordIsOk(c, w);
  }

  lemma RecoverStepKeepsSafe(c: Config, w: World)
    requires Safe(c, w) && w.pc.Recovering?
    ensures Safe(c, RecoverStep(w))
  {
    RecoveredPointOk(c, w);
    MutateKeepsLog(c, w, Recovered(Record(w), Linked(w.disk, Record(w).finalizingPath)));
  }

  lemma RecoverFailKeepsSafe(c: Config, w: World)
    requires Safe(c, w) && w.pc.RecoverFailing?
    ensures Safe(c, RecoverFailStep(w))
  {
    RecoveredPointOk(c, w);
    MutateKeepsLog(c, w, Recovered(Record(w), false));
  }

  lemma RecoverKeepsSafe(c: Config, w: World)
    requires Safe(c, w) && Down(w.pc)
    ensures Safe(c, RecoverAdvance(w))
  {
    match w.pc
    case Recovering => RecoverStepKeepsSafe(c, w);
    case RecoverDropping => DroppingPartialKeepsSafe(c, w, UploadEngine.RecoverFailing);
    case RecoverFailing => RecoverFailKeepsSafe(c, w);
    case RecoverSaving(ticket, unlinkAfter) => DroppingPartialKeepsSafe(c, w, UploadEngine.Idle);
    case _ =>
  }

  // ----- every step, every run ---------------------------------------------

  lemma ReceiveKeepsSafe(c: Config, w: World, choice: Choice)
    requires Safe(c, w) && Receiving(w.pc)
    ensures Safe(c, ReceiveStep(c, w, choice))
  {
    match w.pc
    case Opening(put) => OpenKeepsSafe(c, w, put, choice);
    case Writing(put, ino, due) => WriteKeepsSafe(c, w, put, ino, due, choice);
    case Syncing(put, ino, due) => SyncKeepsSafe(c, w, put, ino, due, choice);
    case Confirming(put, ino, due) => ConfirmKeepsSafe(c, w, put, ino, due, choice);
  }

  lemma PublishKeepsSafe(c: Config, w: World, choice: Choice)
    requires Safe(c, w) && Publishing(w.pc) && Allowed(c, w, Advance(choice))
    ensures Safe(c, PublishStep(c, w, choice))
  {
    match w.pc
    case Hashing(put, ino) => HashKeepsSafe(c, w, put, ino, choice);
    case Naming(put, ino, suffix) => NameKeepsSafe(c, w, put, ino, suffix, choice);
    case Linking(put, ino, suffix, ticket) => LinkKeepsSafe(c, w, put, ino, suffix, ticket, choice);
    case Completing(put, path) => CompleteKeepsSafe(c, w, put, path, choice);
    case Undoing(link) => UndoKeepsSafe(c, w, link);
  }

  lemma AdvanceKeepsSafe(c: Config, w: World, choice: Choice)
    requires Safe(c, w) && Allowed(c, w, Advance(choice))
    ensures Safe(c, AdvanceStep(c, w, choice))
  {
    if Receiving(w.pc) {
      ReceiveKeepsSafe(c, w, choice);
    } else if Publishing(w.pc) {
      PublishKeepsSafe(c, w, choice);
    } else if Holding(w.pc) {
      HoldKeepsSafe(c, w, choice);
    } else if Down(w.pc) {
      RecoverKeepsSafe(c, w);
    } else {
      TailKeepsSafe(c, w, choice);
    }
  }

  ghost predicate DurableBefore(c: Config) {
    forall i :: 0 <= i < Base(c) ==> c.before.inodes[i].durable == |c.before.inodes[i].data|
  }

  lemma {:induction false} NextKeepsSafe(c: Config, w: World, e: Event)
    requires Safe(c, w) && Honest(c, e) && Allowed(c, w, e) && DurableBefore(c)
    ensures Safe(c, Next(c, w, e))
  {
    match e
    case Put(offset, count, claimed) => PutKeepsSafe(c, w, offset, count, claimed);
    case Hold(hold) =>
    case Advance(choice) => AdvanceKeepsSafe(c, w, choice);
    case Control(change, now) => ControlKeepsSafe(c, w, change, now);
    case Sibling => SiblingKeepsSafe(c, w);
    case Save(ok) => SaveKeepsSafe(c, w, ok);
    case Crash(tails) => CrashKeepsSafe(c, w, tails);
  }

  /** A run of the engine: a fresh offer, then one event after the other. */
  datatype Run = Start(now: World) | After(before: Run, event: Event, now: World)

  /** `Shaped` only says where `Next` is defined; `RunsExtend` shows that an allowed run never leaves it. */
  predicate Happens(c: Config, r: Run) {
    match r
    case Start(w) => Initial(c, w)
    case After(before, e, w) =>
      Happens(c, before) && Honest(c, e) && Shaped(c, before.now) && w == Next(c, before.now, e)
  }

  predicate AllAllowed(c: Config, r: Run) {
    r.After? ==> AllAllowed(c, r.before) && Allowed(c, r.before.now, r.event)
  }

  lemma {:induction false} RunsAreSafe(c: Config, r: Run)
    requires Happens(c, r) && AllAllowed(c, r)
    ensures Safe(c, r.now) && DurableBefore(c)
  {
    match r
    case Start(w) => InitialIsSafe(c, w);
    case After(before, e, w) =>
      RunsAreSafe(c, before);
      NextKeepsSafe(c, before.now, e);
  }

  /** Any honest and allowed event can come next. */
  lemma {:induction false} RunsExtend(c: Config, r: Run, e: Event)
    requires Happens(c, r) && AllAllowed(c, r) && Honest(c, e) && Allowed(c, r.now, e)
    ensures Shaped(c, r.now)
    ensures Happens(c, After(r, e, Next(c, r.now, e))) && AllAllowed(c, After(r, e, Next(c, r.now, e)))
  {
    RunsAreSafe(c, r);
  }

  /**
   Whatever happened, if memory, the store, or any snapshot still on its way to
   the store says `completed`, its destination is a durable copy of the
   sender's file.
   */
  lemma {:induction false} CompletedFileIsTheSource(c: Config, r: Run, i: nat)
    requires Happens(c, r) && AllAllowed(c, r)
    requires r.now.chain.stored <= i < |r.now.chain.points| && r.now.chain.points[i].status.Completed?
    ensures var path := r.now.chain.points[i].destinationPath;
            && path.Some? && path.value in r.now.disk.names
            && r.now.disk.names[path.value] < |r.now.disk.inodes|
            && r.now.disk.inodes[r.now.disk.names[path.value]].data == c.source
            && r.now.disk.inodes[r.now.disk.names[path.value]].durable == |c.source|
  {
    RunsAreSafe(c, r);
    assert PointOk(c, r.now.disk, r.now.chain.points[i]);
  }

  // ----- files that were there before ------------------------------------------

  /** The handler writes to an inode of its own. */
  predicate OwnHandle(c: Config, pc: Pc) {
    (pc.Writing? ==> pc.ino >= Base(c)) && (pc.Syncing? ==> pc.ino >= Base(c))
  }

  /** The disk of before is still there, and the partial and the handler are apart from it. */
  ghost predicate Apart(c: Config, w: World) {
    && Base(c) <= |w.disk.inodes|
    && (forall i :: 0 <= i < Base(c) ==> w.disk.inodes[i] == c.before.inodes[i])
    && (forall p :: p in c.before.names ==> p in w.disk.names && w.disk.names[p] == c.before.names[p] < Base(c))
    && (w.disk.partial.Some? ==> w.disk.partial.value >= Base(c))
    && OwnHandle(c, w.pc)
  }

  lemma {:induction false} ReceiveKeepsApart(c: Config, w: World, choice: Choice)
    requires Shaped(c, w) && Apart(c, w) && Receiving(w.pc)
    ensures Apart(c, ReceiveStep(c, w, choice))
  {
  }

  lemma {:induction false} PublishKeepsApart(c: Config, w: World, choice: Choice)
    requires Shaped(c, w) && Apart(c, w) && Publishing(w.pc)
    ensures Apart(c, PublishStep(c, w, choice))
  {
  }

  lemma {:induction false} HoldKeepsApart(c: Config, w: World, choice: Choice)
    requires Shaped(c, w) && Apart(c, w) && Holding(w.pc)
    ensures Apart(c, HoldAdvance(w, choice))
  {
  }

  lemma {:induction false} AdvanceKeepsApart(c: Config, w: World, choice: Choice)
    requires Shaped(c, w) && Apart(c, w)
    ensures Apart(c, AdvanceStep(c, w, choice))
  {
    if Receiving(w.pc) {
      ReceiveKeepsApart(c, w, choice);
    } else if Publishing(w.pc) {
      PublishKeepsApart(c, w, choice);
    } else if Holding(w.pc) {
      HoldKeepsApart(c, w, choice);
    } else if Down(w.pc) {
      assert Apart(c, RecoverAdvance(w));
    } else {
      assert Apart(c, TailStep(c, w, choice));
    }
  }

  lemma {:induction false} CrashKeepsApart(c: Config, w: World, tails: seq<seq<byte>>)
    requires Shaped(c, w) && Apart(c, w) && DurableBefore(c)
    ensures Apart(c, CrashStep(w, tails))
  {
    forall i | 0 <= i < Base(c)
      ensures CrashStep(w, tails).disk.inodes[i] == c.before.inodes[i]
    {
      var inode := w.disk.inodes[i];
      assert inode.data[..inode.durable] == inode.data;
      if i < |tails| && |tails[i]| == 0 {
        assert inode.data + tails[i] == inode.data;
      }
    }
  }

  lemma {:induction false} NextKeepsApart(c: Config, w: World, e: Event)
    requires Shaped(c, w) && Apart(c, w) && DurableBefore(c)
    ensures Apart(c, Next(c, w, e))
  {
    match e
    case Put(offset, count, claimed) =>
    case Hold(hold) =>
    case Advance(choice) => AdvanceKeepsApart(c, w, choice);
    case Control(change, now) =>
    case Sibling =>
    case Save(ok) =>
    case Crash(tails) => CrashKeepsApart(c, w, tails);
  }

  lemma {:induction false} RunsKeepApart(c: Config, r: Run)
    requires Happens(c, r)
    ensures Apart(c, r.now) && DurableBefore(c)
  {
    if r.After? {
      RunsKeepApart(c, r.before);
      NextKeepsApart(c, r.before.now, r.event);
    }
  }

  /** No file that was there before the transfer is ever changed, renamed or removed: in any run, allowed or not. */
  lemma {:induction false} EarlierFilesAreUntouched(c: Config, r: Run, path: Path)
    requires Happens(c, r) && path in c.before.names
    ensures var d := r.now.disk;
            && path in d.names && d.names[path] == c.before.names[path] < |c.before.inodes| <= |d.inodes|
            && d.inodes[d.names[path]] == c.before.inodes[c.before.names[path]]
  {
    RunsKeepApart(c, r);
  }
}
