/**
 Crash-safe resume: what is confirmed is really on the disk, so a restarted
 transfer continues from a correct prefix and a complete file never fails its
 digest check by accident.

 One condition is needed, and it is exact: when an upload creates a fresh
 partial, no snapshot that a crash could bring back may still ask to resume
 from a positive offset.  See `CreatingThePartial` below.
 */
module UploadResume {
  import opened Wrappers
  import opened TransferFile
  import opened SaveChain
  import opened UploadEngine
  import opened UploadSafety

  /** The statuses from which `recoverInterrupted` lets an upload go on. */
  predicate Resumable(f: FileRecord) {
    f.status.Queued? || f.status.Active? || f.status.Paused?
  }

  /** The inode starts with the first `n` bytes of the sender's file. */
  predicate HasPrefix(c: Config, i: Inode, n: int) {
    n <= |i.data| && n <= |c.source| && forall k :: 0 <= k < n ==> i.data[k] == c.source[k]
  }

  /** As `HasPrefix`, and a crash cannot take those bytes. */
  predicate KeepsPrefix(c: Config, i: Inode, n: int) {
    HasPrefix(c, i, n) && n <= i.durable
  }

  predicate Framed(w: World) {
    w.chain.stored < |w.chain.points| && (w.disk.partial.Some? ==> w.disk.partial.value < |w.disk.inodes|)
  }

  function PartialInode(d: Disk): Inode
    requires d.partial.Some? && d.partial.value < |d.inodes|
  {
    d.inodes[d.partial.value]
  }

  /** Every snapshot that may be resumed from is backed by durable bytes of the partial. */
  ghost predicate DurableLog(c: Config, w: World)
    requires Framed(w)
  {
    w.disk.partial.Some? ==>
      forall i :: w.chain.stored <= i < |w.chain.points| && Resumable(w.chain.points[i]) ==>
        KeepsPrefix(c, PartialInode(w.disk), w.chain.points[i].confirmedOffset)
  }

  /** No snapshot that may be resumed from is ahead of `n`. */
  ghost predicate NoneAhead(chain: Chain<FileRecord>, n: int) {
    forall i :: chain.stored <= i < |chain.points| && Resumable(chain.points[i]) ==>
      chain.points[i].confirmedOffset <= n
  }

  /** The partial is there and the record still means it. */
  predicate InUse(w: World)
    requires Framed(w)
  {
    w.disk.partial.Some? && !IsTerminalFile(Record(w).status)
  }

  predicate UsedPrefix(c: Config, w: World, n: int)
    requires Framed(w)
  {
    InUse(w) ==> HasPrefix(c, PartialInode(w.disk), n)
  }

  /** The handler writes at the accepted offset, and nothing resumable lies beyond it. */
  ghost predicate OffsetOk(w: World, put: Upload)
    requires Framed(w)
  {
    && w.session.Some? && w.session.value.accepted == put.offset
    && Record(w).confirmedOffset <= put.offset
    && (w.disk.partial.Some? ==> NoneAhead(w.chain, put.offset))
  }

  ghost predicate HandlerOk(c: Config, w: World)
    requires Framed(w)
  {
    match w.pc
    case Opening(put) => OffsetOk(w, put)
    case Writing(put, ino, due) => OffsetOk(w, put)
    case Syncing(put, ino, due) => OffsetOk(w, put) && UsedPrefix(c, w, put.offset + put.count)
    case Confirming(put, ino, due) => OffsetOk(w, put) && UsedPrefix(c, w, put.offset + put.count)
    case CheckpointSaving(put, ticket) => UsedPrefix(c, w, put.offset + put.count)
    case VerifySaving(put, ino, ticket) => EndsFile(c, put) && UsedPrefix(c, w, |c.source|)
    case Hashing(put, ino) => UsedPrefix(c, w, |c.source|)
    case HoldConfirming(hold) =>
      w.disk.partial.Some? ==> PartialInode(w.disk).durable == |PartialInode(w.disk).data|
    case RecoverSaving(ticket, unlinkAfter) => !InFlight(Record(w).status)
    case _ => true
  }

  /** The resume invariant, beside `Safe`. */
  ghost predicate Backed(c: Config, w: World) {
    && Framed(w)
    && DurableLog(c, w)
    && (w.disk.partial.Some? ==>
          NoneAhead(w.chain, Record(w).confirmedOffset) && |PartialInode(w.disk).data| <= |c.source|)
    && (InUse(w) && !Down(w.pc) ==> KeepsPrefix(c, PartialInode(w.disk), Record(w).confirmedOffset))
    && (w.session.Some? ==> UsedPrefix(c, w, w.session.value.accepted))
    && HandlerOk(c, w)
  }

  /** No snapshot that a crash could bring back resumes from a positive offset. */
  ghost predicate Settled(w: World) {
    NoneAhead(w.chain, 0)
  }

  /** The step that creates a fresh partial. */
  predicate CreatesPartial(w: World, e: Event) {
    e.Advance? && w.pc.Opening? && w.pc.put.offset == 0 && w.disk.partial.None? && !e.choice.throws
  }

  // ----- bytes -------------------------------------------------------------

  /** Writing the sender's bytes at `offset` keeps shorter prefixes and extends the prefix that ends there. */
  lemma {:induction false} WritingExtendsPrefix(c: Config, i: Inode, offset: nat, count: nat)
    requires offset + count <= |c.source|
    ensures var j := Written(i, offset, c.source[offset..offset + count]);
            && (forall n :: n <= offset && HasPrefix(c, i, n) ==> HasPrefix(c, j, n))
            && (forall n :: n <= offset && KeepsPrefix(c, i, n) ==> KeepsPrefix(c, j, n))
            && (HasPrefix(c, i, offset) ==> HasPrefix(c, j, offset + count))
            && (|i.data| <= |c.source| ==> |j.data| <= |c.source|)
  {
  }

  // ----- the log -----------------------------------------------------------

  lemma InitialIsBacked(c: Config, w: World)
    requires Initial(c, w)
    ensures Backed(c, w)
  {
  }

  /** One more snapshot that is backed itself. */
  lemma MutateKeepsDurableLog(c: Config, w: World, g: FileRecord)
    requires Framed(w) && DurableLog(c, w)
    requires w.disk.partial.Some? && Resumable(g) ==> KeepsPrefix(c, PartialInode(w.disk), g.confirmedOffset)
    ensures Framed(Mutate(w, g)) && DurableLog(c, Mutate(w, g))
    ensures Record(Mutate(w, g)) == g
  {
  }

  lemma MutateKeepsNoneAhead(w: World, g: FileRecord, n: int, m: int)
    requires NoneAhead(w.chain, n) && n <= m
    requires Resumable(g) ==> g.confirmedOffset <= m
    ensures NoneAhead(Mutate(w, g).chain, m)
  {
  }

  /** Handing over a snapshot whose bytes are durable, while no handler is receiving. */
  lemma MutateBacks(c: Config, w: World, g: FileRecord, pc: Pc)
    requires Backed(c, w)
    requires g.confirmedOffset >= Record(w).confirmedOffset
    requires !IsTerminalFile(g.status) ==> !IsTerminalFile(Record(w).status)
    requires InUse(w) && !IsTerminalFile(g.status) ==> KeepsPrefix(c, PartialInode(w.disk), g.confirmedOffset)
    requires HandlerOk(c, Mutate(w, g).(pc := pc))
    ensures Backed(c, Mutate(w, g).(pc := pc))
  {
    MutateKeepsDurableLog(c, w, g);
    if w.disk.partial.Some? {
      MutateKeepsNoneAhead(w, g, Record(w).confirmedOffset, g.confirmedOffset);
    }
  }

  /** Going on without touching the queue; the partial may lose its name, the session may end. */
  lemma QuietlyBacks(c: Config, w: World, next: World)
    requires Backed(c, w)
    requires next.chain == w.chain
    requires next.disk == w.disk || (next.disk.inodes == w.disk.inodes && next.disk.partial == w.disk.partial)
             || next.disk.partial.None?
    requires Framed(next)
    requires next.session.None? || next.session == w.session || UsedPrefix(c, next, next.session.value.accepted)
    requires HandlerOk(c, next)
    requires Down(w.pc) && InUse(next) ==> Down(next.pc) || Resumable(Record(w))
    ensures Backed(c, next)
  {
    if Down(w.pc) && !Down(next.pc) && InUse(next) {
      assert w.chain.points[|w.chain.points| - 1] == Record(w);
    }
  }

  // ----- receiving ---------------------------------------------------------

  lemma PutBacks(c: Config, w: World, offset: nat, count: nat, claimed: Option<Digest>)
    requires Backed(c, w)
    ensures Backed(c, PutStep(c, w, offset, count, claimed))
  {
    var next := PutStep(c, w, offset, count, claimed);
    if next.session != w.session {
      assert next.session.value.accepted == Record(w).confirmedOffset;
    }
    if w.disk.partial.Some? && next.pc.Opening? {
      assert NoneAhead(w.chain, next.pc.put.offset);
    }
  }

  lemma FailThenBacks(c: Config, w: World, code: string, now: int, saving: Pc, already: Pc)
    requires Backed(c, w)
    requires saving.FailSaving? || saving.MismatchSaving? || saving.HoldActSaving?
    requires already.Clearing? || already.HoldUnlinking?
    requires !Down(w.pc)
    ensures Backed(c, FailThen(w, code, now, saving, already))
  {
    if !IsTerminalFile(Record(w).status) {
      MutateBacks(c, w, Changed(Record(w), Fail(code), now).value, saving);
    }
  }

  /** Opening an existing partial at offset 0 is harmless: nothing resumable lies beyond 0 then. */
  lemma TruncatingBacks(c: Config, w: World, put: Upload, choice: Choice)
    requires Backed(c, w) && w.pc == Opening(put) && put.offset == 0 && !choice.throws && w.disk.partial.Some?
    ensures Backed(c, OpenStep(c, w, put, choice))
  {
    var next := OpenStep(c, w, put, choice);
    assert PartialInode(next.disk) == Inode([], 0);
  }

  lemma CreatingBacks(c: Config, w: World, put: Upload, choice: Choice)
    requires Backed(c, w) && w.pc == Opening(put) && Record(w).confirmedOffset >= 0
    requires CreatesPartial(w, Advance(choice)) && Settled(w)
    ensures Backed(c, OpenStep(c, w, put, choice))
  {
    var next := OpenStep(c, w, put, choice);
    assert PartialInode(next.disk) == Inode([], 0);
  }

  lemma OpenBacks(c: Config, w: World, put: Upload, choice: Choice)
    requires Backed(c, w) && w.pc == Opening(put) && Record(w).confirmedOffset >= 0
    requires CreatesPartial(w, Advance(choice)) ==> Settled(w)
    ensures Backed(c, OpenStep(c, w, put, choice))
  {
    if choice.throws || (put.offset > 0 && w.disk.partial.Some?) {
      QuietlyBacks(c, w, OpenStep(c, w, put, choice));
    } else if put.offset > 0 {
      FailThenBacks(c, w, "partial_state_missing", choice.now, FailSaving(Ticket(w)), Clearing);
    } else if w.disk.partial.Some? {
      TruncatingBacks(c, w, put, choice);
    } else {
      CreatingBacks(c, w, put, choice);
    }
  }

  /** Bytes that change only from the accepted offset on. */
  lemma TailChangeBacks(c: Config, w: World, next: World, put: Upload)
    requires Backed(c, w) && !Down(w.pc) && !Down(next.pc) && OffsetOk(w, put)
    requires next.chain == w.chain && next.session == w.session
    requires next.disk.partial == w.disk.partial && Framed(next) && HandlerOk(c, next)
    requires w.disk.partial.Some? ==>
               var i, j := PartialInode(w.disk), PartialInode(next.disk);
               && (forall n :: n <= put.offset && HasPrefix(c, i, n) ==> HasPrefix(c, j, n))
               && (forall n :: n <= put.offset && KeepsPrefix(c, i, n) ==> KeepsPrefix(c, j, n))
               && |j.data| <= |c.source|
    ensures Backed(c, next)
  {
  }

  lemma WroteBacks(c: Config, w: World, put: Upload, ino: nat, j: Inode, pc: Pc)
    requires Backed(c, w) && w.pc.Writing? && w.pc.put == put && w.disk.partial == Some(ino)
    requires var i := PartialInode(w.disk);
             && (forall n :: n <= put.offset && HasPrefix(c, i, n) ==> HasPrefix(c, j, n))
             && (forall n :: n <= put.offset && KeepsPrefix(c, i, n) ==> KeepsPrefix(c, j, n))
             && (HasPrefix(c, i, put.offset) && pc.Syncing? ==> HasPrefix(c, j, put.offset + put.count))
             && |j.data| <= |c.source|
    requires pc.Idle? || (pc.Syncing? && pc.put == put)
    ensures Backed(c, w.(disk := w.disk.(inodes := w.disk.inodes[ino := j]), pc := pc))
  {
    var next := w.(disk := w.disk.(inodes := w.disk.inodes[ino := j]), pc := pc);
    assert PartialInode(next.disk) == j;
    assert OffsetOk(next, put);
    TailChangeBacks(c, w, next, put);
  }

  lemma WriteBacks(c: Config, w: World, put: Upload, ino: nat, due: bool, choice: Choice)
    requires Backed(c, w) && w.pc == Writing(put, ino, due)
    requires ino < |w.disk.inodes| && PutOk(c, put) && (w.disk.partial.Some? ==> w.disk.partial.value == ino)
    ensures Backed(c, WriteStep(c, w, put, ino, due, choice))
  {
    var next := WriteStep(c, w, put, ino, due, choice);
    if !choice.throws && w.disk.partial.Some? {
      var written := if choice.written < put.count then choice.written else put.count;
      WritingExtendsPrefix(c, PartialInode(w.disk), put.offset, written);
      var j := Written(PartialInode(w.disk), put.offset, c.source[put.offset..put.offset + written]);
      WroteBacks(c, w, put, ino, j, next.pc);
    } else {
      QuietlyBacks(c, w, next);
    }
  }

  /** Syncing the partial makes every prefix it has durable. */
  lemma SyncingBacks(c: Config, w: World, next: World)
    requires Backed(c, w) && !Down(w.pc)
    requires next.chain == w.chain && next.session == w.session
    requires next.disk.partial == w.disk.partial && Framed(next)
    requires w.disk.partial.Some? ==>
               PartialInode(next.disk) == PartialInode(w.disk) || PartialInode(next.disk) == Synced(PartialInode(w.disk))
    requires HandlerOk(c, next)
    ensures Backed(c, next)
  {
  }

  lemma SyncBacks(c: Config, w: World, put: Upload, ino: nat, due: bool, choice: Choice)
    requires Backed(c, w) && w.pc == Syncing(put, ino, due)
    requires ino < |w.disk.inodes| && (w.disk.partial.Some? ==> w.disk.partial.value == ino)
    ensures Backed(c, SyncStep(w, put, ino, due, choice))
  {
    SyncingBacks(c, w, SyncStep(w, put, ino, due, choice));
  }

  lemma ConfirmBacks(c: Config, w: World, put: Upload, ino: nat, due: bool, choice: Choice)
    requires Backed(c, w) && w.pc == Confirming(put, ino, due)
    requires InodesOk(w.disk) && ino < |w.disk.inodes| && (w.disk.partial.Some? ==> w.disk.partial.value == ino)
    requires due ==> Durable(w.disk, ino)
    requires EndsFile(c, put) ==> due
    requires Record(w).size == |c.source|
    ensures Backed(c, ConfirmStep(c, w, put, ino, due, choice))
  {
    var next := ConfirmStep(c, w, put, ino, due, choice);
    if next.pc.VerifySaving? || next.pc.CheckpointSaving? {
      MutateBacks(c, w, Record(next), next.pc);
    } else {
      QuietlyBacks(c, w, next);
    }
  }

  lemma ReceiveBacks(c: Config, w: World, choice: Choice)
    requires Shaped(c, w) && PcOk(c, w) && RecordOk(c, Record(w))
    requires Backed(c, w) && Receiving(w.pc)
    requires CreatesPartial(w, Advance(choice)) ==> Settled(w)
    ensures Backed(c, ReceiveStep(c, w, choice))
  {
    if w.pc.Opening? {
      OpenBacks(c, w, w.pc.put, choice);
    } else if w.pc.Writing? {
      WriteBacks(c, w, w.pc.put, w.pc.ino, w.pc.due, choice);
    } else if w.pc.Syncing? {
      SyncBacks(c, w, w.pc.put, w.pc.ino, w.pc.due, choice);
    } else {
      ConfirmBacks(c, w, w.pc.put, w.pc.ino, w.pc.due, choice);
    }
  }

  // ----- publishing, the tail, checkpointAnd -------------------------------

  lemma NameBacks(c: Config, w: World, put: Upload, ino: nat, suffix: nat, choice: Choice)
    requires Backed(c, w) && w.pc == Naming(put, ino, suffix)
    ensures Backed(c, NameStep(c, w, put, ino, suffix, choice))
  {
    var next := NameStep(c, w, put, ino, suffix, choice);
    if next.pc.Linking? {
      MutateBacks(c, w, Record(next), next.pc);
    } else {
      QuietlyBacks(c, w, next);
    }
  }

  lemma CompleteBacks(c: Config, w: World, put: Upload, path: Path, choice: Choice)
    requires Backed(c, w) && w.pc == Completing(put, path)
    ensures Backed(c, CompleteStep(w, put, choice))
  {
    var next := CompleteStep(w, put, choice);
    if next.pc.CompleteSaving? {
      MutateBacks(c, w, Record(next), next.pc);
    } else {
      QuietlyBacks(c, w, next);
    }
  }

  /** Publishing changes no byte of the partial and confirms nothing new. */
  lemma PublishBacks(c: Config, w: World, choice: Choice)
    requires Shaped(c, w) && Backed(c, w) && Publishing(w.pc)
    ensures Backed(c, PublishStep(c, w, choice))
  {
    if w.pc.Naming? {
      NameBacks(c, w, w.pc.put, w.pc.ino, w.pc.suffix, choice);
    } else if w.pc.Completing? {
      CompleteBacks(c, w, w.pc.put, w.pc.path, choice);
    } else {
      QuietlyBacks(c, w, PublishStep(c, w, choice));
    }
  }

  lemma TailBacks(c: Config, w: World, choice: Choice)
    requires Shaped(c, w) && Backed(c, w)
    requires !Receiving(w.pc) && !Publishing(w.pc) && !Holding(w.pc) && !Down(w.pc)
    ensures Backed(c, TailStep(c, w, choice))
  {
    if w.pc.Mismatched? {
      FailThenBacks(c, w, "hash_mismatch", choice.now, MismatchSaving(Ticket(w)), Clearing);
    } else if w.pc.Failing? {
      FailThenBacks(c, w, "terminal_processing_failed", choice.now, FailSaving(Ticket(w)), Clearing);
    } else {
      QuietlyBacks(c, w, TailStep(c, w, choice));
    }
  }

  lemma HoldActBacks(c: Config, w: World, hold: Hold, choice: Choice)
    requires Backed(c, w) && w.pc == HoldActing(hold)
    ensures Backed(c, HoldActStep(w, hold, choice))
  {
    if hold.Disconnecting? {
      FailThenBacks(c, w, "peer_disconnected", choice.now, HoldActSaving(hold, Ticket(w)), HoldUnlinking);
    } else {
      var next := HoldActStep(w, hold, choice);
      MutateBacks(c, w, Record(next), next.pc);
    }
  }

  lemma HoldConfirmBacks(c: Config, w: World, hold: Hold, choice: Choice)
    requires Backed(c, w) && w.pc == HoldConfirming(hold)
    ensures Backed(c, HoldConfirmStep(w, hold, choice))
  {
    var next := HoldConfirmStep(w, hold, choice);
    if next.pc.HoldSaving? {
      MutateBacks(c, w, Record(next), next.pc);
    } else {
      QuietlyBacks(c, w, next);
    }
  }

  lemma HoldBacks(c: Config, w: World, choice: Choice)
    requires Shaped(c, w) && Backed(c, w) && Holding(w.pc)
    ensures Backed(c, HoldAdvance(w, choice))
  {
    if w.pc.HoldSyncing? {
      SyncingBacks(c, w, HoldAdvance(w, choice));
    } else if w.pc.HoldConfirming? {
      HoldConfirmBacks(c, w, w.pc.hold, choice);
    } else if w.pc.HoldActing? {
      HoldActBacks(c, w, w.pc.hold, choice);
    } else {
      QuietlyBacks(c, w, HoldAdvance(w, choice));
    }
  }

  // ----- control, saves, crashes, recovery ---------------------------------

  /** Unlocked changes never raise an offset; a retry lowers it and drops the partial in the same breath. */
  lemma ControlBacks(c: Config, w: World, change: FileChange, now: int)
    requires Backed(c, w) && Record(w).destinationPath.Some?
    ensures Backed(c, ControlStep(w, change, now))
  {
    if !Down(w.pc) && Unlocked(change) && Applicable(Record(w), change) {
      var g := Changed(Record(w), change, now).value;
      if ControlDisk(w, change).partial.Some? {
        ControlHandlerOk(c, w, g);
        MutateBacks(c, w, g, w.pc);
      } else {
        assert ControlStep(w, change, now).disk.partial.None?;
      }
    }
  }

  /** A snapshot with the same offset leaves a handler where it is. */
  lemma ControlHandlerOk(c: Config, w: World, g: FileRecord)
    requires Backed(c, w)
    requires g.confirmedOffset == Record(w).confirmedOffset
    requires !IsTerminalFile(g.status) ==> !IsTerminalFile(Record(w).status)
    requires w.pc.RecoverSaving? ==> !InFlight(g.status)
    ensures HandlerOk(c, Mutate(w, g))
  {
    assert Record(Mutate(w, g)) == g;
    if Receiving(w.pc) && w.disk.partial.Some? {
      MutateKeepsNoneAhead(w, g, w.pc.put.offset, w.pc.put.offset);
    }
  }

  lemma SiblingBacks(c: Config, w: World)
    requires Backed(c, w) && !Down(w.pc)
    ensures Backed(c, Mutate(w, Record(w)))
  {
    ControlHandlerOk(c, w, Record(w));
    MutateBacks(c, w, Record(w), w.pc);
  }

  lemma SaveBacks(c: Config, w: World, ok: bool)
    requires Backed(c, w) && Valid(w.chain)
    ensures Backed(c, w.(chain := Settle(w.chain, ok)))
  {
    SettleKeepsValid(w.chain, ok);
    assert forall n :: NoneAhead(w.chain, n) ==> NoneAhead(Settle(w.chain, ok), n);
  }

  /** A crash takes exactly what was not durable: every resumable snapshot finds its bytes again. */
  lemma {:induction false} CrashBacks(c: Config, w: World, tails: seq<seq<byte>>)
    requires Backed(c, w) && Shaped(c, w)
    ensures Backed(c, CrashStep(w, tails))
  {
    var next := CrashStep(w, tails);
    assert Record(next) == w.chain.points[w.chain.stored];
    if w.disk.partial.Some? {
      var i, j := PartialInode(w.disk), PartialInode(next.disk);
      assert |j.data| <= |i.data| && i.durable <= j.durable;
      assert forall k :: 0 <= k < i.durable ==> j.data[k] == i.data[k];
    }
  }

  lemma RecoveringBacks(c: Config, w: World, g: FileRecord, next: World)
    requires Backed(c, w) && Down(w.pc)
    requires g == Recovered(Record(w), false) || g == Recovered(Record(w), true)
    requires next == Mutate(w, g).(pc := next.pc) && next.pc.RecoverSaving?
    ensures Backed(c, next)
  {
    assert w.chain.points[|w.chain.points| - 1] == Record(w);
    RecoveryIsIdempotent(Record(w), true, false);
    RecoveryIsIdempotent(Record(w), false, false);
    assert Resumable(g) ==> Resumable(Record(w));
    MutateKeepsDurableLog(c, w, g);
    if w.disk.partial.Some? {
      MutateKeepsNoneAhead(w, g, Record(w).confirmedOffset, Record(w).confirmedOffset);
    }
  }

  lemma RecoverBacks(c: Config, w: World)
    requires Backed(c, w) && Shaped(c, w) && Down(w.pc)
    ensures Backed(c, RecoverAdvance(w))
  {
    var next := RecoverAdvance(w);
    if next.chain != w.chain {
      RecoveringBacks(c, w, Record(next), next);
    } else {
      QuietlyBacks(c, w, next);
    }
  }

  lemma AdvanceBacks(c: Config, w: World, choice: Choice)
    requires Shaped(c, w) && PcOk(c, w) && RecordOk(c, Record(w)) && Backed(c, w)
    requires CreatesPartial(w, Advance(choice)) ==> Settled(w)
    ensures Backed(c, AdvanceStep(c, w, choice))
  {
    if Receiving(w.pc) {
      ReceiveBacks(c, w, choice);
    } else if Publishing(w.pc) {
      PublishBacks(c, w, choice);
    } else if Holding(w.pc) {
      HoldBacks(c, w, choice);
    } else if Down(w.pc) {
      RecoverBacks(c, w);
    } else {
      TailBacks(c, w, choice);
    }
  }

  lemma {:induction false} NextBacks(c: Config, w: World, e: Event)
    requires Safe(c, w) && Backed(c, w)
    requires CreatesPartial(w, e) ==> Settled(w)
    ensures Backed(c, Next(c, w, e))
  {
    RecordIsOk(c, w);
    match e
    case Put(offset, count, claimed) => PutBacks(c, w, offset, count, claimed);
    case Hold(hold) => QuietlyBacks(c, w, HoldStep(w, hold));
    case Advance(choice) => AdvanceBacks(c, w, choice);
    case Control(change, now) => ControlBacks(c, w, change, now);
    case Sibling =>
      if !Down(w.pc) {
        SiblingBacks(c, w);
      }
    case Save(ok) => SaveBacks(c, w, ok);
    case Crash(tails) => CrashBacks(c, w, tails);
  }
}
