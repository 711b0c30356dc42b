/**
 What the upload engine gets done when it is left alone: saves succeed, nothing
 throws, and nothing comes between.  Safety says what never happens; this says
 what does.
 */
module UploadUndisturbed {
  import opened Wrappers
  import opened TransferFile
  import opened SaveChain
  import opened UploadEngine
  import opened Finalization
  import Paths

  /** The store holds what memory holds. */
  predicate UpToDate(chain: Chain<FileRecord>) {
    Valid(chain) && |chain.outcomes| == |chain.points| && chain.stored == |chain.points| - 1
  }

  function Settled(w: World): World {
    w.(chain := Settle(w.chain, true))
  }

  /** The save in front settles, if there is one, and the lock holder goes on. */
  function Stretch(c: Config, w: World, choice: Choice): World {
    if Shaped(c, Settled(w)) then AdvanceStep(c, Settled(w), choice) else w
  }

  function Repeated<T>(step: T -> T, x: T, n: nat): T
    decreases n
  {
    if n == 0 then x else Repeated(step, step(x), n - 1)
  }

  lemma {:induction false} RepeatedAdds<T>(step: T -> T, x: T, m: nat, n: nat)
    ensures Repeated(step, x, m + n) == Repeated(step, Repeated(step, x, m), n)
    decreases m
  {
    if m > 0 {
      RepeatedAdds(step, step(x), m - 1, n);
    }
  }

  function Alone(c: Config, w: World, choice: Choice, n: nat): World {
    Repeated(x => Stretch(c, x, choice), w, n)
  }

  /** A stretch is two events of the machine. */
  lemma StretchIsTwoEvents(c: Config, w: World, choice: Choice)
    requires Shaped(c, w)
    ensures Shaped(c, Next(c, w, Save(true)))
    ensures Stretch(c, w, choice) == Next(c, Next(c, w, Save(true)), Advance(choice))
  {
    SettleKeepsValid(w.chain, true);
  }

  lemma {:induction false} AloneAdds(c: Config, w: World, choice: Choice, m: nat, n: nat)
    ensures Alone(c, w, choice, m + n) == Alone(c, Alone(c, w, choice, m), choice, n)
  {
    RepeatedAdds(x => Stretch(c, x, choice), w, m, n);
  }

  lemma {:induction false} AloneJoins(c: Config, w: World, choice: Choice, m: nat, mid: World, n: nat, total: nat, end: World)
    requires Alone(c, w, choice, m) == mid && Alone(c, mid, choice, n) == end && total == m + n
    ensures Alone(c, w, choice, total) == end
  {
    AloneAdds(c, w, choice, m, n);
  }

  /** Two parts of the way and then resting there. */
  lemma {:induction false} AloneComes(c: Config, w: World, choice: Choice, m: nat, n: nat, total: nat, end: World)
    requires Alone(c, Alone(c, w, choice, m), choice, n) == end && end.pc.Idle? && UpToDate(end.chain) && m + n <= total
    ensures Alone(c, w, choice, total) == end
  {
    AloneAdds(c, w, choice, m, n);
    AloneAdds(c, w, choice, m + n, total - m - n);
    IdleStays(c, end, choice, total - m - n);
  }

  lemma {:induction false} AloneOnce(c: Config, w: World, choice: Choice, n: nat)
    requires n > 0
    ensures Alone(c, w, choice, 0) == w
    ensures Alone(c, w, choice, n) == Alone(c, Stretch(c, w, choice), choice, n - 1)
  {
  }

  lemma {:induction false} IdleStays(c: Config, w: World, choice: Choice, n: nat)
    requires w.pc.Idle? && UpToDate(w.chain)
    ensures Alone(c, w, choice, n) == w
    decreases n
  {
    if n > 0 {
      IdleStays(c, w, choice, n - 1);
    }
  }

  // ----- holding a file ------------------------------------------------------

  /** There are accepted bytes to checkpoint. */
  predicate Behind(w: World) {
    w.session.Some? && w.session.value.accepted > w.session.value.durable
  }

  /** `checkpointAnd` can confirm what was accepted. */
  predicate CanCheckpoint(w: World)
    requires |w.chain.points| > 0
  {
    Behind(w) ==>
      && w.disk.partial.Some? && Record(w).destinationPath.Some? && Record(w).status == FileStatus.Active
      && Record(w).confirmedOffset <= w.session.value.accepted <= Record(w).size
  }

  /** Every byte of the partial is durable when there was something to checkpoint; no byte of any file is changed. */
  predicate BytesKept(before: Disk, after: Disk, synced: bool) {
    && |after.inodes| == |before.inodes| && after.names == before.names
    && (forall i :: 0 <= i < |before.inodes| ==> after.inodes[i].data == before.inodes[i].data)
    && (synced && before.partial.Some? && before.partial.value < |after.inodes| ==>
          after.inodes[before.partial.value].durable == |after.inodes[before.partial.value].data|)
  }

  predicate Rested(c: Config, w: World) {
    Shaped(c, w) && UpToDate(w.chain) && w.pc.Idle? && SafeInteger(Record(w).size)
  }

  /** The record with what the session has accepted confirmed. */
  function Caught(w: World): FileRecord
    requires |w.chain.points| > 0
  {
    if Behind(w) then Record(w).(confirmedOffset := w.session.value.accepted) else Record(w)
  }

  /** At the operation itself: everything accepted is confirmed, saved and durable. */
  predicate AtOperation(c: Config, w: World, at: World, hold: Hold)
    requires |w.chain.points| > 0
  {
    && Shaped(c, at) && UpToDate(at.chain) && at.pc == HoldActing(hold)
    && Record(at) == Caught(w)
    && BytesKept(w.disk, at.disk, Behind(w)) && at.disk.partial == w.disk.partial
    && at.session == if Behind(w) then Some(Session(w.session.value.accepted, w.session.value.accepted)) else w.session
  }

  lemma {:induction false} HoldSyncs(c: Config, w: World, hold: Hold, choice: Choice)
    requires Rested(c, w) && CanCheckpoint(w) && Behind(w) && !choice.throws
    ensures var next := Stretch(c, HoldStep(w, hold), choice);
            && next == w.(disk := next.disk, pc := HoldConfirming(hold)) && Shaped(c, next)
            && BytesKept(w.disk, next.disk, true) && next.disk.partial == w.disk.partial
  {
  }

  lemma {:induction false} HoldConfirms(c: Config, w: World, hold: Hold, choice: Choice)
    requires Shaped(c, w) && UpToDate(w.chain) && w.pc == HoldConfirming(hold) && SafeInteger(Record(w).size)
    requires w.session.Some? && Record(w).status == FileStatus.Active
    requires 0 <= Record(w).confirmedOffset <= w.session.value.accepted <= Record(w).size
    ensures var next := Stretch(c, w, choice);
            next == w.(chain := Persist(w.chain, Record(w).(confirmedOffset := w.session.value.accepted)),
                       pc := HoldSaving(hold, |w.chain.points|))
  {
  }

  lemma {:induction false} HoldNotes(c: Config, w: World, hold: Hold, choice: Choice, f: FileRecord, before: Chain<FileRecord>)
    requires Shaped(c, w) && UpToDate(before) && w.chain == Persist(before, f)
    requires w.pc == HoldSaving(hold, |before.points|) && w.session.Some?
    ensures var next := Stretch(c, w, choice);
            && Shaped(c, next) && UpToDate(next.chain) && Record(next) == f && next.disk == w.disk
            && next.session == Some(Session(w.session.value.accepted, w.session.value.accepted)) && next.pc == HoldActing(hold)
  {
  }

  lemma {:induction false} HoldCheckpoints(c: Config, w: World, hold: Hold, choice: Choice)
    requires Rested(c, w) && CanCheckpoint(w) && 0 <= Record(w).confirmedOffset && !choice.throws
    ensures AtOperation(c, w, Alone(c, HoldStep(w, hold), choice, if Behind(w) then 3 else 0), hold)
  {
    if Behind(w) {
      HoldSyncs(c, w, hold, choice);
      var synced := Stretch(c, HoldStep(w, hold), choice);
      HoldConfirms(c, synced, hold, choice);
      var confirmed := Stretch(c, synced, choice);
      HoldNotes(c, confirmed, hold, choice, Caught(w), w.chain);
      var noted := Stretch(c, confirmed, choice);
      assert Alone(c, noted, choice, 0) == noted;
      assert Alone(c, confirmed, choice, 1) == noted;
      assert Alone(c, synced, choice, 2) == noted;
      assert Alone(c, HoldStep(w, hold), choice, 3) == noted;
    }
  }

  /** What holding does to the record. */
  function HeldRecord(f: FileRecord, hold: Hold): FileRecord {
    match hold
    case Pausing => if f.status in {FileStatus.Queued, FileStatus.Active} then f.(status := FileStatus.Paused) else f
    case Cancelling => if Unfinished(f) then f.(status := FileStatus.Cancelled, errorCode := None) else f
    case Disconnecting =>
      if Unfinished(f) then
        f.(status := FileStatus.Failed, errorCode := Some("peer_disconnected"), finalizingPath := None)
      else f
  }

  /** The operation of a hold and what follows it. */
  predicate Operated(c: Config, at: World, end: World, hold: Hold)
    requires |at.chain.points| > 0
  {
    && Shaped(c, end) && UpToDate(end.chain) && end.pc.Idle? && Record(end) == HeldRecord(Record(at), hold)
    && end.disk.inodes == at.disk.inodes && end.disk.names == at.disk.names
    && (if hold.Pausing? then end.disk.partial == at.disk.partial && end.session == at.session
        else end.disk.partial == None && end.session == None)
  }

  lemma {:induction false} Acts(c: Config, at: World, hold: Hold, choice: Choice)
    requires Shaped(c, at) && UpToDate(at.chain) && at.pc == HoldActing(hold)
    ensures var next, g := Stretch(c, at, choice), HeldRecord(Record(at), hold);
            if hold.Disconnecting? && !Unfinished(Record(at)) then next == at.(pc := HoldUnlinking)
            else next == at.(chain := Persist(at.chain, g), pc := HoldActSaving(hold, |at.chain.points|))
  {
  }

  lemma {:induction false} ActIsSaved(c: Config, w: World, hold: Hold, choice: Choice, g: FileRecord, before: Chain<FileRecord>)
    requires Shaped(c, w) && UpToDate(before) && w.chain == Persist(before, g) && w.pc == HoldActSaving(hold, |before.points|)
    ensures var next := Stretch(c, w, choice);
            && Shaped(c, next) && UpToDate(next.chain) && Record(next) == g
            && next == w.(chain := next.chain, pc := if hold.Pausing? then Idle else HoldUnlinking)
  {
  }

  lemma {:induction false} Forgets(c: Config, w: World, choice: Choice)
    requires Shaped(c, w) && UpToDate(w.chain) && w.pc == HoldUnlinking
    ensures var end := w.(disk := w.disk.(partial := None), session := None, pc := Idle);
            Shaped(c, end) && Alone(c, w, choice, 2) == end
  {
    var unlinked := Stretch(c, w, choice);
    assert unlinked == w.(disk := w.disk.(partial := None), pc := Clearing);
    assert Alone(c, unlinked, choice, 1) == Stretch(c, unlinked, choice);
  }

  lemma {:induction false} Operates(c: Config, at: World, hold: Hold, choice: Choice) returns (m: nat)
    requires Shaped(c, at) && UpToDate(at.chain) && at.pc == HoldActing(hold)
    ensures m <= 4 && Operated(c, at, Alone(c, at, choice, m), hold)
  {
    Acts(c, at, hold, choice);
    var acted := Stretch(c, at, choice);
    if hold.Disconnecting? && !Unfinished(Record(at)) {
      m := 3;
      Forgets(c, acted, choice);
    } else {
      ActIsSaved(c, acted, hold, choice, HeldRecord(Record(at), hold), at.chain);
      var saved := Stretch(c, acted, choice);
      if hold.Pausing? {
        m := 2;
        assert Alone(c, saved, choice, 0) == saved;
        assert Alone(c, acted, choice, 1) == saved;
      } else {
        m := 4;
        Forgets(c, saved, choice);
        assert Alone(c, acted, choice, 3) == Alone(c, saved, choice, 2);
      }
    }
  }

  /** The whole of a hold: what it leaves of the record, the partial, the session and the bytes. */
  predicate HeldAs(c: Config, w: World, end: World, hold: Hold)
    requires |w.chain.points| > 0
  {
    && Shaped(c, end) && UpToDate(end.chain) && end.pc.Idle?
    && Record(end) == HeldRecord(Caught(w), hold)
    && BytesKept(w.disk, end.disk, Behind(w))
    && (if hold.Pausing? then
          end.disk.partial == w.disk.partial
          && end.session == if Behind(w) then Some(Session(w.session.value.accepted, w.session.value.accepted)) else w.session
        else
          end.disk.partial == None && end.session == None)
  }

  lemma {:induction false} HoldRuns(c: Config, w: World, hold: Hold, choice: Choice, n: nat) returns (at: World, end: World)
    requires Rested(c, w) && CanCheckpoint(w) && 0 <= Record(w).confirmedOffset && !choice.throws && n >= 7
    ensures AtOperation(c, w, at, hold) && Operated(c, at, end, hold) && Alone(c, HoldStep(w, hold), choice, n) == end
  {
    HoldCheckpoints(c, w, hold, choice);
    var k := if Behind(w) then 3 else 0;
    var start := HoldStep(w, hold);
    at := Alone(c, start, choice, k);
    var m := Operates(c, at, hold, choice);
    end := Alone(c, at, choice, m);
    AloneComes(c, start, choice, k, m, n, end);
  }

  lemma {:induction false} HeldInTwoParts(c: Config, w: World, at: World, end: World, hold: Hold)
    requires |w.chain.points| > 0 && AtOperation(c, w, at, hold) && Operated(c, at, end, hold)
    ensures HeldAs(c, w, end, hold)
  {
  }

  /**
   A pause, a cancel or a disconnect left alone, from a free lock to a free
   lock.  What was accepted is confirmed, durable and saved; a cancelled file is
   cancelled and a disconnected one failed, without partial or session; a paused
   one keeps both.
   */
  lemma {:induction false} UndisturbedHold(c: Config, w: World, hold: Hold, choice: Choice, n: nat)
    requires Rested(c, w) && CanCheckpoint(w) && 0 <= Record(w).confirmedOffset && !choice.throws && n >= 7
    ensures var end := Alone(c, HoldStep(w, hold), choice, n);
            && HeldAs(c, w, end, hold)
            && (w.session.Some? && w.session.value.durable <= Record(w).confirmedOffset ==>
                  Record(end).confirmedOffset >= w.session.value.accepted)
            && Store(end.chain) == Record(end)
  {
    var at, end := HoldRuns(c, w, hold, choice, n);
    HeldInTwoParts(c, w, at, end, hold);
  }

  /** And exactly then: a hold that cannot confirm what was accepted throws, and changes neither record nor session. */
  lemma {:induction false} HoldGivesUp(c: Config, w: World, hold: Hold, choice: Choice, n: nat)
    requires Rested(c, w) && !CanCheckpoint(w) && !choice.throws && n >= 2
    ensures var end := Alone(c, HoldStep(w, hold), choice, n);
            && end.pc.Idle? && end.chain == w.chain && end.session == w.session
            && end.disk.partial == w.disk.partial && BytesKept(w.disk, end.disk, false)
  {
    var start := HoldStep(w, hold);
    var synced := Stretch(c, start, choice);
    if synced.pc.Idle? {
      IdleStays(c, synced, choice, n - 1);
    } else {
      assert synced == w.(disk := synced.disk, pc := HoldConfirming(hold)) && Shaped(c, synced);
      var confirmed := Stretch(c, synced, choice);
      assert confirmed == synced.(pc := Idle);
      IdleStays(c, confirmed, choice, n - 2);
      assert Alone(c, synced, choice, n - 1) == confirmed;
    }
  }

  // ----- receiving a file ------------------------------------------------------

  /** The upload has come to `n`: the partial holds the first `n` bytes, in memory or confirmed and durable. */
  predicate Ready(c: Config, w: World, n: nat) {
    && Shaped(c, w) && UpToDate(w.chain) && w.pc.Idle? && n <= |c.source| && SafeInteger(|c.source|)
    && Record(w).status == FileStatus.Active && Record(w).size == |c.source| && Record(w).destinationPath.Some?
    && 0 <= Record(w).confirmedOffset <= n
    && (w.session.None? ==> n == Record(w).confirmedOffset)
    && (w.session.Some? ==> w.session.value.accepted == n)
    && (n > 0 ==> w.disk.partial.Some? && w.disk.inodes[w.disk.partial.value].data == c.source[..n])
  }

  /** A chunk the handler takes at `n`. */
  predicate Chunk(c: Config, n: nat, count: nat) {
    count <= c.chunkBytes && n + count <= |c.source| && (count > 0 || c.source == [])
  }

  predicate Calm(choice: Choice, count: nat) {
    !choice.throws && choice.written >= count
  }

  /** Between the two ends of a PUT: the record and all the rest of the disk stay. */
  predicate Underway(c: Config, w: World, next: World)
    requires |w.chain.points| > 0
  {
    && Shaped(c, next) && next.chain == w.chain && next.disk.names == w.disk.names
    && next.session.Some? && (w.session.Some? ==> next.session == w.session)
    && (w.session.None? ==> next.session.value.durable == Record(w).confirmedOffset)
  }

  /**
   A PUT is taken exactly at the offset reached, which is the session's or, if
   that is ahead or there is no session, the queue's; for an active file with
   somewhere to go; within the file and the chunk size; and with bytes in it,
   unless the file is empty.  Nothing but the session changes.
   */
  lemma {:induction false} PutIsTakenExactly(c: Config, w: World, offset: nat, count: nat, claimed: Option<Digest>)
    requires |w.chain.points| > 0 && w.pc.Idle? && Record(w).confirmedOffset >= 0
    ensures var f, next := Record(w), PutStep(c, w, offset, count, claimed);
            && (next.pc == Opening(Upload(offset, count, f.sha256, claimed)) <==>
                  && offset == (if w.session.Some? then Max(f.confirmedOffset, w.session.value.accepted) else f.confirmedOffset)
                  && f.status == FileStatus.Active && f.destinationPath != None
                  && count <= c.chunkBytes && offset + count <= f.size && (count > 0 || f.size <= 0))
            && (next.pc.Opening? || next.pc.Idle?) && next.chain == w.chain && next.disk == w.disk && next.session.Some?
            && next.session.value.accepted
               == (if w.session.Some? then Max(f.confirmedOffset, w.session.value.accepted) else f.confirmedOffset)
            && next.session.value.durable
               == (if w.session.Some? && f.confirmedOffset <= w.session.value.accepted then w.session.value.durable
                   else f.confirmedOffset)
  {
  }

  lemma {:induction false} PutIsTaken(c: Config, w: World, n: nat, count: nat, claimed: Option<Digest>)
    requires Ready(c, w, n) && Chunk(c, n, count)
    ensures var next := PutStep(c, w, n, count, claimed);
            && Underway(c, w, next) && next.disk == w.disk
            && next.pc == Opening(Upload(n, count, Record(w).sha256, claimed))
  {
  }

  lemma {:induction false} PutIsOpened(c: Config, w: World, put: Upload, choice: Choice)
    requires Shaped(c, w) && UpToDate(w.chain) && w.pc == Opening(put) && !choice.throws
    requires put.offset + put.count <= |c.source|
    requires put.offset > 0 ==> w.disk.partial.Some? && w.disk.inodes[w.disk.partial.value].data == c.source[..put.offset]
    ensures var next := Stretch(c, w, choice);
            && Shaped(c, next) && next == w.(disk := next.disk, pc := next.pc) && next.disk.names == w.disk.names
            && next.disk.partial.Some? && next.pc == Writing(put, next.disk.partial.value, Due(c, w, put, choice.timeDue))
            && next.disk.inodes[next.disk.partial.value].data == c.source[..put.offset]
  {
  }

  lemma {:induction false} PutIsWritten(c: Config, w: World, put: Upload, ino: nat, due: bool, choice: Choice)
    requires Shaped(c, w) && UpToDate(w.chain) && w.pc == Writing(put, ino, due) && Calm(choice, put.count)
    requires w.disk.partial == Some(ino) && w.disk.inodes[ino].data == c.source[..put.offset]
    ensures var next := Stretch(c, w, choice);
            && Shaped(c, next) && next == w.(disk := next.disk, pc := Syncing(put, ino, due))
            && next.disk == w.disk.(inodes := next.disk.inodes) && |next.disk.inodes| == |w.disk.inodes|
            && next.disk.inodes[ino].data == c.source[..put.offset + put.count]
  {
    var bytes := c.source[put.offset..put.offset + put.count];
    assert WriteAt(c.source[..put.offset], put.offset, bytes) == c.source[..put.offset + put.count] by {
      assert c.source[..put.offset] + bytes == c.source[..put.offset + put.count];
    }
  }

  lemma {:induction false} PutIsSynced(c: Config, w: World, put: Upload, ino: nat, due: bool, choice: Choice)
    requires Shaped(c, w) && UpToDate(w.chain) && w.pc == Syncing(put, ino, due) && !choice.throws
    requires w.disk.partial == Some(ino)
    ensures var next := Stretch(c, w, choice);
            && Shaped(c, next) && next == w.(disk := next.disk, pc := Confirming(put, ino, due))
            && next.disk == w.disk.(inodes := next.disk.inodes) && |next.disk.inodes| == |w.disk.inodes|
            && next.disk.inodes[ino].data == w.disk.inodes[ino].data
            && (due ==> next.disk.inodes[ino].durable == |next.disk.inodes[ino].data|)
  {
  }

  lemma {:induction false} PutIsConfirmed(c: Config, w: World, put: Upload, ino: nat, due: bool, choice: Choice)
    requires Shaped(c, w) && UpToDate(w.chain) && w.pc == Confirming(put, ino, due) && !choice.throws && w.session.Some?
    requires Record(w).status == FileStatus.Active && SafeInteger(|c.source|) && Record(w).size == |c.source|
    requires 0 <= Record(w).confirmedOffset <= put.offset && put.offset + put.count < |c.source|
    ensures var end, reached := Alone(c, w, choice, if due then 2 else 1), put.offset + put.count;
            && Shaped(c, end) && UpToDate(end.chain) && end.pc.Idle? && end.disk == w.disk
            && Record(end) == (if due then Record(w).(confirmedOffset := reached) else Record(w))
            && end.session == Some(Session(reached, if due then reached else w.session.value.durable))
  {
    var next := Stretch(c, w, choice);
    if due {
      assert next == w.(chain := Persist(w.chain, Record(w).(confirmedOffset := put.offset + put.count)),
                        pc := CheckpointSaving(put, |w.chain.points|));
      CheckpointIsNoted(c, next, put, choice, w.chain);
      assert Alone(c, next, choice, 1) == Stretch(c, next, choice);
    }
  }

  lemma {:induction false} CheckpointIsNoted(c: Config, w: World, put: Upload, choice: Choice, before: Chain<FileRecord>)
    requires Shaped(c, w) && UpToDate(before) && |w.chain.points| == |before.points| + 1 && w.chain == Persist(before, Record(w))
    requires w.pc == CheckpointSaving(put, |before.points|)
    ensures var next, reached := Stretch(c, w, choice), put.offset + put.count;
            && Shaped(c, next) && UpToDate(next.chain) && Record(next) == Record(w) && next.disk == w.disk && next.pc.Idle?
            && next.session == Some(Session(reached, reached))
  {
  }

  /** A PUT up to its confirmation: the bytes are in, and on the disk if a checkpoint is due. */
  predicate AtConfirming(c: Config, w: World, at: World, put: Upload, due: bool)
    requires |w.chain.points| > 0
  {
    && Underway(c, w, at) && at.disk.partial.Some? && at.pc == Confirming(put, at.disk.partial.value, due)
    && put.offset + put.count <= |c.source|
    && at.disk.inodes[at.disk.partial.value].data == c.source[..put.offset + put.count]
    && (due ==> at.disk.inodes[at.disk.partial.value].durable == put.offset + put.count)
  }

  /** A checkpoint is made at the end of the file, after enough bytes, or after enough time. */
  predicate CheckpointDue(c: Config, w: World, n: nat, count: nat, timeDue: bool)
    requires |w.chain.points| > 0 && Record(w).confirmedOffset >= 0
  {
    var durable := if w.session.Some? then w.session.value.durable else Record(w).confirmedOffset;
    n + count == |c.source| || n + count - durable >= c.checkpointBytes || timeDue
  }

  lemma {:induction false} PutIsReceived(c: Config, w: World, n: nat, count: nat, claimed: Option<Digest>, choice: Choice)
    requires Ready(c, w, n) && Chunk(c, n, count) && Calm(choice, count)
    ensures AtConfirming(c, w, Alone(c, PutStep(c, w, n, count, claimed), choice, 3), Upload(n, count, Record(w).sha256, claimed),
                         CheckpointDue(c, w, n, count, choice.timeDue))
  {
    var put, due := Upload(n, count, Record(w).sha256, claimed), CheckpointDue(c, w, n, count, choice.timeDue);
    PutIsTaken(c, w, n, count, claimed);
    var taken := PutStep(c, w, n, count, claimed);
    PutIsOpened(c, taken, put, choice);
    var opening := Stretch(c, taken, choice);
    var ino := opening.disk.partial.value;
    PutIsWritten(c, opening, put, ino, due, choice);
    var written := Stretch(c, opening, choice);
    PutIsSynced(c, written, put, ino, due, choice);
    var synced := Stretch(c, written, choice);
    assert Alone(c, synced, choice, 0) == synced;
    assert Alone(c, written, choice, 1) == synced;
    assert Alone(c, opening, choice, 2) == synced;
  }

  /** A chunk that does not end the file: it is in, confirmed and durable if a checkpoint was due, and the upload is ready for the next. */
  lemma {:induction false} ChunkIsReceived(c: Config, w: World, n: nat, count: nat, claimed: Option<Digest>, choice: Choice, total: nat)
    requires Ready(c, w, n) && Chunk(c, n, count) && n + count < |c.source| && Calm(choice, count) && total >= 5
    ensures var end, due := Alone(c, PutStep(c, w, n, count, claimed), choice, total), CheckpointDue(c, w, n, count, choice.timeDue);
            && Ready(c, end, n + count) && end.disk.names == w.disk.names
            && Record(end) == (if due then Record(w).(confirmedOffset := n + count) else Record(w))
            && (due ==> end.disk.inodes[end.disk.partial.value].durable == n + count)
  {
    PutIsReceived(c, w, n, count, claimed, choice);
    var put, due := Upload(n, count, Record(w).sha256, claimed), CheckpointDue(c, w, n, count, choice.timeDue);
    var start := PutStep(c, w, n, count, claimed);
    var at := Alone(c, start, choice, 3);
    PutIsConfirmed(c, at, put, at.disk.partial.value, due, choice);
    AloneComes(c, start, choice, 3, if due then 2 else 1, total, Alone(c, at, choice, if due then 2 else 1));
  }

  // ----- publishing it -----------------------------------------------------------

  /** The digest the file was offered with, or the one claimed when it was not known then, is the source's. */
  predicate GoodDigest(c: Config, offered: Digest, claimed: Option<Digest>) {
    if offered == Placeholder then claimed == Some(Of(c.source))
    else offered == Of(c.source) && (claimed == None || claimed == Some(Of(c.source)))
  }

  /** The file is verified: every byte in and durable, the record not yet named. */
  predicate AtNaming(c: Config, w: World, at: World, put: Upload)
    requires |w.chain.points| > 0
  {
    && Shaped(c, at) && UpToDate(at.chain) && at.disk == w.disk && at.disk.partial.Some?
    && at.pc == Naming(put, at.disk.partial.value, 0)
    && Record(at).status == FileStatus.Verifying
    && Record(at) == Record(w).(status := FileStatus.Verifying, confirmedOffset := |c.source|, timing := Record(at).timing)
    && at.session == Some(Session(|c.source|, |c.source|))
  }

  lemma {:induction false} VerificationBegins(c: Config, w: World, put: Upload, ino: nat, choice: Choice)
    requires Shaped(c, w) && UpToDate(w.chain) && w.pc == Confirming(put, ino, true) && !choice.throws
    requires Record(w).status == FileStatus.Active && SafeInteger(|c.source|) && Record(w).size == |c.source|
    requires 0 <= Record(w).confirmedOffset <= |c.source| && put.offset + put.count == |c.source| && !DigestRefused(put)
    ensures var next := Stretch(c, w, choice);
            && |next.chain.points| == |w.chain.points| + 1 && next.chain == Persist(w.chain, Record(next))
            && Record(next) == Record(w).(status := FileStatus.Verifying, confirmedOffset := |c.source|, timing := Record(next).timing)
            && next == w.(chain := next.chain, pc := VerifySaving(put, ino, |w.chain.points|))
  {
  }

  lemma {:induction false} VerificationIsNoted(c: Config, w: World, put: Upload, ino: nat, choice: Choice, before: Chain<FileRecord>)
    requires Shaped(c, w) && UpToDate(before) && |w.chain.points| == |before.points| + 1 && w.chain == Persist(before, Record(w))
    requires w.pc == VerifySaving(put, ino, |before.points|)
    ensures var next, reached := Stretch(c, w, choice), put.offset + put.count;
            && Shaped(c, next) && UpToDate(next.chain) && Record(next) == Record(w)
            && next == w.(chain := next.chain, session := Some(Session(reached, reached)), pc := Hashing(put, ino))
  {
  }

  lemma {:induction false} FileIsVerified(c: Config, w: World, put: Upload, ino: nat, choice: Choice)
    requires Shaped(c, w) && UpToDate(w.chain) && w.pc == Confirming(put, ino, true) && !choice.throws
    requires Record(w).status == FileStatus.Active && SafeInteger(|c.source|) && Record(w).size == |c.source|
    requires 0 <= Record(w).confirmedOffset <= |c.source| && put.offset + put.count == |c.source|
    requires GoodDigest(c, put.offered, put.claimed)
    requires w.disk.partial == Some(ino) && w.disk.inodes[ino].data == c.source
    ensures AtNaming(c, w, Alone(c, w, choice, 3), put)
  {
    VerificationBegins(c, w, put, ino, choice);
    var begun := Stretch(c, w, choice);
    VerificationIsNoted(c, begun, put, ino, choice, w.chain);
    var noted := Stretch(c, begun, choice);
    var hashed := Stretch(c, noted, choice);
    assert hashed == noted.(pc := Naming(put, ino, 0));
    AloneOnce(c, w, choice, 3);
    AloneOnce(c, begun, choice, 2);
    AloneOnce(c, noted, choice, 1);
    AloneOnce(c, hashed, choice, 1);
  }

  lemma {:induction false} NameIsAnnounced(c: Config, w: World, choice: Choice)
    requires Shaped(c, w) && UpToDate(w.chain) && Publishable(w) && w.pc.Naming? && w.pc.suffix < TRIES
    ensures var next := Stretch(c, w, choice);
            && next == NameStep(c, w, w.pc.put, w.pc.ino, w.pc.suffix, choice)
            && next == w.(chain := next.chain, pc := Linking(w.pc.put, w.pc.ino, w.pc.suffix, |w.chain.points|))
            && |next.chain.points| == |w.chain.points| + 1 && next.chain == Persist(w.chain, Record(next)) && Shaped(c, next)
  {
  }

  lemma {:induction false} LinkIsTried(c: Config, w: World, choice: Choice, before: Chain<FileRecord>)
    requires Shaped(c, w) && UpToDate(before) && |w.chain.points| == |before.points| + 1 && w.chain == Persist(before, Record(w))
    requires w.pc.Linking? && w.disk.partial.Some?
    ensures var next := Stretch(c, w, choice);
            && next == LinkStep(c, Settled(w), w.pc.put, w.pc.ino, w.pc.suffix, w.pc.ticket, choice)
            && Shaped(c, next) && UpToDate(next.chain)
  {
  }

  lemma {:induction false} RoundIsTwoStretches(c: Config, w: World, choice: Choice)
    requires Shaped(c, w) && UpToDate(w.chain) && Publishable(w) && w.pc.Naming? && !choice.throws && w.pc.suffix < TRIES
    ensures Alone(c, w, choice, 2) == Round(c, w, choice)
    ensures Shaped(c, Round(c, w, choice)) && UpToDate(Round(c, w, choice).chain)
  {
    NameIsAnnounced(c, w, choice);
    var named := Stretch(c, w, choice);
    LinkIsTried(c, named, choice, w.chain);
    AloneOnce(c, w, choice, 2);
    AloneOnce(c, named, choice, 1);
    AloneOnce(c, Stretch(c, named, choice), choice, 1);
  }

  lemma {:induction false} RoundsGoOn(c: Config, w: World, choice: Choice)
    requires Publishable(w) && w.pc.Naming? && !choice.throws && w.pc.suffix < TRIES
    ensures var next := Round(c, w, choice);
            && (next.pc.Naming? ==> Publishable(next) && next.pc.suffix == w.pc.suffix + 1
                                    && Rounds(c, w, choice) == Rounds(c, next, choice))
            && (!next.pc.Naming? ==> Rounds(c, w, choice) == next)
            && (next.pc.Naming? <==> Paths.Candidate(c.destination, w.pc.suffix) in w.disk.names)
            && (next.pc.Naming? ==> next.disk == w.disk)
  {
    OneRound(c, w, choice);
  }

  /** The engine comes to `end` in twice as many stretches as there are names to try. */
  predicate ComesTo(c: Config, w: World, choice: Choice, n: nat, end: World) {
    Alone(c, w, choice, n) == end && Shaped(c, end) && UpToDate(end.chain)
  }

  lemma {:induction false} ComesOn(c: Config, w: World, choice: Choice, m: nat, next: World, n: nat, end: World)
    requires ComesTo(c, w, choice, m, next) && ComesTo(c, next, choice, n, end)
    ensures ComesTo(c, w, choice, m + n, end)
  {
    AloneAdds(c, w, choice, m, n);
  }

  predicate AtName(c: Config, w: World, suffix: nat) {
    Shaped(c, w) && UpToDate(w.chain) && Publishable(w) && w.pc.Naming? && w.pc.suffix == suffix
  }

  /** One name is tried: it is taken and the next comes up, or the rounds are over. */
  lemma {:induction false} OneNameMore(c: Config, w: World, choice: Choice, suffix: nat) returns (next: World)
    requires AtName(c, w, suffix) && !choice.throws && suffix < TRIES
    ensures ComesTo(c, w, choice, 2, next)
    ensures if Paths.Candidate(c.destination, suffix) in w.disk.names then
              AtName(c, next, suffix + 1) && next.disk == w.disk && Rounds(c, w, choice) == Rounds(c, next, choice)
            else
              Rounds(c, w, choice) == next
  {
    RoundIsTwoStretches(c, w, choice);
    RoundsGoOn(c, w, choice);
    next := Round(c, w, choice);
  }

  /** The rounds from `suffix` on come to the end of the loop in `n` stretches. */
  predicate RoundsCome(c: Config, w: World, choice: Choice, suffix: nat, n: nat, end: World) {
    && ComesTo(c, w, choice, n, end)
    && AtName(c, w, suffix) && !choice.throws && suffix <= TRIES && end == Rounds(c, w, choice)
  }

  lemma {:induction false} LastRound(c: Config, w: World, choice: Choice, k: nat) returns (end: World)
    requires AtName(c, w, k) && !choice.throws && k < TRIES && Paths.Candidate(c.destination, k) !in w.disk.names
    ensures RoundsCome(c, w, choice, k, 2, end)
  {
    end := OneNameMore(c, w, choice, k);
  }

  lemma {:induction false} EarlierRound(c: Config, w: World, choice: Choice, suffix: nat, next: World, n: nat, end: World)
    requires AtName(c, w, suffix) && !choice.throws && suffix < TRIES
    requires ComesTo(c, w, choice, 2, next) && RoundsCome(c, next, choice, suffix + 1, n, end)
    requires Rounds(c, w, choice) == end
    ensures RoundsCome(c, w, choice, suffix, n + 2, end)
  {
    ComesOn(c, w, choice, 2, next, n, end);
  }

  lemma {:induction false} RoundsAlone(c: Config, w: World, choice: Choice, suffix: nat, k: nat, names: map<Path, nat>)
    returns (end: World, n: nat)
    requires AtName(c, w, suffix) && !choice.throws && suffix <= k < TRIES
    requires w.disk.names == names && FirstFree(names, c.destination, k)
    ensures n == 2 * (k - suffix) + 2 && RoundsCome(c, w, choice, suffix, n, end)
    decreases k - suffix
  {
    if suffix < k {
      var next := OneNameMore(c, w, choice, suffix);
      var m;
      end, m := RoundsAlone(c, next, choice, suffix + 1, k, names);
      n := m + 2;
      EarlierRound(c, w, choice, suffix, next, m, end);
    } else {
      n := 2;
      end := LastRound(c, w, choice, k);
    }
  }

  /** The end of an upload: completed under `path`, which links the sender's durable bytes; no partial, no session. */
  predicate Finished(c: Config, f: FileRecord, names: map<Path, nat>, end: World, path: Path) {
    && Shaped(c, end) && UpToDate(end.chain) && end.pc.Idle?
    && Record(end) == f.(status := FileStatus.Completed, confirmedOffset := |c.source|, sha256 := Of(c.source),
                         destinationPath := Some(path), finalizingPath := None, errorCode := None, timing := Record(end).timing)
    && end.disk.partial == None && end.session == None
    && path in end.disk.names && end.disk.names == names[path := end.disk.names[path]]
    && end.disk.inodes[end.disk.names[path]] == Inode(c.source, |c.source|)
  }

  /** Linked, and about to complete. */
  predicate AtCompleting(c: Config, f: FileRecord, names: map<Path, nat>, w: World, put: Upload, path: Path) {
    && Shaped(c, w) && UpToDate(w.chain) && w.pc == Completing(put, path)
    && SameUpload(Record(w), f) && Record(w).status.Finalizing? && Record(w).finalizingPath == Some(path)
    && f.confirmedOffset == f.size == |c.source| && f.sha256 == put.offered && GoodDigest(c, put.offered, put.claimed)
    && path in w.disk.names && w.disk.names == names[path := w.disk.names[path]]
    && w.disk.inodes[w.disk.names[path]] == Inode(c.source, |c.source|)
  }

  lemma {:induction false} CompletesTheRecord(c: Config, f: FileRecord, names: map<Path, nat>, w: World, put: Upload, path: Path, choice: Choice)
    requires AtCompleting(c, f, names, w, put, path)
    ensures var next := Stretch(c, w, choice);
            && |next.chain.points| == |w.chain.points| + 1 && next.chain == Persist(w.chain, Record(next))
            && next == w.(chain := next.chain, pc := CompleteSaving(|w.chain.points|)) && Shaped(c, next)
            && Record(next) == f.(status := FileStatus.Completed, sha256 := Of(c.source), destinationPath := Some(path),
                                  finalizingPath := None, errorCode := None, timing := Record(next).timing)
  {
  }

  lemma {:induction false} CompletionIsSaved(c: Config, w: World, choice: Choice, before: Chain<FileRecord>)
    requires Shaped(c, w) && UpToDate(before) && |w.chain.points| == |before.points| + 1 && w.chain == Persist(before, Record(w))
    requires w.pc == CompleteSaving(|before.points|)
    ensures var next := Stretch(c, w, choice);
            && next == w.(chain := next.chain, disk := w.disk.(partial := None), pc := Clearing)
            && Shaped(c, next) && UpToDate(next.chain) && Record(next) == Record(w)
  {
  }

  lemma {:induction false} Clears(c: Config, w: World, choice: Choice)
    requires Shaped(c, w) && UpToDate(w.chain) && w.pc == Clearing
    ensures Stretch(c, w, choice) == w.(session := None, pc := Idle)
  {
  }

  lemma {:induction false} Completes(c: Config, f: FileRecord, names: map<Path, nat>, w: World, put: Upload, path: Path, choice: Choice)
    returns (end: World)
    requires AtCompleting(c, f, names, w, put, path)
    ensures Finished(c, f, names, end, path) && Alone(c, w, choice, 3) == end
  {
    CompletesTheRecord(c, f, names, w, put, path, choice);
    var completed := Stretch(c, w, choice);
    CompletionIsSaved(c, completed, choice, w.chain);
    var saved := Stretch(c, completed, choice);
    Clears(c, saved, choice);
    end := Stretch(c, saved, choice);
    AloneOnce(c, w, choice, 3);
    AloneOnce(c, completed, choice, 2);
    AloneOnce(c, saved, choice, 1);
    AloneOnce(c, end, choice, 1);
  }

  /** The verified file, about to be named. */
  predicate Publishing(c: Config, w: World, put: Upload) {
    && AtName(c, w, 0) && w.pc == Naming(put, w.disk.partial.value, 0)
    && Record(w).confirmedOffset == Record(w).size == |c.source| && Record(w).sha256 == put.offered
    && GoodDigest(c, put.offered, put.claimed)
    && w.disk.inodes[w.disk.partial.value] == Inode(c.source, |c.source|)
  }

  lemma {:induction false} LinkedIsAtCompleting(c: Config, w: World, put: Upload, choice: Choice, k: nat, linked: World)
    requires Publishing(c, w, put) && !choice.throws && k < TRIES
    requires FirstFree(w.disk.names, c.destination, k) && linked == Rounds(c, w, choice)
    requires Shaped(c, linked) && UpToDate(linked.chain)
    ensures AtCompleting(c, Record(w), w.disk.names, linked, put, Paths.Candidate(c.destination, k))
  {
    RoundsLinkTheFirstFreeName(c, w, choice, k);
  }

  lemma {:induction false} Links(c: Config, w: World, put: Upload, choice: Choice, k: nat) returns (linked: World, m: nat)
    requires Publishing(c, w, put) && !choice.throws && k < TRIES
    requires FirstFree(w.disk.names, c.destination, k)
    ensures AtCompleting(c, Record(w), w.disk.names, linked, put, Paths.Candidate(c.destination, k))
    ensures m <= 2 * TRIES && Alone(c, w, choice, m) == linked
  {
    linked, m := RoundsAlone(c, w, choice, 0, k, w.disk.names);
    LinkedIsAtCompleting(c, w, put, choice, k, linked);
  }

  lemma {:induction false} Publishes(c: Config, w: World, put: Upload, choice: Choice, k: nat) returns (end: World, n: nat)
    requires Publishing(c, w, put) && !choice.throws && k < TRIES
    requires FirstFree(w.disk.names, c.destination, k)
    ensures n <= 2 * TRIES + 3 && Alone(c, w, choice, n) == end
    ensures Finished(c, Record(w), w.disk.names, end, Paths.Candidate(c.destination, k))
  {
    var linked, m := Links(c, w, put, choice, k);
    end := Completes(c, Record(w), w.disk.names, linked, put, Paths.Candidate(c.destination, k), choice);
    n := m + 3;
    AloneJoins(c, w, choice, m, linked, 3, n, end);
  }

  /** A chunk that ends the file: it is verified, published under the first free name, and completed. */
  lemma {:induction false} LastChunkIsReceived(c: Config, w: World, n: nat, count: nat, claimed: Option<Digest>, choice: Choice, k: nat,
                                               total: nat)
    requires Ready(c, w, n) && Chunk(c, n, count) && n + count == |c.source| && Calm(choice, count) && total >= 2 * TRIES + 9
    requires GoodDigest(c, Record(w).sha256, claimed) && k < TRIES && FirstFree(w.disk.names, c.destination, k)
    ensures Finished(c, Record(w), w.disk.names, Alone(c, PutStep(c, w, n, count, claimed), choice, total),
                     Paths.Candidate(c.destination, k))
  {
    var put := Upload(n, count, Record(w).sha256, claimed);
    var start := PutStep(c, w, n, count, claimed);
    PutIsReceived(c, w, n, count, claimed, choice);
    var at := Alone(c, start, choice, 3);
    FileIsVerified(c, at, put, at.disk.partial.value, choice);
    var verified := Alone(c, at, choice, 3);
    var end, m := Publishes(c, verified, put, choice, k);
    AloneAdds(c, start, choice, 3, 3);
    AloneComes(c, start, choice, 6, m, total, end);
  }

  // ----- a whole transfer ----------------------------------------------------------

  /** The chunks follow one another from `n` and the last of them ends the file. */
  predicate Splits(c: Config, n: nat, counts: seq<nat>)
    decreases |counts|
  {
    && counts != [] && Chunk(c, n, counts[0])
    && if |counts| == 1 then n + counts[0] == |c.source|
       else n + counts[0] < |c.source| && Splits(c, n + counts[0], counts[1..])
  }

  /** One PUT after the other, each left alone until the lock is free. */
  function Sent(c: Config, w: World, n: nat, counts: seq<nat>, claimed: Option<Digest>, choice: Choice, total: nat): World
    decreases |counts|
  {
    if counts == [] || |w.chain.points| == 0 then w
    else Sent(c, Alone(c, PutStep(c, w, n, counts[0], claimed), choice, total), n + counts[0], counts[1..], claimed, choice, total)
  }

  lemma {:induction false} ChunkIsSent(c: Config, w: World, n: nat, counts: seq<nat>, claimed: Option<Digest>, choice: Choice, total: nat)
    returns (next: World)
    requires Ready(c, w, n) && Splits(c, n, counts) && |counts| > 1 && Calm(choice, c.chunkBytes) && total >= 5
    ensures Ready(c, next, n + counts[0]) && next.disk.names == w.disk.names && Splits(c, n + counts[0], counts[1..])
    ensures Record(next) == Record(w).(confirmedOffset := Record(next).confirmedOffset)
    ensures Sent(c, w, n, counts, claimed, choice, total) == Sent(c, next, n + counts[0], counts[1..], claimed, choice, total)
  {
    ChunkIsReceived(c, w, n, counts[0], claimed, choice, total);
    next := Alone(c, PutStep(c, w, n, counts[0], claimed), choice, total);
  }

  lemma {:induction false} LastChunkIsSent(c: Config, w: World, n: nat, counts: seq<nat>, claimed: Option<Digest>, choice: Choice,
                                           k: nat, total: nat)
    requires Ready(c, w, n) && Splits(c, n, counts) && |counts| == 1 && Calm(choice, c.chunkBytes) && total >= 2 * TRIES + 9
    requires GoodDigest(c, Record(w).sha256, claimed) && k < TRIES && FirstFree(w.disk.names, c.destination, k)
    ensures Finished(c, Record(w), w.disk.names, Sent(c, w, n, counts, claimed, choice, total), Paths.Candidate(c.destination, k))
  {
    LastChunkIsReceived(c, w, n, counts[0], claimed, choice, k, total);
    var end := Alone(c, PutStep(c, w, n, counts[0], claimed), choice, total);
    assert counts[1..] == [];
    assert Sent(c, end, n + counts[0], [], claimed, choice, total) == end;
  }

  /** Neither the offset nor the status a record started from shows in how it ends. */
  lemma {:induction false} SameEnd(c: Config, f: FileRecord, g: FileRecord, names: map<Path, nat>, end: World, path: Path)
    requires Finished(c, g, names, end, path) && g == f.(confirmedOffset := g.confirmedOffset)
    ensures Finished(c, f, names, end, path)
  {
  }

  /** From wherever an upload has come to, the rest of it gets through. */
  lemma {:induction false} UndisturbedUpload(c: Config, w: World, n: nat, counts: seq<nat>, claimed: Option<Digest>, choice: Choice,
                                             k: nat, names: map<Path, nat>, total: nat, end: World)
    requires Ready(c, w, n) && Splits(c, n, counts) && Calm(choice, c.chunkBytes) && total >= 2 * TRIES + 9
    requires GoodDigest(c, Record(w).sha256, claimed) && w.disk.names == names
    requires k < TRIES && FirstFree(names, c.destination, k) && end == Sent(c, w, n, counts, claimed, choice, total)
    ensures Finished(c, Record(w), names, end, Paths.Candidate(c.destination, k))
    decreases |counts|
  {
    if |counts| == 1 {
      LastChunkIsSent(c, w, n, counts, claimed, choice, k, total);
    } else {
      assert |counts| > 1;
      var next := ChunkIsSent(c, w, n, counts, claimed, choice, total);
      UndisturbedUpload(c, next, n + counts[0], counts[1..], claimed, choice, k, names, total, end);
      SameEnd(c, Record(w), Record(next), names, end, Paths.Candidate(c.destination, k));
    }
  }

  lemma {:induction false} ClaimIsReady(c: Config, w: World, now: int)
    requires Initial(c, w)
    ensures var claimed := Settled(ControlStep(w, Claim, now));
            && Ready(c, claimed, 0) && claimed.disk == w.disk
            && Record(claimed) == Record(w).(status := FileStatus.Active)
  {
  }

  /**
   Every transfer left alone gets through.  Offered, claimed and sent in chunks
   of whatever size the laptop takes, the file ends completed, in memory and in
   the store, under the first free name beside the one asked for, which links
   exactly the sender's bytes, durably; no other name has changed, and neither
   partial nor session is left.
   */
  lemma {:induction false} UndisturbedTransfer(c: Config, w: World, now: int, counts: seq<nat>, claimed: Option<Digest>, choice: Choice,
                                               k: nat, path: Path, total: nat)
    requires Initial(c, w) && Splits(c, 0, counts) && GoodDigest(c, Record(w).sha256, claimed)
    requires Calm(choice, c.chunkBytes) && total >= 2 * TRIES + 9
    requires k < 10_000 && Paths.NamedBeside(c.destination, k, path) && path !in c.before.names
    requires forall m: nat, p :: m < k && Paths.NamedBeside(c.destination, m, p) ==> p in c.before.names
    ensures var end := Sent(c, Settled(ControlStep(w, Claim, now)), 0, counts, claimed, choice, total);
            && end.chain.stored < |end.chain.points| && Store(end.chain) == Record(end)
            && Record(end).status == FileStatus.Completed && Record(end).destinationPath == Some(path)
            && Record(end).sha256 == Of(c.source) && end.pc.Idle? && end.session == None && end.disk.partial == None
            && path in end.disk.names && end.disk.names == c.before.names[path := end.disk.names[path]]
            && end.disk.names[path] < |end.disk.inodes|
            && end.disk.inodes[end.disk.names[path]] == Inode(c.source, |c.source|)
  {
    Paths.CandidateExactly(c.destination, k, path);
    forall m | 0 <= m < k
      ensures Paths.Candidate(c.destination, m) in c.before.names
    {
      Paths.CandidateExactly(c.destination, m, Paths.Candidate(c.destination, m));
    }
    ClaimIsReady(c, w, now);
    UndisturbedUpload(c, Settled(ControlStep(w, Claim, now)), 0, counts, claimed, choice, k, c.before.names, total,
                      Sent(c, Settled(ControlStep(w, Claim, now)), 0, counts, claimed, choice, total));
  }

  // ----- how an upload fails ---------------------------------------------------------

  /** Failed for a reason, with neither partial nor session; memory and store agree. */
  predicate FailedWith(c: Config, f: FileRecord, end: World, code: string) {
    && Shaped(c, end) && UpToDate(end.chain) && end.pc.Idle? && end.session == None
    && Record(end) == f.(status := FileStatus.Failed, errorCode := Some(code), finalizingPath := None)
  }

  /** A failure is saved, and the session forgotten. */
  lemma {:induction false} FailureIsSaved(c: Config, w: World, choice: Choice, f: FileRecord, code: string, before: Chain<FileRecord>)
    requires Shaped(c, w) && UpToDate(before)
    requires w.chain == Persist(before, f.(status := FileStatus.Failed, errorCode := Some(code), finalizingPath := None))
    requires w.pc == FailSaving(|before.points|) || w.pc == MismatchSaving(|before.points|)
    ensures FailedWith(c, f, Alone(c, w, choice, 2), code) && Alone(c, w, choice, 2).disk == w.disk
  {
    var saved := Stretch(c, w, choice);
    assert saved == w.(chain := saved.chain, pc := Clearing) && UpToDate(saved.chain) && Shaped(c, saved);
    Clears(c, saved, choice);
    AloneOnce(c, w, choice, 2);
    AloneOnce(c, saved, choice, 1);
    AloneOnce(c, Stretch(c, saved, choice), choice, 1);
  }

  /** Bytes that do not hash to the digest: the partial goes and the file fails. */
  lemma {:induction false} WrongBytesFail(c: Config, w: World, put: Upload, ino: nat, choice: Choice)
    requires Shaped(c, w) && UpToDate(w.chain) && w.pc == Hashing(put, ino) && !choice.throws && Unfinished(Record(w))
    requires w.disk.partial.Some? && Of(w.disk.inodes[w.disk.partial.value].data) != Expected(put)
    ensures var end := Alone(c, w, choice, 4);
            FailedWith(c, Record(w), end, "hash_mismatch") && end.disk == w.disk.(partial := None)
  {
    var mismatched := Stretch(c, w, choice);
    assert mismatched == w.(disk := w.disk.(partial := None), pc := Mismatched);
    var failed := Stretch(c, mismatched, choice);
    assert failed == FailThen(mismatched, "hash_mismatch", choice.now, MismatchSaving(|w.chain.points|), Clearing);
    FailureIsSaved(c, failed, choice, Record(w), "hash_mismatch", w.chain);
    AloneOnce(c, w, choice, 4);
    AloneOnce(c, mismatched, choice, 3);
  }

  /** A chunk for a partial that is not there. */
  lemma {:induction false} MissingPartialFails(c: Config, w: World, put: Upload, choice: Choice)
    requires Shaped(c, w) && UpToDate(w.chain) && w.pc == Opening(put) && !choice.throws && Unfinished(Record(w))
    requires put.offset > 0 && w.disk.partial == None
    ensures var end := Alone(c, w, choice, 3); FailedWith(c, Record(w), end, "partial_state_missing") && end.disk == w.disk
  {
    var failed := Stretch(c, w, choice);
    assert failed == FailThen(w, "partial_state_missing", choice.now, FailSaving(|w.chain.points|), Clearing);
    FailureIsSaved(c, failed, choice, Record(w), "partial_state_missing", w.chain);
    AloneOnce(c, w, choice, 3);
  }

  /** The names once a link announced under `link` has been taken back, if it is the partial's. */
  function TakenBack(d: Disk, link: Option<Path>): map<Path, nat> {
    if d.partial.Some? && link.Some? && link.value in d.names && d.names[link.value] == d.partial.value
    then d.names - {link.value}
    else d.names
  }

  lemma {:induction false} Catches(c: Config, w: World, choice: Choice)
    requires Shaped(c, w) && UpToDate(w.chain) && w.pc == Catching && Unfinished(Record(w))
    ensures Stretch(c, w, choice) == w.(pc := Undoing(Record(w).finalizingPath))
  {
  }

  lemma {:induction false} Undoes(c: Config, w: World, choice: Choice)
    requires Shaped(c, w) && UpToDate(w.chain) && w.pc.Undoing?
    ensures var next := w.(disk := w.disk.(names := TakenBack(w.disk, w.pc.link)), pc := Discarding);
            Stretch(c, w, choice) == next && Shaped(c, next)
  {
  }

  lemma {:induction false} Discards(c: Config, w: World, choice: Choice)
    requires Shaped(c, w) && UpToDate(w.chain) && w.pc == Discarding
    ensures var next := w.(disk := w.disk.(partial := None), pc := Failing);
            Stretch(c, w, choice) == next && Shaped(c, next)
  {
  }

  lemma {:induction false} Fails(c: Config, w: World, choice: Choice)
    requires Shaped(c, w) && UpToDate(w.chain) && w.pc == Failing && Unfinished(Record(w))
    ensures var end := Alone(c, w, choice, 3);
            FailedWith(c, Record(w), end, "terminal_processing_failed") && end.disk == w.disk
  {
    var failed := Stretch(c, w, choice);
    assert failed == FailThen(w, "terminal_processing_failed", choice.now, FailSaving(|w.chain.points|), Clearing);
    FailureIsSaved(c, failed, choice, Record(w), "terminal_processing_failed", w.chain);
    AloneOnce(c, w, choice, 3);
  }

  /** Anything thrown while publishing: the link announced last is taken back if it is ours, the partial goes, the file fails. */
  lemma {:induction false} CaughtErrorFails(c: Config, w: World, choice: Choice)
    requires Shaped(c, w) && UpToDate(w.chain) && w.pc == Catching && Unfinished(Record(w))
    ensures var end := Alone(c, w, choice, 6);
            && FailedWith(c, Record(w), end, "terminal_processing_failed")
            && end.disk == Disk(w.disk.inodes, None, TakenBack(w.disk, Record(w).finalizingPath))
  {
    Catches(c, w, choice);
    var undoing := Stretch(c, w, choice);
    Undoes(c, undoing, choice);
    var discarding := Stretch(c, undoing, choice);
    Discards(c, discarding, choice);
    var failing := Stretch(c, discarding, choice);
    Fails(c, failing, choice);
    AloneOnce(c, w, choice, 6);
    AloneOnce(c, undoing, choice, 5);
    AloneOnce(c, discarding, choice, 4);
  }

  lemma {:induction false} AlreadyOver(c: Config, w: World, choice: Choice)
    requires Shaped(c, w) && UpToDate(w.chain) && w.pc == Failing && !Unfinished(Record(w))
    ensures Stretch(c, w, choice) == w.(pc := Clearing)
  {
  }

  /** A file that was failed or cancelled meanwhile stays what it is, but link and partial go all the same. */
  lemma {:induction false} CaughtAfterTheEnd(c: Config, w: World, choice: Choice)
    requires Shaped(c, w) && UpToDate(w.chain) && w.pc == Catching
    requires Record(w).status == FileStatus.Failed || Record(w).status == FileStatus.Cancelled
    ensures Alone(c, w, choice, 5)
            == World(w.chain, Disk(w.disk.inodes, None, TakenBack(w.disk, Record(w).finalizingPath)), None, Idle)
  {
    var undoing := Stretch(c, w, choice);
    assert undoing == w.(pc := Undoing(Record(w).finalizingPath));
    Undoes(c, undoing, choice);
    var discarding := Stretch(c, undoing, choice);
    Discards(c, discarding, choice);
    var failing := Stretch(c, discarding, choice);
    AlreadyOver(c, failing, choice);
    var clearing := Stretch(c, failing, choice);
    Clears(c, clearing, choice);
    AloneOnce(c, w, choice, 5);
    AloneOnce(c, undoing, choice, 4);
    AloneOnce(c, discarding, choice, 3);
    AloneOnce(c, failing, choice, 2);
    AloneOnce(c, clearing, choice, 1);
    AloneOnce(c, Stretch(c, clearing, choice), choice, 1);
  }

  /** Once completed, a file keeps its link and everything else, whatever is thrown then. */
  lemma {:induction false} CaughtAfterCompletion(c: Config, w: World, choice: Choice)
    requires Shaped(c, w) && UpToDate(w.chain) && w.pc == Catching && Record(w).status == FileStatus.Completed
    ensures Alone(c, w, choice, 2) == w.(session := None, pc := Idle)
  {
    var clearing := Stretch(c, w, choice);
    assert clearing == w.(pc := Clearing);
    Clears(c, clearing, choice);
    AloneOnce(c, w, choice, 2);
    AloneOnce(c, clearing, choice, 1);
    AloneOnce(c, Stretch(c, clearing, choice), choice, 1);
  }
}
