/**
 Progress in two levels: what a session has accepted in memory against what is
 confirmed in the queue and what the store holds.
 */
module UploadProgress {
  import opened Wrappers
  import opened TransferFile
  import opened SaveChain
  import opened UploadEngine
  import opened UploadSafety
  import opened UploadRuns

  /** Accepted bytes stay inside the file and less than one checkpoint ahead of the durable ones. */
  predicate SessionOk(c: Config, s: Session) {
    && s.durable <= s.accepted <= |c.source|
    && (s.accepted == s.durable || s.accepted - s.durable < c.checkpointBytes)
  }

  /** A handler that is not going to checkpoint leaves less than one checkpoint behind. */
  predicate Within(c: Config, w: World, put: Upload, due: bool) {
    && w.session.Some? && w.session.value.accepted == put.offset
    && (!due ==> put.offset + put.count - w.session.value.durable < c.checkpointBytes)
  }

  predicate Bounded(c: Config, w: World) {
    && (w.session.Some? ==> SessionOk(c, w.session.value))
    && (w.pc.Opening? ==> w.session.Some? && w.session.value.accepted == w.pc.put.offset)
    && (w.pc.Writing? || w.pc.Syncing? || w.pc.Confirming? ==> Within(c, w, w.pc.put, w.pc.due))
  }

  lemma InitialIsBounded(c: Config, w: World)
    requires Initial(c, w)
    ensures Bounded(c, w)
  {
  }

  lemma ReceiveKeepsBounded(c: Config, w: World, choice: Choice)
    requires Shaped(c, w) && PcOk(c, w) && Bounded(c, w) && Receiving(w.pc)
    ensures Bounded(c, ReceiveStep(c, w, choice))
  {
  }

  lemma PutKeepsBounded(c: Config, w: World, offset: nat, count: nat, claimed: Option<Digest>)
    requires Bounded(c, w) && |w.chain.points| > 0 && RecordOk(c, Record(w))
    ensures Bounded(c, PutStep(c, w, offset, count, claimed))
  {
  }

  lemma TailKeepsBounded(c: Config, w: World, choice: Choice)
    requires Shaped(c, w) && PcOk(c, w) && Bounded(c, w)
    requires !Receiving(w.pc) && !Publishing(w.pc) && !Holding(w.pc) && !Down(w.pc)
    ensures Bounded(c, TailStep(c, w, choice))
  {
  }

  lemma AdvanceKeepsBounded(c: Config, w: World, choice: Choice)
    requires Shaped(c, w) && PcOk(c, w) && Bounded(c, w)
    ensures Bounded(c, AdvanceStep(c, w, choice))
  {
    if Receiving(w.pc) {
      ReceiveKeepsBounded(c, w, choice);
    } else if Publishing(w.pc) {
      assert Bounded(c, PublishStep(c, w, choice));
    } else if Holding(w.pc) {
      assert Bounded(c, HoldAdvance(w, choice));
    } else if Down(w.pc) {
      assert Bounded(c, RecoverAdvance(w));
    } else {
      TailKeepsBounded(c, w, choice);
    }
  }

  lemma NextKeepsBounded(c: Config, w: World, e: Event)
    requires Safe(c, w) && Bounded(c, w)
    ensures Bounded(c, Next(c, w, e))
  {
    RecordIsOk(c, w);
    match e
    case Put(offset, count, claimed) => PutKeepsBounded(c, w, offset, count, claimed);
    case Advance(choice) => AdvanceKeepsBounded(c, w, choice);
    case Hold(hold) =>
    case Control(change, now) =>
    case Sibling =>
    case Save(ok) =>
    case Crash(tails) =>
  }

  lemma {:induction false} RunsAreBounded(c: Config, r: Run)
    requires Happens(c, r) && AllAllowed(c, r)
    ensures Bounded(c, r.now)
  {
    match r
    case Start(w) => InitialIsBounded(c, w);
    case After(before, e, w) =>
      RunsAreBounded(c, before);
      RunsAreSafe(c, before);
      NextKeepsBounded(c, before.now, e);
  }

  // ----- the queue's side --------------------------------------------------

  /** The offset a handler has confirmed in the queue and not yet noted in its session. */
  function Pending(w: World): Option<(nat, nat)> {
    match w.pc
    case CheckpointSaving(put, ticket) => Some((put.offset + put.count, ticket))
    case VerifySaving(put, ino, ticket) => Some((put.offset + put.count, ticket))
    case HoldSaving(hold, ticket) => if w.session.Some? then Some((w.session.value.accepted, ticket)) else None
    case _ => None
  }

  /** No snapshot from `from` on is behind `n`. */
  ghost predicate NoneBehind(chain: Chain<FileRecord>, from: nat, n: int) {
    forall i :: from <= i < |chain.points| ==> chain.points[i].confirmedOffset >= n
  }

  /** What a session has noted as durable is what the queue has confirmed, and the store is not behind it. */
  ghost predicate Aligned(w: World) {
    && w.chain.stored < |w.chain.points|
    && (Down(w.pc) ==> w.session.None?)
    && (w.session.None? ==> Pending(w).None? && NoneBehind(w.chain, w.chain.stored, Record(w).confirmedOffset))
    && (w.session.Some? ==> NoneBehind(w.chain, w.chain.stored, w.session.value.durable))
    && (w.session.Some? && Pending(w).None? ==> Record(w).confirmedOffset == w.session.value.durable)
    && (Pending(w).Some? ==>
          && Record(w).confirmedOffset == Pending(w).value.0
          && 0 < Pending(w).value.1 < |w.chain.points|
          && w.chain.points[Pending(w).value.1 - 1].confirmedOffset == w.session.value.durable
          && NoneBehind(w.chain, Pending(w).value.1, Pending(w).value.0))
  }

  /** A retry that takes effect finds nothing counted: no session, or one that has noted and confirmed nothing. */
  predicate RetriesAtZero(w: World, e: Event)
    requires |w.chain.points| > 0
  {
    Retries(w, e) ==>
      && (w.session.Some? ==> w.session.value.durable == 0)
      && (Pending(w).Some? ==> Pending(w).value.0 == 0)
  }

  /** A handler that has waited for its save sees it succeed, unless it confirmed nothing new. */
  predicate LeavesSaved(w: World, e: Event) {
    e.Advance? && Pending(w).Some? && Resolved(w.chain, Pending(w).value.1) ==>
      Saved(w, Pending(w).value.1) || (w.session.Some? && w.session.value.durable == Pending(w).value.0)
  }

  predicate Orderly(w: World, e: Event)
    requires |w.chain.points| > 0
  {
    RetriesAtZero(w, e) && LeavesSaved(w, e)
  }

  lemma MutateKeepsNoneBehind(w: World, g: FileRecord, from: nat, n: int)
    requires NoneBehind(w.chain, from, n) && g.confirmedOffset >= n
    ensures NoneBehind(Mutate(w, g).chain, from, n)
  {
  }

  /** A snapshot with an unchanged offset, while nothing is pending or while it stays pending. */
  lemma SameOffsetKeepsAligned(w: World, g: FileRecord, pc: Pc)
    requires Aligned(w) && g.confirmedOffset == Record(w).confirmedOffset
    requires pc == w.pc || (Pending(w).None? && Pending(Mutate(w, g).(pc := pc)).None? && !Down(pc))
             || (Down(w.pc) && pc.RecoverSaving?)
    ensures Aligned(Mutate(w, g).(pc := pc))
  {
    assert w.chain.points[|w.chain.points| - 1] == Record(w);
    var n := if w.session.Some? then w.session.value.durable else Record(w).confirmedOffset;
    MutateKeepsNoneBehind(w, g, w.chain.stored, n);
    if Pending(w).Some? {
      MutateKeepsNoneBehind(w, g, Pending(w).value.1, Pending(w).value.0);
    }
  }

  /** Going on without touching the queue or the session. */
  lemma QuietlyKeepsAligned(w: World, next: World)
    requires Aligned(w) && next.chain == w.chain && next.session == w.session
    requires Pending(w).None? && Pending(next).None?
    requires Down(next.pc) ==> Down(w.pc)
    ensures Aligned(next)
  {
  }

  lemma FailThenKeepsAligned(w: World, code: string, now: int, saving: Pc, already: Pc)
    requires Aligned(w) && Pending(w).None?
    requires saving.FailSaving? || saving.MismatchSaving? || saving.HoldActSaving?
    requires already.Clearing? || already.HoldUnlinking?
    ensures Aligned(FailThen(w, code, now, saving, already))
  {
    if !IsTerminalFile(Record(w).status) {
      SameOffsetKeepsAligned(w, Changed(Record(w), Fail(code), now).value, saving);
    } else {
      QuietlyKeepsAligned(w, w.(pc := already));
    }
  }

  lemma PutKeepsAligned(w: World, c: Config, offset: nat, count: nat, claimed: Option<Digest>)
    requires Aligned(w) && (w.session.Some? ==> w.session.value.durable <= w.session.value.accepted)
    ensures Aligned(PutStep(c, w, offset, count, claimed))
  {
  }

  /** Confirming an offset makes it pending. */
  lemma ConfirmingKeepsAligned(w: World, g: FileRecord, next: World)
    requires Aligned(w) && Pending(w).None? && w.session.Some?
    requires next.chain == Persist(w.chain, g) && next.session == w.session && !Down(next.pc)
    requires Pending(next) == Some((g.confirmedOffset, |w.chain.points|))
    requires g.confirmedOffset >= Record(w).confirmedOffset
    ensures Aligned(next)
  {
    MutateKeepsNoneBehind(w, g, w.chain.stored, w.session.value.durable);
  }

  lemma ReceiveKeepsAligned(c: Config, w: World, choice: Choice)
    requires Shaped(c, w) && Aligned(w) && Receiving(w.pc)
    requires w.session.Some?
    ensures Aligned(ReceiveStep(c, w, choice))
  {
    var next := ReceiveStep(c, w, choice);
    if w.pc.Confirming? && next.chain != w.chain {
      ConfirmingKeepsAligned(w, Record(next), next);
    } else if w.pc.Opening? && next.chain != w.chain {
      SameOffsetKeepsAligned(w, Record(next), next.pc);
    } else if next.session == w.session {
      QuietlyKeepsAligned(w, next);
    }
  }

  lemma PublishKeepsAligned(c: Config, w: World, choice: Choice)
    requires Shaped(c, w) && Aligned(w) && Publishing(w.pc)
    ensures Aligned(PublishStep(c, w, choice))
  {
    var next := PublishStep(c, w, choice);
    if next.chain != w.chain {
      SameOffsetKeepsAligned(w, Record(next), next.pc);
    } else {
      QuietlyKeepsAligned(w, next);
    }
  }

  /** `markCheckpoint` runs once the save that confirmed the offset has succeeded. */
  lemma NotingKeepsAligned(w: World, next: World)
    requires Aligned(w) && Valid(w.chain) && Pending(w).Some? && Saved(w, Pending(w).value.1)
    requires next.chain == w.chain && next.session == Some(Session(Pending(w).value.0, Pending(w).value.0))
    requires Pending(next).None? && !Down(next.pc)
    ensures Aligned(next)
  {
    ResolvedSaveIsStored(w.chain, Pending(w).value.1);
  }

  /** Leaving a failed save: the queue has moved on, the session has not. */
  lemma {:induction false} FailingKeepsAligned(w: World, next: World)
    requires Aligned(w) && Pending(w).Some? && w.session.Some?
    requires next.chain == w.chain && next.session == w.session && Pending(next).None? && !Down(next.pc)
    ensures Aligned(next) <==> w.session.value.durable == Pending(w).value.0
  {
  }

  /** The three handlers that wait for the save of an offset go on: exactly when it succeeded do both levels agree again. */
  lemma {:induction false} LeavingASaveKeepsAligned(c: Config, w: World, choice: Choice)
    requires Shaped(c, w) && Aligned(w) && Pending(w).Some?
    ensures Aligned(AdvanceStep(c, w, choice)) <==> LeavesSaved(w, Advance(choice))
  {
    var next := AdvanceStep(c, w, choice);
    var ticket := Pending(w).value.1;
    if Saved(w, ticket) {
      NotingKeepsAligned(w, next);
    } else if Resolved(w.chain, ticket) {
      FailingKeepsAligned(w, next);
    } else {
      assert next == w;
    }
  }

  lemma TailKeepsAligned(c: Config, w: World, choice: Choice)
    requires Shaped(c, w) && Aligned(w) && Pending(w).None?
    requires !Receiving(w.pc) && !Publishing(w.pc) && !Holding(w.pc) && !Down(w.pc)
    ensures Aligned(TailStep(c, w, choice))
  {
    var next := TailStep(c, w, choice);
    if w.pc.Mismatched? {
      FailThenKeepsAligned(w, "hash_mismatch", choice.now, MismatchSaving(Ticket(w)), Clearing);
    } else if w.pc.Failing? {
      FailThenKeepsAligned(w, "terminal_processing_failed", choice.now, FailSaving(Ticket(w)), Clearing);
    } else if !w.pc.Clearing? {
      QuietlyKeepsAligned(w, next);
    }
  }

  lemma HoldKeepsAligned(w: World, choice: Choice)
    requires Aligned(w) && Holding(w.pc) && Pending(w).None?
    requires w.disk.partial.Some? ==> w.disk.partial.value < |w.disk.inodes|
    ensures Aligned(HoldAdvance(w, choice))
  {
    var next := HoldAdvance(w, choice);
    if w.pc.HoldActing? {
      if w.pc.hold.Disconnecting? {
        FailThenKeepsAligned(w, "peer_disconnected", choice.now, HoldActSaving(w.pc.hold, Ticket(w)), HoldUnlinking);
      } else {
        SameOffsetKeepsAligned(w, Record(next), next.pc);
      }
    } else if w.pc.HoldConfirming? && next.chain != w.chain {
      ConfirmingKeepsAligned(w, Record(next), next);
    } else {
      QuietlyKeepsAligned(w, next);
    }
  }

  lemma RecoverKeepsAligned(w: World)
    requires Aligned(w) && Down(w.pc)
    ensures Aligned(RecoverAdvance(w))
  {
    var next := RecoverAdvance(w);
    if next.chain != w.chain {
      SameOffsetKeepsAligned(w, Record(next), next.pc);
    } else {
      QuietlyKeepsAligned(w, next);
    }
  }

  /**
   Retrying is exact as well: what the session counts stays what the queue has
   confirmed if and only if there was nothing to count.
   */
  lemma {:induction false} RetryingKeepsAligned(w: World, now: int)
    requires Aligned(w) && Retries(w, Control(Retry, now))
    requires forall i :: w.chain.stored <= i < |w.chain.points| ==> w.chain.points[i].confirmedOffset >= 0
    ensures Aligned(ControlStep(w, Retry, now)) <==> RetriesAtZero(w, Control(Retry, now))
  {
    var next := ControlStep(w, Retry, now);
    assert next.chain == Persist(w.chain, Record(next)) && Record(next).confirmedOffset == 0;
    assert next.chain.points[|w.chain.points|].confirmedOffset == 0;
    assert Pending(next) == Pending(w);
  }

  lemma ControlKeepsAligned(w: World, change: FileChange, now: int)
    requires Aligned(w) && !Retries(w, Control(change, now))
    ensures Aligned(ControlStep(w, change, now))
  {
    var next := ControlStep(w, change, now);
    if next.chain != w.chain {
      SameOffsetKeepsAligned(w, Record(next), w.pc);
    }
  }

  /** Saves may fail as they like: it is the handlers waiting for them that must not go on as if nothing had happened. */
  lemma SaveKeepsAligned(w: World, ok: bool)
    requires Aligned(w) && Valid(w.chain)
    ensures Aligned(w.(chain := Settle(w.chain, ok)))
  {
  }

  lemma AdvanceKeepsAligned(c: Config, w: World, choice: Choice)
    requires Shaped(c, w) && Bounded(c, w) && Aligned(w) && Pending(w).None?
    ensures Aligned(AdvanceStep(c, w, choice))
  {
    if Receiving(w.pc) {
      ReceiveKeepsAligned(c, w, choice);
    } else if Publishing(w.pc) {
      PublishKeepsAligned(c, w, choice);
    } else if Holding(w.pc) {
      HoldKeepsAligned(w, choice);
    } else if Down(w.pc) {
      RecoverKeepsAligned(w);
    } else {
      TailKeepsAligned(c, w, choice);
    }
  }

  lemma {:induction false} AdvanceKeepsAlignedExactly(c: Config, w: World, choice: Choice)
    requires Shaped(c, w) && Bounded(c, w) && Aligned(w)
    ensures Aligned(AdvanceStep(c, w, choice)) <==> LeavesSaved(w, Advance(choice))
  {
    if Pending(w).Some? {
      LeavingASaveKeepsAligned(c, w, choice);
    } else {
      AdvanceKeepsAligned(c, w, choice);
    }
  }

  lemma {:induction false} ControlKeepsAlignedExactly(c: Config, w: World, change: FileChange, now: int)
    requires Safe(c, w) && Aligned(w)
    ensures Aligned(ControlStep(w, change, now)) <==> RetriesAtZero(w, Control(change, now))
  {
    if Retries(w, Control(change, now)) {
      assert forall i :: w.chain.stored <= i < |w.chain.points| ==> PointOk(c, w.disk, w.chain.points[i]);
      RetryingKeepsAligned(w, now);
    } else {
      ControlKeepsAligned(w, change, now);
    }
  }

  /** Every event, exactly: the two levels stay aligned if and only if the event is orderly. */
  lemma {:induction false} NextKeepsAlignedExactly(c: Config, w: World, e: Event)
    requires Safe(c, w) && Bounded(c, w) && Aligned(w)
    ensures Aligned(Next(c, w, e)) <==> Orderly(w, e)
  {
    RecordIsOk(c, w);
    match e
    case Put(offset, count, claimed) => PutKeepsAligned(w, c, offset, count, claimed);
    case Hold(hold) =>
      if w.pc.Idle? {
        QuietlyKeepsAligned(w, HoldStep(w, hold));
      }
    case Advance(choice) => AdvanceKeepsAlignedExactly(c, w, choice);
    case Control(change, now) => ControlKeepsAlignedExactly(c, w, change, now);
    case Sibling =>
      if !Down(w.pc) {
        SameOffsetKeepsAligned(w, Record(w), w.pc);
      }
    case Save(ok) => SaveKeepsAligned(w, ok);
    case Crash(tails) =>
  }

  predicate AllOrderly(r: Run) {
    r.After? ==> AllOrderly(r.before) && |r.before.now.chain.points| > 0 && Orderly(r.before.now, r.event)
  }

  lemma {:induction false} OrderlyRunsAreAligned(c: Config, r: Run)
    requires Happens(c, r) && AllAllowed(c, r) && AllOrderly(r)
    ensures Aligned(r.now)
  {
    if r.After? {
      OrderlyRunsAreAligned(c, r.before);
      RunsAreSafe(c, r.before);
      RunsAreBounded(c, r.before);
      NextKeepsAlignedExactly(c, r.before.now, r.event);
    }
  }

  // ----- what a crash can lose -------------------------------------------------

  /** Of `accepted` bytes less than one checkpoint is lost when the store says `stored`. */
  predicate LosesLittle(c: Config, accepted: int, stored: int) {
    accepted <= stored || accepted - stored < c.checkpointBytes
  }

  function Least(a: int, b: int): int {
    if a < b then a else b
  }

  lemma {:induction false} WorstCase(c: Config, durable: nat, stored: int)
    requires durable <= |c.source|
    ensures (forall a: nat :: SessionOk(c, Session(a, durable)) ==> LosesLittle(c, a, stored)) <==>
            stored >= Least(durable, |c.source| - c.checkpointBytes + 1)
  {
    var worst := Least(|c.source|, if c.checkpointBytes == 0 then durable else durable + c.checkpointBytes - 1);
    assert SessionOk(c, Session(worst, durable));
  }

  /**
   Over every run, whatever saves fail: the exact condition for a crash to lose
   less than one checkpoint, however much the session accepts before its next
   checkpoint.  The stored snapshot has to be at or past the session's durable
   offset, or within one checkpoint of the end of the file.
   */
  lemma {:induction false} LossIsBoundedExactly(c: Config, r: Run)
    requires Happens(c, r) && AllAllowed(c, r) && r.now.session.Some?
    ensures r.now.chain.stored < |r.now.chain.points|
    ensures var s, n := r.now.session.value, Store(r.now.chain).confirmedOffset;
            && SessionOk(c, s)
            && (n >= s.durable ==> LosesLittle(c, s.accepted, n))
            && ((forall a: nat :: SessionOk(c, Session(a, s.durable)) ==> LosesLittle(c, a, n)) <==>
                n >= Least(s.durable, |c.source| - c.checkpointBytes + 1))
  {
    RunsAreSafe(c, r);
    RunsAreBounded(c, r);
    WorstCase(c, r.now.session.value.durable, Store(r.now.chain).confirmedOffset);
  }

  /** The store holds what the session counts as durable. */
  predicate Covered(w: World)
    requires w.chain.stored < |w.chain.points|
  {
    w.session.Some? ==> Store(w.chain).confirmedOffset >= w.session.value.durable
  }

  /**
   The three ways to lose that: a chunk that brings the session up to an offset
   the store does not have, a save that lands a snapshot of a fresh attempt, and
   a checkpoint noted although such a snapshot has landed behind it.
   */
  predicate Covers(w: World, e: Event)
    requires w.chain.stored < |w.chain.points|
  {
    match e
    case Put(_, _, _) =>
      w.pc.Idle? && Record(w).confirmedOffset >= 0 ==>
        SessionFor(w.session, Record(w).confirmedOffset).durable <= Store(w.chain).confirmedOffset
    case Save(ok) =>
      ok && |w.chain.outcomes| < |w.chain.points| && w.session.Some? ==>
        w.chain.points[|w.chain.outcomes|].confirmedOffset >= w.session.value.durable
    case Advance(_) =>
      Pending(w).Some? && Saved(w, Pending(w).value.1) ==> Store(w.chain).confirmedOffset >= Pending(w).value.0
    case _ => true
  }

  /** A stretch that leaves the store alone and counts no more than before. */
  predicate CountsNoMore(w: World, next: World) {
    && next.chain.stored == w.chain.stored && w.chain.points <= next.chain.points
    && (next.session.Some? ==> w.session.Some? && next.session.value.durable == w.session.value.durable)
  }

  lemma {:induction false} ReceiveCountsNoMore(c: Config, w: World, choice: Choice)
    requires Shaped(c, w) && Receiving(w.pc)
    ensures CountsNoMore(w, ReceiveStep(c, w, choice))
  {
  }

  lemma {:induction false} PublishCountsNoMore(c: Config, w: World, choice: Choice)
    requires Shaped(c, w) && Publishing(w.pc)
    ensures CountsNoMore(w, PublishStep(c, w, choice))
  {
  }

  lemma {:induction false} HoldCountsNoMore(c: Config, w: World, choice: Choice)
    requires Shaped(c, w) && Holding(w.pc) && Pending(w).None?
    ensures CountsNoMore(w, HoldAdvance(w, choice))
  {
  }

  lemma {:induction false} TailCountsNoMore(c: Config, w: World, choice: Choice)
    requires Shaped(c, w) && Pending(w).None?
    requires !Receiving(w.pc) && !Publishing(w.pc) && !Holding(w.pc) && !Down(w.pc)
    ensures CountsNoMore(w, TailStep(c, w, choice))
  {
  }

  lemma {:induction false} AdvanceCountsNoMore(c: Config, w: World, choice: Choice)
    requires Shaped(c, w) && Pending(w).None?
    ensures CountsNoMore(w, AdvanceStep(c, w, choice))
  {
    if Receiving(w.pc) {
      ReceiveCountsNoMore(c, w, choice);
    } else if Publishing(w.pc) {
      PublishCountsNoMore(c, w, choice);
    } else if Holding(w.pc) {
      HoldCountsNoMore(c, w, choice);
    } else if Down(w.pc) {
      assert CountsNoMore(w, RecoverAdvance(w));
    } else {
      TailCountsNoMore(c, w, choice);
    }
  }

  /** Leaving a save notes its offset if it succeeded, and nothing otherwise. */
  lemma {:induction false} LeavingNotes(c: Config, w: World, choice: Choice)
    requires Shaped(c, w) && Pending(w).Some?
    ensures var next, n := AdvanceStep(c, w, choice), Pending(w).value.0;
            && next.chain == w.chain
            && next.session == if Saved(w, Pending(w).value.1) then Some(Session(n, n)) else w.session
  {
  }

  lemma {:induction false} AdvanceKeepsCovered(c: Config, w: World, choice: Choice)
    requires Shaped(c, w) && Covered(w)
    ensures var next := AdvanceStep(c, w, choice);
            next.chain.stored < |next.chain.points| && (Covered(next) <==> Covers(w, Advance(choice)))
  {
    if Pending(w).Some? {
      LeavingNotes(c, w, choice);
    } else {
      AdvanceCountsNoMore(c, w, choice);
    }
  }

  /** Every event, exactly: the store keeps up with the session if and only if the event covers it. */
  lemma {:induction false} NextKeepsCoveredExactly(c: Config, w: World, e: Event)
    requires Safe(c, w) && Covered(w)
    ensures var next := Next(c, w, e);
            next.chain.stored < |next.chain.points| && (Covered(next) <==> Covers(w, e))
  {
    match e
    case Put(offset, count, claimed) =>
    case Hold(hold) =>
    case Advance(choice) => AdvanceKeepsCovered(c, w, choice);
    case Control(change, now) =>
    case Sibling =>
    case Save(ok) =>
    case Crash(tails) =>
  }

  /** The snapshots a crash could bring back never fall in offset. */
  ghost predicate Climbing(chain: Chain<FileRecord>) {
    forall i, j :: chain.stored <= i <= j < |chain.points| ==> chain.points[i].confirmedOffset <= chain.points[j].confirmedOffset
  }

  /**
   Leaving the save of an offset, seen from the store: it holds that offset if
   and only if the save, or a later one, has landed (or the offset was nothing
   new).  It is not enough that some save has been waited for.
   */
  lemma {:induction false} LeavingASaveExactly(c: Config, w: World, choice: Choice)
    requires Safe(c, w) && Aligned(w) && Climbing(w.chain)
    requires Pending(w).Some? && Resolved(w.chain, Pending(w).value.1)
    ensures var next := AdvanceStep(c, w, choice);
            && w.session.Some? && next.chain.stored < |next.chain.points|
            && Record(next).confirmedOffset == Pending(w).value.0
            && (Store(next.chain).confirmedOffset >= Record(next).confirmedOffset <==>
                w.chain.stored >= Pending(w).value.1 || Pending(w).value.0 == w.session.value.durable)
  {
    var ticket := Pending(w).value.1;
    assert AdvanceStep(c, w, choice).chain == w.chain;
    if w.chain.stored < ticket {
      assert w.chain.points[w.chain.stored].confirmedOffset <= w.chain.points[ticket - 1].confirmedOffset;
    }
  }

  lemma {:induction false} NextKeepsClimbing(c: Config, w: World, e: Event)
    requires Safe(c, w) && Climbing(w.chain) && !Retries(w, e)
    ensures Climbing(Next(c, w, e).chain)
  {
    if e.Save? {
      SettleKeepsValid(w.chain, e.ok);
    } else if !e.Crash? && Next(c, w, e).chain != w.chain {
      AppendedOne(c, w, e);
      var points := Next(c, w, e).chain.points;
      forall i | w.chain.stored <= i < |points|
        ensures points[i].confirmedOffset <= points[|points| - 1].confirmedOffset
      {
        if i < |w.chain.points| {
          assert w.chain.points[i].confirmedOffset <= w.chain.points[|w.chain.points| - 1].confirmedOffset;
        }
      }
    }
  }

  lemma {:induction false} RunsWithoutRetryClimb(c: Config, r: Run)
    requires Happens(c, r) && AllAllowed(c, r) && NeverRetries(r)
    ensures Climbing(r.now.chain)
  {
    if r.After? {
      RunsWithoutRetryClimb(c, r.before);
      RunsAreSafe(c, r.before);
      NextKeepsClimbing(c, r.before.now, r.event);
    }
  }

  /**
   Whenever the file's lock is free in an orderly run: the queue's offset is the
   session's durable one, the accepted one is less than a checkpoint ahead, and
   so a crash loses less than one checkpoint of accepted bytes.
   */
  lemma {:induction false} CrashLosesLessThanACheckpoint(c: Config, r: Run)
    requires Happens(c, r) && AllAllowed(c, r) && AllOrderly(r)
    requires r.now.pc.Idle? && r.now.session.Some?
    ensures r.now.chain.stored < |r.now.chain.points|
    ensures var s := r.now.session.value;
            && Record(r.now).confirmedOffset == s.durable <= s.accepted <= |c.source|
            && (s.accepted == s.durable || s.accepted - s.durable < c.checkpointBytes)
            && s.durable <= Store(r.now.chain).confirmedOffset
            && LosesLittle(c, s.accepted, Store(r.now.chain).confirmedOffset)
  {
    OrderlyRunsAreAligned(c, r);
    RunsAreBounded(c, r);
  }
}
