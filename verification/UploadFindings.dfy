/**
 Four runs that show why the upload theorems carry their conditions.  Each is
 a run from a fresh offer, event by event.
 */
module UploadFindings {
  import opened Wrappers
  import opened TransferFile
  import opened SaveChain
  import opened UploadEngine
  import opened UploadSafety
  import opened UploadResume
  import opened UploadRuns
  import opened UploadProgress
  import Paths

  /** The lock holder's next stretch, with nothing going wrong. */
  const GO := Advance(Choice(0, 0, false, 1, false))

  const HERE := Path("downloads", "report")

  function Offer(content: seq<byte>): FileRecord {
    FileRecord("file", FileMeta("report", "text/plain", 0, None, None, None), |content|, Of(content),
               None, Some(HERE), None, None, Queued, 0, None, None)
  }

  /** One event takes one world to another. */
  predicate Leads(c: Config, w: World, e: Event, next: World) {
    Shaped(c, w) && Honest(c, e) && next == Next(c, w, e)
  }

  lemma {:induction false} Extended(c: Config, r: Run, e: Event, next: World) returns (s: Run)
    requires Happens(c, r) && AllAllowed(c, r) && c.source != [] && Leads(c, r.now, e, next)
    ensures s.now == next && Happens(c, s) && AllAllowed(c, s)
    ensures NeverRetries(r) && !(e.Control? && e.change.Retry?) ==> NeverRetries(s)
  {
    s := After(r, e, next);
  }

  // ----- two bytes, one of them confirmed ----------------------------------

  /** A two-byte file, sent one byte at a time, every byte a checkpoint. */
  function TwoBytes(): Config {
    Config([5, 6], HERE, 1, 1, Disk([], None, map[]))
  }

  const FIRST := Upload(0, 1, Of([5, 6]), None)

  /** The record with another status and offset. */
  function At(status: FileStatus, offset: int): FileRecord {
    Offer([5, 6]).(status := status, confirmedOffset := offset)
  }

  function Claimed(): Chain<FileRecord> {
    Chain([At(Queued, 0), At(Active, 0)], [true], 0)
  }

  function Half(durable: nat): Disk {
    Disk([Inode([5], durable)], Some(0), map[])
  }

  function OneConfirmed(outcomes: seq<bool>): Chain<FileRecord>
    requires outcomes != []
  {
    Chain([At(Queued, 0), At(Active, 0), At(Active, 1)], outcomes, |outcomes| - 1)
  }

  /** The first byte is confirmed in memory; the save that says so has been handed over. */
  function ByteConfirmed(outcomes: seq<bool>): World
    requires outcomes != []
  {
    World(OneConfirmed(outcomes), Half(1), Some(Session(0, 0)), CheckpointSaving(FIRST, 2))
  }

  /** The first byte is confirmed, durable and saved. */
  function HalfWay(): World {
    World(OneConfirmed([true, true, true]), Half(1), Some(Session(1, 1)), Idle)
  }

  lemma FirstByteArrives()
    ensures Leads(TwoBytes(), World(Opened(At(Queued, 0)), TwoBytes().before, None, Idle), Control(Claim, 0),
                  World(Claimed(), TwoBytes().before, None, Idle))
    ensures Leads(TwoBytes(), World(Claimed(), TwoBytes().before, None, Idle), Put(0, 1, None),
                  World(Claimed(), TwoBytes().before, Some(Session(0, 0)), UploadEngine.Opening(FIRST)))
    ensures Leads(TwoBytes(), World(Claimed(), TwoBytes().before, Some(Session(0, 0)), UploadEngine.Opening(FIRST)), GO,
                  World(Claimed(), Disk([Inode([], 0)], Some(0), map[]), Some(Session(0, 0)), Writing(FIRST, 0, true)))
  {
  }

  lemma FirstByteIsWritten()
    ensures Leads(TwoBytes(),
                  World(Claimed(), Disk([Inode([], 0)], Some(0), map[]), Some(Session(0, 0)), Writing(FIRST, 0, true)), GO,
                  World(Claimed(), Half(0), Some(Session(0, 0)), Syncing(FIRST, 0, true)))
    ensures Leads(TwoBytes(), World(Claimed(), Half(0), Some(Session(0, 0)), Syncing(FIRST, 0, true)), GO,
                  World(Claimed(), Half(1), Some(Session(0, 0)), Confirming(FIRST, 0, true)))
  {
    assert TwoBytes().source[0..1] == [5];
    assert WriteAt([], 0, [5]) == [5];
  }

  lemma FirstByteIsConfirmed()
    ensures Leads(TwoBytes(), World(Claimed(), Half(1), Some(Session(0, 0)), Confirming(FIRST, 0, true)), GO,
                  ByteConfirmed([true]))
  {
  }

  lemma FirstByteIsSaved()
    ensures Leads(TwoBytes(), ByteConfirmed([true]), Save(true), ByteConfirmed([true, true]))
    ensures Leads(TwoBytes(), ByteConfirmed([true, true]), Save(true), ByteConfirmed([true, true, true]))
    ensures Leads(TwoBytes(), ByteConfirmed([true, true, true]), GO, HalfWay())
  {
  }

  lemma {:induction false} ReachByteConfirmed() returns (r: Run)
    ensures Happens(TwoBytes(), r) && AllAllowed(TwoBytes(), r) && NeverRetries(r) && r.now == ByteConfirmed([true, true])
  {
    var c, s, n := TwoBytes(), Some(Session(0, 0)), Claimed();
    FirstByteArrives();
    FirstByteIsWritten();
    FirstByteIsConfirmed();
    FirstByteIsSaved();
    r := Start(World(Opened(At(Queued, 0)), c.before, None, Idle));
    r := Extended(c, r, Control(Claim, 0), World(n, c.before, None, Idle));
    r := Extended(c, r, Put(0, 1, None), World(n, c.before, s, UploadEngine.Opening(FIRST)));
    r := Extended(c, r, GO, World(n, Disk([Inode([], 0)], Some(0), map[]), s, Writing(FIRST, 0, true)));
    r := Extended(c, r, GO, World(n, Half(0), s, Syncing(FIRST, 0, true)));
    r := Extended(c, r, GO, World(n, Half(1), s, Confirming(FIRST, 0, true)));
    r := Extended(c, r, GO, ByteConfirmed([true]));
    r := Extended(c, r, Save(true), ByteConfirmed([true, true]));
  }

  lemma {:induction false} ReachHalfWay() returns (r: Run)
    ensures Happens(TwoBytes(), r) && AllAllowed(TwoBytes(), r) && r.now == HalfWay()
  {
    FirstByteIsSaved();
    r := ReachByteConfirmed();
    r := Extended(TwoBytes(), r, Save(true), ByteConfirmed([true, true, true]));
    r := Extended(TwoBytes(), r, GO, HalfWay());
  }

  // ----- a save that fails --------------------------------------------------

  /** The save of the confirmed byte has failed, and with it the handler. */
  function Unstored(session: Session, pc: Pc): World {
    World(Chain(OneConfirmed([true]).points, [true, true, false], 1), Half(1), Some(session), pc)
  }

  const SECOND := Upload(1, 1, Of([5, 6]), None)

  lemma TheSaveFails()
    ensures Leads(TwoBytes(), ByteConfirmed([true, true]), Save(false), Unstored(Session(0, 0), CheckpointSaving(FIRST, 2)))
  {
  }

  lemma TheHandlerThrows()
    ensures Leads(TwoBytes(), Unstored(Session(0, 0), CheckpointSaving(FIRST, 2)), GO, Unstored(Session(0, 0), Idle))
  {
  }

  /** The next chunk takes up the queue's offset as durable, and fails to open the partial. */
  lemma TheNextChunkLifts()
    ensures Leads(TwoBytes(), Unstored(Session(0, 0), Idle), Put(1, 1, None),
                  Unstored(Session(1, 1), UploadEngine.Opening(SECOND)))
  {
  }

  const THROW := Advance(Choice(0, 0, false, 1, true))

  lemma TheNextChunkFails()
    ensures Leads(TwoBytes(), Unstored(Session(1, 1), UploadEngine.Opening(SECOND)), THROW, Unstored(Session(1, 1), Idle))
  {
  }

  /**
   With saves that fail, confirmed equals durable and a crash loses a whole
   checkpoint all the same: the queue keeps in memory the offset whose save
   failed, and the next chunk takes it for durable.
   */
  lemma {:induction false} FailedSaveLosesACheckpoint() returns (r: Run)
    ensures Happens(TwoBytes(), r) && AllAllowed(TwoBytes(), r) && NeverRetries(r)
    ensures r.now.pc.Idle? && r.now.session.Some? && r.now.chain.stored < |r.now.chain.points|
    ensures var s := r.now.session.value;
            && Record(r.now).confirmedOffset == s.durable == s.accepted
            && !LosesLittle(TwoBytes(), s.accepted, Store(r.now.chain).confirmedOffset)
  {
    var c := TwoBytes();
    TheSaveFails();
    TheHandlerThrows();
    TheNextChunkLifts();
    TheNextChunkFails();
    r := ReachByteConfirmed();
    r := Extended(c, r, Save(false), Unstored(Session(0, 0), CheckpointSaving(FIRST, 2)));
    r := Extended(c, r, GO, Unstored(Session(0, 0), Idle));
    r := Extended(c, r, Put(1, 1, None), Unstored(Session(1, 1), UploadEngine.Opening(SECOND)));
    r := Extended(c, r, THROW, Unstored(Session(1, 1), Idle));
  }

  // ----- a retry under a live session --------------------------------------

  /** The first `n` snapshots of a file paused half way, then cancelled with its transfer, then offered again. */
  function PausedAttempt(): seq<FileRecord> {
    OneConfirmed([true]).points + [At(Paused, 1), At(Cancelled, 1), Changed(At(Cancelled, 1), Retry, 0).value]
  }

  function PausedHalfWay(n: nat, outcomes: seq<bool>, pc: Pc): World
    requires n <= 6 && outcomes != []
  {
    HalfWay().(chain := Chain(PausedAttempt()[..n], outcomes, |outcomes| - 1), pc := pc)
  }

  const SAVED := [true, true, true, true]

  /** The pause takes the lock, finds nothing to checkpoint, and leaves the session. */
  lemma PauseTakesTheLock()
    ensures Leads(TwoBytes(), HalfWay(), UploadEngine.Hold(Pausing), PausedHalfWay(3, [true, true, true], HoldActing(Pausing)))
  {
    assert PausedAttempt()[..3] == OneConfirmed([true]).points;
  }

  lemma PauseActs()
    ensures Leads(TwoBytes(), PausedHalfWay(3, [true, true, true], HoldActing(Pausing)), GO,
                  PausedHalfWay(4, [true, true, true], HoldActSaving(Pausing, 3)))
  {
    assert PausedAttempt()[..3] + [PausedAttempt()[3]] == PausedAttempt()[..4];
  }

  lemma PauseIsSaved()
    ensures Leads(TwoBytes(), PausedHalfWay(4, [true, true, true], HoldActSaving(Pausing, 3)), Save(true),
                  PausedHalfWay(4, SAVED, HoldActSaving(Pausing, 3)))
  {
  }

  lemma PauseLeaves()
    ensures Leads(TwoBytes(), PausedHalfWay(4, SAVED, HoldActSaving(Pausing, 3)), GO,
                  PausedHalfWay(4, SAVED, Idle))
  {
  }

  /** Cancelling the whole transfer takes no lock for a file that is not active. */
  lemma CancelledWithItsTransfer()
    ensures Leads(TwoBytes(), PausedHalfWay(4, SAVED, Idle), Control(Cancel, 0),
                  PausedHalfWay(5, SAVED, Idle))
  {
    assert PausedAttempt()[..4] + [PausedAttempt()[4]] == PausedAttempt()[..5];
  }

  lemma OfferedAgain()
    ensures Leads(TwoBytes(), PausedHalfWay(5, SAVED, Idle), Control(Retry, 0),
                  PausedHalfWay(6, SAVED, Idle).(disk := WithoutPartial(Half(1))))
  {
    assert PausedAttempt()[..5] + [PausedAttempt()[5]] == PausedAttempt()[..6];
  }

  lemma RetriedRecord()
    ensures var w := PausedHalfWay(6, SAVED, Idle).(disk := WithoutPartial(Half(1)));
            && w.session == Some(Session(1, 1)) && |w.chain.points| > 0
            && Record(w).status.Queued? && Record(w).confirmedOffset == 0
  {
  }

  lemma {:induction false} ReachPaused() returns (r: Run)
    ensures Happens(TwoBytes(), r) && AllAllowed(TwoBytes(), r) && r.now == PausedHalfWay(4, SAVED, Idle)
  {
    PauseTakesTheLock();
    PauseActs();
    PauseIsSaved();
    PauseLeaves();
    r := ReachHalfWay();
    r := Extended(TwoBytes(), r, UploadEngine.Hold(Pausing), PausedHalfWay(3, [true, true, true], HoldActing(Pausing)));
    r := Extended(TwoBytes(), r, GO, PausedHalfWay(4, [true, true, true], HoldActSaving(Pausing, 3)));
    r := Extended(TwoBytes(), r, Save(true), PausedHalfWay(4, SAVED, HoldActSaving(Pausing, 3)));
    r := Extended(TwoBytes(), r, GO, PausedHalfWay(4, SAVED, Idle));
  }

  /**
   A paused file keeps its session, and cancelling its whole transfer does not
   clear it; the retry of the next offer then sets the queue's offset to zero
   under a session that still counts a byte.
   */
  lemma {:induction false} RetryUnderLiveSession() returns (r: Run)
    ensures Happens(TwoBytes(), r) && AllAllowed(TwoBytes(), r)
    ensures r.now.pc.Idle? && r.now.session == Some(Session(1, 1)) && |r.now.chain.points| > 0
    ensures Record(r.now).status.Queued? && Record(r.now).confirmedOffset == 0
  {
    CancelledWithItsTransfer();
    OfferedAgain();
    RetriedRecord();
    r := ReachPaused();
    r := Extended(TwoBytes(), r, Control(Cancel, 0), PausedHalfWay(5, SAVED, Idle));
    r := Extended(TwoBytes(), r, Control(Retry, 0), PausedHalfWay(6, SAVED, Idle).(disk := WithoutPartial(Half(1))));
  }

  // ----- a fresh partial while the store still resumes ---------------------

  /** The record of the first attempt after its cancellation, and of the second one. */
  function SecondAttempt(): seq<FileRecord> {
    var cancelled := At(Cancelled, 1);
    var retried := Changed(cancelled, Retry, 0).value;
    OneConfirmed([true]).points + [cancelled, retried, retried.(status := Active)]
  }

  function Unsaved(n: nat): Chain<FileRecord>
    requires n <= 6
  {
    Chain(SecondAttempt()[..n], [true, true, true], 2)
  }

  /**
   Cancelled, forgotten by a disconnect, retried and claimed again, all while
   the save of the cancellation is still under way.
   */
  lemma CancelledUnsaved()
    ensures Leads(TwoBytes(), HalfWay(), Control(Cancel, 0), HalfWay().(chain := Unsaved(4)))
  {
    assert OneConfirmed([true, true, true]).points + [At(Cancelled, 1)] == SecondAttempt()[..4];
  }

  lemma DisconnectTakesHold()
    ensures Leads(TwoBytes(), HalfWay().(chain := Unsaved(4)), UploadEngine.Hold(Disconnecting),
                  HalfWay().(chain := Unsaved(4), pc := HoldActing(Disconnecting)))
    ensures Leads(TwoBytes(), HalfWay().(chain := Unsaved(4), pc := HoldActing(Disconnecting)), GO,
                  HalfWay().(chain := Unsaved(4), pc := HoldUnlinking))
  {
  }

  function Forgotten(n: nat, pc: Pc): World
    requires n <= 6
  {
    World(Unsaved(n), Half(1).(partial := None), None, pc)
  }

  lemma ForgottenByDisconnect()
    ensures Leads(TwoBytes(), HalfWay().(chain := Unsaved(4), pc := HoldUnlinking), GO,
                  Forgotten(4, Clearing).(session := Some(Session(1, 1))))
  {
  }

  lemma SessionIsCleared()
    ensures Leads(TwoBytes(), Forgotten(4, Clearing).(session := Some(Session(1, 1))), GO, Forgotten(4, Idle))
  {
  }

  lemma RetriedAndClaimed()
    ensures Leads(TwoBytes(), Forgotten(4, Idle), Control(Retry, 0), Forgotten(5, Idle))
    ensures Leads(TwoBytes(), Forgotten(5, Idle), Control(Claim, 0), Forgotten(6, Idle))
  {
    assert SecondAttempt()[..4] + [SecondAttempt()[4]] == SecondAttempt()[..5];
    assert SecondAttempt()[..5] + [SecondAttempt()[5]] == SecondAttempt()[..6];
  }

  lemma SecondPartialIsCreated()
    ensures Leads(TwoBytes(), Forgotten(6, Idle), Put(0, 1, None),
                  Forgotten(6, UploadEngine.Opening(FIRST)).(session := Some(Session(0, 0))))
    ensures Leads(TwoBytes(), Forgotten(6, UploadEngine.Opening(FIRST)).(session := Some(Session(0, 0))), GO,
                  World(Unsaved(6), Disk([Inode([5], 1), Inode([], 0)], Some(1), map[]), Some(Session(0, 0)), Writing(FIRST, 1, true)))
  {
  }

  /**
   The store still says "active, one byte confirmed" when the partial is
   created afresh and empty: a crash now would resume past the end of it.
   */
  lemma {:induction false} StaleSnapshotLosesItsPrefix() returns (r: Run)
    ensures Happens(TwoBytes(), r) && Framed(r.now)
    ensures Resumable(Store(r.now.chain)) && Store(r.now.chain).confirmedOffset == 1
    ensures r.now.disk.partial.Some? && PartialInode(r.now.disk).data == []
    ensures !DurableLog(TwoBytes(), r.now)
  {
    var c := TwoBytes();
    CancelledUnsaved();
    DisconnectTakesHold();
    ForgottenByDisconnect();
    SessionIsCleared();
    RetriedAndClaimed();
    SecondPartialIsCreated();
    r := ReachHalfWay();
    r := Extended(c, r, Control(Cancel, 0), HalfWay().(chain := Unsaved(4)));
    r := Extended(c, r, UploadEngine.Hold(Disconnecting), HalfWay().(chain := Unsaved(4), pc := HoldActing(Disconnecting)));
    r := Extended(c, r, GO, HalfWay().(chain := Unsaved(4), pc := HoldUnlinking));
    r := Extended(c, r, GO, Forgotten(4, Clearing).(session := Some(Session(1, 1))));
    r := Extended(c, r, GO, Forgotten(4, Idle));
    r := Extended(c, r, Control(Retry, 0), Forgotten(5, Idle));
    r := Extended(c, r, Control(Claim, 0), Forgotten(6, Idle));
    r := Extended(c, r, Put(0, 1, None), Forgotten(6, UploadEngine.Opening(FIRST)).(session := Some(Session(0, 0))));
    r := Extended(c, r, GO,
                  World(Unsaved(6), Disk([Inode([5], 1), Inode([], 0)], Some(1), map[]), Some(Session(0, 0)), Writing(FIRST, 1, true)));
    assert Store(r.now.chain) == At(Active, 1);
    assert !KeepsPrefix(c, PartialInode(r.now.disk), 1);
  }

  // ----- an empty file retried in the instant before it completes -----------

  /** An empty file is offered under a name another, non-empty file already has. */
  predicate EmptyOffer(c: Config, other: seq<byte>) {
    && c.source == [] && other != []
    && c.before == Disk([Inode(other, |other|)], None, map[c.destination := 0])
  }

  predicate Calm(choice: Choice) {
    !choice.throws
  }

  const NOTHING := Upload(0, 0, Of([]), None)

  /** The name the second attempt at linking uses. */
  function Beside(c: Config): Path {
    Paths.Candidate(c.destination, 1)
  }

  /** The disk once the empty partial exists, and with its final link when there is one. */
  predicate DiskIs(c: Config, d: Disk, other: seq<byte>, partial: Option<nat>, linked: bool) {
    && d.inodes == [Inode(other, |other|), Inode([], 0)]
    && d.partial == partial
    && d.names == if linked then map[c.destination := 0][Beside(c) := 1] else map[c.destination := 0]
  }

  /** `n` snapshots taken and the first `k` saved; what the record says; where the handler is. */
  predicate Stage(c: Config, w: World, n: nat, k: nat, status: FileStatus, named: Option<Path>, pc: Pc) {
    && |w.chain.points| == n && |w.chain.outcomes| == k && 0 < k <= n && w.chain.stored == k - 1
    && (forall i :: 0 <= i < k ==> w.chain.outcomes[i])
    && Record(w).size == 0 && Record(w).confirmedOffset == 0 && Record(w).sha256 == Of([])
    && Record(w).destinationPath == Some(c.destination)
    && Record(w).status == status && Record(w).finalizingPath == named
    && w.pc == pc
  }

  lemma {:induction false} Stepped(c: Config, r: Run, e: Event) returns (s: Run)
    requires Happens(c, r) && Shaped(c, r.now) && Honest(c, e)
    ensures s == After(r, e, Next(c, r.now, e)) && Happens(c, s)
  {
    s := After(r, e, Next(c, r.now, e));
  }

  lemma {:induction false} EmptyIsShaped(c: Config, other: seq<byte>, w: World, n: nat, k: nat, status: FileStatus, named: Option<Path>, pc: Pc,
                      partial: Option<nat>, linked: bool)
    requires EmptyOffer(c, other) && Stage(c, w, n, k, status, named, pc)
    requires DiskIs(c, w.disk, other, partial, linked) && (partial == None || partial == Some(1))
    requires pc.Writing? || pc.Syncing? || pc.Confirming? ==> pc.put == NOTHING && pc.ino == 1
    ensures Shaped(c, w)
  {
  }

  lemma {:induction false} EmptyIsClaimed(c: Config, other: seq<byte>, r: Run) returns (s: Run)
    requires EmptyOffer(c, other) && Happens(c, r)
    requires Stage(c, r.now, 1, 1, Queued, None, Idle) && r.now.disk == c.before && r.now.session.None?
    ensures Happens(c, s) && Stage(c, s.now, 2, 1, Active, None, Idle)
    ensures s.now.disk == c.before && s.now.session.None?
  {
    s := Stepped(c, r, Control(Claim, 0));
  }

  /** A PUT of nothing at offset 0 is accepted. */
  lemma {:induction false} EmptyIsPut(c: Config, other: seq<byte>, r: Run) returns (s: Run)
    requires EmptyOffer(c, other) && Happens(c, r)
    requires Stage(c, r.now, 2, 1, Active, None, Idle) && r.now.disk == c.before && r.now.session.None?
    ensures Happens(c, s) && Stage(c, s.now, 2, 1, Active, None, UploadEngine.Opening(NOTHING))
    ensures s.now.disk == c.before && Shaped(c, s.now)
  {
    s := Stepped(c, r, Put(0, 0, None));
  }

  lemma {:induction false} EmptyIsOpened(c: Config, other: seq<byte>, r: Run, go: Choice) returns (s: Run)
    requires EmptyOffer(c, other) && Happens(c, r) && Calm(go)
    requires Stage(c, r.now, 2, 1, Active, None, UploadEngine.Opening(NOTHING)) && r.now.disk == c.before && Shaped(c, r.now)
    ensures Happens(c, s) && Stage(c, s.now, 2, 1, Active, None, Writing(NOTHING, 1, true))
    ensures DiskIs(c, s.now.disk, other, Some(1), false)
  {
    s := Stepped(c, r, Advance(go));
    assert s.now == OpenStep(c, r.now, NOTHING, go);
    assert s.now.chain == r.now.chain;
  }

  /** Written and synced: nothing happens to the bytes. */
  lemma {:induction false} EmptyIsWritten(c: Config, other: seq<byte>, r: Run, go: Choice) returns (s: Run)
    requires EmptyOffer(c, other) && Happens(c, r) && Calm(go)
    requires r.now.pc == Writing(NOTHING, 1, true) || r.now.pc == Syncing(NOTHING, 1, true)
    requires Stage(c, r.now, 2, 1, Active, None, r.now.pc) && DiskIs(c, r.now.disk, other, Some(1), false)
    ensures Happens(c, s) && DiskIs(c, s.now.disk, other, Some(1), false)
    ensures Stage(c, s.now, 2, 1, Active, None,
                  if r.now.pc.Writing? then Syncing(NOTHING, 1, true) else Confirming(NOTHING, 1, true))
  {
    EmptyIsShaped(c, other, r.now, 2, 1, Active, None, r.now.pc, Some(1), false);
    s := Stepped(c, r, Advance(go));
    assert s.now.chain == r.now.chain;
    assert s.now.disk.inodes == r.now.disk.inodes;
  }

  lemma {:induction false} EmptyIsConfirmed(c: Config, other: seq<byte>, r: Run, go: Choice) returns (s: Run)
    requires EmptyOffer(c, other) && Happens(c, r) && Calm(go)
    requires Stage(c, r.now, 2, 1, Active, None, Confirming(NOTHING, 1, true)) && DiskIs(c, r.now.disk, other, Some(1), false)
    ensures Happens(c, s) && DiskIs(c, s.now.disk, other, Some(1), false)
    ensures Stage(c, s.now, 3, 1, FileStatus.Verifying, None, VerifySaving(NOTHING, 1, 2))
  {
    EmptyIsShaped(c, other, r.now, 2, 1, Active, None, r.now.pc, Some(1), false);
    s := Stepped(c, r, Advance(go));
    assert s.now == ConfirmStep(c, r.now, NOTHING, 1, true, go);
  }

  lemma {:induction false} EmptyIsSaved(c: Config, other: seq<byte>, r: Run, n: nat, k: nat, status: FileStatus, named: Option<Path>)
    returns (s: Run)
    requires EmptyOffer(c, other) && Happens(c, r) && k < n
    requires r.now.pc.VerifySaving? || r.now.pc.Linking?
    requires Stage(c, r.now, n, k, status, named, r.now.pc) && DiskIs(c, r.now.disk, other, Some(1), false)
    ensures Happens(c, s) && DiskIs(c, s.now.disk, other, Some(1), false)
    ensures Stage(c, s.now, n, k + 1, status, named, r.now.pc)
  {
    EmptyIsShaped(c, other, r.now, n, k, status, named, r.now.pc, Some(1), false);
    SavingKeepsStage(c, r.now, n, k, status, named, r.now.pc);
    s := Stepped(c, r, Save(true));
  }

  lemma SavingKeepsStage(c: Config, w: World, n: nat, k: nat, status: FileStatus, named: Option<Path>, pc: Pc)
    requires Stage(c, w, n, k, status, named, pc) && k < n
    ensures Stage(c, w.(chain := Settle(w.chain, true)), n, k + 1, status, named, pc)
  {
  }

  /** The save of `verifying` lands, and the digest of no bytes is the expected one. */
  lemma {:induction false} EmptyIsHashed(c: Config, other: seq<byte>, r: Run, go: Choice) returns (s: Run)
    requires EmptyOffer(c, other) && Happens(c, r) && Calm(go)
    requires r.now.pc == VerifySaving(NOTHING, 1, 2) || r.now.pc == Hashing(NOTHING, 1)
    requires Stage(c, r.now, 3, 3, FileStatus.Verifying, None, r.now.pc) && DiskIs(c, r.now.disk, other, Some(1), false)
    ensures Happens(c, s) && DiskIs(c, s.now.disk, other, Some(1), false)
    ensures Stage(c, s.now, 3, 3, FileStatus.Verifying, None,
                  if r.now.pc.Hashing? then Naming(NOTHING, 1, 0) else Hashing(NOTHING, 1))
  {
    EmptyIsShaped(c, other, r.now, 3, 3, FileStatus.Verifying, None, r.now.pc, Some(1), false);
    HashingKeepsStage(c, other, r.now, go);
    s := Stepped(c, r, Advance(go));
  }

  lemma {:induction false} HashingKeepsStage(c: Config, other: seq<byte>, w: World, go: Choice)
    requires Shaped(c, w) && Calm(go) && DiskIs(c, w.disk, other, Some(1), false)
    requires w.pc == VerifySaving(NOTHING, 1, 2) || w.pc == Hashing(NOTHING, 1)
    requires Stage(c, w, 3, 3, FileStatus.Verifying, None, w.pc)
    ensures AdvanceStep(c, w, go).chain == w.chain && AdvanceStep(c, w, go).disk == w.disk
    ensures AdvanceStep(c, w, go).pc == if w.pc.Hashing? then Naming(NOTHING, 1, 0) else Hashing(NOTHING, 1)
  {
  }

  lemma {:induction false} EmptyIsNamed(c: Config, other: seq<byte>, r: Run, n: nat, status: FileStatus, named: Option<Path>, suffix: nat, go: Choice)
    returns (s: Run)
    requires EmptyOffer(c, other) && Happens(c, r) && (status.Verifying? || status.Finalizing?) && suffix < 10_000
    requires Stage(c, r.now, n, n, status, named, Naming(NOTHING, 1, suffix)) && DiskIs(c, r.now.disk, other, Some(1), false)
    ensures Happens(c, s) && DiskIs(c, s.now.disk, other, Some(1), false)
    ensures Stage(c, s.now, n + 1, n, FileStatus.Finalizing, Some(Paths.Candidate(c.destination, suffix)),
                  Linking(NOTHING, 1, suffix, n))
  {
    EmptyIsShaped(c, other, r.now, n, n, status, named, r.now.pc, Some(1), false);
    s := Stepped(c, r, Advance(go));
    assert s.now == NameStep(c, r.now, NOTHING, 1, suffix, go);
  }

  lemma {:induction false} FirstNameIsTaken(c: Config, other: seq<byte>, r: Run, go: Choice) returns (s: Run)
    requires EmptyOffer(c, other) && Happens(c, r) && Calm(go)
    requires Stage(c, r.now, 4, 4, FileStatus.Finalizing, Some(c.destination), Linking(NOTHING, 1, 0, 3))
    requires DiskIs(c, r.now.disk, other, Some(1), false)
    ensures Happens(c, s) && DiskIs(c, s.now.disk, other, Some(1), false)
    ensures Stage(c, s.now, 4, 4, FileStatus.Finalizing, Some(c.destination), Naming(NOTHING, 1, 1))
  {
    EmptyIsShaped(c, other, r.now, 4, 4, FileStatus.Finalizing, Some(c.destination), r.now.pc, Some(1), false);
    s := Stepped(c, r, Advance(go));
    assert s.now == LinkStep(c, r.now, NOTHING, 1, 0, 3, go);
    assert Paths.Candidate(c.destination, 0) == c.destination;
  }

  lemma {:induction false} SecondNameIsLinked(c: Config, other: seq<byte>, r: Run, go: Choice) returns (s: Run)
    requires EmptyOffer(c, other) && Happens(c, r) && Calm(go)
    requires Stage(c, r.now, 5, 5, FileStatus.Finalizing, Some(Beside(c)), Linking(NOTHING, 1, 1, 4))
    requires DiskIs(c, r.now.disk, other, Some(1), false)
    ensures Happens(c, s) && DiskIs(c, s.now.disk, other, Some(1), true)
    ensures Stage(c, s.now, 5, 5, FileStatus.Finalizing, Some(Beside(c)), UploadEngine.Completing(NOTHING, Beside(c)))
  {
    EmptyIsShaped(c, other, r.now, 5, 5, FileStatus.Finalizing, Some(Beside(c)), r.now.pc, Some(1), false);
    Paths.CandidatesAreDistinct(c.destination, 0, 1);
    s := Stepped(c, r, Advance(go));
    assert s.now == LinkStep(c, r.now, NOTHING, 1, 1, 4, go);
  }

  /** The final link exists; now the file is cancelled, retried and claimed before `complete` runs. */
  lemma {:induction false} EmptyIsCancelled(c: Config, other: seq<byte>, r: Run) returns (s: Run)
    requires EmptyOffer(c, other) && Happens(c, r)
    requires Stage(c, r.now, 5, 5, FileStatus.Finalizing, Some(Beside(c)), UploadEngine.Completing(NOTHING, Beside(c)))
    requires DiskIs(c, r.now.disk, other, Some(1), true)
    ensures Happens(c, s) && DiskIs(c, s.now.disk, other, Some(1), true)
    ensures Stage(c, s.now, 6, 5, Cancelled, Some(Beside(c)), UploadEngine.Completing(NOTHING, Beside(c)))
  {
    EmptyIsShaped(c, other, r.now, 5, 5, FileStatus.Finalizing, Some(Beside(c)), r.now.pc, Some(1), true);
    CancellingKeepsStage(c, r.now);
    s := Stepped(c, r, Control(FileChange.Cancel, 0));
    assert s.now == ControlStep(r.now, FileChange.Cancel, 0);
  }

  lemma CancellingKeepsStage(c: Config, w: World)
    requires Stage(c, w, 5, 5, FileStatus.Finalizing, Some(Beside(c)), UploadEngine.Completing(NOTHING, Beside(c)))
    ensures Stage(c, ControlStep(w, FileChange.Cancel, 0), 6, 5, Cancelled, Some(Beside(c)),
                  UploadEngine.Completing(NOTHING, Beside(c)))
    ensures ControlStep(w, FileChange.Cancel, 0).disk == w.disk
  {
  }

  lemma RetryingKeepsStage(c: Config, w: World)
    requires Stage(c, w, 6, 5, Cancelled, Some(Beside(c)), UploadEngine.Completing(NOTHING, Beside(c)))
    ensures Stage(c, ControlStep(w, Retry, 0), 7, 5, Queued, None, UploadEngine.Completing(NOTHING, Beside(c)))
    ensures ControlStep(w, Retry, 0).disk == WithoutPartial(w.disk)
  {
  }

  lemma {:induction false} EmptyIsRetried(c: Config, other: seq<byte>, r: Run) returns (s: Run)
    requires EmptyOffer(c, other) && Happens(c, r)
    requires Stage(c, r.now, 6, 5, Cancelled, Some(Beside(c)), UploadEngine.Completing(NOTHING, Beside(c)))
    requires DiskIs(c, r.now.disk, other, Some(1), true)
    ensures Happens(c, s) && DiskIs(c, s.now.disk, other, None, true)
    ensures Stage(c, s.now, 7, 5, Queued, None, UploadEngine.Completing(NOTHING, Beside(c)))
  {
    EmptyIsShaped(c, other, r.now, 6, 5, Cancelled, Some(Beside(c)), r.now.pc, Some(1), true);
    RetryingKeepsStage(c, r.now);
    s := Stepped(c, r, Control(Retry, 0));
    assert s.now == ControlStep(r.now, Retry, 0);
  }

  lemma {:induction false} EmptyIsReclaimed(c: Config, other: seq<byte>, r: Run) returns (s: Run)
    requires EmptyOffer(c, other) && Happens(c, r)
    requires Stage(c, r.now, 7, 5, Queued, None, UploadEngine.Completing(NOTHING, Beside(c)))
    requires DiskIs(c, r.now.disk, other, None, true)
    ensures Happens(c, s) && DiskIs(c, s.now.disk, other, None, true)
    ensures Stage(c, s.now, 8, 5, Active, None, UploadEngine.Completing(NOTHING, Beside(c)))
  {
    EmptyIsShaped(c, other, r.now, 7, 5, Queued, None, r.now.pc, None, true);
    s := Stepped(c, r, Control(Claim, 0));
    assert s.now == ControlStep(r.now, Claim, 0);
  }

  lemma {:induction false} EmptyIsCompleted(c: Config, other: seq<byte>, r: Run, go: Choice) returns (s: Run)
    requires EmptyOffer(c, other) && Happens(c, r)
    requires Stage(c, r.now, 8, 5, Active, None, UploadEngine.Completing(NOTHING, Beside(c)))
    requires DiskIs(c, r.now.disk, other, None, true)
    ensures Happens(c, s) && DiskIs(c, s.now.disk, other, None, true)
    ensures Stage(c, s.now, 9, 5, FileStatus.Completed, None, CompleteSaving(8))
  {
    EmptyIsShaped(c, other, r.now, 8, 5, Active, None, r.now.pc, None, true);
    s := Stepped(c, r, Advance(go));
    assert s.now == CompleteStep(r.now, NOTHING, go);
  }

  lemma {:induction false} ReachEmptyVerified(c: Config, other: seq<byte>, w: World, go: Choice) returns (r: Run)
    requires EmptyOffer(c, other) && Initial(c, w) && Record(w).sha256 == Of([]) && Calm(go)
    ensures Happens(c, r) && DiskIs(c, r.now.disk, other, Some(1), false)
    ensures Stage(c, r.now, 3, 3, FileStatus.Verifying, None, Naming(NOTHING, 1, 0))
  {
    r := Start(w);
    r := EmptyIsClaimed(c, other, r);
    r := EmptyIsPut(c, other, r);
    r := EmptyIsOpened(c, other, r, go);
    r := EmptyIsWritten(c, other, r, go);
    r := EmptyIsWritten(c, other, r, go);
    r := EmptyIsConfirmed(c, other, r, go);
    r := EmptyIsSaved(c, other, r, 3, 1, FileStatus.Verifying, None);
    r := EmptyIsSaved(c, other, r, 3, 2, FileStatus.Verifying, None);
    r := EmptyIsHashed(c, other, r, go);
    r := EmptyIsHashed(c, other, r, go);
  }

  /**
   For every empty file offered under a name that a non-empty file already has:
   the retry forgets which name was linked, an empty file has nothing left to
   confirm, so `complete` succeeds, and the destination of the completed record
   is the file that was there before.
   */
  lemma {:induction false} EmptyRetryCompletesTheWrongFile(c: Config, other: seq<byte>, w: World, go: Choice) returns (r: Run)
    requires EmptyOffer(c, other) && Initial(c, w) && Record(w).sha256 == Of([]) && Calm(go)
    ensures Happens(c, r) && |r.now.chain.points| > 0
    ensures Record(r.now).status.Completed? && Record(r.now).destinationPath == Some(c.destination)
    ensures c.destination in r.now.disk.names && r.now.disk.names[c.destination] < |r.now.disk.inodes|
    ensures r.now.disk.inodes[r.now.disk.names[c.destination]].data != c.source
  {
    r := ReachEmptyVerified(c, other, w, go);
    r := EmptyIsNamed(c, other, r, 3, FileStatus.Verifying, None, 0, go);
    assert Paths.Candidate(c.destination, 0) == c.destination;
    r := EmptyIsSaved(c, other, r, 4, 3, FileStatus.Finalizing, Some(c.destination));
    r := FirstNameIsTaken(c, other, r, go);
    r := EmptyIsNamed(c, other, r, 4, FileStatus.Finalizing, Some(c.destination), 1, go);
    r := EmptyIsSaved(c, other, r, 5, 4, FileStatus.Finalizing, Some(Beside(c)));
    r := SecondNameIsLinked(c, other, r, go);
    r := EmptyIsCancelled(c, other, r);
    r := EmptyIsRetried(c, other, r);
    r := EmptyIsReclaimed(c, other, r);
    r := EmptyIsCompleted(c, other, r, go);
    Paths.CandidatesAreDistinct(c.destination, 0, 1);
  }

  /**
   Retried and claimed just before `complete`, an empty file ends completed in
   any case.  Its record names the link exactly when it was linked under the
   name it asked for, and the sender's file exactly when that name holds it.
   */
  lemma {:induction false} RetriedBeforeCompletion(c: Config, w: World, path: Path, now: int, go: Choice)
    requires Safe(c, w) && w.pc.Completing? && w.pc.path == path && c.source == []
    requires Record(w).status.Failed? || Record(w).status.Cancelled?
    ensures var claimed := ControlStep(ControlStep(w, Retry, now), Claim, now);
            && |claimed.chain.points| > 0 && Overtaken(c, claimed)
            && var done := CompleteStep(claimed, w.pc.put, go);
               && |done.chain.points| > 0 && Record(done).status.Completed?
               && (Record(done).destinationPath == Some(path) <==> Record(w).destinationPath == Some(path))
               && (Landed(c, done.disk, Record(done)) <==> Landed(c, w.disk, Record(w)))
  {
    RecordIsOk(c, w);
    var retried := ControlStep(w, Retry, now);
    assert Record(retried).status.Queued? && Record(retried).confirmedOffset == 0 && Record(retried).finalizingPath.None?;
    var claimed := ControlStep(retried, Claim, now);
    assert Record(claimed).status.Active? && Record(claimed).confirmedOffset == Record(claimed).size;
  }
}
