/**
 One phone-to-laptop file as the laptop receives it: the upload handler of
 src/transfer/laptop-data-plane.ts, the locked and unlocked control messages of
 src/transfer/transfer-coordinator.ts, the saves of the queue, crashes and the
 recovery of src/transfer/transfer-queue.ts, as one state machine.

 A step is a stretch of code between two awaits.  The lock of `runExclusive`
 (module KeyLock) lets one handler of the file run at a time, so the machine
 holds one program counter; everything that does not take the lock may run
 between any two stretches.
 */
module UploadEngine {
  import opened Wrappers
  import opened TransferFile
  import opened SaveChain
  import Paths

  /** The first `durable` bytes of an inode survive a crash; the bytes behind them become arbitrary. */
  datatype Inode = Inode(data: seq<byte>, durable: nat)

  /** Directory entries are durable; `partial` is the entry of the file's hidden partial. */
  datatype Disk = Disk(inodes: seq<Inode>, partial: Option<nat>, names: map<Path, nat>)

  /** `ReceiverProgressSession`: progress kept in memory only. */
  datatype Session = Session(accepted: nat, durable: nat)

  /** What stays fixed: the sender's file, the limits, and the disk before the transfer. */
  datatype Config = Config(
    source: seq<byte>,
    destination: Path,
    chunkBytes: nat,
    checkpointBytes: nat,
    before: Disk
  )

  /** One accepted PUT: its range and the digests it is checked against. */
  datatype Upload = Upload(offset: nat, count: nat, offered: Digest, claimed: Option<Digest>)

  /** The three uses of `checkpointAnd`. */
  datatype Hold = Pausing | Cancelling | Disconnecting

  datatype Pc =
    | Idle
    // handleUploadLocked
    | Opening(put: Upload)
    | Writing(put: Upload, ino: nat, due: bool)
    | Syncing(put: Upload, ino: nat, due: bool)
    | Confirming(put: Upload, ino: nat, due: bool)
    | CheckpointSaving(put: Upload, ticket: nat)
    | VerifySaving(put: Upload, ino: nat, ticket: nat)
    | Hashing(put: Upload, ino: nat)
    | Mismatched
    | MismatchSaving(ticket: nat)
    | Naming(put: Upload, ino: nat, suffix: nat)
    | Linking(put: Upload, ino: nat, suffix: nat, ticket: nat)
    | Completing(put: Upload, path: Path)
    | CompleteSaving(ticket: nat)
    // its catch block
    | Catching
    | Undoing(link: Option<Path>)
    | Discarding
    | Failing
    | FailSaving(ticket: nat)
    | Clearing
    // checkpointAnd
    | HoldSyncing(hold: Hold)
    | HoldConfirming(hold: Hold)
    | HoldSaving(hold: Hold, ticket: nat)
    | HoldActing(hold: Hold)
    | HoldActSaving(hold: Hold, ticket: nat)
    | HoldUnlinking
    // recoverInterrupted
    | Recovering
    | RecoverDropping
    | RecoverFailing
    | RecoverSaving(ticket: nat, unlinkAfter: bool)
    | Stopped

  datatype World = World(chain: Chain<FileRecord>, disk: Disk, session: Option<Session>, pc: Pc)

  /** What the code cannot foresee in one stretch: clocks, short writes, and whether a call throws. */
  datatype Choice = Choice(now: int, elapsed: nat, timeDue: bool, written: nat, throws: bool)

  datatype Event =
    | Put(offset: nat, count: nat, claimed: Option<Digest>)
    | Hold(hold: Hold)
    | Advance(choice: Choice)
    | Control(change: FileChange, now: int)
    | Sibling
    | Save(ok: bool)
    | Crash(tails: seq<seq<byte>>)

  function Record(w: World): FileRecord
    requires |w.chain.points| > 0
  {
    Memory(w.chain)
  }

  // ----- disk --------------------------------------------------------------

  function Truncated(d: Disk, ino: nat): Disk
    requires ino < |d.inodes|
  {
    d.(inodes := d.inodes[ino := Inode([], 0)])
  }

  function Zeros(n: nat): seq<byte> {
    seq(n, _ => 0)
  }

  /** A positioned write; past the end of the file the gap reads as zeros. */
  function WriteAt(data: seq<byte>, offset: nat, bytes: seq<byte>): seq<byte> {
    if bytes == [] then data
    else
      var padded := if |data| < offset then data + Zeros(offset - |data|) else data;
      padded[..offset] + bytes + (if offset + |bytes| <= |padded| then padded[offset + |bytes|..] else [])
  }

  function Written(i: Inode, offset: nat, bytes: seq<byte>): Inode {
    if bytes == [] then i
    else Inode(WriteAt(i.data, offset, bytes), if i.durable <= offset then i.durable else offset)
  }

  function Synced(i: Inode): Inode {
    Inode(i.data, |i.data|)
  }

  /** After a crash: the durable prefix, and any tail no longer than what was lost. */
  function Survived(i: Inode, tail: seq<byte>): Inode
    requires i.durable <= |i.data|
  {
    var data := if |tail| <= |i.data| - i.durable then i.data[..i.durable] + tail else i.data[..i.durable];
    Inode(data, |data|)
  }

  predicate InodesOk(d: Disk) {
    forall i :: 0 <= i < |d.inodes| ==> d.inodes[i].durable <= |d.inodes[i].data|
  }

  function Surviving(d: Disk, tails: seq<seq<byte>>): Disk
    requires InodesOk(d)
  {
    d.(inodes := seq(|d.inodes|, i requires 0 <= i < |d.inodes| =>
                       Survived(d.inodes[i], if i < |tails| then tails[i] else [])))
  }

  /** `pathsShareInode` for the partial and a final path. */
  predicate Linked(d: Disk, path: Option<Path>) {
    d.partial.Some? && path.Some? && path.value in d.names && d.names[path.value] == d.partial.value
  }

  /** `unlinkFinalizedLink` */
  function UnlinkedFinal(d: Disk, path: Option<Path>): Disk {
    if Linked(d, path) then d.(names := d.names - {path.value}) else d
  }

  function WithoutPartial(d: Disk): Disk {
    d.(partial := None)
  }

  /** The model's crashes are as bad as can be: of bytes not synced any number may be gone, and any others in their place. */
  lemma CrashMayLoseAnyTail(d: Disk, i: nat, tail: seq<byte>) returns (tails: seq<seq<byte>>)
    requires InodesOk(d) && i < |d.inodes| && |tail| <= |d.inodes[i].data| - d.inodes[i].durable
    ensures var after := Surviving(d, tails);
            && after.names == d.names && after.partial == d.partial && |after.inodes| == |d.inodes|
            && after.inodes[i].data == d.inodes[i].data[..d.inodes[i].durable] + tail
  {
    tails := seq(i + 1, k => if k == i then tail else []);
  }

  /** And nothing is durable by being written: only a sync makes it so, and a new write behind it takes nothing back. */
  lemma WritesAreVolatile(i: Inode, offset: nat, bytes: seq<byte>)
    requires i.durable <= |i.data| && bytes != []
    ensures Written(i, offset, bytes).durable <= i.durable && Written(i, offset, bytes).durable <= offset
    ensures offset >= i.durable ==> Written(i, offset, bytes).durable == i.durable
    ensures Synced(i).durable == |i.data| && Synced(i).data == i.data
  {
  }

  // ----- queue and session -------------------------------------------------

  function Mutate(w: World, f: FileRecord): World {
    w.(chain := Persist(w.chain, f))
  }

  /** The ticket of the save a mutation just handed over. */
  function Ticket(w: World): nat {
    |w.chain.points|
  }

  predicate SaveFailed(w: World, ticket: nat) {
    Resolved(w.chain, ticket) && !w.chain.outcomes[ticket]
  }

  predicate Saved(w: World, ticket: nat) {
    Resolved(w.chain, ticket) && w.chain.outcomes[ticket]
  }

  /** `sessionFor` */
  function SessionFor(s: Option<Session>, confirmed: int): Session
    requires confirmed >= 0
  {
    if s.None? || confirmed > s.value.accepted then Session(confirmed, confirmed) else s.value
  }

  /** `queue.fail` followed by `clear`: it returns at once when the file is already terminal. */
  function FailThen(w: World, code: string, now: int, saving: Pc, already: Pc): World
    requires |w.chain.points| > 0
  {
    if IsTerminalFile(Record(w).status) then w.(pc := already)
    else Mutate(w, Changed(Record(w), Fail(code), now).value).(pc := saving)
  }

  // ----- the upload handler ------------------------------------------------

  /** The checks of `handleUpload` and `handleUploadLocked`, made once the lock is held. */
  function PutStep(c: Config, w: World, offset: nat, count: nat, claimed: Option<Digest>): World
    requires |w.chain.points| > 0
  {
    var f := Record(w);
    if !w.pc.Idle? || f.confirmedOffset < 0 then w
    else
      var session := SessionFor(w.session, f.confirmedOffset);
      var seen := w.(session := Some(session));
      if offset != session.accepted then seen
      else if f.destinationPath.None? || f.status != Active then seen
      else if count > c.chunkBytes || offset + count > f.size || (f.size > 0 && count == 0) then seen
      else seen.(pc := Opening(Upload(offset, count, f.sha256, claimed)))
  }

  predicate EndsFile(c: Config, put: Upload) {
    put.offset + put.count == |c.source|
  }

  /** `checkpointDue` */
  predicate Due(c: Config, w: World, put: Upload, timeDue: bool) {
    || EndsFile(c, put)
    || (w.session.Some? && put.offset + put.count - w.session.value.durable >= c.checkpointBytes)
    || timeDue
  }

  function OpenStep(c: Config, w: World, put: Upload, choice: Choice): World
    requires |w.chain.points| > 0 && (w.disk.partial.Some? ==> w.disk.partial.value < |w.disk.inodes|)
  {
    if choice.throws then w.(pc := Idle)
    else
      var due := Due(c, w, put, choice.timeDue);
      if put.offset == 0 then
        if w.disk.partial.Some? then
          var ino := w.disk.partial.value;
          w.(disk := Truncated(w.disk, ino), pc := Writing(put, ino, due))
        else
          var ino := |w.disk.inodes|;
          w.(disk := w.disk.(inodes := w.disk.inodes + [Inode([], 0)], partial := Some(ino)),
             pc := Writing(put, ino, due))
      else if w.disk.partial.Some? then
        w.(pc := Writing(put, w.disk.partial.value, due))
      else
        FailThen(w, "partial_state_missing", choice.now, FailSaving(Ticket(w)), Clearing)
  }

  function WriteStep(c: Config, w: World, put: Upload, ino: nat, due: bool, choice: Choice): World
    requires ino < |w.disk.inodes| && put.offset + put.count <= |c.source|
  {
    if choice.throws then w.(pc := Idle)
    else
      var written := if choice.written < put.count then choice.written else put.count;
      var bytes := c.source[put.offset..put.offset + written];
      var inode := Written(w.disk.inodes[ino], put.offset, bytes);
      w.(disk := w.disk.(inodes := w.disk.inodes[ino := inode]),
         pc := if written < put.count then Idle else Syncing(put, ino, due))
  }

  function SyncStep(w: World, put: Upload, ino: nat, due: bool, choice: Choice): World
    requires ino < |w.disk.inodes|
  {
    if choice.throws then w.(pc := Idle)
    else if due then
      w.(disk := w.disk.(inodes := w.disk.inodes[ino := Synced(w.disk.inodes[ino])]), pc := Confirming(put, ino, due))
    else
      w.(pc := Confirming(put, ino, due))
  }

  /** A digest the last PUT must not carry: missing or useless when deferred, different when offered. */
  predicate DigestRefused(put: Upload) {
    if put.offered == Placeholder then
      put.claimed.None? || put.claimed.value == Placeholder || put.claimed.value == Malformed
    else
      put.claimed.Some? && put.claimed.value != put.offered
  }

  function ConfirmStep(c: Config, w: World, put: Upload, ino: nat, due: bool, choice: Choice): World
    requires |w.chain.points| > 0
  {
    var reached := put.offset + put.count;
    if choice.throws then w.(pc := Idle)
    else if EndsFile(c, put) then
      if DigestRefused(put) then w.(pc := Idle)
      else
        var r := Changed(Record(w), BeginVerification(reached, choice.elapsed), choice.now);
        if r.Err? then w.(pc := Idle)
        else Mutate(w, r.value).(pc := VerifySaving(put, ino, Ticket(w)))
    else if due then
      var r := Changed(Record(w), Confirm(reached, None), choice.now);
      if r.Err? then w.(pc := Idle)
      else Mutate(w, r.value).(pc := CheckpointSaving(put, Ticket(w)))
    else
      w.(session := if w.session.Some? then Some(w.session.value.(accepted := reached)) else None, pc := Idle)
  }

  /** `markCheckpoint` */
  function Checkpointed(w: World, put: Upload): World {
    var reached := put.offset + put.count;
    w.(session := Some(Session(reached, reached)))
  }

  function Expected(put: Upload): Digest {
    if put.offered == Placeholder && put.claimed.Some? then put.claimed.value else put.offered
  }

  function HashStep(w: World, put: Upload, ino: nat, choice: Choice): World
    requires w.disk.partial.Some? ==> w.disk.partial.value < |w.disk.inodes|
  {
    if choice.throws || w.disk.partial.None? then w.(pc := Catching)
    else if Of(w.disk.inodes[w.disk.partial.value].data) == Expected(put) then w.(pc := Naming(put, ino, 0))
    else w.(disk := WithoutPartial(w.disk), pc := Mismatched)
  }

  function NameStep(c: Config, w: World, put: Upload, ino: nat, suffix: nat, choice: Choice): World
    requires |w.chain.points| > 0
  {
    if suffix >= 10_000 then w.(pc := Catching)
    else
      var r := Changed(Record(w), BeginFinalization(Paths.Candidate(c.destination, suffix), choice.elapsed), choice.now);
      if r.Err? then w.(pc := Catching)
      else Mutate(w, r.value).(pc := Linking(put, ino, suffix, Ticket(w)))
  }

  function LinkStep(c: Config, w: World, put: Upload, ino: nat, suffix: nat, ticket: nat, choice: Choice): World {
    if !Resolved(w.chain, ticket) then w
    else if SaveFailed(w, ticket) || choice.throws || w.disk.partial.None? then w.(pc := Catching)
    else
      var path := Paths.Candidate(c.destination, suffix);
      if path in w.disk.names then w.(pc := Naming(put, ino, suffix + 1))
      else w.(disk := w.disk.(names := w.disk.names[path := w.disk.partial.value]), pc := Completing(put, path))
  }

  /** The digest handed to `complete` is the one the bytes hashed to, which was the expected one. */
  function CompleteStep(w: World, put: Upload, choice: Choice): World
    requires |w.chain.points| > 0
  {
    var r := Changed(Record(w), Complete(Expected(put), choice.elapsed), choice.now);
    if r.Err? then w.(pc := Catching)
    else Mutate(w, r.value).(pc := CompleteSaving(Ticket(w)))
  }

  function CatchStep(w: World): World
    requires |w.chain.points| > 0
  {
    if Record(w).status.Completed? then w.(pc := Clearing)
    else w.(pc := Undoing(Record(w).finalizingPath))
  }

  // ----- checkpointAnd -----------------------------------------------------

  function HoldStep(w: World, hold: Hold): World {
    if !w.pc.Idle? then w
    else if w.session.Some? && w.session.value.accepted > w.session.value.durable then w.(pc := HoldSyncing(hold))
    else w.(pc := HoldActing(hold))
  }

  function HoldSyncStep(w: World, hold: Hold, choice: Choice): World
    requires |w.chain.points| > 0 && (w.disk.partial.Some? ==> w.disk.partial.value < |w.disk.inodes|)
  {
    if choice.throws || Record(w).destinationPath.None? || w.disk.partial.None? then w.(pc := Idle)
    else
      var ino := w.disk.partial.value;
      w.(disk := w.disk.(inodes := w.disk.inodes[ino := Synced(w.disk.inodes[ino])]), pc := HoldConfirming(hold))
  }

  function HoldConfirmStep(w: World, hold: Hold, choice: Choice): World
    requires |w.chain.points| > 0
  {
    if w.session.None? then w.(pc := Idle)
    else
      var r := Changed(Record(w), Confirm(w.session.value.accepted, None), choice.now);
      if r.Err? then w.(pc := Idle)
      else Mutate(w, r.value).(pc := HoldSaving(hold, Ticket(w)))
  }

  function HoldSaveStep(w: World, hold: Hold, ticket: nat): World {
    if !Resolved(w.chain, ticket) then w
    else if SaveFailed(w, ticket) || w.session.None? then w.(pc := Idle)
    else
      w.(session := Some(Session(w.session.value.accepted, w.session.value.accepted)), pc := HoldActing(hold))
  }

  function HoldActStep(w: World, hold: Hold, choice: Choice): World
    requires |w.chain.points| > 0
  {
    match hold
    case Pausing => Mutate(w, Changed(Record(w), Pause, choice.now).value).(pc := HoldActSaving(hold, Ticket(w)))
    case Cancelling => Mutate(w, Changed(Record(w), Cancel, choice.now).value).(pc := HoldActSaving(hold, Ticket(w)))
    case Disconnecting => FailThen(w, "peer_disconnected", choice.now, HoldActSaving(hold, Ticket(w)), HoldUnlinking)
  }

  function HoldActSaveStep(w: World, hold: Hold, ticket: nat): World {
    if !Resolved(w.chain, ticket) then w
    else if SaveFailed(w, ticket) || hold.Pausing? then w.(pc := Idle)
    else w.(pc := HoldUnlinking)
  }

  // ----- crash and recovery ------------------------------------------------

  /** Memory, sessions, handlers and unsaved snapshots are gone; the queue opens on what the store holds. */
  function CrashStep(w: World, tails: seq<seq<byte>>): World
    requires w.chain.stored < |w.chain.points| && InodesOk(w.disk)
  {
    World(Opened(Store(w.chain)), Surviving(w.disk, tails), None, Recovering)
  }

  function RecoverStep(w: World): World
    requires |w.chain.points| > 0
  {
    var f := Record(w);
    var linked := Linked(w.disk, f.finalizingPath);
    var g := Recovered(f, linked);
    if g == f then w.(pc := Idle)
    else if g.status.Failed? then w.(pc := RecoverDropping)
    else Mutate(w, g).(pc := RecoverSaving(Ticket(w), g.status.Completed?))
  }

  function RecoverFailStep(w: World): World
    requires |w.chain.points| > 0
  {
    Mutate(w, Recovered(Record(w), false)).(pc := RecoverSaving(Ticket(w), false))
  }

  function RecoverSaveStep(w: World, ticket: nat, unlinkAfter: bool): World {
    if !Resolved(w.chain, ticket) then w
    else if SaveFailed(w, ticket) then w.(pc := Stopped)
    else w.(pc := Idle, disk := if unlinkAfter then WithoutPartial(w.disk) else w.disk)
  }

  // ----- the machine -------------------------------------------------------

  /** What every step needs to be defined; part of the safety invariant. */
  predicate Shaped(c: Config, w: World) {
    && Valid(w.chain)
    && InodesOk(w.disk)
    && (w.disk.partial.Some? ==> w.disk.partial.value < |w.disk.inodes|)
    && (forall p :: p in w.disk.names ==> w.disk.names[p] < |w.disk.inodes|)
    && (w.pc.Writing? || w.pc.Syncing? || w.pc.Confirming? ==>
          w.pc.ino < |w.disk.inodes| && w.pc.put.offset + w.pc.put.count <= |c.source|)
  }

  predicate Receiving(pc: Pc) {
    pc.Opening? || pc.Writing? || pc.Syncing? || pc.Confirming?
  }

  predicate Publishing(pc: Pc) {
    pc.Hashing? || pc.Naming? || pc.Linking? || pc.Completing? || pc.Undoing?
  }

  predicate Holding(pc: Pc) {
    pc.HoldSyncing? || pc.HoldConfirming? || pc.HoldSaving? || pc.HoldActing? || pc.HoldActSaving? || pc.HoldUnlinking?
  }

  predicate Down(pc: Pc) {
    pc.Recovering? || pc.RecoverDropping? || pc.RecoverFailing? || pc.RecoverSaving? || pc.Stopped?
  }

  function ReceiveStep(c: Config, w: World, choice: Choice): World
    requires Shaped(c, w)
  {
    match w.pc
    case Opening(put) => OpenStep(c, w, put, choice)
    case Writing(put, ino, due) => WriteStep(c, w, put, ino, due, choice)
    case Syncing(put, ino, due) => SyncStep(w, put, ino, due, choice)
    case Confirming(put, ino, due) => ConfirmStep(c, w, put, ino, due, choice)
    case _ => w
  }

  function PublishStep(c: Config, w: World, choice: Choice): World
    requires Shaped(c, w)
  {
    match w.pc
    case Hashing(put, ino) => HashStep(w, put, ino, choice)
    case Naming(put, ino, suffix) => NameStep(c, w, put, ino, suffix, choice)
    case Linking(put, ino, suffix, ticket) => LinkStep(c, w, put, ino, suffix, ticket, choice)
    case Completing(put, path) => CompleteStep(w, put, choice)
    case Undoing(link) => w.(disk := UnlinkedFinal(w.disk, link), pc := Discarding)
    case _ => w
  }

  /** A handler waiting for a save goes on when it has settled: one way when it succeeded, another when it threw. */
  function Awaited(w: World, ticket: nat, onSaved: World, onFailed: Pc): World {
    if !Resolved(w.chain, ticket) then w
    else if SaveFailed(w, ticket) then w.(pc := onFailed)
    else onSaved
  }

  function TailStep(c: Config, w: World, choice: Choice): World
    requires Shaped(c, w)
  {
    match w.pc
    case CheckpointSaving(put, ticket) => Awaited(w, ticket, Checkpointed(w, put).(pc := Idle), Idle)
    case VerifySaving(put, ino, ticket) => Awaited(w, ticket, Checkpointed(w, put).(pc := Hashing(put, ino)), Idle)
    case Mismatched => FailThen(w, "hash_mismatch", choice.now, MismatchSaving(Ticket(w)), Clearing)
    case MismatchSaving(ticket) => Awaited(w, ticket, w.(pc := Clearing), Catching)
    case CompleteSaving(ticket) => Awaited(w, ticket, w.(disk := WithoutPartial(w.disk), pc := Clearing), Catching)
    case Catching => CatchStep(w)
    case Discarding => w.(disk := WithoutPartial(w.disk), pc := Failing)
    case Failing => FailThen(w, "terminal_processing_failed", choice.now, FailSaving(Ticket(w)), Clearing)
    case FailSaving(ticket) => Awaited(w, ticket, w.(pc := Clearing), Idle)
    case Clearing => w.(session := None, pc := Idle)
    case _ => w
  }

  function HoldAdvance(w: World, choice: Choice): World
    requires |w.chain.points| > 0 && (w.disk.partial.Some? ==> w.disk.partial.value < |w.disk.inodes|)
  {
    match w.pc
    case HoldSyncing(hold) => HoldSyncStep(w, hold, choice)
    case HoldConfirming(hold) => HoldConfirmStep(w, hold, choice)
    case HoldSaving(hold, ticket) => HoldSaveStep(w, hold, ticket)
    case HoldActing(hold) => HoldActStep(w, hold, choice)
    case HoldActSaving(hold, ticket) => HoldActSaveStep(w, hold, ticket)
    case HoldUnlinking => w.(disk := WithoutPartial(w.disk), pc := Clearing)
    case _ => w
  }

  function RecoverAdvance(w: World): World
    requires |w.chain.points| > 0
  {
    match w.pc
    case Recovering => RecoverStep(w)
    case RecoverDropping => w.(disk := WithoutPartial(w.disk), pc := RecoverFailing)
    case RecoverFailing => RecoverFailStep(w)
    case RecoverSaving(ticket, unlinkAfter) => RecoverSaveStep(w, ticket, unlinkAfter)
    case _ => w
  }

  /** The next stretch of whoever holds the file's lock. */
  function AdvanceStep(c: Config, w: World, choice: Choice): World
    requires Shaped(c, w)
  {
    if Receiving(w.pc) then ReceiveStep(c, w, choice)
    else if Publishing(w.pc) then PublishStep(c, w, choice)
    else if Holding(w.pc) then HoldAdvance(w, choice)
    else if Down(w.pc) then RecoverAdvance(w)
    else TailStep(c, w, choice)
  }

  /** The queue mutations that do not take the file's lock. */
  predicate Unlocked(change: FileChange) {
    change.Claim? || change.Pause? || change.Resume? || change.Cancel? || change.Retry?
    || change.Fail? || change.Expire? || change.Mark?
  }

  function ControlStep(w: World, change: FileChange, now: int): World
    requires |w.chain.points| > 0
  {
    if Down(w.pc) || !Unlocked(change) || !Applicable(Record(w), change) then w
    else
      var retried := change.Retry? && (Record(w).status.Failed? || Record(w).status.Cancelled?);
      var disk := if retried && Record(w).destinationPath.Some? then WithoutPartial(w.disk) else w.disk;
      Mutate(w, Changed(Record(w), change, now).value).(disk := disk)
  }

  function Next(c: Config, w: World, e: Event): World
    requires Shaped(c, w)
  {
    match e
    case Put(offset, count, claimed) => PutStep(c, w, offset, count, claimed)
    case Hold(hold) => HoldStep(w, hold)
    case Advance(choice) => AdvanceStep(c, w, choice)
    case Control(change, now) => ControlStep(w, change, now)
    case Sibling => if Down(w.pc) then w else Mutate(w, Record(w))
    case Save(ok) => w.(chain := Settle(w.chain, ok))
    case Crash(tails) => CrashStep(w, tails)
  }

  /** A record as an offer leaves it. */
  predicate Offered(c: Config, f: FileRecord) {
    && f.status.Queued? && f.confirmedOffset == 0
    && f.size == |c.source| && SafeInteger(f.size)
    && f.destinationPath == Some(c.destination) && f.finalizingPath.None?
    && (f.sha256 == Placeholder || f.sha256 == Of(c.source))
  }

  /** A file just offered: queued, nothing received, none of its own names on the disk. */
  predicate Initial(c: Config, w: World) {
    && w.session.None? && w.pc.Idle?
    && w.disk == c.before && c.before.partial.None?
    && |w.chain.points| == 1 && w.chain == Opened(Record(w)) && Offered(c, Record(w))
    && (forall i :: 0 <= i < |c.before.inodes| ==> c.before.inodes[i].durable == |c.before.inodes[i].data|)
    && (forall p :: p in c.before.names ==> c.before.names[p] < |c.before.inodes|)
  }

  /** An honest sender claims no digest but its own file's; it may still send none or a useless one. */
  predicate Honest(c: Config, e: Event) {
    e.Put? && e.claimed.Some? && e.claimed.value.Of? ==> e.claimed.value == Of(c.source)
  }

  /** A change of any other file of the queue hands over a snapshot too, in which this one is as it was. */
  lemma OthersTakeSnapshots(c: Config, w: World)
    requires Shaped(c, w) && !Down(w.pc)
    ensures Next(c, w, Sibling).chain.points == w.chain.points + [Record(w)]
    ensures Next(c, w, Sibling) == w.(chain := Next(c, w, Sibling).chain) && Record(Next(c, w, Sibling)) == Record(w)
  {
  }
}
