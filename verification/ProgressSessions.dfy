/**
 The objects that hold upload progress in memory (`ReceiverProgressSession`
 and `ReceiverProgressSessions` in src/transfer/laptop-data-plane.ts).  Their
 methods are proved against the values the upload engine works with: `Session`
 and `SessionFor` of module UploadEngine and the lock of module KeyLock.
 */
module ProgressSessions {
  import opened Wrappers
  import KeyLock
  import UploadEngine

  type Key = string

  /** `progressKey`; transfer and file ids hold no colon, so the key determines both. */
  function ProgressKey(transferId: string, fileId: string): Key {
    transferId + ":" + fileId
  }

  lemma KeysAreDistinct(transferId: string, fileId: string, otherTransfer: string, otherFile: string)
    requires ':' !in transferId && ':' !in otherTransfer
    ensures ProgressKey(transferId, fileId) == ProgressKey(otherTransfer, otherFile) <==>
            transferId == otherTransfer && fileId == otherFile
  {
    var a, b := ProgressKey(transferId, fileId), ProgressKey(otherTransfer, otherFile);
    if a == b {
      assert a[|transferId|] == ':' && b[|otherTransfer|] == ':';
      assert forall k :: 0 <= k < |transferId| ==> a[k] == transferId[k] && a[k] != ':';
      assert forall k :: 0 <= k < |otherTransfer| ==> b[k] == otherTransfer[k] && b[k] != ':';
      assert a[..|transferId|] == transferId && b[..|transferId|] == otherTransfer;
      assert a[|transferId| + 1..] == fileId && b[|transferId| + 1..] == otherFile;
    }
  }

  /** What a session holds: its offsets and when it last made a checkpoint. */
  datatype Clocked = Clocked(session: UploadEngine.Session, at: int)

  /** `ReceiverProgressPolicy` */
  datatype Policy = Policy(checkpointBytes: nat, checkpointIntervalMs: int)

  predicate BytesDue(p: Policy, s: Clocked, offset: nat) {
    offset - s.session.durable >= p.checkpointBytes
  }

  predicate TimeDue(p: Policy, s: Clocked, now: int) {
    now - s.at >= p.checkpointIntervalMs
  }

  class ReceiverProgressSession {
    const checkpointBytes: nat
    const checkpointIntervalMs: int
    var acceptedOffset: nat
    var durableOffset: nat
    var lastCheckpointAt: int

    constructor (confirmed: nat, checkpointBytes: nat, checkpointIntervalMs: int, now: int)
      ensures Value() == UploadEngine.Session(confirmed, confirmed) && lastCheckpointAt == now
      ensures this.checkpointBytes == checkpointBytes && this.checkpointIntervalMs == checkpointIntervalMs
    {
      this.checkpointBytes, this.checkpointIntervalMs := checkpointBytes, checkpointIntervalMs;
      acceptedOffset, durableOffset, lastCheckpointAt := confirmed, confirmed, now;
    }

    function Value(): UploadEngine.Session
      reads this
    {
      UploadEngine.Session(acceptedOffset, durableOffset)
    }

    function State(): Clocked
      reads this
    {
      Clocked(Value(), lastCheckpointAt)
    }

    function Rules(): Policy {
      Policy(checkpointBytes, checkpointIntervalMs)
    }

    method ShouldCheckpoint(offset: nat, now: int) returns (due: bool)
      ensures due <==> BytesDue(Rules(), State(), offset) || TimeDue(Rules(), State(), now)
    {
      due := offset - durableOffset >= checkpointBytes || now - lastCheckpointAt >= checkpointIntervalMs;
    }

    method MarkAccepted(offset: nat)
      modifies `acceptedOffset
      ensures State() == Clocked(UploadEngine.Session(offset, old(durableOffset)), old(lastCheckpointAt))
    {
      acceptedOffset := offset;
    }

    method MarkCheckpoint(offset: nat, now: int)
      modifies this
      ensures State() == Clocked(UploadEngine.Session(offset, offset), now)
    {
      acceptedOffset := offset;
      durableOffset := offset;
      lastCheckpointAt := now;
    }
  }

  // ----- what the three methods come to over an upload ---------------------

  /** A chunk that has been written: where it ends and when it came. */
  datatype Chunk = Chunk(offset: nat, now: int)

  predicate CheckpointDue(p: Policy, size: nat, s: Clocked, chunk: Chunk) {
    chunk.offset == size || BytesDue(p, s, chunk.offset) || TimeDue(p, s, chunk.now)
  }

  /** How the upload handler notes one chunk. */
  function Noted(p: Policy, size: nat, s: Clocked, chunk: Chunk): Clocked {
    if CheckpointDue(p, size, s, chunk) then Clocked(UploadEngine.Session(chunk.offset, chunk.offset), chunk.now)
    else Clocked(UploadEngine.Session(chunk.offset, s.session.durable), s.at)
  }

  /** What one PUT does with its session when nothing fails. */
  method NoteChunk(session: ReceiverProgressSession, size: nat, chunk: Chunk)
    modifies session
    ensures session.State() == Noted(session.Rules(), size, old(session.State()), chunk)
  {
    var due := session.ShouldCheckpoint(chunk.offset, chunk.now);
    if chunk.offset == size || due {
      session.MarkCheckpoint(chunk.offset, chunk.now);
    } else {
      session.MarkAccepted(chunk.offset);
    }
  }

  function AllNoted(p: Policy, size: nat, s: Clocked, chunks: seq<Chunk>): Clocked
    decreases |chunks|
  {
    if chunks == [] then s else AllNoted(p, size, Noted(p, size, s, chunks[0]), chunks[1..])
  }

  /** Chunks come in order, each behind the last, and clocks do not run backwards. */
  predicate InOrder(size: nat, s: Clocked, chunks: seq<Chunk>) {
    && (forall k :: 0 <= k < |chunks| ==> s.session.accepted <= chunks[k].offset <= size && s.at <= chunks[k].now)
    && (forall j, k :: 0 <= j < k < |chunks| ==> chunks[j].offset <= chunks[k].offset && chunks[j].now <= chunks[k].now)
  }

  /** The checkpoints made for bytes, and those made for time alone, the end of the file apart. */
  function ForBytes(p: Policy, size: nat, s: Clocked, chunks: seq<Chunk>): nat
    decreases |chunks|
  {
    if chunks == [] then 0
    else (if BytesDue(p, s, chunks[0].offset) then 1 else 0) + ForBytes(p, size, Noted(p, size, s, chunks[0]), chunks[1..])
  }

  function ForTime(p: Policy, size: nat, s: Clocked, chunks: seq<Chunk>): nat
    decreases |chunks|
  {
    if chunks == [] then 0
    else
      (if TimeDue(p, s, chunks[0].now) && !BytesDue(p, s, chunks[0].offset) then 1 else 0)
      + ForTime(p, size, Noted(p, size, s, chunks[0]), chunks[1..])
  }

  /**
   What the checkpoints are for: however the chunks come, what is accepted and
   not yet durable is less than one checkpoint, and was accepted within one
   interval of the last checkpoint.
   */
  lemma {:induction false} LittleIsEverAtRisk(p: Policy, size: nat, s: Clocked, chunks: seq<Chunk>)
    requires InOrder(size, s, chunks) && s.session.durable <= s.session.accepted
    requires s.session.accepted == s.session.durable || s.session.accepted - s.session.durable < p.checkpointBytes
    ensures var end := AllNoted(p, size, s, chunks);
            && end.session.durable <= end.session.accepted
            && (end.session.accepted == end.session.durable
                || end.session.accepted - end.session.durable < p.checkpointBytes)
            && (chunks != [] ==>
                  var last := chunks[|chunks| - 1];
                  && end.session.accepted == last.offset
                  && (end.session.accepted == end.session.durable || last.now - end.at < p.checkpointIntervalMs)
                  && (last.offset == size ==> end.session.durable == size))
    decreases |chunks|
  {
    if chunks != [] {
      LittleIsEverAtRisk(p, size, Noted(p, size, s, chunks[0]), chunks[1..]);
    }
  }

  lemma {:induction false} InOrderStep(p: Policy, size: nat, s: Clocked, chunks: seq<Chunk>)
    requires InOrder(size, s, chunks) && s.session.durable <= s.session.accepted && chunks != []
    ensures var next := Noted(p, size, s, chunks[0]);
            InOrder(size, next, chunks[1..]) && next.session.durable <= next.session.accepted
            && s.session.durable <= next.session.durable && s.at <= next.at
  {
  }

  lemma {:induction false} BytesAreSpacedOut(p: Policy, size: nat, s: Clocked, chunks: seq<Chunk>)
    requires InOrder(size, s, chunks) && s.session.durable <= s.session.accepted
    ensures ForBytes(p, size, s, chunks) * p.checkpointBytes <= AllNoted(p, size, s, chunks).session.durable - s.session.durable
    decreases |chunks|
  {
    if chunks != [] {
      var next := Noted(p, size, s, chunks[0]);
      InOrderStep(p, size, s, chunks);
      BytesAreSpacedOut(p, size, next, chunks[1..]);
      var rest := ForBytes(p, size, next, chunks[1..]);
      assert (rest + 1) * p.checkpointBytes == rest * p.checkpointBytes + p.checkpointBytes;
    }
  }

  lemma {:induction false} TimesAreSpacedOut(p: Policy, size: nat, s: Clocked, chunks: seq<Chunk>)
    requires InOrder(size, s, chunks) && s.session.durable <= s.session.accepted
    ensures ForTime(p, size, s, chunks) * p.checkpointIntervalMs <= AllNoted(p, size, s, chunks).at - s.at
    decreases |chunks|
  {
    if chunks != [] {
      var next := Noted(p, size, s, chunks[0]);
      InOrderStep(p, size, s, chunks);
      TimesAreSpacedOut(p, size, next, chunks[1..]);
      var rest := ForTime(p, size, next, chunks[1..]);
      assert (rest + 1) * p.checkpointIntervalMs == rest * p.checkpointIntervalMs + p.checkpointIntervalMs;
    }
  }

  /**
   And what keeping them in memory saves: the checkpoints made for bytes take up
   a checkpoint's worth of the file each, those made for time an interval each.
   */
  lemma {:induction false} CheckpointsAreSpacedOut(p: Policy, size: nat, s: Clocked, chunks: seq<Chunk>)
    requires InOrder(size, s, chunks) && s.session.durable <= s.session.accepted
    ensures var end := AllNoted(p, size, s, chunks);
            && ForBytes(p, size, s, chunks) * p.checkpointBytes <= end.session.durable - s.session.durable
            && ForTime(p, size, s, chunks) * p.checkpointIntervalMs <= end.at - s.at
  {
    BytesAreSpacedOut(p, size, s, chunks);
    TimesAreSpacedOut(p, size, s, chunks);
  }

  class ReceiverProgressSessions {
    const checkpointBytes: nat
    const checkpointIntervalMs: int
    var sessions: map<Key, ReceiverProgressSession>
    var locks: map<Key, nat>
    /** The promises handed out so far, in order of arrival. */
    var callers: seq<KeyLock.Caller>

    constructor (checkpointBytes: nat, checkpointIntervalMs: int)
      ensures Valid() && sessions == map[] && Lock() == KeyLock.EMPTY
    {
      this.checkpointBytes, this.checkpointIntervalMs := checkpointBytes, checkpointIntervalMs;
      sessions, locks, callers := map[], map[], [];
    }

    /** No two keys share a session. */
    ghost predicate Valid()
      reads this
    {
      forall a, b :: a in sessions && b in sessions && a != b ==> sessions[a] != sessions[b]
    }

    function Progress(key: Key): Option<UploadEngine.Session>
      reads this, sessions.Values
    {
      if key in sessions then Some(sessions[key].Value()) else None
    }

    function Lock(): KeyLock.Lock
      reads this
    {
      KeyLock.Lock(callers, locks)
    }

    /** The session of a file, brought up to the queue's offset when that is ahead; every other session stays. */
    method SessionFor(key: Key, confirmed: nat, now: int) returns (session: ReceiverProgressSession)
      requires Valid()
      modifies `sessions, sessions.Values
      ensures Valid() && key in sessions && sessions[key] == session
      ensures Progress(key) == Some(UploadEngine.SessionFor(old(Progress(key)), confirmed))
      ensures forall other :: other != key ==> Progress(other) == old(Progress(other))
    {
      if key in sessions {
        session := sessions[key];
      } else {
        session := new ReceiverProgressSession(confirmed, checkpointBytes, checkpointIntervalMs, now);
        sessions := sessions[key := session];
      }
      if confirmed > session.acceptedOffset {
        session.acceptedOffset := confirmed;
        session.durableOffset := confirmed;
      }
    }

    method LiveAcceptedOffset(key: Key, fallback: nat) returns (offset: nat)
      ensures Progress(key).None? ==> offset == fallback
      ensures Progress(key).Some? ==> offset == Progress(key).value.accepted
    {
      offset := if key in sessions then sessions[key].acceptedOffset else fallback;
    }

    method Clear(key: Key)
      requires Valid()
      modifies `sessions
      ensures Valid() && Progress(key) == None
      ensures forall other :: other != key ==> Progress(other) == old(Progress(other))
    {
      sessions := sessions - {key};
    }

    // `runExclusive` in its three stretches: up to the await, from there to the
    // operation, and the finally block.

    method Arrive(key: Key) returns (caller: nat)
      modifies `locks, `callers
      ensures caller == |old(callers)| && Lock() == KeyLock.Stepped(old(Lock()), KeyLock.Arrive(key))
    {
      var previous := if key in locks then Some(locks[key]) else None;
      caller := |callers|;
      callers := callers + [KeyLock.Caller(key, previous, KeyLock.Waiting)];
      locks := locks[key := caller];
    }

    method Start(caller: nat)
      requires KeyLock.Enabled(Lock(), KeyLock.Start(caller))
      modifies `callers
      ensures Lock() == KeyLock.Stepped(old(Lock()), KeyLock.Start(caller))
    {
      callers := callers[caller := callers[caller].(phase := KeyLock.Running)];
    }

    method Leave(caller: nat, throws: bool)
      requires KeyLock.Enabled(Lock(), KeyLock.Leave(caller, throws))
      modifies `locks, `callers
      ensures Lock() == KeyLock.Stepped(old(Lock()), KeyLock.Leave(caller, throws))
    {
      var key := callers[caller].key;
      callers := callers[caller := callers[caller].(phase := KeyLock.Done)];
      if key in locks && locks[key] == caller {
        locks := locks - {key};
      }
    }
  }
}
