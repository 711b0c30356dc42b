/**
 The sealed session (`SessionSealer` in src/shared/session-seal.ts and how
 src/relay/relay.ts sends and receives with it): two counters per end, a nonce
 from the direction and the counter, and a network that may drop, replay,
 reorder, reflect, alter or invent messages.
 */
module Seal {
  import opened Wrappers
  import opened TransferFile
  import BigEndian

  type Bytes = seq<byte>

  datatype Direction = RelayToPhone | PhoneToRelay

  function Opposite(d: Direction): Direction {
    if d.RelayToPhone? then PhoneToRelay else RelayToPhone
  }

  const COUNTERS: nat := 0x1_0000_0000_0000_0000

  /** `sealNonce`: direction byte, three zeros, 64-bit big-endian counter; a larger counter throws. */
  function SealNonce(d: Direction, counter: nat): Option<Bytes> {
    if counter >= COUNTERS then None
    else Some([if d.RelayToPhone? then 0 else 1, 0, 0, 0] + BigEndian.Write(counter, 8))
  }

  /** Twelve bytes: who sends, three zeros, and the counter, which can be read back; none beyond 64 bits. */
  lemma SealNonceIs(d: Direction, counter: nat)
    ensures SealNonce(d, counter).Some? <==> counter < 18_446_744_073_709_551_616
    ensures SealNonce(d, counter).Some? ==>
              var nonce := SealNonce(d, counter).value;
              && |nonce| == 12
              && nonce[0] == (if d == RelayToPhone then 0 else 1) && nonce[1] == nonce[2] == nonce[3] == 0
              && BigEndian.Read(nonce[4..]) == counter
  {
    assert BigEndian.Bound(8) == COUNTERS;
    if counter < COUNTERS {
      BigEndian.ReadWrite(counter, 8);
      assert SealNonce(d, counter).value[4..] == BigEndian.Write(counter, 8);
    }
  }

  /** The deterministic construction of section 8.2.1 of NIST SP 800-38D: no two counters share a nonce. */
  lemma NoncesAreDistinct(d: Direction, m: nat, e: Direction, n: nat)
    requires SealNonce(d, m).Some? && SealNonce(e, n).Some?
    ensures SealNonce(d, m) == SealNonce(e, n) <==> d == e && m == n
  {
    assert BigEndian.Bound(8) == COUNTERS;
    var a, b := SealNonce(d, m).value, SealNonce(e, n).value;
    assert a[4..] == BigEndian.Write(m, 8) && b[4..] == BigEndian.Write(n, 8);
    assert a[0] == (if d.RelayToPhone? then 0 else 1) && b[0] == (if e.RelayToPhone? then 0 else 1);
    BigEndian.WriteIsInjective(m, n, 8);
  }

  /** AES-256-GCM under the session key. */
  datatype Aead = Aead(encrypt: (Bytes, Bytes) -> Bytes, decrypt: (Bytes, Bytes) -> Option<Bytes>)

  ghost predicate Correct(a: Aead) {
    forall nonce, message :: a.decrypt(nonce, a.encrypt(nonce, message)) == Some(message)
  }

  datatype SealedMessage = SealedMessage(nonce: Bytes, payload: Bytes)

  function Sealing(a: Aead, d: Direction, sent: nat, message: Bytes): Option<SealedMessage> {
    var nonce := SealNonce(d, sent);
    if nonce.None? then None else Some(SealedMessage(nonce.value, a.encrypt(nonce.value, message)))
  }

  /** Nothing comes out unless the nonce is the next one of the peer and the tag verifies. */
  function Opening(a: Aead, d: Direction, received: nat, sealed: SealedMessage): Option<Bytes> {
    var expected := SealNonce(d, received);
    if expected.None? || sealed.nonce != expected.value then None
    else a.decrypt(expected.value, sealed.payload)
  }

  class SessionSealer {
    const aead: Aead
    const sendDirection: Direction
    const receiveDirection: Direction
    var sent: nat
    var received: nat

    constructor (aead: Aead, sendDirection: Direction)
      ensures this.aead == aead && this.sendDirection == sendDirection
      ensures receiveDirection == Opposite(sendDirection) && sent == 0 && received == 0
    {
      this.aead, this.sendDirection := aead, sendDirection;
      receiveDirection := Opposite(sendDirection);
      sent, received := 0, 0;
    }

    /** Sealing counts up exactly when it yields a message. */
    method SealMessage(message: Bytes) returns (sealed: Option<SealedMessage>)
      modifies `sent
      ensures sealed == Sealing(aead, sendDirection, old(sent), message)
      ensures sent == if sealed.Some? then old(sent) + 1 else old(sent)
    {
      var nonce := SealNonce(sendDirection, sent);
      if nonce.None? {
        return None;
      }
      sent := sent + 1;
      return Some(SealedMessage(nonce.value, aead.encrypt(nonce.value, message)));
    }

    /** Opening counts up exactly when it yields a message. */
    method OpenMessage(sealed: SealedMessage) returns (message: Option<Bytes>)
      modifies `received
      ensures message == Opening(aead, receiveDirection, old(received), sealed)
      ensures received == if message.Some? then old(received) + 1 else old(received)
    {
      var expected := SealNonce(receiveDirection, received);
      if expected.None? || sealed.nonce != expected.value {
        return None;
      }
      message := aead.decrypt(expected.value, sealed.payload);
      if message.Some? {
        received := received + 1;
      }
    }
  }

  // ----- the channel ---------------------------------------------------------

  /**
   One direction of a session: what its sender was asked to send under seal and
   what went out, both ends' counters, and what the receiver has acted on.
   */
  datatype Lane = Lane(
    messages: seq<Bytes>,
    sealed: seq<SealedMessage>,
    sent: nat,
    received: nat,
    acted: seq<Bytes>,
    closed: bool
  )

  datatype Channel = Channel(toPhone: Lane, toRelay: Lane)

  const QUIET := Lane([], [], 0, 0, [], false)

  function LaneOf(c: Channel, d: Direction): Lane {
    if d.RelayToPhone? then c.toPhone else c.toRelay
  }

  function WithLane(c: Channel, d: Direction, lane: Lane): Channel {
    if d.RelayToPhone? then c.(toPhone := lane) else c.(toRelay := lane)
  }

  /** `unsealed` is `travelsUnsealed`: publish and payload frames, which carry their own encryption. */
  datatype Arrival = Under(sealed: SealedMessage) | Clear(unsealed: bool, body: Bytes)

  datatype Step = Send(d: Direction, unsealed: bool, message: Bytes) | Deliver(d: Direction, arrival: Arrival)

  /** `send`: control messages are sealed, or the call throws. */
  function Sent(a: Aead, d: Direction, lane: Lane, message: Bytes): Lane {
    var out := Sealing(a, d, lane.sent, message);
    if out.None? then lane
    else lane.(messages := lane.messages + [message], sealed := lane.sealed + [out.value], sent := lane.sent + 1)
  }

  /** The message handler once the session is sealed: open, or close the socket; control in the clear closes it too. */
  function Delivered(a: Aead, d: Direction, lane: Lane, arrival: Arrival): Lane {
    if lane.closed then lane
    else
      match arrival
      case Under(sealed) =>
        var message := Opening(a, d, lane.received, sealed);
        if message.None? then lane.(closed := true)
        else lane.(received := lane.received + 1, acted := lane.acted + [message.value])
      case Clear(unsealed, _) => if unsealed then lane else lane.(closed := true)
  }

  function Stepped(a: Aead, c: Channel, step: Step): Channel {
    match step
    case Send(d, unsealed, message) =>
      if unsealed then c else WithLane(c, d, Sent(a, d, LaneOf(c, d), message))
    case Deliver(d, arrival) => WithLane(c, d, Delivered(a, d, LaneOf(c, d), arrival))
  }

  /** The ideal AEAD: what verifies under the session key was sealed under it, by either end. */
  predicate Authentic(a: Aead, c: Channel, step: Step) {
    step.Deliver? && step.arrival.Under? && a.decrypt(step.arrival.sealed.nonce, step.arrival.sealed.payload).Some? ==>
      step.arrival.sealed in c.toPhone.sealed || step.arrival.sealed in c.toRelay.sealed
  }

  predicate LaneOk(a: Aead, d: Direction, lane: Lane) {
    && |lane.messages| == |lane.sealed| == lane.sent <= COUNTERS
    && (forall i :: 0 <= i < |lane.sealed| ==> Sealing(a, d, i, lane.messages[i]) == Some(lane.sealed[i]))
    && lane.received == |lane.acted|
    && lane.acted <= lane.messages
  }

  predicate ChannelOk(a: Aead, c: Channel) {
    LaneOk(a, RelayToPhone, c.toPhone) && LaneOk(a, PhoneToRelay, c.toRelay)
  }

  lemma LaneIsOk(a: Aead, c: Channel, d: Direction)
    requires ChannelOk(a, c)
    ensures LaneOk(a, d, LaneOf(c, d))
  {
  }

  /** Whatever opens at one end is the message its peer sealed with exactly that counter. */
  lemma OpenedIsTheNextSealed(a: Aead, c: Channel, d: Direction, sealed: SealedMessage)
    requires Correct(a) && ChannelOk(a, c) && Authentic(a, c, Deliver(d, Under(sealed)))
    requires Opening(a, d, LaneOf(c, d).received, sealed).Some?
    ensures var lane := LaneOf(c, d);
            && lane.received < lane.sent
            && sealed == lane.sealed[lane.received]
            && Opening(a, d, lane.received, sealed) == Some(lane.messages[lane.received])
  {
    var received := LaneOf(c, d).received;
    var e := if sealed in LaneOf(c, d).sealed then d else Opposite(d);
    var lane := LaneOf(c, e);
    assert sealed in lane.sealed;
    LaneIsOk(a, c, e);
    var i :| 0 <= i < |lane.sealed| && lane.sealed[i] == sealed;
    assert Sealing(a, e, i, lane.messages[i]) == Some(sealed);
    NoncesAreDistinct(d, received, e, i);
  }

  /** A sealed message opens if and only if it is the next one of its direction, whole. */
  lemma OpensExactlyTheNext(a: Aead, c: Channel, d: Direction, sealed: SealedMessage)
    requires Correct(a) && ChannelOk(a, c) && Authentic(a, c, Deliver(d, Under(sealed)))
    ensures var lane := LaneOf(c, d);
            Opening(a, d, lane.received, sealed).Some? <==>
            lane.received < lane.sent && sealed == lane.sealed[lane.received]
  {
    var lane := LaneOf(c, d);
    LaneIsOk(a, c, d);
    if Opening(a, d, lane.received, sealed).Some? {
      OpenedIsTheNextSealed(a, c, d, sealed);
    }
    if lane.received < lane.sent && sealed == lane.sealed[lane.received] {
      assert Sealing(a, d, lane.received, lane.messages[lane.received]) == Some(sealed);
    }
  }

  lemma SendKeepsLaneOk(a: Aead, d: Direction, lane: Lane, message: Bytes)
    requires LaneOk(a, d, lane)
    ensures LaneOk(a, d, Sent(a, d, lane, message))
  {
    var next := Sent(a, d, lane, message);
    forall i | 0 <= i < |next.sealed|
      ensures Sealing(a, d, i, next.messages[i]) == Some(next.sealed[i])
    {
      if i < |lane.sealed| {
        assert next.messages[i] == lane.messages[i] && next.sealed[i] == lane.sealed[i];
      }
    }
  }

  lemma StepKeepsChannelOk(a: Aead, c: Channel, step: Step)
    requires Correct(a) && ChannelOk(a, c) && Authentic(a, c, step)
    ensures ChannelOk(a, Stepped(a, c, step))
  {
    var lane := LaneOf(c, step.d);
    LaneIsOk(a, c, step.d);
    if step.Send? {
      SendKeepsLaneOk(a, step.d, lane, step.message);
    } else if step.arrival.Under? && Opening(a, step.d, lane.received, step.arrival.sealed).Some? {
      OpenedIsTheNextSealed(a, c, step.d, step.arrival.sealed);
      var n := lane.received;
      assert lane.messages[..n + 1] == lane.messages[..n] + [lane.messages[n]];
      assert LaneOk(a, step.d, Delivered(a, step.d, lane, step.arrival));
    } else {
      assert LaneOk(a, step.d, Delivered(a, step.d, lane, step.arrival));
    }
  }

  /** What is sealed opens at the peer, at its own turn and at no other. */
  lemma SealedOpensOnce(a: Aead, d: Direction, sent: nat, message: Bytes, turn: nat)
    requires Correct(a) && Sealing(a, d, sent, message).Some?
    ensures Opening(a, d, sent, Sealing(a, d, sent, message).value) == Some(message)
    ensures turn != sent ==> Opening(a, d, turn, Sealing(a, d, sent, message).value) == None
    ensures Opening(a, Opposite(d), turn, Sealing(a, d, sent, message).value) == None
  {
    if SealNonce(d, turn).Some? {
      NoncesAreDistinct(d, turn, d, sent);
      NoncesAreDistinct(Opposite(d), turn, d, sent);
    }
  }

  /** Sending under seal adds the message to its own direction as long as there is a counter for it, and nothing else happens. */
  lemma SendingExactly(a: Aead, c: Channel, d: Direction, unsealed: bool, message: Bytes)
    requires ChannelOk(a, c)
    ensures var next, lane := Stepped(a, c, Send(d, unsealed, message)), LaneOf(c, d);
            && LaneOf(next, Opposite(d)) == LaneOf(c, Opposite(d))
            && (unsealed || lane.sent >= 18_446_744_073_709_551_616 ==> next == c)
            && (!unsealed && lane.sent < 18_446_744_073_709_551_616 ==>
                  && LaneOf(next, d).messages == lane.messages + [message] && LaneOf(next, d).sent == lane.sent + 1
                  && LaneOf(next, d).acted == lane.acted && LaneOf(next, d).closed == lane.closed)
  {
  }

  /**
   What arrives, exactly: on an open session the next sealed message is acted
   on, a frame that travels unsealed is let through, and anything else at all
   closes the session; a closed one acts on nothing.
   */
  lemma {:induction false} DeliveryExactly(a: Aead, c: Channel, d: Direction, arrival: Arrival)
    requires Correct(a) && ChannelOk(a, c) && Authentic(a, c, Deliver(d, arrival))
    ensures var next, lane := Stepped(a, c, Deliver(d, arrival)), LaneOf(c, d);
            && LaneOf(next, Opposite(d)) == LaneOf(c, Opposite(d))
            && if lane.closed then next == c
               else if arrival.Under? && lane.received < |lane.sealed| && arrival.sealed == lane.sealed[lane.received] then
                 && lane.received < |lane.messages|
                 && LaneOf(next, d) == lane.(received := lane.received + 1, acted := lane.acted + [lane.messages[lane.received]])
               else if arrival.Clear? && arrival.unsealed then next == c
               else LaneOf(next, d) == lane.(closed := true)
  {
    LaneIsOk(a, c, d);
    if arrival.Under? {
      OpensExactlyTheNext(a, c, d, arrival.sealed);
      if Opening(a, d, LaneOf(c, d).received, arrival.sealed).Some? {
        OpenedIsTheNextSealed(a, c, d, arrival.sealed);
      }
    }
  }

  // ----- runs ----------------------------------------------------------------

  datatype Run = Opened | After(before: Run, step: Step)

  function At(a: Aead, r: Run): Channel {
    match r
    case Opened => Channel(QUIET, QUIET)
    case After(before, step) => Stepped(a, At(a, before), step)
  }

  predicate AllAuthentic(a: Aead, r: Run) {
    r.After? ==> AllAuthentic(a, r.before) && Authentic(a, At(a, r.before), r.step)
  }

  lemma {:induction false} RunsKeepChannelOk(a: Aead, r: Run)
    requires Correct(a) && AllAuthentic(a, r)
    ensures ChannelOk(a, At(a, r))
  {
    if r.After? {
      RunsKeepChannelOk(a, r.before);
      StepKeepsChannelOk(a, At(a, r.before), r.step);
    }
  }

  /** Over every run against every network, each end acts on a prefix of what the other sent under seal. */
  lemma {:induction false} ActedOnIsAPrefixOfSent(a: Aead, r: Run, d: Direction)
    requires Correct(a) && AllAuthentic(a, r)
    ensures LaneOf(At(a, r), d).acted <= LaneOf(At(a, r), d).messages
  {
    RunsKeepChannelOk(a, r);
    LaneIsOk(a, At(a, r), d);
  }

  /** No nonce is used twice under a session key, within a direction or across the two. */
  lemma {:induction false} NoNonceRepeats(a: Aead, r: Run, d: Direction, i: nat, e: Direction, j: nat)
    requires Correct(a) && AllAuthentic(a, r)
    requires i < |LaneOf(At(a, r), d).sealed| && j < |LaneOf(At(a, r), e).sealed|
    requires LaneOf(At(a, r), d).sealed[i].nonce == LaneOf(At(a, r), e).sealed[j].nonce
    ensures d == e && i == j
  {
    RunsKeepChannelOk(a, r);
    var c := At(a, r);
    LaneIsOk(a, c, d);
    LaneIsOk(a, c, e);
    assert Sealing(a, d, i, LaneOf(c, d).messages[i]) == Some(LaneOf(c, d).sealed[i]);
    assert Sealing(a, e, j, LaneOf(c, e).messages[j]) == Some(LaneOf(c, e).sealed[j]);
    NoncesAreDistinct(d, i, e, j);
  }

  /** A network that behaves loses nothing: delivering the next message is allowed, and it is acted on. */
  lemma {:induction false} FaithfulDeliveryIsActedOn(a: Aead, c: Channel, d: Direction)
    requires Correct(a) && ChannelOk(a, c)
    requires !LaneOf(c, d).closed && LaneOf(c, d).received < LaneOf(c, d).sent
    ensures var lane := LaneOf(c, d);
            && lane.received < |lane.sealed| && lane.received < |lane.messages|
            && var arrival := Under(lane.sealed[lane.received]);
               && Authentic(a, c, Deliver(d, arrival))
               && Delivered(a, d, lane, arrival)
                  == lane.(received := lane.received + 1, acted := lane.messages[..lane.received + 1])
  {
    var lane := LaneOf(c, d);
    LaneIsOk(a, c, d);
    var sealed := lane.sealed[lane.received];
    assert sealed in lane.sealed;
    OpensExactlyTheNext(a, c, d, sealed);
    OpenedIsTheNextSealed(a, c, d, sealed);
    assert lane.messages[..lane.received + 1] == lane.messages[..lane.received] + [lane.messages[lane.received]];
  }
}
