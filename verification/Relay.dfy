/**
 The relay's sockets from open to their terminal event (the `open` and `close`
 handlers, the heartbeat sweep, `authenticate` and `notifyDeviceDisconnected`
 of src/relay/relay.ts).
 */
module Relay {
  import opened Wrappers

  /** `DeviceSocketData`, as far as the lifecycle goes. */
  datatype Socket = Socket(authenticated: bool, deviceId: Option<string>, lastSeen: int)

  datatype Event = Reaped(id: nat) | Disconnected(id: nat) | DeviceGone(deviceId: string)

  /** `devices` is a JavaScript set: it remembers the order of insertion. */
  datatype Hub = Hub(devices: seq<nat>, sockets: map<nat, Socket>, log: seq<Event>)

  const EMPTY := Hub([], map[], [])

  datatype Step =
    | Open(id: nat, now: int)
    | Seen(id: nat, now: int)
    | Authenticated(id: nat, deviceId: string)
    | Close(id: nat)
    | Sweep(now: int, staleAfterMs: int)

  function Without(s: seq<nat>, id: nat): seq<nat> {
    if s == [] then [] else if s[0] == id then Without(s[1..], id) else [s[0]] + Without(s[1..], id)
  }

  predicate Present(h: Hub, id: nat, deviceId: string) {
    id in h.sockets && h.sockets[id].authenticated && h.sockets[id].deviceId == Some(deviceId)
  }

  predicate SomePresent(h: Hub, deviceId: string) {
    exists id :: id in h.devices && Present(h, id, deviceId)
  }

  /** `notifyDeviceDisconnected`; an empty device id counts as none. */
  function Notified(h: Hub, deviceId: Option<string>): Hub {
    if deviceId.None? || deviceId.value == "" || SomePresent(h, deviceId.value) then h
    else h.(log := h.log + [DeviceGone(deviceId.value)])
  }

  /** A socket leaves the set with its terminal event, and its device may be reported gone. */
  function Removed(h: Hub, id: nat, terminal: Event): Hub {
    var left := h.(devices := Without(h.devices, id), log := h.log + [terminal]);
    Notified(left, if id in h.sockets then h.sockets[id].deviceId else None)
  }

  predicate Stale(h: Hub, id: nat, now: int, staleAfterMs: int) {
    id in h.sockets && now - h.sockets[id].lastSeen > staleAfterMs
  }

  /** The sweep over the sockets that were in the set when it began. */
  function Swept(h: Hub, ids: seq<nat>, now: int, staleAfterMs: int): Hub
    decreases |ids|
  {
    if ids == [] then h
    else
      var next := if Stale(h, ids[0], now, staleAfterMs) then Removed(h, ids[0], Reaped(ids[0])) else h;
      Swept(next, ids[1..], now, staleAfterMs)
  }

  /** One authentication per connection; it may finish after the socket has gone. */
  predicate Enabled(h: Hub, step: Step) {
    match step
    case Open(id, _) => id !in h.sockets
    case Seen(id, _) => id in h.sockets
    case Authenticated(id, _) => id in h.sockets && !h.sockets[id].authenticated
    case Close(id) => id in h.sockets
    case Sweep(_, _) => true
  }

  function Stepped(h: Hub, step: Step): Hub
    requires Enabled(h, step)
  {
    match step
    case Open(id, now) => h.(devices := h.devices + [id], sockets := h.sockets[id := Socket(false, None, now)])
    case Seen(id, now) => h.(sockets := h.sockets[id := h.sockets[id].(lastSeen := now)])
    case Authenticated(id, deviceId) =>
      h.(sockets := h.sockets[id := h.sockets[id].(authenticated := true, deviceId := Some(deviceId))])
    case Close(id) => if id in h.devices then Removed(h, id, Disconnected(id)) else h
    case Sweep(now, staleAfterMs) => Swept(h, h.devices, now, staleAfterMs)
  }

  // ----- the object ------------------------------------------------------------

  class RelaySockets {
    var devices: seq<nat>
    var sockets: map<nat, Socket>
    var log: seq<Event>

    constructor ()
      ensures Value() == EMPTY
    {
      devices, sockets, log := [], map[], [];
    }

    function Value(): Hub
      reads this
    {
      Hub(devices, sockets, log)
    }

    method OnOpen(id: nat, now: int)
      requires Enabled(Value(), Open(id, now))
      modifies this
      ensures Value() == Stepped(old(Value()), Open(id, now))
    {
      devices := devices + [id];
      sockets := sockets[id := Socket(false, None, now)];
    }

    method OnSeen(id: nat, now: int)
      requires Enabled(Value(), Seen(id, now))
      modifies this
      ensures Value() == Stepped(old(Value()), Seen(id, now))
    {
      sockets := sockets[id := sockets[id].(lastSeen := now)];
    }

    /** `authenticate` behind its await, with a proof that holds. */
    method OnAuthenticated(id: nat, deviceId: string)
      requires Enabled(Value(), Authenticated(id, deviceId))
      modifies this
      ensures Value() == Stepped(old(Value()), Authenticated(id, deviceId))
    {
      sockets := sockets[id := sockets[id].(authenticated := true)];
      sockets := sockets[id := sockets[id].(deviceId := Some(deviceId))];
    }

    method Delete(id: nat) returns (deleted: bool)
      modifies `devices
      ensures deleted <==> id in old(devices)
      ensures devices == Without(old(devices), id)
    {
      deleted := id in devices;
      devices := Without(devices, id);
    }

    method NotifyDeviceDisconnected(deviceId: Option<string>)
      modifies `log
      ensures Value() == Notified(old(Value()), deviceId)
    {
      if deviceId.None? || deviceId.value == "" {
        return;
      }
      var i := 0;
      while i < |devices|
        invariant 0 <= i <= |devices|
        invariant forall k :: 0 <= k < i ==> !Present(Value(), devices[k], deviceId.value)
      {
        if Present(Value(), devices[i], deviceId.value) {
          return;
        }
        i := i + 1;
      }
      log := log + [DeviceGone(deviceId.value)];
    }

    method OnClose(id: nat)
      requires Enabled(Value(), Close(id))
      modifies this
      ensures Value() == Stepped(old(Value()), Close(id))
    {
      var deleted := Delete(id);
      if !deleted {
        WithoutAbsent(old(devices), id);
        return;
      }
      log := log + [Disconnected(id)];
      NotifyDeviceDisconnected(sockets[id].deviceId);
    }

    /** The heartbeat sweep: deleting while iterating skips nobody. */
    method OnSweep(now: int, staleAfterMs: int)
      requires forall i :: 0 <= i < |devices| ==> devices[i] in sockets
      modifies this
      ensures Value() == Stepped(old(Value()), Sweep(now, staleAfterMs))
    {
      var ids := devices;
      var i := 0;
      while i < |ids|
        invariant 0 <= i <= |ids| && ids == old(devices) && sockets == old(sockets)
        invariant Swept(old(Value()), ids, now, staleAfterMs) == Swept(Value(), ids[i..], now, staleAfterMs)
      {
        var id := ids[i];
        if now - sockets[id].lastSeen > staleAfterMs {
          var deleted := Delete(id);
          log := log + [Reaped(id)];
          NotifyDeviceDisconnected(sockets[id].deviceId);
        }
        assert ids[i..][1..] == ids[i + 1..];
        i := i + 1;
      }
    }
  }

  lemma {:induction false} WithoutAbsent(s: seq<nat>, id: nat)
    requires id !in s
    ensures Without(s, id) == s
  {
    if s != [] {
      WithoutAbsent(s[1..], id);
    }
  }

  // ----- what holds of every run -------------------------------------------------

  function Terminals(log: seq<Event>, id: nat): nat {
    if log == [] then 0
    else Terminals(log[..|log| - 1], id)
         + (if log[|log| - 1] == Reaped(id) || log[|log| - 1] == Disconnected(id) then 1 else 0)
  }

  function Gone(log: seq<Event>, deviceId: string): nat {
    if log == [] then 0
    else Gone(log[..|log| - 1], deviceId) + (if log[|log| - 1] == DeviceGone(deviceId) then 1 else 0)
  }

  lemma {:induction false} LogGrows(log: seq<Event>, e: Event, id: nat, deviceId: string)
    ensures Terminals(log + [e], id) == Terminals(log, id) + (if e == Reaped(id) || e == Disconnected(id) then 1 else 0)
    ensures Gone(log + [e], deviceId) == Gone(log, deviceId) + (if e == DeviceGone(deviceId) then 1 else 0)
  {
    assert (log + [e])[..|log|] == log;
  }

  predicate NoDuplicates(s: seq<nat>) {
    forall i, j :: 0 <= i < j < |s| ==> s[i] != s[j]
  }

  lemma {:induction false} WithoutMembers(s: seq<nat>, id: nat)
    ensures forall x :: x in Without(s, id) <==> x in s && x != id
    ensures NoDuplicates(s) ==> NoDuplicates(Without(s, id))
  {
    if s != [] {
      WithoutMembers(s[1..], id);
      var rest := Without(s[1..], id);
      assert forall x :: x in s <==> x == s[0] || x in s[1..];
      if NoDuplicates(s) {
        assert NoDuplicates(s[1..]);
        assert s[0] !in s[1..];
      }
    }
  }

  /** The sockets, and the terminal event each has had once it left. */
  ghost predicate HubOk(h: Hub) {
    && NoDuplicates(h.devices)
    && (forall id :: id in h.devices ==> id in h.sockets)
    && (forall id :: id in h.sockets ==> h.sockets[id].authenticated == h.sockets[id].deviceId.Some?)
    && (forall id :: Terminals(h.log, id) == if id in h.sockets && id !in h.devices then 1 else 0)
  }

  lemma {:induction false} NotifiedChangesNoTerminal(h: Hub, deviceId: Option<string>, id: nat)
    ensures Notified(h, deviceId).devices == h.devices && Notified(h, deviceId).sockets == h.sockets
    ensures Terminals(Notified(h, deviceId).log, id) == Terminals(h.log, id)
  {
    if Notified(h, deviceId) != h {
      LogGrows(h.log, DeviceGone(deviceId.value), id, "");
    }
  }

  lemma {:induction false} RemovedKeepsHubOk(h: Hub, id: nat, terminal: Event)
    requires HubOk(h) && id in h.devices && (terminal == Reaped(id) || terminal == Disconnected(id))
    ensures HubOk(Removed(h, id, terminal))
    ensures Removed(h, id, terminal).devices == Without(h.devices, id)
  {
    var left := h.(devices := Without(h.devices, id), log := h.log + [terminal]);
    var next := Removed(h, id, terminal);
    WithoutMembers(h.devices, id);
    forall other
      ensures Terminals(next.log, other) == if other in next.sockets && other !in next.devices then 1 else 0
    {
      LogGrows(h.log, terminal, other, "");
      NotifiedChangesNoTerminal(left, h.sockets[id].deviceId, other);
    }
    NotifiedChangesNoTerminal(left, h.sockets[id].deviceId, id);
  }

  /** A device is counted present by its authenticated sockets in the set; one or none is all that matters. */
  function Here(h: Hub, deviceId: string): nat {
    if SomePresent(h, deviceId) then 1 else 0
  }

  lemma {:induction false} RemovedReports(h: Hub, id: nat, terminal: Event, deviceId: string)
    requires HubOk(h) && id in h.devices && !terminal.DeviceGone? && deviceId != ""
    ensures var next := Removed(h, id, terminal);
            && Gone(next.log, deviceId) + Here(next, deviceId) == Gone(h.log, deviceId) + Here(h, deviceId)
            && (Gone(next.log, deviceId) > Gone(h.log, deviceId) <==> SomePresent(h, deviceId) && !SomePresent(next, deviceId))
  {
    var left := h.(devices := Without(h.devices, id), log := h.log + [terminal]);
    var next := Removed(h, id, terminal);
    WithoutMembers(h.devices, id);
    LogGrows(h.log, terminal, id, deviceId);
    assert next.devices == left.devices && next.sockets == left.sockets;
    if next != left {
      LogGrows(left.log, DeviceGone(h.sockets[id].deviceId.value), id, deviceId);
    }
    assert SomePresent(left, deviceId) ==> SomePresent(h, deviceId);
    if SomePresent(h, deviceId) && !SomePresent(left, deviceId) {
      var last :| last in h.devices && Present(h, last, deviceId);
      assert last in left.devices ==> Present(left, last, deviceId);
    }
  }

  lemma {:induction false} SweptKeeps(h: Hub, ids: seq<nat>, now: int, staleAfterMs: int, deviceId: string)
    requires HubOk(h) && NoDuplicates(ids) && (forall i :: 0 <= i < |ids| ==> ids[i] in h.devices) && deviceId != ""
    ensures var next := Swept(h, ids, now, staleAfterMs);
            && HubOk(next) && next.sockets == h.sockets
            && Gone(next.log, deviceId) + Here(next, deviceId) == Gone(h.log, deviceId) + Here(h, deviceId)
            && (forall id :: id in next.devices <==> id in h.devices && !(id in ids && Stale(h, id, now, staleAfterMs)))
    decreases |ids|
  {
    if ids != [] {
      var id := ids[0];
      if Stale(h, id, now, staleAfterMs) {
        var next := Removed(h, id, Reaped(id));
        RemovedKeepsHubOk(h, id, Reaped(id));
        RemovedReports(h, id, Reaped(id), deviceId);
        WithoutMembers(h.devices, id);
        SweptKeeps(next, ids[1..], now, staleAfterMs, deviceId);
      } else {
        SweptKeeps(h, ids[1..], now, staleAfterMs, deviceId);
      }
    }
  }

  /** How many times a step brings a device from no authenticated socket in the set to one. */
  function Arrivals(h: Hub, step: Step, deviceId: string): nat
    requires Enabled(h, step)
  {
    if !SomePresent(h, deviceId) && SomePresent(Stepped(h, step), deviceId) then 1 else 0
  }

  lemma {:induction false} StepKeeps(h: Hub, step: Step, deviceId: string)
    requires HubOk(h) && Enabled(h, step) && deviceId != ""
    ensures HubOk(Stepped(h, step))
    ensures Gone(Stepped(h, step).log, deviceId) + Here(Stepped(h, step), deviceId)
            == Gone(h.log, deviceId) + Here(h, deviceId) + Arrivals(h, step, deviceId)
  {
    match step
    case Open(id, now) => OpenKeeps(h, id, now, deviceId);
    case Seen(id, now) => SeenKeeps(h, id, now, deviceId);
    case Authenticated(id, device) => AuthenticatedKeeps(h, id, device, deviceId);
    case Close(id) =>
      if id in h.devices {
        RemovedKeepsHubOk(h, id, Disconnected(id));
        RemovedReports(h, id, Disconnected(id), deviceId);
      }
    case Sweep(now, staleAfterMs) => SweptKeeps(h, h.devices, now, staleAfterMs, deviceId);
  }

  lemma {:induction false} OpenKeeps(h: Hub, id: nat, now: int, deviceId: string)
    requires HubOk(h) && id !in h.sockets
    ensures HubOk(Stepped(h, Open(id, now))) && (SomePresent(Stepped(h, Open(id, now)), deviceId) <==> SomePresent(h, deviceId))
  {
    var next := Stepped(h, Open(id, now));
    assert forall x :: x in next.devices <==> x in h.devices || x == id;
    if SomePresent(h, deviceId) {
      var there :| there in h.devices && Present(h, there, deviceId);
      assert there in next.devices && Present(next, there, deviceId);
    }
  }

  lemma {:induction false} SeenKeeps(h: Hub, id: nat, now: int, deviceId: string)
    requires HubOk(h) && id in h.sockets
    ensures HubOk(Stepped(h, Seen(id, now))) && (SomePresent(Stepped(h, Seen(id, now)), deviceId) <==> SomePresent(h, deviceId))
  {
    var next := Stepped(h, Seen(id, now));
    assert forall there :: there in h.devices ==> Present(next, there, deviceId) == Present(h, there, deviceId);
  }

  lemma {:induction false} AuthenticatedKeeps(h: Hub, id: nat, device: string, deviceId: string)
    requires HubOk(h) && id in h.sockets && !h.sockets[id].authenticated
    ensures HubOk(Stepped(h, Authenticated(id, device)))
    ensures SomePresent(h, deviceId) ==> SomePresent(Stepped(h, Authenticated(id, device)), deviceId)
  {
    var next := Stepped(h, Authenticated(id, device));
    if SomePresent(h, deviceId) {
      var there :| there in h.devices && Present(h, there, deviceId);
      assert there in next.devices && Present(next, there, deviceId);
    }
  }

  datatype Run = Started | After(before: Run, step: Step)

  function At(r: Run): Hub {
    match r
    case Started => EMPTY
    case After(before, step) => if Enabled(At(before), step) then Stepped(At(before), step) else At(before)
  }

  function AllArrivals(r: Run, deviceId: string): nat {
    match r
    case Started => 0
    case After(before, step) =>
      AllArrivals(before, deviceId) + (if Enabled(At(before), step) then Arrivals(At(before), step, deviceId) else 0)
  }

  lemma {:induction false} RunsKeep(r: Run, deviceId: string)
    requires deviceId != ""
    ensures HubOk(At(r))
    ensures Gone(At(r).log, deviceId) + Here(At(r), deviceId) == AllArrivals(r, deviceId)
  {
    if r.After? {
      RunsKeep(r.before, deviceId);
      if Enabled(At(r.before), r.step) {
        StepKeeps(At(r.before), r.step, deviceId);
      }
    }
  }

  /** Every connection that has left has had exactly one terminal event, every other none. */
  lemma {:induction false} OneTerminalEvent(r: Run, id: nat)
    ensures Terminals(At(r).log, id) == if id in At(r).sockets && id !in At(r).devices then 1 else 0
  {
    RunsKeep(r, "any");
  }

  /**
   Over every run, a device with a name is reported gone exactly as often as its
   authenticated sockets have run out: as often as it arrived, but for the
   time it is still here.
   */
  lemma {:induction false} ReportedGoneOncePerDeparture(r: Run, deviceId: string)
    requires deviceId != ""
    ensures Gone(At(r).log, deviceId) ==
            AllArrivals(r, deviceId) - (if SomePresent(At(r), deviceId) then 1 else 0)
  {
    RunsKeep(r, deviceId);
  }

  /** One socket leaving reports its device exactly when it was the last one; never when the id is empty. */
  lemma {:induction false} ReportedExactlyOnTheLast(r: Run, id: nat, terminal: Event, deviceId: string)
    requires id in At(r).devices && !terminal.DeviceGone?
    ensures var h, next := At(r), Removed(At(r), id, terminal);
            Gone(next.log, deviceId) > Gone(h.log, deviceId) <==>
            deviceId != "" && SomePresent(h, deviceId) && !SomePresent(next, deviceId)
  {
    RunsKeep(r, "any");
    if deviceId != "" {
      RemovedReports(At(r), id, terminal, deviceId);
    } else {
      var h := At(r);
      var left := h.(devices := Without(h.devices, id), log := h.log + [terminal]);
      LogGrows(h.log, terminal, id, deviceId);
      if Removed(h, id, terminal) != left {
        LogGrows(left.log, DeviceGone(h.sockets[id].deviceId.value), id, deviceId);
      }
    }
  }

  /** A sweep removes exactly the sockets that have been silent for longer than the limit; no other step but a close removes any. */
  lemma {:induction false} SweepReapsTheStale(r: Run, now: int, staleAfterMs: int, id: nat)
    ensures id in At(r).devices ==> id in At(r).sockets
    ensures id in Stepped(At(r), Sweep(now, staleAfterMs)).devices <==>
            id in At(r).devices && now - At(r).sockets[id].lastSeen <= staleAfterMs
  {
    RunsKeep(r, "any");
    SweptKeeps(At(r), At(r).devices, now, staleAfterMs, "any");
  }

  /** A new socket is in the set, nobody's yet, and counts as heard of from the start. */
  lemma {:induction false} OpenedIsHeardOf(r: Run, id: nat, since: int, now: int, staleAfterMs: int, deviceId: string)
    requires Enabled(At(r), Open(id, since))
    ensures var next := Stepped(At(r), Open(id, since));
            && id in next.devices && !Present(next, id, deviceId)
            && (id in Stepped(next, Sweep(now, staleAfterMs)).devices <==> now - since <= staleAfterMs)
  {
    var next := After(r, Open(id, since));
    assert At(next) == Stepped(At(r), Open(id, since));
    SweepReapsTheStale(next, now, staleAfterMs, id);
  }

  /** So a socket heard of survives every sweep until the limit has passed. */
  lemma {:induction false} HeardOfSurvives(r: Run, id: nat, heard: int, now: int, staleAfterMs: int)
    requires id in At(r).devices && Enabled(At(r), Seen(id, heard))
    ensures id in Stepped(Stepped(At(r), Seen(id, heard)), Sweep(now, staleAfterMs)).devices <==> now - heard <= staleAfterMs
  {
    var next := After(r, Seen(id, heard));
    assert At(next) == Stepped(At(r), Seen(id, heard));
    SweepReapsTheStale(next, now, staleAfterMs, id);
  }
}
