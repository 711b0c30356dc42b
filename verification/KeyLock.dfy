/**
 The promise-chain lock (`runExclusive` in src/transfer/laptop-data-plane.ts):
 every caller waits for the promise the map held when it arrived, and takes
 its entry out again only if nobody arrived behind it.
 */
module KeyLock {
  import opened Wrappers

  type Key = string

  datatype Phase = Waiting | Running | Done

  /** A caller in order of arrival; `previous` is whose promise it awaits, `None` an already resolved one. */
  datatype Caller = Caller(key: Key, previous: Option<nat>, phase: Phase)

  /** `entries` maps a key to the caller whose promise the `locks` map holds for it. */
  datatype Lock = Lock(callers: seq<Caller>, entries: map<Key, nat>)

  const EMPTY := Lock([], map[])

  /** The three stretches of a call; the operation may throw, the `finally` block runs all the same. */
  datatype Step = Arrive(key: Key) | Start(caller: nat) | Leave(caller: nat, throws: bool)

  predicate Enabled(l: Lock, step: Step) {
    match step
    case Arrive(_) => true
    case Start(i) =>
      && i < |l.callers| && l.callers[i].phase.Waiting?
      && (l.callers[i].previous.Some? ==>
            l.callers[i].previous.value < |l.callers| && l.callers[l.callers[i].previous.value].phase.Done?)
    case Leave(i, _) => i < |l.callers| && l.callers[i].phase.Running?
  }

  function Entry(l: Lock, key: Key): Option<nat> {
    if key in l.entries then Some(l.entries[key]) else None
  }

  function Stepped(l: Lock, step: Step): Lock
    requires Enabled(l, step)
  {
    match step
    case Arrive(key) =>
      Lock(l.callers + [Caller(key, Entry(l, key), Waiting)], l.entries[key := |l.callers|])
    case Start(i) => l.(callers := l.callers[i := l.callers[i].(phase := Running)])
    case Leave(i, _) =>
      var key := l.callers[i].key;
      Lock(l.callers[i := l.callers[i].(phase := Done)],
           if Entry(l, key) == Some(i) then l.entries - {key} else l.entries)
  }

  /** No caller on `key` stands strictly between two arrivals. */
  predicate NoneBetween(l: Lock, key: Key, from: int, to: nat)
    requires to <= |l.callers|
  {
    forall k :: from < k < to && 0 <= k ==> l.callers[k].key != key
  }

  predicate DoneBefore(l: Lock, key: Key, to: nat)
    requires to <= |l.callers|
  {
    forall k :: 0 <= k < to && l.callers[k].key == key ==> l.callers[k].phase.Done?
  }

  /** Each caller awaits the one right before it on its key, or nobody if all before it are done. */
  predicate LinksOk(l: Lock) {
    forall i :: 0 <= i < |l.callers| ==>
      var c := l.callers[i];
      && (c.previous.Some? ==>
            c.previous.value < i && l.callers[c.previous.value].key == c.key
            && NoneBetween(l, c.key, c.previous.value, i))
      && (c.previous.None? ==> DoneBefore(l, c.key, i))
  }

  /** First come, first served: whoever has started had everybody before it on the key finished. */
  predicate InTurn(l: Lock) {
    forall i :: 0 <= i < |l.callers| && !l.callers[i].phase.Waiting? ==> DoneBefore(l, l.callers[i].key, i)
  }

  /** The map holds a key exactly while somebody holds or awaits it, and then its last caller. */
  ghost predicate EntriesOk(l: Lock) {
    && (forall key :: key in l.entries ==>
          && l.entries[key] < |l.callers| && l.callers[l.entries[key]].key == key
          && !l.callers[l.entries[key]].phase.Done?
          && NoneBetween(l, key, l.entries[key], |l.callers|))
    && (forall key :: key !in l.entries ==> DoneBefore(l, key, |l.callers|))
  }

  ghost predicate Inv(l: Lock) {
    LinksOk(l) && InTurn(l) && EntriesOk(l)
  }

  lemma {:induction false} ArriveKeepsInv(l: Lock, key: Key)
    requires Inv(l)
    ensures Inv(Stepped(l, Arrive(key)))
  {
    var next := Stepped(l, Arrive(key));
    forall k | 0 <= k < |l.callers|
      ensures next.callers[k] == l.callers[k]
    {
    }
    assert forall k, to :: 0 <= to <= |l.callers| ==> DoneBefore(l, k, to) == DoneBefore(next, k, to);
    assert forall k, from, to :: 0 <= to <= |l.callers| ==> NoneBetween(l, k, from, to) == NoneBetween(next, k, from, to);
  }

  lemma {:induction false} StartKeepsInv(l: Lock, i: nat)
    requires Inv(l) && Enabled(l, Start(i))
    ensures Inv(Stepped(l, Start(i)))
  {
    var next := Stepped(l, Start(i));
    assert forall k, from, to :: 0 <= to <= |l.callers| && NoneBetween(l, k, from, to) ==> NoneBetween(next, k, from, to);
    forall k, to: nat | to <= |l.callers| && DoneBefore(l, k, to)
      ensures DoneBefore(next, k, to)
    {
    }
    var c := l.callers[i];
    if c.previous.Some? {
      assert DoneBefore(l, c.key, c.previous.value);
      forall k | 0 <= k < i && l.callers[k].key == c.key
        ensures l.callers[k].phase.Done?
      {
        assert k <= c.previous.value;
      }
      assert DoneBefore(l, c.key, i);
    }
  }

  lemma {:induction false} LeaveKeepsInv(l: Lock, i: nat, throws: bool)
    requires Inv(l) && Enabled(l, Leave(i, throws))
    ensures Inv(Stepped(l, Leave(i, throws)))
  {
    var next := Stepped(l, Leave(i, throws));
    var key := l.callers[i].key;
    assert forall k, from, to :: 0 <= to <= |l.callers| && NoneBetween(l, k, from, to) ==> NoneBetween(next, k, from, to);
    forall k, to: nat | to <= |l.callers| && DoneBefore(l, k, to)
      ensures DoneBefore(next, k, to)
    {
    }
    if Entry(l, key) == Some(i) {
      forall k | 0 <= k < |next.callers| && next.callers[k].key == key
        ensures next.callers[k].phase.Done?
      {
        assert DoneBefore(l, key, i);
        assert NoneBetween(l, key, i, |l.callers|);
      }
      assert DoneBefore(next, key, |next.callers|);
    }
  }

  // ----- runs --------------------------------------------------------------

  /** Any interleaving of any callers; a step that is not enabled does not happen. */
  datatype Run = Quiet | After(before: Run, step: Step)

  function At(r: Run): Lock {
    match r
    case Quiet => EMPTY
    case After(before, step) => if Enabled(At(before), step) then Stepped(At(before), step) else At(before)
  }

  lemma {:induction false} RunsKeepInv(r: Run)
    ensures Inv(At(r))
  {
    if r.After? {
      RunsKeepInv(r.before);
      var l := At(r.before);
      if Enabled(l, r.step) {
        if r.step.Arrive? {
          ArriveKeepsInv(l, r.step.key);
        } else if r.step.Start? {
          StartKeepsInv(l, r.step.caller);
        } else {
          LeaveKeepsInv(l, r.step.caller, r.step.throws);
        }
      }
    }
  }

  /** At most one operation runs per key. */
  lemma {:induction false} MutualExclusion(r: Run, i: nat, j: nat)
    requires i < |At(r).callers| && j < |At(r).callers|
    requires At(r).callers[i].key == At(r).callers[j].key
    requires At(r).callers[i].phase.Running? && At(r).callers[j].phase.Running?
    ensures i == j
  {
    RunsKeepInv(r);
    var l := At(r);
    assert DoneBefore(l, l.callers[i].key, i) && DoneBefore(l, l.callers[j].key, j);
  }

  /** Operations on a key start in the order the callers arrived, each after the one before has finished. */
  lemma {:induction false} ArrivalOrder(r: Run, i: nat, j: nat)
    requires i < j < |At(r).callers| && At(r).callers[i].key == At(r).callers[j].key
    requires !At(r).callers[j].phase.Waiting?
    ensures At(r).callers[i].phase.Done?
  {
    RunsKeepInv(r);
    assert DoneBefore(At(r), At(r).callers[j].key, j);
  }

  predicate Engaged(l: Lock, key: Key) {
    exists i :: 0 <= i < |l.callers| && l.callers[i].key == key && !l.callers[i].phase.Done?
  }

  /** The map holds an entry exactly for the keys somebody holds or awaits: nothing leaks, nothing is dropped early. */
  lemma {:induction false} EntryWhileEngaged(r: Run, key: Key)
    ensures key in At(r).entries <==> Engaged(At(r), key)
  {
    RunsKeepInv(r);
    var l := At(r);
    assert key !in l.entries ==> DoneBefore(l, key, |l.callers|);
  }

  /** Nobody waits forever behind nobody: while a key is engaged, its holder can leave or its next caller can start. */
  lemma {:induction false} NoDeadlock(r: Run, key: Key)
    requires Engaged(At(r), key)
    ensures exists step :: Enabled(At(r), step) && !step.Arrive? && At(r).callers[step.caller].key == key
  {
    RunsKeepInv(r);
    var l := At(r);
    var last :| 0 <= last < |l.callers| && l.callers[last].key == key && !l.callers[last].phase.Done?;
    var i := FirstEngaged(l, key, last);
    if l.callers[i].phase.Running? {
      assert Enabled(l, Leave(i, false));
    } else {
      assert Enabled(l, Start(i));
    }
  }

  lemma {:induction false} FirstEngaged(l: Lock, key: Key, from: nat) returns (i: nat)
    requires from < |l.callers| && l.callers[from].key == key && !l.callers[from].phase.Done?
    ensures i < |l.callers| && l.callers[i].key == key && !l.callers[i].phase.Done? && DoneBefore(l, key, i)
  {
    if DoneBefore(l, key, from) {
      i := from;
    } else {
      var earlier :| 0 <= earlier < from && l.callers[earlier].key == key && !l.callers[earlier].phase.Done?;
      i := FirstEngaged(l, key, earlier);
    }
  }
}
