/**
 The payload pool, a last-writer-wins register ordered by stamps on the
 relay's clock (`PayloadPool` in src/relay/payload-pool.ts).
 */
module Pool {
  import opened Wrappers

  datatype Frame = Frame(nonce: string, ts: int, body: string)

  /** A frame as it is published: with the stamp it is ordered by. */
  datatype Arrival = Arrival(frame: Frame, orderTs: int)

  datatype Register = Register(current: Option<Frame>, currentOrderTs: int)

  const EMPTY := Register(None, 0)

  predicate Known(p: Register, a: Arrival) {
    p.current.Some? && p.current.value.nonce == a.frame.nonce
  }

  predicate IsStale(p: Register, a: Arrival) {
    p.current.Some? && a.orderTs < p.currentOrderTs
  }

  function Published(p: Register, a: Arrival): Register {
    if Known(p, a) || IsStale(p, a) then p else Register(Some(a.frame), a.orderTs)
  }

  class PayloadPool {
    var current: Option<Frame>
    var currentOrderTs: int
    var listeners: set<nat>
    /** Who was told of which frame, in order. */
    var told: seq<(nat, Frame)>

    constructor ()
      ensures Value() == EMPTY && listeners == {} && told == []
    {
      current, currentOrderTs, listeners, told := None, 0, {}, [];
    }

    function Value(): Register
      reads this
    {
      Register(current, currentOrderTs)
    }

    method Subscribe(listener: nat)
      modifies `listeners
      ensures listeners == old(listeners) + {listener}
    {
      listeners := listeners + {listener};
    }

    method Unsubscribe(listener: nat)
      modifies `listeners
      ensures listeners == old(listeners) - {listener}
    {
      listeners := listeners - {listener};
    }

    /** A frame already held is accepted without effect, an older one refused; any other replaces it and is announced. */
    method Publish(a: Arrival) returns (accepted: bool)
      modifies this
      ensures Value() == Published(old(Value()), a) && listeners == old(listeners)
      ensures accepted <==> Known(old(Value()), a) || !IsStale(old(Value()), a)
      ensures Known(old(Value()), a) || IsStale(old(Value()), a) ==> told == old(told)
      ensures !Known(old(Value()), a) && !IsStale(old(Value()), a) ==>
                && |told| == |old(told)| + |listeners| && old(told) <= told
                && forall l :: l in listeners ==> (l, a.frame) in told[|old(told)|..]
    {
      if current.Some? && current.value.nonce == a.frame.nonce {
        return true;
      }
      if current.Some? && a.orderTs < currentOrderTs {
        return false;
      }
      current := Some(a.frame);
      currentOrderTs := a.orderTs;
      var waiting := listeners;
      while waiting != {}
        invariant waiting <= listeners && listeners == old(listeners)
        invariant Value() == Register(Some(a.frame), a.orderTs)
        invariant old(told) <= told && |told| + |waiting| == |old(told)| + |listeners|
        invariant forall l :: l in listeners - waiting ==> (l, a.frame) in told[|old(told)|..]
        decreases waiting
      {
        var l :| l in waiting;
        ghost var before := told;
        told := told + [(l, a.frame)];
        assert told[|old(told)|..] == before[|old(told)|..] + [(l, a.frame)];
        waiting := waiting - {l};
      }
      return true;
    }
  }

  // ----- convergence -----------------------------------------------------------

  function After(arrivals: seq<Arrival>): Register {
    if arrivals == [] then EMPTY
    else Published(After(arrivals[..|arrivals| - 1]), arrivals[|arrivals| - 1])
  }

  predicate DistinctNonces(arrivals: seq<Arrival>) {
    forall i, j :: 0 <= i < j < |arrivals| ==> arrivals[i].frame.nonce != arrivals[j].frame.nonce
  }

  /** `k` is the last of the arrivals with the greatest stamp. */
  predicate LastGreatest(arrivals: seq<Arrival>, k: nat) {
    && k < |arrivals|
    && (forall i :: 0 <= i < |arrivals| ==> arrivals[i].orderTs <= arrivals[k].orderTs)
    && (forall i :: k < i < |arrivals| ==> arrivals[i].orderTs < arrivals[k].orderTs)
  }

  /** Frames that are not republished leave the pool with the last one of the greatest stamp, and only with that. */
  lemma {:induction false} HoldsTheLastGreatest(arrivals: seq<Arrival>, k: nat)
    requires DistinctNonces(arrivals) && k < |arrivals|
    ensures LastGreatest(arrivals, k) <==> After(arrivals) == Register(Some(arrivals[k].frame), arrivals[k].orderTs)
  {
    var n := |arrivals|;
    var init, last := arrivals[..n - 1], arrivals[n - 1];
    if n > 1 {
      var j := WinnerOf(init);
      HoldsTheLastGreatest(init, j);
      assert After(init) == Register(Some(init[j].frame), init[j].orderTs);
      assert !Known(After(init), last);
      if k < n - 1 {
        HoldsTheLastGreatest(init, k);
      }
      if LastGreatest(arrivals, k) && k < n - 1 {
        assert LastGreatest(init, k);
      }
    }
  }

  /** There is always one such arrival. */
  lemma {:induction false} WinnerOf(arrivals: seq<Arrival>) returns (k: nat)
    requires arrivals != []
    ensures LastGreatest(arrivals, k)
  {
    var n := |arrivals|;
    if n == 1 {
      k := 0;
    } else {
      var j := WinnerOf(arrivals[..n - 1]);
      k := if arrivals[n - 1].orderTs >= arrivals[j].orderTs then n - 1 else j;
    }
  }

  predicate DistinctStamps(arrivals: seq<Arrival>) {
    forall i, j :: 0 <= i < j < |arrivals| ==> arrivals[i].orderTs != arrivals[j].orderTs
  }

  /** With distinct stamps the order of arrival does not matter: every interleaving ends with the same frame. */
  lemma {:induction false} Converges(arrivals: seq<Arrival>, others: seq<Arrival>)
    requires DistinctNonces(arrivals) && DistinctStamps(arrivals)
    requires DistinctNonces(others) && multiset(arrivals) == multiset(others)
    ensures After(arrivals) == After(others)
  {
    if arrivals == [] {
      EmptyPermutation(others);
    } else {
      NonemptyPermutation(arrivals, others);
      var k := WinnerOf(arrivals);
      var l := WinnerOf(others);
      HoldsTheLastGreatest(arrivals, k);
      HoldsTheLastGreatest(others, l);
      assert others[l] in multiset(arrivals) && arrivals[k] in multiset(others);
      assert others[l] in arrivals && arrivals[k] in others;
      var i :| 0 <= i < |arrivals| && arrivals[i] == others[l];
      var j :| 0 <= j < |others| && others[j] == arrivals[k];
      assert arrivals[i].orderTs <= arrivals[k].orderTs == others[j].orderTs <= others[l].orderTs;
    }
  }

  lemma {:induction false} EmptyPermutation(others: seq<Arrival>)
    requires multiset(others) == multiset{}
    ensures others == []
  {
    assert |multiset(others)| == |others|;
  }

  lemma {:induction false} NonemptyPermutation(arrivals: seq<Arrival>, others: seq<Arrival>)
    requires multiset(arrivals) == multiset(others) && arrivals != []
    ensures others != []
  {
    assert |multiset(arrivals)| == |arrivals| && |multiset(others)| == |others|;
  }

  /**
   The nonces must be distinct: a frame sent again with a later stamp keeps its
   first one while it is held, so an arrival in between decides which wins.
   */
  lemma RepublishingDoesNotConverge(a: Frame, b: Frame, first: int, between: int, again: int)
    requires a.nonce != b.nonce && first < between < again
    ensures After([Arrival(a, first), Arrival(a, again), Arrival(b, between)]) == Register(Some(b), between)
    ensures After([Arrival(a, first), Arrival(b, between), Arrival(a, again)]) == Register(Some(a), again)
  {
    var x, y, z := Arrival(a, first), Arrival(a, again), Arrival(b, between);
    assert [x, y, z][..2] == [x, y] && [x, z, y][..2] == [x, z];
    assert [x, y][..1] == [x] && [x, z][..1] == [x];
    assert [x][..0] == [];
    assert After([x]) == Register(Some(a), first);
    assert After([x, y]) == Register(Some(a), first);
  }

  /** The arrivals whose frame was not in the pool when they came. */
  function NotHeld(arrivals: seq<Arrival>): seq<Arrival> {
    if arrivals == [] then []
    else
      var n := |arrivals| - 1;
      NotHeld(arrivals[..n]) + if Known(After(arrivals[..n]), arrivals[n]) then [] else [arrivals[n]]
  }

  /**
   With repeated nonces, exactly: it is these arrivals that count.  The pool
   holds the last of them with the greatest stamp, of which there is always one.
   */
  lemma {:induction false} HoldsTheLastGreatestNotHeld(arrivals: seq<Arrival>, k: nat)
    requires arrivals != []
    ensures NotHeld(arrivals) != [] && After(NotHeld(arrivals)) == After(arrivals)
    ensures var counted := NotHeld(arrivals);
            LastGreatest(counted, k) ==> After(arrivals) == Register(Some(counted[k].frame), counted[k].orderTs)
  {
    var n := |arrivals| - 1;
    var init, last := arrivals[..n], arrivals[n];
    if n == 0 {
      assert NotHeld(arrivals) == [last] && [last][..0] == [];
    } else if Known(After(init), last) {
      HoldsTheLastGreatestNotHeld(init, k);
      assert NotHeld(arrivals) == NotHeld(init);
    } else {
      var before := NotHeld(init);
      HoldsTheLastGreatestNotHeld(init, 0);
      var j := WinnerOf(before);
      HoldsTheLastGreatestNotHeld(init, j);
      assert NotHeld(arrivals)[..|before|] == before;
    }
  }

  /** So two orders of arrival end alike if and only if those winners are the same frame with the same stamp. */
  lemma {:induction false} ConvergesExactly(arrivals: seq<Arrival>, others: seq<Arrival>, k: nat, l: nat)
    requires arrivals != [] && others != []
    requires LastGreatest(NotHeld(arrivals), k) && LastGreatest(NotHeld(others), l)
    ensures After(arrivals) == After(others) <==> NotHeld(arrivals)[k] == NotHeld(others)[l]
  {
    HoldsTheLastGreatestNotHeld(arrivals, k);
    HoldsTheLastGreatestNotHeld(others, l);
  }
}
