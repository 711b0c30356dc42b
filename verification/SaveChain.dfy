/**
 The queue's persistence tail (`persist` in src/transfer/transfer-queue.ts).
 Every mutation hands the storage one snapshot; a save starts only when the one
 before it has settled, whether or not it succeeded.
 */
module SaveChain {

  /**
   `points` are the snapshots in the order they were taken, the last being
   what memory holds; `outcomes` says how the saves that have settled went;
   `stored` is the point the store holds.
   */
  datatype Chain<S> = Chain(points: seq<S>, outcomes: seq<bool>, stored: nat)

  predicate Valid<S>(c: Chain<S>) {
    && 1 <= |c.outcomes| <= |c.points|
    && c.stored < |c.outcomes|
    && c.outcomes[c.stored]
    && (forall i :: c.stored < i < |c.outcomes| ==> !c.outcomes[i])
  }

  function Memory<S>(c: Chain<S>): S
    requires |c.points| > 0
  {
    c.points[|c.points| - 1]
  }

  function Store<S>(c: Chain<S>): S
    requires c.stored < |c.points|
  {
    c.points[c.stored]
  }

  /** What `open` starts from: the loaded snapshot. */
  function Opened<S>(s: S): Chain<S> {
    Chain([s], [true], 0)
  }

  function Persist<S>(c: Chain<S>, s: S): Chain<S> {
    c.(points := c.points + [s])
  }

  /** The oldest unsettled save settles. */
  function Settle<S>(c: Chain<S>, ok: bool): Chain<S> {
    if |c.outcomes| >= |c.points| then c
    else Chain(c.points, c.outcomes + [ok], if ok then |c.outcomes| else c.stored)
  }

  predicate Resolved<S>(c: Chain<S>, ticket: nat) {
    ticket < |c.outcomes|
  }

  lemma {:induction false} ResolvedSaveIsStored<S>(c: Chain<S>, ticket: nat)
    requires Valid(c) && Resolved(c, ticket) && c.outcomes[ticket]
    ensures ticket <= c.stored
  {
  }

  lemma PersistKeepsValid<S>(c: Chain<S>, s: S)
    requires Valid(c)
    ensures Valid(Persist(c, s)) && Memory(Persist(c, s)) == s
  {
  }

  lemma {:induction false} SettleKeepsValid<S>(c: Chain<S>, ok: bool)
    requires Valid(c)
    ensures Valid(Settle(c, ok)) && Settle(c, ok).stored >= c.stored && Settle(c, ok).points == c.points
  {
  }
}
