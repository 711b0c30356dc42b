/**
 The promise tail of `persist` in src/transfer/transfer-queue.ts: mutations
 and saves interleave freely, and still the saves are the chain of module
 SaveChain.
 */
module PersistTail {
  import opened SaveChain

  /**
   One save: it waits for the promise before it, writes a temporary file,
   renames it over the store, and resolves; or it fails before the rename.
   */
  datatype Phase = Waiting | Writing | Renamed | Saved | Rejected

  /** `points[i]` is the snapshot of save `i`; the first one was loaded. */
  datatype Tail<S> = Tail(points: seq<S>, phases: seq<Phase>, store: S)

  datatype Step<S> = Mutation(s: S) | Begin(i: nat) | Rename(i: nat) | Resolve(i: nat) | Reject(i: nat)

  predicate IsSettled(p: Phase) {
    p.Saved? || p.Rejected?
  }

  /** `persistTail.then(save)`: a save begins once the one before it has settled, either way. */
  predicate Enabled<S>(t: Tail<S>, step: Step<S>) {
    match step
    case Mutation(_) => true
    case Begin(i) => 0 < i < |t.phases| && t.phases[i].Waiting? && IsSettled(t.phases[i - 1])
    case Rename(i) => i < |t.phases| && t.phases[i].Writing?
    case Resolve(i) => i < |t.phases| && t.phases[i].Renamed?
    case Reject(i) => i < |t.phases| && t.phases[i].Writing?
  }

  function Stepped<S>(t: Tail<S>, step: Step<S>): Tail<S>
    requires Enabled(t, step) && |t.points| == |t.phases|
  {
    match step
    case Mutation(s) => t.(points := t.points + [s], phases := t.phases + [Waiting])
    case Begin(i) => t.(phases := t.phases[i := Writing])
    case Rename(i) => t.(phases := t.phases[i := Renamed], store := t.points[i])
    case Resolve(i) => t.(phases := t.phases[i := Saved])
    case Reject(i) => t.(phases := t.phases[i := Rejected])
  }

  datatype Tape<S> = Loaded(s: S) | More(before: Tape<S>, step: Step<S>)

  /** Where a run leads; a step that is not enabled does not happen. */
  function At<S>(r: Tape<S>): (t: Tail<S>)
    ensures |t.points| == |t.phases|
  {
    match r
    case Loaded(s) => Tail([s], [Saved], s)
    case More(before, step) => if Enabled(At(before), step) then Stepped(At(before), step) else At(before)
  }

  /** Saves that have taken effect or failed; they always form a prefix. */
  predicate Decided(p: Phase) {
    p.Renamed? || IsSettled(p)
  }

  /** All saves before `n` are decided and settled but for the last, which may be between rename and resolution. */
  predicate InOrder<S>(t: Tail<S>, n: nat) {
    && |t.points| == |t.phases| && 1 <= n <= |t.phases|
    && (forall i :: 0 <= i < n ==> Decided(t.phases[i]))
    && (forall i :: 0 <= i < n - 1 ==> IsSettled(t.phases[i]))
    && (forall i :: n <= i < |t.phases| ==> t.phases[i].Waiting? || (i == n && t.phases[i].Writing?))
    && (n < |t.phases| && t.phases[n].Writing? ==> IsSettled(t.phases[n - 1]))
  }

  /** What `c` says of the saves decided so far is what happened to them. */
  predicate Abstracts<S(==)>(t: Tail<S>, c: Chain<S>) {
    && Valid(c) && c.points == t.points && InOrder(t, |c.outcomes|)
    && (forall i :: 0 <= i < |c.outcomes| ==> (c.outcomes[i] <==> !t.phases[i].Rejected?))
    && t.store == Store(c)
  }

  /** The chain step a tail step amounts to. */
  function Abstracted<S>(c: Chain<S>, step: Step<S>): Chain<S> {
    match step
    case Mutation(s) => Persist(c, s)
    case Rename(_) => Settle(c, true)
    case Reject(_) => Settle(c, false)
    case Begin(_) => c
    case Resolve(_) => c
  }

  lemma {:induction false} TailRefinesChain<S>(t: Tail<S>, c: Chain<S>, step: Step<S>)
    requires Abstracts(t, c) && Enabled(t, step)
    ensures Abstracts(Stepped(t, step), Abstracted(c, step))
    ensures Abstracted(c, step).stored >= c.stored
    ensures (step.Rename? || step.Reject?) ==> step.i == |c.outcomes|
  {
    if step.Mutation? {
      PersistKeepsValid(c, step.s);
    } else if step.Rename? || step.Reject? {
      assert step.i == |c.outcomes|;
      SettleKeepsValid(c, step.Rename?);
    } else if step.Begin? {
      assert step.i == |c.outcomes|;
    } else {
      assert step.i == |c.outcomes| - 1;
    }
  }

  function ChainAt<S>(r: Tape<S>): Chain<S> {
    match r
    case Loaded(s) => Opened(s)
    case More(before, step) =>
      if Enabled(At(before), step) then Abstracted(ChainAt(before), step) else ChainAt(before)
  }

  lemma {:induction false} TapesRefineChains<S>(r: Tape<S>)
    ensures Abstracts(At(r), ChainAt(r))
  {
    if r.More? {
      TapesRefineChains(r.before);
      if Enabled(At(r.before), r.step) {
        TailRefinesChain(At(r.before), ChainAt(r.before), r.step);
      }
    }
  }

  predicate Extends<S(==)>(r: Tape<S>, more: Tape<S>) {
    more == r || (more.More? && Extends(r, more.before))
  }

  /**
   Persistence never goes backwards: at any moment of any run the store holds
   the snapshot of some mutation, never an earlier one than at any moment
   before, and at least as late a one as every save that has resolved.
   */
  lemma {:induction false} PersistenceNeverGoesBackwards<S>(r: Tape<S>, more: Tape<S>, ticket: nat)
    requires Extends(r, more)
    ensures var past, now := ChainAt(r), ChainAt(more);
            && past.stored <= now.stored < |At(more).points|
            && At(more).store == At(more).points[now.stored]
            && At(r).points <= At(more).points
            && (ticket < |At(more).phases| && At(more).phases[ticket].Saved? ==> ticket <= now.stored)
    decreases more
  {
    TapesRefineChains(more);
    if more != r {
      PersistenceNeverGoesBackwards(r, more.before, ticket);
      TapesRefineChains(more.before);
      if Enabled(At(more.before), more.step) {
        TailRefinesChain(At(more.before), ChainAt(more.before), more.step);
      }
    }
  }
}
