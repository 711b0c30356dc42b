/**
 Publishing a verified partial under a name nobody has (`finalizeWithoutOverwrite`
 and `unlinkFinalizedLink` in src/transfer/laptop-data-plane.ts), first as the
 loop it is, then as the steps of the upload engine.
 */
module Finalization {
  import opened Wrappers
  import opened TransferFile
  import opened SaveChain
  import opened UploadEngine
  import Paths

  const TRIES: nat := 10_000

  /** The first `n` names tried. */
  function Tried(requested: Path, n: nat): seq<Path> {
    seq(n, k requires 0 <= k => Paths.Candidate(requested, k))
  }

  /** `k` is the first suffix whose name is free; `TRIES` when all are taken. */
  predicate FirstFree(names: map<Path, nat>, requested: Path, k: nat) {
    && k <= TRIES
    && (forall m :: 0 <= m < k ==> Paths.Candidate(requested, m) in names)
    && (k < TRIES ==> Paths.Candidate(requested, k) !in names)
  }

  /** The requested path, then `(1)`, `(2)` and so on beside it. */
  ghost predicate AllBeside(requested: Path, tried: seq<Path>) {
    forall m :: 0 <= m < |tried| ==> Paths.NamedBeside(requested, m, tried[m])
  }

  lemma {:induction false} TriedAreBeside(requested: Path, n: nat)
    ensures AllBeside(requested, Tried(requested, n))
  {
    forall m | 0 <= m < n
      ensures Paths.NamedBeside(requested, m, Tried(requested, n)[m])
    {
      Paths.CandidateExactly(requested, m, Paths.Candidate(requested, m));
    }
  }

  lemma {:induction false} NamesTried(names: map<Path, nat>, requested: Path, k: nat)
    requires forall m :: 0 <= m < k ==> Paths.Candidate(requested, m) in names
    ensures forall m: nat, path :: m < k && Paths.NamedBeside(requested, m, path) ==> path in names
    ensures Paths.NamedBeside(requested, k, Paths.Candidate(requested, k))
  {
    Paths.CandidateExactly(requested, k, Paths.Candidate(requested, k));
    forall m: nat, path | m < k && Paths.NamedBeside(requested, m, path)
      ensures path in names
    {
      Paths.CandidateExactly(requested, m, path);
    }
  }

  /** A directory tree with the hidden partial of one upload in it. */
  class Folder {
    var names: map<Path, nat>
    var partial: Option<nat>
    /** The names `beforeLink` was told, in order. */
    var announced: seq<Path>

    constructor (names: map<Path, nat>, partial: Option<nat>)
      ensures this.names == names && this.partial == partial && announced == []
    {
      this.names, this.partial, announced := names, partial, [];
    }

    /**
     Links the partial under the first free name, having announced every name up
     to it and no other; no existing name changes.
     */
    method FinalizeWithoutOverwrite(requested: Path) returns (result: Option<Path>, ghost k: nat)
      requires partial.Some?
      modifies `names, `announced
      ensures FirstFree(old(names), requested, k)
      ensures k == TRIES <==> result.None?
      ensures result.None? ==> names == old(names)
      ensures result.Some? ==> result.value == Paths.Candidate(requested, k)
                               && names == old(names)[result.value := partial.value]
      ensures announced == old(announced) + Tried(requested, if k < TRIES then k + 1 else TRIES)
      ensures result.Some? ==> Paths.NamedBeside(requested, k, result.value) && result.value !in old(names)
      ensures old(announced) <= announced && AllBeside(requested, announced[|old(announced)|..])
      ensures forall m: nat, path :: m < k && Paths.NamedBeside(requested, m, path) ==> path in old(names)
    {
      var suffix: nat := 0;
      while suffix < TRIES
        invariant suffix <= TRIES && names == old(names)
        invariant forall m :: 0 <= m < suffix ==> Paths.Candidate(requested, m) in names
        invariant announced == old(announced) + Tried(requested, suffix)
      {
        var candidate := Paths.Candidate(requested, suffix);
        announced := announced + [candidate];
        assert Tried(requested, suffix + 1) == Tried(requested, suffix) + [candidate];
        if candidate !in names {
          names := names[candidate := partial.value];
          k := suffix;
          NamesTried(old(names), requested, k);
          TriedAreBeside(requested, k + 1);
          assert announced[|old(announced)|..] == Tried(requested, k + 1);
          return Some(candidate), k;
        }
        suffix := suffix + 1;
      }
      k := suffix;
      NamesTried(old(names), requested, k);
      TriedAreBeside(requested, k);
      assert announced[|old(announced)|..] == Tried(requested, k);
      return None, k;
    }

    /** Afterwards the name is no link to the partial; every name of another file, this one included, is as before. */
    method UnlinkFinalizedLink(path: Path)
      modifies `names
      ensures !(partial.Some? && path in names && names[path] == partial.value)
      ensures forall p :: p in names ==> p in old(names) && names[p] == old(names)[p]
      ensures forall p :: p in old(names) && p !in names ==> p == path && Some(old(names)[p]) == partial
      ensures forall inodes :: Disk(inodes, partial, names) == UnlinkedFinal(Disk(inodes, partial, old(names)), Some(path))
    {
      if partial.Some? && path in names && names[path] == partial.value {
        names := names - {path};
      }
    }
  }

  // ----- the same loop in the engine -----------------------------------------

  /** One round of the engine's loop when its save succeeds and nothing comes between: announce, save, link. */
  function Round(c: Config, w: World, choice: Choice): World
    requires w.pc.Naming? && |w.chain.points| > 0
  {
    var named := NameStep(c, w, w.pc.put, w.pc.ino, w.pc.suffix, choice);
    if !named.pc.Linking? then named
    else
      var saved := named.(chain := Settle(named.chain, true));
      LinkStep(c, saved, named.pc.put, named.pc.ino, named.pc.suffix, named.pc.ticket, choice)
  }

  /** The record is on its way out and every save so far has settled. */
  predicate Publishable(w: World) {
    && |w.chain.points| > 0 && |w.chain.outcomes| == |w.chain.points|
    && (Record(w).status.Verifying? || Record(w).status.Finalizing?)
    && w.disk.partial.Some?
  }

  /** Announcing a name changes nothing of a file but the status, that name and the timing. */
  predicate SameUpload(f: FileRecord, g: FileRecord) {
    f == g.(status := f.status, finalizingPath := f.finalizingPath, timing := f.timing)
  }

  lemma OneRound(c: Config, w: World, choice: Choice)
    requires Publishable(w) && w.pc.Naming? && !choice.throws && w.pc.suffix < TRIES
    ensures var path, next := Paths.Candidate(c.destination, w.pc.suffix), Round(c, w, choice);
            && Publishable(next) && next.disk.partial == w.disk.partial && next.disk.inodes == w.disk.inodes
            && Record(next).status.Finalizing? && Record(next).finalizingPath == Some(path)
            && SameUpload(Record(w), Record(next)) && next.session == w.session
            && (path in w.disk.names ==> next.disk == w.disk && next.pc == Naming(w.pc.put, w.pc.ino, w.pc.suffix + 1))
            && (path !in w.disk.names ==> next.disk.names == w.disk.names[path := w.disk.partial.value]
                                          && next.pc == Completing(w.pc.put, path))
  {
  }

  function Rounds(c: Config, w: World, choice: Choice): (end: World)
    requires Publishable(w) && w.pc.Naming? && !choice.throws && w.pc.suffix <= TRIES
    ensures |end.chain.points| > 0
    decreases TRIES - w.pc.suffix
  {
    if w.pc.suffix == TRIES then Round(c, w, choice)
    else
      OneRound(c, w, choice);
      var next := Round(c, w, choice);
      if next.pc.Naming? then Rounds(c, next, choice) else next
  }

  /** The engine's steps, left alone, do what `FinalizeWithoutOverwrite` does. */
  lemma {:induction false} RoundsLinkTheFirstFreeName(c: Config, w: World, choice: Choice, k: nat)
    requires Publishable(w) && w.pc.Naming? && !choice.throws && w.pc.suffix <= k
    requires FirstFree(w.disk.names, c.destination, k)
    ensures var end := Rounds(c, w, choice);
            if k < TRIES then
              var path := Paths.Candidate(c.destination, k);
              && end.pc == Completing(w.pc.put, path)
              && end.disk == w.disk.(names := w.disk.names[path := w.disk.partial.value])
              && Record(end).status.Finalizing? && Record(end).finalizingPath == Some(path)
              && SameUpload(Record(w), Record(end)) && end.session == w.session && Paths.NamedBeside(c.destination, k, path)
            else
              end.pc.Catching? && end.disk == w.disk
    decreases TRIES - w.pc.suffix
  {
    Paths.CandidateExactly(c.destination, k, Paths.Candidate(c.destination, k));
    if w.pc.suffix < TRIES {
      OneRound(c, w, choice);
      if w.pc.suffix < k {
        RoundsLinkTheFirstFreeName(c, Round(c, w, choice), choice, k);
      }
    }
  }

  /**
   Publishing and then undoing it by what the record says restores every name,
   whether a free one was found or not: nobody else's name is taken or lost.
   */
  lemma {:induction false} UndoRestoresTheNames(c: Config, w: World, choice: Choice, k: nat)
    requires Publishable(w) && w.pc.Naming? && !choice.throws && w.pc.suffix <= k
    requires FirstFree(w.disk.names, c.destination, k)
    requires forall p :: p in w.disk.names ==> w.disk.names[p] != w.disk.partial.value
    ensures var end := Rounds(c, w, choice); UnlinkedFinal(end.disk, Record(end).finalizingPath) == w.disk
  {
    RoundsLinkTheFirstFreeName(c, w, choice, k);
    if k < TRIES {
      var path := Paths.Candidate(c.destination, k);
      assert w.disk.names[path := w.disk.partial.value] - {path} == w.disk.names;
    }
  }
}
