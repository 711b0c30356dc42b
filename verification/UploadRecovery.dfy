/**
 Finalization is crash-atomic: wherever a crash falls, the recovery that
 follows leaves the file completed on its verified inode or failed without a
 partial, and what it saved is what it holds.
 */
module UploadRecovery {
  import opened Wrappers
  import opened TransferFile
  import opened SaveChain
  import opened UploadEngine
  import opened UploadSafety

  const CALM := Choice(0, 0, false, 0, false)

  // ----- the recovery by itself --------------------------------------------

  /** The queue as `open` finds it after a crash. */
  predicate Opening(w: World, f: FileRecord) {
    w.pc.Recovering? && w.chain == Opened(f)
  }

  function Saving(w: World): World {
    w.(chain := Settle(w.chain, true))
  }

  /** The stretches of `recoverInterrupted`, with the save in its place. */
  function Recovery(w: World): World
    requires |w.chain.points| > 0
  {
    RecoverAdvance(Saving(RecoverAdvance(RecoverAdvance(RecoverAdvance(w)))))
  }

  /** Nothing to repair: the record stays and the server is up. */
  lemma NothingToRecover(w: World, f: FileRecord)
    requires Opening(w, f) && Recovered(f, Linked(w.disk, f.finalizingPath)) == f
    ensures Recovery(w) == w.(pc := Idle)
  {
    assert RecoverAdvance(w) == w.(pc := Idle);
  }

  /** A queued-again or a completed file: one snapshot, saved; a completed file drops its partial's name. */
  lemma RecoversInOneSave(w: World, f: FileRecord)
    requires Opening(w, f)
    requires var g := Recovered(f, Linked(w.disk, f.finalizingPath)); g != f && !g.status.Failed?
    ensures var g := Recovered(f, Linked(w.disk, f.finalizingPath));
            Recovery(w) == World(Chain([f, g], [true, true], 1),
                                 if g.status.Completed? then WithoutPartial(w.disk) else w.disk,
                                 w.session, Idle)
  {
    var g := Recovered(f, Linked(w.disk, f.finalizingPath));
    var decided := RecoverAdvance(w);
    assert decided.pc == RecoverSaving(1, g.status.Completed?);
    assert decided.chain == Chain([f, g], [true], 0);
    assert RecoverAdvance(decided) == decided;
    assert Saving(decided).chain == Chain([f, g], [true, true], 1);
  }

  /** A failed file: its partial goes first, then the failure is saved. */
  lemma RecoversByDropping(w: World, f: FileRecord)
    requires Opening(w, f)
    requires var g := Recovered(f, Linked(w.disk, f.finalizingPath)); g != f && g.status.Failed?
    ensures Recovery(w) == World(Chain([f, Recovered(f, false)], [true, true], 1), WithoutPartial(w.disk), w.session, Idle)
  {
    var g := Recovered(f, false);
    var decided := RecoverAdvance(w);
    assert decided.pc == RecoverDropping;
    var dropped := RecoverAdvance(decided);
    assert dropped.pc == RecoverFailing;
    var failed := RecoverAdvance(dropped);
    assert failed.pc == RecoverSaving(1, false) && failed.chain == Chain([f, g], [true], 0);
    assert Saving(failed).chain == Chain([f, g], [true, true], 1);
  }

  // ----- after a crash -----------------------------------------------------

  /** A crash and the whole of `recoverInterrupted`, its save succeeding. */
  function Restarted(w: World, tails: seq<seq<byte>>): World
    requires w.chain.stored < |w.chain.points| && InodesOk(w.disk)
  {
    Recovery(CrashStep(w, tails))
  }

  ghost predicate Follows(c: Config, w: World, e: Event, next: World) {
    Shaped(c, w) && next == Next(c, w, e)
  }

  /** The world a recovery is in, or has just left. */
  ghost predicate InRecovery(c: Config, w: World) {
    Safe(c, w) && (Down(w.pc) || w.pc.Idle?)
  }

  lemma RecoveryStepFollows(c: Config, w: World)
    requires InRecovery(c, w)
    ensures Follows(c, w, Advance(CALM), RecoverAdvance(w)) && InRecovery(c, RecoverAdvance(w))
  {
    if Down(w.pc) {
      RecoverKeepsSafe(c, w);
    }
  }

  lemma SavingFollows(c: Config, w: World)
    requires InRecovery(c, w)
    ensures Follows(c, w, Save(true), Saving(w)) && InRecovery(c, Saving(w))
  {
    SaveKeepsSafe(c, w, true);
  }

  lemma {:induction false} CrashFollows(c: Config, w: World, tails: seq<seq<byte>>)
    requires Safe(c, w) && DurableBefore(c)
    ensures Follows(c, w, Crash(tails), CrashStep(w, tails)) && InRecovery(c, CrashStep(w, tails))
  {
    CrashKeepsSafe(c, w, tails);
  }

  /** `Restarted` is what six events of the machine do. */
  lemma {:induction false} RestartedFollows(c: Config, w: World, tails: seq<seq<byte>>)
    requires Shaped(c, w) && Safe(c, w) && DurableBefore(c)
    ensures exists crashed, decided, dropped, failed, saved ::
              && Follows(c, w, Crash(tails), crashed)
              && Follows(c, crashed, Advance(CALM), decided)
              && Follows(c, decided, Advance(CALM), dropped)
              && Follows(c, dropped, Advance(CALM), failed)
              && Follows(c, failed, Save(true), saved)
              && Follows(c, saved, Advance(CALM), Restarted(w, tails))
    ensures InRecovery(c, Restarted(w, tails))
  {
    CrashFollows(c, w, tails);
    var crashed := CrashStep(w, tails);
    RecoveryStepFollows(c, crashed);
    var decided := RecoverAdvance(crashed);
    RecoveryStepFollows(c, decided);
    var dropped := RecoverAdvance(decided);
    RecoveryStepFollows(c, dropped);
    var failed := RecoverAdvance(dropped);
    SavingFollows(c, failed);
    var saved := Saving(failed);
    RecoveryStepFollows(c, saved);
    assert RecoverAdvance(saved) == Restarted(w, tails);
  }

  /** What the recovery makes of the stored record `f`. */
  ghost predicate Resolves(c: Config, before: Disk, f: FileRecord, after: World) {
    && after.pc.Idle?
    && after.chain.stored < |after.chain.points|
    && var g := Record(after);
    && Store(after.chain) == g
    && !InFlight(g.status)
    && (f.status.Finalizing? && Linked(before, f.finalizingPath) ==>
          && g.status.Completed? && g.destinationPath == f.finalizingPath
          && after.disk.partial.None?)
    && (f.status.Finalizing? && !Linked(before, f.finalizingPath) ==>
          g.status.Failed? && after.disk.partial.None?)
    && (f.status.Verifying? ==> g.status.Failed? && after.disk.partial.None?)
    && (IsTerminalFile(f.status) ==> g == f)
    && after.disk.names == before.names
  }

  lemma RecoveryResolves(c: Config, before: Disk, w: World, f: FileRecord)
    requires Opening(w, f) && RecordOk(c, f)
    requires w.disk.names == before.names && w.disk.partial == before.partial
    ensures Resolves(c, before, f, Recovery(w))
  {
    var linked := Linked(w.disk, f.finalizingPath);
    var g := Recovered(f, linked);
    RecoveryIsIdempotent(f, linked, false);
    if g == f {
      NothingToRecover(w, f);
    } else if g.status.Failed? {
      RecoversByDropping(w, f);
    } else {
      RecoversInOneSave(w, f);
    }
  }

  /**
   At every instant of every run, including the instants inside an earlier
   recovery, a crash followed by recovery settles the file: completed on its
   published inode or failed without a partial, with memory and store agreeing
   and no final name added or taken away.
   */
  lemma {:induction false} FinalizationIsCrashAtomic(c: Config, r: Run, tails: seq<seq<byte>>)
    requires Happens(c, r) && AllAllowed(c, r)
    ensures Safe(c, r.now)
    ensures Resolves(c, r.now.disk, Store(r.now.chain), Restarted(r.now, tails))
    ensures Safe(c, Restarted(r.now, tails))
  {
    RunsAreSafe(c, r);
    var w := r.now;
    assert PointOk(c, w.disk, w.chain.points[w.chain.stored]);
    RestartedFollows(c, w, tails);
    RecoveryResolves(c, w.disk, CrashStep(w, tails), Store(w.chain));
  }

  /** In particular the file completed by recovery is the sender's, byte for byte and durable. */
  lemma {:induction false} RecoveredFileIsTheSource(c: Config, r: Run, tails: seq<seq<byte>>)
    requires Happens(c, r) && AllAllowed(c, r) && Shaped(c, r.now)
    requires var f := Store(r.now.chain); f.status.Finalizing? && Linked(r.now.disk, f.finalizingPath)
    ensures var after := Restarted(r.now, tails);
            var path := Store(r.now.chain).finalizingPath.value;
            && path in after.disk.names && after.disk.names[path] < |after.disk.inodes|
            && after.disk.inodes[after.disk.names[path]].data == c.source
            && after.disk.inodes[after.disk.names[path]].durable == |c.source|
  {
    FinalizationIsCrashAtomic(c, r, tails);
    RecordIsOk(c, Restarted(r.now, tails));
  }
}
