/**
 How `claimNext` schedules (`claimNext` in src/transfer/transfer-queue.ts and
 `activateNext` in src/transfer/transfer-coordinator.ts): first come first
 served, never idle while a file waits, and done after exactly as many claims
 as there were files waiting.
 */
module QueueScheduling {
  import opened Wrappers
  import opened TransferFile
  import opened QueueModel
  import opened QueueRuns

  // ----- no file is stranded -----------------------------------------------

  /** A queued file's batch is never one that `claimNext` skips. */
  lemma {:induction false} QueuedFilesAreClaimable(q: seq<Batch>, i: nat, j: nat)
    requires AllStatusOk(q) && i < |q| && j < |q[i].files| && q[i].files[j].status.Queued?
    ensures Claimable(q[i])
  {
    assert SomeQueued(q[i].files);
    assert !IsTerminalFile(q[i].files[j].status);
  }

  predicate SomethingQueued(q: seq<Batch>) {
    exists i :: 0 <= i < |q| && SomeQueued(q[i].files)
  }

  /** Nothing is claimed exactly when a file is in flight already or none is queued. */
  lemma {:induction false} ClaimsWheneverItCan(q: seq<Batch>)
    requires AllStatusOk(q)
    ensures NextClaim(q).None? <==> Busy(q) || !SomethingQueued(q)
  {
    var i := FirstClaimable(q);
    if i == |q| && SomethingQueued(q) {
      var k :| 0 <= k < |q| && SomeQueued(q[k].files);
      var j :| 0 <= j < |q[k].files| && q[k].files[j].status.Queued?;
      QueuedFilesAreClaimable(q, k, j);
    }
  }

  /** Whenever `claimNext` returns, a file is in flight or no file is waiting. */
  lemma {:induction false} WorkIsConserved(q: seq<Batch>, now: int)
    requires AllStatusOk(q)
    ensures Busy(ClaimFirst(q, now)) || !SomethingQueued(ClaimFirst(q, now))
  {
    ClaimsWheneverItCan(q);
    if NextClaim(q).Some? {
      var (i, j) := NextClaim(q).value;
      assert InFlight(ClaimFirst(q, now)[i].files[j].status);
      assert SomeInFlight(ClaimFirst(q, now)[i].files);
    }
  }

  /** `(k, l)` comes before `(i, j)`: an earlier batch, or earlier in the same one. */
  predicate Before(k: nat, l: nat, i: nat, j: nat) {
    k < i || (k == i && l < j)
  }

  /** A claim takes a queued file, and every file before it that is still queued waits in a batch it must skip. */
  lemma {:induction false} ClaimsOvertakeNobody(q: seq<Batch>, k: nat, l: nat)
    requires NextClaim(q).Some? && k < |q| && l < |q[k].files|
    requires Before(k, l, NextClaim(q).value.0, NextClaim(q).value.1)
    ensures var (i, j) := NextClaim(q).value;
            i < |q| && j < |q[i].files| && q[i].files[j].status.Queued? && Claimable(q[i])
    ensures q[k].files[l].status.Queued? ==> q[k].status.Paused? || IsTerminalBatch(q[k].status)
  {
    if k < NextClaim(q).value.0 {
      assert !Claimable(q[k]);
      if q[k].files[l].status.Queued? {
        assert SomeQueued(q[k].files);
      }
    }
  }

  /** With the batch statuses kept, there is no such batch: the claimed file is the first queued one of all. */
  lemma {:induction false} ClaimsAreFirstComeFirstServed(h: History, k: nat, l: nat)
    requires ClockOk(h) && NextClaim(Now(h)).Some? && k < |Now(h)| && l < |Now(h)[k].files|
    requires Before(k, l, NextClaim(Now(h)).value.0, NextClaim(Now(h)).value.1)
    ensures !Now(h)[k].files[l].status.Queued?
  {
    RunsKeepQueueOk(h);
    var q := Now(h);
    if q[k].files[l].status.Queued? {
      ClaimsOvertakeNobody(q, k, l);
      QueuedFilesAreClaimable(q, k, l);
    }
  }

  // ----- draining ----------------------------------------------------------

  function QueuedIn(files: seq<FileRecord>): nat {
    if files == [] then 0
    else (if files[0].status.Queued? then 1 else 0) + QueuedIn(files[1..])
  }

  function Waiting(q: seq<Batch>): nat {
    if q == [] then 0 else QueuedIn(q[0].files) + Waiting(q[1..])
  }

  lemma {:induction false} QueuedInAfterUpdate(files: seq<FileRecord>, j: nat, f: FileRecord)
    requires j < |files|
    ensures QueuedIn(files[j := f]) ==
            QueuedIn(files) - (if files[j].status.Queued? then 1 else 0) + (if f.status.Queued? then 1 else 0)
  {
    if j == 0 {
      assert files[0 := f][1..] == files[1..];
    } else {
      QueuedInAfterUpdate(files[1..], j - 1, f);
      assert files[j := f][1..] == files[1..][j - 1 := f];
    }
  }

  lemma {:induction false} WaitingAfterUpdate(q: seq<Batch>, i: nat, b: Batch)
    requires i < |q|
    ensures Waiting(q[i := b]) == Waiting(q) - QueuedIn(q[i].files) + QueuedIn(b.files)
  {
    if i == 0 {
      assert q[0 := b][1..] == q[1..];
    } else {
      WaitingAfterUpdate(q[1..], i - 1, b);
      assert q[i := b][1..] == q[1..][i - 1 := b];
    }
  }

  lemma {:induction false} QueuedInPositive(files: seq<FileRecord>)
    ensures QueuedIn(files) > 0 <==> SomeQueued(files)
  {
    if files != [] {
      QueuedInPositive(files[1..]);
      if QueuedIn(files[1..]) > 0 {
        var j :| 0 <= j < |files[1..]| && files[1..][j].status.Queued?;
        assert files[j + 1].status.Queued?;
      }
      if SomeQueued(files) && !files[0].status.Queued? {
        var j :| 0 <= j < |files| && files[j].status.Queued?;
        assert files[1..][j - 1].status.Queued?;
      }
    }
  }

  lemma {:induction false} WaitingPositive(q: seq<Batch>)
    ensures Waiting(q) > 0 <==> SomethingQueued(q)
  {
    if q != [] {
      WaitingPositive(q[1..]);
      QueuedInPositive(q[0].files);
      if Waiting(q[1..]) > 0 {
        var i :| 0 <= i < |q[1..]| && SomeQueued(q[1..][i].files);
        assert SomeQueued(q[i + 1].files);
      }
      if SomethingQueued(q) && !SomeQueued(q[0].files) {
        var i :| 0 <= i < |q| && SomeQueued(q[i].files);
        assert SomeQueued(q[1..][i - 1].files);
      }
    }
  }

  /**
   One round: a claim, then the claimed file ends with the record `ended` makes
   of it (any chain of changes that leaves it terminal).
   */
  datatype Round = Round(now: int, ended: FileRecord)

  function AfterRound(q: seq<Batch>, r: Round): seq<Batch> {
    if NextClaim(q).None? then q
    else
      var (i, j) := NextClaim(q).value;
      var claimed := ClaimFirst(q, r.now);
      claimed[i := Derived(claimed[i].(files := claimed[i].files[j := r.ended]), r.now)]
  }

  function AfterRounds(q: seq<Batch>, rounds: seq<Round>): seq<Batch>
    decreases |rounds|
  {
    if rounds == [] then q else AfterRounds(AfterRound(q, rounds[0]), rounds[1..])
  }

  predicate AllEnd(rounds: seq<Round>) {
    forall k :: 0 <= k < |rounds| ==> IsTerminalFile(rounds[k].ended.status)
  }

  /** What `complete` and `fail` do to the file in flight is such an ending. */
  lemma {:induction false} EndingsAreRounds(q: seq<Batch>, i: nat, j: nat, c: FileChange, now: int)
    requires i < |q| && i == FindBatch(q, q[i].transferId)
    requires j < |q[i].files| && j == FindFile(q[i].files, q[i].files[j].fileId)
    requires InFlight(q[i].files[j].status) && (c.Complete? || c.Fail?)
    ensures var r := ChangeOne(q, q[i].transferId, q[i].files[j].fileId, c, now);
            r.Ok? ==>
              exists g: FileRecord :: IsTerminalFile(g.status) && r.value == q[i := Derived(q[i].(files := q[i].files[j := g]), now)]
  {
    var r := ChangeOne(q, q[i].transferId, q[i].files[j].fileId, c, now);
    if r.Ok? {
      var g := Changed(q[i].files[j], c, now).value;
      assert IsTerminalFile(g.status);
      assert r.value == q[i := Derived(q[i].(files := q[i].files[j := g]), now)];
    }
  }

  lemma {:induction false} RoundKeeps(q: seq<Batch>, r: Round)
    requires AllStatusOk(q) && !Busy(q) && IsTerminalFile(r.ended.status)
    ensures AllStatusOk(AfterRound(q, r)) && !Busy(AfterRound(q, r))
    ensures Waiting(AfterRound(q, r)) == if Waiting(q) == 0 then 0 else Waiting(q) - 1
    ensures NextClaim(q).Some? <==> Waiting(q) > 0
  {
    ClaimsWheneverItCan(q);
    WaitingPositive(q);
    if NextClaim(q).Some? {
      var (i, j) := NextClaim(q).value;
      var after := AfterRound(q, r);
      assert after[i].files == q[i].files[j := r.ended];
      assert after == q[i := after[i]];
      QueuedInAfterUpdate(q[i].files, j, r.ended);
      WaitingAfterUpdate(q, i, after[i]);
      RoundFreesTheLine(q, r);
    }
  }

  lemma {:induction false} RoundFreesTheLine(q: seq<Batch>, r: Round)
    requires !Busy(q) && IsTerminalFile(r.ended.status)
    ensures !Busy(AfterRound(q, r))
  {
    var after := AfterRound(q, r);
    forall k, l | 0 <= k < |after| && 0 <= l < |after[k].files|
      ensures !InFlight(after[k].files[l].status)
    {
      assert !SomeInFlight(q[k].files);
      assert !InFlight(q[k].files[l].status);
    }
  }

  /**
   Draining: with no new files and none expiring, the first `Waiting(q)` rounds
   each claim a file, and after them nothing is queued, in flight or claimable.
   */
  lemma {:induction false} DrainsInExactlyAsManyClaims(q: seq<Batch>, rounds: seq<Round>)
    requires AllStatusOk(q) && !Busy(q) && AllEnd(rounds)
    ensures var after := AfterRounds(q, rounds);
            && Waiting(after) == (if |rounds| <= Waiting(q) then Waiting(q) - |rounds| else 0)
            && !Busy(after)
            && (NextClaim(after).Some? <==> |rounds| < Waiting(q))
            && (SomethingQueued(after) <==> |rounds| < Waiting(q))
    decreases |rounds|
  {
    if rounds == [] {
      ClaimsWheneverItCan(q);
      WaitingPositive(q);
    } else {
      RoundKeeps(q, rounds[0]);
      DrainsInExactlyAsManyClaims(AfterRound(q, rounds[0]), rounds[1..]);
    }
  }
}
