/** The sequential services and the step system agree: a process left alone does exactly
    what its service method ensures, and what that is for the rows and the books. */
module ServiceRefinement {
  import opened Wrappers
  import opened PayoutStateMachine
  import opened Ledgers
  import opened Tables
  import opened Treasury
  import opened TreasuryBooks
  import opened PayoutServices

  /** n steps of process k, nobody else moving. */
  function RunAlone(s: State, k: nat, n: nat, accepted: bool): State
    requires k < |s.procs|
    ensures |RunAlone(s, k, n, accepted).procs| == |s.procs|
    decreases n
  {
    if n == 0 then s
    else
      var s1 := ApplyProc(s, k, accepted);
      assert |s1.procs| == |s.procs|;
      RunAlone(s1, k, n - 1, accepted)
  }

  // ----- Stretches of a run -----

  function ApplyAll(c: Config, s: State, acts: seq<Action>): State
    decreases |acts|
  {
    if acts == [] then s else ApplyAll(c, Apply(c, s, acts[0]), acts[1..])
  }

  lemma {:induction false} ExecAppend(c: Config, acts: seq<Action>, more: seq<Action>)
    ensures Exec(c, acts + more) == ApplyAll(c, Exec(c, acts), more)
    decreases |more|
  {
    hide Apply;
    if more == [] {
      assert acts + more == acts;
    } else {
      ExecSnoc(c, acts, more[0]);
      ExecAppend(c, acts + [more[0]], more[1..]);
      assert acts + more == acts + [more[0]] + more[1..];
    }
  }

  lemma {:induction false} ApplyAllAppend(c: Config, s: State, acts: seq<Action>, more: seq<Action>)
    ensures ApplyAll(c, s, acts + more) == ApplyAll(c, ApplyAll(c, s, acts), more)
    decreases |acts|
  {
    hide Apply;
    if acts == [] {
      assert acts + more == more;
    } else {
      assert (acts + more)[1..] == acts[1..] + more;
      ApplyAllAppend(c, Apply(c, s, acts[0]), acts[1..], more);
    }
  }

  lemma ApplyTwo(c: Config, s: State, a: Action, b: Action, more: seq<Action>)
    ensures ApplyAll(c, s, [a, b] + more) == ApplyAll(c, Apply(c, Apply(c, s, a), b), more)
  {
    hide Apply;
    assert ([a, b] + more)[1..] == [b] + more && ([b] + more)[1..] == more;
  }

  /** A success event delivered and worked off. */
  lemma DeliveredSettles(c: Config, s: State, i: nat, fee: int, at: Clocks)
    requires s.worker.Idle? && CanSettle(s.db, i)
    ensures ApplyAll(c, s, [DeliverSuccess(i, fee), WorkerStep(at)]) == s.(db := SettleSuccess(s.db, i, at, fee))
  {
    ApplyTwo(c, s, DeliverSuccess(i, fee), WorkerStep(at), []);
    assert [DeliverSuccess(i, fee), WorkerStep(at)] + [] == [DeliverSuccess(i, fee), WorkerStep(at)];
    hide SettleSuccess;
  }

  /** n steps of process k as actions. */
  function Alone(k: nat, n: nat, accepted: bool): seq<Action> {
    seq(n, j => Step(k, accepted))
  }

  lemma {:induction false} AloneIsRunAlone(c: Config, s: State, k: nat, n: nat, accepted: bool)
    requires k < |s.procs|
    ensures ApplyAll(c, s, Alone(k, n, accepted)) == RunAlone(s, k, n, accepted)
    decreases n
  {
    hide ApplyProc;
    if n > 0 {
      assert Alone(k, n, accepted)[1..] == Alone(k, n - 1, accepted);
      assert |ApplyProc(s, k, accepted).procs| == |s.procs| by {
        assert |RunAlone(s, k, 1, accepted).procs| == |s.procs|;
        assert RunAlone(s, k, 1, accepted) == RunAlone(ApplyProc(s, k, accepted), k, 0, accepted);
      }
      AloneIsRunAlone(c, ApplyProc(s, k, accepted), k, n - 1, accepted);
    }
  }

  /** Steps the job needs for its remaining rows. */
  function JobSteps(db: Db, todo: seq<nat>): nat
    decreases |todo|
  {
    if todo == [] then 1
    else
      match TransitionStatus(db, todo[0], AWAITING, Expired)
      case None => 1 + JobSteps(db, todo[1..])
      case Some(expired) => 2 + JobSteps(ReleaseLock(expired, todo[0]), todo[1..])
  }

  lemma {:induction false} RunAloneSplit(s: State, k: nat, m: nat, n: nat, accepted: bool)
    requires k < |s.procs|
    ensures RunAlone(s, k, m + n, accepted) == RunAlone(RunAlone(s, k, m, accepted), k, n, accepted)
    decreases m
  {
    hide ApplyProc;
    if m > 0 {
      var s1 := ApplyProc(s, k, accepted);
      assert RunAlone(s, k, 1, accepted) == RunAlone(s1, k, 0, accepted) == s1;
      RunAloneSplit(s1, k, m - 1, n, accepted);
      assert RunAlone(s, k, m + n, accepted) == RunAlone(s1, k, m - 1 + n, accepted);
    }
  }

  /** One visit of the expiry process: on to the next row, or expire, release and on. */
  lemma JobVisit(s: State, k: nat, todo: seq<nat>, accepted: bool)
    requires k < |s.procs| && s.procs[k] == Expiring(todo) && todo != []
    ensures match TransitionStatus(s.db, todo[0], AWAITING, Expired)
      case None => RunAlone(s, k, 1, accepted) == s.(procs := s.procs[k := Expiring(todo[1..])])
      case Some(expired) =>
        RunAlone(s, k, 2, accepted)
        == s.(db := ReleaseLock(expired, todo[0]), procs := s.procs[k := Expiring(todo[1..])])
  {
    hide ReleaseLock;
    var s1 := ApplyProc(s, k, accepted);
    assert RunAlone(s, k, 1, accepted) == RunAlone(s1, k, 0, accepted) == s1;
    if TransitionStatus(s.db, todo[0], AWAITING, Expired).Some? {
      var s2 := ApplyProc(s1, k, accepted);
      assert s1.procs[k := Expiring(todo[1..])] == s.procs[k := Expiring(todo[1..])];
      assert RunAlone(s, k, 2, accepted) == RunAlone(s1, k, 1, accepted) == RunAlone(s2, k, 0, accepted) == s2;
    }
  }

  /** The expiry process, undisturbed, is expirePayoutRequests. */
  lemma {:induction false} JobIsService(s: State, k: nat, todo: seq<nat>, accepted: bool)
    requires k < |s.procs| && s.procs[k] == Expiring(todo)
    ensures var s' := RunAlone(s, k, JobSteps(s.db, todo), accepted);
      s' == s.(db := ExpireEach(s.db, todo), procs := s.procs[k := Done])
    decreases |todo|
  {
    if todo == [] {
      var s1 := ApplyProc(s, k, accepted);
      assert RunAlone(s, k, 1, accepted) == RunAlone(s1, k, 0, accepted) == s1;
    } else {
      hide ApplyProc, ReleaseLock, RunAlone, TransitionStatus;
      JobVisit(s, k, todo, accepted);
      var n := if TransitionStatus(s.db, todo[0], AWAITING, Expired).None? then 1 else 2;
      var next := RunAlone(s, k, n, accepted);
      JobIsService(next, k, todo[1..], accepted);
      RunAloneSplit(s, k, n, JobSteps(next.db, todo[1..]), accepted);
      assert next.procs[k := Done] == s.procs[k := Done];
    }
  }

  /** The call is counted and made. */
  lemma CallIsMade(s: State, k: nat, i: nat, accepted: bool)
    requires k < |s.procs| && s.procs[k] == Firing(i) && i < |s.db.payouts|
    ensures RunAlone(s, k, 2, accepted)
      == s.(db := PutPayout(s.db, i, s.db.payouts[i].(fires := s.db.payouts[i].fires + 1)),
            procs := s.procs[k := if accepted then Returned(i) else Threw(i)])
  {
    var s1 := ApplyProc(s, k, accepted);
    var s2 := ApplyProc(s1, k, accepted);
    assert RunAlone(s, k, 2, accepted) == RunAlone(s1, k, 1, accepted) == RunAlone(s2, k, 0, accepted) == s2;
  }

  lemma ReturnedStores(s: State, k: nat, i: nat, accepted: bool)
    requires k < |s.procs| && s.procs[k] == Returned(i) && i < |s.db.payouts|
    ensures RunAlone(s, k, 1, accepted)
      == s.(db := PutPayout(s.db, i, s.db.payouts[i].(status := Transferring, hasRef := true)),
            procs := s.procs[k := Done])
  {
    var s1 := ApplyProc(s, k, accepted);
    assert RunAlone(s, k, 1, accepted) == RunAlone(s1, k, 0, accepted) == s1;
  }

  lemma ThrewReleases(s: State, k: nat, i: nat, accepted: bool)
    requires k < |s.procs| && s.procs[k] == Threw(i)
    requires i < |s.db.payouts| && s.db.payouts[i].status == Transferring
    ensures RunAlone(s, k, 2, accepted)
      == s.(db := ReleaseLock(UpdateStatus(s.db, i, Failed), i), procs := s.procs[k := Done])
  {
    hide ReleaseLock;
    var s1 := ApplyProc(s, k, accepted);
    var s2 := ApplyProc(s1, k, accepted);
    assert RunAlone(s, k, 2, accepted) == RunAlone(s1, k, 1, accepted) == RunAlone(s2, k, 0, accepted) == s2;
  }

  /** From the write that precedes the transfer call on, the approval path and the manual
      path run the same steps. */
  lemma FiringIsTransfer(s: State, k: nat, i: nat, accepted: bool)
    requires k < |s.procs| && s.procs[k] == Firing(i)
    requires i < |s.db.payouts| && s.db.payouts[i].status == Transferring
    ensures RunAlone(s, k, if accepted then 3 else 4, accepted)
      == s.(db := AfterTransfer(s.db, i, accepted), procs := s.procs[k := Done])
  {
    hide RunAlone, ReleaseLock;
    CallIsMade(s, k, i, accepted);
    var called := RunAlone(s, k, 2, accepted);
    RunAloneSplit(s, k, 2, if accepted then 1 else 2, accepted);
    assert called.procs[k := Done] == s.procs[k := Done];
    if accepted {
      ReturnedStores(called, k, i, accepted);
    } else {
      ThrewReleases(called, k, i, accepted);
    }
  }

  /** AfterTransfer writes the status itself, so it starts equally well from the row before
      and after the step into TRANSFERRING. */
  lemma TransferFromEitherRow(db: Db, i: nat, accepted: bool)
    requires i < |db.payouts|
    ensures AfterTransfer(UpdateStatus(db, i, Transferring), i, accepted) == AfterTransfer(db, i, accepted)
  {
    var po := db.payouts[i];
    assert PutPayout(UpdateStatus(db, i, Transferring), i, po.(status := Transferring, fires := po.fires + 1))
      == PutPayout(db, i, po.(status := Transferring, fires := po.fires + 1));
  }

  /** A cancel request, undisturbed, is the cancel service: refused without a write, or
      CANCELLED and released. */
  lemma CancelIsService(c: Config, s: State, i: nat, initiator: Admin)
    ensures match CancelRow(s.db, i, initiator)
      case None => Apply(c, s, Cancel(i, initiator)) == s
      case Some(db) =>
        ApplyAll(c, s, [Cancel(i, initiator)] + Alone(|s.procs|, 2, true)) == s.(db := db, procs := s.procs + [Done])
  {
    hide ReleaseLock;
    if CancelRow(s.db, i, initiator).Some? {
      var k, s1 := |s.procs|, Apply(c, s, Cancel(i, initiator));
      var s2 := ApplyProc(s1, k, true);
      var s3 := ApplyProc(s2, k, true);
      assert s3 == s.(db := CancelRow(s.db, i, initiator).value, procs := s.procs + [Done]) by {
        assert s1.procs[k := Releasing(i)][k := Done] == s.procs + [Done];
      }
      assert RunAlone(s1, k, 2, true) == RunAlone(s2, k, 1, true) == RunAlone(s3, k, 0, true) == s3;
      hide Apply, ApplyProc, RunAlone;
      AloneIsRunAlone(c, s1, k, 2, true);
      assert ([Cancel(i, initiator)] + Alone(k, 2, true))[1..] == Alone(k, 2, true);
    }
  }

  /** The manual process, undisturbed, is execute. */
  lemma ManualIsService(s: State, k: nat, i: nat, accepted: bool)
    requires k < |s.procs| && s.procs[k] == ManualCreated(i)
    requires i < |s.db.payouts| && s.db.payouts[i].status == Pending
    ensures RunAlone(s, k, if accepted then 4 else 5, accepted)
      == s.(db := AfterTransfer(s.db, i, accepted), procs := s.procs[k := Done])
  {
    var s1 := ApplyProc(s, k, accepted);
    FiringIsTransfer(s1, k, i, accepted);
    TransferFromEitherRow(s.db, i, accepted);
    assert s1.procs[k := Done] == s.procs[k := Done];
    assert RunAlone(s, k, if accepted then 4 else 5, accepted) == RunAlone(s1, k, if accepted then 3 else 4, accepted);
  }

  // ----- The expiry job's effect -----

  /** Increasing ids of awaiting rows, as the scan returns them. */
  predicate Scanned(db: Db, ids: seq<nat>) {
    && (forall k :: 0 <= k < |ids| ==> ids[k] < |db.payouts| && IsAwaiting(db.payouts[ids[k]].status))
    && (forall j, k :: 0 <= j < k < |ids| ==> ids[j] < ids[k])
  }

  function ExpireRow(db: Db, i: nat): Db
    requires i < |db.payouts|
  {
    ReleaseLock(UpdateStatus(db, i, Expired), i)
  }

  lemma ScannedRest(db: Db, ids: seq<nat>)
    requires Scanned(db, ids) && ids != []
    ensures Scanned(ExpireRow(db, ids[0]), ids[1..])
    ensures ExpireEach(db, ids) == ExpireEach(ExpireRow(db, ids[0]), ids[1..])
  {
    var next := ExpireRow(db, ids[0]);
    forall k | 0 <= k < |ids| - 1 ensures ids[1..][k] < |next.payouts| && IsAwaiting(next.payouts[ids[1..][k]].status) {
      assert ids[1..][k] == ids[k + 1] > ids[0];
    }
  }

  lemma {:induction false} ExpireEachRows(db: Db, ids: seq<nat>)
    requires Scanned(db, ids)
    ensures var db' := ExpireEach(db, ids);
      && db'.txs == db.txs && |db'.payouts| == |db.payouts|
      && forall i :: 0 <= i < |db.payouts| ==>
           db'.payouts[i] == if i in ids then db.payouts[i].(status := Expired, held := false) else db.payouts[i]
    decreases |ids|
  {
    if ids != [] {
      hide ExpireRow, ReleaseLock;
      var next := ExpireRow(db, ids[0]);
      ExpireRowMeaning(db, ids[0]);
      ScannedRest(db, ids);
      ExpireEachRows(next, ids[1..]);
      assert ids[0] !in ids[1..];
      hide ExpireEach, Scanned, IsAwaiting;
      forall i: nat | i < |db.payouts| ensures i in ids <==> i == ids[0] || i in ids[1..] {
        assert ids == [ids[0]] + ids[1..];
      }
    }
  }

  lemma ExpireRowMeaning(db: Db, i: nat)
    requires i < |db.payouts|
    ensures var next := ExpireRow(db, i);
      next.txs == db.txs && next.payouts == db.payouts[i := db.payouts[i].(status := Expired, held := false)]
  {
    hide ReleaseRows;
  }

  lemma {:induction false} ExpireEachLocks(db: Db, ids: seq<nat>)
    requires Scanned(db, ids) && LockBooks(db) && PositiveAmounts(db.payouts)
    requires forall k :: 0 <= k < |ids| ==> db.payouts[ids[k]].held && db.payouts[ids[k]].lockedPeriod.Some?
    ensures LockBooks(ExpireEach(db, ids))
    decreases |ids|
  {
    if ids != [] {
      var expired := UpdateStatus(db, ids[0], Expired);
      QuietKeepsBooks(db, ids[0], expired.payouts[ids[0]]);
      ReleaseKeepsLocks(expired, ids[0]);
      ScannedRest(db, ids);
      var next := ExpireRow(db, ids[0]);
      forall k | 0 <= k < |ids| - 1
        ensures next.payouts[ids[1..][k]].held && next.payouts[ids[1..][k]].lockedPeriod.Some?
      {
        assert ids[1..][k] == ids[k + 1] > ids[0];
      }
      ExpireEachLocks(next, ids[1..]);
    }
  }

  lemma {:induction false} ExpireEachCovers(db: Db, ids: seq<nat>)
    requires Scanned(db, ids) && MoneyBooks(db) && LocksCover(db) && PositiveAmounts(db.payouts)
    requires forall k :: 0 <= k < |ids| ==> db.payouts[ids[k]].held
    ensures LocksCover(ExpireEach(db, ids))
    decreases |ids|
  {
    hide MoneyBooks, LocksCover;
    if ids != [] {
      var expired := UpdateStatus(db, ids[0], Expired);
      QuietKeepsBooks(db, ids[0], expired.payouts[ids[0]]);
      ReleaseKeepsCover(expired, ids[0]);
      ReleaseRowsKeepsMoney(expired, ids[0]);
      ScannedRest(db, ids);
      var next := ExpireRow(db, ids[0]);
      forall k | 0 <= k < |ids| - 1 ensures next.payouts[ids[1..][k]].held {
        assert ids[1..][k] == ids[k + 1] > ids[0];
      }
      ExpireEachCovers(next, ids[1..]);
    }
  }

  /** expirePayoutRequests on any tables: exactly the overdue PENDING and PARTIAL rows become
      EXPIRED and give their locks back; every other row stands. */
  lemma ExpiryMeaning(db: Db, now: int)
    ensures var db' := ExpireEach(db, Overdue(db.payouts, now));
      && db'.txs == db.txs && |db'.payouts| == |db.payouts|
      && forall i :: 0 <= i < |db.payouts| ==>
           var po := db.payouts[i];
           db'.payouts[i] == if (po.status == Pending || po.status == Partial) && po.expiresAt < now
                             then po.(status := Expired, held := false) else po
  {
    var ids := Overdue(db.payouts, now);
    ExpireEachRows(db, ids);
    forall i | 0 <= i < |db.payouts| ensures i in ids <==> IsOverdue(db.payouts[i], now) {
      if i in ids {
        var k :| 0 <= k < |ids| && ids[k] == i;
      }
    }
  }

  /** And conserved locks stay conserved, so each fund gains exactly the expired amounts. */
  lemma ExpiryKeepsLocks(db: Db, now: int)
    requires LockBooks(db) && PositiveAmounts(db.payouts)
    requires forall i :: 0 <= i < |db.payouts| && IsOverdue(db.payouts[i], now) ==>
      db.payouts[i].held && db.payouts[i].lockedPeriod.Some?
    ensures LockBooks(ExpireEach(db, Overdue(db.payouts, now)))
  {
    ExpireEachLocks(db, Overdue(db.payouts, now));
  }

  /** Whatever months are on record, the locks still cover what the fund has reserved. */
  lemma ExpiryKeepsCover(db: Db, now: int)
    requires MoneyBooks(db) && LocksCover(db) && PositiveAmounts(db.payouts)
    requires forall i :: 0 <= i < |db.payouts| && IsOverdue(db.payouts[i], now) ==> db.payouts[i].held
    ensures LocksCover(ExpireEach(db, Overdue(db.payouts, now)))
  {
    ExpireEachCovers(db, Overdue(db.payouts, now));
  }
}
