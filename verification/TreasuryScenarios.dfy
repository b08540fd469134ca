/** Concrete runs: promises the code does not keep. */
module TreasuryScenarios {
  import opened Wrappers
  import opened PayoutStateMachine
  import opened Ledgers
  import opened Journal
  import opened Tables
  import opened Treasury
  import opened TreasuryControl
  import opened TreasuryBooks
  import opened TreasuryMoney
  import opened TreasuryMonths
  import opened TreasuryRuns
  import opened TreasurySafety
  import opened TreasuryReleases
  import opened PayoutServices
  import opened ServiceRefinement

  // ----- Building blocks -----

  /** A fund with one row. */
  lemma OneRow(p: Period, r: Row)
    ensures map[p := r].Keys == {p} && Latest({p}) == p
    ensures forall c :: Total(map[p := r], c) == Cell(r, c)
  {
    var l := map[p := r];
    assert l.Keys == {p};
    assert l - {p} == map[];
    forall c ensures Total(l, c) == Cell(r, c) {
      assert Total(map[], c) == 0;
    }
  }

  function Shared(r: Row): Books {
    map[0 := map[0 := r]]
  }

  /** A manual payout of fund 0, locked in month 0. */
  function Manual(amount: int): Payout {
    Payout(0, 0, amount, Pending, false, Some(0), 0, 0, None, Direct, true, 0, 0, None, None)
  }

  /** An inflow that just covers n payouts of `amount` and one fee, then m of them. */
  function Opening(c: Config, amount: int, n: nat, m: nat): seq<Action> {
    [Inflow(SharedVa(0), 0, n * amount + c.feeBuffer, 0, "ref")] + seq(m, _ => Initiate(0, 0, amount, [], 0, true))
  }

  function Opened(c: Config, amount: int, n: nat, m: nat): State {
    State(Db(Shared(OpenedRow(c, amount, n, m)), [Tx(SharedVa(0), 0, n * amount + c.feeBuffer, 0, "ref")],
             seq(m, _ => Manual(amount))),
          map[], DEFAULT_POLICY, seq(m, k requires 0 <= k < m => ManualCreated(k)), Idle)
  }

  lemma FirstInflow(c: Config, amount: int, n: nat)
    requires 0 < amount && n >= 1
    ensures Apply(c, Init(), Opening(c, amount, n, 0)[0]) == Opened(c, amount, n, 0)
  {
    assert n * amount >= amount;
    var s, s' := Apply(c, Init(), Opening(c, amount, n, 0)[0]), Opened(c, amount, n, 0);
    assert s.db.books[0] == s'.db.books[0];
    assert s.db.books == s'.db.books;
    assert s.db.payouts == s'.db.payouts && s.procs == s'.procs;
  }

  function OpenedRow(c: Config, amount: int, n: nat, m: nat): Row {
    Row(n * amount + c.feeBuffer, 0, 0, m * amount, 0, 1)
  }

  lemma RoomForNext(amount: int, n: nat, m: nat)
    requires 0 < amount && m < n
    ensures (m + 1) * amount == m * amount + amount <= n * amount
  {
    assert (n - m - 1) * amount >= 0 && n * amount == (n - m - 1) * amount + (m + 1) * amount;
  }

  lemma LockOneRow(total: int, locked: int, amount: int, feeBuffer: nat)
    requires 0 < amount && locked + amount + feeBuffer <= total
    ensures TryLock(map[0 := Row(total, 0, 0, locked, 0, 1)], amount, feeBuffer)
      == Locked(map[0 := Row(total, 0, 0, locked + amount, 0, 1)], 0)
  {
    var r := Row(total, 0, 0, locked, 0, 1);
    OneRow(0, r);
    assert Available(map[0 := r]) >= amount + feeBuffer;
    assert AddLock(map[0 := r], 0, amount) == map[0 := Row(total, 0, 0, locked + amount, 0, 1)];
  }

  lemma NextLock(c: Config, amount: int, n: nat, m: nat)
    requires 0 < amount && m < n
    ensures TryLock(map[0 := OpenedRow(c, amount, n, m)], amount, c.feeBuffer)
      == Locked(map[0 := OpenedRow(c, amount, n, m + 1)], 0)
  {
    hide TryLock;
    RoomForNext(amount, n, m);
    LockOneRow(n * amount + c.feeBuffer, m * amount, amount, c.feeBuffer);
  }

  lemma CreateManual(c: Config, amount: int, n: nat, m: nat)
    requires 0 < amount < DEFAULT_POLICY.threshold && m < n
    ensures Apply(c, Opened(c, amount, n, m), Initiate(0, 0, amount, [], 0, true)) == Opened(c, amount, n, m + 1)
  {
    var s, s' := Opened(c, amount, n, m), Opened(c, amount, n, m + 1);
    NextLock(c, amount, n, m);
    hide TryLock, OpenedRow;
    assert BookOf(s.db.books, 0) == map[0 := OpenedRow(c, amount, n, m)];
    assert s.db.books[0 := map[0 := OpenedRow(c, amount, n, m + 1)]] == s'.db.books;
    var t := Apply(c, s, Initiate(0, 0, amount, [], 0, true));
    assert t.db.payouts == s'.db.payouts;
    assert t.procs == s'.procs;
  }

  lemma {:induction false} OpeningState(c: Config, amount: int, n: nat, m: nat)
    requires 0 < amount < DEFAULT_POLICY.threshold && m <= n && n >= 1
    ensures Exec(c, Opening(c, amount, n, m)) == Opened(c, amount, n, m)
    decreases m
  {
    hide Apply, Opened;
    var acts := Opening(c, amount, n, m);
    if m == 0 {
      FirstInflow(c, amount, n);
      assert acts == [acts[0]] && acts[..0] == [];
    } else {
      OpeningState(c, amount, n, m - 1);
      CreateManual(c, amount, n, m - 1);
      assert acts == Opening(c, amount, n, m - 1) + [Initiate(0, 0, amount, [], 0, true)];
      ExecSnoc(c, Opening(c, amount, n, m - 1), Initiate(0, 0, amount, [], 0, true));
    }
  }

  /** A manual caller runs through and its payout settles. */
  function FireAndSettle(k: nat, i: nat, fee: int, at: Clocks): seq<Action> {
    Alone(k, 4, true) + [DeliverSuccess(i, fee), WorkerStep(at)]
  }

  lemma ManualSettles(c: Config, s: State, k: nat, i: nat, fee: int, at: Clocks)
    requires k < |s.procs| && s.procs[k] == ManualCreated(i) && s.worker.Idle?
    requires i < |s.db.payouts| && s.db.payouts[i].status == Pending
    ensures ApplyAll(c, s, FireAndSettle(k, i, fee, at))
      == s.(db := SettleSuccess(AfterTransfer(s.db, i, true), i, at, fee), procs := s.procs[k := Done])
  {
    AloneIsRunAlone(c, s, k, 4, true);
    ManualIsService(s, k, i, true);
    ApplyAllAppend(c, s, Alone(k, 4, true), [DeliverSuccess(i, fee), WorkerStep(at)]);
    var called := s.(db := AfterTransfer(s.db, i, true), procs := s.procs[k := Done]);
    assert CanSettle(called.db, i);
    hide ApplyAll, RunAlone, AfterTransfer, SettleSuccess;
    DeliveredSettles(c, called, i, fee, at);
  }

  // ----- A settlement at a month's end -----

  lemma DebitShared(r: Row, amount: int, fee: int)
    requires 0 < amount <= r.softLock
    ensures Shared(r)[0 := Debit(BookOf(Shared(r), 0), 0, amount, fee, Some(0))]
      == Shared(r.(paidOut := r.paidOut + amount, fees := r.fees + fee, softLock := r.softLock - amount))
  {
    assert Debit(map[0 := r], 0, amount, fee, Some(0))
      == map[0 := r.(paidOut := r.paidOut + amount, fees := r.fees + fee, softLock := r.softLock - amount)];
  }

  /** The run's only settlement reads month 0 on the server's clock and month 1 on the
      database's: the ledger has the payment in month 0, the query by executed_at in month 1. */
  lemma MonthEndSplitsPayment(c: Config, amount: int, fee: int)
    requires 0 < amount < DEFAULT_POLICY.threshold
    ensures var db := Exec(c, Opening(c, amount, 1, 1) + FireAndSettle(0, 0, fee, Clocks(0, 1))).db;
      && Cells(db, 0, 0).paidOut == amount && Cells(db, 0, 1).paidOut == 0
      && SumAt(StampedPostings(db.payouts, PaidOut), 0, 0) == 0
      && SumAt(StampedPostings(db.payouts, PaidOut), 0, 1) == amount
      && !PaidMatches(db)
  {
    hide Apply, Exec, ApplyAll, FireAndSettle, Opening;
    var s, at := Opened(c, amount, 1, 1), Clocks(0, 1);
    OpeningState(c, amount, 1, 1);
    ExecAppend(c, Opening(c, amount, 1, 1), FireAndSettle(0, 0, fee, at));
    ManualSettles(c, s, 0, 0, fee, at);
    var db := SettleSuccess(AfterTransfer(s.db, 0, true), 0, at, fee);
    DebitShared(s.db.books[0][0], amount, fee);
    hide Debit;
    assert StampedPostings(db.payouts, PaidOut) == [] + [Posting(0, 1, amount)];
    SumAppend([], Posting(0, 1, amount), 0, 0);
    SumAppend([], Posting(0, 1, amount), 0, 1);
    assert !PaidCell(db, 0, 0);
  }

  // ----- A lock released twice -----

  /** The initiator cancels the payout i of caller k, and wins; K is the cancel's process. */
  function Race(k: nat, K: nat, i: nat, initiator: Admin): seq<Action> {
    [Cancel(i, initiator), Step(K, true), Step(k, true)]
  }

  lemma RaceLost(c: Config, s: State, k: nat, i: nat)
    requires k < |s.procs| && s.procs[k] == ManualCreated(i)
    requires i < |s.db.payouts| && s.db.payouts[i].status == Pending
    ensures ApplyAll(c, s, Race(k, |s.procs|, i, s.db.payouts[i].initiator))
      == s.(db := UpdateStatus(s.db, i, Cancelled), procs := s.procs[k := ManualConflict(i)] + [Releasing(i)])
  {
    var K, initiator := |s.procs|, s.db.payouts[i].initiator;
    var s1 := Apply(c, s, Cancel(i, initiator));
    var s2 := Apply(c, s1, Step(K, true));
    assert s2 == s.(db := UpdateStatus(s.db, i, Cancelled), procs := s.procs + [Releasing(i)]) by {
      assert s1.procs[K := Releasing(i)] == s.procs + [Releasing(i)];
    }
    ApplyTwo(c, s, Cancel(i, initiator), Step(K, true), [Step(k, true)]);
    assert Race(k, K, i, initiator) == [Cancel(i, initiator), Step(K, true)] + [Step(k, true)];
    assert (s.procs + [Releasing(i)])[k := ManualConflict(i)] == s.procs[k := ManualConflict(i)] + [Releasing(i)];
    assert ApplyAll(c, s2, [Step(k, true)]) == Apply(c, s2, Step(k, true));
  }

  /** Then both release. */
  lemma BothRelease(c: Config, s: State, k: nat, K: nat, i: nat)
    requires k < |s.procs| && K < |s.procs| && k != K && i < |s.db.payouts|
    requires s.procs[k] == ManualConflict(i) && s.procs[K] == Releasing(i)
    ensures Apply(c, Apply(c, s, Step(k, true)), Step(K, true))
      == s.(db := ReleaseLock(s.db.(books := ReleaseRows(s.db, i)), i), procs := s.procs[k := Done][K := Done])
  {
    hide ReleaseRows;
  }

  lemma ReleaseShared(r: Row, amount: int)
    requires 0 <= amount <= r.softLock
    ensures Shared(r)[0 := Release(BookOf(Shared(r), 0), amount, Some(0))]
      == Shared(r.(softLock := r.softLock - amount))
  {
    assert Release(map[0 := r], amount, Some(0)) == map[0 := r.(softLock := r.softLock - amount)];
  }

  lemma {:induction false} ConflictCountGrows(c: Config, acts: seq<Action>, more: seq<Action>, i: nat)
    ensures ConflictCount(c, acts + more, i) >= ConflictCount(c, acts, i)
    decreases |more|
  {
    hide Exec, ConflictReleases;
    if more == [] {
      assert acts + more == acts;
    } else {
      var n := |more| - 1;
      assert (acts + more)[..|acts + more| - 1] == acts + more[..n];
      ConflictCountGrows(c, acts, more[..n], i);
    }
  }

  lemma ConflictCounted(c: Config, acts: seq<Action>, a: Action, i: nat)
    requires ConflictReleases(Exec(c, acts), a, i) == 1
    ensures ConflictCount(c, acts + [a], i) >= 1
  {
    hide Apply;
    assert (acts + [a])[..|acts|] == acts;
  }

  function DoubleRelease(c: Config, amount: int): seq<Action> {
    Opening(c, amount, 2, 2) + Race(0, 2, 0, 0) + [Step(0, true), Step(2, true)]
  }

  function CancelledFirst(c: Config, amount: int): Db {
    UpdateStatus(Opened(c, amount, 2, 2).db, 0, Cancelled)
  }

  function LostFirst(c: Config, amount: int): State {
    Opened(c, amount, 2, 2).(db := CancelledFirst(c, amount),
                             procs := [ManualConflict(0), ManualCreated(1), Releasing(0)])
  }

  lemma LostFirstState(c: Config, amount: int)
    requires 0 < amount < DEFAULT_POLICY.threshold
    ensures Exec(c, Opening(c, amount, 2, 2) + Race(0, 2, 0, 0)) == LostFirst(c, amount)
  {
    var s := Opened(c, amount, 2, 2);
    OpeningState(c, amount, 2, 2);
    RaceLost(c, s, 0, 0);
    hide Apply, ApplyAll, Exec, Opening, Race;
    ExecAppend(c, Opening(c, amount, 2, 2), Race(0, 2, 0, 0));
    assert s.procs[0 := ManualConflict(0)] + [Releasing(0)] == [ManualConflict(0), ManualCreated(1), Releasing(0)];
  }

  lemma DoubleReleaseState(c: Config, amount: int)
    requires 0 < amount < DEFAULT_POLICY.threshold
    ensures var db, s := CancelledFirst(c, amount), Exec(c, DoubleRelease(c, amount));
      && s.db == ReleaseLock(db.(books := ReleaseRows(db, 0)), 0)
      && s.procs == [Done, ManualCreated(1), Done] && s.policy == DEFAULT_POLICY
    ensures ConflictCount(c, DoubleRelease(c, amount), 0) >= 1
  {
    LostFirstState(c, amount);
    hide Apply, Exec, Opening, Opened, Race, ReleaseLock, ReleaseRows, ConflictCount;
    var before := Opening(c, amount, 2, 2) + Race(0, 2, 0, 0);
    var lost := LostFirst(c, amount);
    BothRelease(c, lost, 0, 2, 0);
    ExecSnoc(c, before, Step(0, true));
    ExecSnoc(c, before + [Step(0, true)], Step(2, true));
    assert before + [Step(0, true)] + [Step(2, true)] == DoubleRelease(c, amount);
    assert lost.procs[0 := Done][2 := Done] == [Done, ManualCreated(1), Done];
    ConflictCounted(c, before, Step(0, true), 0);
    ConflictCountGrows(c, before + [Step(0, true)], [Step(2, true)], 0);
  }

  /** "The lock releases once" fails here: the canceller and the losing manual caller both
      release, so the second payout, untouched and still PENDING, loses its reservation. */
  lemma ConflictReleasesTwice(c: Config, amount: int)
    requires 0 < amount < DEFAULT_POLICY.threshold
    ensures var acts := DoubleRelease(c, amount); var s := Exec(c, acts);
      && ReleaseCount(c, acts, 0) == 2
      && |s.db.payouts| == 2 && s.db.payouts[0].status == Cancelled && s.db.payouts[1] == Manual(amount)
      && Cells(s.db, 0, 0).softLock == 0
  {
    hide Exec, DoubleRelease, ReleaseCount, ConflictCount, CancelledFirst;
    DoubleReleaseState(c, amount);
    DoubleReleaseBooks(c, amount);
    ConflictsHold(c, DoubleRelease(c, amount), 0);
    ReleasedTwiceIffConflict(c, DoubleRelease(c, amount), 0);
  }

  /** A manual payout its initiator cancelled. */
  function Withdrawn(amount: int): Payout {
    Manual(amount).(status := Cancelled, held := false)
  }

  lemma DoubleReleaseBooks(c: Config, amount: int)
    requires 0 < amount
    ensures var db := CancelledFirst(c, amount);
      var end := ReleaseLock(db.(books := ReleaseRows(db, 0)), 0);
      end == Db(Shared(Row(2 * amount + c.feeBuffer, 0, 0, 0, 0, 1)),
                [Tx(SharedVa(0), 0, 2 * amount + c.feeBuffer, 0, "ref")], [Withdrawn(amount), Manual(amount)])
  {
    var r := Opened(c, amount, 2, 2).db.books[0][0];
    ReleaseShared(r, amount);
    ReleaseShared(r.(softLock := amount), amount);
    hide Ledgers.Release;
  }

  lemma PromisedAgain(c: Config, s: State, amount: int)
    requires 0 < amount && 2 * amount < DEFAULT_POLICY.threshold && s.policy == DEFAULT_POLICY
    requires s.db.books == Shared(Row(2 * amount + c.feeBuffer, 0, 0, 0, 0, 1))
    ensures var s' := Apply(c, s, Initiate(0, 0, 2 * amount, [], 0, true));
      s'.db.txs == s.db.txs && s'.db.payouts == s.db.payouts + [Manual(2 * amount)]
  {
    LockOneRow(2 * amount + c.feeBuffer, 0, 2 * amount, c.feeBuffer);
    hide TryLock;
  }

  lemma ThreePayouts(x: Payout, y: Payout, z: Payout, c: Column, f: Fund)
    ensures SumFund(PayoutPostings([x, y, z], c), f)
      == FundShare(PayoutPosting(x, c), f) + FundShare(PayoutPosting(y, c), f) + FundShare(PayoutPosting(z, c), f)
  {
    AppendSums([], x, c, f, 0);
    AppendSums([x], y, c, f, 0);
    AppendSums([x, y], z, c, f, 0);
    assert [] + [x] == [x] && [x] + [y] == [x, y] && [x, y] + [z] == [x, y, z];
  }

  lemma OverdrawnSums(db: Db, total: int, amount: int)
    requires db.txs == [Tx(SharedVa(0), 0, total, 0, "ref")]
    requires db.payouts == [Withdrawn(amount), Manual(amount), Manual(2 * amount)]
    ensures Inflows(db.txs, 0) == total && InboundFees(db.txs, 0) == 0
    ensures PaidOutOf(db.payouts, 0) == 0 && Reserved(db.payouts, 0) == 3 * amount
  {
    assert db.txs == [] + [db.txs[0]];
    AppendTxSums([], db.txs[0], Collected, 0, 0);
    AppendTxSums([], db.txs[0], Fees, 0, 0);
    ThreePayouts(Withdrawn(amount), Manual(amount), Manual(2 * amount), PaidOut, 0);
    ThreePayouts(Withdrawn(amount), Manual(amount), Manual(2 * amount), SoftLock, 0);
  }

  /** And the balance check, blind to that reservation, promises the money again: the fund
      owes three amounts out of two. */
  lemma StolenLockOverdraws(c: Config, amount: int)
    requires c.feeBuffer < amount && 2 * amount < DEFAULT_POLICY.threshold
    ensures var s := Exec(c, DoubleRelease(c, amount) + [Initiate(0, 0, 2 * amount, [], 0, true)]);
      && Inflows(s.db.txs, 0) - InboundFees(s.db.txs, 0) == 2 * amount + c.feeBuffer
      && PaidOutOf(s.db.payouts, 0) == 0 && Promised(s, 0) == 3 * amount
      && !Covered(s, 0)
  {
    hide Apply, Exec, DoubleRelease, CancelledFirst, Promised;
    var acts, a := DoubleRelease(c, amount), Initiate(0, 0, 2 * amount, [], 0, true);
    DoubleReleaseState(c, amount);
    DoubleReleaseBooks(c, amount);
    ExecSnoc(c, acts, a);
    PromisedAgain(c, Exec(c, acts), amount);
    ControlHolds(c, acts + [a]);
    PromisedIsReserved(c, Exec(c, acts + [a]), 0);
    OverdrawnSums(Exec(c, acts + [a]).db, 2 * amount + c.feeBuffer, amount);
  }
}
