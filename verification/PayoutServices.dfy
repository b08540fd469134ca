/** The sequential services over the mutable tables: payout creation, compare-and-set,
    cancellation, the manual call, the expiry job and the settlement handlers. */
module PayoutServices {
  import opened Wrappers
  import opened PayoutStateMachine
  import opened Ledgers
  import opened Tables
  import opened LedgerService

  // ----- What each service does to the tables -----

  /** handleTransferSuccess: no reference, no such row, or not TRANSFERRING: nothing. */
  function HandleSuccess(db: Db, ref: Option<nat>, at: Clocks, fee: int): Db {
    if ref.Some? && CanSettle(db, ref.value) then SettleSuccess(db, ref.value, at, fee) else db
  }

  /** withTransaction: what its body wrote if it returned, nothing if it threw. */
  function WithTransaction(before: Db, body: (Db, bool)): (Db, bool) {
    if body.1 then (before, true) else body
  }

  /** The inflow's statements one by one: insert, then credit; `fails` says the second throws. */
  function InflowBody(db: Db, account: Account, p: Period, amount: int, fee: int, ref: string, fails: bool)
    : (Db, bool)
  {
    if amount <= 0 || RefTaken(db.txs, account, ref) then (db, true)
    else
      var inserted := db.(txs := db.txs + [Tx(account, p, amount, fee, ref)]);
      if fails then (inserted, true)
      else
        var first, f := account.MemberVa? && !HasPriorGift(db.txs, account, p), account.fund;
        (inserted.(books := db.books[f := Credit(BookOf(db.books, f), p, amount, fee, first)]), false)
  }

  /** The success handler's statements: TRANSFERRED, then the debit. */
  function SuccessBody(db: Db, i: nat, at: Clocks, fee: int, fails: bool): (Db, bool)
    requires i < |db.payouts|
  {
    var marked := MarkTransferred(db, i, at, fee);
    if fails then (marked, true) else (marked.(books := DebitRows(marked, i, at.node, fee)), false)
  }

  function TrySuccess(db: Db, ref: Option<nat>, at: Clocks, fee: int, fails: bool): (Db, bool) {
    if ref.Some? && CanSettle(db, ref.value) then WithTransaction(db, SuccessBody(db, ref.value, at, fee, fails))
    else (db, false)
  }

  /** When nothing fails the transactions do in one go what their statements do in turn. */
  lemma BodiesCompose(db: Db, account: Account, p: Period, amount: int, fee: int, ref: string, i: nat, at: Clocks)
    ensures var credited := CreditInflow(db, account, p, amount, fee, ref);
      WithTransaction(db, InflowBody(db, account, p, amount, fee, ref, false)) == (credited.GetOr(db), credited.None?)
    ensures TrySuccess(db, Some(i), at, fee, false) == (HandleSuccess(db, Some(i), at, fee), false)
  {
  }

  /** A statement failing between the two leaves a half-done table, and the rollback undoes it. */
  lemma RollbackUndoesFirstWrite(db: Db, account: Account, p: Period, amount: int, fee: int, ref: string, i: nat,
                                 at: Clocks)
    requires CreditInflow(db, account, p, amount, fee, ref).Some? && CanSettle(db, i)
    ensures var body := InflowBody(db, account, p, amount, fee, ref, true);
      body.0 != db && WithTransaction(db, body) == (db, true)
    ensures var body := SuccessBody(db, i, at, fee, true);
      body.0 != db && WithTransaction(db, body) == (db, true)
  {
    assert |InflowBody(db, account, p, amount, fee, ref, true).0.txs| == |db.txs| + 1;
    assert SuccessBody(db, i, at, fee, true).0.payouts[i].status != db.payouts[i].status;
  }

  function HandleFailure(db: Db, ref: Option<nat>): Db {
    if ref.Some? && CanSettle(db, ref.value) then ReleaseLock(SettleFailure(db, ref.value), ref.value) else db
  }

  /** The expiry job's visit to each scanned row in turn. */
  function ExpireEach(db: Db, ids: seq<nat>): Db
    decreases |ids|
  {
    if ids == [] then db
    else
      match TransitionStatus(db, ids[0], AWAITING, Expired)
      case None => ExpireEach(db, ids[1..])
      case Some(expired) => ExpireEach(ReleaseLock(expired, ids[0]), ids[1..])
  }

  function CancelRow(db: Db, i: nat, requestedBy: Admin): Option<Db> {
    if i < |db.payouts| && db.payouts[i].initiator == requestedBy && CanCancel(db.payouts[i].status)
    then Some(ReleaseLock(UpdateStatus(db, i, Cancelled), i)) else None
  }

  datatype ManualOutcome = NotCreated | TransferFailed(id: nat) | TransferStarted(id: nat)

  /** The transfer call undisturbed: TRANSFERRING with its reference, or FAILED and unlocked. */
  function AfterTransfer(db: Db, i: nat, accepted: bool): Db
    requires i < |db.payouts|
  {
    var fired := PutPayout(db, i, db.payouts[i].(status := Transferring, fires := db.payouts[i].fires + 1));
    if accepted then PutPayout(fired, i, fired.payouts[i].(hasRef := true))
    else ReleaseLock(UpdateStatus(fired, i, Failed), i)
  }

  class PayoutStore {
    const ledger: FundLedgerTable
    var txs: seq<Tx>
    var payouts: seq<Payout>

    constructor ()
      ensures fresh(ledger) && View() == EMPTY_DB
    {
      ledger := new FundLedgerTable();
      txs, payouts := [], [];
    }

    ghost function View(): Db
      reads this, ledger
    {
      Db(ledger.books, txs, payouts)
    }

    /** withTransaction around checkAndLock and createTx: a refused insert rolls the lock back. */
    method LockAndCreatePayout(fund: Fund, initiator: Admin, amountKobo: int, feeBufferKobo: nat, expiresAt: int,
                               route: Route)
      returns (id: Option<nat>)
      modifies this`payouts, ledger
      ensures match LockAndCreate(old(View()), fund, initiator, amountKobo, feeBufferKobo, expiresAt, route, true)
        case None => id == None && View() == old(View())
        case Some(db) => id == Some(|old(payouts)|) && View() == db
    {
      var savepoint := ledger.books;
      var locked, _ := ledger.CheckAndLock(fund, amountKobo, feeBufferKobo);
      if locked.None? {
        return None;
      }
      if amountKobo <= 0 {
        ledger.books := savepoint;
        return None;
      }
      id := Some(|payouts|);
      payouts := payouts + [Payout(fund, initiator, amountKobo, Pending, false, locked, expiresAt, 0, None,
                                   route, true, 0, 0, None, None)];
    }

    /** transitionStatus */
    method Transition(i: nat, from: set<Status>, to: Status) returns (won: bool)
      modifies this`payouts
      ensures match TransitionStatus(old(View()), i, from, to)
        case None => !won && View() == old(View())
        case Some(db) => won && View() == db
    {
      won := i < |payouts| && payouts[i].status in from;
      if won {
        payouts := payouts[i := payouts[i].(status := to)];
      }
    }

    /** releaseLock for a payout, against the row recorded on it. */
    method Release(i: nat)
      requires i < |payouts|
      modifies this`payouts, ledger
      ensures View() == ReleaseLock(old(View()), i)
    {
      var po := payouts[i];
      ledger.ReleaseLock(po.fund, po.amount, po.lockedPeriod);
      payouts := payouts[i := po.(held := false)];
    }

    method Cancel(i: nat, requestedBy: Admin) returns (ok: bool)
      modifies this`payouts, ledger
      ensures match CancelRow(old(View()), i, requestedBy)
        case None => !ok && View() == old(View())
        case Some(db) => ok && View() == db
    {
      if i >= |payouts| || payouts[i].initiator != requestedBy || !CanCancel(payouts[i].status) {
        return false;
      }
      ok := Transition(i, {Pending}, Cancelled);
      Release(i);
    }

    /** The tail both callers share: step into TRANSFERRING, make the call, then store the
        reference or fail and release. */
    method FireTransfer(i: nat, from: Status, accepted: bool)
      requires i < |payouts| && payouts[i].status == from
      modifies this`payouts, ledger
      ensures View() == AfterTransfer(old(View()), i, accepted)
    {
      var won := Transition(i, {from}, Transferring);
      payouts := payouts[i := payouts[i].(fires := payouts[i].fires + 1)];
      if accepted {
        payouts := payouts[i := payouts[i].(status := Transferring, hasRef := true)];
      } else {
        var failed := Transition(i, {Transferring}, Failed);
        Release(i);
      }
    }

    /** execute: lock, jump to TRANSFERRING, call, then record the reference or release. */
    method ExecuteManual(fund: Fund, initiator: Admin, amountKobo: int, feeBufferKobo: nat, expiresAt: int,
                         accepted: bool)
      returns (outcome: ManualOutcome)
      modifies this`payouts, ledger
      ensures match LockAndCreate(old(View()), fund, initiator, amountKobo, feeBufferKobo, expiresAt, Direct, true)
        case None => outcome == NotCreated && View() == old(View())
        case Some(db) =>
          var id := |old(payouts)|;
          && outcome == (if accepted then TransferStarted(id) else TransferFailed(id))
          && View() == AfterTransfer(db, id, accepted)
    {
      var created := LockAndCreatePayout(fund, initiator, amountKobo, feeBufferKobo, expiresAt, Direct);
      if created.None? {
        return NotCreated;
      }
      var id := created.value;
      FireTransfer(id, Pending, accepted);
      outcome := if accepted then TransferStarted(id) else TransferFailed(id);
    }

    /** processSweep: lock all but the fee headroom on the latest row, fire, keep or release. */
    method ProcessSweep(fund: Fund, actor: Admin, minBalanceKobo: int, feeBufferKobo: nat, expiresAt: int,
                        accepted: bool)
      modifies this`payouts, ledger
      ensures View() == Sweep(old(View()), fund, actor, minBalanceKobo, feeBufferKobo, expiresAt, accepted)
    {
      var balance := ledger.GetBalance(fund);
      if balance.available <= 0 || balance.available < minBalanceKobo {
        return;
      }
      var amountKobo := balance.available - feeBufferKobo;
      if amountKobo <= 0 {
        return;
      }
      var i := |payouts|;
      ghost var before := payouts;
      payouts := payouts + [Payout(fund, actor, amountKobo, Pending, false, None, expiresAt, 0, None,
                                   Swept, false, 0, 0, None, None)];
      payouts := payouts[i := payouts[i].(status := Approved)];
      ledger.SoftLock(fund, amountKobo);
      payouts := payouts[i := payouts[i].(status := Transferring, held := true, fires := 1)];
      if accepted {
        payouts := payouts[i := payouts[i].(hasRef := true)];
      } else {
        payouts := payouts[i := payouts[i].(status := Failed)];
        Release(i);
      }
      assert payouts == before + [payouts[i]];
    }

    /** expirePayoutRequests: scan, then compare-and-set and release row by row. */
    method ExpirePayoutRequests(now: int) returns (expiredCount: nat)
      modifies this`payouts, ledger
      ensures View() == ExpireEach(old(View()), Overdue(old(payouts), now))
      ensures expiredCount == |Overdue(old(payouts), now)|
    {
      var expired := Overdue(payouts, now);
      ghost var start := View();
      expiredCount := 0;
      var k := 0;
      while k < |expired|
        invariant 0 <= k <= |expired| && expiredCount == k
        invariant |payouts| == |start.payouts| && txs == start.txs
        invariant ExpireEach(View(), expired[k..]) == ExpireEach(start, expired)
        invariant forall j :: k <= j < |expired| ==> payouts[expired[j]] == start.payouts[expired[j]]
      {
        var i := expired[k];
        assert expired[k..][0] == i && expired[k..][1..] == expired[k + 1..];
        var won := Transition(i, AWAITING, Expired);
        if won {
          Release(i);
          expiredCount := expiredCount + 1;
        }
        k := k + 1;
      }
      assert expired[k..] == [];
    }

    /** handleTransferSuccess: guard, then the transaction, rolled back if the debit throws. */
    method HandleTransferSuccess(ref: Option<nat>, feeKobo: int, at: Clocks, debitFails: bool) returns (threw: bool)
      modifies this`payouts, ledger
      ensures (View(), threw) == TrySuccess(old(View()), ref, at, feeKobo, debitFails)
    {
      if ref.None? || ref.value >= |payouts| || !payouts[ref.value].hasRef {
        return false;
      }
      if payouts[ref.value].status != Transferring {
        return false;
      }
      var savedPayouts, savedBooks := payouts, ledger.books;
      threw := MarkAndDebit(ref.value, feeKobo, at, debitFails);
      if threw {
        payouts, ledger.books := savedPayouts, savedBooks;
      }
    }

    method MarkAndDebit(i: nat, feeKobo: int, at: Clocks, debitFails: bool) returns (threw: bool)
      requires i < |payouts|
      modifies this`payouts, ledger
      ensures (View(), threw) == SuccessBody(old(View()), i, at, feeKobo, debitFails)
    {
      var po := payouts[i];
      payouts := payouts[i := po.(status := Transferred, fee := feeKobo, executedIn := Some(at.database),
                                  held := false, settled := po.settled + 1, debitedIn := Some(at.node))];
      if debitFails {
        return true;
      }
      ledger.DebitLedger(po.fund, po.amount, feeKobo, at.node, po.lockedPeriod);
      threw := false;
    }

    /** handleTransferFailed: guard, the unconditional FAILED write, then the release; a fault
        between the two leaves the lock behind. */
    method HandleTransferFailed(ref: Option<nat>, faultBeforeRelease: bool)
      modifies this`payouts, ledger
      ensures !faultBeforeRelease ==> View() == HandleFailure(old(View()), ref)
      ensures faultBeforeRelease ==>
        View() == if ref.Some? && CanSettle(old(View()), ref.value)
                  then SettleFailure(old(View()), ref.value) else old(View())
    {
      if ref.None? || ref.value >= |payouts| || !payouts[ref.value].hasRef {
        return;
      }
      var i := ref.value;
      var po := payouts[i];
      if po.status != Transferring {
        return;
      }
      payouts := payouts[i := po.(status := Failed, settled := po.settled + 1)];
      if !faultBeforeRelease {
        Release(i);
      }
    }

    /** The inflow transaction: a taken reference, a non-positive amount or a failing credit
        throws and rolls everything back. */
    method RecordInflow(account: Account, amountKobo: int, feeKobo: int, period: Period, ref: string, creditFails: bool)
      returns (threw: bool)
      modifies this`txs, ledger
      ensures (View(), threw)
        == WithTransaction(old(View()), InflowBody(old(View()), account, period, amountKobo, feeKobo, ref, creditFails))
    {
      var savedTxs, savedBooks := txs, ledger.books;
      threw := InsertAndCredit(account, amountKobo, feeKobo, period, ref, creditFails);
      if threw {
        txs, ledger.books := savedTxs, savedBooks;
      }
    }

    /** Insert, unique-giver test, credit. */
    method InsertAndCredit(account: Account, amountKobo: int, feeKobo: int, period: Period, ref: string,
                           creditFails: bool)
      returns (threw: bool)
      modifies this`txs, ledger
      ensures (View(), threw) == InflowBody(old(View()), account, period, amountKobo, feeKobo, ref, creditFails)
    {
      if amountKobo <= 0 || RefTaken(txs, account, ref) {
        return true;
      }
      var first := account.MemberVa? && !HasPriorGift(txs, account, period);
      txs := txs + [Tx(account, period, amountKobo, feeKobo, ref)];
      if creditFails {
        return true;
      }
      ledger.CreditLedger(account.fund, amountKobo, feeKobo, period, first);
      threw := false;
    }
  }
}
