/** Runs in which a release with no recorded month takes another payout's lock and strands its own. */
module TreasuryStranded {
  import opened Wrappers
  import opened PayoutStateMachine
  import opened Ledgers
  import opened Journal
  import opened Tables
  import opened Treasury
  import opened TreasuryControl
  import opened TreasuryBooks
  import opened TreasuryMoney
  import opened TreasuryRuns
  import opened TreasuryReleases
  import opened PayoutServices
  import opened ServiceRefinement
  import opened TreasuryScenarios

  const FEBRUARY := Clocks(2, 2)

  function Two(january: Row, february: Row): Ledger {
    map[1 := january, 2 := february]
  }

  lemma TwoRows(january: Row, february: Row)
    ensures Two(january, february).Keys == {1, 2} && Latest({1, 2}) == 2
    ensures forall c :: Total(Two(january, february), c) == Cell(january, c) + Cell(february, c)
  {
    var l := Two(january, february);
    assert l.Keys == {1, 2};
    forall c ensures Total(l, c) == Cell(january, c) + Cell(february, c) {
      OneRow(1, january);
      TotalPut(map[1 := january], 2, february, c);
      assert map[1 := january][2 := february] == l;
    }
  }

  function SweptPayout(amount: int): Payout {
    Payout(0, 0, amount, Transferring, true, None, 0, 0, None, Swept, true, 1, 0, None, None)
  }

  function LatePayout(amount: int): Payout {
    Manual(amount).(lockedPeriod := Some(2))
  }

  /** A payout takes all of January but the headroom without recording the month; in
      February a smaller one follows. */
  function Taking(c: Config, a: int, b: int, first: Action): seq<Action> {
    [Inflow(SharedVa(0), 1, a + c.feeBuffer, 0, "one"), first,
     Inflow(SharedVa(0), 2, b, 0, "two"), Initiate(0, 0, b, [], 0, true)]
  }

  function State1(c: Config, a: int): State {
    State(Db(map[0 := map[1 := Row(a + c.feeBuffer, 0, 0, 0, 0, 1)]], [Tx(SharedVa(0), 1, a + c.feeBuffer, 0, "one")],
             []),
          map[], DEFAULT_POLICY, [], Idle)
  }

  /** `po` is January's payout, `procs` the process it started. */
  function State2(c: Config, a: int, po: Payout, procs: seq<Proc>): State {
    var s := State1(c, a);
    s.(db := Db(map[0 := map[1 := Row(a + c.feeBuffer, 0, 0, a, 0, 1)]], s.db.txs, [po]), procs := procs)
  }

  function State3(c: Config, a: int, b: int, po: Payout, procs: seq<Proc>): State {
    var s := State2(c, a, po, procs);
    s.(db := Db(map[0 := Two(Row(a + c.feeBuffer, 0, 0, a, 0, 1), Row(b, 0, 0, 0, 0, 1))],
                s.db.txs + [Tx(SharedVa(0), 2, b, 0, "two")], s.db.payouts))
  }

  function State4(c: Config, a: int, b: int, po: Payout, procs: seq<Proc>): State {
    var s := State3(c, a, b, po, procs);
    s.(db := Db(map[0 := Two(Row(a + c.feeBuffer, 0, 0, a, 0, 1), Row(b, 0, 0, b, 0, 1))], s.db.txs,
                [po, LatePayout(b)]),
       procs := procs + [ManualCreated(1)])
  }

  lemma TakeOne(c: Config, a: int)
    requires 0 < a
    ensures Apply(c, Init(), Inflow(SharedVa(0), 1, a + c.feeBuffer, 0, "one")) == State1(c, a)
  {
    var s, s' := Apply(c, Init(), Inflow(SharedVa(0), 1, a + c.feeBuffer, 0, "one")), State1(c, a);
    assert s.db.books[0] == s'.db.books[0];
    assert s.db.books == s'.db.books;
  }

  lemma SweepTakes(c: Config, a: int)
    requires 0 < a
    ensures Apply(c, State1(c, a), Sweeping(0, 0, 0, 0, true)) == State2(c, a, SweptPayout(a), [])
  {
    var r := Row(a + c.feeBuffer, 0, 0, 0, 0, 1);
    OneRow(1, r);
    assert SweepAmount(State1(c, a).db, 0, 0, c.feeBuffer) == a;
    assert LockLatest(map[1 := r], a) == map[1 := r.(softLock := a)];
    assert State1(c, a).db.books[0 := map[1 := r.(softLock := a)]] == State2(c, a, SweptPayout(a), []).db.books;
  }

  lemma TakeThree(c: Config, a: int, b: int, po: Payout, procs: seq<Proc>)
    requires 0 < b
    ensures Apply(c, State2(c, a, po, procs), Inflow(SharedVa(0), 2, b, 0, "two")) == State3(c, a, b, po, procs)
  {
    var s, s' := Apply(c, State2(c, a, po, procs), Inflow(SharedVa(0), 2, b, 0, "two")), State3(c, a, b, po, procs);
    assert s.db.books[0] == s'.db.books[0];
    assert s.db.books == s'.db.books;
  }

  lemma TakeFour(c: Config, a: int, b: int, po: Payout, procs: seq<Proc>)
    requires 0 < b < DEFAULT_POLICY.threshold
    ensures Apply(c, State3(c, a, b, po, procs), Initiate(0, 0, b, [], 0, true)) == State4(c, a, b, po, procs)
  {
    var january, february := Row(a + c.feeBuffer, 0, 0, a, 0, 1), Row(b, 0, 0, 0, 0, 1);
    TwoRows(january, february);
    var l, more := Two(january, february), Two(january, february.(softLock := b));
    assert Available(l) == b + c.feeBuffer;
    assert AddLock(l, 2, b) == more;
    assert TryLock(l, b, c.feeBuffer) == Locked(more, 2);
    var s := State3(c, a, b, po, procs);
    assert BookOf(s.db.books, 0) == l;
    hide TryLock, Available;
    assert s.db.books[0 := more] == State4(c, a, b, po, procs).db.books;
  }

  lemma FourSteps(c: Config, a1: Action, a2: Action, a3: Action, a4: Action)
    ensures Exec(c, [a1, a2, a3, a4]) == Apply(c, Apply(c, Apply(c, Apply(c, Init(), a1), a2), a3), a4)
  {
    hide Apply;
    assert [] + [a1] == [a1] && [a1] + [a2] == [a1, a2] && [a1, a2] + [a3] == [a1, a2, a3];
    assert [a1, a2, a3] + [a4] == [a1, a2, a3, a4];
    ExecSnoc(c, [], a1);
    ExecSnoc(c, [a1], a2);
    ExecSnoc(c, [a1, a2], a3);
    ExecSnoc(c, [a1, a2, a3], a4);
  }

  lemma Taken(c: Config, a: int, b: int, first: Action, po: Payout, procs: seq<Proc>)
    requires 0 < a && 0 < b < DEFAULT_POLICY.threshold
    requires Apply(c, State1(c, a), first) == State2(c, a, po, procs)
    ensures Exec(c, Taking(c, a, b, first)) == State4(c, a, b, po, procs)
  {
    hide Apply, Exec, State1, State2, State3, State4;
    TakeOne(c, a);
    TakeThree(c, a, b, po, procs);
    TakeFour(c, a, b, po, procs);
    FourSteps(c, Inflow(SharedVa(0), 1, a + c.feeBuffer, 0, "one"), first,
              Inflow(SharedVa(0), 2, b, 0, "two"), Initiate(0, 0, b, [], 0, true));
  }

  // ----- A sweep -----

  function SweptState(c: Config, a: int, b: int): State {
    State4(c, a, b, SweptPayout(a), [])
  }

  /** Both transfers settle in February, the sweep's first. */
  function Stranding(c: Config, a: int, b: int): seq<Action> {
    Taking(c, a, b, Sweeping(0, 0, 0, 0, true)) + [DeliverSuccess(0, 0), WorkerStep(FEBRUARY)]
    + FireAndSettle(0, 1, 0, FEBRUARY)
  }

  /** The sweep's debit takes February's smaller lock for its own ... */
  function SweepPaid(c: Config, a: int, b: int): Db {
    var s := SweptState(c, a, b);
    Db(map[0 := Two(Row(a + c.feeBuffer, 0, 0, a, 0, 1), Row(b, a, 0, 0, 0, 1))], s.db.txs,
       [SweptPayout(a).(status := Transferred, executedIn := Some(2), held := false, settled := 1,
                        debitedIn := Some(2)),
        LatePayout(b)])
  }

  /** ... and the payout that owned it finds nothing to release. */
  function BothPaid(c: Config, a: int, b: int): Db {
    var db := SweepPaid(c, a, b);
    Db(map[0 := Two(Row(a + c.feeBuffer, 0, 0, a, 0, 1), Row(b, a + b, 0, 0, 0, 1))], db.txs,
       [db.payouts[0],
        LatePayout(b).(status := Transferred, hasRef := true, executedIn := Some(2), held := false, fires := 1,
                       settled := 1, debitedIn := Some(2))])
  }

  lemma SweepDebit(c: Config, a: int, b: int)
    requires 0 < b < a
    ensures SettleSuccess(SweptState(c, a, b).db, 0, FEBRUARY, 0) == SweepPaid(c, a, b)
  {
    var january, february := Row(a + c.feeBuffer, 0, 0, a, 0, 1), Row(b, 0, 0, b, 0, 1);
    var l := Two(january, february);
    var l1 := DebitRow(l, 2, a, 0);
    assert l1 == Two(january, february.(paidOut := a));
    assert 2 in LockedPeriods(l1) && forall p :: p in LockedPeriods(l1) ==> p <= 2;
    assert Latest(LockedPeriods(l1)) == 2;
    assert Release(l1, a, None) == Two(january, february.(paidOut := a, softLock := 0));
    var db, db' := SettleSuccess(SweptState(c, a, b).db, 0, FEBRUARY, 0), SweepPaid(c, a, b);
    assert db.books[0] == db'.books[0];
    assert db.books == db'.books;
    assert db.payouts == db'.payouts;
  }

  lemma LateDebit(c: Config, a: int, b: int)
    requires 0 < b
    ensures SettleSuccess(AfterTransfer(SweepPaid(c, a, b), 1, true), 1, FEBRUARY, 0) == BothPaid(c, a, b)
  {
    var january, february := Row(a + c.feeBuffer, 0, 0, a, 0, 1), Row(b, a, 0, 0, 0, 1);
    assert Debit(Two(january, february), 2, b, 0, Some(2)) == Two(january, february.(paidOut := a + b));
    var called := AfterTransfer(SweepPaid(c, a, b), 1, true);
    assert called.books == SweepPaid(c, a, b).books;
    assert called.payouts
      == [SweepPaid(c, a, b).payouts[0], LatePayout(b).(status := Transferring, hasRef := true, fires := 1)];
    hide Debit, AfterTransfer;
    var db, db' := SettleSuccess(called, 1, FEBRUARY, 0), BothPaid(c, a, b);
    assert db.books == db'.books;
    assert db.payouts == db'.payouts;
  }

  lemma Stranded(c: Config, a: int, b: int)
    requires 0 < b < a && b < DEFAULT_POLICY.threshold
    ensures Exec(c, Stranding(c, a, b)) == SweptState(c, a, b).(db := BothPaid(c, a, b), procs := [Done])
  {
    SweepTakes(c, a);
    Taken(c, a, b, Sweeping(0, 0, 0, 0, true), SweptPayout(a), []);
    var s, taking := SweptState(c, a, b), Taking(c, a, b, Sweeping(0, 0, 0, 0, true));
    ExecAppend(c, taking, [DeliverSuccess(0, 0), WorkerStep(FEBRUARY)]);
    ExecAppend(c, taking + [DeliverSuccess(0, 0), WorkerStep(FEBRUARY)], FireAndSettle(0, 1, 0, FEBRUARY));
    DeliveredSettles(c, s, 0, 0, FEBRUARY);
    SweepDebit(c, a, b);
    ManualSettles(c, s.(db := SweepPaid(c, a, b)), 0, 1, 0, FEBRUARY);
    LateDebit(c, a, b);
    hide Apply, Exec, ApplyAll, SettleSuccess, AfterTransfer, Taking, FireAndSettle;
    assert s.procs[0 := Done] == [Done];
  }

  /** Locks do not come back: both payouts are settled, nothing is promised, yet January still
      locks the swept amount and the code sees that much less than the tables leave. */
  lemma SweepStrandsLock(c: Config, a: int, b: int)
    requires 0 < b < a && b < DEFAULT_POLICY.threshold
    ensures var acts := Stranding(c, a, b); var s := Exec(c, acts); var l := BookOf(s.db.books, 0);
      && NoSteals(c, acts)
      && (forall i :: 0 <= i < |s.db.payouts| ==> s.db.payouts[i].status == Transferred)
      && Promised(s, 0) == 0 && Total(l, SoftLock) == a
      && TableBalance(s, 0) == c.feeBuffer && Total(l, Net) == c.feeBuffer - a
  {
    hide Apply, Exec;
    var acts := Stranding(c, a, b);
    Stranded(c, a, b);
    assert KillerFree(acts);
    KillerFreeNeverSteals(c, acts);
    MoneyHolds(c, acts);
    ControlHolds(c, acts);
    hide Stranding, Control, NoSteals;
    var s := Exec(c, acts);
    TwoRows(s.db.books[0][1], s.db.books[0][2]);
    MoneyTotals(s.db, 0);
    NothingPromised(s);
  }

  lemma NothingPromised(s: State)
    requires |s.db.payouts| == 2 && s.procs == [Done]
    requires s.db.payouts[0].status == Transferred && s.db.payouts[1].status == Transferred
    ensures Promised(s, 0) == 0
  {
    assert AmountDue(s, 0, 0) == AmountDue(s, 1, 0) == AmountDue(s, 2, 0) == 0;
  }

  // ----- A payout from before the month was recorded -----

  function OldPayout(amount: int): Payout {
    Payout(0, 0, amount, Pending, false, None, 0, 0, None, Governed, true, 0, 0, None, None)
  }

  /** Its initiator cancels the January payout. */
  function Cancelling(c: Config, a: int, b: int): seq<Action> {
    Taking(c, a, b, Initiate(0, 0, a, [0, 1], 0, false)) + [Cancel(0, 0)] + Alone(2, 2, true)
  }

  function OldState(c: Config, a: int, b: int): State {
    State4(c, a, b, OldPayout(a), [Issuing(0, [0, 1])])
  }

  lemma OldTakes(c: Config, a: int)
    requires a >= DEFAULT_POLICY.threshold && !SharesEmail(c, 0, 0) && !SharesEmail(c, 1, 0)
    ensures Apply(c, State1(c, a), Initiate(0, 0, a, [0, 1], 0, false))
      == State2(c, a, OldPayout(a), [Issuing(0, [0, 1])])
  {
    var r := Row(a + c.feeBuffer, 0, 0, 0, 0, 1);
    OneRow(1, r);
    assert AddLock(map[1 := r], 1, a) == map[1 := r.(softLock := a)];
    assert TryLock(map[1 := r], a, c.feeBuffer) == Locked(map[1 := r.(softLock := a)], 1);
    hide TryLock;
    var s, s' := State1(c, a), State2(c, a, OldPayout(a), [Issuing(0, [0, 1])]);
    assert s.db.books[0 := map[1 := r.(softLock := a)]] == s'.db.books;
    assert s.db.payouts + [OldPayout(a)] == s'.db.payouts;
  }

  lemma OldRelease(c: Config, a: int, b: int)
    requires 0 < b < a
    ensures CancelRow(OldState(c, a, b).db, 0, 0)
      == Some(Db(map[0 := Two(Row(a + c.feeBuffer, 0, 0, a, 0, 1), Row(b, 0, 0, 0, 0, 1))], OldState(c, a, b).db.txs,
                 [OldPayout(a).(status := Cancelled, held := false), LatePayout(b)]))
  {
    var db := OldState(c, a, b).db;
    var january, february := Row(a + c.feeBuffer, 0, 0, a, 0, 1), Row(b, 0, 0, b, 0, 1);
    var l := Two(january, february);
    assert 2 in LockedPeriods(l) && forall p :: p in LockedPeriods(l) ==> p <= 2;
    assert Release(l, a, None) == Two(january, february.(softLock := 0));
    hide Ledgers.Release;
    var cancelled := CancelRow(db, 0, 0).value;
    assert BookOf(db.books, 0) == l;
    hide Two;
    assert cancelled.books == map[0 := Two(january, february.(softLock := 0))];
    assert cancelled.payouts == [OldPayout(a).(status := Cancelled, held := false), LatePayout(b)];
  }

  lemma TwoPayouts(x: Payout, y: Payout, c: Column, f: Fund)
    ensures SumFund(PayoutPostings([x, y], c), f)
      == FundShare(PayoutPosting(x, c), f) + FundShare(PayoutPosting(y, c), f)
  {
    AppendSums([], x, c, f, 0);
    AppendSums([x], y, c, f, 0);
    assert [] + [x] == [x] && [x] + [y] == [x, y];
  }

  lemma OldTaken(c: Config, a: int, b: int)
    requires 0 < b < DEFAULT_POLICY.threshold <= a && !SharesEmail(c, 0, 0) && !SharesEmail(c, 1, 0)
    ensures Exec(c, Taking(c, a, b, Initiate(0, 0, a, [0, 1], 0, false))) == OldState(c, a, b)
  {
    hide Apply, Exec, Taking, State1, State2, State4;
    OldTakes(c, a);
    Taken(c, a, b, Initiate(0, 0, a, [0, 1], 0, false), OldPayout(a), [Issuing(0, [0, 1])]);
  }

  lemma OldCancelled(c: Config, a: int, b: int)
    requires 0 < b < DEFAULT_POLICY.threshold <= a && !SharesEmail(c, 0, 0) && !SharesEmail(c, 1, 0)
    ensures Some(Exec(c, Cancelling(c, a, b)).db) == CancelRow(OldState(c, a, b).db, 0, 0)
  {
    var first, s := Initiate(0, 0, a, [0, 1], 0, false), OldState(c, a, b);
    OldTaken(c, a, b);
    OldRelease(c, a, b);
    CancelIsService(c, s, 0, 0);
    hide Apply, Exec, ApplyAll, Taking, CancelRow, State3, SharesEmail;
    ExecAppend(c, Taking(c, a, b, first), [Cancel(0, 0)] + Alone(2, 2, true));
    assert Cancelling(c, a, b) == Taking(c, a, b, first) + ([Cancel(0, 0)] + Alone(2, 2, true));
  }

  /** The cancel frees February's lock, which a payout untouched and still PENDING needs, and
      leaves its own on January: the fund locks the cancelled amount, not the promised one. */
  lemma OldCancelTakesLaterLock(c: Config, a: int, b: int)
    requires 0 < b < DEFAULT_POLICY.threshold <= a && !SharesEmail(c, 0, 0) && !SharesEmail(c, 1, 0)
    ensures var s := Exec(c, Cancelling(c, a, b));
      && s.db.payouts == [OldPayout(a).(status := Cancelled, held := false), LatePayout(b)]
      && Cells(s.db, 0, 2).softLock == 0 && Cells(s.db, 0, 1).softLock == a
      && Promised(s, 0) == b && Total(BookOf(s.db.books, 0), SoftLock) == a
  {
    hide Apply, Exec, Cancelling, CancelRow, Promised;
    OldCancelled(c, a, b);
    OldRelease(c, a, b);
    var s := Exec(c, Cancelling(c, a, b));
    TwoRows(s.db.books[0][1], s.db.books[0][2]);
    ControlHolds(c, Cancelling(c, a, b));
    PromisedIsReserved(c, s, 0);
    TwoPayouts(s.db.payouts[0], s.db.payouts[1], SoftLock, 0);
  }
}
