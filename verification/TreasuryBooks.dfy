/** The running ledger against its definition: what each statement does to the sums of the
    raw transactions and payouts that a row is meant to hold. */
module TreasuryBooks {
  import opened Wrappers
  import opened PayoutStateMachine
  import opened Ledgers
  import opened Journal
  import opened Tables

  /** SUM over transactions, anonymous_transactions and payout_requests for one cell. */
  function CellSum(db: Db, c: Column, f: Fund, p: Period): int {
    SumAt(TxPostings(db.txs, c), f, p) + SumAt(PayoutPostings(db.payouts, c), f, p)
  }

  function Cells(db: Db, f: Fund, p: Period): Row {
    RowAt(BookOf(db.books, f), p)
  }

  /** Every row's money columns equal the recomputation from raw rows, its giver count the
      number of distinct members, and no lock is negative. */
  ghost predicate MoneyBooks(db: Db) {
    forall f, p :: MoneyCell(db, f, p)
  }

  ghost predicate MoneyCell(db: Db, f: Fund, p: Period) {
    var r := Cells(db, f, p);
    && r.collected == CellSum(db, Collected, f, p)
    && r.paidOut == CellSum(db, PaidOut, f, p)
    && r.fees == CellSum(db, Fees, f, p)
    && r.count == CellSum(db, Transactions, f, p)
    && r.givers == |GiversOf(db.txs, f, p)|
    && r.softLock >= 0
  }

  /** Every row's lock is the sum of the reservations taken on it and not yet given back. */
  ghost predicate LockBooks(db: Db) {
    forall f, p :: LockCell(db, f, p)
  }

  ghost predicate LockCell(db: Db, f: Fund, p: Period) {
    Cells(db, f, p).softLock == SumAt(PayoutPostings(db.payouts, SoftLock), f, p)
  }

  /** A fund's locks cover its reservations, whatever rows they sit on. */
  ghost predicate LocksCover(db: Db) {
    forall f :: Total(BookOf(db.books, f), SoftLock) >= Reserved(db.payouts, f)
  }

  predicate SameMoney(r: Row, r': Row) {
    r' == r.(softLock := r'.softLock)
  }

  predicate PositiveAmounts(payouts: seq<Payout>) {
    forall i :: 0 <= i < |payouts| ==> payouts[i].amount > 0
  }

  // ----- Statements that post nothing -----

  predicate SamePostings(po: Payout, po': Payout) {
    && po'.held == po.held && po'.lockedPeriod == po.lockedPeriod
    && po'.executedIn == po.executedIn && po'.debitedIn == po.debitedIn
    && forall c :: PayoutPosting(po', c) == PayoutPosting(po, c)
  }

  lemma QuietPut(db: Db, i: nat, po: Payout, c: Column)
    requires i < |db.payouts| && SamePostings(db.payouts[i], po)
    ensures PayoutPostings(db.payouts[i := po], c) == PayoutPostings(db.payouts, c)
  {
  }

  lemma QuietKeepsBooks(db: Db, i: nat, po: Payout)
    requires i < |db.payouts| && SamePostings(db.payouts[i], po)
    ensures var db' := PutPayout(db, i, po);
      && (MoneyBooks(db) ==> MoneyBooks(db'))
      && (LockBooks(db) ==> LockBooks(db'))
      && (LocksCover(db) ==> LocksCover(db'))
  {
    var db' := PutPayout(db, i, po);
    forall c { QuietPut(db, i, po, c); }
    if MoneyBooks(db) {
      forall f, p ensures MoneyCell(db', f, p) {
        assert MoneyCell(db, f, p);
      }
    }
    if LockBooks(db) {
      forall f, p ensures LockCell(db', f, p) {
        assert LockCell(db, f, p);
      }
    }
  }

  // ----- Ledger writes row by row -----

  lemma ReleaseCells(l: Ledger, amount: int, recorded: Option<Period>, p: Period)
    requires amount >= 0
    ensures SameMoney(RowAt(l, p), RowAt(Release(l, amount, recorded), p))
    ensures RowAt(l, p).softLock >= 0 ==> RowAt(Release(l, amount, recorded), p).softLock >= 0
    ensures recorded.Some? && RowAt(l, recorded.value).softLock >= amount > 0 ==>
      RowAt(Release(l, amount, recorded), p).softLock
        == RowAt(l, p).softLock - if p == recorded.value then amount else 0
  {
  }

  /** A change of books that leaves every money column alone. */
  lemma LockWriteKeepsMoney(db: Db, db': Db)
    requires MoneyBooks(db) && db'.txs == db.txs
    requires forall c :: c != SoftLock ==> PayoutPostings(db'.payouts, c) == PayoutPostings(db.payouts, c)
    requires forall f, p :: SameMoney(Cells(db, f, p), Cells(db', f, p)) && Cells(db', f, p).softLock >= 0
    ensures MoneyBooks(db')
  {
    forall f, p ensures MoneyCell(db', f, p) {
      assert MoneyCell(db, f, p) && SameMoney(Cells(db, f, p), Cells(db', f, p));
    }
  }

  lemma ReleaseRowsCells(db: Db, i: nat, f: Fund, p: Period)
    requires MoneyBooks(db) && i < |db.payouts| && db.payouts[i].amount > 0
    ensures var db' := db.(books := ReleaseRows(db, i));
      SameMoney(Cells(db, f, p), Cells(db', f, p)) && Cells(db', f, p).softLock >= 0
  {
    var po := db.payouts[i];
    assert MoneyCell(db, f, p);
    ReleaseCells(BookOf(db.books, po.fund), po.amount, po.lockedPeriod, p);
  }

  lemma ReleaseRowsKeepsMoney(db: Db, i: nat)
    requires MoneyBooks(db) && i < |db.payouts| && db.payouts[i].amount > 0
    ensures MoneyBooks(db.(books := ReleaseRows(db, i)))
    ensures MoneyBooks(ReleaseLock(db, i))
  {
    forall f, p { ReleaseRowsCells(db, i, f, p); }
    LockWriteKeepsMoney(db, db.(books := ReleaseRows(db, i)));
    LockWriteKeepsMoney(db, ReleaseLock(db, i));
  }

  lemma LocksNonNegative(db: Db, f: Fund)
    requires MoneyBooks(db)
    ensures forall p :: p in BookOf(db.books, f) ==> BookOf(db.books, f)[p].softLock >= 0
  {
    forall p | p in BookOf(db.books, f) ensures BookOf(db.books, f)[p].softLock >= 0 {
      assert MoneyCell(db, f, p);
    }
  }

  // ----- Reservations -----

  /** A held payout's amount is inside the sum its row is meant to hold. */
  lemma HeldIsCovered(payouts: seq<Payout>, i: nat)
    requires PositiveAmounts(payouts) && i < |payouts| && payouts[i].held && payouts[i].lockedPeriod.Some?
    ensures var po := payouts[i];
      SumAt(PayoutPostings(payouts, SoftLock), po.fund, po.lockedPeriod.value) >= po.amount
  {
    SumCovers(PayoutPostings(payouts, SoftLock), payouts[i].fund, payouts[i].lockedPeriod.value);
    assert PayoutPostings(payouts, SoftLock)[i] == PayoutPosting(payouts[i], SoftLock);
  }

  lemma PutPostings(payouts: seq<Payout>, i: nat, po: Payout, c: Column)
    requires i < |payouts|
    ensures PayoutPostings(payouts[i := po], c) == PayoutPostings(payouts, c)[i := PayoutPosting(po, c)]
  {
  }

  /** Dropping a reservation lowers exactly its own cell and its fund. */
  lemma UnholdSums(payouts: seq<Payout>, i: nat, po: Payout, f: Fund, p: Period)
    requires i < |payouts| && payouts[i].held && !po.held
    requires po.fund == payouts[i].fund && po.lockedPeriod == payouts[i].lockedPeriod
    ensures SumAt(PayoutPostings(payouts[i := po], SoftLock), f, p)
      == SumAt(PayoutPostings(payouts, SoftLock), f, p)
         - Share(PayoutPosting(payouts[i], SoftLock), f, p)
    ensures Reserved(payouts[i := po], f)
      == Reserved(payouts, f) - if payouts[i].fund == f then payouts[i].amount else 0
  {
    PutPostings(payouts, i, po, SoftLock);
    SumUpdate(PayoutPostings(payouts, SoftLock), i, PayoutPosting(po, SoftLock), f, p);
  }

  lemma ReleaseKeepsLocks(db: Db, i: nat)
    requires LockBooks(db) && PositiveAmounts(db.payouts) && i < |db.payouts|
    requires db.payouts[i].held && db.payouts[i].lockedPeriod.Some?
    ensures LockBooks(ReleaseLock(db, i))
    ensures var po := db.payouts[i]; Cells(db, po.fund, po.lockedPeriod.value).softLock >= po.amount
  {
    var po := db.payouts[i];
    HeldIsCovered(db.payouts, i);
    assert LockCell(db, po.fund, po.lockedPeriod.value);
    forall f, p ensures LockCell(ReleaseLock(db, i), f, p) {
      assert LockCell(db, f, p);
      UnholdSums(db.payouts, i, po.(held := false), f, p);
      ReleaseCells(BookOf(db.books, po.fund), po.amount, po.lockedPeriod, p);
    }
  }

  lemma ReleaseKeepsCover(db: Db, i: nat)
    requires MoneyBooks(db) && LocksCover(db) && i < |db.payouts|
    requires db.payouts[i].held && db.payouts[i].amount > 0
    ensures LocksCover(ReleaseLock(db, i))
  {
    var po := db.payouts[i];
    LocksNonNegative(db, po.fund);
    ReleaseTotals(BookOf(db.books, po.fund), po.amount, po.lockedPeriod);
    forall f ensures Total(BookOf(ReleaseLock(db, i).books, f), SoftLock) >= Reserved(ReleaseLock(db, i).payouts, f) {
      UnholdSums(db.payouts, i, po.(held := false), f, 0);
    }
  }

  // ----- Settlement -----

  lemma DebitCells(l: Ledger, p: Period, amount: int, fee: int, recorded: Option<Period>, q: Period)
    requires amount >= 0
    ensures var r, r' := RowAt(l, q), RowAt(Debit(l, p, amount, fee, recorded), q);
      && r' == r.(paidOut := r.paidOut + (if q == p then amount else 0),
                  fees := r.fees + (if q == p then fee else 0), softLock := r'.softLock)
      && (r.softLock >= 0 ==> r'.softLock >= 0)
      && (recorded.Some? && RowAt(l, recorded.value).softLock >= amount > 0 ==>
            r'.softLock == r.softLock - if q == recorded.value then amount else 0)
  {
    ReleaseCells(DebitRow(l, p, amount, fee), amount, recorded, q);
  }

  lemma SettledSums(payouts: seq<Payout>, i: nat, po: Payout, f: Fund, p: Period)
    requires i < |payouts| && payouts[i].status != Transferred && po.status == Transferred
    requires po.fund == payouts[i].fund && po.amount == payouts[i].amount && po.debitedIn.Some?
    ensures forall c :: (
      SumAt(PayoutPostings(payouts[i := po], c), f, p)
      == SumAt(PayoutPostings(payouts, c), f, p)
         - Share(PayoutPosting(payouts[i], c), f, p) + Share(PayoutPosting(po, c), f, p))
  {
    forall c { PutSums(payouts, i, po, c, f, p); }
  }

  lemma PutSums(payouts: seq<Payout>, i: nat, po: Payout, c: Column, f: Fund, p: Period)
    requires i < |payouts|
    ensures SumAt(PayoutPostings(payouts[i := po], c), f, p)
      == SumAt(PayoutPostings(payouts, c), f, p)
         - Share(PayoutPosting(payouts[i], c), f, p) + Share(PayoutPosting(po, c), f, p)
    ensures SumFund(PayoutPostings(payouts[i := po], c), f)
      == SumFund(PayoutPostings(payouts, c), f)
         - FundShare(PayoutPosting(payouts[i], c), f) + FundShare(PayoutPosting(po, c), f)
  {
    PutPostings(payouts, i, po, c);
    SumUpdate(PayoutPostings(payouts, c), i, PayoutPosting(po, c), f, p);
  }

  lemma MoneyBooksAt(db: Db, f: Fund, p: Period)
    requires MoneyBooks(db)
    ensures MoneyCell(db, f, p)
  {
  }

  lemma SettleKeepsMoney(db: Db, i: nat, at: Clocks, fee: int)
    requires MoneyBooks(db) && i < |db.payouts|
    requires db.payouts[i].amount > 0 && db.payouts[i].status != Transferred
    ensures MoneyBooks(SettleSuccess(db, i, at, fee))
  {
    var po := db.payouts[i];
    var db' := SettleSuccess(db, i, at, fee);
    hide SumAt, TxPosting, GiversOf, MoneyBooks;
    forall f, q ensures MoneyCell(db', f, q) {
      assert MoneyCell(db, f, q) by {
        MoneyBooksAt(db, f, q);
      }
      DebitCells(BookOf(db.books, po.fund), at.node, po.amount, fee, po.lockedPeriod, q);
      SettledSums(db.payouts, i, db'.payouts[i], f, q);
    }
  }

  lemma SettleKeepsLocks(db: Db, i: nat, at: Clocks, fee: int)
    requires LockBooks(db) && PositiveAmounts(db.payouts) && i < |db.payouts|
    requires db.payouts[i].held && db.payouts[i].lockedPeriod.Some?
    ensures LockBooks(SettleSuccess(db, i, at, fee))
    ensures var po := db.payouts[i]; Cells(db, po.fund, po.lockedPeriod.value).softLock >= po.amount
  {
    var po := db.payouts[i];
    var db' := SettleSuccess(db, i, at, fee);
    HeldIsCovered(db.payouts, i);
    assert LockCell(db, po.fund, po.lockedPeriod.value);
    forall f, q ensures LockCell(db', f, q) {
      assert LockCell(db, f, q);
      UnholdSums(db.payouts, i, db'.payouts[i], f, q);
      DebitCells(BookOf(db.books, po.fund), at.node, po.amount, fee, po.lockedPeriod, q);
    }
  }

  lemma SettleKeepsCover(db: Db, i: nat, at: Clocks, fee: int)
    requires MoneyBooks(db) && LocksCover(db) && i < |db.payouts|
    requires db.payouts[i].held && db.payouts[i].amount > 0
    ensures LocksCover(SettleSuccess(db, i, at, fee))
  {
    var po := db.payouts[i];
    var db' := SettleSuccess(db, i, at, fee);
    LocksNonNegative(db, po.fund);
    DebitTotals(BookOf(db.books, po.fund), at.node, po.amount, fee, po.lockedPeriod);
    forall f ensures Total(BookOf(db'.books, f), SoftLock) >= Reserved(db'.payouts, f) {
      UnholdSums(db.payouts, i, db'.payouts[i], f, 0);
    }
  }

  // ----- Creation -----

  lemma AppendSums(payouts: seq<Payout>, po: Payout, c: Column, f: Fund, p: Period)
    ensures SumAt(PayoutPostings(payouts + [po], c), f, p)
      == SumAt(PayoutPostings(payouts, c), f, p) + Share(PayoutPosting(po, c), f, p)
    ensures SumFund(PayoutPostings(payouts + [po], c), f)
      == SumFund(PayoutPostings(payouts, c), f) + FundShare(PayoutPosting(po, c), f)
  {
    assert PayoutPostings(payouts + [po], c) == PayoutPostings(payouts, c) + [PayoutPosting(po, c)];
    SumAppend(PayoutPostings(payouts, c), PayoutPosting(po, c), f, p);
  }

  /** A new row that has not been paid posts nothing but its reservation. */
  lemma NewPayoutKeepsMoney(db: Db, db': Db, po: Payout)
    requires MoneyBooks(db) && db'.txs == db.txs && db'.payouts == db.payouts + [po] && po.status != Transferred
    requires forall f, p :: SameMoney(Cells(db, f, p), Cells(db', f, p)) && Cells(db', f, p).softLock >= 0
    ensures MoneyBooks(db')
  {
    forall f, p ensures MoneyCell(db', f, p) {
      assert MoneyCell(db, f, p) && SameMoney(Cells(db, f, p), Cells(db', f, p));
      forall c { AppendSums(db.payouts, po, c, f, p); }
    }
  }

  lemma CreateKeepsBooks(db: Db, f: Fund, initiator: nat, amount: int, feeBuffer: nat, expiresAt: int, route: Route,
                         recorded: bool)
    requires MoneyBooks(db)
    requires LockAndCreate(db, f, initiator, amount, feeBuffer, expiresAt, route, recorded).Some?
    ensures var db' := LockAndCreate(db, f, initiator, amount, feeBuffer, expiresAt, route, recorded).value;
      && MoneyBooks(db')
      && (recorded && LockBooks(db) ==> LockBooks(db'))
      && (LocksCover(db) ==> LocksCover(db'))
  {
    var db' := LockAndCreate(db, f, initiator, amount, feeBuffer, expiresAt, route, recorded).value;
    var l := BookOf(db.books, f);
    var po := db'.payouts[|db.payouts|];
    forall g, p ensures SameMoney(Cells(db, g, p), Cells(db', g, p)) && Cells(db', g, p).softLock >= 0
        && (recorded ==>
              Cells(db', g, p).softLock == Cells(db, g, p).softLock + Share(PayoutPosting(po, SoftLock), g, p)) {
      assert MoneyCell(db, g, p);
    }
    NewPayoutKeepsMoney(db, db', po);
    if recorded && LockBooks(db) {
      forall g, p ensures LockCell(db', g, p) {
        assert LockCell(db, g, p);
        AppendSums(db.payouts, po, SoftLock, g, p);
      }
    }
    if LocksCover(db) {
      AddLockTotals(l, Latest(l.Keys), amount);
      forall g ensures Total(BookOf(db'.books, g), SoftLock) >= Reserved(db'.payouts, g) {
        AppendSums(db.payouts, po, SoftLock, g, 0);
      }
    }
  }

  lemma SweepKeepsMoney(db: Db, f: Fund, actor: nat, minBalance: int, feeBuffer: nat, expiresAt: int, accepted: bool)
    requires MoneyBooks(db)
    ensures MoneyBooks(Sweep(db, f, actor, minBalance, feeBuffer, expiresAt, accepted))
  {
    var amount := SweepAmount(db, f, minBalance, feeBuffer);
    if amount != 0 {
      var db' := Sweep(db, f, actor, minBalance, feeBuffer, expiresAt, accepted);
      var locked := LockLatest(BookOf(db.books, f), amount);
      forall g, p ensures SameMoney(Cells(db, g, p), Cells(db', g, p)) && Cells(db', g, p).softLock >= 0 {
        assert MoneyCell(db, g, p);
        ReleaseCells(locked, amount, None, p);
      }
      NewPayoutKeepsMoney(db, db', db'.payouts[|db.payouts|]);
    }
  }

  /** A sweep locks the latest row without recording which. */
  lemma SweepKeepsCover(db: Db, f: Fund, actor: nat, minBalance: int, feeBuffer: nat, expiresAt: int, accepted: bool)
    requires MoneyBooks(db) && LocksCover(db)
    ensures LocksCover(Sweep(db, f, actor, minBalance, feeBuffer, expiresAt, accepted))
  {
    var amount := SweepAmount(db, f, minBalance, feeBuffer);
    if amount != 0 {
      var db' := Sweep(db, f, actor, minBalance, feeBuffer, expiresAt, accepted);
      var l := BookOf(db.books, f);
      assert l != map[] by {
        assert l == map[] ==> Total(l, Net) == 0;
      }
      var locked := AddLock(l, Latest(l.Keys), amount);
      AddLockTotals(l, Latest(l.Keys), amount);
      LocksNonNegative(db, f);
      ReleaseTotals(locked, amount, None);
      var po := db'.payouts[|db.payouts|];
      assert Total(BookOf(db'.books, f), SoftLock) >= Total(l, SoftLock) + if po.held then amount else 0;
      forall g ensures Total(BookOf(db'.books, g), SoftLock) >= Reserved(db'.payouts, g) {
        assert Total(BookOf(db.books, g), SoftLock) >= Reserved(db.payouts, g);
        AppendSums(db.payouts, po, SoftLock, g, 0);
      }
    }
  }

  // ----- Inflows -----

  lemma AppendTxSums(txs: seq<Tx>, t: Tx, c: Column, f: Fund, p: Period)
    ensures SumAt(TxPostings(txs + [t], c), f, p) == SumAt(TxPostings(txs, c), f, p) + Share(TxPosting(t, c), f, p)
    ensures SumFund(TxPostings(txs + [t], c), f) == SumFund(TxPostings(txs, c), f) + FundShare(TxPosting(t, c), f)
  {
    assert TxPostings(txs + [t], c) == TxPostings(txs, c) + [TxPosting(t, c)];
    SumAppend(TxPostings(txs, c), TxPosting(t, c), f, p);
  }

  lemma GiverIffGift(txs: seq<Tx>, f: Fund, p: Period, m: nat)
    ensures m in GiversOf(txs, f, p) <==> HasPriorGift(txs, MemberVa(m, f), p)
  {
    if m in GiversOf(txs, f, p) {
      var u :| u in txs && u.account.MemberVa? && u.account.fund == f && u.period == p && u.account.member == m;
      var k :| 0 <= k < |txs| && txs[k] == u;
      assert txs[k].account == MemberVa(m, f);
    }
    if HasPriorGift(txs, MemberVa(m, f), p) {
      var k :| 0 <= k < |txs| && txs[k].account == MemberVa(m, f) && txs[k].period == p;
      assert txs[k] in txs;
    }
  }

  lemma GiftAfter(txs: seq<Tx>, t: Tx, account: Account, p: Period)
    ensures HasPriorGift(txs + [t], account, p)
      <==> HasPriorGift(txs, account, p) || (t.account == account && t.period == p)
  {
    var after := txs + [t];
    assert after[|txs|] == t;
    if HasPriorGift(txs, account, p) {
      var k :| 0 <= k < |txs| && txs[k].account == account && txs[k].period == p;
      assert after[k] == txs[k];
    }
  }

  /** The unique-giver test counts each member once a month. */
  lemma GiversAfter(txs: seq<Tx>, t: Tx, f: Fund, p: Period)
    ensures var counts := t.account.MemberVa? && t.account.fund == f && t.period == p;
      |GiversOf(txs + [t], f, p)|
        == |GiversOf(txs, f, p)| + (if counts && !HasPriorGift(txs, t.account, p) then 1 else 0)
  {
    hide GiversOf, HasPriorGift;
    var before, after := GiversOf(txs, f, p), GiversOf(txs + [t], f, p);
    forall m ensures m in after <==> m in before || (t.account == MemberVa(m, f) && t.period == p) {
      GiverIffGift(txs, f, p, m);
      GiverIffGift(txs + [t], f, p, m);
      GiftAfter(txs, t, MemberVa(m, f), p);
    }
    if t.account.MemberVa? && t.account.fund == f && t.period == p {
      var m := t.account.member;
      assert t.account == MemberVa(m, f);
      GiverIffGift(txs, f, p, m);
      assert after == if m in before then before else before + {m};
    } else {
      assert after == before;
    }
  }

  lemma InflowCell(db: Db, db': Db, t: Tx, f: Fund, q: Period)
    requires MoneyCell(db, f, q)
    requires db'.txs == db.txs + [t] && db'.payouts == db.payouts
    requires Cells(db', f, q) == if f == t.account.fund && q == t.period
      then Credit(BookOf(db.books, f), q, t.amount, t.fee,
                  t.account.MemberVa? && !HasPriorGift(db.txs, t.account, q))[q]
      else Cells(db, f, q)
    ensures MoneyCell(db', f, q)
  {
    AppendTxSums(db.txs, t, Collected, f, q);
    AppendTxSums(db.txs, t, Fees, f, q);
    AppendTxSums(db.txs, t, PaidOut, f, q);
    AppendTxSums(db.txs, t, Transactions, f, q);
    GiversAfter(db.txs, t, f, q);
  }

  lemma InflowKeepsMoney(db: Db, account: Account, p: Period, amount: int, fee: int, ref: string)
    requires MoneyBooks(db) && CreditInflow(db, account, p, amount, fee, ref).Some?
    ensures MoneyBooks(CreditInflow(db, account, p, amount, fee, ref).value)
  {
    var db' := CreditInflow(db, account, p, amount, fee, ref).value;
    var t := db'.txs[|db.txs|];
    forall f, q ensures MoneyCell(db', f, q) {
      assert MoneyCell(db, f, q);
      InflowCell(db, db', t, f, q);
    }
  }

  lemma InflowKeepsLocks(db: Db, account: Account, p: Period, amount: int, fee: int, ref: string)
    requires CreditInflow(db, account, p, amount, fee, ref).Some?
    ensures var db' := CreditInflow(db, account, p, amount, fee, ref).value;
      (LockBooks(db) ==> LockBooks(db')) && (LocksCover(db) ==> LocksCover(db'))
  {
    var db' := CreditInflow(db, account, p, amount, fee, ref).value;
    if LockBooks(db) {
      forall f, q ensures LockCell(db', f, q) {
        assert LockCell(db, f, q) && Cells(db', f, q).softLock == Cells(db, f, q).softLock;
      }
    }
    CreditTotals(BookOf(db.books, account.fund), p, amount, fee,
                 account.MemberVa? && !HasPriorGift(db.txs, account, p));
  }
}
