/** Two clocks: a debit is filed under the server's month, the payout is stamped with the
    database's. The backfill queries go by the stamp. */
module TreasuryMonths {
  import opened Wrappers
  import opened PayoutStateMachine
  import opened Ledgers
  import opened Journal
  import opened Tables
  import opened Treasury
  import opened TreasuryControl
  import opened TreasuryBooks
  import opened TreasuryRuns
  import opened TreasuryMoney

  /** What a TRANSFERRED payout adds to the month of its executed_at. */
  function StampedPosting(po: Payout, c: Column): Posting {
    Posting(po.fund, po.executedIn.GetOr(0),
            if po.status != Transferred then 0 else match c case PaidOut => po.amount case Fees => po.fee case _ => 0)
  }

  function StampedPostings(payouts: seq<Payout>, c: Column): seq<Posting> {
    seq(|payouts|, k requires 0 <= k < |payouts| => StampedPosting(payouts[k], c))
  }

  /** One row's paid_out and fees against GROUP BY month of executed_at. */
  ghost predicate PaidCell(db: Db, f: Fund, p: Period) {
    var r := Cells(db, f, p);
    && r.paidOut == SumAt(StampedPostings(db.payouts, PaidOut), f, p)
    && r.fees == SumAt(TxPostings(db.txs, Fees), f, p) + SumAt(StampedPostings(db.payouts, Fees), f, p)
  }

  ghost predicate PaidMatches(db: Db) {
    forall f, p :: PaidCell(db, f, p)
  }

  predicate MonthsAgree(payouts: seq<Payout>) {
    forall i :: 0 <= i < |payouts| ==> payouts[i].executedIn == payouts[i].debitedIn
  }

  /** A settlement during which both clocks read the same month, or no settlement at all. */
  predicate ReadsOneMonth(s: State, a: Action) {
    a.WorkerStep? && s.worker.SuccessRead? ==> a.at.node == a.at.database
  }

  ghost predicate ClocksAgree(c: Config, acts: seq<Action>) {
    forall j :: 0 <= j < |acts| ==> ReadsOneMonth(Exec(c, acts[..j]), acts[j])
  }

  /** Rows stamped with the month they were debited in post the same either way. */
  lemma StampsArePostings(payouts: seq<Payout>)
    requires MonthsAgree(payouts)
    ensures StampedPostings(payouts, PaidOut) == PayoutPostings(payouts, PaidOut)
    ensures StampedPostings(payouts, Fees) == PayoutPostings(payouts, Fees)
  {
  }

  lemma AgreeingMonthsMatch(db: Db)
    requires MoneyBooks(db) && MonthsAgree(db.payouts)
    ensures PaidMatches(db)
  {
    StampsArePostings(db.payouts);
    forall f, p ensures PaidCell(db, f, p) {
      assert MoneyCell(db, f, p);
      ZeroPostings(TxPostings(db.txs, PaidOut), f, p);
    }
  }

  /** A settlement the clocks disagree on is missing from the month its stamp names. */
  lemma DisagreementShows(db: Db, i: nat, at: Clocks, fee: int)
    requires MoneyBooks(db) && MonthsAgree(db.payouts) && i < |db.payouts|
    requires db.payouts[i].amount > 0 && db.payouts[i].status != Transferred && at.node != at.database
    ensures !PaidMatches(SettleSuccess(db, i, at, fee))
  {
    var db' := SettleSuccess(db, i, at, fee);
    var f, po, po' := db.payouts[i].fund, db.payouts[i], db'.payouts[i];
    StampsArePostings(db.payouts);
    AgreeingMonthsMatch(db);
    SettleKeepsMoney(db, i, at, fee);
    assert PaidCell(db, f, at.node) && MoneyCell(db, f, at.node) && MoneyCell(db', f, at.node);
    PutSums(db.payouts, i, po', PaidOut, f, at.node);
    assert StampedPostings(db'.payouts, PaidOut)
      == StampedPostings(db.payouts, PaidOut)[i := StampedPosting(po', PaidOut)];
    SumUpdate(StampedPostings(db.payouts, PaidOut), i, StampedPosting(po', PaidOut), f, at.node);
    assert !PaidCell(db', f, at.node);
  }

  lemma ApplyKeepsMonths(c: Config, s: State, a: Action)
    requires Control(c, s) && MonthsAgree(s.db.payouts) && ReadsOneMonth(s, a)
    ensures MonthsAgree(Apply(c, s, a).db.payouts)
  {
    hide ApplyProc, SweepAmount, TryLock, ReleaseRows, DebitRows, Control;
    if a.Step? && a.proc < |s.procs| {
      StepWrites(c, s, a.proc, a.accepted);
    }
  }

  lemma {:induction false} MonthsHold(c: Config, acts: seq<Action>)
    requires ClocksAgree(c, acts)
    ensures MonthsAgree(Exec(c, acts).db.payouts)
    decreases |acts|
  {
    hide Apply;
    if acts != [] {
      var n := |acts| - 1;
      ClocksAgreeBefore(c, acts, n);
      MonthsHold(c, acts[..n]);
      ControlHolds(c, acts[..n]);
      ApplyKeepsMonths(c, Exec(c, acts[..n]), acts[n]);
    }
  }

  lemma ClocksAgreeBefore(c: Config, acts: seq<Action>, n: nat)
    requires n <= |acts| && forall j :: 0 <= j < n ==> ReadsOneMonth(Exec(c, acts[..j]), acts[j])
    ensures ClocksAgree(c, acts[..n])
  {
    hide Apply;
    assert forall j :: 0 <= j < n ==> acts[..n][..j] == acts[..j];
  }

  /** In every run each row's collected, fees of inflows, transaction count and givers are the
      backfill queries' sums; when the clocks agreed at each settlement so are paid_out and
      all fees. */
  lemma LedgerMatchesBackfill(c: Config, acts: seq<Action>, f: Fund, p: Period)
    ensures var db := Exec(c, acts).db; var r := Cells(db, f, p);
      && r.collected == SumAt(TxPostings(db.txs, Collected), f, p)
      && r.count == SumAt(TxPostings(db.txs, Transactions), f, p)
      && r.givers == |GiversOf(db.txs, f, p)|
    ensures ClocksAgree(c, acts) ==> PaidCell(Exec(c, acts).db, f, p)
  {
    hide Apply;
    LedgerRefinesRawRows(c, acts, f, p);
    if ClocksAgree(c, acts) {
      MonthsHold(c, acts);
      MoneyHolds(c, acts);
      AgreeingMonthsMatch(Exec(c, acts).db);
    }
  }

  lemma FirstDisagreement(c: Config, acts: seq<Action>) returns (j: nat)
    requires !ClocksAgree(c, acts)
    ensures j < |acts| && !ReadsOneMonth(Exec(c, acts[..j]), acts[j]) && ClocksAgree(c, acts[..j])
  {
    hide Apply;
    j := 0;
    while ReadsOneMonth(Exec(c, acts[..j]), acts[j])
      invariant j < |acts|
      invariant forall i :: 0 <= i < j ==> ReadsOneMonth(Exec(c, acts[..i]), acts[i])
      decreases |acts| - j
    {
      j := j + 1;
    }
    ClocksAgreeBefore(c, acts, j);
  }

  /** And only then: at every point of a run paid_out and fees match the queries by
      executed_at if and only if the clocks read one month at every settlement. Fund totals
      match regardless (MoneyTotals). */
  lemma PaidMatchesIffClocksAgree(c: Config, acts: seq<Action>)
    ensures ClocksAgree(c, acts) <==> forall j :: 0 <= j <= |acts| ==> PaidMatches(Exec(c, acts[..j]).db)
  {
    hide Apply, PaidMatches, ReadsOneMonth;
    if ClocksAgree(c, acts) {
      forall j | 0 <= j <= |acts| ensures PaidMatches(Exec(c, acts[..j]).db) {
        ClocksAgreeBefore(c, acts, j);
        MonthsHold(c, acts[..j]);
        MoneyHolds(c, acts[..j]);
        AgreeingMonthsMatch(Exec(c, acts[..j]).db);
      }
    } else {
      var j := FirstDisagreement(c, acts);
      MonthsHold(c, acts[..j]);
      MoneyHolds(c, acts[..j]);
      ControlHolds(c, acts[..j]);
      DisagreementAfter(c, Exec(c, acts[..j]), acts[j]);
      assert acts[..j + 1] == acts[..j] + [acts[j]];
      ExecSnoc(c, acts[..j], acts[j]);
    }
  }

  lemma DisagreementAfter(c: Config, s: State, a: Action)
    requires Control(c, s) && MoneyBooks(s.db) && MonthsAgree(s.db.payouts) && !ReadsOneMonth(s, a)
    ensures !PaidMatches(Apply(c, s, a).db)
  {
    hide PaidMatches;
    assert PayoutOk(c, s.db.payouts[s.worker.i]);
    DisagreementShows(s.db, s.worker.i, a.at, s.worker.fee);
  }
}
