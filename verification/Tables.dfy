/** The tables the treasury actors share, and the atomic statements they run on them. */
module Tables {
  import opened Wrappers
  import opened PayoutStateMachine
  import opened Ledgers
  import opened Journal

  type Signatory = nat
  type Admin = nat

  /** A virtual account: one per member and fund, or one shared per fund. */
  datatype Account = MemberVa(member: nat, fund: Fund) | SharedVa(fund: Fund)

  /** A row of transactions (member accounts) or anonymous_transactions (shared ones). */
  datatype Tx = Tx(account: Account, period: Period, amount: int, fee: int, ref: string)

  /** How a payout came to be: below the threshold, through approvals, or by the sweep job. */
  datatype Route = Direct | Governed | Swept

  /** What one quorum check read. */
  datatype Tally = Tally(need: nat, approvers: set<Signatory>, declined: bool) {
    predicate QuorumReached() {
      !declined && |approvers| >= need
    }
  }

  /** A payout_requests row; its index in the table is its id. The transfer reference is a
      function of the id, so only whether it is stored is kept; executedIn is the month of
      executed_at. The last five fields are history: whether the reservation is still owed
      to the fund, how often the transfer call was made, how often a webhook settled the
      row, the quorum read that won, and the month whose ledger row was debited. */
  datatype Payout = Payout(
    fund: Fund, initiator: Admin, amount: int, status: Status, hasRef: bool,
    lockedPeriod: Option<Period>, expiresAt: int, fee: int, executedIn: Option<Period>, route: Route,
    held: bool, fires: nat, settled: nat, tally: Option<Tally>, debitedIn: Option<Period>)

  /** The month it is by the server's clock, which names ledger rows, and by the database's
      NOW(), which stamps payouts. */
  datatype Clocks = Clocks(node: Period, database: Period)

  datatype Db = Db(books: Books, txs: seq<Tx>, payouts: seq<Payout>)

  const EMPTY_DB := Db(map[], [], [])

  // ----- Inflows -----

  /** nomba_tx_ref is unique in each of the two transaction tables. */
  predicate RefTaken(txs: seq<Tx>, account: Account, ref: string) {
    exists k :: 0 <= k < |txs| && SameTable(txs[k].account, account) && txs[k].ref == ref
  }

  predicate SameTable(a: Account, b: Account) {
    a.MemberVa? == b.MemberVa?
  }

  /** The members who gave to a fund in a month. */
  function GiversOf(txs: seq<Tx>, f: Fund, p: Period): set<nat> {
    set t | t in txs && t.account.MemberVa? && t.account.fund == f && t.period == p :: t.account.member
  }

  predicate HasPriorGift(txs: seq<Tx>, account: Account, p: Period) {
    exists k :: 0 <= k < |txs| && txs[k].account == account && txs[k].period == p
  }

  /** Insert the transaction and credit the ledger, or roll both back. */
  function CreditInflow(db: Db, account: Account, p: Period, amount: int, fee: int, ref: string): Option<Db> {
    if amount <= 0 || RefTaken(db.txs, account, ref) then None
    else
      var first := account.MemberVa? && !HasPriorGift(db.txs, account, p);
      var f := account.fund;
      Some(db.(txs := db.txs + [Tx(account, p, amount, fee, ref)],
               books := db.books[f := Credit(BookOf(db.books, f), p, amount, fee, first)]))
  }

  // ----- Payout statements -----

  /** The compare-and-set UPDATE ... WHERE status = ANY(from). */
  function TransitionStatus(db: Db, i: nat, from: set<Status>, to: Status): Option<Db> {
    if i < |db.payouts| && db.payouts[i].status in from then Some(UpdateStatus(db, i, to)) else None
  }

  /** The unconditional UPDATE. */
  function UpdateStatus(db: Db, i: nat, to: Status): Db
    requires i < |db.payouts|
  {
    PutPayout(db, i, db.payouts[i].(status := to))
  }

  function PutPayout(db: Db, i: nat, po: Payout): Db
    requires i < |db.payouts|
  {
    db.(payouts := db.payouts[i := po])
  }

  /** Balance check, lock and PENDING row in one transaction. Payouts created before the
      locked_period_month column existed did not record the month. */
  function LockAndCreate(db: Db, f: Fund, initiator: Admin, amount: int, feeBuffer: nat, expiresAt: int, route: Route,
                         recorded: bool): Option<Db>
  {
    match TryLock(BookOf(db.books, f), amount, feeBuffer)
    case Insufficient(_) => None
    case Locked(rows, period) =>
      if amount <= 0 then None
      else
        Some(db.(books := db.books[f := rows],
                 payouts := db.payouts + [Payout(f, initiator, amount, Pending, false,
                                                 if recorded then Some(period) else None, expiresAt, 0, None,
                                                 route, true, 0, 0, None, None)]))
  }

  function ReleaseRows(db: Db, i: nat): Books
    requires i < |db.payouts|
  {
    var po := db.payouts[i];
    db.books[po.fund := Release(BookOf(db.books, po.fund), po.amount, po.lockedPeriod)]
  }

  /** releaseLock by the actor that took the payout out of the live statuses. */
  function ReleaseLock(db: Db, i: nat): Db
    requires i < |db.payouts|
  {
    PutPayout(db, i, db.payouts[i].(held := false)).(books := ReleaseRows(db, i))
  }

  /** WHERE nomba_transfer_ref = ref, and the settlement handlers' status guard. */
  predicate CanSettle(db: Db, ref: nat) {
    ref < |db.payouts| && db.payouts[ref].hasRef && db.payouts[ref].status == Transferring
  }

  /** The success handler's transaction: TRANSFERRED, fee and debit together. */
  function SettleSuccess(db: Db, i: nat, at: Clocks, fee: int): Db
    requires i < |db.payouts|
  {
    MarkTransferred(db, i, at, fee).(books := DebitRows(db, i, at.node, fee))
  }

  /** Its first statement: TRANSFERRED, stamped by the database. */
  function MarkTransferred(db: Db, i: nat, at: Clocks, fee: int): Db
    requires i < |db.payouts|
  {
    var po := db.payouts[i];
    PutPayout(db, i, po.(status := Transferred, fee := fee, executedIn := Some(at.database), held := false,
                         settled := po.settled + 1, debitedIn := Some(at.node)))
  }

  function DebitRows(db: Db, i: nat, p: Period, fee: int): Books
    requires i < |db.payouts|
  {
    var po := db.payouts[i];
    db.books[po.fund := Debit(BookOf(db.books, po.fund), p, po.amount, fee, po.lockedPeriod)]
  }

  /** The failed handler's first statement. */
  function SettleFailure(db: Db, i: nat): Db
    requires i < |db.payouts|
  {
    var po := db.payouts[i];
    PutPayout(db, i, po.(status := Failed, settled := po.settled + 1))
  }

  function SweepAmount(db: Db, f: Fund, minBalance: int, feeBuffer: nat): int {
    var available := Available(BookOf(db.books, f));
    if available <= 0 || available < minBalance then 0 else Max(0, available - feeBuffer)
  }

  /** A whole sweep: lock on the latest row, fire, and keep the lock or give it back; no
      locked month is recorded. */
  function Sweep(db: Db, f: Fund, actor: Admin, minBalance: int, feeBuffer: nat, expiresAt: int, accepted: bool): Db {
    var amount := SweepAmount(db, f, minBalance, feeBuffer);
    if amount == 0 then db
    else
      var locked := LockLatest(BookOf(db.books, f), amount);
      var po := Payout(f, actor, amount, if accepted then Transferring else Failed, accepted, None, expiresAt, 0, None,
                       Swept, accepted, 1, 0, None, None);
      db.(books := db.books[f := if accepted then locked else Release(locked, amount, None)],
          payouts := db.payouts + [po])
  }

  /** The ids the expiry scan returns, in table order. */
  function Overdue(payouts: seq<Payout>, now: int): (ids: seq<nat>)
    ensures forall k :: 0 <= k < |ids| ==>
      ids[k] < |payouts| && payouts[ids[k]].status in {Pending, Partial} && payouts[ids[k]].expiresAt < now
    ensures forall i :: 0 <= i < |payouts| && payouts[i].status in {Pending, Partial} && payouts[i].expiresAt < now ==>
      i in ids
    ensures forall j, k :: 0 <= j < k < |ids| ==> ids[j] < ids[k]
  {
    if payouts == [] then []
    else
      var n := |payouts| - 1;
      var rest := Overdue(payouts[..n], now);
      assert forall i :: 0 <= i < n ==> payouts[..n][i] == payouts[i];
      if IsOverdue(payouts[n], now) then rest + [n] else rest
  }

  predicate IsOverdue(po: Payout, now: int) {
    IsAwaiting(po.status) && po.expiresAt < now
  }

  const AWAITING: set<Status> := {Pending, Partial}

  // ----- Postings: what the raw rows say each ledger cell should hold -----

  function TxPosting(t: Tx, c: Column): Posting {
    Posting(t.account.fund, t.period,
            match c case Collected => t.amount case Fees => t.fee case Transactions => 1 case _ => 0)
  }

  function PayoutPosting(po: Payout, c: Column): Posting {
    match c
    case SoftLock => Posting(po.fund, po.lockedPeriod.GetOr(0), if po.held then po.amount else 0)
    case PaidOut => Posting(po.fund, po.debitedIn.GetOr(0), if po.status == Transferred then po.amount else 0)
    case Fees => Posting(po.fund, po.debitedIn.GetOr(0), if po.status == Transferred then po.fee else 0)
    case _ => Posting(po.fund, 0, 0)
  }

  function TxPostings(txs: seq<Tx>, c: Column): seq<Posting> {
    seq(|txs|, k requires 0 <= k < |txs| => TxPosting(txs[k], c))
  }

  function PayoutPostings(payouts: seq<Payout>, c: Column): seq<Posting> {
    seq(|payouts|, k requires 0 <= k < |payouts| => PayoutPosting(payouts[k], c))
  }

  /** The amounts of a fund's payouts whose reservation is still owed to them. */
  function Reserved(payouts: seq<Payout>, f: Fund): int {
    SumFund(PayoutPostings(payouts, SoftLock), f)
  }
}
