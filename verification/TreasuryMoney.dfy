/** What the books mean along a run: lock conservation, the ledger as a recomputation, the
    over-commitment bound, and the one branch that breaks the locks. */
module TreasuryMoney {
  import opened Wrappers
  import opened PayoutStateMachine
  import opened Ledgers
  import opened Journal
  import opened Tables
  import opened Treasury
  import opened TreasuryControl
  import opened TreasuryBooks
  import opened TreasuryRuns

  // ----- Lock conservation -----

  /** An actor has taken the payout out of the live statuses and has its release to do. */
  predicate Owed(s: State, i: nat) {
    exists k :: 0 <= k < |s.procs| && IsRelease(s.procs[k]) && s.procs[k].i == i
  }

  /** What the first n payouts should have locked on one row: the amount of each that was
      locked there and is live, or whose release is still to come. */
  function LockDue(s: State, n: nat, f: Fund, p: Period): int
    requires n <= |s.db.payouts|
  {
    if n == 0 then 0
    else
      var po := s.db.payouts[n - 1];
      var due := po.fund == f && po.lockedPeriod == Some(p) && (IsLive(po.status) || Owed(s, n - 1));
      LockDue(s, n - 1, f, p) + if due then po.amount else 0
  }

  predicate Due(s: State, i: nat)
    requires i < |s.db.payouts|
  {
    IsLive(s.db.payouts[i].status) || Owed(s, i)
  }

  /** The amounts of a fund's first n payouts that are live or owed a release. */
  function AmountDue(s: State, n: nat, f: Fund): int
    requires n <= |s.db.payouts|
  {
    if n == 0 then 0
    else
      AmountDue(s, n - 1, f) + if s.db.payouts[n - 1].fund == f && Due(s, n - 1) then s.db.payouts[n - 1].amount else 0
  }

  /** What a fund has reserved, by the statuses in its payout table. */
  function Promised(s: State, f: Fund): int {
    AmountDue(s, |s.db.payouts|, f)
  }

  lemma HeldIffDue(c: Config, s: State, i: nat)
    requires Control(c, s) && i < |s.db.payouts|
    ensures s.db.payouts[i].held <==> IsLive(s.db.payouts[i].status) || Owed(s, i)
  {
    var po := s.db.payouts[i];
    assert PayoutOk(c, po);
    if po.held && !IsLive(po.status) {
      var k :| 0 <= k < |s.procs| && OwnerOf(s.procs[k]) == Some(i);
      assert ProcOk(c, s, s.procs[k]);
    }
    if Owed(s, i) {
      var k :| 0 <= k < |s.procs| && IsRelease(s.procs[k]) && s.procs[k].i == i;
      assert ProcOk(c, s, s.procs[k]);
    }
  }

  lemma {:induction false} LockDueIsPosted(c: Config, s: State, n: nat, f: Fund, p: Period)
    requires Control(c, s) && AllRecorded(s.db) && n <= |s.db.payouts|
    ensures LockDue(s, n, f, p) == SumAt(PayoutPostings(s.db.payouts[..n], SoftLock), f, p)
    decreases n
  {
    if n > 0 {
      LockDueIsPosted(c, s, n - 1, f, p);
      HeldIffDue(c, s, n - 1);
      assert s.db.payouts[..n] == s.db.payouts[..n - 1] + [s.db.payouts[n - 1]];
      AppendSums(s.db.payouts[..n - 1], s.db.payouts[n - 1], SoftLock, f, p);
    }
  }

  lemma {:induction false} AmountDueIsPosted(c: Config, s: State, n: nat, f: Fund)
    requires Control(c, s) && n <= |s.db.payouts|
    ensures AmountDue(s, n, f) == SumFund(PayoutPostings(s.db.payouts[..n], SoftLock), f)
    decreases n
  {
    if n > 0 {
      AmountDueIsPosted(c, s, n - 1, f);
      HeldIffDue(c, s, n - 1);
      assert s.db.payouts[..n] == s.db.payouts[..n - 1] + [s.db.payouts[n - 1]];
      AppendSums(s.db.payouts[..n - 1], s.db.payouts[n - 1], SoftLock, f, 0);
    }
  }

  lemma PromisedIsReserved(c: Config, s: State, f: Fund)
    requires Control(c, s)
    ensures Promised(s, f) == Reserved(s.db.payouts, f)
  {
    AmountDueIsPosted(c, s, |s.db.payouts|, f);
    assert s.db.payouts[..|s.db.payouts|] == s.db.payouts;
  }

  /** Soft-lock conservation over every interleaving: each row's lock is exactly what the
      payouts locked on it still need. */
  lemma LockConservation(c: Config, acts: seq<Action>, f: Fund, p: Period)
    requires NoSteals(c, acts) && MonthsRecorded(acts)
    ensures var s := Exec(c, acts);
      Cells(s.db, f, p).softLock == LockDue(s, |s.db.payouts|, f, p)
  {
    hide Apply;
    var s := Exec(c, acts);
    LocksHold(c, acts);
    ControlHolds(c, acts);
    LockDueIsPosted(c, s, |s.db.payouts|, f, p);
    assert s.db.payouts[..|s.db.payouts|] == s.db.payouts;
    assert LockCell(s.db, f, p);
  }

  /** Hence GREATEST(0, ...) never bites: a releasing process and a settling worker find at
      least their amount on the row they lower. */
  lemma ClampNeverBites(c: Config, acts: seq<Action>, i: nat)
    requires NoSteals(c, acts) && MonthsRecorded(acts)
    requires var s := Exec(c, acts);
      i < |s.db.payouts| && (Owed(s, i) || (s.worker.SuccessRead? && s.worker.i == i))
    ensures var s := Exec(c, acts); var po := s.db.payouts[i];
      po.lockedPeriod.Some? && Cells(s.db, po.fund, po.lockedPeriod.value).softLock >= po.amount > 0
  {
    hide Apply;
    var s := Exec(c, acts);
    LocksHold(c, acts);
    ControlHolds(c, acts);
    AllAmountsPositive(c, s);
    HeldIffDue(c, s, i);
    ReleaseKeepsLocks(s.db, i);
  }

  /** Where months are missing -- sweeps, and payouts created before they were kept, whether a
      decline, cancel, expiry, failed call or settlement then releases by guess -- a fund's
      locks may sit on other rows and outlast their payouts, but their total never falls below
      what the live payouts need: the error is on the safe side. */
  lemma UnknownPeriodLocksCover(c: Config, acts: seq<Action>, f: Fund)
    requires NoSteals(c, acts)
    ensures var s := Exec(c, acts);
      Total(BookOf(s.db.books, f), SoftLock) >= Promised(s, f)
  {
    hide Apply;
    CoverHolds(c, acts);
    ControlHolds(c, acts);
    PromisedIsReserved(c, Exec(c, acts), f);
  }

  // ----- The manual caller's conflict branch -----

  /** At any point of a run where locks are conserved, the conflict branch's release keeps
      them conserved if and only if the row holds no lock for it to take. */
  lemma ConflictBreaksLocksIffSteals(c: Config, acts: seq<Action>, a: Action)
    requires LockBooks(Exec(c, acts).db) && AllRecorded(Exec(c, acts).db)
    requires var s := Exec(c, acts); a.Step? && a.proc < |s.procs| && s.procs[a.proc].ManualConflict?
    ensures LockBooks(Apply(c, Exec(c, acts), a).db) <==> !StealsLock(Exec(c, acts), a)
  {
    var s := Exec(c, acts);
    ControlHolds(c, acts);
    MoneyHolds(c, acts);
    ConflictStepIff(c, s, a);
  }

  lemma ConflictStepIff(c: Config, s: State, a: Action)
    requires Control(c, s) && MoneyBooks(s.db) && LockBooks(s.db) && AllRecorded(s.db)
    requires a.Step? && a.proc < |s.procs| && s.procs[a.proc].ManualConflict?
    ensures LockBooks(Apply(c, s, a).db) <==> !StealsLock(s, a)
  {
    if StealsLock(s, a) {
      var db' := Apply(c, s, a).db;
      var po := s.db.payouts[s.procs[a.proc].i];
      assert PayoutOk(c, po);
      assert LockCell(s.db, po.fund, po.lockedPeriod.value);
      assert !LockCell(db', po.fund, po.lockedPeriod.value);
    } else {
      ApplyKeepsLocks(c, s, a);
    }
  }

  lemma {:induction false} RecordedHolds(c: Config, acts: seq<Action>)
    requires MonthsRecorded(acts)
    ensures AllRecorded(Exec(c, acts).db)
    decreases |acts|
  {
    hide Apply;
    if acts != [] {
      var n := |acts| - 1;
      RecordedHolds(c, acts[..n]);
      ControlHolds(c, acts[..n]);
      ApplyKeepsRecorded(c, Exec(c, acts[..n]), acts[n]);
    }
  }

  /** So over whole runs that branch is all that stands between the code and conservation:
      the locks are conserved at every point of a run if and only if it never took one. */
  lemma LocksConservedIffNoSteals(c: Config, acts: seq<Action>)
    requires MonthsRecorded(acts)
    ensures NoSteals(c, acts) <==> forall j :: 0 <= j <= |acts| ==> LockBooks(Exec(c, acts[..j]).db)
  {
    hide Apply, LockBooks, StealsLock;
    if NoSteals(c, acts) {
      forall j | 0 <= j <= |acts| ensures LockBooks(Exec(c, acts[..j]).db) {
        PrefixNoSteals(c, acts, j);
        LocksHold(c, acts[..j]);
      }
    } else {
      var j :| 0 <= j < |acts| && StealsLock(Exec(c, acts[..j]), acts[j]);
      RecordedHolds(c, acts[..j]);
      StealBreaksLocks(c, acts[..j], acts[j]);
      assert acts[..j + 1] == acts[..j] + [acts[j]];
      ExecSnoc(c, acts[..j], acts[j]);
    }
  }

  lemma StealBreaksLocks(c: Config, acts: seq<Action>, a: Action)
    requires AllRecorded(Exec(c, acts).db) && StealsLock(Exec(c, acts), a)
    ensures LockBooks(Exec(c, acts).db) ==> !LockBooks(Apply(c, Exec(c, acts), a).db)
  {
    if LockBooks(Exec(c, acts).db) {
      ConflictBreaksLocksIffSteals(c, acts, a);
    }
  }

  // ----- Runs in which nothing comes between a manual payout and its compare-and-set -----

  /** A manual payout's process moves as soon as its row is there. */
  ghost predicate Uninterrupted(c: Config, acts: seq<Action>) {
    forall j, k :: 0 <= j < |acts| && StandsCreated(Exec(c, acts[..j]), k) ==> acts[j].Step? && acts[j].proc == k
  }

  predicate StandsCreated(s: State, k: nat) {
    k < |s.procs| && s.procs[k].ManualCreated?
  }

  /** No conflict, and a row just created is still PENDING. */
  ghost predicate NoConflict(s: State) {
    forall k :: 0 <= k < |s.procs| ==>
      && !s.procs[k].ManualConflict?
      && (s.procs[k].ManualCreated? ==> s.procs[k].i < |s.db.payouts| && s.db.payouts[s.procs[k].i].status == Pending)
  }

  lemma StepKeepsNoConflict(s: State, k: nat, accepted: bool)
    requires NoConflict(s) && k < |s.procs|
    requires forall j :: StandsCreated(s, j) ==> j == k
    ensures NoConflict(ApplyProc(s, k, accepted))
  {
    var s' := ApplyProc(s, k, accepted);
    assert |s'.procs| == |s.procs| && forall j :: 0 <= j < |s.procs| && j != k ==> s'.procs[j] == s.procs[j];
    forall j | 0 <= j < |s.procs| ensures !s'.procs[j].ManualConflict? && !s'.procs[j].ManualCreated? {
      assert StandsCreated(s, j) ==> j == k;
    }
  }

  lemma ApplyKeepsNoConflict(c: Config, s: State, a: Action)
    requires NoConflict(s) && forall j :: StandsCreated(s, j) ==> a.Step? && a.proc == j
    ensures NoConflict(Apply(c, s, a))
  {
    if a.Step? {
      hide ApplyProc;
      if a.proc < |s.procs| {
        StepKeepsNoConflict(s, a.proc, a.accepted);
      }
    } else {
      forall j | 0 <= j < |s.procs| ensures !s.procs[j].ManualCreated? {
        assert !StandsCreated(s, j);
      }
    }
  }

  lemma {:induction false} UninterruptedHasNoConflict(c: Config, acts: seq<Action>)
    requires Uninterrupted(c, acts)
    ensures NoConflict(Exec(c, acts))
    decreases |acts|
  {
    hide Apply;
    if acts != [] {
      var n := |acts| - 1;
      forall j, k | 0 <= j < n && StandsCreated(Exec(c, acts[..n][..j]), k)
        ensures acts[..n][j].Step? && acts[..n][j].proc == k
      {
        assert acts[..n][..j] == acts[..j];
      }
      UninterruptedHasNoConflict(c, acts[..n]);
      ApplyKeepsNoConflict(c, Exec(c, acts[..n]), acts[n]);
    }
  }

  /** Such runs never reach the conflict branch, so every result that asks for no stolen
      lock holds of them. */
  lemma UninterruptedNeverSteals(c: Config, acts: seq<Action>)
    requires Uninterrupted(c, acts)
    ensures NoSteals(c, acts)
  {
    hide Apply;
    forall j | 0 <= j < |acts| ensures !StealsLock(Exec(c, acts[..j]), acts[j]) {
      forall i, k | 0 <= i < j && StandsCreated(Exec(c, acts[..j][..i]), k)
        ensures acts[..j][i].Step? && acts[..j][i].proc == k
      {
        assert acts[..j][..i] == acts[..i];
      }
      UninterruptedHasNoConflict(c, acts[..j]);
    }
  }

  // ----- The ledger is its definition -----

  function Inflows(txs: seq<Tx>, f: Fund): int {
    SumFund(TxPostings(txs, Collected), f)
  }

  function InboundFees(txs: seq<Tx>, f: Fund): int {
    SumFund(TxPostings(txs, Fees), f)
  }

  function PaidOutOf(payouts: seq<Payout>, f: Fund): int {
    SumFund(PayoutPostings(payouts, PaidOut), f)
  }

  function TransferFees(payouts: seq<Payout>, f: Fund): int {
    SumFund(PayoutPostings(payouts, Fees), f)
  }

  lemma {:induction false} ZeroPostings(ps: seq<Posting>, f: Fund, p: Period)
    requires forall k :: 0 <= k < |ps| ==> ps[k].amount == 0
    ensures SumAt(ps, f, p) == 0 && SumFund(ps, f) == 0
    decreases |ps|
  {
    if ps != [] {
      ZeroPostings(ps[..|ps| - 1], f, p);
    }
  }

  /** A column whose cells are the sums of its postings totals to the fund's sum. */
  lemma ColumnTotal(db: Db, f: Fund, c: Column)
    requires forall p :: Cell(Cells(db, f, p), c) == CellSum(db, c, f, p)
    ensures Total(BookOf(db.books, f), c)
      == SumFund(TxPostings(db.txs, c), f) + SumFund(PayoutPostings(db.payouts, c), f)
  {
    var ps := TxPostings(db.txs, c) + PayoutPostings(db.payouts, c);
    forall p ensures Cell(RowAt(BookOf(db.books, f), p), c) == SumAt(ps, f, p) {
      SumConcat(TxPostings(db.txs, c), PayoutPostings(db.payouts, c), f, p);
      assert Cell(Cells(db, f, p), c) == CellSum(db, c, f, p);
    }
    CellsSumToFund(BookOf(db.books, f), ps, f, c);
    SumConcat(TxPostings(db.txs, c), PayoutPostings(db.payouts, c), f, 0);
  }

  /** The fund totals, recomputed from raw rows. */
  lemma MoneyTotals(db: Db, f: Fund)
    requires MoneyBooks(db)
    ensures Total(BookOf(db.books, f), Collected) == Inflows(db.txs, f)
    ensures Total(BookOf(db.books, f), PaidOut) == PaidOutOf(db.payouts, f)
    ensures Total(BookOf(db.books, f), Fees) == InboundFees(db.txs, f) + TransferFees(db.payouts, f)
  {
    forall p ensures Cell(Cells(db, f, p), Collected) == CellSum(db, Collected, f, p)
      ensures Cell(Cells(db, f, p), PaidOut) == CellSum(db, PaidOut, f, p)
      ensures Cell(Cells(db, f, p), Fees) == CellSum(db, Fees, f, p) {
      assert MoneyCell(db, f, p);
    }
    ColumnTotal(db, f, Collected);
    ColumnTotal(db, f, PaidOut);
    ColumnTotal(db, f, Fees);
    ZeroPostings(PayoutPostings(db.payouts, Collected), f, 0);
    ZeroPostings(TxPostings(db.txs, PaidOut), f, 0);
  }

  /** The running ledger refines its definition: in every run each row's collected, paid_out,
      fees and transaction count are the sums over the raw rows of its fund and month, a
      payout counting in the month its debit named, and its giver count the number of
      distinct members among them. */
  lemma LedgerRefinesRawRows(c: Config, acts: seq<Action>, f: Fund, p: Period)
    ensures var db := Exec(c, acts).db; var r := Cells(db, f, p);
      && r.collected == SumAt(TxPostings(db.txs, Collected), f, p)
      && r.paidOut == SumAt(PayoutPostings(db.payouts, PaidOut), f, p)
      && r.fees == SumAt(TxPostings(db.txs, Fees), f, p) + SumAt(PayoutPostings(db.payouts, Fees), f, p)
      && r.count == SumAt(TxPostings(db.txs, Transactions), f, p)
      && r.givers == |GiversOf(db.txs, f, p)|
  {
    hide Apply;
    MoneyHolds(c, acts);
    var db := Exec(c, acts).db;
    assert MoneyCell(db, f, p);
    ZeroPostings(PayoutPostings(db.payouts, Collected), f, p);
    ZeroPostings(TxPostings(db.txs, PaidOut), f, p);
    ZeroPostings(PayoutPostings(db.payouts, Transactions), f, p);
  }

  /** The balance as raw rows define it. */
  function RawBalance(db: Db, f: Fund): int {
    Margin(db, f) - TransferFees(db.payouts, f)
  }

  /** The balance before transfer fees: collected - inbound fees - paid_out - soft_lock. */
  function Margin(db: Db, f: Fund): int {
    Inflows(db.txs, f) - InboundFees(db.txs, f) - PaidOutOf(db.payouts, f) - Reserved(db.payouts, f)
  }

  /** The balance as the tables' statuses define it. */
  function TableBalance(s: State, f: Fund): int {
    Inflows(s.db.txs, f) - InboundFees(s.db.txs, f) - PaidOutOf(s.db.payouts, f) - TransferFees(s.db.payouts, f)
    - Promised(s, f)
  }

  /** What came in less inbound fees covers what was paid out and what is promised. */
  predicate Covered(s: State, f: Fund) {
    Inflows(s.db.txs, f) - InboundFees(s.db.txs, f) >= PaidOutOf(s.db.payouts, f) + Promised(s, f)
  }

  lemma CoveredIsMargin(c: Config, s: State, f: Fund)
    requires Control(c, s)
    ensures Covered(s, f) <==> Margin(s.db, f) >= 0
  {
    PromisedIsReserved(c, s, f);
  }

  /** A fund's locks total exactly its reservations. */
  ghost predicate FundExact(db: Db) {
    forall f :: Total(BookOf(db.books, f), SoftLock) == Reserved(db.payouts, f)
  }

  lemma ExactBalance(c: Config, s: State, f: Fund)
    requires Control(c, s) && MoneyBooks(s.db) && FundExact(s.db)
    ensures Total(BookOf(s.db.books, f), Net) == TableBalance(s, f)
    ensures Available(BookOf(s.db.books, f)) == Max(0, TableBalance(s, f))
  {
    MoneyTotals(s.db, f);
    TotalNet(BookOf(s.db.books, f));
    PromisedIsReserved(c, s, f);
  }
}
