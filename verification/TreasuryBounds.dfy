/** How far a fund can be over-committed: the check demands headroom for one transfer fee
    but reserves only the amount. */
module TreasuryBounds {
  import opened Wrappers
  import opened PayoutStateMachine
  import opened Ledgers
  import opened Journal
  import opened Tables
  import opened Treasury
  import opened TreasuryControl
  import opened TreasuryBooks
  import opened TreasuryRuns
  import opened TreasuryMoney
  import opened TreasurySweeps

  /** Each inbound fee is at most its amount, each transfer fee at most the headroom. */
  predicate FeesInBounds(c: Config, acts: seq<Action>) {
    forall j :: 0 <= j < |acts| ==> FeeInBounds(c, acts[j])
  }

  predicate FeeInBounds(c: Config, a: Action) {
    match a
    case Inflow(_, _, amount, fee, _) => fee <= amount
    case DeliverSuccess(_, fee) => 0 <= fee <= c.feeBuffer
    case _ => true
  }

  function HeldPostings(payouts: seq<Payout>): seq<Posting> {
    seq(|payouts|, k requires 0 <= k < |payouts| => HeldPosting(payouts[k]))
  }

  function HeldPosting(po: Payout): Posting {
    Posting(po.fund, 0, if po.held then 1 else 0)
  }

  function HeldCount(payouts: seq<Payout>, f: Fund): int {
    SumFund(HeldPostings(payouts), f)
  }

  /** How many of a fund's first n payouts are live or owed a release. */
  function CountDue(s: State, n: nat, f: Fund): int
    requires n <= |s.db.payouts|
  {
    if n == 0 then 0 else CountDue(s, n - 1, f) + if s.db.payouts[n - 1].fund == f && Due(s, n - 1) then 1 else 0
  }

  /** Payouts a fund has reserved, by their statuses. */
  function Live(s: State, f: Fund): int {
    CountDue(s, |s.db.payouts|, f)
  }

  /** The most a fund ever had reserved at once. */
  function Peak(c: Config, acts: seq<Action>, f: Fund): int {
    if acts == [] then 0 else Max(Peak(c, acts[..|acts| - 1], f), Live(Exec(c, acts), f))
  }

  lemma {:induction false} CountDueIsHeld(c: Config, s: State, n: nat, f: Fund)
    requires Control(c, s) && n <= |s.db.payouts|
    ensures CountDue(s, n, f) == HeldCount(s.db.payouts[..n], f)
    decreases n
  {
    if n > 0 {
      CountDueIsHeld(c, s, n - 1, f);
      HeldIffDue(c, s, n - 1);
      assert s.db.payouts[..n] == s.db.payouts[..n - 1] + [s.db.payouts[n - 1]];
      LiveAppend(s.db.payouts[..n - 1], s.db.payouts[n - 1], f);
    }
  }

  lemma LiveIsHeld(c: Config, acts: seq<Action>, f: Fund)
    ensures Live(Exec(c, acts), f) == HeldCount(Exec(c, acts).db.payouts, f)
  {
    hide Apply;
    ControlHolds(c, acts);
    var s := Exec(c, acts);
    CountDueIsHeld(c, s, |s.db.payouts|, f);
    assert s.db.payouts[..|s.db.payouts|] == s.db.payouts;
  }

  lemma LivePut(payouts: seq<Payout>, i: nat, po: Payout, f: Fund)
    requires i < |payouts|
    ensures HeldCount(payouts[i := po], f)
      == HeldCount(payouts, f) - FundShare(HeldPosting(payouts[i]), f) + FundShare(HeldPosting(po), f)
  {
    assert HeldPostings(payouts[i := po]) == HeldPostings(payouts)[i := HeldPosting(po)];
    SumUpdate(HeldPostings(payouts), i, HeldPosting(po), f, 0);
  }

  lemma LiveAppend(payouts: seq<Payout>, po: Payout, f: Fund)
    ensures HeldCount(payouts + [po], f) == HeldCount(payouts, f) + FundShare(HeldPosting(po), f)
  {
    assert HeldPostings(payouts + [po]) == HeldPostings(payouts) + [HeldPosting(po)];
    SumAppend(HeldPostings(payouts), HeldPosting(po), f, 0);
  }

  lemma LiveNonNegative(payouts: seq<Payout>, f: Fund)
    ensures HeldCount(payouts, f) >= 0
  {
    SumCovers(HeldPostings(payouts), f, 0);
  }

  /** How one table write moves a fund's margin, transfer fees and reserved payouts: not at
      all, by an inflow, by a lock that left headroom, by a release, or by a debit. */
  ghost predicate FundStep(db: Db, db': Db, f: Fund, feeBuffer: nat, gain: int, fee: int) {
    var m, m' := Margin(db, f), Margin(db', f);
    var t, t' := TransferFees(db.payouts, f), TransferFees(db'.payouts, f);
    var n, n' := HeldCount(db.payouts, f), HeldCount(db'.payouts, f);
    || (m' == m && t' == t && n' == n)
    || (m' == m + gain && t' == t && n' == n)
    || (m' - t' >= feeBuffer && t' == t && n' == n + 1)
    || (m' >= m && t' == t && n' == n - 1)
    || (m' == m && t' == t + fee && n' == n - 1)
  }

  lemma PutMargins(db: Db, db': Db, i: nat, po: Payout, f: Fund)
    requires i < |db.payouts| && db'.txs == db.txs && db'.payouts == db.payouts[i := po]
    ensures Margin(db', f) == Margin(db, f)
      + FundShare(PayoutPosting(db.payouts[i], PaidOut), f) - FundShare(PayoutPosting(po, PaidOut), f)
      + FundShare(PayoutPosting(db.payouts[i], SoftLock), f) - FundShare(PayoutPosting(po, SoftLock), f)
    ensures TransferFees(db'.payouts, f) == TransferFees(db.payouts, f)
      - FundShare(PayoutPosting(db.payouts[i], Fees), f) + FundShare(PayoutPosting(po, Fees), f)
    ensures HeldCount(db'.payouts, f)
      == HeldCount(db.payouts, f) - FundShare(HeldPosting(db.payouts[i]), f) + FundShare(HeldPosting(po), f)
  {
    PutSums(db.payouts, i, po, PaidOut, f, 0);
    PutSums(db.payouts, i, po, SoftLock, f, 0);
    PutSums(db.payouts, i, po, Fees, f, 0);
    LivePut(db.payouts, i, po, f);
  }

  lemma CreateMargins(db: Db, f: Fund, initiator: nat, amount: int, feeBuffer: nat, expiresAt: int, route: Route,
                      recorded: bool, g: Fund)
    requires MoneyBooks(db) && LocksCover(db)
    requires LockAndCreate(db, f, initiator, amount, feeBuffer, expiresAt, route, recorded).Some?
    ensures var db' := LockAndCreate(db, f, initiator, amount, feeBuffer, expiresAt, route, recorded).value;
      FundStep(db, db', g, feeBuffer, 0, 0)
  {
    var db' := LockAndCreate(db, f, initiator, amount, feeBuffer, expiresAt, route, recorded).value;
    var po := db'.payouts[|db.payouts|];
    NetAtMostRaw(db, f);
    AppendMargins(db, po, g);
  }

  lemma AppendMargins(db: Db, po: Payout, f: Fund)
    requires po.status != Transferred
    ensures var db' := db.(payouts := db.payouts + [po]);
      && Margin(db', f) == Margin(db, f) - FundShare(PayoutPosting(po, SoftLock), f)
      && TransferFees(db'.payouts, f) == TransferFees(db.payouts, f)
      && HeldCount(db'.payouts, f) == HeldCount(db.payouts, f) + FundShare(HeldPosting(po), f)
  {
    AppendSums(db.payouts, po, PaidOut, f, 0);
    AppendSums(db.payouts, po, SoftLock, f, 0);
    AppendSums(db.payouts, po, Fees, f, 0);
    LiveAppend(db.payouts, po, f);
  }

  /** What the code sees as available is never more than what the raw rows leave. */
  lemma NetAtMostRaw(db: Db, f: Fund)
    requires MoneyBooks(db) && LocksCover(db)
    ensures Total(BookOf(db.books, f), Net) <= RawBalance(db, f)
  {
    MoneyTotals(db, f);
    TotalNet(BookOf(db.books, f));
  }

  lemma SweepMargins(db: Db, f: Fund, actor: nat, minBalance: int, feeBuffer: nat, expiresAt: int, accepted: bool,
                     g: Fund)
    requires MoneyBooks(db) && LocksCover(db) && SweepAmount(db, f, minBalance, feeBuffer) != 0
    ensures FundStep(db, Sweep(db, f, actor, minBalance, feeBuffer, expiresAt, accepted), g, feeBuffer, 0, 0)
  {
    var db' := Sweep(db, f, actor, minBalance, feeBuffer, expiresAt, accepted);
    var po := db'.payouts[|db.payouts|];
    assert db'.payouts == db.payouts + [po];
    NetAtMostRaw(db, f);
    AppendMargins(db, po, g);
  }

  lemma InflowMargins(db: Db, account: Account, p: Period, amount: int, fee: int, ref: string, f: Fund, feeBuffer: nat)
    requires CreditInflow(db, account, p, amount, fee, ref).Some?
    ensures var db' := CreditInflow(db, account, p, amount, fee, ref).value;
      FundStep(db, db', f, feeBuffer, amount - fee, 0) && (fee <= amount ==> Margin(db', f) >= Margin(db, f))
  {
    var t := CreditInflow(db, account, p, amount, fee, ref).value.txs[|db.txs|];
    AppendTxSums(db.txs, t, Collected, f, 0);
    AppendTxSums(db.txs, t, Fees, f, 0);
  }

  lemma QuietMargins(db: Db, db': Db, f: Fund, feeBuffer: nat, gain: int, fee: int)
    requires Quiet(db, db')
    ensures FundStep(db, db', f, feeBuffer, gain, fee)
    ensures HeldCount(db'.payouts, f) == HeldCount(db.payouts, f) && Margin(db', f) == Margin(db, f)
  {
    if db' != db {
      var i: nat, po :| i < |db.payouts| && SamePostings(db.payouts[i], po) && db' == PutPayout(db, i, po);
      PutMargins(db, db', i, po, f);
    }
  }

  lemma StepMargins(c: Config, s: State, k: nat, accepted: bool, f: Fund)
    requires Control(c, s) && k < |s.procs|
    ensures var db' := ApplyProc(s, k, accepted).db;
      FundStep(s.db, db', f, c.feeBuffer, 0, 0) && Margin(db', f) >= Margin(s.db, f)
  {
    var db' := ApplyProc(s, k, accepted).db;
    StepWrites(c, s, k, accepted);
    hide ApplyProc;
    var pr := s.procs[k];
    if IsRelease(pr) {
      AllAmountsPositive(c, s);
      PutMargins(s.db, db', pr.i, db'.payouts[pr.i], f);
    } else if !pr.ManualConflict? {
      QuietMargins(s.db, db', f, c.feeBuffer, 0, 0);
    }
  }

  lemma SettleMargins(db: Db, i: nat, at: Clocks, fee: int, f: Fund, feeBuffer: nat)
    requires i < |db.payouts| && db.payouts[i].held && db.payouts[i].status != Transferred
    ensures var db' := SettleSuccess(db, i, at, fee);
      FundStep(db, db', f, feeBuffer, 0, fee) && Margin(db', f) == Margin(db, f)
  {
    var db' := SettleSuccess(db, i, at, fee);
    PutMargins(db, db', i, db'.payouts[i], f);
  }

  lemma WorkerMargins(c: Config, s: State, at: Clocks, f: Fund)
    requires Control(c, s)
    ensures FundStep(s.db, ApplyWorker(s, at).db, f, c.feeBuffer, 0, if s.worker.SuccessRead? then s.worker.fee else 0)
    ensures Margin(ApplyWorker(s, at).db, f) == Margin(s.db, f)
  {
    hide FundStep, SettleSuccess, SettleFailure;
    match s.worker
    case Idle =>
      QuietMargins(s.db, s.db, f, c.feeBuffer, 0, 0);
    case SuccessRead(i, fee) =>
      assert PayoutOk(c, s.db.payouts[i]);
      SettleMargins(s.db, i, at, fee, f, c.feeBuffer);
    case FailureRead(i) =>
      FailureIsQuiet(s, i);
      QuietMargins(s.db, SettleFailure(s.db, i), f, c.feeBuffer, 0, 0);
  }

  function Gain(a: Action): int {
    if a.Inflow? then a.amount - a.fee else 0
  }

  function SettlementFee(s: State, a: Action): int {
    if a.WorkerStep? && s.worker.SuccessRead? then s.worker.fee else 0
  }

  lemma ApplyMargins(c: Config, s: State, a: Action, f: Fund)
    requires Control(c, s) && MoneyBooks(s.db) && LocksCover(s.db)
    ensures FundStep(s.db, Apply(c, s, a).db, f, c.feeBuffer, Gain(a), SettlementFee(s, a))
  {
    hide FundStep, Control, MoneyBooks, LocksCover, CreditInflow, LockAndCreate, ApplyWorker, ApplyProc;
    var db' := Apply(c, s, a).db;
    if db' == s.db {
      QuietMargins(s.db, s.db, f, c.feeBuffer, Gain(a), SettlementFee(s, a));
    } else {
      match a
      case Inflow(account, period, amount, fee, ref) =>
        InflowMargins(s.db, account, period, amount, fee, ref, f, c.feeBuffer);
      case Initiate(fund, admin, amount, _, expiresAt, recorded) =>
        CreateMargins(s.db, fund, admin, amount, c.feeBuffer, expiresAt,
                      if amount < s.policy.threshold then Direct else Governed, recorded, f);
      case Sweeping(fund, admin, minBalance, expiresAt, accepted) =>
        SweepMargins(s.db, fund, admin, minBalance, c.feeBuffer, expiresAt, accepted, f);
      case WorkerStep(at) =>
        WorkerMargins(c, s, at, f);
      case Step(k, accepted) =>
        StepMargins(c, s, k, accepted, f);
    }
  }

  /** The worker only holds fees that were delivered. */
  predicate WorkerFeeInBounds(c: Config, s: State) {
    s.worker.SuccessRead? ==> 0 <= s.worker.fee <= c.feeBuffer
  }

  lemma ApplyKeepsWorkerFee(c: Config, s: State, a: Action)
    requires WorkerFeeInBounds(c, s) && FeeInBounds(c, a)
    ensures WorkerFeeInBounds(c, Apply(c, s, a))
  {
    if a.Step? && a.proc < |s.procs| {
      StepKeepsWorker(s, a.proc, a.accepted);
    }
  }

  lemma StepKeepsWorker(s: State, k: nat, accepted: bool)
    requires k < |s.procs|
    ensures ApplyProc(s, k, accepted).worker == s.worker
  {
  }

  /** The bound with `peak` payouts reserved at once at most and `live` of them now. */
  function Floor(feeBuffer: nat, live: int, peak: int): int {
    if peak <= 0 then 0 else feeBuffer * (1 + live - peak)
  }

  lemma FloorMonotone(feeBuffer: nat, live: int, peak: int, live': int, peak': int)
    requires peak' == Max(peak, live') && peak >= live && peak >= 0
    ensures live' == live - 1 ==>
      Floor(feeBuffer, live', peak') <= Floor(feeBuffer, live, peak) - if peak > 0 then feeBuffer else 0
    ensures live' == live ==> Floor(feeBuffer, live', peak') == Floor(feeBuffer, live, peak)
    ensures live' == live + 1 ==> Floor(feeBuffer, live', peak') <= feeBuffer
  {
    if peak > 0 {
      assert feeBuffer * (1 + (live - 1) - peak) == feeBuffer * (1 + live - peak) - feeBuffer;
    }
    if live' == live + 1 && peak' > 0 {
      assert 1 + live' - peak' <= 1;
    }
  }

  /** The margin never goes negative, and the balance never below the floor. */
  ghost predicate WithinBounds(c: Config, acts: seq<Action>, f: Fund) {
    var s := Exec(c, acts);
    && Margin(s.db, f) >= 0 && TransferFees(s.db.payouts, f) >= 0
    && 0 <= Live(s, f) <= Peak(c, acts, f)
    && RawBalance(s.db, f) >= Floor(c.feeBuffer, Live(s, f), Peak(c, acts, f))
  }

  lemma {:induction false} BoundsHold(c: Config, acts: seq<Action>, f: Fund)
    requires NoSteals(c, acts) && FeesInBounds(c, acts)
    ensures WithinBounds(c, acts, f) && WorkerFeeInBounds(c, Exec(c, acts))
    decreases |acts|
  {
    hide Apply, Control, MoneyBooks, LocksCover, NoSteals, Live, HeldCount, Floor;
    LiveIsHeld(c, acts, f);
    if acts == [] {
      EmptyBounds(c, f);
    } else {
      var n := |acts| - 1;
      PrefixNoSteals(c, acts, n);
      BoundsHold(c, acts[..n], f);
      ControlHolds(c, acts[..n]);
      MoneyHolds(c, acts[..n]);
      CoverHolds(c, acts[..n]);
      LiveIsHeld(c, acts[..n], f);
      var s := Exec(c, acts[..n]);
      ApplyMargins(c, s, acts[n], f);
      ApplyKeepsWorkerFee(c, s, acts[n]);
      LiveNonNegative(Exec(c, acts).db.payouts, f);
      FloorMonotone(c.feeBuffer, Live(s, f), Peak(c, acts[..n], f), Live(Exec(c, acts), f), Peak(c, acts, f));
    }
  }

  lemma EmptyBounds(c: Config, f: Fund)
    ensures WithinBounds(c, [], f)
  {
  }

  /** Over-commitment bound, months recorded or not: what came in less inbound fees always
      covers what was paid out and what is promised. Counting transfer fees too, a fund may dip
      below zero, but never under one fee for each reservation there ever was at once beyond
      the first and not still live. */
  lemma OverCommitmentBound(c: Config, acts: seq<Action>, f: Fund)
    requires NoSteals(c, acts) && FeesInBounds(c, acts)
    ensures var s := Exec(c, acts);
      && Covered(s, f)
      && TableBalance(s, f) >= Floor(c.feeBuffer, Live(s, f), Peak(c, acts, f))
  {
    hide Apply;
    BoundsHold(c, acts, f);
    ControlHolds(c, acts);
    PromisedIsReserved(c, Exec(c, acts), f);
  }

  /** As long as no release falls short the ledger's own columns say the same. */
  lemma LedgerOverCommitmentBound(c: Config, acts: seq<Action>, f: Fund)
    requires NoSteals(c, acts) && NoShorts(c, acts) && FeesInBounds(c, acts)
    ensures var s := Exec(c, acts); var l := BookOf(s.db.books, f);
      && Total(l, Collected) - InboundFees(s.db.txs, f) - Total(l, PaidOut) - Total(l, SoftLock) >= 0
      && Total(l, Net) >= Floor(c.feeBuffer, Live(s, f), Peak(c, acts, f))
  {
    hide Apply;
    BoundsHold(c, acts, f);
    MoneyHolds(c, acts);
    FundLocksExactIff(c, acts);
    assert acts[..|acts|] == acts;
    var db := Exec(c, acts).db;
    MoneyTotals(db, f);
    TotalNet(BookOf(db.books, f));
  }

  // ----- Without the hypothesis on stolen locks: exactly when the bound breaks -----

  /** By how much a fund's locks fall short of its reservations. */
  function Missing(s: State, f: Fund): int {
    Promised(s, f) - Total(BookOf(s.db.books, f), SoftLock)
  }

  /** The balance check would grant a lock larger than what the raw rows leave. */
  ghost predicate CanOverdraw(db: Db, f: Fund, feeBuffer: nat) {
    exists amount :: amount > Margin(db, f) && TryLock(BookOf(db.books, f), amount, feeBuffer).Locked?
  }

  lemma CanOverdrawIff(db: Db, f: Fund, feeBuffer: nat)
    requires MoneyBooks(db) && Margin(db, f) >= 0
    ensures CanOverdraw(db, f, feeBuffer) <==>
      Reserved(db.payouts, f) - Total(BookOf(db.books, f), SoftLock) > TransferFees(db.payouts, f) + feeBuffer
  {
    var l := BookOf(db.books, f);
    MoneyTotals(db, f);
    TotalNet(l);
    if Reserved(db.payouts, f) - Total(l, SoftLock) > TransferFees(db.payouts, f) + feeBuffer {
      assert TryLock(l, Margin(db, f) + 1, feeBuffer).Locked?;
    }
  }

  /** Nothing but a new reservation lowers a fund's margin. */
  lemma OnlyCreationLowersMargin(c: Config, s: State, a: Action, f: Fund)
    requires Control(c, s) && FeeInBounds(c, a) && !a.Initiate? && !a.Sweeping?
    ensures Margin(Apply(c, s, a).db, f) >= Margin(s.db, f)
  {
    hide Control, Margin, CreditInflow, ApplyWorker, ApplyProc;
    if Apply(c, s, a).db != s.db {
      match a
      case Inflow(account, period, amount, fee, ref) =>
        InflowMargins(s.db, account, period, amount, fee, ref, f, c.feeBuffer);
      case WorkerStep(at) => WorkerMargins(c, s, at, f);
      case Step(k, accepted) => StepMargins(c, s, k, accepted, f);
    }
  }

  lemma CreateOverdraws(db: Db, fund: Fund, initiator: nat, amount: int, feeBuffer: nat, expiresAt: int, route: Route,
                        recorded: bool, f: Fund)
    requires LockAndCreate(db, fund, initiator, amount, feeBuffer, expiresAt, route, recorded).Some?
    requires Margin(db, f) >= 0
    requires Margin(LockAndCreate(db, fund, initiator, amount, feeBuffer, expiresAt, route, recorded).value, f) < 0
    ensures CanOverdraw(db, f, feeBuffer)
  {
    AppendMargins(db, LockAndCreate(db, fund, initiator, amount, feeBuffer, expiresAt, route, recorded).value
                      .payouts[|db.payouts|], f);
    hide Margin;
    assert TryLock(BookOf(db.books, fund), amount, feeBuffer).Locked?;
  }

  lemma SweepOverdraws(db: Db, fund: Fund, actor: nat, minBalance: int, feeBuffer: nat, expiresAt: int, accepted: bool,
                       f: Fund)
    requires Margin(db, f) >= 0 && Margin(Sweep(db, fund, actor, minBalance, feeBuffer, expiresAt, accepted), f) < 0
    ensures CanOverdraw(db, f, feeBuffer)
  {
    var amount := SweepAmount(db, fund, minBalance, feeBuffer);
    AppendMargins(db, Sweep(db, fund, actor, minBalance, feeBuffer, expiresAt, accepted).payouts[|db.payouts|], f);
    assert Total(map[], Net) == 0;
    assert TryLock(BookOf(db.books, fund), amount, feeBuffer).Locked?;
  }

  lemma OverdrawingAction(c: Config, s: State, a: Action, f: Fund)
    requires Control(c, s) && FeeInBounds(c, a) && Margin(s.db, f) >= 0 && Margin(Apply(c, s, a).db, f) < 0
    ensures CanOverdraw(s.db, f, c.feeBuffer)
  {
    hide Margin, CanOverdraw, LockAndCreate, Sweep;
    match a
    case Initiate(fund, admin, amount, _, expiresAt, recorded) =>
      CreateOverdraws(s.db, fund, admin, amount, c.feeBuffer, expiresAt,
                      if amount < s.policy.threshold then Direct else Governed, recorded, f);
    case Sweeping(fund, admin, minBalance, expiresAt, accepted) =>
      SweepOverdraws(s.db, fund, admin, minBalance, c.feeBuffer, expiresAt, accepted, f);
    case _ => OnlyCreationLowersMargin(c, s, a, f);
  }

  lemma SweepTakesAll(c: Config, s: State, f: Fund)
    requires MoneyBooks(s.db) && Margin(s.db, f) >= 0 && CanOverdraw(s.db, f, c.feeBuffer)
    ensures Margin(Apply(c, s, Sweeping(f, 0, 0, 0, true)).db, f) < 0
  {
    var amount :| amount > Margin(s.db, f) && TryLock(BookOf(s.db.books, f), amount, c.feeBuffer).Locked?;
    var db' := Apply(c, s, Sweeping(f, 0, 0, 0, true)).db;
    AppendMargins(s.db, db'.payouts[|s.db.payouts|], f);
  }

  /** At any point of any run, stolen locks included, where the fund is still covered: some
      next action breaks the over-commitment bound if and only if the missing locks exceed
      the transfer fees paid so far and the headroom. */
  lemma NextOverdraftIff(c: Config, acts: seq<Action>, f: Fund)
    requires Covered(Exec(c, acts), f)
    ensures var s := Exec(c, acts);
      (exists a :: FeeInBounds(c, a) && !Covered(Apply(c, s, a), f)) <==>
      Missing(s, f) > TransferFees(s.db.payouts, f) + c.feeBuffer
  {
    var s := Exec(c, acts);
    MoneyHolds(c, acts);
    ControlHolds(c, acts);
    PromisedIsReserved(c, s, f);
    CoveredIsMargin(c, s, f);
    CanOverdrawIff(s.db, f, c.feeBuffer);
    hide Apply, Margin, Control, MoneyBooks, CanOverdraw, Covered;
    if CanOverdraw(s.db, f, c.feeBuffer) {
      var a := Sweeping(f, 0, 0, 0, true);
      SweepTakesAll(c, s, f);
      ApplyKeepsControl(c, s, a);
      CoveredIsMargin(c, Apply(c, s, a), f);
      assert FeeInBounds(c, a);
    } else {
      forall a | FeeInBounds(c, a) ensures Covered(Apply(c, s, a), f) {
        ApplyKeepsControl(c, s, a);
        CoveredIsMargin(c, Apply(c, s, a), f);
        if Margin(Apply(c, s, a).db, f) < 0 {
          OverdrawingAction(c, s, a, f);
        }
      }
    }
  }

  lemma NothingPromised(f: Fund)
    ensures Covered(Init(), f)
  {
  }

  /** So the bound holds of every run that never misses more than that, whether or not the
      conflict branch took locks. */
  lemma {:induction false} CoveredWhileFewMissing(c: Config, acts: seq<Action>, f: Fund)
    requires FeesInBounds(c, acts)
    requires forall j :: 0 <= j < |acts| ==>
      var s := Exec(c, acts[..j]); Missing(s, f) <= TransferFees(s.db.payouts, f) + c.feeBuffer
    ensures Covered(Exec(c, acts), f)
    decreases |acts|
  {
    hide Apply, Missing, Covered;
    if acts == [] {
      NothingPromised(f);
    } else {
      var n := |acts| - 1;
      assert forall j :: 0 <= j < n ==> acts[..n][..j] == acts[..j];
      CoveredWhileFewMissing(c, acts[..n], f);
      NextOverdraftIff(c, acts[..n], f);
      assert FeeInBounds(c, acts[n]);
    }
  }
}
