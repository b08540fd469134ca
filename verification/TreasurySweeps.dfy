/** Exactly when a fund's locks are its reservations, sweeps and payouts older than the
    recorded month included: a release that guesses its row must find its amount there. */
module TreasurySweeps {
  import opened Wrappers
  import opened PayoutStateMachine
  import opened Ledgers
  import opened Journal
  import opened Tables
  import opened Treasury
  import opened TreasuryControl
  import opened TreasuryBooks
  import opened TreasuryRuns
  import opened TreasuryMoney

  /** A release or debit of payout i now would find too little on the row it targets. */
  predicate Short(db: Db, i: nat) {
    i < |db.payouts| &&
    var po := db.payouts[i];
    !FindsAmount(BookOf(db.books, po.fund), po.amount, po.lockedPeriod)
  }

  predicate ShortRelease(s: State, a: Action) {
    match a
    case Step(k, _) => k < |s.procs| && IsRelease(s.procs[k]) && Short(s.db, s.procs[k].i)
    case WorkerStep(_) => s.worker.SuccessRead? && Short(s.db, s.worker.i)
    case _ => false
  }

  ghost predicate NoShorts(c: Config, acts: seq<Action>) {
    forall j :: 0 <= j < |acts| ==> !ShortRelease(Exec(c, acts[..j]), acts[j])
  }

  // ----- One statement -----

  lemma ReleaseExact(db: Db, i: nat)
    requires MoneyBooks(db) && FundExact(db) && i < |db.payouts| && db.payouts[i].held && db.payouts[i].amount > 0
    ensures FundExact(ReleaseLock(db, i)) <==> !Short(db, i)
  {
    var po := db.payouts[i];
    var db' := ReleaseLock(db, i);
    LocksNonNegative(db, po.fund);
    ReleaseExactIff(BookOf(db.books, po.fund), po.amount, po.lockedPeriod);
    forall f ensures Reserved(db'.payouts, f) == Reserved(db.payouts, f) - if po.fund == f then po.amount else 0 {
      UnholdSums(db.payouts, i, db'.payouts[i], f, 0);
    }
    assert Total(BookOf(db.books, po.fund), SoftLock) == Reserved(db.payouts, po.fund);
    if FundExact(db') {
      assert Total(BookOf(db'.books, po.fund), SoftLock) == Reserved(db'.payouts, po.fund);
    }
  }

  lemma SettleExact(db: Db, i: nat, at: Clocks, fee: int)
    requires MoneyBooks(db) && FundExact(db) && i < |db.payouts| && db.payouts[i].held && db.payouts[i].amount > 0
    ensures FundExact(SettleSuccess(db, i, at, fee)) <==> !Short(db, i)
  {
    var po := db.payouts[i];
    var db' := SettleSuccess(db, i, at, fee);
    var l := BookOf(db.books, po.fund);
    LocksNonNegative(db, po.fund);
    DebitConservesIffLocked(l, at.node, po.amount, fee, po.lockedPeriod);
    DebitPaysOut(l, at.node, po.amount, fee, po.lockedPeriod);
    forall f ensures Reserved(db'.payouts, f) == Reserved(db.payouts, f) - if po.fund == f then po.amount else 0 {
      UnholdSums(db.payouts, i, db'.payouts[i], f, 0);
    }
    assert Total(l, SoftLock) == Reserved(db.payouts, po.fund);
    if FundExact(db') {
      assert Total(BookOf(db'.books, po.fund), SoftLock) == Reserved(db'.payouts, po.fund);
    }
  }

  lemma DebitPaysOut(l: Ledger, p: Period, amount: int, fee: int, recorded: Option<Period>)
    ensures Total(Debit(l, p, amount, fee, recorded), PaidOut) == Total(l, PaidOut) + amount
  {
    var l1 := DebitRow(l, p, amount, fee);
    DebitRowAllTotals(l, p, amount, fee);
    var target := ReleaseTarget(l1, recorded);
    if target.Some? && target.value in l1 {
      TotalPut(l1, target.value, Release(l1, amount, recorded)[target.value], PaidOut);
    }
  }

  lemma QuietExact(db: Db, db': Db)
    requires Quiet(db, db') && FundExact(db)
    ensures FundExact(db')
  {
    if db' != db {
      var i: nat, po :| i < |db.payouts| && SamePostings(db.payouts[i], po) && db' == PutPayout(db, i, po);
      QuietPut(db, i, po, SoftLock);
    }
  }

  lemma InflowExact(db: Db, account: Account, p: Period, amount: int, fee: int, ref: string)
    requires FundExact(db) && CreditInflow(db, account, p, amount, fee, ref).Some?
    ensures FundExact(CreditInflow(db, account, p, amount, fee, ref).value)
  {
    CreditTotals(BookOf(db.books, account.fund), p, amount, fee,
                 account.MemberVa? && !HasPriorGift(db.txs, account, p));
  }

  lemma CreateExact(db: Db, f: Fund, initiator: nat, amount: int, feeBuffer: nat, expiresAt: int, route: Route,
                    recorded: bool)
    requires FundExact(db) && LockAndCreate(db, f, initiator, amount, feeBuffer, expiresAt, route, recorded).Some?
    ensures FundExact(LockAndCreate(db, f, initiator, amount, feeBuffer, expiresAt, route, recorded).value)
  {
    var db' := LockAndCreate(db, f, initiator, amount, feeBuffer, expiresAt, route, recorded).value;
    var l := BookOf(db.books, f);
    AddLockTotals(l, Latest(l.Keys), amount);
    forall g ensures Total(BookOf(db'.books, g), SoftLock) == Reserved(db'.payouts, g) {
      assert Total(BookOf(db.books, g), SoftLock) == Reserved(db.payouts, g);
      AppendSums(db.payouts, db'.payouts[|db.payouts|], SoftLock, g, 0);
    }
  }

  /** A refused sweep gives its lock back exactly: the row it just locked is the latest. */
  lemma SweepExact(db: Db, f: Fund, actor: nat, minBalance: int, feeBuffer: nat, expiresAt: int, accepted: bool)
    requires MoneyBooks(db) && FundExact(db)
    ensures FundExact(Sweep(db, f, actor, minBalance, feeBuffer, expiresAt, accepted))
  {
    var amount := SweepAmount(db, f, minBalance, feeBuffer);
    if amount != 0 {
      var db' := Sweep(db, f, actor, minBalance, feeBuffer, expiresAt, accepted);
      var l := BookOf(db.books, f);
      assert l != map[] by {
        assert l == map[] ==> Total(l, Net) == 0;
      }
      LocksNonNegative(db, f);
      SweepLockTotals(l, amount);
      var po := db'.payouts[|db.payouts|];
      forall g ensures Total(BookOf(db'.books, g), SoftLock) == Reserved(db'.payouts, g) {
        assert Total(BookOf(db.books, g), SoftLock) == Reserved(db.payouts, g);
        AppendSums(db.payouts, po, SoftLock, g, 0);
      }
    }
  }

  lemma SweepLockTotals(l: Ledger, amount: int)
    requires l != map[] && amount > 0 && forall p :: p in l ==> l[p].softLock >= 0
    ensures Total(LockLatest(l, amount), SoftLock) == Total(l, SoftLock) + amount
    ensures Total(Release(LockLatest(l, amount), amount, None), SoftLock) == Total(l, SoftLock)
  {
    var p := Latest(l.Keys);
    var locked := AddLock(l, p, amount);
    AddLockTotals(l, p, amount);
    assert p in LockedPeriods(locked);
    assert Latest(LockedPeriods(locked)) == p;
    ReleaseExactIff(locked, amount, None);
  }

  /** The conflict branch keeps the total exactly when the row it targets holds nothing. */
  lemma ConflictExact(c: Config, s: State, a: Action)
    requires Control(c, s) && MoneyBooks(s.db) && FundExact(s.db)
    requires a.Step? && a.proc < |s.procs| && s.procs[a.proc].ManualConflict?
    ensures FundExact(Apply(c, s, a).db) <==> !StealsLock(s, a)
  {
    hide ApplyProc, Control, MoneyBooks, FundExact, ReleaseRows, TakesLock;
    var i := s.procs[a.proc].i;
    ConflictWrites(c, s, a.proc, a.accepted);
    AllAmountsPositive(c, s);
    ReleaseRowsExact(s.db, i);
  }

  lemma ReleaseRowsExact(db: Db, i: nat)
    requires MoneyBooks(db) && FundExact(db) && i < |db.payouts| && db.payouts[i].amount > 0
    ensures var po := db.payouts[i];
      FundExact(db.(books := ReleaseRows(db, i))) <==> !TakesLock(BookOf(db.books, po.fund), po.lockedPeriod)
  {
    var po, db' := db.payouts[i], db.(books := ReleaseRows(db, i));
    var l := BookOf(db.books, po.fund);
    LocksNonNegative(db, po.fund);
    hide MoneyBooks;
    ReleaseTakes(l, po.amount, po.lockedPeriod);
    assert Total(l, SoftLock) == Reserved(db.payouts, po.fund);
    assert BookOf(db'.books, po.fund) == Release(l, po.amount, po.lockedPeriod);
    if FundExact(db') {
      assert Total(BookOf(db'.books, po.fund), SoftLock) == Reserved(db'.payouts, po.fund);
    }
  }

  lemma ReleaseTakes(l: Ledger, amount: int, recorded: Option<Period>)
    requires amount > 0 && forall p :: p in l ==> l[p].softLock >= 0
    ensures Total(Release(l, amount, recorded), SoftLock) == Total(l, SoftLock) <==> !TakesLock(l, recorded)
  {
    var target := ReleaseTarget(l, recorded);
    if target.Some? && target.value in l {
      TotalPut(l, target.value, Release(l, amount, recorded)[target.value], SoftLock);
    }
  }

  // ----- One action -----

  lemma StepExactIff(c: Config, s: State, a: Action)
    requires Control(c, s) && MoneyBooks(s.db) && FundExact(s.db) && a.Step?
    ensures FundExact(Apply(c, s, a).db) <==> !StealsLock(s, a) && !ShortRelease(s, a)
  {
    hide ApplyProc, FundExact;
    if a.proc < |s.procs| {
      var pr := s.procs[a.proc];
      StepWrites(c, s, a.proc, a.accepted);
      AllAmountsPositive(c, s);
      if IsRelease(pr) {
        ReleaseExact(s.db, pr.i);
      } else if pr.ManualConflict? {
        ConflictExact(c, s, a);
      } else {
        QuietExact(s.db, Apply(c, s, a).db);
      }
    }
  }

  lemma WorkerExactIff(c: Config, s: State, at: Clocks)
    requires Control(c, s) && MoneyBooks(s.db) && FundExact(s.db)
    ensures FundExact(ApplyWorker(s, at).db) <==> !ShortRelease(s, WorkerStep(at))
  {
    hide FundExact;
    match s.worker
    case Idle =>
    case SuccessRead(i, fee) =>
      assert PayoutOk(c, s.db.payouts[i]);
      SettleExact(s.db, i, at, fee);
    case FailureRead(i) =>
      FailureIsQuiet(s, i);
      QuietExact(s.db, SettleFailure(s.db, i));
  }

  lemma ApplyExactIff(c: Config, s: State, a: Action)
    requires Control(c, s) && MoneyBooks(s.db) && FundExact(s.db)
    ensures FundExact(Apply(c, s, a).db) <==> !StealsLock(s, a) && !ShortRelease(s, a)
  {
    hide FundExact, MoneyBooks, Control, CreditInflow, LockAndCreate, Sweep, ApplyWorker, ApplyProc;
    var db' := Apply(c, s, a).db;
    match a
    case Step(_, _) => StepExactIff(c, s, a);
    case WorkerStep(at) => WorkerExactIff(c, s, at);
    case Inflow(account, period, amount, fee, ref) =>
      if db' != s.db { InflowExact(s.db, account, period, amount, fee, ref); }
    case Initiate(fund, admin, amount, _, expiresAt, recorded) =>
      if db' != s.db {
        CreateExact(s.db, fund, admin, amount, c.feeBuffer, expiresAt,
                    if amount < s.policy.threshold then Direct else Governed, recorded);
      }
    case Sweeping(fund, admin, minBalance, expiresAt, accepted) =>
      SweepExact(s.db, fund, admin, minBalance, c.feeBuffer, expiresAt, accepted);
    case _ =>
  }

  // ----- Whole runs -----

  ghost predicate ExactThroughout(c: Config, acts: seq<Action>) {
    forall j :: 0 <= j <= |acts| ==> FundExact(Exec(c, acts[..j]).db)
  }

  lemma ExactSnoc(c: Config, before: seq<Action>, a: Action)
    ensures ExactThroughout(c, before + [a]) <==> ExactThroughout(c, before) && FundExact(Exec(c, before + [a]).db)
    ensures ExactThroughout(c, before) ==> FundExact(Exec(c, before).db)
  {
    hide Exec, FundExact;
    var acts := before + [a];
    assert acts[..|acts|] == acts && before[..|before|] == before;
    assert forall j :: 0 <= j <= |before| ==> before[..j] == acts[..j];
    if ExactThroughout(c, acts) {
      assert FundExact(Exec(c, acts[..|acts|]).db);
      forall j | 0 <= j <= |before| ensures FundExact(Exec(c, before[..j]).db) {
        assert FundExact(Exec(c, acts[..j]).db);
      }
    }
    if ExactThroughout(c, before) {
      assert FundExact(Exec(c, before[..|before|]).db);
    }
  }

  lemma UndisturbedSnoc(c: Config, before: seq<Action>, a: Action)
    ensures NoSteals(c, before + [a]) && NoShorts(c, before + [a]) <==>
      NoSteals(c, before) && NoShorts(c, before) && !StealsLock(Exec(c, before), a) && !ShortRelease(Exec(c, before), a)
  {
    hide Exec, StealsLock, ShortRelease;
    var acts := before + [a];
    assert acts[..|before|] == before;
    assert forall j :: 0 <= j < |before| ==> before[..j] == acts[..j] && before[j] == acts[j];
    if NoSteals(c, acts) && NoShorts(c, acts) {
      assert !StealsLock(Exec(c, acts[..|before|]), acts[|before|]);
      forall j | 0 <= j < |before|
        ensures !StealsLock(Exec(c, before[..j]), before[j]) && !ShortRelease(Exec(c, before[..j]), before[j])
      {
        assert !StealsLock(Exec(c, acts[..j]), acts[j]) && !ShortRelease(Exec(c, acts[..j]), acts[j]);
      }
    } else if NoSteals(c, before) && NoShorts(c, before)
              && !StealsLock(Exec(c, before), a) && !ShortRelease(Exec(c, before), a) {
      forall j | 0 <= j < |acts|
        ensures !StealsLock(Exec(c, acts[..j]), acts[j]) && !ShortRelease(Exec(c, acts[..j]), acts[j])
      {
        if j < |before| {
          assert !StealsLock(Exec(c, before[..j]), before[j]) && !ShortRelease(Exec(c, before[..j]), before[j]);
        }
      }
    }
  }

  /** Over every run, with sweeps, unrecorded months and conflicts: at every point each fund's
      locks total exactly its reservations, if and only if the conflict branch never took a
      lock and no release or debit ever found less than its amount on the row it targeted. */
  lemma {:induction false} FundLocksExactIff(c: Config, acts: seq<Action>)
    ensures NoSteals(c, acts) && NoShorts(c, acts) <==> ExactThroughout(c, acts)
    decreases |acts|
  {
    hide Apply, FundExact, StealsLock, ShortRelease, NoSteals, NoShorts, ExactThroughout;
    if acts == [] {
      EmptyIsExact(c);
    } else {
      var before, a := acts[..|acts| - 1], acts[|acts| - 1];
      assert acts == before + [a];
      FundLocksExactIff(c, before);
      ExactSnoc(c, before, a);
      UndisturbedSnoc(c, before, a);
      if ExactThroughout(c, before) {
        ControlHolds(c, before);
        MoneyHolds(c, before);
        ApplyExactIff(c, Exec(c, before), a);
      }
    }
  }

  lemma EmptyIsExact(c: Config)
    ensures NoSteals(c, []) && NoShorts(c, []) && ExactThroughout(c, [])
  {
  }

  /** So in such runs getBalance's available amount is the one recomputed from transactions,
      TRANSFERRED payouts and the payouts that are live or owed a release. */
  lemma BalanceRefinesRawRows(c: Config, acts: seq<Action>, f: Fund)
    requires NoSteals(c, acts) && NoShorts(c, acts)
    ensures var s := Exec(c, acts);
      && Total(BookOf(s.db.books, f), Net) == TableBalance(s, f)
      && Available(BookOf(s.db.books, f)) == Max(0, TableBalance(s, f))
  {
    hide Apply;
    FundLocksExactIff(c, acts);
    assert acts[..|acts|] == acts;
    ControlHolds(c, acts);
    MoneyHolds(c, acts);
    ExactBalance(c, Exec(c, acts), f);
  }

  /** With every lock's month on record nothing falls short. */
  lemma RecordedNeverShort(c: Config, acts: seq<Action>)
    requires NoSteals(c, acts) && MonthsRecorded(acts)
    ensures NoShorts(c, acts)
  {
    hide Apply;
    forall j | 0 <= j < |acts| ensures !ShortRelease(Exec(c, acts[..j]), acts[j]) {
      PrefixNoSteals(c, acts, j);
      var s := Exec(c, acts[..j]);
      if acts[j].Step? && acts[j].proc < |s.procs| && IsRelease(s.procs[acts[j].proc]) {
        var i := s.procs[acts[j].proc].i;
        ControlHolds(c, acts[..j]);
        assert ProcOk(c, s, s.procs[acts[j].proc]);
        assert Owed(s, i);
        ClampNeverBites(c, acts[..j], i);
      } else if acts[j].WorkerStep? && s.worker.SuccessRead? {
        ControlHolds(c, acts[..j]);
        ClampNeverBites(c, acts[..j], s.worker.i);
      }
    }
  }
}
