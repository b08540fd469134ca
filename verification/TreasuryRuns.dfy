/** The books along every run: which steps write them, and what survives each. */
module TreasuryRuns {
  import opened Wrappers
  import opened PayoutStateMachine
  import opened Ledgers
  import opened Journal
  import opened Tables
  import opened Treasury
  import opened TreasuryControl
  import opened TreasuryBooks

  /** A row rewritten without posting anything, or no write at all. */
  ghost predicate Quiet(db: Db, db': Db) {
    || db' == db
    || exists i: nat, po :: i < |db.payouts| && SamePostings(db.payouts[i], po) && db' == PutPayout(db, i, po)
  }

  lemma QuietPreserves(db: Db, db': Db)
    requires Quiet(db, db')
    ensures MoneyBooks(db) ==> MoneyBooks(db')
    ensures LockBooks(db) ==> LockBooks(db')
    ensures LocksCover(db) ==> LocksCover(db')
  {
    if db' != db {
      var i: nat, po :| i < |db.payouts| && SamePostings(db.payouts[i], po) && db' == PutPayout(db, i, po);
      QuietKeepsBooks(db, i, po);
    }
  }

  lemma QuietBy(db: Db, i: nat, po: Payout)
    requires i < |db.payouts| && SamePostings(db.payouts[i], po)
    ensures Quiet(db, PutPayout(db, i, po))
  {
  }

  predicate IsRelease(pr: Proc) {
    pr.Releasing? || pr.ExpiringRelease?
  }

  /** Only a release and the manual conflict branch write the books; every other process
      step leaves all sums alone. */
  lemma StepWrites(c: Config, s: State, k: nat, accepted: bool)
    requires Control(c, s) && k < |s.procs|
    ensures var pr := s.procs[k]; var db' := ApplyProc(s, k, accepted).db;
      if IsRelease(pr) then pr.i < |s.db.payouts| && s.db.payouts[pr.i].held && db' == ReleaseLock(s.db, pr.i)
      else if pr.ManualConflict? then pr.i < |s.db.payouts| && db' == s.db.(books := ReleaseRows(s.db, pr.i))
      else Quiet(s.db, db')
  {
    hide ApplyProc;
    if OwnerOf(s.procs[k]).Some? {
      OwnerWrites(c, s, k, accepted);
    } else if s.procs[k].ManualConflict? {
      ConflictWrites(c, s, k, accepted);
    } else if s.procs[k].Counted? {
      CountedWrites(c, s, k, accepted);
    } else {
      RequestWrites(c, s, k, accepted);
    }
  }

  lemma OwnerWrites(c: Config, s: State, k: nat, accepted: bool)
    requires Control(c, s) && k < |s.procs| && OwnerOf(s.procs[k]).Some?
    ensures var pr := s.procs[k]; var db' := ApplyProc(s, k, accepted).db;
      if IsRelease(pr) then pr.i < |s.db.payouts| && s.db.payouts[pr.i].held && db' == ReleaseLock(s.db, pr.i)
      else Quiet(s.db, db')
  {
    var pr := s.procs[k];
    var db' := ApplyProc(s, k, accepted).db;
    assert ProcOk(c, s, pr);
    if !IsRelease(pr) && db' != s.db {
      QuietBy(s.db, pr.i, db'.payouts[pr.i]);
    }
  }

  lemma ConflictWrites(c: Config, s: State, k: nat, accepted: bool)
    requires Control(c, s) && k < |s.procs| && s.procs[k].ManualConflict?
    ensures var i := s.procs[k].i;
      i < |s.db.payouts| && ApplyProc(s, k, accepted).db == s.db.(books := ReleaseRows(s.db, i))
  {
    assert ProcOk(c, s, s.procs[k]);
  }

  /** Between statuses other than TRANSFERRED a compare-and-set posts nothing. */
  lemma CasIsQuiet(s: State, k: nat, i: nat, from: set<Status>, to: Status, won: Proc, lost: Proc)
    requires k < |s.procs| && Transferred !in from && to != Transferred
    ensures Quiet(s.db, Cas(s, k, i, from, to, won, lost).db)
  {
    if i < |s.db.payouts| && s.db.payouts[i].status in from {
      QuietBy(s.db, i, s.db.payouts[i].(status := to));
    }
  }

  lemma CountedWrites(c: Config, s: State, k: nat, accepted: bool)
    requires Control(c, s) && k < |s.procs| && s.procs[k].Counted?
    ensures Quiet(s.db, ApplyProc(s, k, accepted).db)
  {
    var Counted(i, status, tally) := s.procs[k];
    hide Control, ReadQuorum, Quiet, SamePostings;
    if !tally.QuorumReached() {
      hide Cas;
      CasIsQuiet(s, k, i, AWAITING, Partial, Done, Done);
      NoWriteIsQuiet(s.db);
    } else {
      NoWriteIsQuiet(s.db);
      if i < |s.db.payouts| && IsAwaiting(s.db.payouts[i].status) {
        WonIsQuiet(s.db, i, tally);
      }
    }
  }

  lemma NoWriteIsQuiet(db: Db)
    ensures Quiet(db, db)
  {
  }

  lemma WonIsQuiet(db: Db, i: nat, tally: Tally)
    requires i < |db.payouts| && IsAwaiting(db.payouts[i].status)
    ensures var approved := UpdateStatus(db, i, Approved);
      Quiet(db, PutPayout(approved, i, approved.payouts[i].(tally := Some(tally))))
  {
    var po := db.payouts[i].(status := Approved, tally := Some(tally));
    QuietBy(db, i, po);
    assert PutPayout(UpdateStatus(db, i, Approved), i, po) == PutPayout(db, i, po);
  }

  lemma RequestWrites(c: Config, s: State, k: nat, accepted: bool)
    requires Control(c, s) && k < |s.procs| && OwnerOf(s.procs[k]).None?
    requires !s.procs[k].ManualConflict? && !s.procs[k].Counted?
    ensures Quiet(s.db, ApplyProc(s, k, accepted).db)
  {
    var pr := s.procs[k];
    var db' := ApplyProc(s, k, accepted).db;
    assert ProcOk(c, s, pr);
    if db' != s.db {
      var i := if pr.Expiring? then pr.todo[0] else pr.i;
      QuietBy(s.db, i, db'.payouts[i]);
    }
  }

  lemma AllAmountsPositive(c: Config, s: State)
    requires Control(c, s)
    ensures PositiveAmounts(s.db.payouts)
  {
    forall i | 0 <= i < |s.db.payouts| ensures s.db.payouts[i].amount > 0 {
      assert PayoutOk(c, s.db.payouts[i]);
    }
  }

  // ----- Money columns: every run -----

  lemma ApplyKeepsMoney(c: Config, s: State, a: Action)
    requires Control(c, s) && MoneyBooks(s.db)
    ensures MoneyBooks(Apply(c, s, a).db)
  {
    AllAmountsPositive(c, s);
    var s' := Apply(c, s, a);
    match a
    case Inflow(account, period, amount, fee, ref) =>
      if s'.db != s.db { InflowKeepsMoney(s.db, account, period, amount, fee, ref); }
    case Initiate(fund, admin, amount, _, expiresAt, recorded) =>
      if s'.db != s.db {
        CreateKeepsBooks(s.db, fund, admin, amount, c.feeBuffer, expiresAt, s'.db.payouts[|s.db.payouts|].route,
                         recorded);
      }
    case Sweeping(fund, admin, minBalance, expiresAt, accepted) =>
      SweepKeepsMoney(s.db, fund, admin, minBalance, c.feeBuffer, expiresAt, accepted);
    case WorkerStep(at) => WorkerKeepsMoney(c, s, at);
    case Step(k, accepted) =>
      if k < |s.procs| {
        StepWrites(c, s, k, accepted);
        if IsRelease(s.procs[k]) || s.procs[k].ManualConflict? {
          ReleaseRowsKeepsMoney(s.db, s.procs[k].i);
        } else {
          QuietPreserves(s.db, s'.db);
        }
      }
    case _ =>
  }

  lemma WorkerKeepsMoney(c: Config, s: State, at: Clocks)
    requires Control(c, s) && MoneyBooks(s.db)
    ensures MoneyBooks(ApplyWorker(s, at).db)
  {
    AllAmountsPositive(c, s);
    match s.worker
    case Idle =>
    case SuccessRead(i, fee) => SettleKeepsMoney(s.db, i, at, fee);
    case FailureRead(i) => FailureIsQuiet(s, i);
  }

  lemma FailureIsQuiet(s: State, i: nat)
    requires CanSettle(s.db, i)
    ensures Quiet(s.db, SettleFailure(s.db, i))
    ensures MoneyBooks(s.db) ==> MoneyBooks(SettleFailure(s.db, i))
    ensures LockBooks(s.db) ==> LockBooks(SettleFailure(s.db, i))
    ensures LocksCover(s.db) ==> LocksCover(SettleFailure(s.db, i))
  {
    QuietBy(s.db, i, SettleFailure(s.db, i).payouts[i]);
    QuietPreserves(s.db, SettleFailure(s.db, i));
  }

  lemma {:induction false} MoneyHolds(c: Config, acts: seq<Action>)
    ensures MoneyBooks(Exec(c, acts).db)
    decreases |acts|
  {
    hide Apply;
    if acts == [] {
      forall f, p ensures MoneyCell(EMPTY_DB, f, p) {
        assert GiversOf([], f, p) == {};
      }
    } else {
      var n := |acts| - 1;
      MoneyHolds(c, acts[..n]);
      ControlHolds(c, acts[..n]);
      ApplyKeepsMoney(c, Exec(c, acts[..n]), acts[n]);
    }
  }

  // ----- Locks: runs in which no conflicting manual caller takes a lock back -----

  /** The manual caller's conflict branch about to take a lock off its row. */
  predicate StealsLock(s: State, a: Action) {
    && a.Step? && a.proc < |s.procs| && s.procs[a.proc].ManualConflict?
    && var i := s.procs[a.proc].i;
       i < |s.db.payouts| && TakesLock(BookOf(s.db.books, s.db.payouts[i].fund), s.db.payouts[i].lockedPeriod)
  }

  /** The row a release targets, recorded or guessed, holds a lock. */
  predicate TakesLock(l: Ledger, recorded: Option<Period>) {
    var target := ReleaseTarget(l, recorded);
    target.Some? && RowAt(l, target.value).softLock > 0
  }

  ghost predicate NoSteals(c: Config, acts: seq<Action>) {
    forall j :: 0 <= j < |acts| ==> !StealsLock(Exec(c, acts[..j]), acts[j])
  }

  /** No sweeps, and no payouts created before the locked month was kept. */
  predicate MonthsRecorded(acts: seq<Action>) {
    forall j :: 0 <= j < |acts| ==> RecordsMonth(acts[j])
  }

  predicate RecordsMonth(a: Action) {
    !a.Sweeping? && (a.Initiate? ==> a.recorded)
  }

  predicate AllRecorded(db: Db) {
    forall i :: 0 <= i < |db.payouts| ==> db.payouts[i].lockedPeriod.Some?
  }

  /** A conflict release that finds no lock changes no cell. */
  lemma EmptyReleaseCells(c: Config, s: State, a: Action)
    requires Control(c, s) && MoneyBooks(s.db)
    requires a.Step? && a.proc < |s.procs| && s.procs[a.proc].ManualConflict? && !StealsLock(s, a)
    ensures var db' := Apply(c, s, a).db;
      db'.payouts == s.db.payouts && forall f :: BookOf(db'.books, f) == BookOf(s.db.books, f)
  {
    var i := s.procs[a.proc].i;
    assert ProcOk(c, s, s.procs[a.proc]);
    var po := s.db.payouts[i];
    assert PayoutOk(c, po);
    LocksNonNegative(s.db, po.fund);
    ReleaseNothing(BookOf(s.db.books, po.fund), po.amount, po.lockedPeriod);
    hide Ledgers.Release, Control, MoneyBooks, ProcOk, PayoutOk;
    assert Apply(c, s, a).db == s.db.(books := ReleaseRows(s.db, i));
  }

  lemma ReleaseNothing(l: Ledger, amount: int, recorded: Option<Period>)
    requires amount > 0 && !TakesLock(l, recorded) && forall p :: p in l ==> l[p].softLock >= 0
    ensures Release(l, amount, recorded) == l
  {
  }

  lemma WorkerKeepsLocks(c: Config, s: State, at: Clocks)
    requires Control(c, s) && LockBooks(s.db) && AllRecorded(s.db)
    ensures LockBooks(ApplyWorker(s, at).db)
  {
    AllAmountsPositive(c, s);
    match s.worker
    case Idle =>
    case SuccessRead(i, fee) =>
      assert PayoutOk(c, s.db.payouts[i]);
      SettleKeepsLocks(s.db, i, at, fee);
    case FailureRead(i) => FailureIsQuiet(s, i);
  }

  lemma StepKeepsLocks(c: Config, s: State, a: Action)
    requires Control(c, s) && MoneyBooks(s.db) && LockBooks(s.db) && AllRecorded(s.db)
    requires a.Step? && !StealsLock(s, a)
    ensures LockBooks(Apply(c, s, a).db)
  {
    if a.proc < |s.procs| {
      AllAmountsPositive(c, s);
      StepWrites(c, s, a.proc, a.accepted);
      var pr := s.procs[a.proc];
      var db' := Apply(c, s, a).db;
      if IsRelease(pr) {
        ReleaseKeepsLocks(s.db, pr.i);
      } else if pr.ManualConflict? {
        EmptyReleaseCells(c, s, a);
        forall f, p ensures LockCell(db', f, p) {
          assert LockCell(s.db, f, p);
        }
      } else {
        QuietPreserves(s.db, db');
      }
    }
  }

  lemma ApplyKeepsLocks(c: Config, s: State, a: Action)
    requires Control(c, s) && MoneyBooks(s.db) && LockBooks(s.db) && AllRecorded(s.db)
    requires !StealsLock(s, a) && RecordsMonth(a)
    ensures LockBooks(Apply(c, s, a).db)
  {
    var s' := Apply(c, s, a);
    match a
    case Inflow(account, period, amount, fee, ref) =>
      if s'.db != s.db { InflowKeepsLocks(s.db, account, period, amount, fee, ref); }
    case Initiate(fund, admin, amount, _, expiresAt, recorded) =>
      if s'.db != s.db {
        CreateKeepsBooks(s.db, fund, admin, amount, c.feeBuffer, expiresAt, s'.db.payouts[|s.db.payouts|].route,
                         recorded);
      }
    case WorkerStep(at) => WorkerKeepsLocks(c, s, at);
    case Step(_, _) => StepKeepsLocks(c, s, a);
    case _ =>
  }

  lemma ApplyKeepsRecorded(c: Config, s: State, a: Action)
    requires Control(c, s) && AllRecorded(s.db) && RecordsMonth(a)
    ensures AllRecorded(Apply(c, s, a).db)
  {
    if a.Step? && a.proc < |s.procs| {
      StepKeepsPeriods(c, s, a.proc, a.accepted);
    }
  }

  lemma StepKeepsPeriods(c: Config, s: State, k: nat, accepted: bool)
    requires Control(c, s) && k < |s.procs| && AllRecorded(s.db)
    ensures AllRecorded(ApplyProc(s, k, accepted).db)
  {
    hide ApplyProc, Control;
    StepWrites(c, s, k, accepted);
  }

  lemma {:induction false} LocksHold(c: Config, acts: seq<Action>)
    requires NoSteals(c, acts) && MonthsRecorded(acts)
    ensures LockBooks(Exec(c, acts).db) && AllRecorded(Exec(c, acts).db)
    decreases |acts|
  {
    hide Apply;
    if acts == [] {
      forall f, p ensures LockCell(EMPTY_DB, f, p) {
      }
    } else {
      var n := |acts| - 1;
      PrefixNoSteals(c, acts, n);
      LocksHold(c, acts[..n]);
      ControlHolds(c, acts[..n]);
      MoneyHolds(c, acts[..n]);
      ApplyKeepsLocks(c, Exec(c, acts[..n]), acts[n]);
      ApplyKeepsRecorded(c, Exec(c, acts[..n]), acts[n]);
    }
  }

  lemma PrefixNoSteals(c: Config, acts: seq<Action>, n: nat)
    requires NoSteals(c, acts) && n <= |acts|
    ensures NoSteals(c, acts[..n])
  {
    forall j | 0 <= j < n ensures !StealsLock(Exec(c, acts[..n][..j]), acts[..n][j]) {
      assert acts[..n][..j] == acts[..j];
    }
  }

  // ----- Cover: the same runs, months recorded or not -----

  lemma StepKeepsCover(c: Config, s: State, a: Action)
    requires Control(c, s) && MoneyBooks(s.db) && LocksCover(s.db)
    requires a.Step? && !StealsLock(s, a)
    ensures LocksCover(Apply(c, s, a).db)
  {
    if a.proc < |s.procs| {
      AllAmountsPositive(c, s);
      StepWrites(c, s, a.proc, a.accepted);
      var pr := s.procs[a.proc];
      var db' := Apply(c, s, a).db;
      if IsRelease(pr) {
        ReleaseKeepsCover(s.db, pr.i);
      } else if pr.ManualConflict? {
        EmptyReleaseCells(c, s, a);
      } else {
        QuietPreserves(s.db, db');
      }
    }
  }

  lemma WorkerKeepsCover(c: Config, s: State, at: Clocks)
    requires Control(c, s) && MoneyBooks(s.db) && LocksCover(s.db)
    ensures LocksCover(ApplyWorker(s, at).db)
  {
    match s.worker
    case Idle =>
    case SuccessRead(i, fee) =>
      assert PayoutOk(c, s.db.payouts[i]);
      SettleKeepsCover(s.db, i, at, fee);
    case FailureRead(i) => FailureIsQuiet(s, i);
  }

  lemma ApplyKeepsCover(c: Config, s: State, a: Action)
    requires Control(c, s) && MoneyBooks(s.db) && LocksCover(s.db) && !StealsLock(s, a)
    ensures LocksCover(Apply(c, s, a).db)
  {
    var s' := Apply(c, s, a);
    match a
    case Inflow(account, period, amount, fee, ref) =>
      if s'.db != s.db { InflowKeepsLocks(s.db, account, period, amount, fee, ref); }
    case Initiate(fund, admin, amount, _, expiresAt, recorded) =>
      if s'.db != s.db {
        CreateKeepsBooks(s.db, fund, admin, amount, c.feeBuffer, expiresAt, s'.db.payouts[|s.db.payouts|].route,
                         recorded);
      }
    case Sweeping(fund, admin, minBalance, expiresAt, accepted) =>
      SweepKeepsCover(s.db, fund, admin, minBalance, c.feeBuffer, expiresAt, accepted);
    case WorkerStep(at) => WorkerKeepsCover(c, s, at);
    case Step(_, _) => StepKeepsCover(c, s, a);
    case _ =>
  }

  lemma {:induction false} CoverHolds(c: Config, acts: seq<Action>)
    requires NoSteals(c, acts)
    ensures LocksCover(Exec(c, acts).db)
    decreases |acts|
  {
    hide Apply;
    if acts != [] {
      var n := |acts| - 1;
      PrefixNoSteals(c, acts, n);
      CoverHolds(c, acts[..n]);
      ControlHolds(c, acts[..n]);
      MoneyHolds(c, acts[..n]);
      ApplyKeepsCover(c, Exec(c, acts[..n]), acts[n]);
    }
  }
}
