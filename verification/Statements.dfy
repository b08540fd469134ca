/** What an inflow, a creation, a sweep, a request and a cancel do, told row by row and month
    by month from the stored fields alone. */
module Statements {
  import opened Wrappers
  import opened PayoutStateMachine
  import opened Ledgers
  import opened Tables
  import opened Treasury
  import opened PayoutServices
  import opened ServiceRefinement

  function RowOf(db: Db, f: Fund, p: Period): Row {
    RowAt(BookOf(db.books, f), p)
  }

  /** A payment is taken exactly when it is positive and its reference is new among members'
      payments or among shared accounts'. It then raises one row, that of the account's own
      fund and the payment's month: the giver count by a member's first payment there. */
  lemma InflowMeaning(db: Db, account: Account, p: Period, amount: int, fee: int, ref: string)
    ensures var credited := CreditInflow(db, account, p, amount, fee, ref);
      && (credited.Some? <==>
            && amount > 0
            && forall k :: 0 <= k < |db.txs| && db.txs[k].account.MemberVa? == account.MemberVa? ==>
                 db.txs[k].ref != ref)
      && (credited.Some? ==>
            var db' := credited.value;
            && db'.payouts == db.payouts && db'.txs == db.txs + [Tx(account, p, amount, fee, ref)]
            && forall f, q ::
                 var r := RowOf(db, f, q);
                 var first := account.MemberVa? && forall k ::
                   0 <= k < |db.txs| ==> db.txs[k].account != account || db.txs[k].period != p;
                 RowOf(db', f, q) == if f == account.fund && q == p
                                     then Row(r.collected + amount, r.paidOut, r.fees + fee, r.softLock,
                                              r.givers + (if first then 1 else 0), r.count + 1)
                                     else r)
  {
  }

  ghost predicate IsLatest(l: Ledger, p: Period) {
    p in l && forall q :: q in l ==> q <= p
  }

  /** Only one row's lock differs, by `amount`. */
  ghost predicate LocksOn(db: Db, db': Db, f: Fund, p: Period, amount: int) {
    forall g, q ::
      var r := RowOf(db, g, q);
      RowOf(db', g, q) == if g == f && q == p then r.(softLock := r.softLock + amount) else r
  }

  /** What the rows leave: collected less fees, payments and locks. */
  function Balance(l: Ledger): int {
    Total(l, Collected) - Total(l, Fees) - Total(l, PaidOut) - Total(l, SoftLock)
  }

  /** A payout is created exactly when it is positive, the fund has a row and the balance
      covers amount and headroom. It then stands last in the table as its caller described
      it, PENDING and not called for, and its amount is locked on the latest month. */
  lemma CreationMeaning(db: Db, f: Fund, initiator: Admin, amount: int, feeBuffer: nat, expiresAt: int, route: Route,
                        recorded: bool)
    ensures var l := BookOf(db.books, f);
      var created := LockAndCreate(db, f, initiator, amount, feeBuffer, expiresAt, route, recorded);
      && (created.Some? <==> amount > 0 && l != map[] && Balance(l) >= amount + feeBuffer)
      && (created.Some? ==>
            var db', n := created.value, |db.payouts|;
            && db'.txs == db.txs && |db'.payouts| == n + 1 && db'.payouts[..n] == db.payouts
            && var po := db'.payouts[n];
               && po.fund == f && po.initiator == initiator && po.amount == amount && po.expiresAt == expiresAt
               && po.route == route && po.status == Pending && !po.hasRef && po.fee == 0 && po.executedIn == None
               && exists p :: IsLatest(l, p) && po.lockedPeriod == (if recorded then Some(p) else None)
                              && LocksOn(db, db', f, p, amount))
  {
    var l := BookOf(db.books, f);
    TotalNet(l);
    if l != map[] {
      assert IsLatest(l, Latest(l.Keys));
    }
  }

  /** Routing by threshold, and the gate of the approval route: enough signatories, all
      different, none with the initiator's email. */
  lemma InitiateMeaning(c: Config, s: State, fund: Fund, admin: Admin, amount: int, eligible: seq<Signatory>,
                        expiresAt: int, recorded: bool)
    ensures var direct, n := amount < s.policy.threshold, |s.db.payouts|;
      var gate :=
        && |eligible| >= s.policy.minApprovers
        && (forall j, k :: 0 <= j < k < |eligible| ==> eligible[j] != eligible[k])
        && forall k :: 0 <= k < |eligible| && eligible[k] in c.signatoryEmail && admin in c.adminEmail ==>
             Lower(c.signatoryEmail[eligible[k]]) != Lower(c.adminEmail[admin]);
      var created := LockAndCreate(s.db, fund, admin, amount, c.feeBuffer, expiresAt,
                                   if direct then Direct else Governed, recorded);
      Apply(c, s, Initiate(fund, admin, amount, eligible, expiresAt, recorded))
      == if (direct || gate) && created.Some?
         then s.(db := created.value,
                 procs := s.procs + [if direct then ManualCreated(n) else Issuing(n, eligible)])
         else s
  {
    hide LockAndCreate;
    NoneSharesEmail(c, eligible, admin);
  }

  lemma NoneSharesEmail(c: Config, eligible: seq<Signatory>, admin: Admin)
    ensures !(exists sig :: sig in eligible && SharesEmail(c, sig, admin)) <==>
      forall k :: 0 <= k < |eligible| && eligible[k] in c.signatoryEmail && admin in c.adminEmail ==>
        Lower(c.signatoryEmail[eligible[k]]) != Lower(c.adminEmail[admin])
  {
    if exists sig :: sig in eligible && SharesEmail(c, sig, admin) {
      var sig :| sig in eligible && SharesEmail(c, sig, admin);
      var k :| 0 <= k < |eligible| && eligible[k] == sig;
    } else {
      forall k | 0 <= k < |eligible| ensures !SharesEmail(c, eligible[k], admin) {
        assert eligible[k] in eligible;
      }
    }
  }

  /** A created payout that nobody touches is expired by a scan, and its lock given back, if
      and only if the scan's clock has passed the deadline it was created with. */
  lemma ScanExpiresIffOverdue(c: Config, s: State, a: Action, now: int) returns (s': State)
    requires a.Initiate? && Apply(c, s, a) != s
    ensures var i, created := |s.db.payouts|, Apply(c, s, a);
      && (exists steps :: s' == ApplyAll(c, created, [ScanOverdue(now)] + Alone(|created.procs|, steps, true)))
      && s'.procs == created.procs + [Done]
      && |created.db.payouts| == |s'.db.payouts| == i + 1
      && s'.db.payouts[i] == if a.expiresAt < now then created.db.payouts[i].(status := Expired, held := false)
                             else created.db.payouts[i]
  {
    InitiateMeaning(c, s, a.fund, a.admin, a.amount, a.eligible, a.expiresAt, a.recorded);
    CreationMeaning(s.db, a.fund, a.admin, a.amount, c.feeBuffer, a.expiresAt,
                    if a.amount < s.policy.threshold then Direct else Governed, a.recorded);
    var created := Apply(c, s, a);
    hide LockAndCreate;
    s' := ScanRuns(c, created, now);
  }

  /** A whole scan with nobody else moving. */
  lemma ScanRuns(c: Config, s: State, now: int) returns (s': State)
    ensures exists steps :: s' == ApplyAll(c, s, [ScanOverdue(now)] + Alone(|s.procs|, steps, true))
    ensures s'.procs == s.procs + [Done] && |s'.db.payouts| == |s.db.payouts|
    ensures forall i :: 0 <= i < |s.db.payouts| ==>
      var po := s.db.payouts[i];
      s'.db.payouts[i] == if (po.status == Pending || po.status == Partial) && po.expiresAt < now
                          then po.(status := Expired, held := false) else po
  {
    var k, ids := |s.procs|, Overdue(s.db.payouts, now);
    var scanning := Apply(c, s, ScanOverdue(now));
    assert scanning == s.(procs := s.procs + [Expiring(ids)]);
    var steps := JobSteps(s.db, ids);
    JobIsService(scanning, k, ids, true);
    AloneIsRunAlone(c, scanning, k, steps, true);
    ExpiryMeaning(s.db, now);
    hide Apply, RunAlone, JobSteps, ExpireEach;
    assert ([ScanOverdue(now)] + Alone(k, steps, true))[1..] == Alone(k, steps, true);
    s' := ApplyAll(c, s, [ScanOverdue(now)] + Alone(k, steps, true));
    assert scanning.procs[k := Done] == s.procs + [Done];
  }

  /** A sweep takes what is there less the headroom, or does nothing: when the fund has
      nothing, less than the minimum, or no more than the headroom. An accepted transfer
      leaves the amount locked on the latest month; a refused one leaves no lock behind. */
  lemma SweepMeaning(c: Config, s: State, fund: Fund, admin: Admin, minBalance: int, expiresAt: int, accepted: bool)
    requires forall p :: p in BookOf(s.db.books, fund) ==> BookOf(s.db.books, fund)[p].softLock >= 0
    ensures var l, n := BookOf(s.db.books, fund), |s.db.payouts|;
      var s' := Apply(c, s, Sweeping(fund, admin, minBalance, expiresAt, accepted));
      if Balance(l) <= 0 || Balance(l) < minBalance || Balance(l) <= c.feeBuffer then s' == s
      else
        && s' == s.(db := s'.db) && s'.db.txs == s.db.txs
        && |s'.db.payouts| == n + 1 && s'.db.payouts[..n] == s.db.payouts
        && (var po := s'.db.payouts[n];
            && po.fund == fund && po.initiator == admin && po.amount == Balance(l) - c.feeBuffer
            && po.expiresAt == expiresAt && po.route == Swept && po.lockedPeriod == None
            && po.hasRef == accepted && po.status == (if accepted then Transferring else Failed))
        && exists p :: IsLatest(l, p) &&
             LocksOn(s.db, s'.db, fund, p, if accepted then Balance(l) - c.feeBuffer else 0)
  {
    var l := BookOf(s.db.books, fund);
    TotalNet(l);
    if !(Balance(l) <= 0 || Balance(l) < minBalance || Balance(l) <= c.feeBuffer) {
      assert l != map[] by {
        assert l == map[] ==> Total(l, Net) == 0;
      }
      var p, amount := Latest(l.Keys), Balance(l) - c.feeBuffer;
      var locked := LockLatest(l, amount);
      assert IsLatest(l, p);
      assert p in LockedPeriods(locked) && Latest(LockedPeriods(locked)) == p;
      assert Release(locked, amount, None)[p] == l[p];
      SweepLocks(s.db, fund, admin, minBalance, c.feeBuffer, expiresAt, accepted, p);
    }
  }

  lemma SweepLocks(db: Db, f: Fund, actor: Admin, minBalance: int, feeBuffer: nat, expiresAt: int, accepted: bool,
                   p: Period)
    requires var l, amount := BookOf(db.books, f), SweepAmount(db, f, minBalance, feeBuffer);
      && amount > 0 && l != map[] && p == Latest(l.Keys)
      && p in LockedPeriods(LockLatest(l, amount)) && Latest(LockedPeriods(LockLatest(l, amount))) == p
      && l[p].softLock >= 0
    ensures LocksOn(db, Sweep(db, f, actor, minBalance, feeBuffer, expiresAt, accepted), f, p,
                    if accepted then SweepAmount(db, f, minBalance, feeBuffer) else 0)
  {
    hide SweepAmount;
  }

  /** A signatory's link starts a request exactly when its token is there and unused, its
      payout exists, and the signatory does not have the initiator's email. */
  lemma PresentMeaning(c: Config, s: State, i: nat, sig: Signatory, act: Act)
    ensures var approvals, payouts := s.approvals, s.db.payouts;
      Apply(c, s, Present(i, sig, act))
      == if (i, sig) in approvals && approvals[(i, sig)] == None && i < |payouts|
            && !(sig in c.signatoryEmail && payouts[i].initiator in c.adminEmail
                 && Lower(c.signatoryEmail[sig]) == Lower(c.adminEmail[payouts[i].initiator]))
         then s.(procs := s.procs + [Verified(i, sig, act)]) else s
  {
  }

  /** The worker, when free, takes up an outcome exactly when its payout is TRANSFERRING with
      the reference stored. */
  lemma DeliverMeaning(c: Config, s: State, i: nat, fee: int)
    ensures var taken :=
        s.worker == Idle && i < |s.db.payouts| && s.db.payouts[i].hasRef && s.db.payouts[i].status == Transferring;
      && Apply(c, s, DeliverSuccess(i, fee)) == (if taken then s.(worker := SuccessRead(i, fee)) else s)
      && Apply(c, s, DeliverFailure(i)) == (if taken then s.(worker := FailureRead(i)) else s)
  {
  }

  /** Only its initiator cancels a payout, and only while it is PENDING; its row then says
      CANCELLED, every other row stands, and no money column moves in any month. */
  lemma CancelMeaning(db: Db, i: nat, requestedBy: Admin)
    ensures var cancelled := CancelRow(db, i, requestedBy);
      && (cancelled.Some? <==>
            i < |db.payouts| && db.payouts[i].initiator == requestedBy && db.payouts[i].status == Pending)
      && (cancelled.Some? ==>
            var db' := cancelled.value;
            && db'.txs == db.txs
            && db'.payouts == db.payouts[i := db.payouts[i].(status := Cancelled, held := false)]
            && forall f, q :: RowOf(db', f, q).(softLock := 0) == RowOf(db, f, q).(softLock := 0))
  {
  }
}
