/** The M-of-N approval service over its tables: issuing tokens and acting on one
    (src/modules/payouts/approvals/approval.service.ts). */
module ApprovalService {
  import opened Wrappers
  import opened PayoutStateMachine
  import Ledgers
  import opened Tables
  import opened Treasury
  import opened PayoutServices
  import opened ServiceRefinement

  type Approvals = map<(nat, Signatory), Option<Act>>

  datatype Outcome =
    | Refused            // token used or unknown, initiator, or payout no longer awaiting
    | DeclinedNow
    | PartialNow
    | StoppedAtPartial   // the 409 a payout already PARTIAL raises below quorum
    | TransferInitiated
    | TransferError

  /** Tokens issued to each signatory of the list. */
  function Issue(approvals: Approvals, i: nat, sigs: seq<Signatory>): Approvals
    decreases |sigs|
  {
    if sigs == [] then approvals else Issue(approvals[(i, sigs[0]) := None], i, sigs[1..])
  }

  lemma {:induction false} IssueMeaning(approvals: Approvals, i: nat, sigs: seq<Signatory>)
    ensures var issued := Issue(approvals, i, sigs);
      && (forall j, sig :: (j, sig) in issued <==> (j, sig) in approvals || (j == i && sig in sigs))
      && (forall j, sig :: (j, sig) in issued ==>
            issued[(j, sig)] == if j == i && sig in sigs then None else approvals[(j, sig)])
    decreases |sigs|
  {
    if sigs != [] {
      IssueMeaning(approvals[(i, sigs[0]) := None], i, sigs[1..]);
      assert sigs == [sigs[0]] + sigs[1..];
    }
  }

  /** A row of the signatories table. */
  datatype SignatoryRow = SignatoryRow(id: Signatory, canApprove: bool, isActive: bool)

  predicate KeyedById(rows: seq<SignatoryRow>) {
    forall j, k :: 0 <= j < k < |rows| ==> rows[j].id != rows[k].id
  }

  predicate IsEligible(c: Config, row: SignatoryRow, initiator: Admin) {
    row.canApprove && row.isActive && !SharesEmail(c, row.id, initiator)
  }

  /** getEligibleSignatories, in table order. */
  function EligibleSignatories(c: Config, rows: seq<SignatoryRow>, initiator: Admin): seq<Signatory> {
    if rows == [] then []
    else
      var n := |rows| - 1;
      var before := EligibleSignatories(c, rows[..n], initiator);
      if IsEligible(c, rows[n], initiator) then before + [rows[n].id] else before
  }

  /** The gate lets through exactly the active approvers other than the initiator, each once,
      so its list is one the treasury's initiation accepts whenever it is long enough. */
  lemma {:induction false} EligibleMeaning(c: Config, rows: seq<SignatoryRow>, initiator: Admin)
    requires KeyedById(rows)
    ensures var sigs := EligibleSignatories(c, rows, initiator);
      && Distinct(sigs)
      && (forall sig :: sig in sigs && sig in c.signatoryEmail && initiator in c.adminEmail ==>
            Lower(c.signatoryEmail[sig]) != Lower(c.adminEmail[initiator]))
      && forall sig :: sig in sigs <==>
           && (exists k :: 0 <= k < |rows| && rows[k].id == sig && rows[k].canApprove && rows[k].isActive)
           && !(sig in c.signatoryEmail && initiator in c.adminEmail
                && Lower(c.signatoryEmail[sig]) == Lower(c.adminEmail[initiator]))
  {
    if rows != [] {
      var n := |rows| - 1;
      EligibleMeaning(c, rows[..n], initiator);
      var sigs, before := EligibleSignatories(c, rows, initiator), EligibleSignatories(c, rows[..n], initiator);
      assert forall k :: 0 <= k < n ==> rows[..n][k] == rows[k] && rows[..n][k].id != rows[n].id;
      assert rows[n].id !in before;
      forall sig ensures sig in sigs <==>
        && (exists k :: 0 <= k < |rows| && rows[k].id == sig && rows[k].canApprove && rows[k].isActive)
        && !SharesEmail(c, sig, initiator)
      {
        if sig in before {
          var k :| 0 <= k < n && rows[..n][k].id == sig && rows[..n][k].canApprove && rows[..n][k].isActive;
          assert rows[k].id == sig;
        }
        if k :| 0 <= k < |rows| && rows[k].id == sig && rows[k].canApprove && rows[k].isActive {
          assert k < n ==> rows[..n][k].id == sig;
        }
      }
    }
  }

  predicate MayAct(c: Config, db: Db, approvals: Approvals, i: nat, sig: Signatory) {
    && (i, sig) in approvals && approvals[(i, sig)].None?
    && i < |db.payouts|
    && !SharesEmail(c, sig, db.payouts[i].initiator)
    && IsAwaiting(db.payouts[i].status)
  }

  /** The quorum winner's transfer undisturbed, or its failure path. */
  function QuorumTransfer(db: Db, i: nat, tally: Tally, accepted: bool): Db
    requires i < |db.payouts|
  {
    AfterTransfer(PutPayout(db, i, db.payouts[i].(tally := Some(tally))), i, accepted)
  }

  /** Winning leaves no trace of APPROVED once the transfer call has been made. */
  lemma WonRow(db: Db, i: nat, tally: Tally, accepted: bool)
    requires i < |db.payouts|
    ensures var approved := UpdateStatus(db, i, Approved);
      AfterTransfer(PutPayout(approved, i, approved.payouts[i].(tally := Some(tally))), i, accepted)
      == QuorumTransfer(db, i, tally, accepted)
  {
    var approved := UpdateStatus(db, i, Approved);
    var po := db.payouts[i];
    var a := PutPayout(approved, i, approved.payouts[i].(tally := Some(tally)));
    var b := PutPayout(db, i, po.(tally := Some(tally)));
    assert UpdateStatus(a, i, Transferring) == UpdateStatus(b, i, Transferring);
    TransferFromEitherRow(a, i, accepted);
    TransferFromEitherRow(b, i, accepted);
  }

  /** processAction undisturbed, once the action is recorded. */
  function AfterRecording(db: Db, approvals: Approvals, need: nat, i: nat, act: Act, accepted: bool): (Db, Outcome)
    requires i < |db.payouts|
  {
    var tally := ReadQuorum(approvals, i, need);
    if act == Decline then (ReleaseLock(UpdateStatus(db, i, Declined), i), DeclinedNow)
    else if !tally.QuorumReached() then
      if db.payouts[i].status == Pending then (UpdateStatus(db, i, Partial), PartialNow) else (db, StoppedAtPartial)
    else (QuorumTransfer(db, i, tally, accepted), if accepted then TransferInitiated else TransferError)
  }

  /** One call of processAction on the tables: what is stored and what the caller sees. */
  function Process(c: Config, db: Db, approvals: Approvals, need: nat, i: nat, sig: Signatory, act: Act, accepted: bool)
    : (Db, Approvals, Outcome)
  {
    if !MayAct(c, db, approvals, i, sig) then (db, approvals, Refused)
    else
      var recorded := approvals[(i, sig) := Some(act)];
      var after := AfterRecording(db, recorded, need, i, act, accepted);
      (after.0, recorded, after.1)
  }

  /** What a call of processAction meets and leaves, by the stored rows: refused untouched when
      the token is missing or used, the emails are equal or the payout is neither PENDING nor
      PARTIAL; otherwise the action is on record and the payout declined, fired on enough
      different approvals and no decline, marked PARTIAL once, or left as it is. */
  lemma ProcessMeaning(c: Config, db: Db, approvals: Approvals, need: nat, i: nat, sig: Signatory, act: Act,
                       accepted: bool)
    ensures var (db', approvals', outcome) := Process(c, db, approvals, need, i, sig, act, accepted);
      var refused :=
        || (i, sig) !in approvals || approvals[(i, sig)] != None || i >= |db.payouts|
        || (sig in c.signatoryEmail && db.payouts[i].initiator in c.adminEmail
            && Lower(c.signatoryEmail[sig]) == Lower(c.adminEmail[db.payouts[i].initiator]))
        || (db.payouts[i].status != Pending && db.payouts[i].status != Partial);
      && (outcome == Refused <==> refused)
      && (refused ==> db' == db && approvals' == approvals)
      && (!refused ==>
            var po := db.payouts[i];
            var approvers := set k | k in approvals' && k.0 == i && approvals'[k] == Some(Approve) :: k.1;
            var declined := exists k :: k in approvals' && k.0 == i && approvals'[k] == Some(Decline);
            && approvals' == approvals[(i, sig) := Some(act)]
            && db'.txs == db.txs && |db'.payouts| == |db.payouts| && db'.payouts == db.payouts[i := db'.payouts[i]]
            && if act == Decline then
                 outcome == DeclinedNow && db'.payouts[i] == po.(status := Declined, held := false)
               else if |approvers| >= need && !declined then
                 && outcome == (if accepted then TransferInitiated else TransferError)
                 && db'.payouts[i] == po.(tally := Some(Tally(need, approvers, false)), fires := po.fires + 1,
                                          status := if accepted then Transferring else Failed,
                                          hasRef := po.hasRef || accepted, held := po.held && accepted)
               else
                 && db'.books == db.books
                 && outcome == (if po.status == Pending then PartialNow else StoppedAtPartial)
                 && db'.payouts[i] == po.(status := Partial))
  {
  }

  class ApprovalDesk {
    const store: PayoutStore
    const policy: Policy
    const signatories: seq<SignatoryRow>
    var approvals: Approvals

    constructor (store: PayoutStore, policy: Policy, signatories: seq<SignatoryRow>)
      ensures this.store == store && this.policy == policy && this.signatories == signatories && approvals == map[]
    {
      this.store, this.policy, this.signatories, approvals := store, policy, signatories, map[];
    }

    /** Signatories have a primary key; every token names an existing payout. */
    ghost predicate Valid()
      reads this, store
    {
      && KeyedById(signatories)
      && forall i, sig :: (i, sig) in approvals ==> i < |store.payouts|
    }

    /** initiate: eligibility gate, locking transaction, then one token per signatory. */
    method Initiate(c: Config, fund: Ledgers.Fund, initiator: Admin, amountKobo: int, expiresAt: int)
      returns (id: Option<nat>)
      requires Valid()
      modifies this`approvals, store`payouts, store.ledger
      ensures Valid()
      ensures var sigs := EligibleSignatories(c, signatories, initiator);
        var created := LockAndCreate(old(store.View()), fund, initiator, amountKobo, c.feeBuffer, expiresAt, Governed,
                                     true);
        if |sigs| < policy.minApprovers || created.None?
        then id == None && store.View() == old(store.View()) && approvals == old(approvals)
        else id == Some(|old(store.payouts)|) && store.View() == created.value
             && approvals == Issue(old(approvals), |old(store.payouts)|, sigs)
    {
      var sigs := EligibleSignatories(c, signatories, initiator);
      if |sigs| < policy.minApprovers {
        return None;
      }
      id := store.LockAndCreatePayout(fund, initiator, amountKobo, c.feeBuffer, expiresAt, Governed);
      if id.None? {
        return;
      }
      ghost var created := store.View();
      var k := 0;
      while k < |sigs|
        invariant 0 <= k <= |sigs|
        invariant Valid() && store.View() == created
        invariant Issue(approvals, id.value, sigs[k..]) == Issue(old(approvals), id.value, sigs)
      {
        assert sigs[k..][0] == sigs[k] && sigs[k..][1..] == sigs[k + 1..];
        approvals := approvals[(id.value, sigs[k]) := None];
        k := k + 1;
      }
      assert sigs[k..] == [];
    }

    /** payoutService.initiate: an early balance check, then the route by threshold. The early
        check refuses nothing that the check under the row lock would accept. */
    method InitiatePayout(c: Config, fund: Ledgers.Fund, initiator: Admin, amountKobo: int, expiresAt: int,
                          accepted: bool)
      returns (id: Option<nat>)
      requires Valid()
      modifies this`approvals, store`payouts, store.ledger
      ensures Valid()
      ensures var direct := amountKobo < policy.threshold;
        var sigs := EligibleSignatories(c, signatories, initiator);
        var created := LockAndCreate(old(store.View()), fund, initiator, amountKobo, c.feeBuffer, expiresAt,
                                     if direct then Direct else Governed, true);
        var next := |old(store.payouts)|;
        if created.None? || (!direct && |sigs| < policy.minApprovers)
        then id == None && store.View() == old(store.View()) && approvals == old(approvals)
        else id == Some(next)
             && store.View() == (if direct then AfterTransfer(created.value, next, accepted) else created.value)
             && approvals == (if direct then old(approvals) else Issue(old(approvals), next, sigs))
    {
      var balance := store.ledger.GetBalance(fund);
      if balance.available < amountKobo + c.feeBuffer {
        return None;
      }
      if amountKobo < policy.threshold {
        var outcome := store.ExecuteManual(fund, initiator, amountKobo, c.feeBuffer, expiresAt, accepted);
        id := if outcome.NotCreated? then None else Some(outcome.id);
      } else {
        id := Initiate(c, fund, initiator, amountKobo, expiresAt);
      }
    }

    /** processAction: verify, record, then decline, count towards PARTIAL, or win and fire. */
    method ProcessAction(c: Config, i: nat, sig: Signatory, act: Act, accepted: bool) returns (outcome: Outcome)
      modifies this`approvals, store`payouts, store.ledger
      ensures old(Valid()) ==> Valid()
      ensures (store.View(), approvals, outcome)
        == Process(c, old(store.View()), old(approvals), policy.minApprovers, i, sig, act, accepted)
    {
      if (i, sig) !in approvals || approvals[(i, sig)].Some? || i >= |store.payouts| {
        return Refused;
      }
      var payout := store.payouts[i];
      if SharesEmail(c, sig, payout.initiator) || !IsAwaiting(payout.status) {
        return Refused;
      }
      approvals := approvals[(i, sig) := Some(act)];
      if act == Decline {
        var declined := store.Transition(i, AWAITING, Declined);
        store.Release(i);
        return DeclinedNow;
      }
      var tally := ReadQuorum(approvals, i, policy.minApprovers);
      if !tally.QuorumReached() {
        if !AssertTransition(payout.status, Partial) {
          return StoppedAtPartial;
        }
        var moved := store.Transition(i, AWAITING, Partial);
        return PartialNow;
      }
      ghost var start := store.View();
      var won := store.Transition(i, AWAITING, Approved);
      store.payouts := store.payouts[i := store.payouts[i].(tally := Some(tally))];
      store.FireTransfer(i, Approved, accepted);
      WonRow(start, i, tally, accepted);
      outcome := if accepted then TransferInitiated else TransferError;
    }
  }

  /** The process that issues the tokens, undisturbed, issues them all. */
  lemma {:induction false} IssuingIsService(s: State, k: nat, i: nat, todo: seq<Signatory>, accepted: bool)
    requires k < |s.procs| && s.procs[k] == Issuing(i, todo) && Distinct(todo)
    requires forall sig :: sig in todo ==> (i, sig) !in s.approvals
    ensures RunAlone(s, k, |todo| + 1, accepted)
      == s.(approvals := Issue(s.approvals, i, todo), procs := s.procs[k := Done])
    decreases |todo|
  {
    var s1 := ApplyProc(s, k, accepted);
    if todo != [] {
      assert s1.procs == s.procs[k := Issuing(i, todo[1..])];
      IssuingIsService(s1, k, i, todo[1..], accepted);
      assert s1.procs[k := Done] == s.procs[k := Done];
    }
  }

  /** Steps the request takes when nobody else moves. */
  function RequestSteps(s: State, i: nat, sig: Signatory, act: Act, accepted: bool): nat {
    if act == Decline then 4
    else if !ReadQuorum(s.approvals[(i, sig) := Some(act)], i, s.policy.minApprovers).QuorumReached() then 5
    else if accepted then 9 else 10
  }

  /** From the won compare-and-set on, the request is the manual call. */
  lemma WonIsTransfer(s: State, k: nat, i: nat, accepted: bool)
    requires k < |s.procs| && s.procs[k] == Won(i)
    requires i < |s.db.payouts| && s.db.payouts[i].status == Approved
    ensures RunAlone(s, k, if accepted then 4 else 5, accepted)
      == s.(db := AfterTransfer(s.db, i, accepted), procs := s.procs[k := Done])
  {
    var s1 := ApplyProc(s, k, accepted);
    FiringIsTransfer(s1, k, i, accepted);
    TransferFromEitherRow(s.db, i, accepted);
    assert s1.procs[k := Done] == s.procs[k := Done];
    assert RunAlone(s, k, if accepted then 4 else 5, accepted) == RunAlone(s1, k, if accepted then 3 else 4, accepted);
  }

  /** Every request first re-reads the row and records its action, whatever comes next. */
  lemma RequestRecords(s: State, k: nat, i: nat, sig: Signatory, act: Act, n: nat, accepted: bool) returns (s2: State)
    requires k < |s.procs| && s.procs[k] == Verified(i, sig, act)
    requires i < |s.db.payouts| && IsAwaiting(s.db.payouts[i].status)
    ensures s2 == s.(approvals := s.approvals[(i, sig) := Some(act)],
                     procs := s.procs[k := Proc.Recorded(i, sig, act, s.db.payouts[i].status)])
    ensures RunAlone(s, k, n + 2, accepted) == RunAlone(s2, k, n, accepted)
  {
    var s1 := ApplyProc(s, k, accepted);
    s2 := ApplyProc(s1, k, accepted);
    var recorded := Proc.Recorded(i, sig, act, s.db.payouts[i].status);
    assert s1.procs[k := recorded] == s.procs[k := recorded];
    assert RunAlone(s, k, n + 2, accepted) == RunAlone(s1, k, n + 1, accepted) == RunAlone(s2, k, n, accepted);
  }

  /** An approval then reads the policy and counts. */
  lemma RequestCounts(s: State, k: nat, i: nat, sig: Signatory, status: Status, n: nat, accepted: bool)
    returns (s2: State)
    requires k < |s.procs| && s.procs[k] == Proc.Recorded(i, sig, Approve, status)
    ensures s2 == s.(procs := s.procs[k := Counted(i, status, ReadQuorum(s.approvals, i, s.policy.minApprovers))])
    ensures RunAlone(s, k, n + 2, accepted) == RunAlone(s2, k, n, accepted)
  {
    var s1 := ApplyProc(s, k, accepted);
    s2 := ApplyProc(s1, k, accepted);
    var counted := Counted(i, status, ReadQuorum(s.approvals, i, s.policy.minApprovers));
    assert s1.procs[k := counted] == s.procs[k := counted];
    assert RunAlone(s, k, n + 2, accepted) == RunAlone(s1, k, n + 1, accepted) == RunAlone(s2, k, n, accepted);
  }

  /** And ends below quorum, or wins and fires. */
  lemma RequestConcludes(s: State, k: nat, i: nat, tally: Tally, accepted: bool)
    requires i < |s.db.payouts| && IsAwaiting(s.db.payouts[i].status)
    requires k < |s.procs| && s.procs[k] == Counted(i, s.db.payouts[i].status, tally)
    requires tally == ReadQuorum(s.approvals, i, s.policy.minApprovers)
    ensures RunAlone(s, k, if !tally.QuorumReached() then 1 else if accepted then 5 else 6, accepted)
      == s.(db := AfterRecording(s.db, s.approvals, s.policy.minApprovers, i, Approve, accepted).0,
            procs := s.procs[k := Done])
  {
    var s1 := ApplyProc(s, k, accepted);
    if tally.QuorumReached() {
      WonIsTransfer(s1, k, i, accepted);
      WonRow(s.db, i, tally, accepted);
      assert s1.procs[k := Done] == s.procs[k := Done];
    } else {
      assert RunAlone(s, k, 1, accepted) == RunAlone(s1, k, 0, accepted) == s1;
    }
  }

  /** An admitted request left alone does exactly what ProcessAction ensures: records the
      action, then declines, advances, stops, or wins and fires. */
  lemma RequestIsService(s: State, k: nat, i: nat, sig: Signatory, act: Act, accepted: bool)
    requires k < |s.procs| && s.procs[k] == Verified(i, sig, act)
    requires i < |s.db.payouts| && IsAwaiting(s.db.payouts[i].status)
    ensures var approvals := s.approvals[(i, sig) := Some(act)];
      RunAlone(s, k, RequestSteps(s, i, sig, act, accepted), accepted)
      == s.(db := AfterRecording(s.db, approvals, s.policy.minApprovers, i, act, accepted).0,
            approvals := approvals, procs := s.procs[k := Done])
  {
    hide ApplyProc, AfterRecording, RunAlone;
    var n := RequestSteps(s, i, sig, act, accepted);
    var s2 := RequestRecords(s, k, i, sig, act, n - 2, accepted);
    assert s2.procs[k := Done] == s.procs[k := Done];
    if act == Decline {
      DeclineConcludes(s2, k, i, sig, accepted);
    } else {
      var s4 := RequestCounts(s2, k, i, sig, s.db.payouts[i].status, n - 4, accepted);
      assert s4.procs[k := Done] == s2.procs[k := Done];
      RequestConcludes(s4, k, i, ReadQuorum(s2.approvals, i, s.policy.minApprovers), accepted);
    }
  }

  lemma DeclineConcludes(s: State, k: nat, i: nat, sig: Signatory, accepted: bool)
    requires i < |s.db.payouts| && IsAwaiting(s.db.payouts[i].status)
    requires k < |s.procs| && s.procs[k] == Proc.Recorded(i, sig, Decline, s.db.payouts[i].status)
    ensures RunAlone(s, k, 2, accepted)
      == s.(db := AfterRecording(s.db, s.approvals, s.policy.minApprovers, i, Decline, accepted).0,
            procs := s.procs[k := Done])
  {
    var s1 := ApplyProc(s, k, accepted);
    var s2 := ApplyProc(s1, k, accepted);
    assert s1.procs[k := Done] == s.procs[k := Done];
    assert RunAlone(s, k, 2, accepted) == RunAlone(s1, k, 1, accepted) == RunAlone(s2, k, 0, accepted) == s2;
  }

  // ----- A round of approvals -----

  /** The signatories of a list approve one after another. */
  function ApproveInTurn(c: Config, db: Db, approvals: Approvals, need: nat, i: nat, sigs: seq<Signatory>,
                         accepted: bool)
    : (r: (Db, Approvals, seq<Outcome>))
    ensures |r.2| == |sigs|
  {
    if sigs == [] then (db, approvals, [])
    else
      var before := ApproveInTurn(c, db, approvals, need, i, sigs[..|sigs| - 1], accepted);
      var last := Process(c, before.0, before.1, need, i, sigs[|sigs| - 1], Approve, accepted);
      (last.0, last.1, before.2 + [last.2])
  }

  /** Tokens are out to these signatories, none of whom is the initiator; nobody has acted. */
  ghost predicate FreshRound(c: Config, db: Db, approvals: Approvals, i: nat, sigs: seq<Signatory>) {
    && i < |db.payouts| && db.payouts[i].status == Pending
    && Distinct(sigs)
    && (forall sig :: (i, sig) in approvals ==> approvals[(i, sig)].None?)
    && (forall k :: 0 <= k < |sigs| ==> (i, sigs[k]) in approvals && !SharesEmail(c, sigs[k], db.payouts[i].initiator))
  }

  /** The approval table after the listed signatories approved. */
  ghost predicate ApprovedBy(before: Approvals, after: Approvals, i: nat, sigs: seq<Signatory>) {
    && after.Keys == before.Keys
    && forall key :: key in before ==> after[key] == if key.0 == i && key.1 in sigs then Some(Approve) else before[key]
  }

  function Members(s: seq<nat>): set<nat> {
    set x | x in s
  }

  lemma {:induction false} DistinctSize(s: seq<nat>)
    requires Distinct(s)
    ensures |Members(s)| == |s|
  {
    if s == [] {
      assert Members(s) == {};
    } else {
      var n := |s| - 1;
      DistinctSize(s[..n]);
      assert s == s[..n] + [s[n]];
      assert Members(s) == Members(s[..n]) + {s[n]};
      assert s[n] !in Members(s[..n]);
    }
  }

  /** Below the required number the payout is only marked PARTIAL. */
  lemma {:induction false} RoundBelowQuorum(c: Config, db: Db, approvals: Approvals, need: nat, i: nat,
                                            sigs: seq<Signatory>, accepted: bool)
    requires FreshRound(c, db, approvals, i, sigs) && |sigs| < need
    ensures var r := ApproveInTurn(c, db, approvals, need, i, sigs, accepted);
      && r.0 == (if sigs == [] then db else UpdateStatus(db, i, Partial))
      && ApprovedBy(approvals, r.1, i, sigs)
      && forall j :: 0 <= j < |sigs| ==> r.2[j] == if j == 0 then PartialNow else StoppedAtPartial
    decreases |sigs|
  {
    if sigs != [] {
      var n := |sigs| - 1;
      RoundBelowQuorum(c, db, approvals, need, i, sigs[..n], accepted);
      var before := ApproveInTurn(c, db, approvals, need, i, sigs[..n], accepted);
      var recorded := RoundTally(approvals, before.1, need, i, sigs);
      assert MayAct(c, before.0, before.1, i, sigs[n]);
      if n > 0 {
        assert before.0.payouts[i].status == Partial;
      } else {
        assert before.0.payouts[i].status == Pending;
      }
    }
  }

  /** Recording one more approval makes the count one more. */
  lemma RoundTally(approvals: Approvals, before: Approvals, need: nat, i: nat, sigs: seq<Signatory>)
    returns (after: Approvals)
    requires sigs != [] && Distinct(sigs) && ApprovedBy(approvals, before, i, sigs[..|sigs| - 1])
    requires forall sig :: (i, sig) in approvals ==> approvals[(i, sig)].None?
    requires forall k :: 0 <= k < |sigs| ==> (i, sigs[k]) in approvals
    ensures after == before[(i, sigs[|sigs| - 1]) := Some(Approve)]
    ensures before[(i, sigs[|sigs| - 1])].None?
    ensures ApprovedBy(approvals, after, i, sigs)
    ensures ReadQuorum(after, i, need) == Tally(need, Members(sigs), false) && |Members(sigs)| == |sigs|
  {
    var n := |sigs| - 1;
    after := before[(i, sigs[n]) := Some(Approve)];
    assert sigs == sigs[..n] + [sigs[n]];
    assert sigs[n] !in sigs[..n];
    var approvers := ReadQuorum(after, i, need).approvers;
    forall x ensures x in approvers <==> x in sigs {
      if x in sigs {
        assert (i, x) in after && after[(i, x)] == Some(Approve);
      }
    }
    assert approvers == Members(sigs);
    DistinctSize(sigs);
  }

  lemma FiredRow(db: Db, i: nat, accepted: bool)
    requires i < |db.payouts|
    ensures var after, po := AfterTransfer(db, i, accepted), db.payouts[i];
      && |after.payouts| == |db.payouts|
      && after.payouts[i] == (if accepted then po.(status := Transferring, fires := po.fires + 1, hasRef := true)
                              else po.(status := Failed, fires := po.fires + 1, held := false))
  {
  }

  /** With `need` approvers required, the first of `need` distinct approvals reports PARTIAL,
      every later one short of quorum is recorded but answered with the conflict, and the
      last one, and only it, fires the transfer. */
  lemma LastApprovalFires(c: Config, db: Db, approvals: Approvals, need: nat, i: nat, sigs: seq<Signatory>,
                          accepted: bool)
    requires FreshRound(c, db, approvals, i, sigs) && |sigs| == need >= 1
    ensures var r := ApproveInTurn(c, db, approvals, need, i, sigs, accepted);
      && (forall j :: 0 <= j < need - 1 ==> r.2[j] == if j == 0 then PartialNow else StoppedAtPartial)
      && r.2[need - 1] == (if accepted then TransferInitiated else TransferError)
      && r.0.payouts[i].fires == db.payouts[i].fires + 1
      && r.0.payouts[i].status == (if accepted then Transferring else Failed)
      && r.0.payouts[i].tally.Some? && r.0.payouts[i].tally.value.approvers == Members(sigs)
  {
    var n := need - 1;
    RoundBelowQuorum(c, db, approvals, need, i, sigs[..n], accepted);
    var before := ApproveInTurn(c, db, approvals, need, i, sigs[..n], accepted);
    var recorded := RoundTally(approvals, before.1, need, i, sigs);
    assert MayAct(c, before.0, before.1, i, sigs[n]);
    var tally := Tally(need, Members(sigs), false);
    FiredRow(PutPayout(before.0, i, before.0.payouts[i].(tally := Some(tally))), i, accepted);
  }
}
