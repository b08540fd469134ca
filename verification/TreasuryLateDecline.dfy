/** A decline that comes too late: recorded after the winning count, before its write. */
module TreasuryLateDecline {
  import opened Wrappers
  import opened PayoutStateMachine
  import opened Ledgers
  import opened Tables
  import opened Treasury
  import opened PayoutServices
  import opened ServiceRefinement
  import opened ApprovalService
  import opened TreasuryScenarios

  /** Approver k counts, decliner m records, k wins and fires, m's compare-and-set comes too
      late, and the payout settles. */
  function LateDecline(k: nat, m: nat, i: nat, fee: int, at: Clocks): seq<Action> {
    Alone(k, 4, true) + Alone(m, 2, true) + Alone(k, 5, true) + Alone(m, 1, true)
    + [DeliverSuccess(i, fee), WorkerStep(at)]
  }

  predicate Awaits(s: State, k: nat, i: nat, sig: Signatory, act: Act) {
    && k < |s.procs| && s.procs[k] == Verified(i, sig, act)
    && i < |s.db.payouts| && IsAwaiting(s.db.payouts[i].status)
  }

  lemma ApproverCounts(c: Config, s: State, k: nat, i: nat, sig: Signatory)
    requires Awaits(s, k, i, sig, Approve)
    ensures var approvals := s.approvals[(i, sig) := Some(Approve)];
      ApplyAll(c, s, Alone(k, 4, true)) == s.(approvals := approvals,
        procs := s.procs[k := Counted(i, s.db.payouts[i].status, ReadQuorum(approvals, i, s.policy.minApprovers))])
  {
    hide ApplyProc, ReadQuorum;
    AloneIsRunAlone(c, s, k, 4, true);
    var s2 := RequestRecords(s, k, i, sig, Approve, 2, true);
    var s4 := RequestCounts(s2, k, i, sig, s.db.payouts[i].status, 0, true);
    assert s4.procs == s.procs[k := s4.procs[k]];
  }

  lemma DeclineRecorded(c: Config, s: State, m: nat, i: nat, sig: Signatory)
    requires Awaits(s, m, i, sig, Decline)
    ensures ApplyAll(c, s, Alone(m, 2, true)) == s.(approvals := s.approvals[(i, sig) := Some(Decline)],
      procs := s.procs[m := Proc.Recorded(i, sig, Decline, s.db.payouts[i].status)])
  {
    hide ApplyProc;
    AloneIsRunAlone(c, s, m, 2, true);
    var s2 := RequestRecords(s, m, i, sig, Decline, 0, true);
  }

  lemma CountedFires(c: Config, s: State, k: nat, i: nat, tally: Tally)
    requires k < |s.procs| && i < |s.db.payouts| && IsAwaiting(s.db.payouts[i].status)
    requires s.procs[k] == Counted(i, s.db.payouts[i].status, tally) && tally.QuorumReached()
    ensures ApplyAll(c, s, Alone(k, 5, true))
      == s.(db := QuorumTransfer(s.db, i, tally, true), procs := s.procs[k := Done])
  {
    AloneIsRunAlone(c, s, k, 5, true);
    var s1 := ApplyProc(s, k, true);
    WonIsTransfer(s1, k, i, true);
    WonRow(s.db, i, tally, true);
    assert s1.procs[k := Done] == s.procs[k := Done];
    assert RunAlone(s, k, 5, true) == RunAlone(s1, k, 4, true);
  }

  lemma DeclineLoses(c: Config, s: State, m: nat, i: nat, sig: Signatory, read: Status)
    requires m < |s.procs| && s.procs[m] == Proc.Recorded(i, sig, Decline, read) && IsAwaiting(read)
    requires i < |s.db.payouts| && !IsAwaiting(s.db.payouts[i].status)
    ensures ApplyAll(c, s, Alone(m, 1, true)) == s.(procs := s.procs[m := Done])
  {
    AloneIsRunAlone(c, s, m, 1, true);
    assert RunAlone(s, m, 1, true) == RunAlone(ApplyProc(s, m, true), m, 0, true);
  }

  lemma TransferredRow(db: Db, i: nat, tally: Tally, fee: int, at: Clocks)
    requires i < |db.payouts|
    ensures var fired := QuorumTransfer(db, i, tally, true);
      && CanSettle(fired, i)
      && |SettleSuccess(fired, i, at, fee).payouts| == |db.payouts|
      && var po := SettleSuccess(fired, i, at, fee).payouts[i];
         po.status == Transferred && po.fires == db.payouts[i].fires + 1
  {
  }

  /** "Any single decline is an instant kill" fails from every state in which an approval
      that completes the quorum and a decline have both been admitted: there is a way on in
      which the decline is on record and the money leaves. */
  lemma DeclineCanComeTooLate(c: Config, s: State, k: nat, m: nat, i: nat, approver: Signatory, decliner: Signatory,
                              fee: int, at: Clocks)
    requires Awaits(s, k, i, approver, Approve) && Awaits(s, m, i, decliner, Decline) && s.worker.Idle?
    requires ReadQuorum(s.approvals[(i, approver) := Some(Approve)], i, s.policy.minApprovers).QuorumReached()
    ensures var s' := ApplyAll(c, s, LateDecline(k, m, i, fee, at));
      && (i, decliner) in s'.approvals && s'.approvals[(i, decliner)] == Some(Decline)
      && i < |s'.db.payouts| && s'.db.payouts[i].status == Transferred
      && s'.db.payouts[i].fires == s.db.payouts[i].fires + 1
  {
    hide ApplyAll, Apply, ApplyProc, Alone, ReadQuorum, SettleSuccess, QuorumTransfer;
    var status := s.db.payouts[i].status;
    var a1 := Alone(k, 4, true);
    var a2 := a1 + Alone(m, 2, true);
    var a3 := a2 + Alone(k, 5, true);
    var a4 := a3 + Alone(m, 1, true);
    var approvals := s.approvals[(i, approver) := Some(Approve)];
    var tally := ReadQuorum(approvals, i, s.policy.minApprovers);
    ApproverCounts(c, s, k, i, approver);
    var s1 := s.(approvals := approvals, procs := s.procs[k := Counted(i, status, tally)]);
    ApplyAllAppend(c, s, a1, Alone(m, 2, true));
    DeclineRecorded(c, s1, m, i, decliner);
    var s2 := s1.(approvals := approvals[(i, decliner) := Some(Decline)],
                  procs := s1.procs[m := Proc.Recorded(i, decliner, Decline, status)]);
    ApplyAllAppend(c, s, a2, Alone(k, 5, true));
    CountedFires(c, s2, k, i, tally);
    TransferredRow(s.db, i, tally, fee, at);
    var s3 := s2.(db := QuorumTransfer(s.db, i, tally, true), procs := s2.procs[k := Done]);
    ApplyAllAppend(c, s, a3, Alone(m, 1, true));
    DeclineLoses(c, s3, m, i, decliner, status);
    ApplyAllAppend(c, s, a4, [DeliverSuccess(i, fee), WorkerStep(at)]);
    DeliveredSettles(c, s3.(procs := s3.procs[m := Done]), i, fee, at);
  }

  // ----- Such a state is reached -----

  function Asked(amount: int): Payout {
    Manual(amount).(route := Governed)
  }

  /** One approver is required, two are asked, one approves and one declines. */
  function Asking(c: Config, amount: int): seq<Action> {
    Created(c, amount) + Alone(0, 3, true) + [Present(0, 0, Approve), Present(0, 1, Decline)]
  }

  function Created(c: Config, amount: int): seq<Action> {
    [SetPolicy(Policy(1, 1)), Inflow(SharedVa(0), 0, amount + c.feeBuffer, 0, "ref"),
     Initiate(0, 0, amount, [0, 1], 0, true)]
  }

  function AskedState(c: Config, amount: int, approvals: Approvals, procs: seq<Proc>): State {
    State(Db(Shared(Row(amount + c.feeBuffer, 0, 0, amount, 0, 1)),
             [Tx(SharedVa(0), 0, amount + c.feeBuffer, 0, "ref")], [Asked(amount)]),
          approvals, Policy(1, 1), procs, Idle)
  }

  predicate Independent(c: Config) {
    !SharesEmail(c, 0, 0) && !SharesEmail(c, 1, 0)
  }

  lemma AskingStarts(c: Config, amount: int)
    requires 0 < amount && Independent(c)
    ensures var s := Apply(c, Apply(c, Init(), SetPolicy(Policy(1, 1))),
                           Inflow(SharedVa(0), 0, amount + c.feeBuffer, 0, "ref"));
      Apply(c, s, Initiate(0, 0, amount, [0, 1], 0, true)) == AskedState(c, amount, map[], [Issuing(0, [0, 1])])
  {
    var s := Apply(c, Apply(c, Init(), SetPolicy(Policy(1, 1))),
                   Inflow(SharedVa(0), 0, amount + c.feeBuffer, 0, "ref"));
    var r := Row(amount + c.feeBuffer, 0, 0, 0, 0, 1);
    assert s.db.books == Shared(r) by {
      assert s.db.books[0] == map[0 := r];
    }
    OneRow(0, r);
    var more := map[0 := r.(softLock := amount)];
    assert AddLock(map[0 := r], 0, amount) == more;
    assert Available(map[0 := r]) == amount + c.feeBuffer;
    assert TryLock(map[0 := r], amount, c.feeBuffer) == Locked(more, 0);
    assert s.db.books[0 := more] == Shared(r.(softLock := amount));
    assert [0, 1][0] == 0 && [0, 1][1] == 1;
    hide TryLock, AddLock, Available;
    var s' := Apply(c, s, Initiate(0, 0, amount, [0, 1], 0, true));
    assert s' == ApplyInitiate(c, s, 0, 0, amount, [0, 1], 0, true);
    assert !(exists sig :: sig in [0, 1] && SharesEmail(c, sig, 0));
    assert Distinct([0, 1]);
    assert LockAndCreate(s.db, 0, 0, amount, c.feeBuffer, 0, Governed, true).value
      == AskedState(c, amount, map[], []).db;
  }

  function Unused(): Approvals {
    map[(0, 0) := None, (0, 1) := None]
  }

  lemma TokensOut(c: Config, amount: int)
    ensures ApplyAll(c, AskedState(c, amount, map[], [Issuing(0, [0, 1])]), Alone(0, 3, true))
      == AskedState(c, amount, Unused(), [Done])
  {
    var s := AskedState(c, amount, map[], [Issuing(0, [0, 1])]);
    AloneIsRunAlone(c, s, 0, 3, true);
    IssuingIsService(s, 0, 0, [0, 1], true);
    assert s.procs[0 := Done] == [Done];
    assert [0, 1][1..] == [1] && [1][1..] == [];
    assert Issue(map[], 0, [0, 1]) == Issue(map[(0, 0) := None], 0, [1]) == Unused();
  }

  function Admitted(c: Config, amount: int): State {
    AskedState(c, amount, Unused(), [Done, Verified(0, 0, Approve), Verified(0, 1, Decline)])
  }

  lemma BothPresent(c: Config, amount: int)
    requires Independent(c)
    ensures ApplyAll(c, AskedState(c, amount, Unused(), [Done]), [Present(0, 0, Approve), Present(0, 1, Decline)])
      == Admitted(c, amount)
  {
    var acts := [Present(0, 0, Approve), Present(0, 1, Decline)];
    ApplyTwo(c, AskedState(c, amount, Unused(), [Done]), acts[0], acts[1], []);
    assert acts + [] == acts;
  }

  lemma AskingState(c: Config, amount: int)
    requires 0 < amount && Independent(c)
    ensures Exec(c, Asking(c, amount)) == Admitted(c, amount)
  {
    CreatedState(c, amount);
    TokensOut(c, amount);
    BothPresent(c, amount);
    hide Apply, ApplyAll, Exec, Alone, AskedState, Admitted, Created;
    ExecAppend(c, Created(c, amount), Alone(0, 3, true));
    ExecAppend(c, Created(c, amount) + Alone(0, 3, true), [Present(0, 0, Approve), Present(0, 1, Decline)]);
  }

  lemma CreatedState(c: Config, amount: int)
    requires 0 < amount && Independent(c)
    ensures Exec(c, Created(c, amount)) == AskedState(c, amount, map[], [Issuing(0, [0, 1])])
  {
    AskingStarts(c, amount);
    hide Apply, Exec, AskedState;
    ThreeSteps(c, SetPolicy(Policy(1, 1)), Inflow(SharedVa(0), 0, amount + c.feeBuffer, 0, "ref"),
               Initiate(0, 0, amount, [0, 1], 0, true));
  }

  lemma ThreeSteps(c: Config, a1: Action, a2: Action, a3: Action)
    ensures Exec(c, [a1, a2, a3]) == Apply(c, Apply(c, Apply(c, Init(), a1), a2), a3)
  {
    hide Apply;
    assert [] + [a1] == [a1] && [a1] + [a2] == [a1, a2] && [a1, a2] + [a3] == [a1, a2, a3];
    ExecSnoc(c, [], a1);
    ExecSnoc(c, [a1], a2);
    ExecSnoc(c, [a1, a2], a3);
  }

  /** A whole run: one of two signatories declines, on record, and the payout is transferred. */
  lemma DeclineTooLate(c: Config, amount: int, fee: int, at: Clocks)
    requires 0 < amount && Independent(c)
    ensures var s := Exec(c, Asking(c, amount) + LateDecline(1, 2, 0, fee, at));
      && (0, 1) in s.approvals && s.approvals[(0, 1)] == Some(Decline)
      && |s.db.payouts| > 0 && s.db.payouts[0].status == Transferred && s.db.payouts[0].fires == 1
  {
    AskingState(c, amount);
    var s := Admitted(c, amount);
    assert ReadQuorum(Unused()[(0, 0) := Some(Approve)], 0, 1).QuorumReached() by {
      OneApproval();
    }
    hide Apply, ApplyAll, Exec, Asking, LateDecline, ReadQuorum;
    DeclineCanComeTooLate(c, s, 1, 2, 0, 0, 1, fee, at);
    ExecAppend(c, Asking(c, amount), LateDecline(1, 2, 0, fee, at));
  }

  lemma OneApproval()
    ensures ReadQuorum(Unused()[(0, 0) := Some(Approve)], 0, 1).QuorumReached()
  {
    var approvals := Unused()[(0, 0) := Some(Approve)];
    var t := ReadQuorum(approvals, 0, 1);
    assert (0, 0) in approvals && (0, 0).1 == 0;
    assert 0 in t.approvers;
    assert t.approvers == {0};
  }
}
