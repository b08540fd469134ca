/** Who may move a payout when: the invariant every interleaving keeps, with or without
    sweeps and conflicts. */
module TreasuryControl {
  import opened Wrappers
  import opened PayoutStateMachine
  import opened Ledgers
  import opened Tables
  import opened Treasury

  /** The payout a process alone may write, from its winning compare-and-set to its release
      or its handover to the webhooks. */
  function OwnerOf(pr: Proc): Option<nat> {
    match pr
    case Won(i) => Some(i)
    case Firing(i) => Some(i)
    case Calling(i) => Some(i)
    case Threw(i) => Some(i)
    case Returned(i) => Some(i)
    case Releasing(i) => Some(i)
    case ExpiringRelease(i, _) => Some(i)
    case _ => None
  }

  /** The statuses that give the reservation back. */
  predicate IsDead(status: Status) {
    status in {Declined, Expired, Cancelled, Failed}
  }

  /** What an owner relies on about its row. */
  predicate PhaseOk(pr: Proc, po: Payout) {
    match pr
    case Won(_) => po.status == Approved
    case Firing(_) => po.status == Transferring && !po.hasRef && po.fires == 0
    case Calling(_) => po.status == Transferring && !po.hasRef && po.fires == 1
    case Threw(_) => po.status == Transferring && !po.hasRef && po.fires == 1
    case Returned(_) => po.status == Transferring && !po.hasRef && po.fires == 1
    case Releasing(_) => IsDead(po.status) && po.held
    case ExpiringRelease(_, _) => IsDead(po.status) && po.held
    case _ => true
  }

  predicate NeedsOwner(po: Payout) {
    || (IsDead(po.status) && po.held)
    || po.status == Approved
    || (po.status == Transferring && !po.hasRef)
  }

  predicate PastQuorum(status: Status) {
    status in {Approved, Transferring, Transferred, Failed}
  }

  predicate PayoutOk(c: Config, po: Payout) {
    && po.amount > 0
    && (IsLive(po.status) ==> po.held && po.settled == 0)
    && (po.status == Transferred ==> !po.held && po.settled == 1 && po.hasRef)
    && (po.status == Failed ==> po.settled == if po.hasRef then 1 else 0)
    && (po.status in {Pending, Partial, Approved, Declined, Expired, Cancelled} ==>
          !po.hasRef && po.fires == 0 && po.settled == 0)
    && (po.status in {Transferred, Failed} || po.hasRef ==> po.fires == 1)
    && po.fires <= 1
    && (po.route.Swept? ==> po.lockedPeriod.None?)
    && (po.status in {Partial, Approved, Declined} ==> po.route.Governed?)
    && (po.route.Governed? && PastQuorum(po.status) ==> po.tally.Some?)
    && (po.tally.Some? ==>
          && po.tally.value.QuorumReached()
          && forall sig :: sig in po.tally.value.approvers ==> !SharesEmail(c, sig, po.initiator))
  }

  predicate SameRequest(po: Payout, po': Payout) {
    && po'.fund == po.fund && po'.initiator == po.initiator && po'.amount == po.amount
    && po'.route == po.route && po'.lockedPeriod == po.lockedPeriod
  }

  /** A token of a governed payout, issued to somebody other than its initiator. */
  predicate HasToken(c: Config, s: State, i: nat, sig: Signatory) {
    && (i, sig) in s.approvals
    && i < |s.db.payouts| && s.db.payouts[i].route.Governed?
    && !SharesEmail(c, sig, s.db.payouts[i].initiator)
  }

  predicate Request(s: State, i: nat, status: Status) {
    i < |s.db.payouts| && s.db.payouts[i].route.Governed? && IsAwaiting(status)
  }

  predicate ProcOk(c: Config, s: State, pr: Proc) {
    && (OwnerOf(pr).Some? ==> OwnerOf(pr).value < |s.db.payouts| && PhaseOk(pr, s.db.payouts[OwnerOf(pr).value]))
    && match pr
       case Verified(i, sig, _) => HasToken(c, s, i, sig)
       case Seen(i, sig, _, status) => HasToken(c, s, i, sig) && Request(s, i, status)
       case Recorded(i, sig, _, status) => HasToken(c, s, i, sig) && Request(s, i, status)
       case PolicyRead(i, status, _) => Request(s, i, status)
       case Counted(i, status, tally) =>
         Request(s, i, status) && forall sig :: sig in tally.approvers ==> HasToken(c, s, i, sig)
       case Issuing(i, todo) =>
         && i < |s.db.payouts| && s.db.payouts[i].route.Governed?
         && forall sig :: sig in todo ==> !SharesEmail(c, sig, s.db.payouts[i].initiator)
       case ManualCreated(i) => i < |s.db.payouts| && s.db.payouts[i].route.Direct?
       case ManualConflict(i) => i < |s.db.payouts| && s.db.payouts[i].route.Direct?
       case CancelSeen(i) => i < |s.db.payouts|
       case Expiring(todo) => forall i :: i in todo ==> i < |s.db.payouts|
       case ExpiringRelease(_, todo) => forall i :: i in todo ==> i < |s.db.payouts|
       case _ => true
  }

  predicate WorkerOk(s: State) {
    match s.worker
    case Idle => true
    case SuccessRead(i, _) => CanSettle(s.db, i)
    case FailureRead(i) => CanSettle(s.db, i)
  }

  predicate Owned(s: State, i: nat) {
    exists k :: 0 <= k < |s.procs| && OwnerOf(s.procs[k]) == Some(i)
  }

  ghost predicate Control(c: Config, s: State) {
    && (forall i :: 0 <= i < |s.db.payouts| ==> PayoutOk(c, s.db.payouts[i]))
    && (forall k :: 0 <= k < |s.procs| ==> ProcOk(c, s, s.procs[k]))
    && (forall i, sig :: (i, sig) in s.approvals ==> HasToken(c, s, i, sig))
    && (forall j, k :: 0 <= j < k < |s.procs| && OwnerOf(s.procs[j]).Some? ==>
          OwnerOf(s.procs[j]) != OwnerOf(s.procs[k]))
    && (forall i :: 0 <= i < |s.db.payouts| && NeedsOwner(s.db.payouts[i]) ==> Owned(s, i))
    && WorkerOk(s)
  }

  lemma OwnedBy(s: State, k: nat, i: nat)
    requires k < |s.procs| && OwnerOf(s.procs[k]) == Some(i)
    ensures Owned(s, i)
  {
  }

  /** Rows may be added and rewritten as long as each keeps its identity; tokens only grow. */
  ghost predicate Extends(s: State, s': State) {
    && |s.db.payouts| <= |s'.db.payouts|
    && (forall i :: 0 <= i < |s.db.payouts| ==> SameRequest(s.db.payouts[i], s'.db.payouts[i]))
    && (forall key :: key in s.approvals ==> key in s'.approvals)
  }

  /** The rest of the invariant follows when some process answers for every row in need. */
  lemma ControlFromParts(c: Config, s: State, s': State)
    requires Control(c, s) && Extends(s, s')
    requires forall i :: 0 <= i < |s'.db.payouts| ==> PayoutOk(c, s'.db.payouts[i])
    requires forall k :: 0 <= k < |s'.procs| ==> ProcOk(c, s', s'.procs[k])
    requires forall j, k :: 0 <= j < k < |s'.procs| && OwnerOf(s'.procs[j]).Some? ==>
      OwnerOf(s'.procs[j]) != OwnerOf(s'.procs[k])
    requires forall i :: 0 <= i < |s'.db.payouts| && NeedsOwner(s'.db.payouts[i]) ==> Owned(s', i)
    requires s'.approvals == s.approvals && WorkerOk(s')
    ensures Control(c, s')
  {
    forall x, sig | (x, sig) in s'.approvals ensures HasToken(c, s', x, sig) {
      assert HasToken(c, s, x, sig);
    }
  }

  lemma ProcOkExtends(c: Config, s: State, s': State, pr: Proc)
    requires ProcOk(c, s, pr) && Extends(s, s')
    requires OwnerOf(pr).Some? ==> PhaseOk(pr, s'.db.payouts[OwnerOf(pr).value])
    ensures ProcOk(c, s', pr)
  {
    if pr.Counted? {
      forall sig | sig in pr.tally.approvers ensures HasToken(c, s', pr.i, sig) {
        assert HasToken(c, s, pr.i, sig);
      }
    }
  }

  /** A process that touches no payout row: it keeps what it owned. */
  lemma GotoKeepsControl(c: Config, s: State, s': State, k: nat, pr: Proc)
    requires Control(c, s) && k < |s.procs|
    requires s' == s.(procs := s.procs[k := pr], approvals := s'.approvals)
    requires forall key :: key in s.approvals ==> key in s'.approvals
    requires forall i, sig :: (i, sig) in s'.approvals ==> HasToken(c, s', i, sig)
    requires OwnerOf(pr) == OwnerOf(s.procs[k]) && ProcOk(c, s', pr)
    ensures Control(c, s')
  {
    forall j | 0 <= j < |s'.procs| ensures ProcOk(c, s', s'.procs[j]) {
      if j != k {
        ProcOkExtends(c, s, s', s.procs[j]);
      }
    }
    forall i | 0 <= i < |s.db.payouts| && NeedsOwner(s.db.payouts[i]) ensures Owned(s', i) {
      var j :| 0 <= j < |s.procs| && OwnerOf(s.procs[j]) == Some(i);
      OwnedBy(s', j, i);
    }
  }

  /** A process that rewrites one payout row: either it owned the row, or the row was still
      awaiting approval and so had no owner. */
  lemma PutKeepsControl(c: Config, s: State, s': State, k: nat, pr: Proc, i: nat, po: Payout)
    requires Control(c, s) && k < |s.procs| && i < |s.db.payouts|
    requires s' == s.(procs := s.procs[k := pr], db := s'.db) && s'.db.payouts == s.db.payouts[i := po]
    requires SameRequest(s.db.payouts[i], po) && PayoutOk(c, po) && ProcOk(c, s', pr)
    requires OwnerOf(s.procs[k]) == Some(i) || (OwnerOf(s.procs[k]).None? && IsAwaiting(s.db.payouts[i].status))
    requires OwnerOf(pr).Some? ==> OwnerOf(pr) == Some(i)
    requires NeedsOwner(po) ==> OwnerOf(pr) == Some(i)
    ensures Control(c, s')
  {
    OthersDoNotOwn(c, s, k, i);
    OthersStayOk(c, s, s', k, i, po);
    hide PayoutOk, ProcOk, HasToken;
    forall x | 0 <= x < |s'.db.payouts| && NeedsOwner(s'.db.payouts[x]) ensures Owned(s', x) {
      if x == i {
        OwnedBy(s', k, i);
      } else {
        var j :| 0 <= j < |s.procs| && OwnerOf(s.procs[j]) == Some(x);
        OwnedBy(s', j, x);
      }
    }
    ControlFromParts(c, s, s');
  }

  lemma OthersStayOk(c: Config, s: State, s': State, k: nat, i: nat, po: Payout)
    requires Control(c, s) && k < |s.procs| && i < |s.db.payouts|
    requires s'.approvals == s.approvals && s'.db.payouts == s.db.payouts[i := po] && SameRequest(s.db.payouts[i], po)
    requires forall j :: 0 <= j < |s.procs| && j != k ==> OwnerOf(s.procs[j]) != Some(i)
    ensures forall j :: 0 <= j < |s.procs| && j != k ==> ProcOk(c, s', s.procs[j])
  {
    forall j | 0 <= j < |s.procs| && j != k ensures ProcOk(c, s', s.procs[j]) {
      ProcOkExtends(c, s, s', s.procs[j]);
    }
  }

  /** Nobody else owns a row that is awaiting approval, or that process k owns; and the
      worker is not holding it either. */
  lemma OthersDoNotOwn(c: Config, s: State, k: nat, i: nat)
    requires Control(c, s) && k < |s.procs| && i < |s.db.payouts|
    requires OwnerOf(s.procs[k]) == Some(i) || IsAwaiting(s.db.payouts[i].status)
    ensures forall j :: 0 <= j < |s.procs| && j != k ==> OwnerOf(s.procs[j]) != Some(i)
    ensures !s.worker.Idle? ==> s.worker.i != i
  {
    assert ProcOk(c, s, s.procs[k]);
    forall j | 0 <= j < |s.procs| && j != k ensures OwnerOf(s.procs[j]) != Some(i) {
      assert ProcOk(c, s, s.procs[j]);
    }
  }

  /** A compare-and-set out of PENDING/PARTIAL: the winner owns the row, the loser nothing. */
  lemma CasKeepsControl(c: Config, s: State, k: nat, i: nat, from: set<Status>, to: Status, won: Proc, lost: Proc)
    requires Control(c, s) && k < |s.procs| && i < |s.db.payouts|
    requires from <= AWAITING && OwnerOf(s.procs[k]).None? && OwnerOf(lost).None?
    requires ProcOk(c, s, lost)
    requires OwnerOf(won).Some? ==> OwnerOf(won) == Some(i)
    requires var po := s.db.payouts[i].(status := to);
      s.db.payouts[i].status in from ==>
        && PayoutOk(c, po) && (NeedsOwner(po) ==> OwnerOf(won) == Some(i))
        && ProcOk(c, s.(db := UpdateStatus(s.db, i, to)), won)
    ensures Control(c, Cas(s, k, i, from, to, won, lost))
  {
    var s' := Cas(s, k, i, from, to, won, lost);
    if s.db.payouts[i].status in from {
      ProcOkSameTables(c, s.(db := UpdateStatus(s.db, i, to)), s', won);
      PutKeepsControl(c, s, s', k, won, i, s.db.payouts[i].(status := to));
    } else {
      ProcOkSameTables(c, s, s', lost);
      GotoKeepsControl(c, s, s', k, lost);
    }
  }

  lemma ProcOkSameTables(c: Config, s: State, s': State, pr: Proc)
    requires ProcOk(c, s, pr) && s'.db.payouts == s.db.payouts && s'.approvals == s.approvals
    ensures ProcOk(c, s', pr)
  {
    ProcOkExtends(c, s, s', pr);
  }

  lemma SpawnKeepsControl(c: Config, s: State, s': State, pr: Proc)
    requires Control(c, s)
    requires s' == s.(procs := s.procs + [pr]) && OwnerOf(pr).None? && ProcOk(c, s', pr)
    ensures Control(c, s')
  {
    forall j | 0 <= j < |s.procs| ensures ProcOk(c, s', s'.procs[j]) {
      ProcOkExtends(c, s, s', s.procs[j]);
    }
    forall i | 0 <= i < |s.db.payouts| && NeedsOwner(s.db.payouts[i]) ensures Owned(s', i) {
      var j :| 0 <= j < |s.procs| && OwnerOf(s.procs[j]) == Some(i);
      OwnedBy(s', j, i);
    }
  }

  /** Statements outside every process: old rows stand, new rows need no owner. */
  lemma TablesKeepControl(c: Config, s: State, s': State)
    requires Control(c, s)
    requires s'.procs == s.procs && s'.approvals == s.approvals && WorkerOk(s')
    requires s.db.payouts <= s'.db.payouts
    requires forall i :: |s.db.payouts| <= i < |s'.db.payouts| ==>
      PayoutOk(c, s'.db.payouts[i]) && !NeedsOwner(s'.db.payouts[i])
    ensures Control(c, s')
  {
    forall j | 0 <= j < |s.procs| ensures ProcOk(c, s', s.procs[j]) {
      ProcOkExtends(c, s, s', s.procs[j]);
    }
    forall i | 0 <= i < |s'.db.payouts| && NeedsOwner(s'.db.payouts[i]) ensures Owned(s', i) {
      var j :| 0 <= j < |s.procs| && OwnerOf(s.procs[j]) == Some(i);
      OwnedBy(s', j, i);
    }
    ControlFromParts(c, s, s');
  }

  lemma InitiateKeepsControl(c: Config, s: State, fund: Fund, admin: Admin, amount: int, eligible: seq<Signatory>,
                             expiresAt: int, recorded: bool)
    requires Control(c, s)
    ensures Control(c, ApplyInitiate(c, s, fund, admin, amount, eligible, expiresAt, recorded))
  {
    hide TryLock;
    var s' := ApplyInitiate(c, s, fund, admin, amount, eligible, expiresAt, recorded);
    if s' != s {
      var mid := s.(db := s'.db);
      TablesKeepControl(c, s, mid);
      SpawnKeepsControl(c, mid, s', s'.procs[|s.procs|]);
    }
  }

  lemma HandedOver(c: Config, s: State, i: nat)
    requires Control(c, s) && CanSettle(s.db, i)
    ensures forall j :: 0 <= j < |s.procs| ==> OwnerOf(s.procs[j]) != Some(i)
  {
    forall j | 0 <= j < |s.procs| ensures OwnerOf(s.procs[j]) != Some(i) {
      assert ProcOk(c, s, s.procs[j]);
    }
  }

  /** The worker rewrites a row handed over to the webhooks, which nobody owns. */
  lemma SettleKeepsControl(c: Config, s: State, s': State, i: nat, po: Payout, tail: seq<Proc>)
    requires Control(c, s) && CanSettle(s.db, i)
    requires s' == s.(procs := s.procs + tail, db := s'.db, worker := Idle) && s'.db.payouts == s.db.payouts[i := po]
    requires SameRequest(s.db.payouts[i], po) && PayoutOk(c, po)
    requires if NeedsOwner(po) then tail == [Releasing(i)] && PhaseOk(Releasing(i), po) else tail == []
    ensures Control(c, s')
  {
    HandedOver(c, s, i);
    hide PayoutOk, ProcOk, SameRequest;
    forall j | 0 <= j < |s.procs| ensures ProcOk(c, s', s.procs[j]) {
      ProcOkExtends(c, s, s', s.procs[j]);
    }
    forall x | 0 <= x < |s'.db.payouts| && NeedsOwner(s'.db.payouts[x]) ensures Owned(s', x) {
      if x == i {
        OwnedBy(s', |s.procs|, i);
      } else {
        var j :| 0 <= j < |s.procs| && OwnerOf(s.procs[j]) == Some(x);
        OwnedBy(s', j, x);
      }
    }
    ControlFromParts(c, s, s');
  }

  lemma WorkerKeepsControl(c: Config, s: State, at: Clocks)
    requires Control(c, s)
    ensures Control(c, ApplyWorker(s, at))
  {
    var s' := ApplyWorker(s, at);
    match s.worker
    case Idle =>
    case SuccessRead(i, _) =>
      assert PayoutOk(c, s.db.payouts[i]);
      SettleKeepsControl(c, s, s', i, s'.db.payouts[i], []);
    case FailureRead(i) =>
      assert PayoutOk(c, s.db.payouts[i]);
      SettleKeepsControl(c, s, s', i, s'.db.payouts[i], [Releasing(i)]);
  }

  /** A request's reads and token writes, before it owns anything. */
  lemma ReadStepKeepsControl(c: Config, s: State, k: nat, accepted: bool)
    requires Control(c, s) && k < |s.procs|
    requires var pr := s.procs[k]; pr.Verified? || pr.Seen? || pr.PolicyRead? || pr.Issuing?
    ensures Control(c, ApplyProc(s, k, accepted))
  {
    var pr := s.procs[k];
    var s' := ApplyProc(s, k, accepted);
    assert ProcOk(c, s, pr);
    TokensAfter(c, s, s');
    if pr.PolicyRead? {
      forall sig | sig in s'.procs[k].tally.approvers ensures HasToken(c, s', pr.i, sig) {
        assert HasToken(c, s, pr.i, sig);
      }
    }
    GotoKeepsControl(c, s, s', k, s'.procs[k]);
  }

  /** Losing or winning a row that is still awaiting, on the way to giving it back. */
  lemma KillKeepsControl(c: Config, s: State, k: nat, i: nat, from: set<Status>, to: Status, won: Proc, lost: Proc)
    requires Control(c, s) && k < |s.procs| && i < |s.db.payouts|
    requires from <= AWAITING && OwnerOf(s.procs[k]).None? && OwnerOf(lost).None? && ProcOk(c, s, lost)
    requires to in {Declined, Expired, Cancelled} && (to == Declined ==> s.db.payouts[i].route.Governed?)
    requires won == Releasing(i)
      || (won.ExpiringRelease? && won.i == i && forall x :: x in won.todo ==> x < |s.db.payouts|)
    ensures Control(c, Cas(s, k, i, from, to, won, lost))
  {
    assert PayoutOk(c, s.db.payouts[i]);
    CasKeepsControl(c, s, k, i, from, to, won, lost);
  }

  lemma DeclineStepKeepsControl(c: Config, s: State, k: nat, accepted: bool)
    requires Control(c, s) && k < |s.procs| && s.procs[k].Recorded?
    ensures Control(c, ApplyProc(s, k, accepted))
  {
    var Recorded(i, _, act, status) := s.procs[k];
    assert ProcOk(c, s, s.procs[k]);
    if act == Decline && AssertTransition(status, Declined) {
      KillKeepsControl(c, s, k, i, AWAITING, Declined, Releasing(i), Done);
    } else {
      var s' := ApplyProc(s, k, accepted);
      GotoKeepsControl(c, s, s', k, s'.procs[k]);
    }
  }

  lemma ExpiryStepKeepsControl(c: Config, s: State, k: nat, accepted: bool)
    requires Control(c, s) && k < |s.procs| && s.procs[k].Expiring?
    ensures Control(c, ApplyProc(s, k, accepted))
  {
    var Expiring(todo) := s.procs[k];
    assert ProcOk(c, s, s.procs[k]);
    if todo == [] {
      GotoKeepsControl(c, s, ApplyProc(s, k, accepted), k, Done);
    } else {
      assert todo[0] in todo && forall i :: i in todo[1..] ==> i in todo;
      KillKeepsControl(c, s, k, todo[0], AWAITING, Expired, ExpiringRelease(todo[0], todo[1..]), Expiring(todo[1..]));
    }
  }

  lemma ManualStepKeepsControl(c: Config, s: State, k: nat, accepted: bool)
    requires Control(c, s) && k < |s.procs| && (s.procs[k].ManualCreated? || s.procs[k].CancelSeen?)
    ensures Control(c, ApplyProc(s, k, accepted))
  {
    var i := s.procs[k].i;
    assert ProcOk(c, s, s.procs[k]) && PayoutOk(c, s.db.payouts[i]);
    if s.procs[k].CancelSeen? {
      KillKeepsControl(c, s, k, i, {Pending}, Cancelled, Releasing(i), Done);
    } else {
      CasKeepsControl(c, s, k, i, {Pending}, Transferring, Firing(i), ManualConflict(i));
    }
  }

  lemma TokensAfter(c: Config, s: State, s': State)
    requires Control(c, s) && s'.db == s.db
    requires forall i, sig :: (i, sig) in s'.approvals ==>
      || (i, sig) in s.approvals
      || (i < |s.db.payouts| && s.db.payouts[i].route.Governed? && !SharesEmail(c, sig, s.db.payouts[i].initiator))
    ensures forall i, sig :: (i, sig) in s'.approvals ==> HasToken(c, s', i, sig)
  {
    forall i, sig | (i, sig) in s'.approvals ensures HasToken(c, s', i, sig) {
      assert (i, sig) in s.approvals ==> HasToken(c, s, i, sig);
    }
  }

  lemma CountedKeepsControl(c: Config, s: State, k: nat, accepted: bool)
    requires Control(c, s) && k < |s.procs| && s.procs[k].Counted?
    ensures Control(c, ApplyProc(s, k, accepted))
  {
    var Counted(i, status, tally) := s.procs[k];
    var s' := ApplyProc(s, k, accepted);
    assert ProcOk(c, s, s.procs[k]);
    if !tally.QuorumReached() && AssertTransition(status, Partial) {
      CasKeepsControl(c, s, k, i, AWAITING, Partial, Done, Done);
    } else if tally.QuorumReached() && IsAwaiting(s.db.payouts[i].status) && AssertTransition(status, Approved) {
      var po := s.db.payouts[i].(status := Approved, tally := Some(tally));
      assert PayoutOk(c, s.db.payouts[i]);
      forall sig | sig in tally.approvers ensures !SharesEmail(c, sig, po.initiator) {
        assert HasToken(c, s, i, sig);
      }
      PutKeepsControl(c, s, s', k, Won(i), i, po);
    } else {
      GotoKeepsControl(c, s, s', k, Done);
    }
  }

  /** From the won quorum to the call. */
  lemma FireStepKeepsControl(c: Config, s: State, k: nat, accepted: bool)
    requires Control(c, s) && k < |s.procs| && (s.procs[k].Won? || s.procs[k].Firing?)
    ensures Control(c, ApplyProc(s, k, accepted))
  {
    var i := s.procs[k].i;
    var s' := ApplyProc(s, k, accepted);
    assert ProcOk(c, s, s.procs[k]) && PayoutOk(c, s.db.payouts[i]);
    PutKeepsControl(c, s, s', k, s'.procs[k], i, s'.db.payouts[i]);
  }

  /** From its outcome to FAILED or the handover. */
  lemma OutcomeStepKeepsControl(c: Config, s: State, k: nat, accepted: bool)
    requires Control(c, s) && k < |s.procs| && (s.procs[k].Threw? || s.procs[k].Returned?)
    ensures Control(c, ApplyProc(s, k, accepted))
  {
    var i := s.procs[k].i;
    var s' := ApplyProc(s, k, accepted);
    assert ProcOk(c, s, s.procs[k]) && PayoutOk(c, s.db.payouts[i]);
    PutKeepsControl(c, s, s', k, s'.procs[k], i, s'.db.payouts[i]);
  }

  lemma ReleaseStepKeepsControl(c: Config, s: State, k: nat, accepted: bool)
    requires Control(c, s) && k < |s.procs| && (s.procs[k].Releasing? || s.procs[k].ExpiringRelease?)
    ensures Control(c, ApplyProc(s, k, accepted))
  {
    var i := s.procs[k].i;
    var s' := ApplyProc(s, k, accepted);
    assert ProcOk(c, s, s.procs[k]) && PayoutOk(c, s.db.payouts[i]);
    PutKeepsControl(c, s, s', k, s'.procs[k], i, s'.db.payouts[i]);
  }

  lemma StepKeepsControl(c: Config, s: State, k: nat, accepted: bool)
    requires Control(c, s) && k < |s.procs|
    ensures Control(c, ApplyProc(s, k, accepted))
  {
    var pr := s.procs[k];
    if pr.Won? || pr.Firing? {
      FireStepKeepsControl(c, s, k, accepted);
    } else if pr.Threw? || pr.Returned? {
      OutcomeStepKeepsControl(c, s, k, accepted);
    } else if pr.Calling? {
      assert ProcOk(c, s, pr);
      GotoKeepsControl(c, s, ApplyProc(s, k, accepted), k, if accepted then Returned(pr.i) else Threw(pr.i));
    } else if pr.Releasing? || pr.ExpiringRelease? {
      ReleaseStepKeepsControl(c, s, k, accepted);
    } else if pr.Counted? {
      CountedKeepsControl(c, s, k, accepted);
    } else if pr.Recorded? {
      DeclineStepKeepsControl(c, s, k, accepted);
    } else if pr.Expiring? {
      ExpiryStepKeepsControl(c, s, k, accepted);
    } else if pr.ManualCreated? || pr.CancelSeen? {
      ManualStepKeepsControl(c, s, k, accepted);
    } else if pr.ManualConflict? {
      var s' := ApplyProc(s, k, accepted);
      assert ProcOk(c, s, pr);
      TablesKeepControl(c, s, s.(db := s'.db));
      GotoKeepsControl(c, s.(db := s'.db), s', k, Done);
    } else if !pr.Done? {
      ReadStepKeepsControl(c, s, k, accepted);
    }
  }

  lemma ApplyKeepsControl(c: Config, s: State, a: Action)
    requires Control(c, s)
    ensures Control(c, Apply(c, s, a))
  {
    hide Control, ApplyProc, ApplyWorker, ApplyInitiate, Sweep;
    match a
    case Initiate(fund, admin, amount, eligible, expiresAt, recorded) =>
      InitiateKeepsControl(c, s, fund, admin, amount, eligible, expiresAt, recorded);
    case Present(_, _, _) => ArrivalKeepsControl(c, s, a);
    case Cancel(_, _) => ArrivalKeepsControl(c, s, a);
    case ScanOverdue(_) => ArrivalKeepsControl(c, s, a);
    case WorkerStep(at) => WorkerKeepsControl(c, s, at);
    case Step(k, accepted) =>
      if k < |s.procs| {
        StepKeepsControl(c, s, k, accepted);
      }
    case _ => QuietActionKeepsControl(c, s, a);
  }

  lemma QuietActionKeepsControl(c: Config, s: State, a: Action)
    requires Control(c, s)
    requires a.Inflow? || a.SetPolicy? || a.Sweeping? || a.DeliverSuccess? || a.DeliverFailure? || a.WorkerDrop?
    ensures Control(c, Apply(c, s, a))
  {
    TablesKeepControl(c, s, Apply(c, s, a));
  }

  lemma ArrivalKeepsControl(c: Config, s: State, a: Action)
    requires Control(c, s) && (a.Present? || a.Cancel? || a.ScanOverdue?)
    ensures Control(c, Apply(c, s, a))
  {
    var s' := Apply(c, s, a);
    if s' != s {
      assert a.Present? ==> HasToken(c, s, a.payout, a.sig);
      SpawnKeepsControl(c, s, s', s'.procs[|s.procs|]);
    }
  }

  lemma {:induction false} ControlHolds(c: Config, acts: seq<Action>)
    ensures Control(c, Exec(c, acts))
    decreases |acts|
  {
    hide Apply;
    if acts != [] {
      var n := |acts| - 1;
      ControlHolds(c, acts[..n]);
      ApplyKeepsControl(c, Exec(c, acts[..n]), acts[n]);
    }
  }
}
