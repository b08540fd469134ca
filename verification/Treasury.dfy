/** The treasury as a step system: approvers, the decliner, the cancelling initiator, the
    expiry job, the manual caller and the settlement worker, each a program whose steps are
    single statements or transactions on the shared tables. A process that is never
    scheduled again stands for a crash or an exception outside a handler. */
module Treasury {
  import opened Wrappers
  import opened PayoutStateMachine
  import opened Ledgers
  import opened Tables

  datatype Act = Approve | Decline

  datatype Policy = Policy(minApprovers: nat, threshold: int)

  datatype Config = Config(signatoryEmail: map<Signatory, string>, adminEmail: map<Admin, string>, feeBuffer: nat)

  const DEFAULT_POLICY := Policy(2, 10_000_000)

  /** Where a request, job or call stands. */
  datatype Proc =
    | Done
    // processAction
    | Verified(i: nat, sig: Signatory, act: Act)
    | Seen(i: nat, sig: Signatory, act: Act, status: Status)
    | Recorded(i: nat, sig: Signatory, act: Act, status: Status)
    | PolicyRead(i: nat, status: Status, need: nat)
    | Counted(i: nat, status: Status, tally: Tally)
    | Won(i: nat)
    // the transfer call and what follows it, for approvers and the manual caller
    | Firing(i: nat)
    | Calling(i: nat)
    | Threw(i: nat)
    | Returned(i: nat)
    | Releasing(i: nat)
    // initiate: tokens still to issue
    | Issuing(i: nat, todo: seq<Signatory>)
    // manual execute
    | ManualCreated(i: nat)
    | ManualConflict(i: nat)
    // cancel
    | CancelSeen(i: nat)
    // expiry job: overdue rows still to visit
    | Expiring(todo: seq<nat>)
    | ExpiringRelease(i: nat, todo: seq<nat>)

  /** The settlement worker handles one event at a time. */
  datatype Worker = Idle | SuccessRead(i: nat, fee: int) | FailureRead(i: nat)

  datatype State = State(
    db: Db,
    approvals: map<(nat, Signatory), Option<Act>>,
    policy: Policy,
    procs: seq<Proc>,
    worker: Worker)

  datatype Action =
    | Inflow(account: Account, period: Period, amount: int, fee: int, ref: string)
    | SetPolicy(policy: Policy)
    | Initiate(fund: Fund, admin: Admin, amount: int, eligible: seq<Signatory>, expiresAt: int, recorded: bool)
    | Present(payout: nat, sig: Signatory, act: Act)
    | Cancel(payout: nat, admin: Admin)
    | ScanOverdue(now: int)
    | Sweeping(fund: Fund, admin: Admin, minBalance: int, expiresAt: int, accepted: bool)
    | DeliverSuccess(payout: nat, fee: int)
    | DeliverFailure(payout: nat)
    | WorkerStep(at: Clocks)
    | WorkerDrop
    | Step(proc: nat, accepted: bool)

  function Init(): State {
    State(EMPTY_DB, map[], DEFAULT_POLICY, [], Idle)
  }

  /** LOWER, as every comparison of emails applies it. */
  function Lower(s: string): (l: string)
    ensures |l| == |s|
    ensures forall k :: 0 <= k < |s| ==>
      l[k] == if 'A' <= s[k] <= 'Z' then (s[k] as int + 32) as char else s[k]
  {
    seq(|s|, k requires 0 <= k < |s| => if 'A' <= s[k] <= 'Z' then s[k] - 'A' + 'a' else s[k])
  }

  predicate SharesEmail(c: Config, sig: Signatory, admin: Admin) {
    sig in c.signatoryEmail && admin in c.adminEmail && Lower(c.signatoryEmail[sig]) == Lower(c.adminEmail[admin])
  }

  predicate Distinct(s: seq<nat>) {
    forall a, b :: 0 <= a < b < |s| ==> s[a] != s[b]
  }

  /** What quorumService.check reads: acted-upon rows only, one per signatory. */
  function ReadQuorum(approvals: map<(nat, Signatory), Option<Act>>, i: nat, need: nat): Tally {
    Tally(need,
          set k | k in approvals && k.0 == i && approvals[k] == Some(Approve) :: k.1,
          exists k :: k in approvals && k.0 == i && approvals[k] == Some(Decline))
  }

  function Apply(c: Config, s: State, a: Action): State {
    match a
    case Inflow(account, period, amount, fee, ref) =>
      s.(db := CreditInflow(s.db, account, period, amount, fee, ref).GetOr(s.db))
    case SetPolicy(policy) =>
      if policy.minApprovers >= 1 && policy.threshold > 0 then s.(policy := policy) else s
    case Initiate(fund, admin, amount, eligible, expiresAt, recorded) =>
      ApplyInitiate(c, s, fund, admin, amount, eligible, expiresAt, recorded)
    case Present(i, sig, act) =>
      if (i, sig) in s.approvals && s.approvals[(i, sig)].None? && i < |s.db.payouts|
         && !SharesEmail(c, sig, s.db.payouts[i].initiator)
      then Spawn(s, Verified(i, sig, act)) else s
    case Cancel(i, admin) =>
      if i < |s.db.payouts| && s.db.payouts[i].initiator == admin && CanCancel(s.db.payouts[i].status)
      then Spawn(s, CancelSeen(i)) else s
    case ScanOverdue(now) =>
      Spawn(s, Expiring(Overdue(s.db.payouts, now)))
    case Sweeping(fund, admin, minBalance, expiresAt, accepted) =>
      s.(db := Sweep(s.db, fund, admin, minBalance, c.feeBuffer, expiresAt, accepted))
    case DeliverSuccess(ref, fee) =>
      if s.worker.Idle? && CanSettle(s.db, ref) then s.(worker := SuccessRead(ref, fee)) else s
    case DeliverFailure(ref) =>
      if s.worker.Idle? && CanSettle(s.db, ref) then s.(worker := FailureRead(ref)) else s
    case WorkerStep(at) =>
      ApplyWorker(s, at)
    case WorkerDrop =>
      s.(worker := Idle)
    case Step(k, accepted) =>
      if k < |s.procs| then ApplyProc(s, k, accepted) else s
  }

  function Spawn(s: State, pr: Proc): State {
    s.(procs := s.procs + [pr])
  }

  function Goto(s: State, k: nat, pr: Proc): State
    requires k < |s.procs|
  {
    s.(procs := s.procs[k := pr])
  }

  /** Routing by threshold, then the eligibility gate, then the locking transaction; a payout
      that is not `recorded` was created before its locked month was kept. */
  function ApplyInitiate(c: Config, s: State, fund: Fund, admin: Admin, amount: int, eligible: seq<Signatory>,
                         expiresAt: int, recorded: bool): State
  {
    if amount < s.policy.threshold then (
      match LockAndCreate(s.db, fund, admin, amount, c.feeBuffer, expiresAt, Direct, recorded)
      case None => s
      case Some(db) => Spawn(s.(db := db), ManualCreated(|s.db.payouts|))
    ) else if !Distinct(eligible) || (exists sig :: sig in eligible && SharesEmail(c, sig, admin))
            || |eligible| < s.policy.minApprovers then s
    else
      match LockAndCreate(s.db, fund, admin, amount, c.feeBuffer, expiresAt, Governed, recorded)
      case None => s
      case Some(db) => Spawn(s.(db := db), Issuing(|s.db.payouts|, eligible))
  }

  function ApplyWorker(s: State, at: Clocks): State {
    match s.worker
    case Idle => s
    case SuccessRead(i, fee) =>
      if i < |s.db.payouts| then s.(db := SettleSuccess(s.db, i, at, fee), worker := Idle) else s
    case FailureRead(i) =>
      // The release that follows is its own statement; other actors may run before it.
      if i < |s.db.payouts| then Spawn(s.(db := SettleFailure(s.db, i), worker := Idle), Releasing(i)) else s
  }

  /** A compare-and-set: `won` on success, `lost` when another actor advanced the row. */
  function Cas(s: State, k: nat, i: nat, from: set<Status>, to: Status, won: Proc, lost: Proc): State
    requires k < |s.procs|
  {
    match TransitionStatus(s.db, i, from, to)
    case Some(db) => Goto(s.(db := db), k, won)
    case None => Goto(s, k, lost)
  }

  function ApplyProc(s: State, k: nat, accepted: bool): State
    requires k < |s.procs|
  {
    match s.procs[k]
    case Done => s
    case Verified(i, sig, act) =>
      if i < |s.db.payouts| && IsAwaiting(s.db.payouts[i].status)
      then Goto(s, k, Seen(i, sig, act, s.db.payouts[i].status)) else Goto(s, k, Done)
    case Seen(i, sig, act, status) =>
      Goto(s.(approvals := s.approvals[(i, sig) := Some(act)]), k, Recorded(i, sig, act, status))
    case Recorded(i, sig, act, status) =>
      if act == Approve then Goto(s, k, PolicyRead(i, status, s.policy.minApprovers))
      else if !AssertTransition(status, Declined) then Goto(s, k, Done)
      else Cas(s, k, i, AWAITING, Declined, Releasing(i), Done)
    case PolicyRead(i, status, need) =>
      Goto(s, k, Counted(i, status, ReadQuorum(s.approvals, i, need)))
    case Counted(i, status, tally) =>
      if !tally.QuorumReached() then
        // A row read as PARTIAL throws here: the approval stays recorded, the request stops.
        if !AssertTransition(status, Partial) then Goto(s, k, Done)
        else Cas(s, k, i, AWAITING, Partial, Done, Done)
      else if !AssertTransition(status, Approved) then Goto(s, k, Done)
      else (
        match TransitionStatus(s.db, i, AWAITING, Approved)
        case None => Goto(s, k, Done)
        case Some(db) =>
          Goto(s.(db := PutPayout(db, i, db.payouts[i].(tally := Some(tally)))), k, Won(i))
      )
    case Won(i) => Cas(s, k, i, {Approved}, Transferring, Firing(i), Firing(i))
    case Firing(i) =>
      if i < |s.db.payouts| then
        Goto(s.(db := PutPayout(s.db, i, s.db.payouts[i].(fires := s.db.payouts[i].fires + 1))), k, Calling(i))
      else s
    case Calling(i) => Goto(s, k, if accepted then Returned(i) else Threw(i))
    case Threw(i) => Cas(s, k, i, {Transferring}, Failed, Releasing(i), Releasing(i))
    case Returned(i) =>
      if i < |s.db.payouts| then
        Goto(s.(db := PutPayout(s.db, i, s.db.payouts[i].(status := Transferring, hasRef := true))), k, Done)
      else s
    case Releasing(i) =>
      if i < |s.db.payouts| then Goto(s.(db := ReleaseLock(s.db, i)), k, Done) else s
    case Issuing(i, todo) =>
      if todo == [] || (i, todo[0]) in s.approvals then Goto(s, k, Done)
      else Goto(s.(approvals := s.approvals[(i, todo[0]) := None]), k, Issuing(i, todo[1..]))
    case ManualCreated(i) => Cas(s, k, i, {Pending}, Transferring, Firing(i), ManualConflict(i))
    case ManualConflict(i) =>
      if i < |s.db.payouts| then Goto(s.(db := s.db.(books := ReleaseRows(s.db, i))), k, Done) else s
    case CancelSeen(i) => Cas(s, k, i, {Pending}, Cancelled, Releasing(i), Done)
    case Expiring(todo) =>
      if todo == [] then Goto(s, k, Done)
      else Cas(s, k, todo[0], AWAITING, Expired, ExpiringRelease(todo[0], todo[1..]), Expiring(todo[1..]))
    case ExpiringRelease(i, todo) =>
      if i < |s.db.payouts| then Goto(s.(db := ReleaseLock(s.db, i)), k, Expiring(todo)) else s
  }

  /** The state after a run: any interleaving of any actors is some list of actions, an
      action that is not enabled changing nothing. */
  function Exec(c: Config, acts: seq<Action>): State {
    if acts == [] then Init() else Apply(c, Exec(c, acts[..|acts| - 1]), acts[|acts| - 1])
  }

  lemma ExecSnoc(c: Config, acts: seq<Action>, a: Action)
    ensures Exec(c, acts + [a]) == Apply(c, Exec(c, acts), a)
  {
    assert (acts + [a])[..|acts|] == acts;
  }
}
