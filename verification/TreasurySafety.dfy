/** Safety over whole runs: single fire, settle once, one release, the reference gate and
    the path every status takes. */
module TreasurySafety {
  import opened Wrappers
  import opened PayoutStateMachine
  import opened Ledgers
  import opened Tables
  import opened Treasury
  import opened TreasuryControl
  import opened TreasuryRuns

  // ----- Counting effects along a run -----

  /** initiateTransfer calls an action makes for a payout. */
  function Fires(c: Config, s: State, a: Action, i: nat): nat {
    match a
    case Step(k, _) => if k < |s.procs| && s.procs[k] == Firing(i) && i < |s.db.payouts| then 1 else 0
    case Sweeping(fund, _, minBalance, _, _) =>
      if i == |s.db.payouts| && SweepAmount(s.db, fund, minBalance, c.feeBuffer) != 0 then 1 else 0
    case _ => 0
  }

  /** Settlement events that take effect on a payout. */
  function Settles(s: State, a: Action, i: nat): nat {
    if a.WorkerStep? && !s.worker.Idle? && s.worker.i == i && i < |s.db.payouts| then 1 else 0
  }

  /** Releases by the process that decided a payout, and settling debits. The losing manual
      caller's release is not one of them; TreasuryReleases counts it too. */
  function GivesBack(s: State, a: Action, i: nat): nat {
    match a
    case Step(k, _) =>
      if k < |s.procs| && IsRelease(s.procs[k]) && s.procs[k].i == i && i < |s.db.payouts| then 1 else 0
    case WorkerStep(_) => if s.worker.SuccessRead? && s.worker.i == i && i < |s.db.payouts| then 1 else 0
    case _ => 0
  }

  function FireCount(c: Config, acts: seq<Action>, i: nat): nat {
    if acts == [] then 0
    else
      var n := |acts| - 1;
      FireCount(c, acts[..n], i) + Fires(c, Exec(c, acts[..n]), acts[n], i)
  }

  function SettleCount(c: Config, acts: seq<Action>, i: nat): nat {
    if acts == [] then 0
    else
      var n := |acts| - 1;
      SettleCount(c, acts[..n], i) + Settles(Exec(c, acts[..n]), acts[n], i)
  }

  function GiveBackCount(c: Config, acts: seq<Action>, i: nat): nat {
    if acts == [] then 0
    else
      var n := |acts| - 1;
      GiveBackCount(c, acts[..n], i) + GivesBack(Exec(c, acts[..n]), acts[n], i)
  }

  /** What one action may do to one existing row. */
  ghost predicate RowStep(s: State, s': State, i: nat, fires: nat, settles: nat, givesBack: nat)
    requires i < |s.db.payouts|
  {
    && i < |s'.db.payouts|
    && var po, po' := s.db.payouts[i], s'.db.payouts[i];
       && SameRequest(po, po')
       && (po'.status == po.status || CodeMove(po.status, po'.status))
       && po'.fires == po.fires + fires
       && po'.settled == po.settled + settles
       && (po'.held <==> po.held && givesBack == 0)
       && (givesBack > 0 ==> givesBack == 1 && po.held)
  }

  /** The calls and releases of the process that owns the row it writes. */
  lemma OwnerRowStep(c: Config, s: State, k: nat, accepted: bool, i: nat)
    requires Control(c, s) && k < |s.procs| && i < |s.db.payouts| && OwnerOf(s.procs[k]).Some?
    ensures RowStep(s, ApplyProc(s, k, accepted), i,
                    if s.procs[k] == Firing(i) then 1 else 0, 0,
                    if IsRelease(s.procs[k]) && s.procs[k].i == i then 1 else 0)
  {
    assert ProcOk(c, s, s.procs[k]) && PayoutOk(c, s.db.payouts[i]);
    hide Control, ReleaseRows, ReadQuorum, ValidTransitions;
  }

  /** Compare-and-sets of the processes that own nothing. */
  lemma OtherRowStep(c: Config, s: State, k: nat, accepted: bool, i: nat)
    requires Control(c, s) && k < |s.procs| && i < |s.db.payouts| && OwnerOf(s.procs[k]).None? && !s.procs[k].Counted?
    ensures RowStep(s, ApplyProc(s, k, accepted), i, 0, 0, 0)
  {
    assert ProcOk(c, s, s.procs[k]);
    hide Control, Cas, RowStep;
    if ApplyProc(s, k, accepted).db == s.db {
      UnwrittenRowStep(s, ApplyProc(s, k, accepted), i);
    } else {
      match s.procs[k]
      case Recorded(x, _, _, _) => CasRowStep(s, k, x, AWAITING, Declined, Releasing(x), Done, i);
      case ManualCreated(x) => CasRowStep(s, k, x, {Pending}, Transferring, Firing(x), ManualConflict(x), i);
      case CancelSeen(x) => CasRowStep(s, k, x, {Pending}, Cancelled, Releasing(x), Done, i);
      case Expiring(todo) =>
        CasRowStep(s, k, todo[0], AWAITING, Expired, ExpiringRelease(todo[0], todo[1..]), Expiring(todo[1..]), i);
      case _ => ConflictRowStep(s, k, accepted, i);
    }
  }

  lemma UnwrittenRowStep(s: State, s': State, i: nat)
    requires i < |s.db.payouts| && i < |s'.db.payouts| && s'.db.payouts[i] == s.db.payouts[i]
    ensures RowStep(s, s', i, 0, 0, 0)
  {
  }

  lemma ConflictRowStep(s: State, k: nat, accepted: bool, i: nat)
    requires k < |s.procs| && i < |s.db.payouts| && s.procs[k].ManualConflict?
    ensures RowStep(s, ApplyProc(s, k, accepted), i, 0, 0, 0)
  {
  }

  lemma CasRowStep(s: State, k: nat, x: nat, from: set<Status>, to: Status, won: Proc, lost: Proc, i: nat)
    requires k < |s.procs| && i < |s.db.payouts|
    requires s.db.payouts[i].status in from ==> CodeMove(s.db.payouts[i].status, to)
    ensures RowStep(s, Cas(s, k, x, from, to, won, lost), i, 0, 0, 0)
  {
    hide CodeMove, RowStep;
    if TransitionStatus(s.db, x, from, to).None? || x != i {
      UnwrittenRowStep(s, Cas(s, k, x, from, to, won, lost), i);
    } else {
      StatusRowStep(s, Cas(s, k, x, from, to, won, lost), i, to);
    }
  }

  lemma StatusRowStep(s: State, s': State, i: nat, to: Status)
    requires i < |s.db.payouts| == |s'.db.payouts| && CodeMove(s.db.payouts[i].status, to)
    requires s'.db.payouts[i] == s.db.payouts[i].(status := to)
    ensures RowStep(s, s', i, 0, 0, 0)
  {
  }

  lemma CountedRowStep(s: State, k: nat, accepted: bool, i: nat)
    requires k < |s.procs| && i < |s.db.payouts| && s.procs[k].Counted?
    ensures RowStep(s, ApplyProc(s, k, accepted), i, 0, 0, 0)
  {
  }

  lemma WorkerRowStep(c: Config, s: State, at: Clocks, i: nat)
    requires Control(c, s) && i < |s.db.payouts|
    ensures RowStep(s, ApplyWorker(s, at), i, 0, Settles(s, WorkerStep(at), i), GivesBack(s, WorkerStep(at), i))
  {
    assert PayoutOk(c, s.db.payouts[i]);
  }

  lemma ApplyRowStep(c: Config, s: State, a: Action, i: nat)
    requires Control(c, s) && i < |s.db.payouts|
    ensures RowStep(s, Apply(c, s, a), i, Fires(c, s, a, i), Settles(s, a, i), GivesBack(s, a, i))
  {
    hide Control, RowStep, ApplyProc, ApplyWorker;
    match a
    case Step(k, accepted) =>
      if k >= |s.procs| {
        UnwrittenRowStep(s, s, i);
      } else {
        if OwnerOf(s.procs[k]).Some? {
          OwnerRowStep(c, s, k, accepted, i);
        } else if s.procs[k].Counted? {
          CountedRowStep(s, k, accepted, i);
        } else {
          OtherRowStep(c, s, k, accepted, i);
        }
      }
    case WorkerStep(at) =>
      WorkerRowStep(c, s, at, i);
    case _ =>
      UnwrittenRowStep(s, Apply(c, s, a), i);
  }

  /** Only an initiation or a sweep adds rows, one at a time. */
  lemma OthersAddNoRow(c: Config, s: State, a: Action)
    requires !a.Initiate? && !a.Sweeping?
    ensures |Apply(c, s, a).db.payouts| == |s.db.payouts|
  {
    if a.Step? && a.proc < |s.procs| {
      ProcAddsNoRow(s, a.proc, a.accepted);
    }
  }

  lemma ProcAddsNoRow(s: State, k: nat, accepted: bool)
    requires k < |s.procs|
    ensures |ApplyProc(s, k, accepted).db.payouts| == |s.db.payouts|
  {
    hide ReleaseRows, ReadQuorum, ValidTransitions;
  }

  /** A row that appears starts unsettled, called only if a sweep made it. */
  lemma NewRowStep(c: Config, s: State, a: Action, i: nat)
    requires i >= |s.db.payouts|
    ensures var s' := Apply(c, s, a);
      && Settles(s, a, i) == 0 && GivesBack(s, a, i) == 0
      && (if i < |s'.db.payouts| then
            var po := s'.db.payouts[i];
            po.fires == Fires(c, s, a, i) && po.settled == 0 && (po.held || po.route.Swept?)
          else Fires(c, s, a, i) == 0)
  {
    if !a.Initiate? && !a.Sweeping? {
      hide Apply;
      OthersAddNoRow(c, s, a);
    }
  }

  lemma {:induction false} CountsHold(c: Config, acts: seq<Action>, i: nat)
    ensures var s := Exec(c, acts);
      if i < |s.db.payouts| then
        && FireCount(c, acts, i) == s.db.payouts[i].fires
        && SettleCount(c, acts, i) == s.db.payouts[i].settled
        && GiveBackCount(c, acts, i) <= 1
        && (s.db.payouts[i].held ==> GiveBackCount(c, acts, i) == 0)
        && (!s.db.payouts[i].held && !s.db.payouts[i].route.Swept? ==> GiveBackCount(c, acts, i) == 1)
      else
        FireCount(c, acts, i) == SettleCount(c, acts, i) == GiveBackCount(c, acts, i) == 0
    decreases |acts|
  {
    hide Apply, Fires, Settles, GivesBack;
    if acts != [] {
      var n := |acts| - 1;
      var s := Exec(c, acts[..n]);
      CountsHold(c, acts[..n], i);
      ControlHolds(c, acts[..n]);
      if i < |s.db.payouts| {
        ApplyRowStep(c, s, acts[n], i);
      } else {
        NewRowStep(c, s, acts[n], i);
      }
    }
  }

  /** Single fire and settle once: in every interleaving the transfer call is made at most
      once for a payout, and never for one that is DECLINED, EXPIRED or CANCELLED; webhooks
      settle it at most once, only after a call; and whoever decided it gives its reservation
      back at most once, never while it is live and always once it is TRANSFERRED. */
  lemma AtMostOnce(c: Config, acts: seq<Action>, i: nat)
    ensures FireCount(c, acts, i) <= 1 && SettleCount(c, acts, i) <= 1 && GiveBackCount(c, acts, i) <= 1
    ensures SettleCount(c, acts, i) <= FireCount(c, acts, i)
    ensures var s := Exec(c, acts);
      i < |s.db.payouts| ==>
        var status := s.db.payouts[i].status;
        && (status in {Pending, Partial, Approved, Declined, Expired, Cancelled} ==> FireCount(c, acts, i) == 0)
        && (SettleCount(c, acts, i) == 1 ==> status in {Transferred, Failed})
        && (status == Transferred ==> SettleCount(c, acts, i) == 1)
        && (IsLive(status) ==> GiveBackCount(c, acts, i) == 0)
        && (status == Transferred && !s.db.payouts[i].route.Swept? ==> GiveBackCount(c, acts, i) == 1)
  {
    CountsHold(c, acts, i);
    ControlHolds(c, acts);
    var s := Exec(c, acts);
    assert i < |s.db.payouts| ==> PayoutOk(c, s.db.payouts[i]);
  }

  // ----- Statuses -----

  /** Between any two points of a run a payout's status follows a path of the table without
      the FAILED retry, so it never goes back: it is the same or strictly further along, and
      terminal statuses and FAILED never change. */
  lemma {:induction false} StatusFollowsTable(c: Config, acts: seq<Action>, more: seq<Action>, i: nat)
    requires i < |Exec(c, acts).db.payouts|
    ensures var s, s' := Exec(c, acts), Exec(c, acts + more);
      && i < |s'.db.payouts|
      && Reaches(false, s.db.payouts[i].status, s'.db.payouts[i].status)
      && (s'.db.payouts[i].status == s.db.payouts[i].status
          || Rank(s.db.payouts[i].status) < Rank(s'.db.payouts[i].status))
      && (IsTerminal(s.db.payouts[i].status) || s.db.payouts[i].status == Failed
          ==> s'.db.payouts[i].status == s.db.payouts[i].status)
    decreases |more|
  {
    hide Apply, Control, Reaches;
    var s := Exec(c, acts);
    if more == [] {
      assert acts + more == acts;
      CodeMoveIsPath(s.db.payouts[i].status, s.db.payouts[i].status);
    } else {
      var n := |more| - 1;
      StatusFollowsTable(c, acts, more[..n], i);
      var mid := Exec(c, acts + more[..n]);
      assert acts + more == (acts + more[..n]) + [more[n]];
      ExecSnoc(c, acts + more[..n], more[n]);
      ControlHolds(c, acts + more[..n]);
      ApplyRowStep(c, mid, more[n], i);
      var before, between := s.db.payouts[i].status, mid.db.payouts[i].status;
      var after := Exec(c, acts + more).db.payouts[i].status;
      CodeMoveIsPath(between, after);
      ReachesTransitive(false, before, between, after);
      ReachesIffOnward(before, after);
    }
  }

  /** Once called for, a payout can no longer be declined, expired or cancelled. */
  lemma FiredIsNeverKilled(c: Config, acts: seq<Action>, more: seq<Action>, i: nat)
    requires FireCount(c, acts, i) == 1
    ensures var s := Exec(c, acts + more);
      i < |s.db.payouts| && s.db.payouts[i].status in {Transferring, Transferred, Failed}
  {
    CountsHold(c, acts, i);
    FireCountGrows(c, acts, more, i);
    AtMostOnce(c, acts + more, i);
    StatusFollowsTable(c, acts, more, i);
  }

  lemma {:induction false} FireCountGrows(c: Config, acts: seq<Action>, more: seq<Action>, i: nat)
    ensures FireCount(c, acts + more, i) >= FireCount(c, acts, i)
    decreases |more|
  {
    if more == [] {
      assert acts + more == acts;
    } else {
      var n := |more| - 1;
      assert (acts + more)[..|acts + more| - 1] == acts + more[..n];
      FireCountGrows(c, acts, more[..n], i);
    }
  }

  // ----- The reference gate -----

  /** While the reference is not stored no webhook moves the payout. */
  lemma RefGate(c: Config, acts: seq<Action>, i: nat, fee: int)
    ensures var s := Exec(c, acts);
      i < |s.db.payouts| && !s.db.payouts[i].hasRef ==>
        && Apply(c, s, DeliverSuccess(i, fee)) == s
        && Apply(c, s, DeliverFailure(i)) == s
        && (!s.worker.Idle? ==> s.worker.i != i)
  {
    ControlHolds(c, acts);
  }

  /** The first settlement event to find a payout TRANSFERRING decides it: afterwards every
      event for it, of either kind, is dropped for good. */
  lemma SettledIgnoresEvents(c: Config, acts: seq<Action>, more: seq<Action>, i: nat, fee: int)
    requires SettleCount(c, acts, i) == 1
    ensures var s := Exec(c, acts + more);
      && Apply(c, s, DeliverSuccess(i, fee)) == s
      && Apply(c, s, DeliverFailure(i)) == s
  {
    SettledIsFinal(c, acts, more, i);
  }

  lemma SettledIsFinal(c: Config, acts: seq<Action>, more: seq<Action>, i: nat)
    requires SettleCount(c, acts, i) == 1
    ensures var s, s' := Exec(c, acts), Exec(c, acts + more);
      && i < |s.db.payouts| && i < |s'.db.payouts|
      && s.db.payouts[i].status in {Transferred, Failed}
      && s'.db.payouts[i].status == s.db.payouts[i].status
  {
    hide Apply;
    CountsHold(c, acts, i);
    AtMostOnce(c, acts, i);
    StatusFollowsTable(c, acts, more, i);
  }
}
