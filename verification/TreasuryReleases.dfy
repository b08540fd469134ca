/** Every release of a payout's lock, the manual caller's conflict branch included: how often
    it can happen, and who alone can still do it once the transfer call is out. */
module TreasuryReleases {
  import opened Wrappers
  import opened PayoutStateMachine
  import opened Ledgers
  import opened Tables
  import opened Treasury
  import opened TreasuryControl
  import opened TreasuryMoney
  import opened TreasuryRuns
  import opened TreasurySafety

  // ----- Counting all of them -----

  /** releaseLock calls of the manual caller that lost its row. */
  function ConflictReleases(s: State, a: Action, i: nat): nat {
    if a.Step? && a.proc < |s.procs| && s.procs[a.proc] == ManualConflict(i) && i < |s.db.payouts| then 1 else 0
  }

  /** Every releaseLock or debitLedger an action runs for a payout. */
  function Releases(s: State, a: Action, i: nat): nat {
    GivesBack(s, a, i) + ConflictReleases(s, a, i)
  }

  function ConflictCount(c: Config, acts: seq<Action>, i: nat): nat {
    if acts == [] then 0
    else
      var n := |acts| - 1;
      ConflictCount(c, acts[..n], i) + ConflictReleases(Exec(c, acts[..n]), acts[n], i)
  }

  function ReleaseCount(c: Config, acts: seq<Action>, i: nat): nat {
    if acts == [] then 0
    else
      var n := |acts| - 1;
      ReleaseCount(c, acts[..n], i) + Releases(Exec(c, acts[..n]), acts[n], i)
  }

  lemma {:induction false} ReleaseCountSplits(c: Config, acts: seq<Action>, i: nat)
    ensures ReleaseCount(c, acts, i) == GiveBackCount(c, acts, i) + ConflictCount(c, acts, i)
    decreases |acts|
  {
    hide Exec, Releases, GivesBack, ConflictReleases;
    if acts != [] {
      var n := |acts| - 1;
      ReleaseCountSplits(c, acts[..n], i);
      SplitOne(Exec(c, acts[..n]), acts[n], i);
    }
  }

  lemma SplitOne(s: State, a: Action, i: nat)
    ensures Releases(s, a, i) == GivesBack(s, a, i) + ConflictReleases(s, a, i)
  {
  }

  /** Nothing is missing from the count: besides inflows, initiations and sweeps only a
      counted release writes the ledger. */
  lemma OnlyReleasesWriteLedger(c: Config, acts: seq<Action>, a: Action)
    requires !a.Inflow? && !a.Initiate? && !a.Sweeping?
    requires forall i: nat :: Releases(Exec(c, acts), a, i) == 0
    ensures Apply(c, Exec(c, acts), a).db.books == Exec(c, acts).db.books
  {
    var s := Exec(c, acts);
    ControlHolds(c, acts);
    if a.Step? {
      hide Exec, Apply, Releases;
      StepWritesLedger(c, s, a);
    } else if a.WorkerStep? && s.worker.SuccessRead? {
      var counted := Releases(s, a, s.worker.i);
    }
  }

  lemma StepWritesLedger(c: Config, s: State, a: Action)
    requires Control(c, s) && a.Step? && forall i: nat :: Releases(s, a, i) == 0
    ensures Apply(c, s, a).db.books == s.db.books
  {
    hide ApplyProc;
    if a.proc < |s.procs| {
      StepWrites(c, s, a.proc, a.accepted);
      hide Control;
      if IsRelease(s.procs[a.proc]) || s.procs[a.proc].ManualConflict? {
        var counted := Releases(s, a, s.procs[a.proc].i);
      }
    }
  }

  // ----- One manual caller a payout -----

  function ManualOf(pr: Proc): Option<nat> {
    match pr
    case ManualCreated(i) => Some(i)
    case ManualConflict(i) => Some(i)
    case _ => None
  }

  /** What a manual caller that has not fired may find on its row. */
  predicate ManualRowOk(s: State, pr: Proc) {
    ManualOf(pr).Some? ==>
      var i := ManualOf(pr).value;
      && i < |s.db.payouts| && s.db.payouts[i].route.Direct?
      && (s.db.payouts[i].status in {Expired, Cancelled} || (pr.ManualCreated? && s.db.payouts[i].status == Pending))
  }

  ghost predicate ManualOk(s: State) {
    && (forall k :: 0 <= k < |s.procs| ==> ManualRowOk(s, s.procs[k]))
    && (forall j, k :: 0 <= j < k < |s.procs| && ManualOf(s.procs[j]).Some? ==>
          ManualOf(s.procs[j]) != ManualOf(s.procs[k]))
  }

  /** A step makes a manual caller only out of one, and then a conflict over a row taken. */
  lemma ManualProcStep(s: State, k: nat, accepted: bool)
    requires k < |s.procs|
    ensures var s' := ApplyProc(s, k, accepted);
      && |s'.procs| == |s.procs| && s'.procs == s.procs[k := s'.procs[k]]
      && (ManualOf(s'.procs[k]).Some? ==> ManualOf(s'.procs[k]) == ManualOf(s.procs[k]))
      && (ManualOf(s'.procs[k]).Some? && ManualOf(s'.procs[k]).value < |s.db.payouts| ==>
            && s'.db.payouts == s.db.payouts && s'.procs[k].ManualConflict?
            && s.procs[k].ManualCreated? && s.db.payouts[ManualOf(s'.procs[k]).value].status != Pending)
  {
  }

  /** Only its own caller takes a payout from PENDING straight to TRANSFERRING. */
  lemma JumpIsManual(c: Config, s: State, k: nat, accepted: bool, i: nat)
    requires Control(c, s) && k < |s.procs| && i < |s.db.payouts| && s.db.payouts[i].status == Pending
    requires i < |ApplyProc(s, k, accepted).db.payouts|
    requires ApplyProc(s, k, accepted).db.payouts[i].status == Transferring
    ensures s.procs[k] == ManualCreated(i)
  {
    hide ApplyProc;
    if OwnerOf(s.procs[k]).Some? {
      OwnersLeavePending(c, s, k, accepted, i);
    } else if s.procs[k].Counted? {
      CountedNeverFires(s, k, accepted, i);
    } else {
      OtherJumpIsManual(s, k, accepted, i);
    }
  }

  lemma OwnersLeavePending(c: Config, s: State, k: nat, accepted: bool, i: nat)
    requires Control(c, s) && k < |s.procs| && i < |s.db.payouts| && s.db.payouts[i].status == Pending
    requires OwnerOf(s.procs[k]).Some? && i < |ApplyProc(s, k, accepted).db.payouts|
    ensures ApplyProc(s, k, accepted).db.payouts[i].status == Pending
  {
    assert ProcOk(c, s, s.procs[k]);
    hide Control;
  }

  lemma CountedNeverFires(s: State, k: nat, accepted: bool, i: nat)
    requires k < |s.procs| && i < |s.db.payouts| && s.db.payouts[i].status == Pending && s.procs[k].Counted?
    requires i < |ApplyProc(s, k, accepted).db.payouts|
    ensures ApplyProc(s, k, accepted).db.payouts[i].status != Transferring
  {
    hide ReadQuorum;
  }

  lemma OtherJumpIsManual(s: State, k: nat, accepted: bool, i: nat)
    requires k < |s.procs| && i < |s.db.payouts| && s.db.payouts[i].status == Pending
    requires OwnerOf(s.procs[k]).None? && !s.procs[k].Counted? && i < |ApplyProc(s, k, accepted).db.payouts|
    requires ApplyProc(s, k, accepted).db.payouts[i].status == Transferring
    ensures s.procs[k] == ManualCreated(i)
  {
    hide ReadQuorum, Ledgers.Release;
  }

  /** A direct row that a waiting caller relies on stays as it may be, unless that caller moved. */
  lemma ManualRowStays(c: Config, s: State, a: Action, k: nat)
    requires Control(c, s) && Control(c, Apply(c, s, a)) && ManualOk(s)
    requires k < |s.procs| && !(a.Step? && a.proc == k)
    ensures ManualRowOk(Apply(c, s, a), s.procs[k])
  {
    var pr := s.procs[k];
    if ManualOf(pr).Some? {
      hide Apply;
      var i := ManualOf(pr).value;
      assert ManualRowOk(s, pr);
      ApplyRowStep(c, s, a, i);
      var s' := Apply(c, s, a);
      assert PayoutOk(c, s'.db.payouts[i]);
      if s.db.payouts[i].status == Pending && s'.db.payouts[i].status == Transferring {
        NoOtherJump(c, s, a, k, i);
      }
    }
  }

  lemma NoOtherJump(c: Config, s: State, a: Action, k: nat, i: nat)
    requires Control(c, s) && ManualOk(s) && k < |s.procs| && !(a.Step? && a.proc == k)
    requires ManualOf(s.procs[k]) == Some(i) && i < |s.db.payouts| && s.db.payouts[i].status == Pending
    requires i < |Apply(c, s, a).db.payouts|
    ensures Apply(c, s, a).db.payouts[i].status != Transferring
  {
    if a.Step? && a.proc < |s.procs| {
      hide ApplyProc;
      if ApplyProc(s, a.proc, a.accepted).db.payouts[i].status == Transferring {
        JumpIsManual(c, s, a.proc, a.accepted, i);
      }
    }
  }

  /** Every other action leaves the processes alone or adds one; a new caller has a new row. */
  lemma ManualArrivals(c: Config, s: State, a: Action)
    requires !a.Step?
    ensures var s' := Apply(c, s, a);
      && s.procs <= s'.procs
      && (forall k :: |s.procs| <= k < |s'.procs| && ManualOf(s'.procs[k]).Some? ==>
            && k == |s.procs| && s'.procs[k] == ManualCreated(|s.db.payouts|) && |s'.procs| == |s.procs| + 1
            && ManualRowOk(s', s'.procs[k]))
  {
  }

  lemma ApplyKeepsManual(c: Config, s: State, a: Action)
    requires Control(c, s) && Control(c, Apply(c, s, a)) && ManualOk(s)
    ensures ManualOk(Apply(c, s, a))
  {
    var s' := Apply(c, s, a);
    forall k | 0 <= k < |s.procs| && !(a.Step? && a.proc == k) ensures ManualRowOk(s', s.procs[k]) {
      ManualRowStays(c, s, a, k);
    }
    if a.Step? {
      hide ApplyProc;
      if a.proc < |s.procs| {
        ManualProcStep(s, a.proc, a.accepted);
        assert ManualRowOk(s, s.procs[a.proc]);
      }
    } else {
      hide Apply;
      ManualArrivals(c, s, a);
      forall k | 0 <= k < |s.procs| ensures ManualOf(s.procs[k]) != Some(|s.db.payouts|) {
        assert ManualRowOk(s, s.procs[k]);
      }
    }
  }

  lemma {:induction false} ManualHolds(c: Config, acts: seq<Action>)
    ensures ManualOk(Exec(c, acts))
    decreases |acts|
  {
    hide Apply;
    if acts != [] {
      var n := |acts| - 1;
      ManualHolds(c, acts[..n]);
      ControlHolds(c, acts[..n]);
      ControlHolds(c, acts);
      ApplyKeepsManual(c, Exec(c, acts[..n]), acts[n]);
    }
  }

  // ----- How often a lock is released -----

  predicate NoManualAt(s: State, i: nat) {
    forall k :: 0 <= k < |s.procs| ==> ManualOf(s.procs[k]) != Some(i)
  }

  /** After its conflict release a payout has no manual caller left and stays killed. */
  ghost predicate ConflictOver(s: State, i: nat) {
    && i < |s.db.payouts| && s.db.payouts[i].route.Direct? && s.db.payouts[i].status in {Expired, Cancelled}
    && NoManualAt(s, i)
  }

  lemma StaysOver(c: Config, s: State, a: Action, i: nat)
    requires Control(c, s) && ConflictOver(s, i)
    ensures ConflictOver(Apply(c, s, a), i)
  {
    hide Apply;
    ApplyRowStep(c, s, a, i);
    NoManualReturns(c, s, a, i);
  }

  lemma NoManualReturns(c: Config, s: State, a: Action, i: nat)
    requires NoManualAt(s, i) && i < |s.db.payouts|
    ensures NoManualAt(Apply(c, s, a), i)
  {
    if a.Step? {
      hide ApplyProc;
      if a.proc < |s.procs| {
        ManualProcStep(s, a.proc, a.accepted);
      }
    } else {
      hide Apply;
      ManualArrivals(c, s, a);
    }
  }

  lemma ConflictEnds(c: Config, s: State, a: Action, i: nat)
    requires Control(c, s) && ManualOk(s) && ConflictReleases(s, a, i) == 1
    ensures ConflictOver(Apply(c, s, a), i)
  {
    assert ManualRowOk(s, s.procs[a.proc]);
    var s' := Apply(c, s, a);
    assert s'.procs == s.procs[a.proc := Done] && s'.db.payouts == s.db.payouts;
    forall k | 0 <= k < |s'.procs| ensures ManualOf(s'.procs[k]) != Some(i) {
      assert ManualOf(s.procs[a.proc]) == Some(i);
    }
  }

  lemma {:induction false} ConflictsHold(c: Config, acts: seq<Action>, i: nat)
    ensures ConflictCount(c, acts, i) <= 1
    ensures ConflictCount(c, acts, i) == 1 ==> ConflictOver(Exec(c, acts), i)
    decreases |acts|
  {
    hide Apply, ConflictOver;
    if acts != [] {
      var n := |acts| - 1;
      var s := Exec(c, acts[..n]);
      ConflictsHold(c, acts[..n], i);
      ControlHolds(c, acts[..n]);
      ManualHolds(c, acts[..n]);
      if ConflictCount(c, acts[..n], i) == 1 {
        OverMeansNoConflict(s, acts[n], i);
        StaysOver(c, s, acts[n], i);
      } else if ConflictReleases(s, acts[n], i) == 1 {
        ConflictEnds(c, s, acts[n], i);
      }
    }
  }

  lemma OverMeansNoConflict(s: State, a: Action, i: nat)
    requires ConflictOver(s, i)
    ensures ConflictReleases(s, a, i) == 0
  {
    if a.Step? && a.proc < |s.procs| {
      assert ManualOf(s.procs[a.proc]) != Some(i);
    }
  }

  /** A payout's lock is released or debited at most twice in any run, and at most once unless
      both its manual caller's conflict branch and the actor that killed it have released.
      When the conflict branch has run, the payout is a direct one that was expired or
      cancelled and never fired, and its killer has released too or still will. */
  lemma ReleasedTwiceIffConflict(c: Config, acts: seq<Action>, i: nat)
    ensures var s := Exec(c, acts);
      && ReleaseCount(c, acts, i) <= 2
      && (ReleaseCount(c, acts, i) <= 1 <==> ConflictCount(c, acts, i) == 0 || GiveBackCount(c, acts, i) == 0)
      && (ConflictCount(c, acts, i) == 1 ==>
            && i < |s.db.payouts| && s.db.payouts[i].route.Direct? && s.db.payouts[i].status in {Expired, Cancelled}
            && FireCount(c, acts, i) == 0
            && (ReleaseCount(c, acts, i) == 2 <==> !Owed(s, i)))
  {
    hide Apply;
    var s := Exec(c, acts);
    ReleaseCountSplits(c, acts, i);
    CountsHold(c, acts, i);
    ConflictsHold(c, acts, i);
    ControlHolds(c, acts);
    if ConflictCount(c, acts, i) == 1 {
      AtMostOnce(c, acts, i);
      HeldIffDue(c, s, i);
    }
  }

  // ----- The caller whose transfer is out -----

  /** When the call has come back the caller's unguarded TRANSFERRING write finds the row
      TRANSFERRING and unsettled, its failure branch wins its compare-and-set, and no action
      of anybody, the losing branch of a manual caller included, can release or debit. */
  lemma CallerOwnsItsPayout(c: Config, acts: seq<Action>, k: nat, i: nat)
    requires var s := Exec(c, acts); k < |s.procs| && (s.procs[k] == Returned(i) || s.procs[k] == Threw(i))
    ensures var s := Exec(c, acts);
      && i < |s.db.payouts| && s.db.payouts[i].status == Transferring
      && !s.db.payouts[i].hasRef && s.db.payouts[i].held && SettleCount(c, acts, i) == 0
      && (forall j :: 0 <= j < |s.procs| && j != k ==>
            OwnerOf(s.procs[j]) != Some(i) && ManualOf(s.procs[j]) != Some(i))
      && (forall a :: Releases(s, a, i) == 0)
      && (s.procs[k] == Threw(i) ==> TransitionStatus(s.db, i, {Transferring}, Failed).Some?)
  {
    hide Apply;
    ControlHolds(c, acts);
    CountsHold(c, acts, i);
    var s := Exec(c, acts);
    assert ProcOk(c, s, s.procs[k]) && PayoutOk(c, s.db.payouts[i]);
    OthersDoNotOwn(c, s, k, i);
    ManualHolds(c, acts);
    CallingMeansNoRelease(c, s, k, i);
  }

  lemma CallingMeansNoRelease(c: Config, s: State, k: nat, i: nat)
    requires Control(c, s) && ManualOk(s) && k < |s.procs| && (s.procs[k] == Returned(i) || s.procs[k] == Threw(i))
    ensures forall j :: 0 <= j < |s.procs| ==> ManualOf(s.procs[j]) != Some(i)
    ensures forall a :: Releases(s, a, i) == 0
  {
    assert ProcOk(c, s, s.procs[k]);
    OthersDoNotOwn(c, s, k, i);
    forall j | 0 <= j < |s.procs| ensures ManualOf(s.procs[j]) != Some(i) {
      assert ManualRowOk(s, s.procs[j]);
    }
    forall a ensures Releases(s, a, i) == 0 {
      if a.Step? && a.proc < |s.procs| {
        assert ManualOf(s.procs[a.proc]) != Some(i);
      }
    }
  }

  /** From a thrown call to its release: process k alone holds the payout. */
  ghost predicate ThrownTail(s: State, k: nat, i: nat) {
    && k < |s.procs| && i < |s.db.payouts|
    && !s.db.payouts[i].hasRef
    && match s.procs[k]
       case Threw(x) => x == i && s.db.payouts[i].status == Transferring
       case Releasing(x) => x == i && s.db.payouts[i].status == Failed
       case Done => s.db.payouts[i].status == Failed && !s.db.payouts[i].held
       case _ => false
  }

  lemma TailReleasesAlone(c: Config, s: State, k: nat, i: nat, a: Action)
    requires Control(c, s) && ManualOk(s) && ThrownTail(s, k, i) && Releases(s, a, i) > 0
    ensures a.Step? && a.proc == k
  {
    if a.Step? && a.proc < |s.procs| && a.proc != k {
      TailKeepsOthersOut(c, s, k, i, a.proc);
    }
  }

  lemma TailKeepsOthersOut(c: Config, s: State, k: nat, i: nat, j: nat)
    requires Control(c, s) && ManualOk(s) && ThrownTail(s, k, i) && j < |s.procs| && j != k
    ensures !(IsRelease(s.procs[j]) && s.procs[j].i == i) && s.procs[j] != ManualConflict(i)
  {
    assert ProcOk(c, s, s.procs[j]) && ManualRowOk(s, s.procs[j]) && ProcOk(c, s, s.procs[k]);
  }

  lemma TailGoesOn(c: Config, s: State, k: nat, i: nat, a: Action)
    requires Control(c, s) && Control(c, Apply(c, s, a)) && ThrownTail(s, k, i)
    ensures ThrownTail(Apply(c, s, a), k, i)
  {
    if a.Step? && a.proc == k {
      assert ProcOk(c, s, s.procs[k]);
      TailOwnStep(s, k, i, a.accepted);
    } else {
      var s' := Apply(c, s, a);
      ProcessesStand(c, s, a, k);
      hide Apply;
      ApplyRowStep(c, s, a, i);
      assert ProcOk(c, s', s'.procs[k]) && PayoutOk(c, s.db.payouts[i]) && PayoutOk(c, s'.db.payouts[i]);
      NoSettlement(c, s, a, i);
    }
  }

  lemma TailOwnStep(s: State, k: nat, i: nat, accepted: bool)
    requires ThrownTail(s, k, i)
    ensures ThrownTail(ApplyProc(s, k, accepted), k, i)
  {
  }

  lemma ProcessesStand(c: Config, s: State, a: Action, k: nat)
    requires k < |s.procs| && !(a.Step? && a.proc == k)
    ensures k < |Apply(c, s, a).procs| && Apply(c, s, a).procs[k] == s.procs[k]
  {
    if a.Step? {
      hide ApplyProc;
      if a.proc < |s.procs| {
        ManualProcStep(s, a.proc, a.accepted);
      }
    } else {
      hide Apply;
      ManualArrivals(c, s, a);
    }
  }

  lemma NoSettlement(c: Config, s: State, a: Action, i: nat)
    requires Control(c, s) && i < |s.db.payouts| && !s.db.payouts[i].hasRef
    ensures Settles(s, a, i) == 0
  {
  }

  /** Over every continuation: once the transfer call has thrown, whatever the others do, each
      release or debit of that payout is the caller's own, and there is at most one. */
  lemma {:induction false} CallerIsOnlyReleaser(c: Config, acts: seq<Action>, more: seq<Action>, k: nat, i: nat)
    requires var s := Exec(c, acts); k < |s.procs| && s.procs[k] == Threw(i)
    ensures ThrownTail(Exec(c, acts + more), k, i)
    ensures forall a :: Releases(Exec(c, acts + more), a, i) > 0 ==> a.Step? && a.proc == k
    ensures ReleaseCount(c, acts + more, i) <= 1
    decreases |more|
  {
    hide Apply, ThrownTail, Releases;
    ControlHolds(c, acts + more);
    ManualHolds(c, acts + more);
    if more == [] {
      assert acts + more == acts;
      CallerOwnsItsPayout(c, acts, k, i);
      TailStarts(Exec(c, acts), k, i);
    } else {
      var n := |more| - 1;
      CallerIsOnlyReleaser(c, acts, more[..n], k, i);
      assert acts + more == (acts + more[..n]) + [more[n]];
      ExecSnoc(c, acts + more[..n], more[n]);
      ControlHolds(c, acts + more[..n]);
      TailGoesOn(c, Exec(c, acts + more[..n]), k, i, more[n]);
    }
    forall a | Releases(Exec(c, acts + more), a, i) > 0 ensures a.Step? && a.proc == k {
      TailReleasesAlone(c, Exec(c, acts + more), k, i, a);
    }
    TailReleasedOnce(c, acts + more, k, i);
  }

  lemma TailStarts(s: State, k: nat, i: nat)
    requires k < |s.procs| && s.procs[k] == Threw(i)
    requires i < |s.db.payouts| && s.db.payouts[i].status == Transferring && !s.db.payouts[i].hasRef
    ensures ThrownTail(s, k, i)
  {
  }

  lemma TailReleasedOnce(c: Config, acts: seq<Action>, k: nat, i: nat)
    requires ThrownTail(Exec(c, acts), k, i)
    ensures ReleaseCount(c, acts, i) <= 1
  {
    ReleaseCountSplits(c, acts, i);
    ConflictsHold(c, acts, i);
    CountsHold(c, acts, i);
  }

  // ----- Runs without a canceller or an expiry job -----

  predicate IsKiller(pr: Proc) {
    pr.CancelSeen? || pr.Expiring? || pr.ExpiringRelease?
  }

  /** Nobody is about to kill a direct payout, and none has been killed. */
  ghost predicate Calm(s: State) {
    && (forall k :: 0 <= k < |s.procs| ==> !IsKiller(s.procs[k]) && !s.procs[k].ManualConflict?)
    && (forall i :: 0 <= i < |s.db.payouts| ==> s.db.payouts[i].status !in {Expired, Cancelled})
  }

  lemma CalmStep(s: State, k: nat, accepted: bool)
    requires Calm(s) && ManualOk(s) && k < |s.procs|
    ensures Calm(ApplyProc(s, k, accepted))
  {
    assert ManualRowOk(s, s.procs[k]);
    hide ReadQuorum, ReleaseRows, ReleaseLock, ManualOk, ValidTransitions;
    if OwnerOf(s.procs[k]).Some? {
      OwnerKeepsCalm(s, k, accepted);
    }
  }

  lemma OwnerKeepsCalm(s: State, k: nat, accepted: bool)
    requires Calm(s) && k < |s.procs| && OwnerOf(s.procs[k]).Some?
    ensures Calm(ApplyProc(s, k, accepted))
  {
    hide ReleaseRows;
  }

  lemma ApplyKeepsCalm(c: Config, s: State, a: Action)
    requires Calm(s) && ManualOk(s) && !a.Cancel? && !a.ScanOverdue?
    ensures Calm(Apply(c, s, a))
  {
    hide ApplyProc, SweepAmount, TryLock, ManualOk, ReleaseRows, DebitRows;
    if a.Step? && a.proc < |s.procs| {
      CalmStep(s, a.proc, a.accepted);
    }
  }

  predicate KillerFree(acts: seq<Action>) {
    forall j :: 0 <= j < |acts| ==> !acts[j].Cancel? && !acts[j].ScanOverdue?
  }

  lemma {:induction false} CalmHolds(c: Config, acts: seq<Action>)
    requires KillerFree(acts)
    ensures Calm(Exec(c, acts))
    decreases |acts|
  {
    hide Apply;
    if acts != [] {
      var n := |acts| - 1;
      CalmHolds(c, acts[..n]);
      ManualHolds(c, acts[..n]);
      ApplyKeepsCalm(c, Exec(c, acts[..n]), acts[n]);
    }
  }

  /** Where nobody cancels and no expiry job runs, no manual caller ever loses its row. */
  lemma KillerFreeNeverSteals(c: Config, acts: seq<Action>)
    requires KillerFree(acts)
    ensures NoSteals(c, acts)
  {
    hide Apply;
    forall j | 0 <= j < |acts| ensures !StealsLock(Exec(c, acts[..j]), acts[j]) {
      CalmHolds(c, acts[..j]);
    }
  }
}
