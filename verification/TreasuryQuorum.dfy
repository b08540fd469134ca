/** M-of-N governance over whole runs: what had been recorded when a payout left the
    awaiting statuses for APPROVED. */
module TreasuryQuorum {
  import opened Wrappers
  import opened PayoutStateMachine
  import opened Ledgers
  import opened Tables
  import opened Treasury
  import opened TreasuryControl
  import opened TreasurySafety

  /** `need` is what the policy said at some point of the run. */
  ghost predicate PolicySaid(c: Config, acts: seq<Action>, need: nat) {
    exists j :: 0 <= j <= |acts| && Exec(c, acts[..j]).policy.minApprovers == need
  }

  /** `t` is what the approvals table said about payout i at some point of the run, against
      a minimum the policy had said by then. */
  ghost predicate TableSaid(c: Config, acts: seq<Action>, i: nat, t: Tally) {
    exists j ::
      0 <= j <= |acts| && PolicySaid(c, acts[..j], t.need) && ReadQuorum(Exec(c, acts[..j]).approvals, i, t.need) == t
  }

  lemma PolicySaidStays(c: Config, acts: seq<Action>, n: nat, need: nat)
    requires n <= |acts| && PolicySaid(c, acts[..n], need)
    ensures PolicySaid(c, acts, need)
  {
    var j :| 0 <= j <= n && Exec(c, acts[..n][..j]).policy.minApprovers == need;
    assert acts[..n][..j] == acts[..j];
  }

  lemma TableSaidStays(c: Config, acts: seq<Action>, n: nat, i: nat, t: Tally)
    requires n <= |acts| && TableSaid(c, acts[..n], i, t)
    ensures TableSaid(c, acts, i, t)
  {
    hide Exec, Apply, ReadQuorum, PolicySaid;
    var j :|
      && 0 <= j <= n && PolicySaid(c, acts[..n][..j], t.need)
      && ReadQuorum(Exec(c, acts[..n][..j]).approvals, i, t.need) == t;
    assert acts[..n][..j] == acts[..j];
  }

  /** Everything a request carries was read from the tables at some point. */
  ghost predicate ReadsAreTrue(c: Config, acts: seq<Action>) {
    var s := Exec(c, acts);
    && (forall k :: 0 <= k < |s.procs| && s.procs[k].PolicyRead? ==> PolicySaid(c, acts, s.procs[k].need))
    && (forall k :: 0 <= k < |s.procs| && s.procs[k].Counted? ==> TableSaid(c, acts, s.procs[k].i, s.procs[k].tally))
    && (forall i :: 0 <= i < |s.db.payouts| && s.db.payouts[i].tally.Some? ==>
          TableSaid(c, acts, i, s.db.payouts[i].tally.value))
  }

  /** How one action may extend what requests carry. */
  ghost predicate ReadStep(s: State, s': State) {
    && (forall k :: 0 <= k < |s'.procs| && s'.procs[k].PolicyRead? ==>
          (k < |s.procs| && s.procs[k] == s'.procs[k]) || s'.procs[k].need == s.policy.minApprovers)
    && (forall k :: 0 <= k < |s'.procs| && s'.procs[k].Counted? ==>
          k < |s.procs| &&
          (s.procs[k] == s'.procs[k]
           || (s.procs[k].PolicyRead? && s.procs[k].i == s'.procs[k].i && s.procs[k].need == s'.procs[k].tally.need
               && s'.procs[k].tally == ReadQuorum(s.approvals, s'.procs[k].i, s'.procs[k].tally.need))))
    && (forall i :: 0 <= i < |s'.db.payouts| && s'.db.payouts[i].tally.Some? ==>
          || (i < |s.db.payouts| && s.db.payouts[i].tally == s'.db.payouts[i].tally)
          || exists k :: 0 <= k < |s.procs| && s.procs[k].Counted? && s.procs[k].i == i
                         && s.procs[k].tally == s'.db.payouts[i].tally.value)
  }

  /** What a step of process k may read. */
  lemma ProcReads(s: State, k: nat, accepted: bool)
    requires k < |s.procs|
    ensures var s' := ApplyProc(s, k, accepted);
      |s'.procs| == |s.procs| &&
      var pr := s'.procs[k];
      && s'.procs == s.procs[k := pr]
      && (pr.PolicyRead? ==> pr == s.procs[k] || pr.need == s.policy.minApprovers)
      && (pr.Counted? && pr != s.procs[k] ==>
            && s.procs[k].PolicyRead?
            && pr == Counted(s.procs[k].i, pr.status, ReadQuorum(s.approvals, pr.i, s.procs[k].need)))
  {
  }

  /** Only a won quorum writes a tally: the one its request carries. */
  lemma OthersWriteNoTally(s: State, k: nat, accepted: bool, i: nat)
    requires k < |s.procs| && i < |s.db.payouts| && !s.procs[k].Counted? && OwnerOf(s.procs[k]).None?
    ensures var s' := ApplyProc(s, k, accepted);
      |s'.db.payouts| == |s.db.payouts| && s'.db.payouts[i].tally == s.db.payouts[i].tally
  {
  }

  lemma OwnersWriteNoTally(s: State, k: nat, accepted: bool, i: nat)
    requires k < |s.procs| && i < |s.db.payouts| && OwnerOf(s.procs[k]).Some?
    ensures var s' := ApplyProc(s, k, accepted);
      |s'.db.payouts| == |s.db.payouts| && s'.db.payouts[i].tally == s.db.payouts[i].tally
  {
  }

  lemma CountedWritesItsTally(s: State, k: nat, accepted: bool, i: nat)
    requires k < |s.procs| && i < |s.db.payouts| && s.procs[k].Counted?
    ensures var s' := ApplyProc(s, k, accepted);
      |s'.db.payouts| == |s.db.payouts| &&
      (s'.db.payouts[i].tally == s.db.payouts[i].tally
       || (s.procs[k].i == i && s'.db.payouts[i].tally == Some(s.procs[k].tally)))
  {
  }

  lemma ProcReadStep(s: State, k: nat, accepted: bool)
    requires k < |s.procs|
    ensures ReadStep(s, ApplyProc(s, k, accepted))
  {
    hide ApplyProc;
    ProcReads(s, k, accepted);
    ProcAddsNoRow(s, k, accepted);
    forall i | 0 <= i < |s.db.payouts|
      ensures var after := ApplyProc(s, k, accepted).db.payouts[i].tally;
        after == s.db.payouts[i].tally || (s.procs[k].Counted? && s.procs[k].i == i && after == Some(s.procs[k].tally))
    {
      if s.procs[k].Counted? {
        CountedWritesItsTally(s, k, accepted, i);
      } else if OwnerOf(s.procs[k]).Some? {
        OwnersWriteNoTally(s, k, accepted, i);
      } else {
        OthersWriteNoTally(s, k, accepted, i);
      }
    }
  }

  lemma ApplyReadStep(c: Config, s: State, a: Action)
    ensures ReadStep(s, Apply(c, s, a))
  {
    if a.Initiate? {
      CreationReadStep(c, s, a);
    } else {
      hide ApplyProc, ApplyInitiate, SweepAmount, ReleaseRows, DebitRows;
      if a.Step? && a.proc < |s.procs| {
        ProcReadStep(s, a.proc, a.accepted);
      }
    }
  }

  lemma CreationReadStep(c: Config, s: State, a: Action)
    requires a.Initiate?
    ensures ReadStep(s, Apply(c, s, a))
  {
    hide TryLock;
  }

  lemma {:induction false} ReadsHold(c: Config, acts: seq<Action>)
    ensures ReadsAreTrue(c, acts)
    decreases |acts|
  {
    hide Apply;
    if acts != [] {
      var n := |acts| - 1;
      var s, s' := Exec(c, acts[..n]), Exec(c, acts);
      ReadsHold(c, acts[..n]);
      ApplyReadStep(c, s, acts[n]);
      forall k | 0 <= k < |s'.procs| && s'.procs[k].PolicyRead? ensures PolicySaid(c, acts, s'.procs[k].need) {
        if k < |s.procs| && s.procs[k] == s'.procs[k] {
          PolicySaidStays(c, acts, n, s'.procs[k].need);
        }
      }
      forall k | 0 <= k < |s'.procs| && s'.procs[k].Counted?
        ensures TableSaid(c, acts, s'.procs[k].i, s'.procs[k].tally)
      {
        if s.procs[k] == s'.procs[k] {
          TableSaidStays(c, acts, n, s'.procs[k].i, s'.procs[k].tally);
        }
      }
      forall i | 0 <= i < |s'.db.payouts| && s'.db.payouts[i].tally.Some?
        ensures TableSaid(c, acts, i, s'.db.payouts[i].tally.value)
      {
        if i < |s.db.payouts| && s.db.payouts[i].tally == s'.db.payouts[i].tally {
          TableSaidStays(c, acts, n, i, s'.db.payouts[i].tally.value);
        } else {
          var k :|
            && 0 <= k < |s.procs| && s.procs[k].Counted? && s.procs[k].i == i
            && s.procs[k].tally == s'.db.payouts[i].tally.value;
          TableSaidStays(c, acts, n, i, s.procs[k].tally);
        }
      }
    }
  }

  /** Every policy in force asks for at least one approver and a positive threshold, whatever
      was submitted. */
  lemma {:induction false} PolicyIsValid(c: Config, acts: seq<Action>)
    ensures var policy := Exec(c, acts).policy; policy.minApprovers >= 1 && policy.threshold > 0
    decreases |acts|
  {
    hide Apply;
    if acts != [] {
      var n := |acts| - 1;
      PolicyIsValid(c, acts[..n]);
      PolicyAfter(c, Exec(c, acts[..n]), acts[n]);
    }
  }

  /** Only a submission with at least one approver and a positive threshold sets the policy. */
  lemma PolicyAfter(c: Config, s: State, a: Action)
    ensures Apply(c, s, a).policy
      == if a.SetPolicy? && a.policy.minApprovers >= 1 && a.policy.threshold > 0 then a.policy else s.policy
  {
    hide CreditInflow, LockAndCreate, Sweep, SettleSuccess, SettleFailure, ReleaseLock, ReleaseRows, ReadQuorum;
  }

  /** Until somebody sets a policy it is the default: two approvers from 100 000 naira up. */
  lemma {:induction false} DefaultUntilSet(c: Config, acts: seq<Action>)
    requires forall j :: 0 <= j < |acts| ==> !acts[j].SetPolicy?
    ensures Exec(c, acts).policy == Policy(2, 10_000_000)
    decreases |acts|
  {
    hide Apply;
    if acts != [] {
      var n := |acts| - 1;
      DefaultUntilSet(c, acts[..n]);
      PolicyAfter(c, Exec(c, acts[..n]), acts[n]);
    }
  }

  lemma PolicySaidIsValid(c: Config, acts: seq<Action>)
    ensures forall j, need: nat :: 0 <= j <= |acts| && PolicySaid(c, acts[..j], need) ==> need >= 1
  {
    hide Exec, Apply;
    forall j, need: nat | 0 <= j <= |acts| && PolicySaid(c, acts[..j], need) ensures need >= 1 {
      var k :| 0 <= k <= j && Exec(c, acts[..j][..k]).policy.minApprovers == need;
      PolicyIsValid(c, acts[..j][..k]);
    }
  }

  /** Quorum safety: whenever a governed payout is at or past APPROVED, what its winning
      request read was in the table at some point of the run, under a policy in force by
      then, and shows at least that policy's number of distinct signatories recorded as
      approving, none as declining, and nobody with the initiator's email among them. */
  lemma QuorumSafety(c: Config, acts: seq<Action>, i: nat)
    requires var s := Exec(c, acts);
      i < |s.db.payouts| && s.db.payouts[i].route.Governed? && PastQuorum(s.db.payouts[i].status)
    ensures var po := Exec(c, acts).db.payouts[i];
      && po.tally.Some? && var t := po.tally.value;
         && (exists j :: 0 <= j <= |acts| && PolicySaid(c, acts[..j], t.need)
                         && ReadQuorum(Exec(c, acts[..j]).approvals, i, t.need) == t)
         && |t.approvers| >= t.need >= 1 && !t.declined
         && forall sig :: sig in t.approvers && sig in c.signatoryEmail && po.initiator in c.adminEmail ==>
              Lower(c.signatoryEmail[sig]) != Lower(c.adminEmail[po.initiator])
  {
    hide Apply;
    ControlHolds(c, acts);
    PolicySaidIsValid(c, acts);
    ReadsHold(c, acts);
    assert PayoutOk(c, Exec(c, acts).db.payouts[i]);
  }

  predicate SaysYes(approvals: map<(nat, Signatory), Option<Act>>, i: nat, sig: Signatory) {
    (i, sig) in approvals && approvals[(i, sig)] == Some(Approve)
  }

  predicate SaysNo(approvals: map<(nat, Signatory), Option<Act>>, i: nat, sig: Signatory) {
    (i, sig) in approvals && approvals[(i, sig)] == Some(Decline)
  }

  /** M of N: the check reaches quorum if and only if there are `need` different signatories
      on record as approving this payout and nobody is on record as declining it. */
  lemma QuorumReachedIff(approvals: map<(nat, Signatory), Option<Act>>, i: nat, need: nat)
    ensures ReadQuorum(approvals, i, need).QuorumReached() <==>
      && (forall sig :: !SaysNo(approvals, i, sig))
      && exists sigs: set<Signatory> :: |sigs| == need && forall sig :: sig in sigs ==> SaysYes(approvals, i, sig)
  {
    var t := ReadQuorum(approvals, i, need);
    forall sig ensures sig in t.approvers <==> SaysYes(approvals, i, sig) {
      assert (i, sig).1 == sig;
    }
    if t.declined {
      var k :| k in approvals && k.0 == i && approvals[k] == Some(Decline);
      assert SaysNo(approvals, i, k.1);
    }
    if |t.approvers| >= need {
      var sigs := SubsetOfSize(t.approvers, need);
    }
    if sigs: set<Signatory> :| |sigs| == need && forall sig :: sig in sigs ==> SaysYes(approvals, i, sig) {
      SubsetIsSmaller(sigs, t.approvers);
    }
  }

  lemma {:induction false} SubsetOfSize(s: set<Signatory>, n: nat) returns (t: set<Signatory>)
    requires n <= |s|
    ensures t <= s && |t| == n
    decreases n
  {
    if n == 0 {
      t := {};
    } else {
      var r := SubsetOfSize(s, n - 1);
      assert |s - r| == |s| - |r|;
      assert s - r != {};
      var x :| x in s - r;
      t := r + {x};
    }
  }

  lemma {:induction false} SubsetIsSmaller(s: set<Signatory>, t: set<Signatory>)
    requires s <= t
    ensures |s| <= |t|
    decreases s
  {
    if s != {} {
      var x :| x in s;
      SubsetIsSmaller(s - {x}, t - {x});
    }
  }

  /** A decline kills the payout exactly when it is still awaiting at the write; otherwise
      the request conflicts and no row changes, though the decline stays recorded. */
  lemma DeclineKillsIffAwaiting(c: Config, acts: seq<Action>, k: nat, accepted: bool)
    requires var s := Exec(c, acts);
      k < |s.procs| && s.procs[k].Recorded? && s.procs[k].act == Decline
    ensures var s, s' := Exec(c, acts), Apply(c, Exec(c, acts), Step(k, accepted)); var i := s.procs[k].i;
      && i < |s.db.payouts|
      && (IsAwaiting(s.db.payouts[i].status) <==> s'.procs[k] == Releasing(i))
      && (IsAwaiting(s.db.payouts[i].status) ==> s'.db.payouts[i].status == Declined)
      && (!IsAwaiting(s.db.payouts[i].status) ==> s'.db == s.db)
  {
    ControlHolds(c, acts);
    assert ProcOk(c, Exec(c, acts), Exec(c, acts).procs[k]);
  }
}
