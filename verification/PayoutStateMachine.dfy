/** The payout statuses and the table of transitions every writer asserts against
    (src/modules/payouts/payout-state.machine.ts). */
module PayoutStateMachine {
  datatype Status =
    | Pending
    | Partial
    | Approved
    | Transferring
    | Transferred
    | Declined
    | Expired
    | Failed
    | Cancelled

  const TERMINAL_STATES: set<Status> := {Transferred, Declined, Expired, Cancelled}

  function ValidTransitions(from: Status): set<Status> {
    match from
    case Pending => {Partial, Approved, Declined, Expired, Cancelled}
    case Partial => {Approved, Declined, Expired}
    case Approved => {Transferring}
    case Transferring => {Transferred, Failed}
    case Failed => {Pending}
    case Transferred => {}
    case Declined => {}
    case Expired => {}
    case Cancelled => {}
  }

  /** assertTransition: true when it returns, false when it throws its 409. */
  predicate AssertTransition(from: Status, to: Status) {
    to in ValidTransitions(from)
  }

  predicate IsTerminal(status: Status) {
    status in TERMINAL_STATES
  }

  predicate CanCancel(status: Status) {
    status == Pending
  }

  /** Statuses from which an approver, a decliner or the expiry job may still move a payout. */
  predicate IsAwaiting(status: Status) {
    status == Pending || status == Partial
  }

  /** The amount is promised to this payout: nobody has decided to give it back yet. */
  predicate IsLive(status: Status) {
    status in {Pending, Partial, Approved, Transferring}
  }

  // ----- Paths of the table -----

  /** A table edge; `retry` says whether FAILED to PENDING counts, which no code takes. */
  predicate Edge(retry: bool, from: Status, to: Status) {
    AssertTransition(from, to) && (retry || from != Failed)
  }

  ghost predicate IsPath(retry: bool, path: seq<Status>) {
    && |path| > 0
    && forall k | 0 <= k < |path| - 1 :: Edge(retry, path[k], path[k + 1])
  }

  ghost predicate Reaches(retry: bool, from: Status, to: Status) {
    exists path :: IsPath(retry, path) && path[0] == from && path[|path| - 1] == to
  }

  lemma ReachesByPath(retry: bool, path: seq<Status>)
    requires IsPath(retry, path)
    ensures Reaches(retry, path[0], path[|path| - 1])
  {
  }

  lemma ReachesTransitive(retry: bool, a: Status, b: Status, c: Status)
    requires Reaches(retry, a, b) && Reaches(retry, b, c)
    ensures Reaches(retry, a, c)
  {
    var p :| IsPath(retry, p) && p[0] == a && p[|p| - 1] == b;
    var q :| IsPath(retry, q) && q[0] == b && q[|q| - 1] == c;
    var r := p + q[1..];
    assert IsPath(retry, r) by {
      forall k | 0 <= k < |r| - 1 ensures Edge(retry, r[k], r[k + 1]) {
        if k < |p| - 1 {
          assert r[k] == p[k] && r[k + 1] == p[k + 1];
        } else {
          assert r[k] == q[k - |p| + 1] && r[k + 1] == q[k - |p| + 2];
        }
      }
    }
    ReachesByPath(retry, r);
  }

  /** A status is terminal exactly when no path of the table leaves it. */
  lemma TerminalIffInescapable(from: Status)
    ensures IsTerminal(from) <==> (forall to :: Reaches(true, from, to) ==> to == from)
  {
    if IsTerminal(from) {
      forall to | Reaches(true, from, to) ensures to == from {
        var path :| IsPath(true, path) && path[0] == from && path[|path| - 1] == to;
        assert |path| > 1 ==> Edge(true, path[0], path[1]);
      }
    } else {
      var to := match from
        case Pending => Partial
        case Partial => Approved
        case Approved => Transferring
        case Transferring => Failed
        case _ => Pending;
      ReachesByPath(true, [from, to]);
    }
  }

  // ----- Where a payout can still go, the retry edge aside -----

  /** How far along a status is. */
  function Rank(status: Status): nat {
    match status
    case Pending => 0
    case Partial => 1
    case Approved => 2
    case Transferring => 3
    case _ => 4
  }

  function Onward(from: Status): set<Status> {
    match from
    case Pending => {Pending, Partial, Approved, Transferring, Transferred, Declined, Expired, Failed, Cancelled}
    case Partial => {Partial, Approved, Transferring, Transferred, Declined, Expired, Failed}
    case Approved => {Approved, Transferring, Transferred, Failed}
    case Transferring => {Transferring, Transferred, Failed}
    case _ => {from}
  }

  /** Paths without the retry edge never come back: they lead exactly onward, and every
      status they lead to is the same one or strictly further along. */
  lemma ReachesIffOnward(from: Status, to: Status)
    ensures Reaches(false, from, to) <==> to in Onward(from)
    ensures Reaches(false, from, to) ==> to == from || Rank(from) < Rank(to)
  {
    if Reaches(false, from, to) {
      var path :| IsPath(false, path) && path[0] == from && path[|path| - 1] == to;
      PathStaysOnward(path);
    } else if to in Onward(from) {
      var path := ShortPath(from, to);
      ReachesByPath(false, path);
    }
  }

  lemma {:induction false} PathStaysOnward(path: seq<Status>)
    requires IsPath(false, path)
    ensures path[|path| - 1] in Onward(path[0])
  {
    if |path| > 1 {
      var n := |path| - 1;
      assert IsPath(false, path[..n]);
      PathStaysOnward(path[..n]);
      assert Edge(false, path[n - 1], path[n]);
    }
  }

  function ShortPath(from: Status, to: Status): (path: seq<Status>)
    requires to in Onward(from)
    ensures IsPath(false, path) && path[0] == from && path[|path| - 1] == to
  {
    if from == to then [from]
    else if Edge(false, from, to) then [from, to]
    else if from == Approved then [from, Transferring, to]
    else if to == Transferring then [from, Approved, to]
    else [from, Approved, Transferring, to]
  }

  /** The moves the code makes: table edges other than the FAILED retry, and the manual
      payout's jump over APPROVED. */
  predicate CodeMove(from: Status, to: Status) {
    Edge(false, from, to) || (from == Pending && to == Transferring)
  }

  lemma CodeMoveIsPath(from: Status, to: Status)
    requires from == to || CodeMove(from, to)
    ensures Reaches(false, from, to)
  {
    ReachesByPath(false, ShortPath(from, to));
  }
}
