/** The over-commitment bound is exact: for every number of payouts reserved at once there is
    a run that ends on the floor. */
module TreasuryFloor {
  import opened Wrappers
  import opened PayoutStateMachine
  import opened Ledgers
  import opened Journal
  import opened Tables
  import opened Treasury
  import opened TreasuryControl
  import opened TreasuryBooks
  import opened TreasuryMoney
  import opened TreasuryRuns
  import opened TreasurySafety
  import opened TreasurySweeps
  import opened TreasuryReleases
  import opened TreasuryBounds
  import opened PayoutServices
  import opened ServiceRefinement
  import opened TreasuryScenarios

  const JANUARY := Clocks(0, 0)

  function Paid(c: Config, amount: int): Payout {
    Manual(amount).(status := Transferred, hasRef := true, fee := c.feeBuffer, executedIn := Some(0), held := false,
                    fires := 1, settled := 1, debitedIn := Some(0))
  }

  /** The first k of n payouts settled, the rest as created. */
  function Rows(c: Config, amount: int, n: nat, k: nat): (rows: seq<Payout>)
    requires k <= n
    ensures |rows| == n && forall j :: 0 <= j < n ==> rows[j] == if j < k then Paid(c, amount) else Manual(amount)
  {
    seq(k, _ => Paid(c, amount)) + seq(n - k, _ => Manual(amount))
  }

  function Callers(n: nat, k: nat): (procs: seq<Proc>)
    requires k <= n
    ensures |procs| == n && forall j :: 0 <= j < n ==> procs[j] == if j < k then Done else ManualCreated(j)
  {
    seq(n, j requires 0 <= j < n => if j < k then Done else ManualCreated(j))
  }

  /** n payouts were created; the first k have settled, each at the full fee. */
  function Settled(c: Config, amount: int, n: nat, k: nat): State
    requires k <= n
  {
    var total := n * amount + c.feeBuffer;
    State(Db(Shared(Row(total, k * amount, k * c.feeBuffer, (n - k) * amount, 0, 1)),
             [Tx(SharedVa(0), 0, total, 0, "ref")],
             Rows(c, amount, n, k)),
          map[], DEFAULT_POLICY, Callers(n, k), Idle)
  }

  /** The first k payouts run through one after another. */
  function Closing(c: Config, k: nat): seq<Action> {
    if k == 0 then [] else Closing(c, k - 1) + FireAndSettle(k - 1, k - 1, c.feeBuffer, JANUARY)
  }

  /** What settling one payout does to the tables. */
  lemma SettledRow(c: Config, amount: int, n: nat, k: nat)
    requires 0 < amount && k < n
    ensures SettleSuccess(AfterTransfer(Settled(c, amount, n, k).db, k, true), k, JANUARY, c.feeBuffer)
      == Settled(c, amount, n, k + 1).db
  {
    var s, s' := Settled(c, amount, n, k), Settled(c, amount, n, k + 1);
    var called := AfterTransfer(s.db, k, true);
    assert called.payouts[k] == Manual(amount).(status := Transferring, fires := 1, hasRef := true);
    assert called.books == s.db.books;
    assert (k + 1) * amount == k * amount + amount && (k + 1) * c.feeBuffer == k * c.feeBuffer + c.feeBuffer;
    assert (n - k) * amount == (n - (k + 1)) * amount + amount && (n - (k + 1)) * amount >= 0;
    DebitShared(s.db.books[0][0], amount, c.feeBuffer);
    hide Debit, Rows;
    var db := SettleSuccess(called, k, JANUARY, c.feeBuffer);
    assert db.books == s'.db.books;
    assert db.payouts[k] == Paid(c, amount);
    assert db.payouts == s'.db.payouts;
  }

  lemma SettleNext(c: Config, amount: int, n: nat, k: nat)
    requires 0 < amount && k < n
    ensures ApplyAll(c, Settled(c, amount, n, k), FireAndSettle(k, k, c.feeBuffer, JANUARY))
      == Settled(c, amount, n, k + 1)
  {
    var s, s' := Settled(c, amount, n, k), Settled(c, amount, n, k + 1);
    ManualSettles(c, s, k, k, c.feeBuffer, JANUARY);
    SettledRow(c, amount, n, k);
    hide SettleSuccess, AfterTransfer, ApplyAll, Callers;
    assert s.procs[k := Done] == s'.procs;
  }

  lemma NothingSettled(c: Config, amount: int, n: nat)
    ensures Opened(c, amount, n, n) == Settled(c, amount, n, 0)
  {
    var s, s' := Opened(c, amount, n, n), Settled(c, amount, n, 0);
    assert s.db.payouts == s'.db.payouts && s.procs == s'.procs;
  }

  lemma {:induction false} ClosingState(c: Config, amount: int, n: nat, k: nat)
    requires 0 < amount < DEFAULT_POLICY.threshold && k <= n && n >= 1
    ensures Exec(c, Opening(c, amount, n, n) + Closing(c, k)) == Settled(c, amount, n, k)
    decreases k
  {
    hide Apply, Exec, ApplyAll, Opened, Settled, FireAndSettle, Opening;
    var opening := Opening(c, amount, n, n);
    if k == 0 {
      OpeningState(c, amount, n, n);
      NothingSettled(c, amount, n);
      assert opening + Closing(c, 0) == opening;
    } else {
      ClosingState(c, amount, n, k - 1);
      SettleNext(c, amount, n, k - 1);
      var last := FireAndSettle(k - 1, k - 1, c.feeBuffer, JANUARY);
      ExecAppend(c, opening + Closing(c, k - 1), last);
      assert opening + Closing(c, k) == opening + Closing(c, k - 1) + last;
    }
  }

  // ----- Reservations along the run -----

  lemma {:induction false} AllHeld(payouts: seq<Payout>, held: bool)
    requires forall j :: 0 <= j < |payouts| ==> payouts[j].fund == 0 && payouts[j].held == held
    ensures HeldCount(payouts, 0) == if held then |payouts| else 0
  {
    if payouts == [] {
      assert HeldPostings(payouts) == [];
    } else {
      var n := |payouts| - 1;
      AllHeld(payouts[..n], held);
      assert payouts == payouts[..n] + [payouts[n]];
      LiveAppend(payouts[..n], payouts[n], 0);
    }
  }

  lemma {:induction false} HeldFalls(before: seq<Payout>, after: seq<Payout>, f: Fund)
    requires |before| == |after|
    requires forall j :: 0 <= j < |before| ==> after[j].fund == before[j].fund && (after[j].held ==> before[j].held)
    ensures HeldCount(after, f) <= HeldCount(before, f)
  {
    if before == [] {
      assert after == before;
    } else {
      var n := |before| - 1;
      HeldFalls(before[..n], after[..n], f);
      assert before == before[..n] + [before[n]] && after == after[..n] + [after[n]];
      LiveAppend(before[..n], before[n], f);
      LiveAppend(after[..n], after[n], f);
    }
  }

  lemma LiveOnlyRisesByCreation(c: Config, acts: seq<Action>, a: Action, f: Fund)
    requires !a.Initiate? && !a.Sweeping?
    ensures Live(Exec(c, acts + [a]), f) <= Live(Exec(c, acts), f)
  {
    var s := Exec(c, acts);
    ExecSnoc(c, acts, a);
    LiveIsHeld(c, acts, f);
    LiveIsHeld(c, acts + [a], f);
    ControlHolds(c, acts);
    OthersAddNoRow(c, s, a);
    hide Apply, Control, Live, HeldCount;
    forall j | 0 <= j < |s.db.payouts|
      ensures Apply(c, s, a).db.payouts[j].fund == s.db.payouts[j].fund
      ensures Apply(c, s, a).db.payouts[j].held ==> s.db.payouts[j].held
    {
      ApplyRowStep(c, s, a, j);
    }
    HeldFalls(s.db.payouts, Apply(c, s, a).db.payouts, f);
  }

  predicate CreatesNothing(acts: seq<Action>) {
    forall j :: 0 <= j < |acts| ==> !acts[j].Initiate? && !acts[j].Sweeping?
  }

  lemma {:induction false} PeakStays(c: Config, acts: seq<Action>, more: seq<Action>, f: Fund)
    requires CreatesNothing(more) && Live(Exec(c, acts), f) <= Peak(c, acts, f)
    ensures Peak(c, acts + more, f) == Peak(c, acts, f) && Live(Exec(c, acts + more), f) <= Peak(c, acts, f)
    decreases |more|
  {
    hide Apply, Exec, Live;
    if more == [] {
      assert acts + more == acts;
    } else {
      var n := |more| - 1;
      PeakStays(c, acts, more[..n], f);
      assert acts + more == (acts + more[..n]) + [more[n]];
      assert (acts + more)[..|acts + more| - 1] == acts + more[..n];
      LiveOnlyRisesByCreation(c, acts + more[..n], more[n], f);
    }
  }

  lemma OpenedLive(c: Config, amount: int, n: nat, m: nat)
    requires 0 < amount < DEFAULT_POLICY.threshold && m <= n && n >= 1
    ensures Live(Exec(c, Opening(c, amount, n, m)), 0) == m
  {
    OpeningState(c, amount, n, m);
    LiveIsHeld(c, Opening(c, amount, n, m), 0);
    AllHeld(Opened(c, amount, n, m).db.payouts, true);
  }

  lemma {:induction false} OpeningPeak(c: Config, amount: int, n: nat, m: nat)
    requires 0 < amount < DEFAULT_POLICY.threshold && m <= n && n >= 1
    ensures Peak(c, Opening(c, amount, n, m), 0) == m
    decreases m
  {
    hide Apply, Exec, Live;
    var acts := Opening(c, amount, n, m);
    OpenedLive(c, amount, n, m);
    if m == 0 {
      assert acts[..|acts| - 1] == [];
    } else {
      OpeningPeak(c, amount, n, m - 1);
      assert acts[..|acts| - 1] == Opening(c, amount, n, m - 1);
    }
  }

  /** The settling part creates nothing, kills nothing and stays within the headroom. */
  predicate Plain(c: Config, a: Action) {
    a.Step? || a.WorkerStep? || (a.DeliverSuccess? && a.fee == c.feeBuffer)
  }

  lemma {:induction false} ClosingIsPlain(c: Config, k: nat)
    ensures forall j :: 0 <= j < |Closing(c, k)| ==> Plain(c, Closing(c, k)[j])
  {
    if k > 0 {
      ClosingIsPlain(c, k - 1);
    }
  }

  lemma PlainRun(c: Config, opening: seq<Action>, closing: seq<Action>)
    requires forall j :: 0 <= j < |opening| ==>
      (opening[j].Initiate? && opening[j].recorded) || (opening[j].Inflow? && opening[j].fee <= opening[j].amount)
    requires forall j :: 0 <= j < |closing| ==> Plain(c, closing[j])
    ensures FeesInBounds(c, opening + closing) && MonthsRecorded(opening + closing) && KillerFree(opening + closing)
    ensures CreatesNothing(closing)
  {
  }

  /** For every n >= 1 there is a run, with no stolen lock and fees within bounds, in which n
      payouts were reserved at once and none is left, whose fund ends exactly on the floor:
      n - 1 fees below zero. */
  lemma FloorIsReached(c: Config, amount: int, n: nat)
    requires 0 < amount < DEFAULT_POLICY.threshold && n >= 1
    ensures var acts := Opening(c, amount, n, n) + Closing(c, n); var s := Exec(c, acts);
      && NoSteals(c, acts) && MonthsRecorded(acts) && FeesInBounds(c, acts)
      && Live(s, 0) == 0 && Peak(c, acts, 0) == n
      && Total(BookOf(s.db.books, 0), Net) == Floor(c.feeBuffer, Live(s, 0), Peak(c, acts, 0)) == c.feeBuffer * (1 - n)
  {
    hide Apply, Exec, Peak, Live;
    var opening, closing := Opening(c, amount, n, n), Closing(c, n);
    var acts := opening + closing;
    ClosingIsPlain(c, n);
    assert n * amount >= amount;
    PlainRun(c, opening, closing);
    KillerFreeNeverSteals(c, acts);
    OpenedLive(c, amount, n, n);
    OpeningPeak(c, amount, n, n);
    PeakStays(c, opening, closing, 0);
    ClosingState(c, amount, n, n);
    LiveIsHeld(c, acts, 0);
    var s := Settled(c, amount, n, n);
    AllHeld(s.db.payouts, false);
    OneRow(0, s.db.books[0][0]);
    assert c.feeBuffer * (1 - n) == c.feeBuffer - n * c.feeBuffer;
  }

  /** At most n payouts of the fund reserved at once, no stolen lock, fees within bounds. */
  ghost predicate AtMostAtOnce(c: Config, acts: seq<Action>, f: Fund, n: nat) {
    NoSteals(c, acts) && FeesInBounds(c, acts) && Peak(c, acts, f) <= n
  }

  /** So whatever such runs do, no fund falls below zero by them, if and only if payouts are
      reserved one at a time or there is no headroom for a fee to outgrow. */
  lemma NeverBelowZeroIff(c: Config, n: nat)
    ensures (forall acts, f :: AtMostAtOnce(c, acts, f, n) ==> TableBalance(Exec(c, acts), f) >= 0)
      <==> n <= 1 || c.feeBuffer == 0
  {
    hide Apply, Exec, Peak, Live, TableBalance, NoSteals, FeesInBounds;
    if n <= 1 || c.feeBuffer == 0 {
      forall acts, f | AtMostAtOnce(c, acts, f, n) ensures TableBalance(Exec(c, acts), f) >= 0 {
        OverCommitmentBound(c, acts, f);
        BoundsHold(c, acts, f);
        FloorAtLeastZero(c.feeBuffer, Live(Exec(c, acts), f), Peak(c, acts, f));
      }
    } else {
      FloorIsReached(c, 1, n);
      var acts := Opening(c, 1, n, n) + Closing(c, n);
      RecordedNeverShort(c, acts);
      BalanceRefinesRawRows(c, acts, 0);
      assert AtMostAtOnce(c, acts, 0, n);
      assert c.feeBuffer * (1 - n) < 0;
    }
  }

  lemma FloorAtLeastZero(feeBuffer: nat, live: int, peak: int)
    requires 0 <= live <= peak && (peak <= 1 || feeBuffer == 0)
    ensures Floor(feeBuffer, live, peak) >= 0
  {
    if peak > 0 && feeBuffer > 0 {
      assert feeBuffer * (1 + live - peak) == feeBuffer * live;
    }
  }
}
