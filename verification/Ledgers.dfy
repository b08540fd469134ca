/** One fund's fund_ledger rows, keyed by month, and the statements that rewrite them
    (src/modules/transactions/ledger.service.ts). */
module Ledgers {
  import opened Wrappers

  /** Months in calendar order; 'YYYY-MM' strings sort the same way. */
  type Period = int

  datatype Row = Row(collected: int, paidOut: int, fees: int, softLock: int, givers: int, count: int)

  type Ledger = map<Period, Row>

  type Fund = nat

  /** fund_ledger as a whole: each fund's rows. */
  type Books = map<Fund, Ledger>

  function BookOf(books: Books, f: Fund): Ledger {
    if f in books then books[f] else map[]
  }

  const EMPTY_ROW := Row(0, 0, 0, 0, 0, 0)

  /** The stored columns, and Net: what one row adds to the available balance. */
  datatype Column = Collected | PaidOut | Fees | SoftLock | Givers | Transactions | Net

  function Cell(r: Row, c: Column): int {
    match c
    case Collected => r.collected
    case PaidOut => r.paidOut
    case Fees => r.fees
    case SoftLock => r.softLock
    case Givers => r.givers
    case Transactions => r.count
    case Net => r.collected - r.fees - r.paidOut - r.softLock
  }

  function RowAt(l: Ledger, p: Period): Row {
    if p in l then l[p] else EMPTY_ROW
  }

  lemma {:induction false} LatestExists(periods: set<Period>)
    requires periods != {}
    ensures exists m :: m in periods && forall p :: p in periods ==> p <= m
  {
    assert (forall x :: x !in periods) ==> periods == {};
    var x :| x in periods;
    var rest := periods - {x};
    if rest == {} {
      assert periods == {x};
    } else {
      LatestExists(rest);
      var m :| m in rest && forall p :: p in rest ==> p <= m;
      var top := Max(x, m);
      assert forall p :: p in periods ==> p == x || p in rest;
      assert top in periods && forall p :: p in periods ==> p <= top;
    }
  }

  /** ORDER BY period_month DESC LIMIT 1 */
  function Latest(periods: set<Period>): (m: Period)
    requires periods != {}
    ensures m in periods && forall p :: p in periods ==> p <= m
  {
    LatestExists(periods);
    var m :| m in periods && forall p :: p in periods ==> p <= m;
    m
  }

  /** COALESCE(SUM(column), 0) over every row of the fund. */
  function Total(l: Ledger, c: Column): int
    decreases l.Keys
  {
    if l == map[] then 0
    else
      var p := Latest(l.Keys);
      Cell(l[p], c) + Total(l - {p}, c)
  }

  lemma {:induction false} TotalRemove(l: Ledger, p: Period, c: Column)
    requires p in l
    ensures Total(l, c) == Cell(l[p], c) + Total(l - {p}, c)
    decreases l.Keys
  {
    var m := Latest(l.Keys);
    if p != m {
      TotalRemove(l - {m}, p, c);
      assert l - {m} - {p} == l - {p} - {m};
      assert m in (l - {p}).Keys;
      assert m == Latest((l - {p}).Keys);
    }
  }

  lemma TotalPut(l: Ledger, p: Period, r: Row, c: Column)
    ensures Total(l[p := r], c) == Total(l, c) - Cell(RowAt(l, p), c) + Cell(r, c)
  {
    TotalRemove(l[p := r], p, c);
    if p in l {
      TotalRemove(l, p, c);
      assert l[p := r] - {p} == l - {p};
    } else {
      assert l[p := r] - {p} == l;
    }
  }

  lemma {:induction false} TotalNonNegative(l: Ledger, c: Column)
    requires forall p :: p in l ==> Cell(l[p], c) >= 0
    ensures Total(l, c) >= 0
    ensures forall p :: p in l ==> Cell(l[p], c) <= Total(l, c)
    decreases l.Keys
  {
    if l != map[] {
      var m := Latest(l.Keys);
      TotalNonNegative(l - {m}, c);
      assert forall p :: p in l ==> p == m || p in l - {m};
    }
  }

  lemma {:induction false} TotalNet(l: Ledger)
    ensures Total(l, Net) == Total(l, Collected) - Total(l, Fees) - Total(l, PaidOut) - Total(l, SoftLock)
    decreases l.Keys
  {
    if l != map[] {
      TotalNet(l - {Latest(l.Keys)});
    }
  }

  // ----- The statements -----

  function Credit(l: Ledger, p: Period, amount: int, fee: int, firstGift: bool): Ledger {
    var r := RowAt(l, p);
    l[p := r.(collected := r.collected + amount, fees := r.fees + fee,
               givers := r.givers + (if firstGift then 1 else 0), count := r.count + 1)]
  }

  function LockedPeriods(l: Ledger): set<Period> {
    set p | p in l && l[p].softLock > 0
  }

  /** COALESCE(recorded period, latest row that still holds a lock) */
  function ReleaseTarget(l: Ledger, recorded: Option<Period>): Option<Period> {
    if recorded.Some? then recorded
    else if LockedPeriods(l) == {} then None
    else Some(Latest(LockedPeriods(l)))
  }

  function Release(l: Ledger, amount: int, recorded: Option<Period>): Ledger {
    var target := ReleaseTarget(l, recorded);
    if target.Some? && target.value in l then
      var r := l[target.value];
      l[target.value := r.(softLock := Max(0, r.softLock - amount))]
    else l
  }

  function DebitRow(l: Ledger, p: Period, amount: int, fee: int): Ledger {
    var r := RowAt(l, p);
    l[p := r.(paidOut := r.paidOut + amount, fees := r.fees + fee)]
  }

  function Debit(l: Ledger, p: Period, amount: int, fee: int, recorded: Option<Period>): Ledger {
    Release(DebitRow(l, p, amount, fee), amount, recorded)
  }

  function AddLock(l: Ledger, p: Period, amount: int): Ledger
    requires p in l
  {
    l[p := l[p].(softLock := l[p].softLock + amount)]
  }

  function LockLatest(l: Ledger, amount: int): Ledger {
    if l == map[] then l else AddLock(l, Latest(l.Keys), amount)
  }

  /** GREATEST(0, SUM(collected - fees - paid_out - soft_lock)), as fundBalances computes it. */
  function Available(l: Ledger): int {
    Max(0, Total(l, Net))
  }

  datatype LockOutcome = Locked(ledger: Ledger, period: Period) | Insufficient(available: int)

  function TryLock(l: Ledger, amount: int, feeBuffer: int): LockOutcome {
    if l == map[] || Available(l) < amount + feeBuffer then Insufficient(Available(l))
    else Locked(AddLock(l, Latest(l.Keys), amount), Latest(l.Keys))
  }

  // ----- What each statement does to the totals -----

  lemma CreditTotals(l: Ledger, p: Period, amount: int, fee: int, firstGift: bool)
    ensures Total(Credit(l, p, amount, fee, firstGift), Net) == Total(l, Net) + amount - fee
    ensures Total(Credit(l, p, amount, fee, firstGift), SoftLock) == Total(l, SoftLock)
  {
    var r := Credit(l, p, amount, fee, firstGift)[p];
    TotalPut(l, p, r, Net);
    TotalPut(l, p, r, SoftLock);
  }

  lemma AddLockTotals(l: Ledger, p: Period, amount: int)
    requires p in l
    ensures Total(AddLock(l, p, amount), Net) == Total(l, Net) - amount
    ensures Total(AddLock(l, p, amount), SoftLock) == Total(l, SoftLock) + amount
  {
    var r := AddLock(l, p, amount)[p];
    TotalPut(l, p, r, Net);
    TotalPut(l, p, r, SoftLock);
  }

  /** A release gives back at most its amount, and exactly its amount when the row it
      targets holds that much. */
  lemma ReleaseTotals(l: Ledger, amount: int, recorded: Option<Period>)
    requires amount >= 0
    requires forall p :: p in l ==> l[p].softLock >= 0
    ensures var l' := Release(l, amount, recorded);
      && Total(l, SoftLock) - amount <= Total(l', SoftLock) <= Total(l, SoftLock)
      && Total(l', Net) == Total(l, Net) + Total(l, SoftLock) - Total(l', SoftLock)
      && (recorded.Some? && RowAt(l, recorded.value).softLock >= amount > 0
          ==> Total(l', SoftLock) == Total(l, SoftLock) - amount)
  {
    var target := ReleaseTarget(l, recorded);
    if target.Some? && target.value in l {
      var p := target.value;
      var r := Release(l, amount, recorded)[p];
      TotalPut(l, p, r, SoftLock);
      TotalPut(l, p, r, Net);
    }
  }

  lemma DebitRowAllTotals(l: Ledger, p: Period, amount: int, fee: int)
    ensures var l1 := DebitRow(l, p, amount, fee);
      && Total(l1, PaidOut) == Total(l, PaidOut) + amount
      && Total(l1, Fees) == Total(l, Fees) + fee
      && Total(l1, SoftLock) == Total(l, SoftLock)
      && Total(l1, Net) == Total(l, Net) - amount - fee
  {
    var r := DebitRow(l, p, amount, fee)[p];
    TotalPut(l, p, r, PaidOut);
    TotalPut(l, p, r, Fees);
    TotalPut(l, p, r, SoftLock);
    TotalPut(l, p, r, Net);
  }

  /** The row a release targets holds the whole amount. */
  predicate FindsAmount(l: Ledger, amount: int, recorded: Option<Period>) {
    var target := ReleaseTarget(l, recorded);
    target.Some? && RowAt(l, target.value).softLock >= amount
  }

  /** A release, recorded month or not, gives back exactly its amount if and only if the row
      it targets holds it; falling short strands the rest on some other row. */
  lemma ReleaseExactIff(l: Ledger, amount: int, recorded: Option<Period>)
    requires amount > 0
    requires forall p :: p in l ==> l[p].softLock >= 0
    ensures Total(Release(l, amount, recorded), SoftLock) == Total(l, SoftLock) - amount
      <==> FindsAmount(l, amount, recorded)
  {
    var target := ReleaseTarget(l, recorded);
    if target.Some? && target.value in l {
      TotalPut(l, target.value, Release(l, amount, recorded)[target.value], SoftLock);
    }
  }

  /** Cross-month settlement: whatever the lock month, recorded or not, and the settlement
      month, the debit moves the reservation into paid_out and costs the fund the transfer
      fee alone -- exactly when the row it releases from really holds the amount. */
  lemma DebitConservesIffLocked(l: Ledger, p: Period, amount: int, fee: int, recorded: Option<Period>)
    requires amount > 0
    requires forall q :: q in l ==> l[q].softLock >= 0
    ensures var l' := Debit(l, p, amount, fee, recorded);
      && (FindsAmount(l, amount, recorded) <==>
          Total(l', PaidOut) + Total(l', SoftLock) == Total(l, PaidOut) + Total(l, SoftLock))
      && (FindsAmount(l, amount, recorded) <==> Total(l', Net) == Total(l, Net) - fee)
      && Total(l', Fees) == Total(l, Fees) + fee
  {
    var l1 := DebitRow(l, p, amount, fee);
    DebitRowAllTotals(l, p, amount, fee);
    assert LockedPeriods(l1) == LockedPeriods(l);
    var target := ReleaseTarget(l, recorded);
    if target.Some? {
      assert RowAt(l1, target.value).softLock == RowAt(l, target.value).softLock;
      if target.value in l1 {
        var r1 := Release(l1, amount, recorded)[target.value];
        TotalPut(l1, target.value, r1, SoftLock);
        TotalPut(l1, target.value, r1, PaidOut);
        TotalPut(l1, target.value, r1, Fees);
        TotalPut(l1, target.value, r1, Net);
      }
    }
  }

  /** Without a recorded month the debit may free too little, never too much. */
  lemma DebitTotals(l: Ledger, p: Period, amount: int, fee: int, recorded: Option<Period>)
    requires amount >= 0
    requires forall q :: q in l ==> l[q].softLock >= 0
    ensures var l' := Debit(l, p, amount, fee, recorded);
      && Total(l, SoftLock) - amount <= Total(l', SoftLock) <= Total(l, SoftLock)
      && (recorded.Some? && RowAt(l, recorded.value).softLock >= amount > 0
          ==> Total(l', SoftLock) == Total(l, SoftLock) - amount && Total(l', Net) == Total(l, Net) - fee)
  {
    var l1 := DebitRow(l, p, amount, fee);
    DebitRowAllTotals(l, p, amount, fee);
    ReleaseTotals(l1, amount, recorded);
  }

  // ----- The three ways the code computes a balance -----

  /** SELECT ... ORDER BY period_month DESC */
  function RowsDescending(l: Ledger): (rows: seq<(Period, Row)>)
    ensures |rows| == 0 <==> l == map[]
    ensures l != map[] ==> rows[0].0 == Latest(l.Keys)
    decreases l.Keys
  {
    if l == map[] then []
    else
      var p := Latest(l.Keys);
      [(p, l[p])] + RowsDescending(l - {p})
  }

  function SumRows(rows: seq<(Period, Row)>, c: Column): int {
    if rows == [] then 0 else Cell(rows[0].1, c) + SumRows(rows[1..], c)
  }

  /** Rows may come back in any order: a listing with each month once always sums to Total. */
  lemma {:induction false} AnyOrderSumsToTotal(l: Ledger, rows: seq<(Period, Row)>, c: Column)
    requires forall i, j :: 0 <= i < j < |rows| ==> rows[i].0 != rows[j].0
    requires forall i :: 0 <= i < |rows| ==> rows[i].0 in l && l[rows[i].0] == rows[i].1
    requires forall p :: p in l ==> exists i :: 0 <= i < |rows| && rows[i].0 == p
    ensures SumRows(rows, c) == Total(l, c)
    decreases |rows|
  {
    if rows == [] {
      assert l == map[];
    } else {
      var p := rows[0].0;
      TotalRemove(l, p, c);
      var l1, rest := l - {p}, rows[1..];
      forall q | q in l1 ensures exists i :: 0 <= i < |rest| && rest[i].0 == q {
        var i :| 0 <= i < |rows| && rows[i].0 == q;
        assert rest[i - 1].0 == q;
      }
      AnyOrderSumsToTotal(l1, rest, c);
    }
  }

  lemma {:induction false} DescendingSumsToTotal(l: Ledger, c: Column)
    ensures SumRows(RowsDescending(l), c) == Total(l, c)
    decreases l.Keys
  {
    if l != map[] {
      var p := Latest(l.Keys);
      assert RowsDescending(l)[1..] == RowsDescending(l - {p});
      DescendingSumsToTotal(l - {p}, c);
    }
  }

  /** checkAndLock's accumulation over any row order, getBalance's four sums and
      fundBalances' single sum of differences are one number. */
  lemma BalanceFormsAgree(l: Ledger, rows: seq<(Period, Row)>)
    requires forall i, j :: 0 <= i < j < |rows| ==> rows[i].0 != rows[j].0
    requires forall i :: 0 <= i < |rows| ==> rows[i].0 in l && l[rows[i].0] == rows[i].1
    requires forall p :: p in l ==> exists i :: 0 <= i < |rows| && rows[i].0 == p
    ensures Max(0, SumRows(rows, Collected) - SumRows(rows, Fees) - SumRows(rows, PaidOut) - SumRows(rows, SoftLock))
      == Max(0, Total(l, Collected) - Total(l, Fees) - Total(l, PaidOut) - Total(l, SoftLock))
      == Available(l)
  {
    TotalNet(l);
    forall c { AnyOrderSumsToTotal(l, rows, c); }
  }
}
