/** Definition of a balance from raw records: each transaction or payout posts an amount
    to one fund and month, and a ledger cell is the sum of the postings that name it. */
module Journal {
  import opened Ledgers

  datatype Posting = Posting(fund: Fund, period: Period, amount: int)

  function Share(x: Posting, f: Fund, p: Period): int {
    if x.fund == f && x.period == p then x.amount else 0
  }

  function FundShare(x: Posting, f: Fund): int {
    if x.fund == f then x.amount else 0
  }

  function SumAt(ps: seq<Posting>, f: Fund, p: Period): int {
    if ps == [] then 0 else SumAt(ps[..|ps| - 1], f, p) + Share(ps[|ps| - 1], f, p)
  }

  function SumFund(ps: seq<Posting>, f: Fund): int {
    if ps == [] then 0 else SumFund(ps[..|ps| - 1], f) + FundShare(ps[|ps| - 1], f)
  }

  lemma {:induction false} SumUpdate(ps: seq<Posting>, i: nat, x: Posting, f: Fund, p: Period)
    requires i < |ps|
    ensures SumAt(ps[i := x], f, p) == SumAt(ps, f, p) - Share(ps[i], f, p) + Share(x, f, p)
    ensures SumFund(ps[i := x], f) == SumFund(ps, f) - FundShare(ps[i], f) + FundShare(x, f)
    decreases |ps|
  {
    var n := |ps| - 1;
    if i == n {
      assert ps[i := x][..n] == ps[..n];
    } else {
      assert ps[i := x][..n] == ps[..n][i := x];
      SumUpdate(ps[..n], i, x, f, p);
    }
  }

  lemma SumAppend(ps: seq<Posting>, x: Posting, f: Fund, p: Period)
    ensures SumAt(ps + [x], f, p) == SumAt(ps, f, p) + Share(x, f, p)
    ensures SumFund(ps + [x], f) == SumFund(ps, f) + FundShare(x, f)
  {
    assert (ps + [x])[..|ps|] == ps;
  }

  lemma {:induction false} SumConcat(ps: seq<Posting>, qs: seq<Posting>, f: Fund, p: Period)
    ensures SumAt(ps + qs, f, p) == SumAt(ps, f, p) + SumAt(qs, f, p)
    ensures SumFund(ps + qs, f) == SumFund(ps, f) + SumFund(qs, f)
    decreases |qs|
  {
    if qs == [] {
      assert ps + qs == ps;
    } else {
      var n := |qs| - 1;
      assert ps + qs == (ps + qs[..n]) + [qs[n]];
      SumAppend(ps + qs[..n], qs[n], f, p);
      SumConcat(ps, qs[..n], f, p);
    }
  }

  /** With no negative posting, a sum covers each posting in it. */
  lemma {:induction false} SumCovers(ps: seq<Posting>, f: Fund, p: Period)
    requires forall j :: 0 <= j < |ps| ==> ps[j].amount >= 0
    ensures SumAt(ps, f, p) >= 0 && SumFund(ps, f) >= 0
    ensures forall j :: 0 <= j < |ps| ==> Share(ps[j], f, p) <= SumAt(ps, f, p) && FundShare(ps[j], f) <= SumFund(ps, f)
    decreases |ps|
  {
    if ps != [] {
      var n := |ps| - 1;
      SumCovers(ps[..n], f, p);
      forall j | 0 <= j < |ps| ensures Share(ps[j], f, p) <= SumAt(ps, f, p) && FundShare(ps[j], f) <= SumFund(ps, f) {
        if j < n {
          assert ps[..n][j] == ps[j];
        }
      }
    }
  }

  function SetCell(r: Row, c: Column, v: int): Row {
    match c
    case Collected => r.(collected := v)
    case PaidOut => r.(paidOut := v)
    case Fees => r.(fees := v)
    case SoftLock => r.(softLock := v)
    case Givers => r.(givers := v)
    case Transactions => r.(count := v)
    case Net => r.(collected := v + r.fees + r.paidOut + r.softLock)
  }

  lemma {:induction false} ZeroTotal(l: Ledger, c: Column)
    requires forall p :: p in l ==> Cell(l[p], c) == 0
    ensures Total(l, c) == 0
    decreases l.Keys
  {
    if l != map[] {
      ZeroTotal(l - {Latest(l.Keys)}, c);
    }
  }

  /** Month by month implies overall: when every cell of a column is the sum of its
      postings, the column's total is the sum of all postings of the fund. */
  lemma {:induction false} CellsSumToFund(l: Ledger, ps: seq<Posting>, f: Fund, c: Column)
    requires forall p :: Cell(RowAt(l, p), c) == SumAt(ps, f, p)
    ensures Total(l, c) == SumFund(ps, f)
    decreases |ps|
  {
    if ps == [] {
      forall p | p in l ensures Cell(l[p], c) == 0 {
        assert Cell(RowAt(l, p), c) == SumAt(ps, f, p);
      }
      ZeroTotal(l, c);
    } else {
      var x, rest := ps[|ps| - 1], ps[..|ps| - 1];
      var l1 := l;
      if x.fund == f {
        var r := RowAt(l, x.period);
        l1 := l[x.period := SetCell(r, c, Cell(r, c) - x.amount)];
        TotalPut(l, x.period, l1[x.period], c);
      }
      forall p ensures Cell(RowAt(l1, p), c) == SumAt(rest, f, p) {
        assert Cell(RowAt(l, p), c) == SumAt(ps, f, p);
      }
      CellsSumToFund(l1, rest, f, c);
    }
  }
}
