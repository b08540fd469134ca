/** The fund_ledger table as the service mutates it
    (src/modules/transactions/ledger.service.ts). */
module LedgerService {
  import opened Wrappers
  import opened Ledgers

  /** getBalance's answer. */
  datatype FundBalance = FundBalance(
    collected: int, paidOut: int, fees: int, softLock: int,
    available: int, givers: int, count: int)

  class FundLedgerTable {
    var books: Books

    constructor ()
      ensures books == map[]
    {
      books := map[];
    }

    /** INSERT ... ON CONFLICT DO UPDATE: a fresh row, or the old one increased. */
    method CreditLedger(fund: Fund, amountKobo: int, feeKobo: int, period: Period, isFirstGift: bool)
      modifies this
      ensures books == old(books)[fund := Credit(BookOf(old(books), fund), period, amountKobo, feeKobo, isFirstGift)]
    {
      var rows := BookOf(books, fund);
      var giver := if isFirstGift then 1 else 0;
      if period in rows {
        var r := rows[period];
        rows := rows[period := r.(collected := r.collected + amountKobo, fees := r.fees + feeKobo,
                                  givers := r.givers + giver, count := r.count + 1)];
      } else {
        rows := rows[period := Row(amountKobo, 0, feeKobo, 0, giver, 1)];
      }
      books := books[fund := rows];
    }

    method DebitLedger(fund: Fund, amountKobo: int, feeKobo: int, period: Period, lockedPeriod: Option<Period>)
      modifies this
      ensures books == old(books)[fund := Debit(BookOf(old(books), fund), period, amountKobo, feeKobo, lockedPeriod)]
    {
      var rows := BookOf(books, fund);
      if period in rows {
        var r := rows[period];
        rows := rows[period := r.(paidOut := r.paidOut + amountKobo, fees := r.fees + feeKobo)];
      } else {
        rows := rows[period := Row(0, amountKobo, feeKobo, 0, 0, 0)];
      }
      books := books[fund := rows];
      ReleaseLock(fund, amountKobo, lockedPeriod);
    }

    /** Sums the rows one by one, newest first, and reserves the amount on the newest row;
        nothing changes when the balance does not cover amount and fee headroom. */
    method CheckAndLock(fund: Fund, amountKobo: int, feeBufferKobo: int)
      returns (locked: Option<Period>, available: int)
      modifies this
      ensures available == Available(BookOf(old(books), fund))
      ensures match TryLock(BookOf(old(books), fund), amountKobo, feeBufferKobo)
        case Locked(rows, period) => locked == Some(period) && books == old(books)[fund := rows]
        case Insufficient(_) => locked == None && books == old(books)
    {
      var l := BookOf(books, fund);
      var rows := RowsDescending(l);
      var collected, paidOut, fees, softLock := 0, 0, 0, 0;
      var i := 0;
      while i < |rows|
        invariant 0 <= i <= |rows|
        invariant collected + SumRows(rows[i..], Collected) == SumRows(rows, Collected)
        invariant paidOut + SumRows(rows[i..], PaidOut) == SumRows(rows, PaidOut)
        invariant fees + SumRows(rows[i..], Fees) == SumRows(rows, Fees)
        invariant softLock + SumRows(rows[i..], Column.SoftLock) == SumRows(rows, Column.SoftLock)
      {
        var r := rows[i].1;
        assert rows[i..][1..] == rows[i + 1..];
        collected, paidOut, fees, softLock :=
          collected + r.collected, paidOut + r.paidOut, fees + r.fees, softLock + r.softLock;
        i := i + 1;
      }
      available := Max(0, collected - fees - paidOut - softLock);
      forall c { DescendingSumsToTotal(l, c); }
      TotalNet(l);
      if |rows| == 0 || available < amountKobo + feeBufferKobo {
        return None, available;
      }
      var period := rows[0].0;
      books := books[fund := l[period := l[period].(softLock := l[period].softLock + amountKobo)]];
      locked := Some(period);
    }

    /** Reserves on the latest row without recording which; a fund without rows keeps none. */
    method SoftLock(fund: Fund, amountKobo: int)
      modifies this
      ensures books == old(books)[fund := LockLatest(BookOf(old(books), fund), amountKobo)]
    {
      var l := BookOf(books, fund);
      if l.Keys != {} {
        var period := Latest(l.Keys);
        l := l[period := l[period].(softLock := l[period].softLock + amountKobo)];
      }
      books := books[fund := l];
    }

    method ReleaseLock(fund: Fund, amountKobo: int, lockedPeriod: Option<Period>)
      modifies this
      ensures books == old(books)[fund := Release(BookOf(old(books), fund), amountKobo, lockedPeriod)]
    {
      var l := BookOf(books, fund);
      var target := lockedPeriod;
      if target.None? && LockedPeriods(l) != {} {
        target := Some(Latest(LockedPeriods(l)));
      }
      if target.Some? && target.value in l {
        var r := l[target.value];
        l := l[target.value := r.(softLock := Max(0, r.softLock - amountKobo))];
      }
      books := books[fund := l];
    }

    /** Four separate sums, and the clamped difference callers compare against. */
    method GetBalance(fund: Fund) returns (b: FundBalance)
      ensures var l := BookOf(books, fund);
        b == FundBalance(Total(l, Collected), Total(l, PaidOut), Total(l, Fees), Total(l, Column.SoftLock),
                         Available(l), Total(l, Givers), Total(l, Transactions))
    {
      var l := BookOf(books, fund);
      var collected, paidOut := Total(l, Collected), Total(l, PaidOut);
      var fees, softLock := Total(l, Fees), Total(l, Column.SoftLock);
      TotalNet(l);
      b := FundBalance(collected, paidOut, fees, softLock,
                       Max(0, collected - fees - paidOut - softLock), Total(l, Givers), Total(l, Transactions));
    }
  }
}
