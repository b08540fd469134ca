/** Webhook deliveries: the request-id gate, routing, and what retries and replays do
    (src/modules/webhooks/webhook.processor.ts, src/modules/webhooks/webhook.repository.ts,
    src/modules/webhooks/inflow-handler.service.ts). */
module Webhooks {
  import opened Wrappers
  import opened PayoutStateMachine
  import opened Ledgers
  import opened Tables
  import opened Treasury
  import opened PayoutServices
  import opened ServiceRefinement

  /** The registered accounts by reference; shared references start with "s_". */
  datatype Registry = Registry(members: map<string, (nat, Fund)>, shared: map<string, Fund>)

  /** An event's data, amounts already in kobo. An empty reference is a missing one; a
      payout is named by the id its transfer reference stands for. */
  datatype Body =
    | PaymentSuccess(accountRef: string, amountKobo: int, feeKobo: int, transactionId: Option<string>)
    | PayoutSuccess(ref: Option<nat>, feeKobo: int)
    | PayoutFailed(ref: Option<nat>)
    | PayoutRefund(ref: Option<nat>)
    | PaymentReversal(ref: Option<nat>)
    | PaymentFailed
    | Unrecognised

  /** Where, if anywhere, the database or the process gives out during one attempt. */
  datatype Fault =
    | NoFault
    | LogFails          // the log row is not inserted
    | Dies              // the process stops after the log row, before the handler commits
    | HandlerFails      // a handler's lookup fails, before it writes anything
    | SecondWriteFails  // the handler's first write is done, its second fails
    | MarkFails         // the handler is done, marking the row processed fails

  /** One attempt at one event, and what the clocks read. */
  datatype Delivery = Delivery(requestId: string, body: Body, at: Clocks, fault: Fault)

  datatype LogState = Received | Processed | FailedEvent

  type Log = map<string, LogState>

  datatype Inbox = Inbox(db: Db, log: Log)

  function AccountOf(reg: Registry, ref: string): Option<Account> {
    if "s_" <= ref then
      if ref in reg.shared then Some(SharedVa(reg.shared[ref])) else None
    else
      if ref in reg.members then Some(MemberVa(reg.members[ref].0, reg.members[ref].1)) else None
  }

  function StoredRef(d: Delivery): string
    requires d.body.PaymentSuccess?
  {
    d.body.transactionId.GetOr(d.requestId)
  }

  predicate Unsettled(b: Body) {
    b.PayoutFailed? || b.PayoutRefund? || b.PaymentReversal?
  }

  /** A handler's effect on the tables, and whether it throws. Faults strike only handlers
      that get as far as the database. */
  function Handle(reg: Registry, db: Db, d: Delivery): (Db, bool) {
    match d.body
    case PaymentSuccess(accountRef, amountKobo, feeKobo, _) =>
      if accountRef == "" then (db, false)
      else if d.fault.HandlerFails? then (db, true)
      else (
        match AccountOf(reg, accountRef)
        case None => (db, false)
        case Some(account) =>
          WithTransaction(db,
            InflowBody(db, account, d.at.node, amountKobo, feeKobo, StoredRef(d), d.fault.SecondWriteFails?))
      )
    case PayoutSuccess(ref, feeKobo) =>
      if ref.Some? && d.fault.HandlerFails? then (db, true)
      else TrySuccess(db, ref, d.at, feeKobo, d.fault.SecondWriteFails?)
    case PaymentFailed => (db, false)
    case Unrecognised => (db, false)
    case _ =>
      if d.body.ref.Some? && d.fault.HandlerFails? then (db, true)
      else if d.body.ref.Some? && d.fault.SecondWriteFails? && CanSettle(db, d.body.ref.value)
      then (SettleFailure(db, d.body.ref.value), true)
      else (HandleFailure(db, d.body.ref), false)
  }

  /** process: gate, handler, mark. The flag says whether the queue sees a failed job. */
  function ProcessOne(reg: Registry, box: Inbox, d: Delivery): (Inbox, bool) {
    if d.requestId == "" then (box, false)
    else if d.fault.LogFails? then (box, true)
    else if d.requestId in box.log then (box, false)
    else if d.fault.Dies? then (box.(log := box.log[d.requestId := Received]), true)
    else
      var handled := Handle(reg, box.db, d);
      var threw := handled.1 || d.fault.MarkFails?;
      (Inbox(handled.0, box.log[d.requestId := if threw then FailedEvent else Processed]), threw)
  }

  class WebhookProcessor {
    const reg: Registry
    const store: PayoutStore
    var log: Log

    constructor (reg: Registry, store: PayoutStore)
      ensures this.reg == reg && this.store == store && log == map[]
    {
      this.reg, this.store, log := reg, store, map[];
    }

    ghost function View(): Inbox
      reads this, store, store.ledger
    {
      Inbox(store.View(), log)
    }

    /** INSERT ... ON CONFLICT DO NOTHING */
    method LogEvent(requestId: string) returns (duplicate: bool)
      modifies this
      ensures duplicate <==> requestId in old(log)
      ensures log == if duplicate then old(log) else old(log)[requestId := Received]
    {
      duplicate := requestId in log;
      if !duplicate {
        log := log[requestId := Received];
      }
    }

    method Mark(requestId: string, outcome: LogState)
      modifies this
      ensures log == old(log)[requestId := outcome]
    {
      log := log[requestId := outcome];
    }

    /** inflowHandlerService.handle */
    method HandleInflow(d: Delivery) returns (threw: bool)
      requires d.body.PaymentSuccess?
      modifies store`txs, store.ledger
      ensures (store.View(), threw) == Handle(reg, old(store.View()), d)
    {
      if d.body.accountRef == "" {
        return false;
      }
      if d.fault.HandlerFails? {
        return true;
      }
      var account := AccountOf(reg, d.body.accountRef);
      if account.None? {
        return false;
      }
      threw := store.RecordInflow(account.value, d.body.amountKobo, d.body.feeKobo, d.at.node, StoredRef(d),
                                  d.fault.SecondWriteFails?);
    }

    method Route(d: Delivery) returns (threw: bool)
      modifies store, store.ledger
      ensures (store.View(), threw) == Handle(reg, old(store.View()), d)
    {
      threw := false;
      match d.body {
        case PaymentSuccess(_, _, _, _) =>
          threw := HandleInflow(d);
        case PayoutSuccess(ref, feeKobo) =>
          if ref.Some? && d.fault.HandlerFails? {
            return true;
          }
          threw := store.HandleTransferSuccess(ref, feeKobo, d.at, d.fault.SecondWriteFails?);
        case PaymentFailed =>
        case Unrecognised =>
        case _ =>
          var ref := d.body.ref;
          if ref.Some? && d.fault.HandlerFails? {
            return true;
          }
          threw := ref.Some? && d.fault.SecondWriteFails?
                   && ref.value < |store.payouts| && store.payouts[ref.value].hasRef
                   && store.payouts[ref.value].status == Transferring;
          store.HandleTransferFailed(ref, threw);
      }
    }

    method Process(d: Delivery) returns (threw: bool)
      modifies this, store, store.ledger
      ensures (View(), threw) == ProcessOne(reg, old(View()), d)
    {
      if d.requestId == "" {
        return false;
      }
      if d.fault.LogFails? {
        return true;
      }
      var duplicate := LogEvent(d.requestId);
      if duplicate {
        return false;
      }
      if d.fault.Dies? {
        return true;
      }
      threw := Route(d);
      if !threw && !d.fault.MarkFails? {
        Mark(d.requestId, Processed);
      } else {
        threw := true;
        Mark(d.requestId, FailedEvent);
      }
      assert log == old(log)[d.requestId := if threw then FailedEvent else Processed];
    }
  }

  // ----- One attempt, by the stored rows -----

  /** Which attempts leave a log row and what it says, and when the queue sees a failure. */
  lemma MarkMeaning(reg: Registry, box: Inbox, d: Delivery)
    ensures var (box', threw) := ProcessOne(reg, box, d);
      var logs := d.requestId != "" && d.fault != LogFails && d.requestId !in box.log;
      && (!logs ==> box' == box && (threw <==> d.requestId != "" && d.fault == LogFails))
      && (logs ==>
            && (threw <==> d.fault == Dies || d.fault == MarkFails || Handle(reg, box.db, d).1)
            && box'.log == box.log[d.requestId := if d.fault == Dies then Received
                                                  else if threw then FailedEvent else Processed])
  {
  }

  /** A payment's first undisturbed delivery: under the account its reference is registered
      for, shared by prefix or a member's, in the server's month, under its transaction id or
      else the request id; refused when not positive or already stored, dropped without an
      account. */
  lemma PaymentMeaning(reg: Registry, box: Inbox, d: Delivery)
    requires d.body.PaymentSuccess? && d.fault == NoFault && d.requestId != "" && d.requestId !in box.log
    ensures var (box', threw) := ProcessOne(reg, box, d);
      var ref, txs, txs' := d.body.accountRef, box.db.txs, box'.db.txs;
      var isShared := |ref| >= 2 && ref[0] == 's' && ref[1] == '_';
      if ref == "" || (if isShared then ref !in reg.shared else ref !in reg.members)
      then !threw && box' == box.(log := box.log[d.requestId := Processed])
      else
        var account := if isShared then SharedVa(reg.shared[ref])
                       else MemberVa(reg.members[ref].0, reg.members[ref].1);
        var stored := if d.body.transactionId.Some? then d.body.transactionId.value else d.requestId;
        && (threw <==>
              || d.body.amountKobo <= 0
              || exists k :: 0 <= k < |txs| && txs[k].account.MemberVa? == account.MemberVa? && txs[k].ref == stored)
        && (threw ==> box' == box.(log := box.log[d.requestId := FailedEvent]))
        && (!threw ==>
              && txs' == txs + [Tx(account, d.at.node, d.body.amountKobo, d.body.feeKobo, stored)]
              && box'.log == box.log[d.requestId := Processed]
              && var r, r' := RowAt(BookOf(box.db.books, account.fund), d.at.node),
                              RowAt(BookOf(box'.db.books, account.fund), d.at.node);
                 r'.collected == r.collected + d.body.amountKobo && r'.fees == r.fees + d.body.feeKobo)
  {
  }

  /** The month a settlement writes and what it adds there; locks aside, nothing else moves. */
  ghost predicate PaysOut(db: Db, db': Db, fund: Fund, month: Period, amount: int, fee: int) {
    forall f, q ::
      var r, r' := RowAt(BookOf(db.books, f), q), RowAt(BookOf(db'.books, f), q);
      r'.(softLock := 0) == if f == fund && q == month
                            then r.(paidOut := r.paidOut + amount, fees := r.fees + fee, softLock := 0)
                            else r.(softLock := 0)
  }

  /** An outcome's first undisturbed delivery: only a TRANSFERRING payout with its reference
      stored is touched, a success stamps and debits it, and failure, refund and reversal
      alike fail it and give the lock back. */
  lemma OutcomeMeaning(reg: Registry, box: Inbox, d: Delivery, i: nat)
    requires d.body.PayoutSuccess? || d.body.PayoutFailed? || d.body.PayoutRefund? || d.body.PaymentReversal?
    requires d.body.ref == Some(i) && d.fault == NoFault && d.requestId != "" && d.requestId !in box.log
    ensures var (box', threw) := ProcessOne(reg, box, d);
      var db, db' := box.db, box'.db;
      && !threw && db'.txs == db.txs
      && if i >= |db.payouts| || !db.payouts[i].hasRef || db.payouts[i].status != Transferring then db' == db
         else
           var po := db.payouts[i];
           if d.body.PayoutSuccess? then
             && db'.payouts == db.payouts[i := po.(status := Transferred, fee := d.body.feeKobo,
                                                   executedIn := Some(d.at.database), debitedIn := Some(d.at.node),
                                                   held := false, settled := po.settled + 1)]
             && PaysOut(db, db', po.fund, d.at.node, po.amount, d.body.feeKobo)
           else
             && db'.payouts == db.payouts[i := po.(status := Failed, held := false, settled := po.settled + 1)]
             && PaysOut(db, db', po.fund, d.at.node, 0, 0)
  {
    hide Release;
    if i < |box.db.payouts| && CanSettle(box.db, i) {
      var po := box.db.payouts[i];
      var l := BookOf(box.db.books, po.fund);
      if d.body.PayoutSuccess? {
        ReleaseMovesNoMoney(DebitRow(l, d.at.node, po.amount, d.body.feeKobo), po.amount, po.lockedPeriod);
      } else {
        ReleaseMovesNoMoney(l, po.amount, po.lockedPeriod);
      }
    }
  }

  /** A lookup that fails, or a second write that does, fails the job and is marked so if the
      event got that far; it leaves the tables alone, except that a payout may stand FAILED
      with its lock still taken. */
  lemma FaultMeaning(reg: Registry, box: Inbox, d: Delivery)
    requires d.fault == HandlerFails || d.fault == SecondWriteFails
    requires d.requestId != "" && d.requestId !in box.log
    ensures var (box', threw) := ProcessOne(reg, box, d);
      var db, db' := box.db, box'.db;
      && box'.log == box.log[d.requestId := if threw then FailedEvent else Processed]
      && match d.body
         case PaymentSuccess(ref, _, _, _) =>
           && db' == db
           && (d.fault == HandlerFails ==> (threw <==> ref != ""))
           && (d.fault == SecondWriteFails ==> (threw <==> ref != "" && AccountOf(reg, ref).Some?))
         case PayoutSuccess(ref, _) =>
           && db' == db
           && (threw <==> ref.Some? && (d.fault == HandlerFails || Settles(db, ref.value)))
         case PaymentFailed => !threw && db' == db
         case Unrecognised => !threw && db' == db
         case _ =>
           && (threw <==> d.body.ref.Some? && (d.fault == HandlerFails || Settles(db, d.body.ref.value)))
           && if threw && d.fault == SecondWriteFails then
                var i := d.body.ref.value;
                db' == db.(payouts := db.payouts[i := db.payouts[i].(status := Failed,
                                                                     settled := db.payouts[i].settled + 1)])
              else db' == db
  {
  }

  /** A row a settlement event may still move. */
  predicate Settles(db: Db, i: nat) {
    i < |db.payouts| && db.payouts[i].hasRef && db.payouts[i].status == Transferring
  }

  lemma ReleaseMovesNoMoney(l: Ledger, amount: int, recorded: Option<Period>)
    ensures forall p :: RowAt(Release(l, amount, recorded), p).(softLock := 0) == RowAt(l, p).(softLock := 0)
  {
  }

  // ----- Runs: deliveries in any order, any other actor's writes in between -----

  datatype Event = Delivered(d: Delivery) | Elsewhere(step: Db -> Db)

  function After(reg: Registry, box: Inbox, e: Event): Inbox {
    match e
    case Delivered(d) => ProcessOne(reg, box, d).0
    case Elsewhere(step) => box.(db := step(box.db))
  }

  function Run(reg: Registry, box: Inbox, es: seq<Event>): Inbox {
    if es == [] then box else After(reg, Run(reg, box, es[..|es| - 1]), es[|es| - 1])
  }

  /** An attempt that reaches the log table with a request id. */
  predicate ReachesLog(e: Event) {
    e.Delivered? && e.d.requestId != "" && !e.d.fault.LogFails?
  }

  predicate IsFirst(seen: set<string>, es: seq<Event>, n: nat)
    requires n < |es|
  {
    && ReachesLog(es[n]) && es[n].d.requestId !in seen
    && forall j :: 0 <= j < n && ReachesLog(es[j]) ==> es[j].d.requestId != es[n].d.requestId
  }

  /** The run with every delivery dropped that is not the first logged one of its id. */
  function FirstDeliveries(seen: set<string>, es: seq<Event>): seq<Event> {
    if es == [] then []
    else
      var n := |es| - 1;
      var before := FirstDeliveries(seen, es[..n]);
      if es[n].Elsewhere? || IsFirst(seen, es, n) then before + [es[n]] else before
  }

  lemma {:induction false} LoggedIds(reg: Registry, box: Inbox, es: seq<Event>)
    ensures forall id :: id in Run(reg, box, es).log <==>
      id in box.log || exists j :: 0 <= j < |es| && ReachesLog(es[j]) && es[j].d.requestId == id
  {
    if es != [] {
      var n := |es| - 1;
      LoggedIds(reg, box, es[..n]);
      assert forall j :: 0 <= j < n ==> es[..n][j] == es[j];
    }
  }

  /** Duplicates and retries change nothing: any run ends where the run of first deliveries
      ends, whatever the other actors write in between. */
  lemma {:induction false} DedupRefinement(reg: Registry, box: Inbox, es: seq<Event>)
    ensures Run(reg, box, es) == Run(reg, box, FirstDeliveries(box.log.Keys, es))
  {
    hide After, ReachesLog;
    if es != [] {
      var n := |es| - 1;
      DedupRefinement(reg, box, es[..n]);
      LoggedIds(reg, box, es[..n]);
      assert forall j :: 0 <= j < n ==> es[..n][j] == es[j];
      var before := FirstDeliveries(box.log.Keys, es[..n]);
      if es[n].Elsewhere? || IsFirst(box.log.Keys, es, n) {
        assert (before + [es[n]])[..|before|] == before;
      } else {
        SkippedIsNothing(reg, Run(reg, box, es[..n]), es[n]);
      }
    }
  }

  lemma SkippedIsNothing(reg: Registry, box: Inbox, e: Event)
    requires e.Delivered? && (ReachesLog(e) ==> e.d.requestId in box.log)
    ensures After(reg, box, e) == box
  {
  }

  /** A log row is written once: an event marked failed, or left unfinished by a crash, is
      never processed by any later delivery. */
  lemma {:induction false} LogIsPermanent(reg: Registry, box: Inbox, es: seq<Event>, id: string)
    requires id in box.log
    ensures var box' := Run(reg, box, es); id in box'.log && box'.log[id] == box.log[id]
  {
    if es != [] {
      LogIsPermanent(reg, box, es[..|es| - 1], id);
    }
  }

  // ----- One queue job: attempts until one returns -----

  function RunJob(reg: Registry, box: Inbox, attempts: seq<Delivery>): (Inbox, bool)
    decreases |attempts|
  {
    if attempts == [] then (box, false)
    else
      var r := ProcessOne(reg, box, attempts[0]);
      if r.1 then RunJob(reg, r.0, attempts[1..]) else (r.0, true)
  }

  predicate SameRequest(attempts: seq<Delivery>, id: string) {
    forall k :: 0 <= k < |attempts| ==> attempts[k].requestId == id
  }

  predicate NoneLogs(attempts: seq<Delivery>, lo: nat, hi: nat)
    requires hi <= |attempts|
  {
    forall j :: lo <= j < hi ==> attempts[j].fault.LogFails?
  }

  predicate FirstToLog(attempts: seq<Delivery>, k: nat)
    requires k < |attempts|
  {
    !attempts[k].fault.LogFails? && NoneLogs(attempts, 0, k)
  }

  lemma LoggedJobCompletes(reg: Registry, box: Inbox, attempts: seq<Delivery>, id: string)
    requires SameRequest(attempts, id) && id != "" && id in box.log
    ensures RunJob(reg, box, attempts).0 == box
    ensures !RunJob(reg, box, attempts).1 <==> forall k :: 0 <= k < |attempts| ==> attempts[k].fault.LogFails?
  {
    if attempts != [] && attempts[0].fault.LogFails? {
      LoggedJobCompletes(reg, box, attempts[1..], id);
      assert forall k :: 1 <= k < |attempts| ==> attempts[k] == attempts[1..][k - 1];
    }
  }

  /** At most once, not exactly once: only the first attempt that reaches the log acts. If it
      throws, the next one that reaches the log returns at the duplicate and the job counts
      as done. So a job ends on the dead-letter queue exactly when no attempt that reached
      the log succeeded and none came after it. */
  lemma {:induction false} JobMeaning(reg: Registry, box: Inbox, attempts: seq<Delivery>, id: string)
    requires SameRequest(attempts, id) && id != "" && id !in box.log
    ensures var (box', done) := RunJob(reg, box, attempts);
      && ((forall k :: 0 <= k < |attempts| ==> attempts[k].fault.LogFails?) ==> box' == box && !done)
      && forall k :: 0 <= k < |attempts| && FirstToLog(attempts, k) ==>
           && box' == ProcessOne(reg, box, attempts[k]).0
           && (!done <==> ProcessOne(reg, box, attempts[k]).1 && NoneLogs(attempts, k + 1, |attempts|))
  {
    if attempts != [] {
      var rest := attempts[1..];
      assert forall k :: 1 <= k < |attempts| ==> attempts[k] == rest[k - 1];
      var r := ProcessOne(reg, box, attempts[0]);
      if attempts[0].fault.LogFails? {
        JobMeaning(reg, box, rest, id);
        forall k | 0 <= k < |attempts| && FirstToLog(attempts, k) ensures k > 0 && FirstToLog(rest, k - 1)
          && (NoneLogs(attempts, k + 1, |attempts|) <==> NoneLogs(rest, k, |rest|)) {
          assert forall j :: 0 <= j < |rest| ==> rest[j] == attempts[j + 1];
        }
      } else if r.1 {
        LoggedJobCompletes(reg, r.0, rest, id);
        assert NoneLogs(attempts, 1, |attempts|) <==> forall k :: 0 <= k < |rest| ==> rest[k].fault.LogFails? by {
          assert forall j :: 0 <= j < |rest| ==> rest[j] == attempts[j + 1];
        }
      }
    }
  }

  // ----- What a throw and a replay leave behind -----

  /** A handler that throws changes the tables only in one way: the failed handler stopped
      after writing FAILED, and then the fund's books are still untouched. */
  lemma ThrowIsCleanIff(reg: Registry, db: Db, d: Delivery)
    requires Handle(reg, db, d).1
    ensures var db' := Handle(reg, db, d).0;
      && db'.books == db.books && db'.txs == db.txs
      && (db' != db <==> Unsettled(d.body) && d.fault.SecondWriteFails?)
  {
    var db' := Handle(reg, db, d).0;
    if Unsettled(d.body) && d.fault.SecondWriteFails? {
      var i := d.body.ref.value;
      assert db'.payouts[i].status != db.payouts[i].status;
    }
  }

  predicate RefsUnique(txs: seq<Tx>) {
    forall j, k :: 0 <= j < k < |txs| && SameTable(txs[j].account, txs[k].account) ==> txs[j].ref != txs[k].ref
  }

  /** Other actors leave the transaction tables alone. */
  ghost predicate LeavesTxs(e: Event) {
    e.Elsewhere? ==> forall db: Db :: e.step(db).txs == db.txs
  }

  /** Over any run the transaction tables only grow, and no table holds a reference twice. */
  lemma {:induction false} TxsGrowUniquely(reg: Registry, box: Inbox, es: seq<Event>)
    requires RefsUnique(box.db.txs) && forall k :: 0 <= k < |es| ==> LeavesTxs(es[k])
    ensures var txs := Run(reg, box, es).db.txs; box.db.txs <= txs && RefsUnique(txs)
  {
    if es != [] {
      var n := |es| - 1;
      assert forall k :: 0 <= k < n ==> es[..n][k] == es[k];
      TxsGrowUniquely(reg, box, es[..n]);
      AfterKeepsTxs(reg, Run(reg, box, es[..n]), es[n]);
    }
  }

  lemma AfterKeepsTxs(reg: Registry, box: Inbox, e: Event)
    requires RefsUnique(box.db.txs) && LeavesTxs(e)
    ensures var txs := After(reg, box, e).db.txs; box.db.txs <= txs && RefsUnique(txs)
  {
  }

  /** A replay under any request id, however much later, of a payment whose transaction id
      is already stored in the account's table credits nothing. */
  lemma ReplayCreditsNothing(reg: Registry, box: Inbox, es: seq<Event>, replay: Delivery)
    requires forall k :: 0 <= k < |es| ==> LeavesTxs(es[k])
    requires RefsUnique(box.db.txs)
    requires replay.body.PaymentSuccess? && replay.body.transactionId.Some?
    requires var account := AccountOf(reg, replay.body.accountRef);
      account.Some? && RefTaken(box.db.txs, account.value, replay.body.transactionId.value)
    ensures var box' := Run(reg, box, es); ProcessOne(reg, box', replay).0.db == box'.db
  {
    TxsGrowUniquely(reg, box, es);
    var account := AccountOf(reg, replay.body.accountRef).value;
    var k :|
      && 0 <= k < |box.db.txs| && SameTable(box.db.txs[k].account, account)
      && box.db.txs[k].ref == replay.body.transactionId.value;
    assert Run(reg, box, es).db.txs[k] == box.db.txs[k];
  }

  predicate Credits(reg: Registry, box: Inbox, d: Delivery) {
    |ProcessOne(reg, box, d).0.db.txs| > |box.db.txs|
  }

  /** The replay is harmless because both deliveries store the same reference, and only then:
      a payment first delivered without a transaction id is stored under its request id, so
      the same payment replayed with one is credited again. */
  lemma SecondCreditIff(reg: Registry, box: Inbox, first: Delivery, again: Delivery, account: Account)
    requires first.body.PaymentSuccess? && AccountOf(reg, first.body.accountRef) == Some(account)
    requires again.body.PaymentSuccess? && again.body == first.body.(transactionId := again.body.transactionId)
    requires again.fault.NoFault? && again.requestId != ""
    requires Credits(reg, box, first) && again.requestId !in ProcessOne(reg, box, first).0.log
    requires !RefTaken(box.db.txs, account, StoredRef(again))
    ensures Credits(reg, ProcessOne(reg, box, first).0, again) <==> StoredRef(again) != StoredRef(first)
  {
    var added := Tx(account, first.at.node, first.body.amountKobo, first.body.feeKobo, StoredRef(first));
    assert ProcessOne(reg, box, first).0.db.txs == box.db.txs + [added];
    TakenAfterAppend(box.db.txs, added, account, StoredRef(again));
  }

  /** For one, a payment of a shared account delivered as "r1" without its transaction id and
      again as "r2" with it: the fund's ledger holds the amount twice. */
  lemma CreditedTwice(amount: int, fee: int, at: Clocks)
    requires amount > 0
    ensures var reg, box := Registry(map[], map["s_a" := 0]), Inbox(EMPTY_DB, map[]);
      var first := Delivery("r1", PaymentSuccess("s_a", amount, fee, None), at, NoFault);
      var again := Delivery("r2", PaymentSuccess("s_a", amount, fee, Some("t")), at, NoFault);
      var box1 := ProcessOne(reg, box, first).0;
      var box2 := ProcessOne(reg, box1, again).0;
      && Credits(reg, box, first) && Credits(reg, box1, again)
      && box2.db.txs == [Tx(SharedVa(0), at.node, amount, fee, "r1"), Tx(SharedVa(0), at.node, amount, fee, "t")]
      && RowAt(BookOf(box2.db.books, 0), at.node).collected == 2 * amount
  {
    var reg, box := Registry(map[], map["s_a" := 0]), Inbox(EMPTY_DB, map[]);
    var first := Delivery("r1", PaymentSuccess("s_a", amount, fee, None), at, NoFault);
    var again := Delivery("r2", PaymentSuccess("s_a", amount, fee, Some("t")), at, NoFault);
    SecondCreditIff(reg, box, first, again, SharedVa(0));
  }

  lemma TakenAfterAppend(txs: seq<Tx>, added: Tx, account: Account, ref: string)
    ensures RefTaken(txs + [added], account, ref)
      <==> RefTaken(txs, account, ref) || (SameTable(added.account, account) && added.ref == ref)
  {
    var all := txs + [added];
    if RefTaken(txs, account, ref) {
      var k :| 0 <= k < |txs| && SameTable(txs[k].account, account) && txs[k].ref == ref;
      assert all[k] == txs[k];
    }
    if SameTable(added.account, account) && added.ref == ref {
      assert all[|txs|] == added;
    }
  }

  // ----- A delivery is a stretch of a treasury run -----

  /** The treasury actions one attempt amounts to. */
  function ActionsOf(reg: Registry, s: State, log: Log, d: Delivery): seq<Action> {
    if d.requestId == "" || d.fault.LogFails? || d.requestId in log || d.fault.Dies? || d.fault.HandlerFails? then []
    else
      match d.body
      case PaymentSuccess(accountRef, amountKobo, feeKobo, _) =>
        if accountRef == "" then []
        else (
          match AccountOf(reg, accountRef)
          case None => []
          case Some(account) =>
            if d.fault.SecondWriteFails? then []
            else [Inflow(account, d.at.node, amountKobo, feeKobo, StoredRef(d))]
        )
      case PayoutSuccess(ref, feeKobo) =>
        if ref.None? || d.fault.SecondWriteFails? then [] else [DeliverSuccess(ref.value, feeKobo), WorkerStep(d.at)]
      case PaymentFailed => []
      case Unrecognised => []
      case _ =>
        if d.body.ref.None? || !CanSettle(s.db, d.body.ref.value) then []
        else
          [DeliverFailure(d.body.ref.value), WorkerStep(d.at)]
          + if d.fault.SecondWriteFails? then [] else [Step(|s.procs|, true)]
  }

  /** The failed handler: the guard, the FAILED write and, unless it stops there, the release. */
  lemma FailureActions(c: Config, s: State, i: nat, at: Clocks, stops: bool)
    requires s.worker.Idle? && CanSettle(s.db, i)
    ensures var acts := [DeliverFailure(i), WorkerStep(at)] + if stops then [] else [Step(|s.procs|, true)];
      var s' := ApplyAll(c, s, acts);
      s'.worker.Idle? && s'.db == if stops then SettleFailure(s.db, i) else HandleFailure(s.db, Some(i))
  {
    var s2 := Apply(c, Apply(c, s, DeliverFailure(i)), WorkerStep(at));
    assert s2.db == SettleFailure(s.db, i) && s2.procs == s.procs + [Releasing(i)];
    var more := if stops then [] else [Step(|s.procs|, true)];
    ApplyTwo(c, s, DeliverFailure(i), WorkerStep(at), more);
    if !stops {
      assert ApplyAll(c, s2, more) == Apply(c, s2, more[0]);
    }
  }

  lemma ActionsDeliver(c: Config, s: State, reg: Registry, log: Log, d: Delivery)
    requires s.worker.Idle?
    ensures var s' := ApplyAll(c, s, ActionsOf(reg, s, log, d));
      s'.worker.Idle? && s'.db == ProcessOne(reg, Inbox(s.db, log), d).0.db
  {
    var acts := ActionsOf(reg, s, log, d);
    if acts == [] {
    } else if d.body.PaymentSuccess? {
      var a := acts[0];
      BodiesCompose(s.db, a.account, a.period, a.amount, a.fee, a.ref, 0, d.at);
      hide InflowBody, CreditInflow, WithTransaction;
      assert ApplyAll(c, s, acts) == Apply(c, s, a);
    } else if d.body.PayoutSuccess? {
      BodiesCompose(s.db, SharedVa(0), 0, 0, d.body.feeKobo, "", d.body.ref.value, d.at);
      hide TrySuccess, SettleSuccess;
      ApplyTwo(c, s, acts[0], acts[1], []);
      assert [acts[0], acts[1]] + [] == acts;
    } else {
      FailureActions(c, s, d.body.ref.value, d.at, d.fault.SecondWriteFails?);
    }
  }

  /** Every attempt, faulty or not, extends a treasury run by its actions, so what holds over
      treasury runs holds of the tables the deliveries write. */
  lemma DeliveryIsRun(c: Config, acts: seq<Action>, reg: Registry, log: Log, d: Delivery)
    requires Exec(c, acts).worker.Idle?
    ensures var s := Exec(c, acts);
      var s' := Exec(c, acts + ActionsOf(reg, s, log, d));
      s'.worker.Idle? && s'.db == ProcessOne(reg, Inbox(s.db, log), d).0.db
  {
    hide ActionsOf, ProcessOne, ApplyAll;
    var s := Exec(c, acts);
    ActionsDeliver(c, s, reg, log, d);
    ExecAppend(c, acts, ActionsOf(reg, s, log, d));
  }
}
