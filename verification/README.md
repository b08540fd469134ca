# Church treasury: ledger, approvals and settlement

A Dafny model of the backend's treasury protocol, its circuit breaker and two small
round trips, with proofs of what they are for. `dafny verify dfyconfig.toml` checks
everything.

## How it is built

**The treasury as a step system.** Approvers, a decliner, the cancelling initiator, the
hourly expiry job, the manual-payout caller and the settlement worker share the tables
`fund_ledger`, the two transaction tables, `payout_requests` and `payout_approvals`.
`Tables` holds those tables and the atomic statements on them, `Ledgers` one fund's
ledger rows. `Treasury` gives every actor a program counter; one step is one statement or
one `withTransaction` block, and the transfer call returns or throws as it likes. A run is
any list of actions (an action that is not enabled changes nothing), so a lemma over all
lists is a statement about every interleaving, including actors that crash: a process that
is never scheduled again.

- `TreasuryControl` is the inductive invariant: which actor alone may write a payout, from
  its winning compare-and-set to its release or its handover to the webhooks.
- `TreasuryBooks` and `TreasuryRuns` relate the ledger to the raw rows along every run
  (`Journal` sums postings); `TreasuryMoney`, `TreasurySweeps`, `TreasuryMonths` and
  `TreasuryBounds` draw the conclusions.
- `Statements` says what the single statements and actions do in terms of the stored fields
  alone, no shared helper in between; the same is done beside the services in
  `ApprovalService`, `Webhooks` and `CircuitBreakers`.
- `TreasurySafety` is about calls, settlements and statuses, `TreasuryReleases` about every
  release of a lock, `TreasuryQuorum` about what a winning quorum read saw.
- `TreasuryScenarios`, `TreasuryFloor`, `TreasuryStranded` and `TreasuryLateDecline` hold the
  runs that show a promise broken or a bound met.

**The services as mutable classes.** `LedgerService.FundLedgerTable`,
`PayoutServices.PayoutStore`, `ApprovalService.ApprovalDesk`, `Webhooks.WebhookProcessor`
and the breaker update their fields statement by statement, each method proved against a
function of the old state. `ServiceRefinement`, `ApprovalService` and `Webhooks` prove that
a process of the step system left alone does exactly what the service method ensures, so
the run theorems are about those methods.

**The rest.** `CircuitBreakers` is the breaker with the HTTP interceptors that feed it,
`Csv` the report writer against an independent reader of section 2 of RFC 4180, `Kobo` the
currency conversion under double rounding.

## Where the code and what is written about it differ

The model follows the code; these are proved.

- **The lock is not always released once.** When a manual payout loses its row to a
  canceller or the expiry job between insert and compare-and-set, both release the lock
  (`ConflictReleasesTwice`); two is the most there can be, and one unless that branch ran
  beside the killer's release (`ReleasedTwiceIffConflict`). Over runs with every month
  recorded the locks are conserved at every point if and only if that branch never finds a
  lock to take (`LocksConservedIffNoSteals`), which is certain when nothing comes between the
  two statements (`UninterruptedNeverSteals`) or nobody cancels and no expiry job runs
  (`KillerFreeNeverSteals`).
- **A stolen lock can over-commit the fund.** After such a race the balance check grants the
  money again and the fund promises more than it took in (`StolenLockOverdraws`). Some next
  action can break the over-commitment bound if and only if the locks missing exceed the
  transfer fees paid so far and the headroom (`NextOverdraftIff`, `CoveredWhileFewMissing`).
- **A release without a recorded month can strand a lock.** Sweeps and payouts from before
  the month was recorded guess the row; when it holds less, the rest of the lock stays on
  another row with no payout behind it and the fund shows too little (`SweepStrandsLock`),
  and the lock taken instead may be that of a payout still PENDING
  (`OldCancelTakesLaterLock`). Over all runs a fund's locks total its reservations at every
  point if and only if no release fell short and none was stolen (`FundLocksExactIff`).
- **Months come from two clocks.** A debit is filed under the server's month, the payout
  stamped with the database's (`MonthEndSplitsPayment`); the ledger matches the backfill
  queries month by month if and only if the two agree at every settlement
  (`PaidMatchesIffClocksAgree`).
- **Webhooks are processed at most once, not exactly once.** An attempt that throws leaves
  its log row behind, the queue's next attempt returns at the duplicate, and the job counts
  as done (`JobMeaning`); the log row stays as it is for good (`LogIsPermanent`).
- **The unique transaction reference protects replays only if the first delivery carried a
  transaction id**; otherwise the request id was stored and the replay credits again
  (`SecondCreditIff`, `CreditedTwice`).
- **With three or more approvers required, every approval after the first and before the
  last is recorded but answered with a conflict**, because PARTIAL to PARTIAL is not in the
  transition table (`LastApprovalFires`).
- **A decline kills the request only if it is still awaiting at the write**
  (`DeclineKillsIffAwaiting`); a recorded decline can come too late, and the money leaves
  (`DeclineTooLate`).
- **The fee headroom is checked but not reserved**, so a fund can fall below zero by one fee
  for each reservation beyond the first; the bound is met for every number of reservations
  (`FloorIsReached`). With at most n payouts reserved at once no run takes a fund below zero
  if and only if n is at most one or the headroom is zero (`NeverBelowZeroIff`).
- **Not only half-open probes close the breaker.** Answers to requests sent before the trip
  count as successes of the half-open phase (`LateSuccessesClose`); only probes close a phase
  if and only if nothing was outstanding when it began (`OnlyProbesCloseIff`). They also
  let more probes out than the limit (`LateSuccessAdmitsThirdProbe`); the limit holds of a
  phase if and only if nothing was outstanding when it began or one success closes
  (`ProbeLimitHoldsIff`).

## Model

| member | source | states |
|---|---|---|
| PayoutStateMachine.TerminalIffInescapable | src/modules/payouts/payout-state.machine.ts:33-51 | the four terminal statuses are exactly those no path of the table leaves |
| PayoutStateMachine.ReachesIffOnward | src/modules/payouts/payout-state.machine.ts:41-51 | without the retry edge the table leads exactly onward: an explicit set per status, the same status or a strictly later one |
| PayoutStateMachine.CodeMoveIsPath | src/modules/payouts/maunal-payout.service.ts:84-90 | every move the code makes, the jump over APPROVED included, is a self-loop or a path of the table without the retry edge |
| Ledgers.CreditTotals | src/modules/transactions/ledger.service.ts:64-83 | a credit raises the fund's net by amount less fee and leaves its locks, whether or not the month has a row |
| Ledgers.AddLockTotals | src/modules/transactions/ledger.service.ts:186-192 | a lock moves exactly its amount out of the net balance |
| Ledgers.ReleaseTotals | src/modules/transactions/ledger.service.ts:235-253 | a release gives back at most its amount, and exactly it when the recorded row holds that much |
| Ledgers.ReleaseExactIff | src/modules/transactions/ledger.service.ts:243-253 | a release, month recorded or guessed, gives back exactly its amount if and only if its target row holds it |
| Ledgers.DebitConservesIffLocked | src/modules/transactions/ledger.service.ts:91-127 | for any lock month, recorded or guessed, and any settlement month, paid_out plus soft_lock is conserved, and the balance falls by the fee alone, if and only if the target row holds the amount |
| Ledgers.DebitTotals | src/modules/transactions/ledger.service.ts:114-126 | without a recorded month a debit may free too little, never too much |
| Ledgers.AnyOrderSumsToTotal | src/modules/transactions/ledger.service.ts:169-175 | accumulating the rows in any order gives the column total |
| Ledgers.BalanceFormsAgree | src/modules/payouts/payout.repository.ts:243-278 | checkAndLock's accumulation, getBalance's four sums and fundBalances' single sum are one clamped number |
| LedgerService.FundLedgerTable.CreditLedger | src/modules/transactions/ledger.service.ts:64-83 | the upsert leaves the fund's rows as Credit defines and every other fund alone |
| LedgerService.FundLedgerTable.DebitLedger | src/modules/transactions/ledger.service.ts:91-127 | upsert then release: the rows are those Debit defines |
| LedgerService.FundLedgerTable.CheckAndLock | src/modules/transactions/ledger.service.ts:144-198 | the loop computes the clamped balance; the newest row is locked and named, or nothing changes when the fund has no row or too little for amount and headroom |
| LedgerService.FundLedgerTable.SoftLock | src/modules/transactions/ledger.service.ts:207-225 | locks the latest row, if there is one |
| LedgerService.FundLedgerTable.ReleaseLock | src/modules/transactions/ledger.service.ts:235-257 | lowers the recorded row, else the latest locked one, clamped at zero; no such row, no change |
| LedgerService.FundLedgerTable.GetBalance | src/modules/transactions/ledger.service.ts:267-304 | returns the six sums and the clamped difference |
| TreasuryControl.ControlHolds | src/modules/payouts/payout.repository.ts:93-135 | in every run each payout past its winning compare-and-set has exactly one owner, whose reading of the row is current, and all row facts agree with the status |
| TreasuryControl.OthersDoNotOwn | src/modules/payouts/approvals/approval.service.ts:383-402 | a process that owns or wins a payout shares it with no other process |
| TreasurySafety.AtMostOnce | src/modules/payouts/approvals/approval.service.ts:383-446 | in every interleaving a payout's transfer is called for at most once and never while it is PENDING, PARTIAL, APPROVED, DECLINED, EXPIRED or CANCELLED; webhooks settle it at most once and only after a call; whoever decided it gives its lock back at most once, never while it is live |
| TreasurySafety.FiredIsNeverKilled | src/modules/payouts/maunal-payout.service.ts:84-106 | once the call was made the payout is TRANSFERRING, TRANSFERRED or FAILED in every continuation |
| TreasurySafety.StatusFollowsTable | src/modules/payouts/payout.repository.ts:201-241 | between any two points of a run, guarded writes or not, a status follows a path of the table without the retry edge, so it is the same or strictly later; terminal statuses and FAILED never change |
| TreasurySafety.RefGate | src/modules/payouts/payout.repository.ts:168-173 | while the transfer reference is not stored no success or failure event touches the payout |
| TreasuryReleases.OnlyReleasesWriteLedger | src/modules/transactions/ledger.service.ts:235-257 | besides inflows, initiations and sweeps only the counted releases and debits write the ledger |
| TreasuryReleases.ReleasedTwiceIffConflict | src/modules/payouts/maunal-payout.service.ts:88-94 | counting every release and debit, a payout's lock is given back at most twice, and at most once if and only if the conflict branch and the killer did not both release; where that branch ran the payout is a direct one, killed and never fired |
| TreasuryReleases.ManualHolds | src/modules/payouts/maunal-payout.service.ts:84-94 | at most one caller a direct payout, which finds its row PENDING, EXPIRED or CANCELLED until it fires |
| TreasuryReleases.CallerOwnsItsPayout | src/modules/payouts/approvals/approval.service.ts:433-476 | after the call returned or threw the row is TRANSFERRING, unsettled and locked, the failure compare-and-set wins, and no action of any actor releases or debits |
| TreasuryReleases.CallerIsOnlyReleaser | src/modules/payouts/maunal-payout.service.ts:96-133 | once the call has thrown, in every continuation each release or debit of the payout is the caller's own, and there is at most one |
| TreasuryReleases.KillerFreeNeverSteals | src/modules/payouts/maunal-payout.service.ts:88-94 | where nobody cancels and no expiry job runs the conflict branch takes no lock |
| TreasurySafety.SettledIsFinal | src/modules/payouts/nomba-transfer.service.ts:289-323 | after the first effective settlement event the status is TRANSFERRED or FAILED for good |
| TreasurySafety.SettledIgnoresEvents | src/modules/payouts/nomba-transfer.service.ts:382-407 | and every later success, failed, refund or reversal event changes nothing |
| TreasuryQuorum.QuorumSafety | src/modules/payouts/approvals/quorum.service.ts:31-71 | a governed payout at or past APPROVED carries the read of the request that won it: the table said it at some point of the run, with at least the policy's minimum, never zero, of distinct signatories approving, none declining, and none of them with the initiator's email |
| TreasuryQuorum.PolicyIsValid | src/db/migrations/004_create_payout_policy.sql:18-19 | in every run the policy in force asks for at least one approver and a positive threshold, whatever was submitted |
| TreasuryQuorum.DefaultUntilSet | src/modules/signatories/signatories.service.ts:149-156 | until a policy is set two approvers are asked for from 10,000,000 kobo up |
| TreasuryQuorum.ReadsHold | src/modules/payouts/approvals/approval.service.ts:336-394 | every policy and tally a request carries, and the tally that won a payout, was read from the tables at some point of the run |
| TreasuryQuorum.QuorumReachedIff | src/modules/payouts/approvals/quorum.service.ts:31-71 | quorum is reached if and only if the required number of different signatories are on record as approving and none as declining |
| TreasuryQuorum.DeclineKillsIffAwaiting | src/modules/payouts/approvals/approval.service.ts:292-310 | a recorded decline takes effect if and only if the payout is still PENDING or PARTIAL at the write; otherwise no row changes |
| TreasuryLateDecline.DeclineCanComeTooLate | src/modules/payouts/approvals/approval.service.ts:284-394 | from every state with a quorum-completing approval and a decline both admitted there is a way on that records the decline and settles the payout |
| TreasuryLateDecline.DeclineTooLate | src/modules/payouts/approvals/quorum.service.ts:11 | a whole run in which a signatory's decline is on record and the payout is TRANSFERRED |
| TreasuryRuns.StepWrites | src/modules/payouts/payout.repository.ts:93-135 | among all process steps only releases and the manual conflict branch write the ledger, and each says exactly what |
| TreasuryRuns.MoneyHolds | src/modules/webhooks/inflow-handler.service.ts:151-202 | in every run, sweeps, unrecorded months and conflicts included, every row's money columns are sums over raw rows |
| TreasuryRuns.LocksHold | src/modules/transactions/ledger.service.ts:186-192 | in runs with every locked month recorded and no stolen lock every row's soft_lock is the sum of the reservations taken on it and not given back |
| TreasuryRuns.CoverHolds | src/modules/payouts/sweep.service.ts:129-161 | with sweeps and payouts without a recorded month in any order every fund's locks cover its reservations |
| TreasuryMoney.LockConservation | src/modules/transactions/ledger.service.ts:243-253 | with every locked month recorded and no stolen lock, each row's soft_lock is the sum of amounts of payouts locked there that are live or whose actor has still to release |
| TreasuryMoney.ClampNeverBites | src/modules/transactions/ledger.service.ts:114-126 | in such runs a pending release and a settling worker always find at least their amount on the locked row |
| TreasuryMoney.ConflictBreaksLocksIffSteals | src/modules/payouts/maunal-payout.service.ts:88-94 | where locks are conserved, the conflict branch keeps them so if and only if its row holds nothing to take |
| TreasuryMoney.LocksConservedIffNoSteals | src/modules/payouts/maunal-payout.service.ts:88-94 | over a whole run with every month recorded the locks are conserved at every point if and only if that branch never takes one |
| TreasuryMoney.UninterruptedNeverSteals | src/modules/payouts/maunal-payout.service.ts:54-90 | runs in which a manual payout's compare-and-set follows its insert directly never take one |
| TreasuryMoney.UnknownPeriodLocksCover | src/modules/transactions/ledger.service.ts:207-253 | with sweeps and payouts from before the month was recorded releasing, on any path, through the latest locked row, a fund's total soft_lock is never below the amounts of its payouts live or owed a release |
| TreasuryMoney.LedgerRefinesRawRows | src/modules/payouts/nomba-transfer.service.ts:304-323 | in every run each row's collected, paid_out, fees and transaction count are the sums over raw rows, a payout counting in the month its debit named, and its givers the number of distinct members |
| TreasuryMoney.MoneyTotals | src/modules/transactions/ledger.service.ts:275-303 | fund totals of collected, paid_out and fees are the sums over raw rows whatever the months |
| TreasuryMonths.LedgerMatchesBackfill | src/db/migrations/029_add_fee_tracking.sql:51-72 | each row matches the backfill queries; for paid_out and fees by month of executed_at, when the clocks agreed at each settlement |
| TreasuryMonths.PaidMatchesIffClocksAgree | src/modules/payouts/nomba-transfer.service.ts:304-318 | paid_out and fees match the queries by executed_at at every point of a run if and only if both clocks read one month at every settlement |
| TreasuryScenarios.MonthEndSplitsPayment | src/modules/payouts/nomba-transfer.service.ts:304-318 | a run whose one settlement reads two months: the ledger files the payment under the first, the query by executed_at under the second |
| TreasuryBooks.GiversAfter | src/db/migrations/030_fix_member_count_paid.sql:14-20 | the first-gift test raises the count exactly when the distinct members of the month grow |
| TreasurySweeps.FundLocksExactIff | src/modules/transactions/ledger.service.ts:243-253 | over every run, sweeps and payouts without a recorded month included, each fund's locks total its reservations at every point if and only if no release fell short and the conflict branch took nothing |
| TreasurySweeps.RecordedNeverShort | src/db/migrations/031_add_locked_period_to_payouts.sql:3-11 | with every lock's month on record no release falls short |
| TreasurySweeps.BalanceRefinesRawRows | src/modules/transactions/ledger.service.ts:288-303 | in such runs getBalance's available amount equals the one recomputed from transactions, TRANSFERRED payouts and the payouts live or owed a release by their statuses |
| TreasuryStranded.SweepStrandsLock | src/modules/payouts/sweep.service.ts:129-161 | a run in which a sweep and a later payout both settle, nothing is promised any more, and the swept amount stays locked |
| TreasuryStranded.OldCancelTakesLaterLock | src/modules/transactions/ledger.service.ts:227-253 | a run in which cancelling a payout with no recorded month frees the lock of a later payout still PENDING and leaves its own behind |
| TreasuryBounds.OverCommitmentBound | src/modules/transactions/ledger.service.ts:169-192 | months recorded or not, inflows less inbound fees cover what was paid out and what live payouts need, and with transfer fees the balance stays at or above fee times (1 + live - peak) |
| TreasuryBounds.LedgerOverCommitmentBound | src/modules/transactions/ledger.service.ts:91-127 | as long as no release falls short the ledger's own columns obey both bounds |
| TreasuryBounds.NextOverdraftIff | src/modules/transactions/ledger.service.ts:169-192 | at any covered point of any run, stolen locks included, some next action breaks the bound if and only if the locks missing from the fund's reservations exceed its transfer fees so far plus the headroom |
| TreasuryBounds.CoveredWhileFewMissing | src/modules/transactions/ledger.service.ts:131-149 | whether or not locks were stolen, a run that never misses more than that ends with the bound intact |
| TreasuryScenarios.StolenLockOverdraws | src/modules/payouts/maunal-payout.service.ts:88-94 | after the race below the balance check grants a further payout, and the fund promises three amounts against an inflow of two and the headroom |
| TreasuryFloor.NeverBelowZeroIff | src/config/env.ts:26-29 | all runs with no stolen lock, fees in bounds and at most n payouts reserved at once keep every balance at or above zero if and only if n is at most one or the headroom is zero |
| TreasuryFloor.FloorIsReached | src/config/env.ts:26-29 | for every n there is a run within the bound's hypotheses, n payouts reserved at its peak and none left, whose fund ends exactly on the floor, n - 1 fees below zero |
| TreasuryScenarios.ConflictReleasesTwice | src/modules/payouts/maunal-payout.service.ts:88-94 | a cancel racing a manual caller: its lock is released twice and an untouched PENDING payout ends with none |
| Statements.InflowMeaning | src/modules/webhooks/inflow-handler.service.ts:151-204 | a payment is taken if and only if it is positive and its reference new in its table; exactly the row of the account's own fund and the payment's month rises, amount, fee and count, the givers by a member's first payment there |
| Statements.CreationMeaning | src/modules/payouts/payout.repository.ts:58-82 | a payout is created if and only if it is positive and the balance covers amount and headroom; it is one new PENDING row with its caller's fund, initiator, amount and deadline, locked on exactly the latest month, which it records |
| Statements.InitiateMeaning | src/modules/payouts/approvals/approval.service.ts:48-72 | initiation routes by threshold, and from it up is admitted if and only if enough different signatories are listed, none with the initiator's email |
| Statements.ScanExpiresIffOverdue | src/jobs/expiry.job.ts:51-99 | an initiated payout left alone is expired and unlocked by a scan if and only if the deadline it was created with is before the scan |
| Statements.SweepMeaning | src/modules/payouts/sweep.service.ts:88-178 | a sweep does nothing on an empty fund, below the minimum or within the headroom; else it moves the balance less the headroom, locked on the latest month if accepted and on none if refused |
| Statements.PresentMeaning | src/modules/payouts/approvals/approval.service.ts:230-276 | a link starts a request if and only if its token is there and unused, the payout exists and the emails differ |
| Statements.DeliverMeaning | src/modules/payouts/nomba-transfer.service.ts:275-300 | a free worker takes up an outcome if and only if its payout is TRANSFERRING with the reference stored |
| Statements.CancelMeaning | src/modules/payouts/payout.service.ts:124-159 | cancelled if and only if PENDING and asked by its initiator; then only that row and lock change |
| PayoutServices.PayoutStore.LockAndCreatePayout | src/modules/payouts/payout.repository.ts:58-82 | lock and PENDING row appear together with the locked month recorded, or neither does |
| PayoutServices.PayoutStore.Transition | src/modules/payouts/payout.repository.ts:93-135 | the row moves and true is returned if and only if its status is still in the expected set |
| PayoutServices.PayoutStore.Release | src/modules/transactions/ledger.service.ts:235-257 | releases against the month recorded on the payout |
| PayoutServices.PayoutStore.Cancel | src/modules/payouts/payout.service.ts:124-159 | only the initiator and only from PENDING; then CANCELLED and released |
| PayoutServices.PayoutStore.FireTransfer | src/modules/payouts/approvals/approval.service.ts:433-476 | one call; TRANSFERRING with its reference, or FAILED and released |
| PayoutServices.PayoutStore.ExecuteManual | src/modules/payouts/maunal-payout.service.ts:29-133 | refused untouched, or created and fired with exactly that outcome |
| PayoutServices.PayoutStore.ProcessSweep | src/modules/payouts/sweep.service.ts:88-178 | skips below the minimum or the fee headroom; else locks all but the headroom without a recorded month, fires, and keeps or gives back the lock |
| PayoutServices.PayoutStore.ExpirePayoutRequests | src/jobs/expiry.job.ts:48-106 | the loop expires and releases the scanned rows in order and counts them |
| PayoutServices.PayoutStore.HandleTransferSuccess | src/modules/payouts/nomba-transfer.service.ts:289-323 | TRANSFERRED and debit together; nothing for an unknown reference or any other status, nor when the debit throws after the row was written |
| PayoutServices.PayoutStore.HandleTransferFailed | src/modules/payouts/nomba-transfer.service.ts:382-407 | FAILED and release under the same guard; a fault between the two statements keeps the lock |
| PayoutServices.PayoutStore.RecordInflow | src/modules/webhooks/inflow-handler.service.ts:151-202 | transaction row and ledger credit together; neither when the reference is taken, the amount not positive, or the credit throws after the insert |
| PayoutServices.RollbackUndoesFirstWrite | src/db/index.ts:64-81 | a second statement that throws leaves the tables changed inside the transaction and as they were after it |
| Tables.Overdue | src/jobs/expiry.job.ts:51-59 | the scan returns exactly the PENDING and PARTIAL rows whose deadline is before its clock, each once |
| ServiceRefinement.JobIsService | src/jobs/expiry.job.ts:64-99 | the expiry process left alone is the method's loop |
| ServiceRefinement.ManualIsService | src/modules/payouts/maunal-payout.service.ts:84-133 | the manual process left alone is ExecuteManual after its insert |
| ServiceRefinement.CancelIsService | src/modules/payouts/payout.service.ts:124-159 | a cancel request left alone is Cancel: refused without a write, or cancelled and released |
| ServiceRefinement.ExpiryMeaning | src/jobs/expiry.job.ts:48-106 | exactly the PENDING and PARTIAL rows whose deadline is before the clock become EXPIRED and released; every other row stands |
| ServiceRefinement.ExpiryKeepsLocks | src/jobs/expiry.job.ts:85-94 | where the expired rows recorded their month the job keeps every row's lock conserved |
| ServiceRefinement.ExpiryKeepsCover | src/jobs/expiry.job.ts:85-94 | whatever months are recorded, after the job the fund's locks still cover its reservations |
| ApprovalService.EligibleMeaning | src/modules/payouts/approvals/quorum.service.ts:79-106 | exactly the signatories that are active, may approve and do not have the initiator's email, each once |
| ApprovalService.ApprovalDesk.Initiate | src/modules/payouts/approvals/approval.service.ts:32-156 | too few eligible signatories or too little balance changes nothing; else the locked payout and one unused token per eligible signatory |
| ApprovalService.IssueMeaning | src/modules/payouts/approvals/token.service.ts:30-53 | issuing adds exactly the listed signatories' tokens, unused, and touches no other |
| ApprovalService.ApprovalDesk.InitiatePayout | src/modules/payouts/payout.service.ts:43-122 | the route by threshold; the early balance check refuses nothing the locked check would accept |
| ApprovalService.ApprovalDesk.ProcessAction | src/modules/payouts/approvals/approval.service.ts:221-487 | refused untouched for a used token, the initiator or a payout past awaiting; else recorded, then declined, PARTIAL, stopped, or won and fired |
| ApprovalService.ProcessMeaning | src/modules/payouts/approvals/approval.service.ts:221-487 | refused unchanged if and only if the token is missing or used, the emails are equal or the payout is neither PENDING nor PARTIAL; otherwise the answer and the row for decline, quorum, first and later approvals |
| ApprovalService.IssuingIsService | src/modules/payouts/approvals/approval.service.ts:97-128 | the issuing process left alone issues every token of the list |
| ApprovalService.RequestIsService | src/modules/payouts/approvals/approval.service.ts:264-487 | an admitted request left alone is ProcessAction |
| ApprovalService.RoundBelowQuorum | src/modules/payouts/approvals/approval.service.ts:345-381 | approvals short of the required number leave the payout PARTIAL and nothing else changed |
| ApprovalService.LastApprovalFires | src/modules/payouts/approvals/approval.service.ts:343-487 | of the required number of distinct approvals the first reports PARTIAL, those between conflict though recorded, and only the last fires, with exactly those approvers in the winning tally |
| Webhooks.WebhookProcessor.LogEvent | src/modules/webhooks/webhook.repository.ts:32-57 | a duplicate if and only if the request id is logged; otherwise one row is added |
| Webhooks.WebhookProcessor.HandleInflow | src/modules/webhooks/inflow-handler.service.ts:53-204 | routes by the shared prefix; a missing or unknown account is dropped, a refused insert throws |
| Webhooks.WebhookProcessor.Route | src/modules/webhooks/webhook.processor.ts:59-85 | each event type reaches its handler and no other |
| Webhooks.WebhookProcessor.Process | src/modules/webhooks/webhook.processor.ts:30-104 | gate, handler and mark for every kind of event and fault, and whether the queue sees a failure |
| Webhooks.MarkMeaning | src/modules/webhooks/webhook.processor.ts:87-104 | which attempts leave a log row, whether it says received, processed or failed, and when the queue sees a failure |
| Webhooks.PaymentMeaning | src/modules/webhooks/inflow-handler.service.ts:53-204 | a first delivery credits the fund and member its reference is registered for, in the server's month, under transaction id or else request id; dropped without an account, failed when not positive or already stored |
| Webhooks.OutcomeMeaning | src/modules/payouts/nomba-transfer.service.ts:289-407 | an outcome touches only a TRANSFERRING payout with its reference stored: success stamps it and adds amount and fee to the server's month, failure, refund and reversal fail it and give the lock back |
| Webhooks.FaultMeaning | src/modules/webhooks/webhook.processor.ts:58-104 | a lookup or second write that fails, fails the job and leaves the tables alone but for a FAILED row that keeps its lock |
| Webhooks.DedupRefinement | src/modules/webhooks/webhook.processor.ts:41-56 | any run of deliveries, with other actors' writes in between, ends as the run of only the first logged delivery of each request id |
| Webhooks.LogIsPermanent | src/modules/webhooks/webhook.repository.ts:32-57 | no later delivery changes a log row, so a failed or unfinished event is never processed |
| Webhooks.JobMeaning | src/queue/webhook.queue.ts:145-151 | a job's effect is that of its first attempt to reach the log, and it fails for good if and only if that attempt threw and none after it reached the log |
| Webhooks.ThrowIsCleanIff | src/db/index.ts:64-81 | a handler that throws, before or between its writes, leaves ledger and transactions untouched, and all tables except when the failed handler stopped between its two statements |
| Webhooks.TxsGrowUniquely | src/db/migrations/008_create_transactions.sql:28 | over any run transactions are only appended and no reference repeats within a table |
| Webhooks.ReplayCreditsNothing | src/scripts/reconcile-replay.ts:199-216 | a replay, however much later and under any request id, of a stored transaction id credits nothing |
| Webhooks.SecondCreditIff | src/modules/webhooks/inflow-handler.service.ts:172 | the same payment delivered again under a new request id is credited if and only if the stored references differ |
| Webhooks.CreditedTwice | src/modules/webhooks/inflow-handler.service.ts:172 | one payment delivered without and then with its transaction id, under two request ids, is stored and credited twice |
| Webhooks.DeliveryIsRun | src/modules/webhooks/webhook.processor.ts:58-85 | every delivery, faulty or not, extends a treasury run by its actions |
| CircuitBreakers.CircuitBreaker.AssertRequestAllowed | src/utils/circuit-breaker.ts:81-102 | admission, the wait of a refusal, and the new state are those of Admit |
| CircuitBreakers.CircuitBreaker.RecordSuccess | src/utils/circuit-breaker.ts:105-124 | the new state is that of OnSuccess |
| CircuitBreakers.CircuitBreaker.RecordFailure | src/utils/circuit-breaker.ts:127-144 | the new state is that of OnFailure |
| CircuitBreakers.NombaClient.OnError | src/config/nomba.ts:121-143 | no response or 5xx counts as failure, any other status as success, a refusal as neither |
| CircuitBreakers.EndingMeaning | src/config/nomba.ts:28-31 | in every run an answer below 500 ends the failure streak or counts towards closing; no answer or one from 500 up adds a failure, opens at the threshold, and reopens a half-open circuit for twice as long |
| CircuitBreakers.RetryAfterIsExact | src/utils/circuit-breaker.ts:81-102 | a refused caller is told to wait exactly until an open circuit admits, or the current cooldown while half-open, and a refusal changes nothing |
| CircuitBreakers.ShippedWaits | src/config/nomba.ts:19-26 | the shipped cooldowns are 30, 60, 120 and 240 seconds, then 5 minutes |
| CircuitBreakers.TracksHistory | src/utils/circuit-breaker.ts:81-154 | in every run each counter of the breaker is fixed by the past events and the phases they led to |
| CircuitBreakers.TripsExactlyAtThreshold | src/utils/circuit-breaker.ts:136-142 | a closed circuit opens on exactly the failure that completes a threshold-long streak since the last success |
| CircuitBreakers.BackoffDoublesToCap | src/utils/circuit-breaker.ts:127-149 | the cooldown is the base doubled once per failed probe phase since the last close, up to the cap, and runs from the trip |
| CircuitBreakers.SilentAfterTrip | src/utils/circuit-breaker.ts:84-92 | no request is admitted between a trip and the end of its cooldown |
| CircuitBreakers.ClosesExactlyAtThreshold | src/utils/circuit-breaker.ts:105-117 | the circuit closes only from half-open, on exactly the success that completes the threshold within one phase; any failure reopens it |
| CircuitBreakers.LateAnswerCanClose | src/utils/circuit-breaker.ts:105-117 | while an earlier request is outstanding a half-open circuit has a continuation that its answer closes |
| CircuitBreakers.OnlyProbesCloseIff | src/utils/circuit-breaker.ts:119-124 | whatever happens in a half-open phase, only its own probes can close it, if and only if no request was outstanding when it began |
| CircuitBreakers.ProbesAreBounded | src/utils/circuit-breaker.ts:97-102 | the in-flight count stays within the limit and the outstanding requests; real probes exceed the limit by fewer than successThreshold |
| CircuitBreakers.ProbeLimitHoldsIff | src/utils/circuit-breaker.ts:97-107 | whatever happens in a half-open phase, its outstanding probes stay within the limit, if and only if no request was outstanding when it began or one success closes the circuit |
| CircuitBreakers.NeverWedges | src/config/nomba.ts:103-143 | with nothing outstanding and the cooldown over, the next request is admitted |
| CircuitBreakers.LateSuccessesClose | src/utils/circuit-breaker.ts:105-117 | under the shipped settings two late answers close the circuit before its only probe returns |
| CircuitBreakers.LateSuccessAdmitsThirdProbe | src/utils/circuit-breaker.ts:105-107 | one late answer lets a third probe out |
| Csv.FieldReads | src/modules/reports/csv.service.ts:212-218 | every cell reads back as its value whatever follows it |
| Csv.QuotedOnlyIfSpecial | src/modules/reports/csv.service.ts:212-218 | a value is printed as it is if and only if it holds no comma, quote, line feed or carriage return |
| Csv.RoundTripIff | src/modules/reports/csv.service.ts:82-95 | the reader recovers exactly the printed cells if and only if the report does not end, after other rows, in a single empty cell |
| Kobo.RoundTrip | src/utils/kobo.ts:30-46 | kobo to naira and back is the identity below 2^51 kobo under correctly rounded doubles |
| Kobo.ReplayKeepsAmount | src/scripts/reconcile-replay.ts:193-209 | a replayed amount reaches the inflow handler's kobo figure unchanged |
| Kobo.NairaIsFaithful | src/modules/reports/csv.service.ts:87 | different amounts have different naira figures, and the two printed decimals are exact |
| Kobo.NegativesAreRefused | src/utils/kobo.ts:30-46 | the utilities refuse exactly the negative amounts, and a missing inflow amount counts as zero |
| Kobo.BoundIsSharp | src/utils/kobo.ts:30-33 | from the error bound alone 2^51 is the limit |

## Left out

- TreasuryMoney.LockConservation: row by row it asks for runs in which every lock's month is on record and none is stolen; LocksConservedIffNoSteals shows the second condition is exact, FundLocksExactIff says fund by fund when releases by guess keep it.
- TreasuryBounds.OverCommitmentBound: asks for runs without a stolen lock (NextOverdraftIff says exactly when one can break it) and for fees within the inflow and the headroom, as the code assumes of the payment provider.
- TreasuryFloor.NeverBelowZeroIff: asks for the same runs.
- ServiceRefinement.ExpiryKeepsLocks: asks that the expired rows recorded their month, without which a release may fall on another row.
- Payouts created before the locked month was recorded start as today's do, with balance check and lock in one step; the code that created them is not part of this model.
- Treasury.Lower: LOWER beyond the letters A to Z.
- Kobo.RoundTrip: amounts from 2^51 kobo (22 trillion naira) up.
- CircuitBreakers.TracksHistory: thresholds and the probe limit of at least one and a base cooldown not above the cap, as configured.
- Sweeps are one atomic step each; their intermediate statuses appear only in ProcessSweep, and races inside a sweep are not modelled.
- Settlement events are handled one at a time, as the worker loop does; two handlers at once, and two simultaneous first gifts by one member, are not modelled.
- That a settlement event ever arrives, and that an event arriving before the transfer reference is stored is seen again: the code does not give either.
- The FAILED to PENDING retry: the table has the edge but no code takes it.
- Clocks: months (the server's and the database's), deadlines, token expiry and the breaker's time are parameters; the breaker theorems take a clock that does not step back.
- Token text, hashing and the phone challenge: a token is the pair of payout and signatory it names, and a failed check is a request that never starts.
- The columns approvals_received, declined_by, transfer_error and the transfer id, which nothing modelled reads.
- Edits of signatories, admin emails and fund settings during a run; one organisation is modelled.
- Unreadable payloads and the provider's wire format; a transfer reference stands for the payout id it is derived from.
- Express routes, notifications, audit rows, caches, the token cache, report queries and the totals row's sums: I/O or easy arithmetic.
- The payout fields held, fires, settled, tally and debitedIn are history the database does not store; they record what the code did to the row.
