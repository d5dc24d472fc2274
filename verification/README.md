# Payment platform and fraud agent: verified model

This project models the parts of the payment platform where money or evidence
can go wrong, and proves what they guarantee. Where a promise does not hold, it
gives a concrete run that breaks it and the exact condition under which it
holds.

* **The double-entry ledger** (`Ledger*`, `Integrity`). `LedgerService` is the
  service with its tables as fields. `LedgerProtocol` runs any number of
  `createTransaction` and `settleTransaction` calls as interleaved statements
  under READ COMMITTED: row locks on debited accounts, the unique key on payment
  intents, the Transaction row a settlement updates, crashes and rollbacks.
* **Payouts** (`Reals`, `Money`, `Payout*`). `PayoutMachine` is one payout under any
  number of workers that read stale rows and may die anywhere, with a record of
  what happened at Stripe and in the ledger. `Payouts` and `PayoutService` are
  the same calls one at a time, for all payouts together with the ledger;
  `PayoutLink` shows that an undisturbed worker and the serial call agree.
* **Disputes, blocked sellers, escrow and the audit** (`Dispute*`, `SellerBlock`,
  `EscrowDraws`, `Reconciliation`).
* **The investigation agent** (`RunKey`, `SingleFlight`, `InvestigationReplies`, `McpServer`,
  `AgentGraph`, `Fences`): the single-flight cache of the MCP server, and the
  graph run against an arbitrary language model.
* **Case retrieval** (`Text`, `NullText`, `Sorting`, `Signals`,
  `CaseStore`, `RunProjection`, `Backfill`) and **the rule engine** (`Rules`).

Calls that update rows or dictionaries are methods of classes, each proved equal
to a function on values; the theorems are about those functions and about state
machines over them. `LedgerOutcomes`, `PayoutOutcomes`, `DisputeOutcomes` and
`InvestigationReplies` say call by call what is answered and left behind, on
rows, balances, flags and replies.

## Where the code differs from what is said about it

* `src/ledger/ledger.service.ts:98-100` says a locked account's balance is fully
  settled. Only debited accounts are locked, so a credit can land between the
  read and the commit (`LedgerCredits.CreditLands`). The committed balance equals
  the balance read exactly when the credits committed since come to zero
  (`LedgerCredits.ReadIsExactIff`); as a lower bound it is enough for solvency
  (`LedgerSafety.NeverOverspent`).
* `settleTransaction` looks at the transaction before it takes a lock. Settling
  calls that do not overlap settle once (`LedgerSettlement.SettledOnce`). Two that
  overlap can both commit exactly when the ledger takes one batch and then the
  other (`LedgerOverlap.DoubleSettlementIff`). A settlement's commit is the atomic
  one exactly when its guard still holds (`LedgerRefinement.SettlementAtomicIff`),
  so the refinement in full needs settlements that do not overlap
  (`LedgerSerialSettlement.LinearizableInFull`).
* `src/payout/payout.service.ts:250` says retries reach the same Stripe transfer.
  The key contains the attempt number, which every claim increments, so a plain
  retry moves the money again (`PayoutSafety.RetryPaysAgain`); the exact
  condition is `PayoutSafety.RetryMovesAgainIff`.
* `src/payout/payout.service.ts:290-292` expects the audit to find every orphaned
  transfer. It finds those of FAILED payouts. A crash between the transfer and
  the write of its id leaves PROCESSING and no id
  (`PayoutSafety.CrashHidesTransfer`) for good (`PayoutSafety.StuckForever`),
  which no query looks at (`Reconciliation.UnbookedFlaggedIff`). A payout paid
  twice is reported by its last transfer alone (`Reconciliation.PaidIsFineIff`).
* `reversePayout` claims nothing, and its Stripe key is the same for every call,
  so m overlapping calls can post the reversal m times and no more
  (`PayoutReversal.ReversalsExact`, `PayoutReversal.DoubleReversal`),
  as does a call that dies after its posting, followed by another
  (`PayoutReversal.CrashedReversalRepeats`); otherwise it is posted once
  (`PayoutReversal.ReversedOnce`).
* `createPayout` refuses a second active payout for a transaction, and the partial
  unique index on PENDING, ELIGIBLE and PROCESSING rows refuses a claim beside
  one. Neither looks for a PAID sibling when a FAILED payout is claimed again: the
  transaction then has two PAID payouts exactly under the conditions of
  `PayoutUniqueness.RevivalBreaksIff`.
* The freeze of a disputed payout holds while nobody calls the gate and no dispute
  attached to the payout is won (`PayoutFreeze.FreezeHolds`), and no longer:
  `markEligible` does not look at disputes (`PayoutFreeze.GateBreaksFreeze`), and
  winning one dispute lifts the freeze of another (`PayoutFreeze.WinBreaksFreeze`).
* The escrow check reserves nothing. Of any number of payouts, some interleaving
  sends money that the ledger then refuses to book exactly when the payouts that
  each fit into the escrow balance add up to more than it
  (`PayoutRace.StrandedIff`).
* Refunding a dispute leaves its PENDING payout as it is, so one transaction can
  refund its buyer and pay its seller (`EscrowDraws.RefundedAndPaidIff`), and two
  disputes of one transaction can both be refunded
  (`EscrowDraws.RefundedTwiceIff`).
* A blocked seller's payouts that are already past the gate can still be paid
  (`SellerBlock.BlockedStillPaidIff`).
* The repository's README holds REVIEW decisions back and puts payout status and
  ledger entries in one database transaction; the code makes REVIEW payouts
  ELIGIBLE and writes the two separately. The model follows the code.
* `platformFeePercent` 0 means 5, and its range is not checked. A fee that is not a
  whole number of cents is refused by the integer column. A payout whose fee lies
  outside 0 and its amount is transferred and then never booked
  (`PayoutBooking.BookedIff`).
* A verdict's recorded reason and the state's differ exactly when reasoning
  failed and the answer then could not be parsed
  (`AgentGraph.PayloadAgreesIff`). A run that concludes on its very last allowed
  iteration is still flagged as exhausted.
* An explicit idempotency key spelled like a trigger joins the keyless runs of
  that trigger (`RunKey.SameRunIff`).
* Ledger transactions made by `createTransaction` keep the default status
  PENDING.

## Assumptions

* A Stripe call that throws moved no money; Stripe answers a known idempotency
  key with the result it already gave, and different transfers have different
  ids, so the unique column of transfer ids never refuses a write. A database
  transaction that throws is rolled back. Metrics and logging never throw.
* Foreign-key share locks do not conflict with the account locks, and ids drawn
  from a sequence are never reused.
* Dispute operations are single steps in `PayoutMachine`. Row order in a table
  is the order of insertion.
* The run key's hash is injective. MCP callers are not cancelled, and the graph
  module can be imported. A parsed verdict follows its schema, so it has no
  degradation keys of its own.
* Text is ASCII.

## Model

| member | source | states |
|---|---|---|
| LedgerService.LedgerService.CheckEntries | src/ledger/ledger.service.ts:38-56 | the two loops reject exactly the batches that are too short, have a negative amount (naming the first) or do not balance |
| LedgerService.LedgerService.CheckBalances | src/ledger/ledger.service.ts:67-120 | the loop over debited accounts in ascending order answers with the first account that is missing or cannot pay, and with none when all can |
| LedgerService.LedgerService.CreateTransaction | src/ledger/ledger.service.ts:33-141 | posts the whole batch under a fresh id or changes no table, as the atomic ledger answers |
| LedgerService.LedgerService.SettleTransaction | src/ledger/ledger.service.ts:143-251 | posts the batch under the given transaction and completes it, or changes nothing, as the atomic ledger answers |
| LedgerService.LedgerService.ReleasePayout | src/ledger/ledger.service.ts:253-279 | checks the split, then moves escrow to seller and fee account in one transaction |
| LedgerService.LedgerService.ReversePayout | src/ledger/ledger.service.ts:334-361 | checks the split, then moves seller and fee account back to escrow in one transaction |
| Ledger.DebitIds | src/ledger/ledger.service.ts:67-73 | the debited accounts, all of them, once each, ascending |
| Ledger.FirstBadFinds | src/common/money.ts:22-28 | the amount check passes exactly when no entry is negative |
| Ledger.FundsPass | src/ledger/ledger.service.ts:75-120 | the loop passes exactly when every single debited account passes |
| Ledger.PostOfAccount | src/ledger/ledger.service.ts:109-113 | posting a batch lowers an account by at most the batch's debits there, so other accounts only gain |
| LedgerOutcomes.ValidateIs | src/ledger/ledger.service.ts:38-56 | a batch passes its checks exactly when it has two entries or more, none negative, and nets to zero; each refusal is given exactly for its cause |
| LedgerOutcomes.RefusalNames | src/ledger/ledger.service.ts:94-119 | a refusal in the funds loop names the lowest account that is missing or cannot pay, with its balance and what is taken from it |
| LedgerOutcomes.CreateOutcome | src/ledger/ledger.service.ts:33-141 | goes through exactly when the batch is well formed, affordable, its intent free and its accounts known; adds one PENDING transaction and exactly the batch's rows |
| LedgerOutcomes.SettleOutcome | src/ledger/ledger.service.ts:143-251 | goes through exactly when in addition the transaction is PENDING without entries; completes it, keeps its intent and adds exactly the batch's rows |
| LedgerOutcomes.TermsAre | src/ledger/ledger.service.ts:261-269 | payout terms are refused exactly for a negative part or parts that do not add up |
| LedgerSafety.NeverOverspent | src/ledger/ledger.service.ts:58-140 | under any interleaving of any number of calls, with crashes, an account that forbids it is never negative |
| LedgerSafety.KeepRead | src/ledger/ledger.service.ts:98-119 | reading a balance under its lock keeps the invariant that balances read so far are lower bounds of the committed ones |
| LedgerSafety.KeepCommit | src/ledger/ledger.service.ts:122-140 | a commit keeps solvency, conservation and every other call's lower bounds |
| LedgerSafety.Conserved | src/ledger/ledger.service.ts:46-56 | in every reachable state each transaction nets to zero and so does the ledger, overlapping settlements included |
| LedgerSafety.OneCommitPerIntent | prisma/schema.prisma:70 | at most one create call per payment intent ever commits |
| LedgerSafety.DuplicateHasWinner | prisma/schema.prisma:70 | a call refused for a duplicate intent lost to a committed transaction with that intent |
| LedgerRefinement.RefusalIsAtomic | src/ledger/ledger.service.ts:94-119 | the statement that throws is an instant at which the atomic ledger refuses the call for the same reason; a settlement past its guard is compared from its locking loop on |
| LedgerRefinement.CommitIsAtomic | src/ledger/ledger.service.ts:122-140 | the tables after a commit are those of the atomic call at that instant, for a settlement from its locking loop on |
| LedgerRefinement.Linearizable | src/ledger/ledger.service.ts:58-140 | every interleaved run, replayed in order of commits and refusals, gives the same answers and the same tables; create calls replay whole, settlements from their locking loop on |
| LedgerSerialSettlement.LinearizableInFull | src/ledger/ledger.service.ts:167-250 | where settlements of one transaction do not overlap and nothing rewrites it meanwhile, settlements replay whole too, guard included |
| LedgerSerialSettlement.KeepGuarded | src/ledger/ledger.service.ts:168-190 | in such runs what a settlement saw before its locks still holds at every later statement |
| LedgerRefinement.SettlementAtomicIff | src/ledger/ledger.service.ts:168-190 | a settlement's commit is the atomic settlement exactly when the transaction is still pending and without entries |
| LedgerProgress.NoDeadlock | src/ledger/ledger.service.ts:59-73 | in every reachable state with an unfinished call some call can take its next statement |
| LedgerProgress.RunsEnd | src/ledger/ledger.service.ts:75-140 | once no new call arrives a run is no longer than the statements left |
| LedgerProgress.CanFinish | src/ledger/ledger.service.ts:59-140 | from every reachable state all calls can be driven to their end without a crash |
| LedgerSettlement.SettledOnce | src/ledger/ledger.service.ts:167-190 | settlement calls of one transaction that do not overlap settle it at most once, whatever else runs |
| LedgerOverlap.DoubleSettlementIff | src/ledger/ledger.service.ts:168-190 | from any sound state at rest, two overlapping settlements of a pending transaction can both commit exactly when the ledger takes one batch and then, on the result, the other |
| LedgerOverlap.DoublePaymentIff | src/webhook/webhook.service.ts:42-78 | two overlapping deliveries of one payment can both be booked exactly when the buyer may go negative or holds twice the amount, and escrow then receives it twice |
| LedgerCredits.ReadIsExactIff | src/ledger/ledger.service.ts:98-107 | while a call is open, the committed balance of an account it has read is the balance read plus the credits committed since, so equal exactly when those come to zero |
| LedgerCredits.CreditLands | src/ledger/ledger.service.ts:98-107 | from any sound state at rest there is a run in which a credit of any size commits between the read and the end of the call |
| LedgerBurst.BurstExact | src/ledger/ledger.service.ts:75-120 | of n concurrent debits of x against balance b exactly min(n, b / x) succeed and the others are refused for lack of funds |
| Integrity.ReachableIsClean | src/ledger/ledger.service.ts:363-398 | the integrity report of every reachable ledger is balanced and lists nothing |
| Integrity.ReportIs | src/ledger/ledger.service.ts:363-398 | for any table: the global sums are those of its entries, the difference is the distance from zero, a transaction is listed exactly when it does not net to zero, a row exactly when its transaction is missing, and balanced means every transaction nets to zero |
| Integrity.PerTxImpliesGlobal | src/ledger/ledger.service.ts:374-398 | when every transaction balances the global difference is zero |
| Integrity.BalancedIffNoUnbalanced | src/ledger/ledger.service.ts:395-398 | for any table at all, the report says balanced exactly when its unbalanced list is empty |
| Integrity.BalancesSumToZero | src/ledger/ledger.service.ts:281-292 | in every reachable state the balances of all accounts sum to zero |
| PayoutMachine.Keep | src/payout/payout.service.ts:220-348 | every step of every worker, the compare-and-set claim on a stale read included, keeps the invariant on holders, postings, transfers and grants |
| PayoutSafety.OneHolder | src/payout/payout.service.ts:232-333 | at most one live worker is between claim and final write, and the row is then PROCESSING |
| PayoutSafety.ReleasedOnce | src/payout/payout.service.ts:298-333 | the release is posted at most once ever, and exactly once for a payout that is or was PAID |
| PayoutSafety.FailureEvidence | src/payout/payout.service.ts:268-333 | a FAILED payout has no transfer id exactly when Stripe never made a transfer for it |
| PayoutSafety.Provenance | src/payout/payout.service.ts:108-217 | a payout past PENDING was let through by the gate on an enabled, unblocked seller and a non-BLOCK decision, or by a dispute attached to it and won |
| PayoutSafety.StatusPath | src/payout/payout-state-machine.ts:4-24 | no step of any worker leaves the transition table, except the dispute freeze; a transfer id never disappears |
| PayoutSafety.Later | src/payout/payout-state-machine.ts:4-11 | PAID leaves only to REVERSED and REVERSED never, over any run |
| PayoutSafety.RetryMovesAgainIff | src/payout/payout.service.ts:249-278 | an accepted attempt on a FAILED payout makes a new transfer exactly when its attempt number was never used |
| PayoutSafety.RetryPaysAgain | src/payout/payout.service.ts:337-348 | without forceRetry, retrying a FAILED payout that carries a transfer id always makes another transfer |
| PayoutSafety.ForceMovesAgainIff | src/payout/payout.service.ts:473-489 | forceRetry reaches the first attempt's transfer if there was one and otherwise moves the money again |
| PayoutSafety.PaidOutOnce | src/payout/payout.service.ts:220-348 | if no claim is made on a row with a transfer id, at most one transfer is ever made |
| PayoutSafety.CrashHidesTransfer | src/payout/payout.service.ts:290-296 | from any payout at rest that may be processed, a crash after the transfer leaves money moved, no id on the row and the status PROCESSING |
| PayoutSafety.StuckForever | src/payout/payout.service.ts:220-247 | a payout at rest in PROCESSING keeps its row over every later run |
| PayoutFreeze.LeavesPendingIff | src/dispute/dispute.service.ts:55-64 | a PENDING payout leaves PENDING exactly by a gate worker's grant or the win of a dispute attached to it |
| PayoutFreeze.DisputeSteps | src/dispute/dispute-state-machine.ts:4-23 | each dispute call moves its own dispute to the state it names and no other, and only opening and winning touch the payout |
| PayoutFreeze.FreezeHolds | src/dispute/dispute.service.ts:55-64 | a payout frozen while no gate worker is live stays PENDING over every run without a gate call and without the win of an attached dispute |
| PayoutFreeze.GateBreaksFreeze | src/payout/payout.service.ts:108-217 | from any state with a PENDING payout and an undecided dispute, one gate call makes it ELIGIBLE |
| PayoutFreeze.WinBreaksFreeze | src/dispute/dispute.service.ts:81-98 | from any such state, winning another attached dispute makes it ELIGIBLE |
| PayoutReversal.ReversedOnce | src/payout/payout.service.ts:394-440 | in runs without overlapping reversals or a crash after the posting, the reversal is posted at most once, and at rest exactly for REVERSED payouts |
| PayoutReversal.ReversalsExact | src/payout/payout.service.ts:394-440 | on a PAID payout with m reversal calls begun and not posted, and no more started, every run posts at most m further reversals and some run posts m |
| PayoutReversal.DoubleReversal | src/payout/payout.service.ts:394-440 | on any PAID payout two overlapping reversal calls post the reversal twice |
| PayoutReversal.CrashedReversalRepeats | src/payout/payout.service.ts:424-440 | on any PAID payout a call that dies after its posting, followed by another, posts it twice |
| PayoutLink.WorkerIsCall | src/payout/payout.service.ts:220-334 | an undisturbed worker given the tables' answers ends with the row, and posts the release, of the serial call |
| PayoutLink.GateIsCall | src/payout/payout.service.ts:108-217 | an undisturbed gate worker leaves the row of the serial call |
| PayoutLink.ReversalIsCall | src/payout/payout.service.ts:394-440 | an undisturbed reversal worker leaves the row, and posts the reversal, of the serial call |
| PayoutRace.StrandedIff | src/payout/payout.service.ts:253-333 | of any number of payouts, some interleaving strands one exactly when those that each fit into the escrow balance add up to more than it |
| PayoutRace.RaceIff | src/payout/payout.service.ts:253-333 | of two payouts each covered by escrow, one can be stranded exactly when escrow does not cover both |
| PayoutRace.NothingStranded | src/payout/payout.service.ts:253-333 | when payouts go one at a time no money leaves that the ledger then refuses, over any run of any number of them |
| Reconciliation.AuditPaid | src/reconciliation/reconciliation.service.ts:177-227 | one line per PAID payout with a transfer, judged against Stripe's answer |
| Reconciliation.AuditListed | src/reconciliation/reconciliation.service.ts:235-262 | one mismatch line per payout found, after the lines already there |
| Reconciliation.ReconcilePayouts | src/reconciliation/reconciliation.service.ts:167-274 | the three loops together, and a summary in which ok, mismatches and errors add up to the total |
| Reconciliation.HitsOfQuery | src/reconciliation/reconciliation.service.ts:168-171 | a query's loop reports a payout once if it meets the where clause, and not at all otherwise |
| Reconciliation.JudgementIs | src/reconciliation/reconciliation.service.ts:178-226 | a PAID payout is an error exactly when Stripe cannot be asked, fine exactly for an unreversed transfer of the same amount, a mismatch otherwise |
| Reconciliation.ReportedIff | src/reconciliation/reconciliation.service.ts:167-262 | on an unchanging table every PAID payout and every FAILED one with an id is reported once, and nobody else |
| Reconciliation.NobodyTwice | src/reconciliation/reconciliation.service.ts:167-262 | no payout is reported twice, although rows may change between the three queries |
| Reconciliation.UnbookedFlaggedIff | src/reconciliation/reconciliation.service.ts:229-246 | a payout at rest whose money moved without a ledger release is flagged exactly when it is FAILED |
| Reconciliation.PaidIsFineIff | src/reconciliation/reconciliation.service.ts:177-216 | a PAID payout is reported fine exactly when Stripe shows the transfer on its row unreversed with its amount, however many transfers were made |
| Reconciliation.PaidTwiceUnseen | src/payout/payout.service.ts:249-313 | every FAILED payout with a transfer id, reached without forceRetry, can be retried into a PAID one with a second transfer under another id |
| Money.SplitIsExact | src/common/utils/money.util.ts:11-27 | fee and seller part add up to the amount, the fee is within half a hundredth of the percentage, and both are non-negative for percentages 0 to 100 |
| Money.FeesAgreeIff | src/common/money.ts:17-19 | the two fee functions agree exactly when the rounded fee is a whole number of cents |
| Money.GuardsPassIff | src/ledger/ledger.service.ts:261-269 | for a stored payout the split guards pass exactly when the rounded fee lies between zero and the amount, as it does for percentages 0 to 100 |
| Payouts.FeeAccountExact | src/ledger/ledger.service.ts:271-278 | after any serial run the fee account holds exactly the fees of the PAID payouts |
| Payouts.ReversalFunded | src/ledger/ledger.service.ts:334-361 | the ledger never refuses to reverse a PAID payout |
| Payouts.ReversalAlwaysPosts | src/payout/payout.service.ts:394-440 | after any serial run, reversing a PAID payout fails only if Stripe refuses |
| Payouts.ReleaseThenReversal | src/ledger/ledger.service.ts:353-360 | a release and its later reversal cancel on every account, whatever was posted in between |
| PayoutOutcomes.CreateOutcome | src/payout/payout.service.ts:26-105 | when createPayout succeeds, and the one row it adds: PENDING, as asked for, with the whole-cent fee nearest the percentage and the rest for the seller |
| PayoutOutcomes.GateOutcome | src/payout/payout.service.ts:108-217 | when the gate lets a payout through and what only changes then; when each refusal is given |
| PayoutOutcomes.ClaimedOutcome | src/payout/payout.service.ts:249-333 | after a claim: when each answer is given, the row it leaves, and that only PAID moves escrow, seller and fee account by the split |
| PayoutOutcomes.UnclaimedOutcome | src/payout/payout.service.ts:220-247 | an attempt that claims nothing changes nothing |
| PayoutOutcomes.ForceOutcome | src/payout/payout.service.ts:473-489 | forceRetry makes the next attempt the first whatever the count was, and pays under the conditions of a first attempt |
| PayoutOutcomes.ReversalOutcome | src/payout/payout.service.ts:394-440 | a PAID payout is REVERSED and its split moved back exactly when Stripe agrees, and nothing changes otherwise |
| SellerBlock.NegativeSellerStopped | src/payout/payout.service.ts:116-134 | once a decision has left a seller negative, no gate call after any later run lets a payout of that seller through, even when the balance has recovered |
| SellerBlock.LeavesPendingIff | src/dispute/dispute.service.ts:85-98 | a PENDING payout of a blocked seller leaves PENDING exactly by a dispute won for it |
| SellerBlock.BlockForever | src/dispute/dispute.service.ts:228-248 | no run of payout, ledger and dispute calls lifts a block |
| SellerBlock.BlockedStillPaidIff | src/payout/payout.service.ts:220-230 | a fundable payout of a blocked seller can still be paid, without a dispute won for it, exactly when it is ELIGIBLE or FAILED |
| SellerBlock.BlockedPaidIff | src/dispute/dispute.service.ts:85-98 | with disputes won it can be paid exactly when it is not REVERSED or PROCESSING |
| PayoutBooking.ReleaseAnswer | src/ledger/ledger.service.ts:253-279 | the ledger takes a release exactly when the split adds up without negative parts, the accounts exist and escrow can pay |
| PayoutBooking.AttemptEndsPaidIff | src/payout/payout.service.ts:220-334 | an attempt ends PAID exactly when the transfer is made and the split can be booked, both known before the call |
| PayoutBooking.BookedIff | src/payout/payout.service.ts:298-333 | after any serial run an attempt whose transfer is made ends PAID exactly when neither part of the split is negative, and otherwise FAILED with the id and nothing booked |
| PayoutUniqueness.KeepOneIndexed | prisma/migrations/20260322211028_update_active_payout_index_for_reversed/migration.sql:5-7 | no call gives a transaction a second PENDING, ELIGIBLE or PROCESSING payout |
| PayoutUniqueness.KeepUnique | src/payout/payout.service.ts:36-55 | every call but the claim of a FAILED payout beside a PAID one keeps at most one payout active per transaction |
| PayoutUniqueness.RevivalBreaksIff | src/payout/payout.service.ts:220-247 | claiming a FAILED payout beside a PAID one leaves two PAID exactly when the seller has a Stripe account, escrow covers the amount, Stripe accepts, the split can be booked and, for a retry, attempts are left |
| PayoutUniqueness.RevivalOccurs | src/payout/payout.service.ts:268-288 | from any new system with escrow for two payouts there is a serial run after which such a claim is possible and leaves two PAID |
| PayoutUniqueness.OnePaidPerTransaction | src/payout/payout.service.ts:36-55 | over serial runs without such a claim a transaction has at most one PAID payout |
| PayoutService.PayoutService.Create | src/payout/payout.service.ts:26-105 | adds a PENDING payout with its split, or leaves everything as it was, with the first failing check as the answer |
| PayoutService.PayoutService.Gate | src/payout/payout.service.ts:108-217 | makes a PENDING payout ELIGIBLE when every check passes, and changes nothing otherwise |
| PayoutService.PayoutService.Process | src/payout/payout.service.ts:220-334 | a claim the index refuses changes nothing; otherwise the writes in order leave the row PAID with the release posted, or FAILED with the transfer id if money moved |
| PayoutService.PayoutService.Retry | src/payout/payout.service.ts:337-348 | processes again below the attempt limit, and changes nothing at it |
| PayoutService.PayoutService.Force | src/payout/payout.service.ts:473-489 | resets the attempts of a FAILED payout, then processes it |
| PayoutService.PayoutService.Reverse | src/payout/payout.service.ts:394-440 | posts the reversal and makes the payout REVERSED, or changes nothing |
| Disputes.DisputePath | src/dispute/dispute-state-machine.ts:4-23 | no call moves a dispute off its table, and nothing but its status ever changes |
| DisputeOutcomes.OpenOutcome | src/dispute/dispute.service.ts:22-67 | the dispute names the first payout that can still be frozen, which is PENDING afterwards, or none when there is none |
| DisputeOutcomes.ReviewOutcome | src/dispute/dispute.service.ts:70-78 | only an OPEN dispute goes under review, and nothing else changes |
| DisputeOutcomes.WinOutcome | src/dispute/dispute.service.ts:81-111 | winning makes the attached payout ELIGIBLE if it is PENDING and touches nothing else |
| DisputeOutcomes.LoseOutcome | src/dispute/dispute.service.ts:114-146 | a PAID payout concerned is REVERSED, its split moved back and its seller blocked exactly when already blocked or now negative; if Stripe refuses nothing changes; if nothing is PAID the dispute is only closed |
| DisputeOutcomes.GiveBackOutcome | src/dispute/dispute.service.ts:149-205 | the same is taken back first; then the buyer of the transaction is up and escrow down by the disputed amount, and only then is the dispute REFUNDED |
| DisputeOutcomes.UnpaidRefundIff | src/dispute/dispute.service.ts:170-194 | with nothing to take back, a refund goes through exactly when the transaction has no buyer or escrow covers the amount |
| Disputes.RefundedOnce | src/dispute/dispute.service.ts:149-205 | over any run the buyer of a dispute is refunded at most once, and then the dispute is REFUNDED |
| Disputes.RefundPosts | src/dispute/dispute.service.ts:173-194 | a refunded dispute posts escrow to buyer once, after the reversal if there is one, and nothing when the buyer is unknown |
| Disputes.RefundOfPaidIff | src/dispute/dispute.service.ts:153-205 | deciding for the buyer of a PAID payout succeeds exactly when Stripe takes the transfer back and escrow with the payout returned covers the amount, as it does up to the payout's amount |
| Disputes.FeesExactWithDisputes | src/dispute/dispute.service.ts:114-205 | with disputes opened, won, lost and refunded in any order, the fee account still holds exactly the fees of the PAID payouts |
| EscrowDraws.EscrowExact | src/dispute/dispute.service.ts:114-205 | after any run escrow holds what was moved into it by payments, less refunds, less the amounts of the payouts that are PAID; nothing nets a refund against a payout of the same transaction |
| EscrowDraws.RefundedAndPaidIff | src/dispute/dispute.service.ts:164-205 | after a refund the PENDING payout of its dispute is paid by one gate call and one attempt exactly when the gate passes and escrow, less the refund, covers it |
| EscrowDraws.RefundedTwiceIff | src/dispute/dispute.service.ts:149-205 | two disputes of one transaction without a payout to take back are both refunded exactly when escrow covers the two amounts together |
| DisputeService.DisputeService.Find | src/dispute/dispute.service.ts:39-41 | the first payout of the transaction in a wanted status, and none only if there is none |
| DisputeService.DisputeService.OpenDispute | src/dispute/dispute.service.ts:22-67 | records the dispute with the payout it found, and freezes that payout if it was ELIGIBLE |
| DisputeService.DisputeService.StartReview | src/dispute/dispute.service.ts:70-78 | OPEN becomes UNDER_REVIEW, anything else is refused |
| DisputeService.DisputeService.ResolveWon | src/dispute/dispute.service.ts:81-111 | the attached payout becomes ELIGIBLE if it is PENDING |
| DisputeService.DisputeService.TakeBack | src/dispute/dispute.service.ts:118-132 | reverses the attached or else a PAID payout of the transaction when it is PAID, then blocks a negative seller |
| DisputeService.DisputeService.ResolveLost | src/dispute/dispute.service.ts:114-146 | the dispute is LOST only if the reversal went through |
| DisputeService.DisputeService.ResolveRefunded | src/dispute/dispute.service.ts:149-205 | reversal, then refund, then REFUNDED; a failure keeps what was done before it |
| DisputeService.DisputeService.UpdateSellerNegativeBalance | src/dispute/dispute.service.ts:228-248 | blocks the seller exactly when the ledger balance is negative |
| RunKey.SameRunIff | fraud-engine/agent/mcp_server.py:66-81 | two requests share a run exactly when they name the same transaction and the same key, or trigger where there is no key |
| RunKey.SameRunCases | fraud-engine/agent/mcp_server.py:76-80 | keyless requests share a run for the same trigger, keyed ones for the same key, and a keyed one joins a keyless one when its key spells the trigger |
| SingleFlight.OneInvestigation | fraud-engine/agent/mcp_server.py:201-215 | per run key at most one investigation is running, at most one ever succeeds, and none runs after a success |
| SingleFlight.RepliesAgree | fraud-engine/agent/mcp_server.py:195-215 | all ok replies for a key agree but for the replayed flag, and at most one is not a replay |
| SingleFlight.ReplyIsForCaller | fraud-engine/agent/mcp_server.py:176-215 | every reply, joined or cached, is about the transaction its caller asked for |
| SingleFlight.AuditResolves | fraud-engine/agent/mcp_server.py:154-172 | the audit_uri of an ok reply resolves to the trail of the one run that produced it |
| InvestigationReplies.RepliesReport | fraud-engine/agent/mcp_server.py:118-172 | every reply reports the outcome of an investigation of its key that ended in the run: verdict, iterations and run id as concluded, or the error's message, retryable for transport errors and missing verdicts only |
| InvestigationReplies.AuditIsRecorded | fraud-engine/agent/mcp_server.py:154-172 | for an ok reply the trail behind its audit_uri is the one that investigation recorded |
| InvestigationReplies.AuditUriNames | fraud-engine/agent/mcp_server.py:167 | the audit_uri contains the run key, and different keys have different ones |
| SingleFlight.StartsIff | fraud-engine/agent/mcp_server.py:197-211 | a call starts an investigation exactly when none of its key succeeded and none is running or waiting for its owner |
| SingleFlight.FailureFreesKey | fraud-engine/agent/mcp_server.py:169-172 | after a failed run's owner is answered, the next call with that key starts a new one |
| McpServer.McpServer.Investigate | fraud-engine/agent/mcp_server.py:195-211 | the stretch up to the first await: a cached reply, a join, or one new task |
| McpServer.McpServer.RunInvestigation | fraud-engine/agent/mcp_server.py:118-172 | a finished run stores trail and result on success and neither on failure |
| McpServer.McpServer.WakeUp | fraud-engine/agent/mcp_server.py:206-215 | the owner's wake-up removes the in-flight entry, a joiner's marks the reply replayed |
| McpServer.McpServer.InvestigationAudit | fraud-engine/agent/mcp_server.py:219-244 | the stored trail, or a miss |
| AgentGraph.BoundedRun | fraud-engine/agent/graph.py:31-97 | at most as many reasoning steps as the cap, at most twice the cap plus three nodes, synthesis and audit once each, last |
| AgentGraph.WholeRun | fraud-engine/agent/graph.py:64-97 | every run is start, collect, the reason and tools loop, synthesize, audit, and the loop's length is read off the model's answers |
| AgentGraph.DegradedIff | fraud-engine/agent/nodes.py:385-404 | a run ends degraded exactly when the last reasoning call raised, synthesis raised, its output was unparseable or the cap was reached; the reason follows that priority; a verdict always exists |
| AgentGraph.ReasonIs | fraud-engine/agent/nodes.py:278-404 | each recorded reason is given exactly for its cause, earlier causes first |
| AgentGraph.VerdictIs | fraud-engine/agent/nodes.py:96-120 | a parsed verdict keeps its finding, confidence and risk level; otherwise the verdict is the manual-review one |
| AgentGraph.PayloadAgreesIff | fraud-engine/agent/nodes.py:400-404 | verdict and state record the same reason except exactly when reasoning failed and the output was unparseable |
| AgentGraph.TrailExact | fraud-engine/agent/nodes.py:123-457 | the trail is started, collected, one entry per iteration, the synthesis error if any, the verdict, and a closing entry with the true counts |
| AgentGraph.TrailByPosition | fraud-engine/agent/nodes.py:256-303 | entry i after the first two says what reasoning call i did |
| AgentGraph.TrailEnds | fraud-engine/agent/nodes.py:332-457 | the trail ends with the synthesis error if any, the verdict as recorded, and the true counts |
| AgentGraph.RunOnlyExtends | fraud-engine/agent/nodes.py:256-421 | from any node after the first to the end the trail only grows and the degraded flag is never cleared |
| Fences.FencesDoNotMatter | fraud-engine/agent/nodes.py:361-368 | an answer in markdown fences, with any info string, is handed to the parser as the bare answer is |
| Fences.LoneFence | fraud-engine/agent/nodes.py:364-365 | without a newline only the opening fence itself is dropped |
| Fences.EmptyFenced | fraud-engine/agent/nodes.py:364-368 | fences around nothing leave nothing to parse |
| Fences.FencesSameInvestigation | fraud-engine/agent/nodes.py:361-421 | so fenced and bare answers give the same run, trail and verdict |
| Text.NormIdempotent | fraud-engine/agent/rag/embeddings.py:52 | trimming and lower-casing twice is doing it once |
| Text.LessIs | fraud-engine/agent/rag/embeddings.py:57 | the order of strings: a proper prefix first, otherwise the first difference decides |
| Signals.NormalizeSignals | fraud-engine/agent/rag/embeddings.py:42-58 | the seen/out loop and the sort yield the canonical list of the input |
| Signals.NormalizedHolds | fraud-engine/agent/rag/embeddings.py:42-58 | that list is strictly ascending and holds exactly the non-empty normal forms of the input |
| Signals.NormalizedIff | fraud-engine/agent/rag/embeddings.py:42-58 | two inputs have one canonical list exactly when they contribute the same normal forms, in whatever order |
| Signals.NormalizedIdempotent | fraud-engine/agent/rag/embeddings.py:43 | normalizing a canonical list gives it back |
| CaseStore.BuildQuerySignals | fraud-engine/agent/rag/store.py:46-66 | the loop collects decision, risk bucket and one signal per non-blank finding |
| CaseStore.QuerySignalsAre | fraud-engine/agent/rag/store.py:46-66 | a signal is the query's exactly when it is its decision in upper case, its bucket, or what one of its findings stands for |
| CaseStore.BucketsAre | fraud-engine/agent/rag/store.py:34-43 | which scores fall into which bucket |
| CaseStore.SimilarityIs | fraud-engine/agent/rag/store.py:113-119 | the similarity is the shared signals over all signals of the two, in ten-thousandths, to the nearest with ties to even |
| CaseStore.HitIs | fraud-engine/agent/rag/store.py:120-128 | a hit carries its case, that similarity and the shared signals in ascending order |
| CaseStore.RankIs | fraud-engine/agent/rag/store.py:129 | more similar ranks first, then the smaller case id |
| CaseStore.SimilarityInUnit | fraud-engine/agent/rag/store.py:118-119 | the rounded overlap lies between 0 and 1, and is 1 for equal signal sets |
| CaseStore.RoundBounds | fraud-engine/agent/rag/store.py:119 | rounding moves a ratio by at most half a unit and not past a whole number |
| CaseStore.Search | fraud-engine/agent/rag/store.py:105-131 | the loop, the sort and the cut give the first hits of the ranked corpus |
| CaseStore.TopK | fraud-engine/agent/rag/store.py:111-131 | the answer holds matching cases only, in rank order, and an omitted match means the limit is used up by cases that rank no lower |
| CaseStore.CorpusOrderIrrelevant | fraud-engine/agent/rag/store.py:129 | with distinct case ids the answer does not depend on the order of the corpus |
| CaseStore.FindSimilarCases | fraud-engine/agent/tools/similar_cases.py:28-37 | never more than five cases, and for smaller limits the same answer as the search |
| NullText.NullsDoNotMatter | fraud-engine/agent/rag/indexer.py:42-55 | a keyword that null text cannot spell is found in a text with "none" for some parts exactly when it is found with those parts empty |
| RunProjection.IndexerSignals | fraud-engine/agent/rag/indexer.py:34-89 | the indexer raises exactly on malformed JSON or a null list; otherwise its list is ascending and holds exactly the run's signals, nulls read as "None" |
| RunProjection.BackfillSignals | fraud-engine/scripts/backfill_embeddings.py:86-137 | the backfill never raises; its list is the canonical form of the run's signals, nulls and malformed columns read as empty |
| RunProjection.RunSignalsAre | fraud-engine/agent/rag/indexer.py:58-89 | a signal is a run's exactly when one of its calls yields it, it names the risk level, or its keyword occurs in the folded parts |
| RunProjection.PartsAre | fraud-engine/agent/rag/indexer.py:42-55 | the searched parts are the summary, findings, recommended actions and three texts of every piece of evidence, all and no others |
| RunProjection.RiskLevelIs | fraud-engine/agent/rag/indexer.py:83-84 | the run's own level in upper case, else the payload's, else MEDIUM |
| RunProjection.ProjectionsAgree | fraud-engine/scripts/backfill_embeddings.py:97-137 | where the indexer does not raise, normalizing its signals gives the backfill's, null fields included |
| RunProjection.KeywordsAreNullProof | fraud-engine/agent/rag/indexer.py:20-31 | every keyword of the repository is one that null text cannot spell |
| Backfill.CaseTable.Candidates | fraud-engine/scripts/backfill_embeddings.py:215-236 | the rows the table does not have yet, in order |
| Backfill.CaseTable.InsertBatch | fraud-engine/scripts/backfill_embeddings.py:270-297 | a batch goes in whole, or not at all exactly when a case id in it is taken or repeated |
| Backfill.CaseTable.Run | fraud-engine/scripts/backfill_embeddings.py:204-321 | however a run ends, a prefix of the candidates is in, each once; the report counts them by source and its total is the table's size |
| Backfill.CompletesIff | fraud-engine/scripts/backfill_embeddings.py:238-321 | an undisturbed run completes exactly when no two candidates share a case id |
| Backfill.ResumesExactly | fraud-engine/scripts/backfill_embeddings.py:204-321 | stopped and restarted any number of times with any batch sizes, the runs insert each candidate once in order and end in the table of one run; a further run inserts nothing |
| Rules.FirstIsBest | fraud-engine/app/rules/engine.py:9-85 | with tiers listed strictest first the first match scores the maximum of all tiers that apply |
| Rules.CheckMonotone | fraud-engine/app/rules/engine.py:9-85 | a severer value never scores less or stops triggering |
| Rules.RiskMonotone | fraud-engine/app/rules/engine.py:98-104 | for any such configuration the score is in [0, 1], and score and decision never fall when counts, amount or volume grow or the account gets younger |
| Rules.ScoreIs | fraud-engine/app/rules/engine.py:98-104 | the score is the smaller of 1 and the six shares, each a weight times the best score of a tier reached by the rule's own value |
| Rules.RoundsToNearest | fraud-engine/app/main.py:104-105 | rounding to hundredths moves by at most a half, ties to even |
| Rules.DecisionIs | fraud-engine/app/main.py:66-72 | BLOCK, REVIEW and ALLOW are given exactly for their ranges of the rounded score |
| Rules.TriggeredAre | fraud-engine/app/main.py:107 | the rules listed as triggered are those with a tier reached by their own value |
| Rules.DominantIsBest | fraud-engine/app/main.py:84 | the dominant rule exists exactly when one triggered, is one of the triggered ones, none of them scores higher and none before it as high |
| Rules.ExplanationFailsIff | fraud-engine/app/main.py:66-97 | explaining fails exactly when no rule triggered and a decision boundary is not positive |

## Left out

- The legacy queue path (src/queue): hard-coded accounts and no link to payout rows.
- Controllers, guards, modules, clients, metrics, logging, telemetry and configuration loading: wiring.
- LLM providers, prompts, tools, message contents and LangGraph internals; the model and its tools are arbitrary.
- Embedding vectors, pgvector and the text that is embedded; the machine-learning features; the eval runner and its fixtures.
- The shortening of error messages and previews in replies and trails.
- Wall-clock time; the window counts of the fraud request; the fraud engine's answer is an argument of the gate.
- Payment creation and its cache, seller onboarding, listings and admin aggregates: they would only add easy members.
- withRetry and the webhook handlers: the retry loop is simple, and the webhook's own status check adds nothing that settlement does not check again.
- reconcileTransaction appears only as a step that overwrites a transaction's status, so no claim is made that a completed transaction has entries.
- Integrity.ReachableIsClean: the sums are unbounded integers, so the overflow of the `::integer` casts is not modelled.
- Money.SplitIsExact: exact arithmetic on reals; the floating-point product and toFixed are not modelled.
- CaseStore.SimilarityInUnit: the ratio is exact and rounds half to even; Python rounds the nearest double, which can differ on a tie that is not representable.
- Rules.RiskMonotone: real arithmetic; floating-point summation order is not modelled.
- CaseStore.TopK: cases are records with all fields present; an index file with malformed cases is not modelled.
- RunProjection.ProjectionsAgree: text fields and list entries are strings, null or missing; other JSON types in their place are not modelled.
- Backfill.CaseTable.Run: one run at a time; two concurrent backfills are not modelled.
- PayoutService.PayoutService.Process: one call at a time; crashes and stale reads are the subject of PayoutMachine.
- PayoutSafety.Provenance: the gate's facts are those its worker read; they may have changed by the time it writes.
- PayoutRace.StrandedIff: all payouts draw on one escrow account and nothing else moves it meanwhile.
- PayoutFreeze.FreezeHolds: dispute operations are single steps.
- The demo payouts that the admin service writes directly.
- SingleFlight.FailureFreesKey: holds once the owner of the failed run has been answered; until then later callers join the failure, as in the code.
- Disputes.RefundedOnce: calls do not overlap; two overlapping resolutions of one dispute are not modelled.
