# Verified model of a ride-sharing backend's money path

A Dafny model of the services that move a booking's money in a ride-sharing backend, with four smaller state machines
of the same system beside it.

* **Money path.** Payments, bookings, disputes, Connect accounts, the append-only ledger, the event outbox, payout
  batches and what Stripe was asked are the fields of one store (`MoneyService.MoneyStore`). Every service function is
  a method that updates the store step by step, and its `ensures` equates the new tables with a function of the old
  ones. Those functions (`payments.dfy`, `payouts.dfy`, `settlement.dfy`) are what the theorems speak about.
  `money_runs.dfy` lets calls, webhooks, outbox batches, eligibility checks, payouts that fail at any write, settlements
  of payments in any status, and arbitrary outside changes to bookings and disputes follow one another in any order.
  `money_theorems.dfy`, `progress.dfy`, `solvency.dfy`, `balance_laws.dfy`, `dispute_laws.dfy` and `lifecycle.dfy` state
  what holds after every such run. Where a promise does not survive every run, a named hazard in `money_runs.dfy` says
  which steps break it, and the theorem says that it holds exactly when, or as long as, the run meets no such step.
* **Expiry race.** The delayed job and the sweeper that expire an unpaid booking, over every interleaving of their
  reads, claims and follow-ups with each other and with other writers.
* **Driving-licence verification.** Veriff's webhook and an admin's reviews write one table and one flag.
* **Pricing.** Rounding, the price band, segment prices, stored configs, and the fee lookups.
* **Chat paging.** Cursor pagination over a conversation's messages.

Money is in whole cents; distances, rates, percentages and seat prices are reals. Clocks, Stripe's answers, the point
at which the database gives out, and the order in which an unordered query returns its rows are parameters or are left
open. `dafny verify dfyconfig.toml` checks everything.

## Where the code differs from what it says

Each of these has its condition as a lemma over all inputs. `failures.dfy` and `ChatPaging.TieLosesAMessage` show
concrete inputs for most of them.

* The catch block of a payout says it reopens liabilities that `recordTransfer` already discharged, but it reverses
  every payment of the batch. A refusal by Stripe comes before any debit, so it raises the driver's balance by the whole
  batch. `PayoutLaws.CompensationIsExactIff` says when the balance is restored.
* A payout that fails after Stripe accepted the transfer sets its batch to FAILED although the money left. A payment
  whose first mark had not run stays selectable, and the retry sends it a second time
  (`PayoutLaws.RetrySendsTwiceIff`). It also stays refundable, and a refund then lets its fare leave a second time.
* `settleDispute` never looks at the payment status. A settlement can make a paid-out payment payable again, so that the
  next payout pays it a second time (`SettlementLaws.SettlementReopensIff`, `ReopenedPaymentIsPaidTwice`). It can also
  refund a payment that was already paid out, without reopening it (`SettlementLaws.SettlementOverspendsIff`). And it
  can settle a charge that was never received, which then has no receipt in the ledger
  (`MoneyTheorems.ReceiptExactlyOnce`).
* So a retried payout, a reopened payment, and a refund of a payment that already went out each let more than its fare
  leave the platform. `Solvency.RunsAreSolventIff` says exactly which runs do, counting the refunds on the payment's row
  and the transfers Stripe accepted, whether or not their batch completed.
* Repeating a partial refund counts its shares twice (`RefundLaws.ReplayIsHarmlessIff`). So does the ordinary webhook
  with which Stripe reports the refund that a split has just sent: the driver is then paid the announced amount less the
  refund's fare share (`SettlementRuns.OwnWebhookKeepsPromiseIff`, `PayoutAfterOwnWebhook`).
* A refund that Stripe refuses, of a refund or a split of any charge, leaves its amount on the booking, which later
  settlements read as an earlier refund: it is never sent again, and retrying the resolution closes the dispute as
  settled (`SettlementLaws.RefusedRefundIsNeverResent`).
* A second settlement announces a payout from which a refund is deducted that is never made
  (`SettlementLaws.AnnouncedPayoutIsOwedIff`), and can end the payment as refunded with fare still on its row
  (`SettlementLaws.EndsWithFareLeftIff`).
* Messages that share a timestamp are lost when a page ends between them (`ChatPaging.PagingIsCompleteIff`).
* A negative amount passed to `markRefunded` would leave an unbalanced ledger group
  (`RefundLaws.RefundGroupBalancesIff`); no caller passes one.

## Model

| member | source | states |
|---|---|---|
| MoneyTheorems.RowsMatchLedger | src/modules/payments/payment.service.ts:57-266 | After every run, the row's net fare and net platform fee are the ledger's figures for it clamped at zero, although rows clamp refunds and the ledger does not, exactly when the ledger has its receipt or nothing is left on the row; so for every received payment that no settlement wrote before its receipt |
| MoneyTheorems.ReceiptExactlyOnce | src/modules/payments/payment.service.ts:105-160 | After every run the ledger holds at most one receipt for a payment, and one exactly when its status says it was received, unless and only unless a settlement wrote its status before the receipt |
| MoneyTheorems.DoubleEntry | src/modules/ledger/ledger.service.ts:43-292 | After every run, with settlements of payments in any status and payouts that fail at any write, debits less credits equal transfers less reversals, for each payment and each entry group |
| MoneyTheorems.BalancesAgree | src/modules/ledger/ledger.service.ts:302-359 | After every such run, for every driver, the balance is the earnings summary's pending balance plus the reopened liabilities |
| BalanceLaws.BalanceIsStillToPay | src/modules/ledger/ledger.service.ts:302-321 | After every run in which calls and bookings agree on who drives what, a driver's balance is the fares received and not paid out of exactly their payments, plus the liabilities that refused payouts reopened, less what was refunded beyond a fare; no settlement before the receipt or after the payout, and no payout that breaks off |
| BalanceLaws.ReceiptRaisesBalance | src/modules/payments/payment.service.ts:114-160 | Receiving a payment raises the balance of its driver by its fare, once, and nobody else's |
| BalanceLaws.RefundLowersBalance | src/modules/payments/payment.service.ts:210-266 | A refund lowers the balance of its driver by the fare's share of it, and nobody else's |
| BalanceLaws.SettlementLowersBalance | src/modules/dispute/dispute-settlement.service.ts:147-168 | So does a settlement exactly when its refund goes through, for the booking's driver alone |
| BalanceLaws.PayoutLowersBalance | src/modules/ledger/ledger.service.ts:175-207 | A successful payout lowers the balance of its driver by the net fares of its rows, and nobody else's |
| Lifecycle.PaidRideIsPaidOut | src/modules/payout/payout.service.ts:23-235 | End to end: charged, received, completed and undisputed past the delay, a payment is made payable by the next check and completed by the driver's next accepted payout, which sends exactly the price less the fee once; with no other row in the batch the driver's balance is back where it was |
| Lifecycle.MarkedIff | src/modules/payments/payment.service.ts:26-44 | A guarded call goes through exactly from the sources of its target, given target by target, and then writes its own row alone, dating what it makes payable |
| Lifecycle.DeliveryOutcome | src/modules/payments/payment-outbox.worker.ts:13-87 | What each event does: a received payment enters escrow, a completed booking makes its payment payable from the three statuses that allow it, anything else throws and waits, and an event nobody handles fails at once |
| Lifecycle.EligibleAfterTheDelayIff | src/modules/payout/payout.service.ts:23-45 | The check makes a payment payable exactly when it is in escrow, its ride was completed longer ago than the delay, and no dispute of it is undecided |
| Lifecycle.PayablePaymentsAreDated | src/modules/payments/payment.service.ts:171-266 | After every run a payable payment carries the time of the step that made it payable, whichever step that was |
| Lifecycle.FailedChargeStaysFailed | src/modules/payments/payment.service.ts:278-289 | A charge that fails is never received or escrowed, and no run moves it on unless a settlement writes it |
| DisputeLaws.NothingIsSentUnderDispute | src/modules/payout/payout.service.ts:62-76 | As long as a dispute of a booking is undecided no run sends any of its fare to a driver |
| DisputeLaws.DisputesHoldPaymentsIff | src/modules/dispute/dispute-settlement.service.ts:33-49 | The payout query and the eligibility check pass a payment over exactly when some dispute of its booking is neither resolved by an admin nor auto-resolved, everything else being in place |
| DisputeLaws.SettlementClosesIff | src/modules/dispute/dispute-settlement.service.ts:27-93 | A settlement is taken exactly for a dispute no admin has resolved, writes the status its resolution names on it alone, and nothing when it throws; escalation leaves it settleable and holding its booking, any other resolution neither |
| DisputeLaws.EscalationHolds | src/modules/dispute/dispute-settlement.service.ts:92-93 | Escalating changes nothing but the dispute: it stays settleable, and no driver and no check selects its booking |
| DisputeLaws.DecisionsAreFinal | src/modules/dispute/dispute-settlement.service.ts:74-75 | Over any sequence of settlements an admin's resolution is never changed |
| Solvency.RunsAreSolventIff | src/modules/payout/payout.service.ts:62-235 | After every run, payouts that break off at any write included, the refunded fare of a payment plus what Stripe accepted of it in transfers fit its fare exactly when no step took or sent fare of it after Stripe had sent it: no refund of fare by call, webhook or settlement, and no second transfer |
| Solvency.StepIsSolventIff | src/modules/dispute/dispute-settlement.service.ts:94-210 | The same for one step from any sound state: it makes a payment insolvent exactly when Stripe had sent the payment before, fare of it is left unrefunded, and the step's own guards let a refund of fare or another accepted transfer of it through |
| Solvency.PayoutsAreSolvent | src/modules/payout/payout.service.ts:62-235 | As long as no settlement writes a payment after it was paid out and no payout of it breaks off between Stripe's answer and its last write, it is in one completed batch when completed and in none before, the ledger has debited exactly what that batch holds, Stripe sent it at most once and no more than that, and refund plus payout fit the fare |
| Solvency.RefundAndPayoutFitTheFare | src/modules/payments/payment.service.ts:241-252 | Where no settlement writes a payment and no payout of it breaks off, its stored refunded fare itself, unclamped, never exceeds the fare together with what its completed batch holds, nor together with what Stripe sent |
| MoneyTheorems.EscrowAtMostOnce | src/modules/payments/payment-outbox.worker.ts:13-17 | However many `payment.paid` events are queued for a payment, at most one is ever processed, and then the payment has left PAID |
| Progress.PaymentsOnlyProgress | src/modules/payments/payment.service.ts:26-44 | Along every run the gross charge never changes and what went back never shrinks; unless a settlement takes the payment back after it finished, its rank never falls and a finished payment keeps its status |
| Progress.StepIsLaterIff | src/modules/dispute/dispute-settlement.service.ts:92-210 | One step lowers a payment's rank, or changes a finished status, exactly when it is a settlement that writes another status on a finished payment |
| Progress.StepMovesRow | src/modules/payments/payment.service.ts:57-285 | What any step does to any payment row: the charge stands, refunds only grow, the net fare falls exactly when a refund of fare goes through, and only payouts and settlements move it out of the guarded machine |
| MoneyTheorems.RunKeepsSound | src/modules/payments/payment.service.ts:71-276 | The agreement of rows, ledger, payout batches and outbox survives every run from any state that has it; a payment ends past its receipt without one exactly when it was so before or a settlement wrote it too early |
| MoneyTheorems.StepKeepsSound | src/modules/payout/payout.service.ts:23-235 | Every single step, with no condition on statuses, keeps that agreement |
| MoneyRuns.RefundAgrees | src/modules/payments/payment.service.ts:222-252 | Adding a refund to the clamping row and to the unclamped ledger columns keeps their clamped figures equal |
| MoneyRuns.RefundKeeps | src/modules/payments/payment.service.ts:210-266 | A refund of any amount that is not negative keeps every payment in agreement with its books |
| MoneyRuns.PayoutKeeps | src/modules/payout/payout.service.ts:62-235 | A payout keeps every payment in agreement with its books, whether it succeeds, is refused, or stops after any write |
| MoneyRuns.SettleKeeps | src/modules/dispute/dispute-settlement.service.ts:94-210 | A settlement of a payment in any status keeps every payment in agreement with its books, and leaves one without a receipt exactly when it writes it before the receipt |
| MoneyRuns.DeliverKeeps | src/modules/payments/payment-outbox.worker.ts:47-87 | Delivering one event keeps every payment in agreement with its processed events |
| Payments.SelectDue | src/modules/payments/payment-outbox.worker.ts:32-42 | The selected events are due, oldest first, at most the batch size, and all of them when fewer |
| Payouts.SuccessfulPayout | src/modules/payout/payout.service.ts:122-201 | The effect of a successful payout, row by row: exactly the selected payments become completed, with one debit each and one completed batch |
| Payouts.PayoutLedger | src/modules/payout/payout.service.ts:159-234 | However an attempt goes, the ledger gains one debit a payment for the writes that ran, then the reversals of the catch block if it threw, and nothing else |
| Payouts.PayoutClears | src/modules/payout/payout.service.ts:63-76 | A successful payout leaves its driver nothing to select and gives no other driver anything new |
| PayoutLaws.SuccessMovesOneAmount | src/modules/payout/payout.service.ts:85-201 | In a success the batch total, the sum of its items, the minor amount asked of Stripe and the fall in the driver's balance are one number |
| PayoutLaws.AcceptedTransferIsItsItems | src/modules/payout/payout.service.ts:85-166 | However an accepted payout ends, Stripe was sent one transfer, for the new batch and its driver, of exactly the sum of that batch's items |
| PayoutLaws.MoneyGoesOutIff | src/modules/payout/payout.service.ts:77-166 | Stripe is sent money exactly in a live payout with rows to a driver whose account is onboarded, when it accepts; without rows or account nothing changes |
| PayoutLaws.BatchAccountsForItsRows | src/modules/payout/payout.service.ts:122-234 | For each row of a batch, what goes to the driver, what the platform keeps and what was refunded add up to the charge; batch and items end completed together or failed together |
| PayoutLaws.FailedPayoutShiftsBalance | src/modules/payout/payout.service.ts:159-234 | Whenever the body throws, the driver's balance rises by the net fares not debited yet, less those whose reversal was itself lost |
| PayoutLaws.CompensationIsExactIff | src/modules/payout/payout.service.ts:202-234 | With every reversal written, the balance is restored exactly when no fare was still undebited; a refusal by Stripe raises it by the whole batch |
| PayoutLaws.FailedPayoutStatuses | src/modules/payout/payout.service.ts:168-197 | The status a failed payout leaves on each payment, by the write at which it stopped |
| PayoutLaws.SelectableAgainIff | src/modules/payout/payout.service.ts:63-76 | After a failed payout a payment is selected again exactly when Stripe had refused or its first mark had not run |
| PayoutLaws.RetrySendsTwiceIff | src/modules/payout/payout.service.ts:159-234 | When a failed payout is retried until it succeeds, Stripe sends a payment of it twice exactly when it had accepted the first transfer and the payment's first mark had not run, else once |
| SettlementLaws.SettlementIsAPathIff | src/modules/dispute/dispute-settlement.service.ts:92-210 | The statuses a settlement writes are a path of the guarded machine exactly when it wrote none or started from a legal source of its first write |
| SettlementLaws.EscrowSettlementsRefineTheMachine | src/modules/dispute/dispute-settlement.service.ts:92-210 | From escrow, with a fare and no earlier refund, every resolution at every percentage writes a path of the guarded machine |
| SettlementLaws.SettlementConservesMoney | src/modules/dispute/dispute-settlement.service.ts:94-183 | On a fresh charge a refund or a split at any percentage gives rider refund + net fare + net fee = the charge, and announces exactly the net fare left |
| SettlementLaws.AnnouncedPayoutIsOwedIff | src/modules/dispute/dispute-settlement.service.ts:105-113 | The announced payout is the fare left exactly when the refund went through or there was nothing to take off |
| SettlementRuns.SettlementPredictsPayout | src/modules/dispute/dispute-settlement.service.ts:94-210 | After a refund, a split or a payout that goes through, any run may follow in which no call is made for that payment; a payout then debits exactly the announced amount for it, and includes it exactly when it was settled for the driver or something was announced, the booking is that driver's, and no dispute of it is open |
| SettlementRuns.OwnWebhookKeepsPromiseIff | src/modules/payments/stripe.webhook.controller.ts:147-174 | After Stripe's webhook for a split's own refund the fare left is what was announced exactly when that refund took no fare or nothing was announced; otherwise it is the announced amount less the refund's fare share, at least zero |
| SettlementRuns.PayoutAfterOwnWebhook | src/modules/payments/stripe.webhook.controller.ts:147-174 | After that webhook, and any run in which no call is made for the payment, a payout debits that smaller amount, and includes the payment exactly when some is left, the booking is that driver's, and no dispute of it is open |
| SettlementLaws.AtMostOneRefundPerBooking | src/modules/dispute/dispute-settlement.service.ts:83-170 | Over any sequence of settlements of any disputes, Stripe is asked at most once to refund a booking and the ledger books at most one refund, none after an earlier one |
| RefundRequests.StripeMatchesTheLedger | src/modules/dispute/dispute-settlement.service.ts:129-158 | Over any sequence of settlements, what Stripe agreed to refund for a booking charged through it is what the ledger credits its rider, cent for cent |
| RefundRequests.AsksForWhatItAnnounces | src/modules/dispute/dispute-settlement.service.ts:129-147 | A settlement sends Stripe one request, for its own booking and of exactly the announced refund, when the booking was captured and has no refund on record, and otherwise none; it throws exactly when Stripe refuses or it would pay a fully refunded booking |
| RefundRequests.AnnouncedRefund | src/modules/dispute/dispute-settlement.service.ts:80-98 | The announced refund is the whole charge for a refund, and for a split the given percentage to the nearest cent, half when none is given |
| RefundRequests.AnnouncedWithoutAPayment | src/modules/dispute/dispute-settlement.service.ts:80-108 | Without a payment row refund and announced payout add up to what the booking says was paid; a payout or an escalation announces the segment fare, else the price |
| RefundRequests.SettledBooking | src/modules/dispute/dispute-settlement.service.ts:115-208 | The first refund stamps its amount and cancels the booking or marks it disputed, dated once it went through; a payout completes a disputed booking; no other booking changes |
| RefundRequests.WebhookStopsSettlementRefunds | src/modules/payments/stripe.webhook.controller.ts:113-174 | A refund webhook stamps exactly the bookings of its intent; after one that is settled or names an amount, no later settlements ask for or book a refund of such a booking |
| SettlementLaws.RefundCompletes | src/modules/dispute/dispute-settlement.service.ts:94-187 | A refund that goes through on a fresh charge of any size leaves booking and payment fully refunded |
| SettlementLaws.FullRefundIsFinal | src/modules/dispute/dispute-settlement.service.ts:173-204 | Once fully refunded, no sequence of later settlements of any disputes makes the payment payable again |
| SettlementLaws.RefusedRefundIsNeverResent | src/modules/dispute/dispute-settlement.service.ts:83-147 | A refund Stripe refuses, of a refund or a split of any charge at any percentage, is never booked nor asked for again by any later settlements, and retrying with a refund or a split of any percentage closes the dispute as settled |
| SettlementLaws.EndsWithFareLeftIff | src/modules/dispute/dispute-settlement.service.ts:105-187 | A refund or split ends a payment as refunded with fare still on its row exactly when the booking had an earlier refund, fare is left, and it is a refund or a split that announces nothing |
| SettlementLaws.SettlementReopensIff | src/modules/dispute/dispute-settlement.service.ts:173-204 | Exactly which settlements make a completed payment payable again |
| SettlementLaws.ReopenedPaymentIsPaidTwice | src/modules/dispute/dispute-settlement.service.ts:196-204 | A payment reopened in that way, its batch completed or not, is sent once more, for the fare on its row, as soon as Stripe accepts a payout of it, and is in one more completed batch when that payout completes |
| SettlementLaws.SettlementOverspendsIff | src/modules/dispute/dispute-settlement.service.ts:94-183 | A settlement of a payment whose whole fare already left, in refunds and in transfers Stripe accepted, makes what left exceed the fare exactly when its refund goes through, takes some of the fare, and some fare was not refunded before |
| Failures.PaidTwiceExample | src/modules/dispute/dispute-settlement.service.ts:196-204 | Settling a paid-out fare of ten for the driver makes Stripe send twenty |
| Failures.RefundedAfterPayoutExample | src/modules/dispute/dispute-settlement.service.ts:94-183 | Settled for the rider instead, the ten already sent to the driver are refunded as well |
| Failures.RefundedAfterBreakingOffExample | src/modules/payout/payout.service.ts:159-234 | A payout of ten breaks off after Stripe accepted it; refunding the payment sends the ten a second time, with no completed batch |
| Failures.RefusedPayoutExample | src/modules/payout/payout.service.ts:202-234 | A payout of ten that Stripe refuses raises the driver's balance by ten |
| Failures.RepeatedRefundExample | src/modules/payments/payment.service.ts:210-266 | A refund of three reported twice takes six off the driver's fare |
| Failures.SecondSettlementExample | src/modules/dispute/dispute-settlement.service.ts:105-183 | Two half splits of a fare of ten: the second refunds and announces nothing, and ends the payment with five left on its row |
| Failures.RefusedRefundExample | src/modules/dispute/dispute-settlement.service.ts:83-147 | A captured ten whose refund Stripe refuses: the retry closes the dispute as refunded and nothing was booked |
| Failures.OwnWebhookExample | src/modules/payments/stripe.webhook.controller.ts:147-174 | A split refunds three of ten and announces seven; after the webhook for those three four are left to the driver |
| Failures.SettledUnreceivedExample | src/modules/dispute/dispute-settlement.service.ts:188-204 | A charge that was never received becomes payable, with no ledger entry, when its dispute is settled for the driver |
| RefundLaws.RefundedIsFixed | src/modules/payments/payment.service.ts:211-212 | Once refunded, no sequence of repeated local calls and webhooks, mixed in any order, changes a payment or a ledger entry |
| RefundLaws.RefundsTerminate | src/modules/payments/payment.service.ts:222-239 | Refunds, local or by settled webhook, that each take at least a cent of the fare lower the residual by as many cents, so as many as it has cents end in REFUNDED |
| RefundLaws.ReplayIsHarmlessIff | src/modules/payments/payment.service.ts:210-266 | A repeated refund changes nothing exactly when the first one was final; otherwise its fare share counts twice, up to the fare |
| RefundLaws.FirstRefundEndsIff | src/modules/payments/payment.service.ts:222-239 | A first refund ends the payment exactly when it returns everything or the whole fare; otherwise what is left on both sides is the charge less the refund |
| RefundLaws.RefundGroupBalancesIff | src/modules/ledger/ledger.service.ts:114-169 | The group a refund appends balances exactly when its amount is not negative |
| OutboxLaws.AttemptsFitTheBudget | src/modules/payments/payment-outbox.worker.ts:31-90 | Along any run the attempts of an event plus the budget left never exceed the budget it had |
| OutboxLaws.EventsEnd | src/modules/payments/payment-outbox.worker.ts:31-90 | A fresh event is attempted at most MAX_RETRIES times; a processed or failed one never again, and its row never changes |
| OutboxLaws.RetryDelayDoubles | src/modules/payments/payment-outbox.worker.ts:71-86 | A failed attempt hides the event for exactly a delay that doubles with each attempt |
| OutboxLaws.RetrySchedule | src/modules/payments/payment-outbox.worker.ts:4-86 | A fresh event that keeps failing is due again after 2, 4, 8 and 16 minutes, and fails for good at the fifth attempt |
| OutboxLaws.FailingTakesThirtyMinutes | src/modules/payments/payment-outbox.worker.ts:4-5 | Five failing attempts of a fresh event are spread over at least thirty minutes and end it |
| MoneyService.MoneyStore.CreatePayment | src/modules/payments/payment.service.ts:71-99 | Stores the three amounts it is given, once a booking, with nothing refunded yet |
| Money.ResolvePaymentSplit | src/modules/ride-booking/booking-payment-split.ts:28-47 | A price splits into a fare and the fee read off it that add up exactly; refused exactly when the fee exceeds the total |
| MoneyService.MoneyStore.MarkRow | src/modules/payments/payment.service.ts:105-208 | A guarded status update succeeds exactly on a transition of the table (Lifecycle.MarkedIff lists them by target), and changes that row only |
| MoneyService.MoneyStore.MarkPaymentPaid | src/modules/payments/payment.service.ts:114-144 | Marks the row, appends the receipt group and queues the escrow event, or changes nothing |
| MoneyService.MoneyStore.MarkBookingPaymentPaid | src/modules/payments/payment.service.ts:146-160 | Moves a created or pending payment to PAID once, and leaves any other as it is |
| MoneyService.MoneyStore.MarkRefunded | src/modules/payments/payment.service.ts:210-266 | Accumulates the refund's shares, clamped, chooses the residual or final status, and appends the refund group; nothing on a refunded or unrefundable payment |
| MoneyService.MoneyStore.RecordProviderFeeExpense | src/modules/ledger/ledger.service.ts:252-292 | Appends a balanced pair for a positive fee and nothing otherwise |
| MoneyService.MoneyStore.ApplyRefundWebhook | src/modules/payments/stripe.webhook.controller.ts:113-174 | Stamps every booking of the payment intent, and refunds the payment of the one it then finds when the charge or refund is settled |
| MoneyService.MoneyStore.DeliverEvent | src/modules/payments/payment-outbox.worker.ts:47-87 | One event ends processed, failed or pending with the next delay, as its handler fares |
| MoneyService.MoneyStore.ProcessOutboxEvents | src/modules/payments/payment-outbox.worker.ts:31-90 | Delivers the due events in order and returns how many were processed, how many failed and how many were selected |
| MoneyService.MoneyStore.CheckAndMarkEligible | src/modules/payout/payout.service.ts:23-56 | Drains the outbox, then makes eligible exactly the undisputed escrowed payments completed before the cutoff; replies how many, with the outbox counters |
| MoneyService.MoneyStore.WriteTransfer | src/modules/payout/payout.service.ts:167-199 | The five loops and updates of a transfer, stopped after any number of writes |
| MoneyService.MoneyStore.Compensate | src/modules/payout/payout.service.ts:202-234 | The catch block: batch and items failed, one reversal a payment, lost ones skipped |
| MoneyService.MoneyStore.ProcessDriverPayout | src/modules/payout/payout.service.ts:62-235 | The whole payout in mock or live mode for whatever rows the query returns, with the reply for every outcome |
| MoneyService.RepliesTellTheOutcome | src/modules/payout/payout.service.ts:77-234 | A completed reply means a completed batch of the replied amount, sent when live; a failed one a failed batch; a reply given before a batch leaves the tables alone |
| MoneyService.MoneyStore.ProcessEligibleDriverPayouts | src/modules/payout/payout.service.ts:322-340 | Pays the ready drivers among exactly those waiting, in turn; counts checked, skipped, completed and failed exactly; and when nothing hinders it leaves no ready driver anything to be paid |
| MoneyService.CountersMatchTheBatches | src/modules/payout/payout.service.ts:322-340 | Of a series of payouts to ready drivers that ran to its end, the drivers counted as processed and failed are the batches it added, and those processed the completed ones |
| MoneyService.MoneyStore.SettleDispute | src/modules/dispute/dispute-settlement.service.ts:51-224 | Every resolution's writes, in order, with what it announces and whether it threw |
| Ledger.GetDriverBalance | src/modules/ledger/ledger.service.ts:302-321 | The balance loop computes credits less debits over the driver's entries, and counts them |
| Ledger.GetDriverEarnings | src/modules/ledger/ledger.service.ts:326-359 | The earnings loop computes its three columns; its pending balance differs from the balance by the reversals |
| Ledger.BalanceIsPendingPlusReversals | src/modules/ledger/ledger.service.ts:302-359 | On any ledger whose entries carry the account and direction of their kind, the two balances differ by the reversals |
| Ledger.ReceiptBooks | src/modules/ledger/ledger.service.ts:43-93 | What a receipt group adds to every column of every payment and group |
| Ledger.RefundBooks | src/modules/ledger/ledger.service.ts:114-169 | What a refund group adds to every column of every payment and group |
| Ledger.ReceiptAccounts | src/modules/ledger/ledger.service.ts:43-93 | A receipt debits the rider's account by the charge and credits the driver's by the fare and the platform's by the fee, and touches no other account |
| Ledger.RefundAccounts | src/modules/ledger/ledger.service.ts:114-169 | A refund credits the rider's account and debits the driver's and the platform's by their shares, and touches no other account |
| Ledger.ProviderFeeAccounts | src/modules/ledger/ledger.service.ts:252-292 | The platform's account is debited by the provider's fee, and the provider's credited |
| Money.RefundSplitIsExact | src/modules/ride-booking/booking-payment-split.ts:56-79 | Both parts of any refund are non-negative and add up to it exactly |
| Money.RefundSplitIsProRata | src/modules/ride-booking/booking-payment-split.ts:56-79 | The split is the only one that adds up to the refund and takes from the fare, to within half a cent, the fare's share of the charge |
| Money.HalfRefundExample | src/modules/ledger/ledger.service.ts:105-109 | Half of a charge of 10.20 with a fare of 10.00 takes 5.00 from the driver and 0.10 from the platform |
| Money.RefundSplitIsProportionate | src/modules/ride-booking/booking-payment-split.ts:56-79 | A refund within the charge takes no more than each side holds; a full one takes both whole |
| Money.PercentOfBounds | src/modules/dispute/dispute-settlement.service.ts:26-98 | A percentage of a charge stays within it, and all of it is all of it |
| Money.PercentOfIsNearest | src/modules/dispute/dispute-settlement.service.ts:26-98 | A percentage of a charge is the nearest whole number of cents |
| Money.ClampRefundPercent | src/modules/dispute/dispute-settlement.service.ts:21-24 | Any input gives a percentage from 0 to 100: the fallback without a number, the nearest whole one within the range, the nearer end outside it |
| Money.RoundedQuotient | src/modules/ride-booking/booking-payment-split.ts:60-77 | A rounded quotient is within half of the exact one, halves going up |
| ExpiryRace.ExpiredAtMostOnce | src/queue/deadline.queue.ts:127-205 | Under every interleaving at most one call returns true; seats are released and the intent cancelled at most once, by that call |
| ExpiryRace.NoExpiryAfterAnotherClaim | src/queue/deadline.queue.ts:143-171 | Once another step has claimed the booking, no call ever acts on it |
| ExpiryRace.ExpiredExactlyOnce | src/queue/deadline.queue.ts:127-205 | When only these calls touch a pending booking and all have returned, exactly one expired it, with each effect it was due |
| ExpiryRace.BookingStore.Claim | src/queue/deadline.queue.ts:145-169 | The claim transaction acts exactly on a pending row, and frees the seats it held |
| ExpiryRace.BookingStore.ExpireUnpaidBooking | src/queue/deadline.queue.ts:127-205 | Undisturbed, the call expires a pending booking with its effects and leaves any other alone |
| ExpiryRace.BookingStore.RunUnpaidBookingSweep | src/queue/maintenance.queue.ts:711-741 | The sweep expires the listed bookings still pending, each once, counts exactly them, and frees seats and cancels intents in their order |
| ExpiryRace.EffectsFallOnce | src/queue/maintenance.queue.ts:727-734 | However often the sweep's list repeats a booking, its seats are freed and its intent is cancelled exactly once if it was pending and held them, else never |
| DlVerification.ApprovedMeansVerified | src/modules/dl-verification/dl-review.service.ts:92-387 | After every run an approved row's owner is still flagged |
| DlVerification.VeriffApprovalStands | src/modules/dl-verification/dl-verification.service.ts:570-727 | A Veriff approval and its owner's flag stand until Veriff decides on that session again, whatever uploads, reviews, sessions, reconciliations and other decisions follow |
| DlVerification.ApprovedIsNeverAsked | src/modules/dl-verification/dl-verification.service.ts:120-141 | A session creation asks Veriff about no approved session, of whichever user: neither of its queries returns one |
| DlVerification.RecoverOutcome | src/modules/dl-verification/dl-verification.service.ts:836-890 | A reconciliation stores the final decision Veriff has for each session it asks about; every session without one stays as it is, unless an approval of another closed it |
| DlVerification.LegacyApprovalsApply | src/modules/dl-verification/dl-verification.service.ts:120-141 | A legacy mismatch row is approved after all exactly when an approval is what was stored on it, and otherwise stays |
| DlVerification.OpensIff | src/modules/dl-verification/dl-verification.service.ts:169-280 | After the reconciliation a session is added exactly for a known user with a fitting profile, no Veriff approval and no pending session |
| DlVerification.AdminClearsIff | src/modules/dl-verification/dl-review.service.ts:303-387 | An admin step clears the flag exactly when its guards pass, and then leaves no approved row of that user |
| DlVerification.RequireKeepsSound | src/modules/admin/admin.service.ts:532-577 | Requiring Veriff never leaves an approved row with an unflagged owner |
| DlVerification.DlStore.CreateVeriffSession | src/modules/dl-verification/dl-verification.service.ts:108-305 | First applies what Veriff has decided on at most 20 pending sessions of the user, then the approvals stored on its legacy mismatch rows; then adds a session exactly for a known user with a matching profile and without approval or pending session, which becomes its only pending one |
| DlVerification.DlStore.RecoverDecisions | src/modules/dl-verification/dl-verification.service.ts:836-890 | Applies the final decision of each listed session in turn and skips the others |
| DlVerification.DlStore.RegisterVeriffSession | src/modules/dl-verification/dl-verification.service.ts:335-407 | A registered session ends up with the caller as its owner, and an existing row is never taken over |
| DlVerification.DlStore.SubmitDlDocument | src/modules/dl-verification/dl-review.service.ts:92-125 | An upload is accepted exactly for an unverified user not approved elsewhere, and requeues only the manual row |
| DlVerification.DlStore.ApproveDlDocument | src/modules/dl-verification/dl-review.service.ts:241-296 | Approval passes exactly the review guards, is idempotent, and keeps the flag in step |
| DlVerification.DlStore.RejectDlDocument | src/modules/dl-verification/dl-review.service.ts:303-387 | A decline or resubmission passes exactly the review guards and clears the flag with the row |
| DlVerification.DlStore.HandleWebhookDecision | src/modules/dl-verification/dl-verification.service.ts:570-727 | A decision is stored on its owner's session; an approval sets the flag and closes older attempts |
| DlVerification.DecisionOutcome | src/modules/dl-verification/dl-verification.service.ts:570-727 | A decision belongs to the user it names, else to the one stored; an approval verifies them and supersedes every pending row they have, Veriff or manual; any other decision writes its own row alone, an unknown one as a decline |
| DlVerification.RegistersIff | src/modules/dl-verification/dl-verification.service.ts:335-407 | Registering attaches an unknown session, as pending, exactly to a known user without a Veriff approval |
| DlVerification.ReviewsPassIff | src/modules/dl-verification/dl-review.service.ts:92-387 | Admin actions pass exactly on a document that was not superseded, of a user no other row approves, and uploads exactly for an unverified such user; each writes the manual row and the flag alone |
| DlVerification.RequireWithdrawsPhotos | src/modules/admin/admin.service.ts:532-577 | Requiring Veriff is refused exactly after a Veriff approval; otherwise it clears the flag and withdraws an approved photo, which cannot be approved again before another upload |
| DlVerification.DlStore.RequireVeriffForUser | src/modules/admin/admin.service.ts:532-577 | Refused when Veriff already approved; otherwise supersedes an approved manual row and clears the flag |
| Pricing.RoundingIsTight | src/modules/pricing/pricing.calculator.ts:39-48 | Rounding moves an amount by at most half a unit, under every strategy |
| Pricing.RoundingIsNearestIff | src/modules/pricing/pricing.calculator.ts:39-48 | An amount rounds to n units exactly when it lies from half a unit below, included, to half a unit above |
| Pricing.RoundingKeepsOrder | src/modules/pricing/pricing.calculator.ts:39-48 | Rounding never reorders two amounts |
| Pricing.BandIsOrdered | src/modules/pricing/pricing.calculator.ts:66-109 | Ordered rates give minimum seat price <= min <= recommended <= max at every distance, and exactly the prices from min on pass validation |
| Pricing.BandFollowsRates | src/modules/pricing/pricing.calculator.ts:66-109 | Each price of the band is the distance at its own rate to the nearest unit, or the minimum where that is below it |
| Pricing.SegmentsStayInPlace | src/modules/pricing/pricing.calculator.ts:111-130 | Every segment is priced, with its own positions and distance |
| Pricing.SegmentPricesAddUp | src/modules/pricing/pricing.calculator.ts:111-130 | Prices of segments that cover the distance sum to the selected price within half a unit each below, and that plus the minimum seat price each above |
| Pricing.LongerNeverCheaper | src/modules/pricing/pricing.calculator.ts:120-129 | A longer segment never costs less than a shorter one, and none less than the minimum |
| PricingConfigs.StoredConfigsGiveOrderedBands | src/modules/pricing/pricing.service.ts:42-313 | After any run of creations, updates and seedings no region has two active configs, the default row's fixed identifier is used once at most, and every stored config gives an ordered band at every distance |
| PricingConfigs.FallbackIsStable | src/modules/pricing/pricing.service.ts:170-215 | Asking again after the fallback seeded its row gives the same fee |
| PricingConfigs.LiveIsTheLatest | src/modules/pricing/pricing.calculator.ts:50-64 | A region is priced by the row in force that started last, and by none exactly when none is in force |
| PricingConfigs.NewConfigTakesOver | src/modules/pricing/pricing.service.ts:224-261 | From its start on a new active config alone prices its region, the row it replaces ends where it starts, and other regions are untouched |
| PricingConfigs.InactiveConfigWaits | src/modules/pricing/pricing.service.ts:224-261 | A new config that is not active is stored as given, prices nothing and changes no other row |
| PricingConfigs.UpdateTakesOver | src/modules/pricing/pricing.service.ts:263-313 | An update changes the fields it names on its own row, ends the other active rows of its region where it starts, and keeps every other row |
| PricingConfigs.DefaultIsTheFirst | src/modules/pricing/pricing.service.ts:198-215 | The default row is the first of the default region by activity, then latest start, then latest creation |
| PricingConfigs.DefaultTerms | src/modules/pricing/pricing.service.ts:13-24 | Without any row a ride costs twenty percent and no flat fee, and the compiled-in row is seeded |
| PricingConfigs.PublishedFeeIsFrozen | src/modules/pricing/pricing.service.ts:115-132 | A published ride keeps the fee it was published with, whatever is configured afterwards; any other pays what is active or default at that moment |
| PricingConfigs.PricingStore.CreatePricingConfig | src/modules/pricing/pricing.service.ts:224-261 | Refused exactly on unordered rates; otherwise the region's active rows are closed and the new one added |
| PricingConfigs.PricingStore.UpdatePricingConfig | src/modules/pricing/pricing.service.ts:263-313 | Refused exactly on an unknown row or unordered rates; otherwise patches it, closing the region's other active rows |
| PricingConfigs.PricingStore.EnsureDefaultPricingConfig | src/modules/pricing/pricing.service.ts:198-215 | Returns the preferred default-region row, seeding it when there is none and its identifier is free |
| PricingConfigs.PricingStore.ResolveRideFeeTerms | src/modules/pricing/pricing.service.ts:115-132 | The snapshot's fee when there is one, else the live or default fee |
| PricingConfigs.PricingStore.ResolveFeeTermsForRides | src/modules/pricing/pricing.service.ts:140-167 | For any list, duplicates included, maps exactly those rides, each to the terms of the single lookup |
| PricingConfigs.Pigeonhole | src/modules/pricing/pricing.service.ts:159-164 | The size test that skips the fallback is right: as many distinct keys as places means every ride has one |
| ChatPaging.PagingIsCompleteIff | src/modules/chat/chat.service.ts:187-574 | However each query orders messages of one timestamp, following the cursor shows messages of the conversation in descending order, none twice, in at most as many pages as messages, and all of them exactly when no tie is split between pages; with distinct times always, for any limit of at least 1 |
| ChatPaging.FollowIsFollowing | src/modules/chat/chat.service.ts:549-574 | Following `nextCursor` until `hasMore` is false always ends |
| ChatPaging.TieLosesAMessage | src/modules/chat/chat.service.ts:192-225 | Of two messages with one timestamp, at one a page, the second is never shown |
| ChatPaging.NewMessagesDoNotDisturb | src/modules/chat/chat.service.ts:192-225 | A message no older than the cursor's leaves the rows behind that cursor, and every page that may be returned for it, unchanged |
| ChatPaging.NextMatching | src/modules/chat/chat.service.ts:192-225 | What a shown message leaves as the next cursor is what the current one leaves, strictly below it |

## Left out

- PayoutsAreSolvent: the refunded fare is counted up to the fare, because a settlement adds its share without clamping; RefundAndPayoutFitTheFare states it unclamped where only markRefunded refunds.
- A mock payout sends nothing: it counts in the batches and in the ledger, but not in what Stripe sent.
- Runs take one service call at a time: two calls on one payment are not interleaved, except in the expiry race.
- Mixed currencies: there is one currency, so a batch in the first payment's currency is not modelled.
- Floating point: cents are exact, and rounding to two decimals rounds halves up.
- A payment shares its booking's identifier (the column is unique).
- In runs a payment is created from the split of a price with a fee that is not negative, as a booking does.
- Ledger group identifiers are consecutive numbers instead of random ones; creation times, metadata and reasons are dropped.
- The catch block's own batch update failing, and database failures outside a payout.
- getEligiblePayoutCandidates: its amounts; the drivers it yields come in any order.
- Reconciliation, ride operations, admin force-complete and admin refund, cancellation refunds: callers of the modelled functions.
- releaseBookingSeats is the flag of held seats being cleared once; seat and segment counts are not modelled.
- In the expiry race nothing puts a booking back into PAYMENT_PENDING; the query that lists stale bookings is arbitrary.
- applyPaymentIntentFailed is one of the arbitrary other writers of the expiry race.
- Name, age and profile checks of a Veriff session are one boolean input; no modelled step writes an identity mismatch, though rows that hold one are read.
- Veriff's answers during a reconciliation are about the session asked for; errors that end the reconciliation halfway.
- calculateSegmentPrices over a total distance of zero, where the source divides by zero.
- Ties between configs of one region with the same start are broken by creation order; the database may break them otherwise, but one active config a region leaves none among live ones.
- Chat participants, availability, receipts and conversation lists; message content.
- Notifications, sockets, mail, authentication, signatures, storage, queues and caches.
