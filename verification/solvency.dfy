/**
 * What leaves the platform for one payment: to the rider in the refunds its row records, and to the
 * driver in the transfers Stripe accepted, whether or not the payout then went through.
 */
module Solvency {
  import opened Money
  import opened Tables
  import opened Ledger
  import opened Payments
  import opened Payouts
  import opened Settlement
  import opened MoneyRuns
  import opened MoneyTheorems
  import opened Progress

  function Sent(w: World, p: Id): int {
    SentSum(w.transfers, w.batches, p)
  }

  function TimesSent(w: World, p: Id): nat {
    SentCount(w.transfers, w.batches, p)
  }

  /** Fare refunded plus fare Stripe sent stays within the fare. */
  predicate Solvent(w: World, p: Id) {
    p in w.payments ==>
      var row := w.payments[p];
      Min(row.refundedFareAmount, row.fareAmount) + Sent(w, p) <= row.fareAmount
  }

  /** Only existing payments were sent, and once one was, nothing of its fare is left on the platform. */
  predicate SentSound(w: World, p: Id) {
    && TransfersNameBatches(w) && 0 <= Sent(w, p)
    && (TimesSent(w, p) == 0 ==> Sent(w, p) == 0)
    && (TimesSent(w, p) >= 1 ==> p in w.payments && Sent(w, p) >= NetFare(w.payments[p]))
  }

  lemma OnlyPayoutsMoveMoney(w: World, s: Step)
    requires Enabled(w, s) && !s.PayoutStep?
    ensures Apply(w, s).batches == w.batches && Apply(w, s).transfers == w.transfers
  {
    match s
    case OutboxStep(batchSize, now) => DeliverAllMovesNoMoney(w, SelectDue(w.outbox, 0, batchSize, now), now);
    case EligibleStep(_, now) => DeliverAllMovesNoMoney(w, SelectDue(w.outbox, 0, ELIGIBILITY_BATCH, now), now);
    case SettleStep(d, resolution, percent, ok, now) => SettleMovesNoMoney(w, d, resolution, percent, ok, now);
    case _ =>
  }

  lemma DeliverMovesNoMoney(w: World, e: nat, now: int)
    requires e < |w.outbox|
    ensures Deliver(w, e, now).batches == w.batches && Deliver(w, e, now).transfers == w.transfers
  {
  }

  lemma {:induction false} DeliverAllMovesNoMoney(w: World, sel: seq<nat>, now: int)
    requires forall k | 0 <= k < |sel| :: sel[k] < |w.outbox|
    ensures DeliverAll(w, sel, now).batches == w.batches && DeliverAll(w, sel, now).transfers == w.transfers
  {
    if sel != [] {
      var front := sel[..|sel| - 1];
      DeliverAllMovesNoMoney(w, front, now);
      DeliverMovesNoMoney(DeliverAll(w, front, now), sel[|sel| - 1], now);
    }
  }

  /** Only a payout Stripe accepts adds to what it sent of a payment, by what is left of its fare. */
  lemma StepSends(w: World, s: Step, p: Id)
    requires Enabled(w, s) && TransfersNameBatches(w)
    ensures Sends(w, s, p) ==> p in w.payments
    ensures TransfersNameBatches(Apply(w, s))
    ensures TimesSent(Apply(w, s), p) == TimesSent(w, p) + if Sends(w, s, p) then 1 else 0
    ensures Sent(Apply(w, s), p) == Sent(w, p) + if Sends(w, s, p) then NetFare(w.payments[p]) else 0
  {
    if s.PayoutStep? {
      SelectedRows(w, s.driver, s.rows);
      PayoutSends(w, s.driver, s.rows, s.attempt, p);
    } else {
      OnlyPayoutsMoveMoney(w, s);
    }
  }

  lemma NewRowsAreUnsent(w: World, s: Step, p: Id)
    requires Sound(w) && Enabled(w, s) && SentSound(w, p) && p !in w.payments
    ensures SentSound(Apply(w, s), p) && Solvent(Apply(w, s), p)
  {
    StepKeepsSound(w, s);
    assert PaymentSound(Apply(w, s), p);
    StepSends(w, s, p);
  }

  /** A step makes a payment insolvent exactly when it moves fare of a payment that Stripe already sent. */
  lemma StepIsSolventIff(w: World, s: Step, p: Id)
    requires Sound(w) && Enabled(w, s) && SentSound(w, p)
    ensures SentSound(Apply(w, s), p)
    ensures Solvent(Apply(w, s), p) <==> Solvent(w, p) && !Overspent(w, s, p)
  {
    if p in w.payments {
      assert PaymentSound(w, p);
      StepMovesRow(w, s, p);
      StepSends(w, s, p);
    } else {
      NewRowsAreUnsent(w, s, p);
    }
  }

  /**
   * Solvency, exactly: after every run the refunded fare of a payment and what Stripe sent of it fit its
   * fare unless, and only unless, some step took or sent fare of it after Stripe had sent it. All the
   * failures are in there: refunds of a payment that went out, by call, webhook or settlement, a second
   * payout that a settlement opened, and the retry of a payout that broke off.
   */
  lemma {:induction false} SolventIff(w: World, steps: seq<Step>, p: Id)
    requires Sound(w) && SentSound(w, p) && IsRun(w, steps)
    ensures Solvent(Run(w, steps), p) <==> Solvent(w, p) && !Meets(Overspends, w, steps, p)
    decreases |steps|
  {
    if steps != [] {
      StepKeepsSound(w, steps[0]);
      StepIsSolventIff(w, steps[0], p);
      SolventIff(Apply(w, steps[0]), steps[1..], p);
    }
  }

  /** In particular from a start without payments. */
  lemma RunsAreSolventIff(start: World, steps: seq<Step>, p: Id)
    requires IsStart(start) && IsRun(start, steps)
    ensures Solvent(Run(start, steps), p) <==> !Meets(Overspends, start, steps, p)
  {
    StartIsSound(start);
    SolventIff(start, steps, p);
  }

  // ---------------------------------------------------------------------------------------------
  // The two guards that keep every payment solvent
  // ---------------------------------------------------------------------------------------------

  /**
   * A payment is in one completed batch when it is completed and in none before; the ledger has debited
   * what that batch holds, and Stripe sent no more than that (less in mock mode, where it sends nothing).
   */
  predicate PaidOnce(w: World, p: Id) {
    var count, sum := PaidCount(w.batches, p), PaidSum(w.batches, p);
    && TransfersNameBatches(w) && TimesSent(w, p) <= count && 0 <= Sent(w, p) <= sum
    && Sum(w.ledger, OfPayment(p), Transfers) == sum
    && (p in w.payments ==>
          var row := w.payments[p];
          && row.status != TransferCreated
          && (if row.status == PayoutCompleted then count == 1 && sum == NetFare(row) else count == 0 && sum == 0))
  }

  lemma OnlyPayoutsTransfer(w: World, s: Step, p: Id)
    requires Sound(w) && Enabled(w, s) && !s.PayoutStep?
    ensures BooksOf(Apply(w, s).ledger, p).transfers == BooksOf(w.ledger, p).transfers
  {
    match s
    case PaidStep(q, driver) =>
      assert PaymentSound(w, q);
      if q in w.payments {
        ReceiptMoves(w.ledger, w.groups, q, w.payments[q], driver, p);
        BookingPaidLedger(w, q, driver);
      }
    case RefundStep(q, driver, amount, now) =>
      assert PaymentSound(w, q);
      RefundTransfers(w, q, driver, AsInt(amount), now, p);
    case WebhookStep(intent, found, amount, settled, now) =>
      if found.Some? {
        var w1 := Stamped(w, intent, AsInt(amount), settled, now);
        assert PaymentSound(w, found.value);
        RefundTransfers(w1, found.value, w.bookings[found.value].driver, AsInt(amount), now, p);
      }
    case ProviderFeeStep(q, fee) => if fee > 0 { ProviderFeeMoves(w.ledger, w.groups, q, fee, p); }
    case OutboxStep(batchSize, now) => DeliverAllLedger(w, SelectDue(w.outbox, 0, batchSize, now), now);
    case EligibleStep(_, now) => DeliverAllLedger(w, SelectDue(w.outbox, 0, ELIGIBILITY_BATCH, now), now);
    case SettleStep(d, resolution, percent, ok, now) =>
      if CanSettle(w, d) {
        if w.disputes[d].booking in w.payments {
          assert PaymentSound(w, w.disputes[d].booking);
          SettledBooks(w, d, resolution, percent, ok, now, p);
        } else {
          SettledLedger(w, d, resolution, percent, ok, now);
        }
      }
    case _ =>
  }

  lemma MarkPaidLedger(w: World, q: Id, driver: Id)
    requires q in w.payments
    ensures
      var l := MarkPaid(w, q, driver).ledger;
      l == if CanMark(w, q, Paid) then w.ledger + ReceiptGroup(w.groups, q, w.payments[q], driver) else w.ledger
  {
  }

  lemma BookingPaidLedger(w: World, q: Id, driver: Id)
    requires q in w.payments
    ensures
      var l := MarkBookingPaid(w, q, driver).ledger;
      l == w.ledger || l == w.ledger + ReceiptGroup(w.groups, q, w.payments[q], driver)
  {
    MarkPaidLedger(w, q, driver);
    if w.payments[q].status == Created {
      var pending := Mark(w, q, PaymentPending, 0);
      MarkPaidLedger(pending, q, driver);
      assert ReceiptGroup(w.groups, q, pending.payments[q], driver) == ReceiptGroup(w.groups, q, w.payments[q], driver);
    }
  }

  lemma RefundTransfers(w: World, q: Id, driver: Id, amount: Option<int>, now: int, p: Id)
    requires q in w.payments ==> ChargeSound(w.payments[q])
    requires amount.GetOr(0) >= 0
    ensures BooksOf(MarkRefunded(w, q, driver, amount, now).ledger, p).transfers == BooksOf(w.ledger, p).transfers
  {
    if q in w.payments && Refundable(w.payments[q].status) {
      var row := w.payments[q];
      RefundTables(w, q, driver, amount, now);
      RefundSplitIsExact(row.amountTotal, row.fareAmount, EffectiveRefund(row, amount));
      RefundMoves(w.ledger, w.groups, q, row.rider, driver, EffectiveRefund(row, amount), RefundShares(row, amount), p);
    }
  }

  lemma CallKeepsPaidOnce(w: World, s: Step, p: Id)
    requires Sound(w) && Enabled(w, s) && PaidOnce(w, p) && !s.PayoutStep? && !SettledPaidOut(w, s, p)
    ensures PaidOnce(Apply(w, s), p)
  {
    assert PaymentSound(w, p);
    OnlyPayoutsTransfer(w, s, p);
    OnlyPayoutsMoveMoney(w, s);
    if p in w.payments {
      StepMovesRow(w, s, p);
      if w.payments[p].status == PayoutCompleted {
        NothingTakenWithoutWrites(w, s, p);
      }
    } else {
      NewRowsAreOpen(w, s, p);
    }
  }

  lemma NothingTakenWithoutWrites(w: World, s: Step, p: Id)
    requires Enabled(w, s) && p in w.payments && w.payments[p].status == PayoutCompleted && Writes(w, s, p) == []
    ensures !Takes(w, s, p)
  {
    if s.SettleStep? && CanSettle(w, s.d) && w.disputes[s.d].booking == p {
      SettledPayments(w, s.d, s.resolution, s.percent, s.stripeAccepts, s.now);
    }
  }

  lemma NewRowsAreOpen(w: World, s: Step, p: Id)
    requires Enabled(w, s) && p !in w.payments
    ensures p in Apply(w, s).payments ==>
      && Apply(w, s).payments[p].status in {Created, PaymentPending}
      && Clamped(Apply(w, s).payments[p])
  {
    match s
    case PayoutStep(driver, rows, a) =>
      SelectedRows(w, driver, rows);
      PayoutRows(w, driver, rows, a);
    case PaidStep(q, driver) => BookingPaidRows(w, q, driver);
    case OutboxStep(batchSize, now) => DeliverAllKeys(w, SelectDue(w.outbox, 0, batchSize, now), now);
    case EligibleStep(_, now) => DeliverAllKeys(w, SelectDue(w.outbox, 0, ELIGIBILITY_BATCH, now), now);
    case SettleStep(d, resolution, percent, ok, now) =>
      if CanSettle(w, d) {
        if w.disputes[d].booking in w.payments {
          SettledPayments(w, d, resolution, percent, ok, now);
        } else {
          SettledLedger(w, d, resolution, percent, ok, now);
        }
      }
    case _ =>
  }

  lemma {:induction false} DeliverAllKeys(w: World, sel: seq<nat>, now: int)
    requires forall k | 0 <= k < |sel| :: sel[k] < |w.outbox|
    ensures DeliverAll(w, sel, now).payments.Keys == w.payments.Keys
  {
    if sel != [] {
      var front := sel[..|sel| - 1];
      DeliverAllKeys(w, front, now);
      DeliverTables(DeliverAll(w, front, now), sel[|sel| - 1], now);
    }
  }

  /** A payout leaves a payment it does not include as it was. */
  lemma PayoutOfOthers(w: World, driver: Id, rows: seq<Id>, a: Attempt, p: Id)
    requires Sound(w) && IsListing(rows, SelectedIds(w, driver)) && PaidOnce(w, p) && p !in rows
    ensures forall q | q in rows :: q in w.payments
    ensures PaidOnce(Payout(w, driver, rows, a), p)
  {
    SelectedRows(w, driver, rows);
    PayoutPaid(w, driver, rows, a, p);
    PayoutSends(w, driver, rows, a, p);
    PayoutRows(w, driver, rows, a);
    PayoutMoves(w, driver, rows, a, p);
    DistinctPrefix(rows, DebitCount(w, driver, rows, a));
  }

  /** What a payout that does not break off adds to the debits of a payment it includes. */
  lemma WholeDebit(w: World, driver: Id, rows: seq<Id>, a: Attempt, p: Id)
    requires Distinct(rows) && (forall q | q in rows :: q in w.payments) && p in rows && p in w.payments
    requires !BrokenOff(w, PayoutStep(driver, rows, a), p)
    ensures
      Sum(Payout(w, driver, rows, a).ledger, OfPayment(p), Transfers)
      == Sum(w.ledger, OfPayment(p), Transfers)
         + if Completes(w, driver, rows, a) then NetFare(w.payments[p]) else 0
  {
    PayoutMoves(w, driver, rows, a, p);
    WholeOrNothing(w, driver, rows, a, p);
  }

  /** Where a payout that does not break off leaves a payment it includes. */
  lemma WholeRow(w: World, driver: Id, rows: seq<Id>, a: Attempt, p: Id)
    requires IsListing(rows, SelectedIds(w, driver)) && PaymentSound(w, p) && p in rows && p in w.payments
    requires !BrokenOff(w, PayoutStep(driver, rows, a), p)
    ensures forall q | q in rows :: q in w.payments
    ensures
      var w' := Payout(w, driver, rows, a);
      && p in w'.payments && w.payments[p].status == PayoutEligible
      && w'.payments[p]
         == w.payments[p].(status := if Completes(w, driver, rows, a) then PayoutCompleted else PayoutEligible)
  {
    PayoutRow(w, driver, rows, a, p);
    WholeOrNothing(w, driver, rows, a, p);
  }

  /** A payment that is eligible and then completed or left alone, by what was sent and debited of it. */
  lemma CompletionKeepsPaidOnce(w: World, w': World, p: Id, completed: bool, sent: bool)
    requires PaidOnce(w, p) && PaymentSound(w, p) && p in w.payments && p in w'.payments && (sent ==> completed)
    requires w.payments[p].status == PayoutEligible && TransfersNameBatches(w')
    requires w'.payments[p] == w.payments[p].(status := if completed then PayoutCompleted else PayoutEligible)
    requires PaidCount(w'.batches, p) == PaidCount(w.batches, p) + if completed then 1 else 0
    requires PaidSum(w'.batches, p) == PaidSum(w.batches, p) + if completed then NetFare(w.payments[p]) else 0
    requires TimesSent(w', p) == TimesSent(w, p) + if sent then 1 else 0
    requires Sent(w', p) == Sent(w, p) + if sent then NetFare(w.payments[p]) else 0
    requires
      Sum(w'.ledger, OfPayment(p), Transfers)
      == Sum(w.ledger, OfPayment(p), Transfers) + if completed then NetFare(w.payments[p]) else 0
    ensures PaidOnce(w', p)
  {
  }

  lemma PayoutKeepsPaidOnce(w: World, driver: Id, rows: seq<Id>, a: Attempt, p: Id)
    requires Sound(w) && IsListing(rows, SelectedIds(w, driver)) && PaidOnce(w, p)
    requires !BrokenOff(w, PayoutStep(driver, rows, a), p)
    ensures forall q | q in rows :: q in w.payments
    ensures PaidOnce(Payout(w, driver, rows, a), p)
  {
    SelectedRows(w, driver, rows);
    if p in rows {
      assert PaymentSound(w, p);
      PayoutPaid(w, driver, rows, a, p);
      PayoutSends(w, driver, rows, a, p);
      WholeDebit(w, driver, rows, a, p);
      WholeRow(w, driver, rows, a, p);
      CompletionKeepsPaidOnce(w, Payout(w, driver, rows, a), p, Completes(w, driver, rows, a),
                              Accepted(w, driver, rows, a));
    } else {
      PayoutOfOthers(w, driver, rows, a, p);
    }
  }

  /** A payout that does not break off debits and completes all of its rows or none. */
  lemma WholeOrNothing(w: World, driver: Id, rows: seq<Id>, a: Attempt, p: Id)
    requires (forall q | q in rows :: q in w.payments) && p in rows && p in w.payments
    requires !BrokenOff(w, PayoutStep(driver, rows, a), p)
    ensures
      var ps, k := Payout(w, driver, rows, a).payments, DebitCount(w, driver, rows, a);
      && p in ps
      && (if Completes(w, driver, rows, a) then rows[..k] == rows && ps[p].status == PayoutCompleted
          else rows[..k] == [] && ps[p].status == w.payments[p].status)
  {
    if Succeeds(w, driver, rows, a) {
      SuccessfulPayout(w, driver, rows, a);
    } else if Rejected(w, driver, rows, a) {
      RejectedPayout(w, driver, rows, a);
    }
  }

  lemma {:induction false} RunKeepsPaidOnce(w: World, steps: seq<Step>, p: Id)
    requires Sound(w) && IsRun(w, steps) && PaidOnce(w, p)
    requires !Meets(SettlesPaidOut, w, steps, p) && !Meets(BreaksOff, w, steps, p)
    ensures Sound(Run(w, steps)) && PaidOnce(Run(w, steps), p)
    decreases |steps|
  {
    if steps != [] {
      var s := steps[0];
      StepKeepsSound(w, s);
      if s.PayoutStep? {
        PayoutKeepsPaidOnce(w, s.driver, s.rows, s.attempt, p);
      } else {
        CallKeepsPaidOnce(w, s, p);
      }
      RunKeepsPaidOnce(Apply(w, s), steps[1..], p);
    }
  }

  /**
   * As long as no settlement writes the payment after it was paid out and no payout of it breaks off
   * between Stripe's answer and its last write, it is in one completed batch when completed and in none
   * before, the ledger has debited exactly what that holds, Stripe sent it at most once and no more than
   * that, and refund and payout fit the fare.
   */
  lemma PayoutsAreSolvent(start: World, steps: seq<Step>, p: Id)
    requires IsStart(start) && IsRun(start, steps) && p in Run(start, steps).payments
    requires !Meets(SettlesPaidOut, start, steps, p) && !Meets(BreaksOff, start, steps, p)
    ensures
      var w := Run(start, steps);
      var row, paid := w.payments[p], PaidSum(w.batches, p);
      && PaidCount(w.batches, p) == (if row.status == PayoutCompleted then 1 else 0)
      && Sum(w.ledger, OfPayment(p), Transfers) == paid
      && TimesSent(w, p) <= PaidCount(w.batches, p) && 0 <= Sent(w, p) <= paid
      && Min(row.refundedFareAmount, row.fareAmount) + paid <= row.fareAmount
    ensures Solvent(Run(start, steps), p) && !Meets(Overspends, start, steps, p)
  {
    StartIsSound(start);
    RunKeepsPaidOnce(start, steps, p);
    assert PaymentSound(Run(start, steps), p);
    SolventIff(start, steps, p);
  }

  lemma StepClamps(w: World, s: Step, p: Id)
    requires Sound(w) && Enabled(w, s) && Writes(w, s, p) == []
    requires p in w.payments ==> Clamped(w.payments[p])
    ensures p in Apply(w, s).payments ==> Clamped(Apply(w, s).payments[p])
  {
    if p in w.payments {
      StepMovesRow(w, s, p);
    } else {
      NewRowsAreOpen(w, s, p);
    }
  }

  lemma {:induction false} RunClamps(w: World, steps: seq<Step>, p: Id)
    requires Sound(w) && IsRun(w, steps) && !Meets(Settles, w, steps, p)
    requires p in w.payments ==> Clamped(w.payments[p])
    ensures p in Run(w, steps).payments ==> Clamped(Run(w, steps).payments[p])
    ensures !Meets(SettlesPaidOut, w, steps, p)
    decreases |steps|
  {
    if steps != [] {
      StepKeepsSound(w, steps[0]);
      StepClamps(w, steps[0], p);
      RunClamps(Apply(w, steps[0]), steps[1..], p);
    }
  }

  /** Where no settlement writes the payment, its stored refund itself fits beside what was transferred. */
  lemma RefundAndPayoutFitTheFare(start: World, steps: seq<Step>, p: Id)
    requires IsStart(start) && IsRun(start, steps) && p in Run(start, steps).payments
    requires !Meets(Settles, start, steps, p) && !Meets(BreaksOff, start, steps, p)
    ensures
      var w := Run(start, steps);
      && w.payments[p].refundedFareAmount + PaidSum(w.batches, p) <= w.payments[p].fareAmount
      && w.payments[p].refundedFareAmount + Sent(w, p) <= w.payments[p].fareAmount
  {
    StartIsSound(start);
    RunClamps(start, steps, p);
    PayoutsAreSolvent(start, steps, p);
  }
}
