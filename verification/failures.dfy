/** Concrete inputs on which the services do not do what they promise; the laws say exactly when. */
module Failures {
  import opened Money
  import opened Tables
  import opened Ledger
  import opened Payments
  import opened Payouts
  import opened Settlement
  import opened MoneyRuns
  import opened PayoutLaws
  import opened RefundLaws
  import opened SettlementLaws
  import opened SettlementRuns

  /** Booking 0 of driver 1, a fare of ten with no fee, in a status. */
  function Charge(status: PaymentStatus): Payment {
    Payment(2, 10, 10, 0, 0, 0, status, None)
  }

  const BOOKING := Booking(1, BookingStatus.Completed, Some(0), 10, None, None, None, None, None, None, None)

  /** Its only tables: two open disputes, a driver ready to be paid, and the ledger, batches and transfers given. */
  function OneBooking(
    status: PaymentStatus, ledger: seq<Entry>, groups: nat, batches: seq<Batch>, transfers: seq<StripeTransfer>): World
  {
    World(map[0 := Charge(status)], map[0 := BOOKING], map[0 := Dispute(0, Open), 1 := Dispute(0, Open)],
          map[1 := ConnectAccount(true, true)], ledger, groups, [], batches, transfers, [])
  }

  // ---------------------------------------------------------------------------------------------
  // A fare that was paid out and is still disputed
  // ---------------------------------------------------------------------------------------------

  const PAID_BATCH := Batch(1, 10, BatchCompleted, [Item(0, 10, 0, ItemCompleted)])

  function PaidOut(): World {
    OneBooking(PayoutCompleted, ReceiptGroup(0, 0, Charge(PayoutCompleted), 1) + [TransferEntry(1, 0, 1, 10)], 2,
           [PAID_BATCH], [StripeTransfer(0, 1, 10)])
    .(disputes := map[0 := Dispute(0, Open)])
  }

  lemma PaidOutIsPaid()
    ensures SentCount(PaidOut().transfers, PaidOut().batches, 0) == 1
    ensures SentSum(PaidOut().transfers, PaidOut().batches, 0) == 10
  {
    var items, ts := PAID_BATCH.items, PaidOut().transfers;
    assert items[..0] == [] && ts[..0] == [];
    assert CarriedItems(PaidOut().batches, ts[0]) == items;
    assert ItemCount(items, 0) == 1 && ItemSum(items, 0) == 10;
  }

  /** The tables once the dispute is settled for the driver. */
  lemma SettledForTheDriver()
    ensures
      var w' := Settle(PaidOut(), 0, ToPayout, None, true, 1).w;
      && w'.payments == map[0 := Charge(PayoutEligible).(payoutEligibleAt := Some(1))]
      && w'.bookings == map[0 := BOOKING]
      && w'.disputes == map[0 := Dispute(0, ResolvedPayout)]
      && w'.accounts == map[1 := ConnectAccount(true, true)]
  {
    assert CanSettle(PaidOut(), 0);
  }

  lemma ItIsSelected()
    ensures IsListing([0], SelectedIds(Settle(PaidOut(), 0, ToPayout, None, true, 1).w, 1))
  {
    var w' := Settle(PaidOut(), 0, ToPayout, None, true, 1).w;
    SettledForTheDriver();
    assert Selected(w', 1, 0);
    assert forall p | p in w'.payments :: p == 0;
  }

  /** Settling that dispute for the driver sends the same ten again. */
  lemma PaidTwiceExample()
    ensures
      var w' := Settle(PaidOut(), 0, ToPayout, None, true, 1).w;
      && IsListing([0], SelectedIds(w', 1)) && 0 in w'.payments
      && var paid := Payout(w', 1, [0], Attempt(false, true, WriteCount(1), {}));
      SentSum(paid.transfers, paid.batches, 0) == 20
  {
    PaidOutIsPaid();
    SettledForTheDriver();
    ItIsSelected();
    ReopenedPaymentIsPaidTwice(PaidOut(), 0, ToPayout, None, true, 1, [0], Attempt(false, true, WriteCount(1), {}));
  }

  /** What a refund or split of the fare of ten plans. */
  lemma PlanOf(w: World, full: bool, percent: Option<real>, pct: int, refund: int)
    requires 0 in w.bookings && 0 in w.payments
    requires w.payments[0].amountTotal == 10 && w.payments[0].fareAmount == 10
    requires pct == (if full then 100 else ClampRefundPercent(percent, 50)) && 0 < pct && refund * 10 == pct
    ensures
      var plan := PlanRefund(w, 0, full, percent);
      plan.refund == refund && plan.split == RefundSplit(refund, 0)
  {
    assert PercentOf(10, pct) == refund;
    RoundedQuotientUnique(refund * 10, 10, refund);
  }

  lemma TenArePlanned(w: World)
    requires 0 in w.payments && 0 in w.bookings && w.payments[0] == Charge(PayoutCompleted) && w.bookings[0] == BOOKING
    ensures PlanRefund(w, 0, true, None).refund == 10
    ensures PlanRefund(w, 0, true, None).split == RefundSplit(10, 0)
  {
    PlanOf(w, true, None, 100, 10);
  }

  /** A refund that goes through adds its shares to the row and sends nothing to the driver. */
  lemma SharesAreAdded(w: World, d: Id, percent: Option<real>, now: int)
    requires CanSettle(w, d) && w.disputes[d].booking in w.payments
    requires Refunds(w, w.disputes[d].booking, ToRefund, percent, true)
    ensures
      var b, w' := w.disputes[d].booking, Settle(w, d, ToRefund, percent, true, now).w;
      && b in w'.payments && w'.batches == w.batches && w'.transfers == w.transfers
      && w'.payments[b].fareAmount == w.payments[b].fareAmount
      && w'.payments[b].refundedFareAmount
         == w.payments[b].refundedFareAmount + PlanRefund(w, b, true, percent).split.fare
  {
    SettledPayments(w, d, ToRefund, percent, true, now);
    SettleMovesNoMoney(w, d, ToRefund, percent, true, now);
  }

  lemma TenGoBack(w: World)
    requires 0 in w.payments && 0 in w.bookings && w.payments[0] == Charge(PayoutCompleted) && w.bookings[0] == BOOKING
    requires CanSettle(w, 0) && w.disputes[0].booking == 0
    ensures
      var w' := Settle(w, 0, ToRefund, None, true, 1).w;
      && 0 in w'.payments && w'.batches == w.batches && w'.transfers == w.transfers
      && w'.payments[0].refundedFareAmount == 10 && w'.payments[0].fareAmount == 10
  {
    TenArePlanned(w);
    SharesAreAdded(w, 0, None, 1);
  }

  /** Settling it for the rider refunds the ten that went to the driver: twenty leave a fare of ten. */
  lemma RefundedAfterPayoutExample()
    ensures
      var w' := Settle(PaidOut(), 0, ToRefund, None, true, 1).w;
      && 0 in w'.payments
      && w'.payments[0].refundedFareAmount == 10 && w'.payments[0].fareAmount == 10
      && SentSum(w'.transfers, w'.batches, 0) == 10
  {
    PaidOutIsPaid();
    TenGoBack(PaidOut());
  }

  // ---------------------------------------------------------------------------------------------
  // A payout that breaks off
  // ---------------------------------------------------------------------------------------------

  /** Stripe takes ten, the first write after that fails, and the catch block runs. */
  function BrokenOffPayout(): World {
    var w := OneBooking(PayoutEligible, [], 0, [], []);
    Payout(w, 1, [0], Attempt(false, true, 0, {}))
  }

  lemma TenWereSent()
    ensures
      var w := BrokenOffPayout();
      SentSum(w.transfers, w.batches, 0) == 10 && PaidSum(w.batches, 0) == 0
  {
    var w, a := OneBooking(PayoutEligible, [], 0, [], []), Attempt(false, true, 0, {});
    PayoutSends(w, 1, [0], a, 0);
    PayoutPaid(w, 1, [0], a, 0);
  }

  lemma StillEligible()
    ensures 0 in BrokenOffPayout().payments && BrokenOffPayout().payments[0] == Charge(PayoutEligible)
  {
    FailedPayoutStatuses(OneBooking(PayoutEligible, [], 0, [], []), 1, [0], Attempt(false, true, 0, {}), 0);
  }

  /** No batch is completed and the payment is still eligible, so refunding it sends the ten a second time. */
  lemma RefundedAfterBreakingOffExample()
    ensures
      var w := MarkRefunded(BrokenOffPayout(), 0, 1, None, 1);
      && 0 in w.payments && w.payments[0].fareAmount == 10 && w.payments[0].refundedFareAmount == 10
      && SentSum(w.transfers, w.batches, 0) == 10
  {
    TenWereSent();
    StillEligible();
    WholeChargeRefunded();
    RefundTables(BrokenOffPayout(), 0, 1, None, 1);
  }

  lemma WholeChargeRefunded()
    ensures RefundedRow(Charge(PayoutEligible), None, 1).refundedFareAmount == 10
    ensures RefundedRow(Charge(PayoutEligible), None, 1).fareAmount == 10
  {
    RoundedQuotientUnique(10 * 10, 10, 10);
    assert RefundShares(Charge(PayoutEligible), None) == RefundSplit(10, 0);
  }

  // ---------------------------------------------------------------------------------------------
  // The others
  // ---------------------------------------------------------------------------------------------

  /** Stripe refuses a payout of ten, nothing was debited, and the driver's balance rises by ten. */
  lemma RefusedPayoutExample()
    ensures
      var w := OneBooking(PayoutEligible, [], 0, [], []);
      Balance(Payout(w, 1, [0], Attempt(false, false, 0, {})), 1) == Balance(w, 1) + 10
  {
    var w := OneBooking(PayoutEligible, [], 0, [], []);
    assert [0][..0] == [];
    assert NetTotal(w.payments, [0]) == 10;
    CompensationIsExactIff(w, 1, [0], Attempt(false, false, 0, {}));
  }

  /** A refund of three reported twice, by the call and by Stripe's webhook, takes six off the driver's fare. */
  lemma RepeatedRefundExample()
    ensures
      var once := MarkRefunded(OneBooking(PayoutEligible, [], 0, [], []), 0, 1, Some(3), 0);
      var twice := MarkRefunded(once, 0, 1, Some(3), 0);
      && 0 in once.payments && once.payments[0].refundedFareAmount == 3
      && 0 in twice.payments && twice.payments[0].refundedFareAmount == 6
  {
    var w := OneBooking(PayoutEligible, [], 0, [], []);
    RoundedQuotientUnique(3 * 10, 10, 3);
    assert RefundShares(Charge(PayoutEligible), Some(3)) == RefundSplit(3, 0);
    ReplayIsHarmlessIff(w, 0, 1, Some(3), 0);
  }

  /** A half refund of ten leaves five to pay. */
  lemma HalfRefund()
    ensures
      var out := Settle(OneBooking(HeldInEscrow, [], 0, [], []), 0, ToSplit, Some(50.0), true, 0);
      && !out.threw && out.payoutAmount == 5 && CanSettle(out.w, 1) && out.w.disputes[1].booking == 0
      && 0 in out.w.payments && out.w.payments[0] == Charge(PayoutEligible).(
           payoutEligibleAt := Some(0), refundedFareAmount := 5)
      && ExistingRefund(out.w.bookings[0])
  {
    var w := OneBooking(HeldInEscrow, [], 0, [], []);
    PlanOf(w, false, Some(50.0), 50, 5);
    assert CanSettle(w, 0);
    SettledByRefundRow(w, 0, false, Some(50.0), true, 0);
  }

  /**
   * Splitting the second dispute of that booking half and half again refunds nothing, announces nothing
   * to the driver, and ends the payment with the five still on its row.
   */
  lemma SecondSettlementExample()
    ensures
      var first := Settle(OneBooking(HeldInEscrow, [], 0, [], []), 0, ToSplit, Some(50.0), true, 0);
      var second := Settle(first.w, 1, ToSplit, Some(50.0), true, 1);
      && !second.threw && second.payoutAmount == 0
      && 0 in second.w.payments && NetFare(second.w.payments[0]) == 5 && second.w.payments[0].status == Refunded
  {
    var w1 := Settle(OneBooking(HeldInEscrow, [], 0, [], []), 0, ToSplit, Some(50.0), true, 0).w;
    HalfRefund();
    PlanOf(w1, false, Some(50.0), 50, 5);
    SettledByRefundRow(w1, 1, false, Some(50.0), true, 1);
  }

  /** A captured charge: refunds of it go through Stripe. */
  const CAPTURED := BOOKING.(stripeIntent := Some(7), paymentCapturedAt := Some(0))

  function CapturedCharge(): World {
    OneBooking(HeldInEscrow, [], 0, [], []).(bookings := map[0 := CAPTURED])
  }

  lemma TenAreRefundable(w: World)
    requires 0 in w.bookings && 0 in w.payments && !ExistingRefund(w.bookings[0])
    requires w.payments[0].amountTotal == 10 && w.payments[0].fareAmount == 10
    ensures Issues(w.bookings[0], PlanRefund(w, 0, true, None))
  {
    assert PlanRefund(w, 0, true, None).refund == 10 by { PlanOf(w, true, None, 100, 10); }
  }

  lemma CapturedIsSettleable()
    ensures
      var w := CapturedCharge();
      CanSettle(w, 0) && w.disputes[0].booking == 0 && ChargesSound(w) && CallsStripe(w.bookings[0])
  {
  }

  /** Stripe refuses the refund of ten; retried, the dispute closes as refunded and nothing went back. */
  lemma RefusedRefundExample()
    ensures
      var refused := Settle(CapturedCharge(), 0, ToRefund, None, false, 0);
      var retried := SettleOne(refused.w, Call(0, ToRefund, None, true, 1));
      && refused.threw
      && 0 in retried.disputes && retried.disputes[0].status == ResolvedRefund
      && RefundsBooked(retried, 0) == 0
  {
    CapturedIsSettleable();
    TenAreRefundable(CapturedCharge());
    assert RefundsBooked(CapturedCharge(), 0) == 0;
    RefusedRefundIsNeverResent(CapturedCharge(), 0, true, None, 0, [], Call(0, ToRefund, None, true, 1));
  }

  lemma SplitInThirty()
    ensures
      var w := CapturedCharge();
      var out := Settle(w, 0, ToSplit, Some(30.0), true, 0);
      && CanSettle(w, 0) && GoesThrough(w, 0, ToSplit, true) && out.payoutAmount == 7
      && PlanRefund(w, 0, false, Some(30.0)).refund == 3 && PlanRefund(w, 0, false, Some(30.0)).split.fare == 3
  {
    var w := CapturedCharge();
    PlanOf(w, false, Some(30.0), 30, 3);
    assert CanSettle(w, 0);
    ComesToRest(w, 0, ToSplit, Some(30.0), true, 0);
  }

  /** A split refunds three of ten and announces seven; the webhook for those three leaves the driver four. */
  lemma OwnWebhookExample()
    ensures
      var w := CapturedCharge();
      && CanSettle(w, 0) && Settle(w, 0, ToSplit, Some(30.0), true, 0).payoutAmount == 7
      && var ps := AfterOwnWebhook(w, 0, Some(30.0), true, 0, 7, 1).payments;
      0 in ps && NetFare(ps[0]) == 4
  {
    SplitInThirty();
    OwnWebhookKeepsPromiseIff(CapturedCharge(), 0, Some(30.0), true, 0, 7, 1);
  }

  /** A charge that was never received becomes payable when its dispute is settled for the driver. */
  lemma SettledUnreceivedExample()
    ensures
      var w' := Settle(OneBooking(Created, [], 0, [], []), 0, ToPayout, None, true, 0).w;
      && 0 in w'.payments && w'.payments[0].status == PayoutEligible && NetFare(w'.payments[0]) == 10
      && w'.ledger == []
  {
    assert CanSettle(OneBooking(Created, [], 0, [], []), 0);
  }
}
