/** What a settlement announces, against what a later payout transfers. */
module SettlementRuns {
  import opened Money
  import opened Tables
  import opened Ledger
  import opened Payments
  import opened Payouts
  import opened Settlement
  import opened MoneyRuns
  import opened MoneyTheorems
  import opened Progress
  import opened SettlementLaws

  /** Where a split or a refund leaves a payment. */
  predicate AtRest(s: PaymentStatus) {
    s == PayoutEligible || s == Refunded
  }

  lemma DeliverRests(w: World, e: nat, now: int, p: Id)
    requires e < |w.outbox| && p in w.payments && AtRest(w.payments[p].status)
    ensures p in Deliver(w, e, now).payments && Deliver(w, e, now).payments[p] == w.payments[p]
  {
    DeliverTables(w, e, now);
    HandleRow(w, w.outbox[e].payload, now, p);
  }

  lemma {:induction false} DeliverAllRests(w: World, sel: seq<nat>, now: int, p: Id)
    requires forall k | 0 <= k < |sel| :: sel[k] < |w.outbox|
    requires p in w.payments && AtRest(w.payments[p].status)
    ensures p in DeliverAll(w, sel, now).payments && DeliverAll(w, sel, now).payments[p] == w.payments[p]
  {
    if sel != [] {
      var front := sel[..|sel| - 1];
      DeliverAllRests(w, front, now, p);
      DeliverRests(DeliverAll(w, front, now), sel[|sel| - 1], now, p);
    }
  }

  lemma SettleElsewhere(
    w: World, d: Id, resolution: Resolution, percent: Option<real>, ok: bool, now: int, p: Id)
    requires p in w.payments && Writes(w, SettleStep(d, resolution, percent, ok, now), p) == []
    ensures
      var ps := Settle(w, d, resolution, percent, ok, now).w.payments;
      p in ps && ps[p] == w.payments[p]
  {
    if CanSettle(w, d) {
      if w.disputes[d].booking in w.payments {
        SettledPayments(w, d, resolution, percent, ok, now);
      } else {
        SettledLedger(w, d, resolution, percent, ok, now);
      }
    }
  }

  lemma CallLeavesRow(w: World, s: Step, p: Id)
    requires Enabled(w, s) && p in w.payments && AtRest(w.payments[p].status) && !CalledFor(w, s, p)
    requires s.CreateStep? || s.MarkStep? || s.PaidStep? || s.RefundStep? || s.WebhookStep?
    ensures p in Apply(w, s).payments && Apply(w, s).payments[p] == w.payments[p]
  {
    match s
    case PaidStep(q, driver) => BookingPaidRows(w, q, driver);
    case RefundStep(q, driver, amount, now) => RefundElsewhere(w, q, driver, AsInt(amount), now, p);
    case WebhookStep(intent, found, amount, settled, now) =>
      if found.Some? {
        var w1 := Stamped(w, intent, AsInt(amount), settled, now);
        RefundElsewhere(w1, found.value, w.bookings[found.value].driver, AsInt(amount), now, p);
      }
    case _ =>
  }

  lemma RefundElsewhere(w: World, q: Id, driver: Id, amount: Option<int>, now: int, p: Id)
    requires p in w.payments && q != p
    ensures
      var ps := MarkRefunded(w, q, driver, amount, now).payments;
      p in ps && ps[p] == w.payments[p]
  {
  }

  /** A step that is not made for a resting payment leaves its row as it is. */
  lemma StepLeavesRow(w: World, s: Step, p: Id)
    requires Enabled(w, s) && p in w.payments && AtRest(w.payments[p].status) && !CalledFor(w, s, p)
    ensures p in Apply(w, s).payments && Apply(w, s).payments[p] == w.payments[p]
  {
    if s.CreateStep? || s.MarkStep? || s.PaidStep? || s.RefundStep? || s.WebhookStep? {
      CallLeavesRow(w, s, p);
    } else {
      match s
      case OutboxStep(batchSize, now) => DeliverAllRests(w, SelectDue(w.outbox, 0, batchSize, now), now, p);
      case EligibleStep(_, now) => DeliverAllRests(w, SelectDue(w.outbox, 0, ELIGIBILITY_BATCH, now), now, p);
      case PayoutStep(driver, rows, a) =>
        SelectedRows(w, driver, rows);
        PayoutRows(w, driver, rows, a);
      case SettleStep(d, resolution, percent, ok, now) => SettleElsewhere(w, d, resolution, percent, ok, now, p);
      case _ =>
    }
  }

  lemma {:induction false} RunLeavesRow(w: World, steps: seq<Step>, p: Id)
    requires IsRun(w, steps) && p in w.payments && AtRest(w.payments[p].status) && !Meets(CallsFor, w, steps, p)
    ensures p in Run(w, steps).payments && Run(w, steps).payments[p] == w.payments[p]
    decreases |steps|
  {
    if steps != [] {
      StepLeavesRow(w, steps[0], p);
      RunLeavesRow(Apply(w, steps[0]), steps[1..], p);
    }
  }

  /** A settlement that goes through: the first refund or split of a charge, or a payout that is not refused. */
  predicate GoesThrough(w: World, d: Id, resolution: Resolution, ok: bool)
    requires CanSettle(w, d)
  {
    var b := w.disputes[d].booking;
    && b in w.payments && resolution != ToEscalation
    && (if resolution == ToPayout then
          !(ExistingRefund(w.bookings[b]) && w.bookings[b].refundPercent.GetOr(0) >= 100)
        else FreshCharge(w, b) && (CallsStripe(w.bookings[b]) ==> ok))
  }

  /** Selectable with what it announced, or refunded when a refund or split announced nothing. */
  lemma ComesToRest(w: World, d: Id, resolution: Resolution, percent: Option<real>, ok: bool, now: int)
    requires CanSettle(w, d) && GoesThrough(w, d, resolution, ok)
    ensures
      var b, out := w.disputes[d].booking, Settle(w, d, resolution, percent, ok, now);
      && b in out.w.payments
      && out.payoutAmount == NetFare(out.w.payments[b])
      && out.w.payments[b].status
         == (if resolution == ToPayout || out.payoutAmount > 0 then PayoutEligible else Refunded)
  {
    match resolution
    case ToPayout =>
    case ToRefund =>
      SettlementConservesMoney(w, d, ToRefund, percent, ok, now);
      SettledByRefundRow(w, d, true, percent, ok, now);
    case ToSplit =>
      SettlementConservesMoney(w, d, ToSplit, percent, ok, now);
      SettledByRefundRow(w, d, false, percent, ok, now);
  }

  lemma PayoutTransfersTheNetFare(w: World, driver: Id, rows: seq<Id>, a: Attempt, b: Id)
    requires IsListing(rows, SelectedIds(w, driver)) && Succeeds(w, driver, rows, a)
    ensures forall p | p in rows :: p in w.payments
    ensures
      var paid := Payout(w, driver, rows, a);
      var amount := if b in rows then NetFare(w.payments[b]) else 0;
      && PaidSum(paid.batches, b) == PaidSum(w.batches, b) + amount
      && Sum(paid.ledger, OfPayment(b), Transfers) == Sum(w.ledger, OfPayment(b), Transfers) + amount
  {
    SelectedRows(w, driver, rows);
    PayoutPaid(w, driver, rows, a, b);
    assert rows[..|rows|] == rows;
    PayoutMoves(w, driver, rows, a, b);
  }

  /** A payout made after any run in which no call is made for a resting payment. */
  lemma PayoutOfTheRested(w: World, steps: seq<Step>, b: Id, driver: Id, rows: seq<Id>, a: Attempt)
    requires b in w.payments && AtRest(w.payments[b].status) && IsRun(w, steps) && !Meets(CallsFor, w, steps, b)
    requires IsListing(rows, SelectedIds(Run(w, steps), driver)) && Succeeds(Run(w, steps), driver, rows, a)
    ensures
      var w' := Run(w, steps);
      && (forall p | p in rows :: p in w'.payments)
      && (b in rows <==>
            && w.payments[b].status == PayoutEligible && !w'.HasOpenDispute(b)
            && b in w'.bookings && w'.bookings[b].driver == driver)
      && Pays(w', driver, rows, a, b, if b in rows then NetFare(w.payments[b]) else 0)
  {
    RunLeavesRow(w, steps, b);
    PayoutTransfersTheNetFare(Run(w, steps), driver, rows, a, b);
    assert b in rows <==> b in SelectedIds(Run(w, steps), driver);
  }

  /** A payout completes and debits an amount of a payment. */
  predicate Pays(w: World, driver: Id, rows: seq<Id>, a: Attempt, b: Id, amount: int)
    requires forall p | p in rows :: p in w.payments
  {
    var paid := Payout(w, driver, rows, a);
    && PaidSum(paid.batches, b) == PaidSum(w.batches, b) + amount
    && Sum(paid.ledger, OfPayment(b), Transfers) == Sum(w.ledger, OfPayment(b), Transfers) + amount
  }

  /**
   * The announced payout is what a later payout transfers for the booking, for a refund, a split and a
   * payout alike. After the settlement any run may follow, as long as no call is made for that payment;
   * then a payout of any driver includes it exactly when the dispute was settled for the driver or
   * something was announced, the booking is that driver's, and no dispute of it is open.
   */
  lemma SettlementPredictsPayout(
    w: World, d: Id, resolution: Resolution, percent: Option<real>, ok: bool, now: int, steps: seq<Step>,
    driver: Id, rows: seq<Id>, a: Attempt)
    requires CanSettle(w, d) && GoesThrough(w, d, resolution, ok)
    requires
      var w1 := Settle(w, d, resolution, percent, ok, now).w;
      && IsRun(w1, steps) && !Meets(CallsFor, w1, steps, w.disputes[d].booking)
      && IsListing(rows, SelectedIds(Run(w1, steps), driver)) && Succeeds(Run(w1, steps), driver, rows, a)
    ensures
      var b, out := w.disputes[d].booking, Settle(w, d, resolution, percent, ok, now);
      var w2 := Run(out.w, steps);
      && (forall p | p in rows :: p in w2.payments)
      && (b in rows <==>
            && (resolution == ToPayout || out.payoutAmount > 0) && !w2.HasOpenDispute(b)
            && b in w2.bookings && w2.bookings[b].driver == driver)
      && Pays(w2, driver, rows, a, b, if b in rows then out.payoutAmount else 0)
  {
    ComesToRest(w, d, resolution, percent, ok, now);
    PayoutOfTheRested(Settle(w, d, resolution, percent, ok, now).w, steps, w.disputes[d].booking, driver, rows, a);
  }

  // ---------------------------------------------------------------------------------------------
  // Stripe's webhook for the settlement's own refund
  // ---------------------------------------------------------------------------------------------

  /** Half a charge or more takes at least half of its fare: the rounding goes up. */
  lemma HalfTakesHalfTheFare(total: int, fare: int, refund: int)
    requires 0 <= fare <= total && 0 < refund && total <= 2 * refund && 0 < total
    ensures 2 * ResolveRefundSplit(total, fare, refund).fare >= fare
  {
    var share := ResolveRefundSplit(total, fare, refund).fare;
    ScaleOrder(fare, total, 2 * refund);
    assert fare * (2 * refund) == 2 * (refund * fare) && fare * total == total * fare;
    assert total * (2 * share) == 2 * (total * share) && total * (fare - 1) == total * fare - total;
    if 2 * share < fare - 1 {
      ScaleStep(total, 2 * share, fare - 1);
    }
  }

  /** A split's refund row, refunded a second time by the same amount. */
  lemma SecondShare(row: Payment, plan: Plan, at: Option<int>, later: int)
    requires ChargeSound(row) && row.refundedFareAmount == 0 && row.refundedFeeAmount == 0
    requires 0 < plan.refund <= row.amountTotal && plan.payoutAmount == Max(0, row.fareAmount - plan.split.fare)
    requires plan.split == ResolveRefundSplit(row.amountTotal, row.fareAmount, plan.refund) && plan.payoutAmount > 0
    ensures
      var after := RefundedRow(SettledRow(row, plan.split, PayoutEligible, at), Some(plan.refund), later);
      && NetFare(after) == Max(0, plan.payoutAmount - plan.split.fare)
      && after.status == (if NetFare(after) > 0 then PayoutEligible else Refunded)
  {
    RefundSplitIsExact(row.amountTotal, row.fareAmount, plan.refund);
    if row.amountTotal <= 2 * plan.refund {
      HalfTakesHalfTheFare(row.amountTotal, row.fareAmount, plan.refund);
    }
  }

  /** The world after the webhook that reports a split's own refund as settled. */
  function AfterOwnWebhook(
    w: World, d: Id, percent: Option<real>, ok: bool, now: int, intent: Id, later: int): World
    requires CanSettle(w, d) && w.bookings[w.disputes[d].booking].stripeIntent == Some(intent)
  {
    var b, w1 := w.disputes[d].booking, Settle(w, d, ToSplit, percent, ok, now).w;
    SplitKeepsIntent(w, d, percent, ok, now);
    RefundWebhook(w1, intent, Some(b), Some(PlanRefund(w, b, false, percent).refund), true, later)
  }

  lemma SplitKeepsIntent(w: World, d: Id, percent: Option<real>, ok: bool, now: int)
    requires CanSettle(w, d)
    ensures
      var b, w1 := w.disputes[d].booking, Settle(w, d, ToSplit, percent, ok, now).w;
      b in w1.bookings && w1.bookings[b].stripeIntent == w.bookings[b].stripeIntent
  {
    RefundMovesNoMoney(w, d, false, percent, ok, now);
  }

  lemma WebhookRow(w: World, intent: Id, b: Id, amount: int, now: int)
    requires FoundBy(w, intent, Some(b)) && b in w.payments
    ensures
      var ps, row := RefundWebhook(w, intent, Some(b), Some(amount), true, now).payments, w.payments[b];
      b in ps && ps[b] == if Refundable(row.status) then RefundedRow(row, Some(amount), now) else row
  {
  }

  lemma OwnWebhookRow(w: World, d: Id, percent: Option<real>, ok: bool, now: int, intent: Id, later: int)
    requires CanSettle(w, d) && GoesThrough(w, d, ToSplit, ok)
    requires w.bookings[w.disputes[d].booking].stripeIntent == Some(intent)
    requires PlanRefund(w, w.disputes[d].booking, false, percent).refund > 0
    ensures
      var b, out := w.disputes[d].booking, Settle(w, d, ToSplit, percent, ok, now);
      var ps := AfterOwnWebhook(w, d, percent, ok, now, intent, later).payments;
      var share := PlanRefund(w, b, false, percent).split.fare;
      && b in ps
      && NetFare(ps[b]) == (if out.payoutAmount > 0 then Max(0, out.payoutAmount - share) else 0)
      && ps[b].status == (if NetFare(ps[b]) > 0 then PayoutEligible else Refunded)
  {
    var b, out := w.disputes[d].booking, Settle(w, d, ToSplit, percent, ok, now);
    var row, plan := w.payments[b], PlanRefund(w, b, false, percent);
    ComesToRest(w, d, ToSplit, percent, ok, now);
    SettledPayments(w, d, ToSplit, percent, ok, now);
    PlanIsSound(w, b, false, percent);
    SplitKeepsIntent(w, d, percent, ok, now);
    WebhookRow(out.w, intent, b, plan.refund, later);
    if out.payoutAmount > 0 {
      SecondShare(row, plan, out.w.payments[b].payoutEligibleAt, later);
    }
  }

  /**
   * When Stripe then reports that refund by webhook, its shares count a second time: the driver is left
   * with what was announced exactly when the refund took no fare or nothing was announced, and otherwise
   * with the announced amount less the refund's fare share.
   */
  lemma OwnWebhookKeepsPromiseIff(w: World, d: Id, percent: Option<real>, ok: bool, now: int, intent: Id, later: int)
    requires CanSettle(w, d) && GoesThrough(w, d, ToSplit, ok)
    requires w.bookings[w.disputes[d].booking].stripeIntent == Some(intent)
    requires PlanRefund(w, w.disputes[d].booking, false, percent).refund > 0
    ensures
      var b, out := w.disputes[d].booking, Settle(w, d, ToSplit, percent, ok, now);
      var ps := AfterOwnWebhook(w, d, percent, ok, now, intent, later).payments;
      var share := PlanRefund(w, b, false, percent).split.fare;
      && b in ps
      && (NetFare(ps[b]) == out.payoutAmount <==> share == 0 || out.payoutAmount == 0)
      && (out.payoutAmount > 0 ==> NetFare(ps[b]) == Max(0, out.payoutAmount - share))
  {
    OwnWebhookRow(w, d, percent, ok, now, intent, later);
    PlanIsSound(w, w.disputes[d].booking, false, percent);
  }

  /** And that smaller amount is what a later payout transfers, if any is left. */
  lemma PayoutAfterOwnWebhook(
    w: World, d: Id, percent: Option<real>, ok: bool, now: int, intent: Id, later: int, steps: seq<Step>,
    driver: Id, rows: seq<Id>, a: Attempt)
    requires CanSettle(w, d) && GoesThrough(w, d, ToSplit, ok)
    requires w.bookings[w.disputes[d].booking].stripeIntent == Some(intent)
    requires PlanRefund(w, w.disputes[d].booking, false, percent).refund > 0
    requires
      var w1 := AfterOwnWebhook(w, d, percent, ok, now, intent, later);
      && IsRun(w1, steps) && !Meets(CallsFor, w1, steps, w.disputes[d].booking)
      && IsListing(rows, SelectedIds(Run(w1, steps), driver)) && Succeeds(Run(w1, steps), driver, rows, a)
    ensures
      var b, out := w.disputes[d].booking, Settle(w, d, ToSplit, percent, ok, now);
      var w2 := Run(AfterOwnWebhook(w, d, percent, ok, now, intent, later), steps);
      var left := Max(0, out.payoutAmount - PlanRefund(w, b, false, percent).split.fare);
      && (forall p | p in rows :: p in w2.payments)
      && (b in rows <==> && left > 0 && !w2.HasOpenDispute(b)
                         && b in w2.bookings && w2.bookings[b].driver == driver)
      && Pays(w2, driver, rows, a, b, if b in rows then left else 0)
  {
    var b, w1 := w.disputes[d].booking, AfterOwnWebhook(w, d, percent, ok, now, intent, later);
    OwnWebhookRow(w, d, percent, ok, now, intent, later);
    PlanIsSound(w, b, false, percent);
    PayoutOfTheRested(w1, steps, b, driver, rows, a);
  }
}
