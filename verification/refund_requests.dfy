/** What a settlement asks of Stripe and stamps on the booking, against what it announces and books. */
module RefundRequests {
  import opened Money
  import opened Tables
  import opened Ledger
  import opened Payments
  import opened Settlement
  import opened MoneyRuns
  import opened SettlementLaws

  /** The booking was charged through Stripe, and no refund of it is on record. */
  predicate CapturedOnly(row: Booking) {
    && row.stripeIntent != None && row.paymentCapturedAt != None
    && row.refundedAt == None && row.refundAmount in {None, Some(0)}
  }

  /**
   * A settlement sends Stripe one request, for its own booking and of exactly the refund it announces,
   * when it refunds or splits a captured charge without an earlier refund and there is something to
   * refund; otherwise none. It throws when Stripe refuses, or when it would pay a fully refunded booking.
   */
  lemma AsksForWhatItAnnounces(
    w: World, d: Id, resolution: Resolution, percent: Option<real>, ok: bool, now: int)
    requires CanSettle(w, d)
    ensures
      var b, out := w.disputes[d].booking, Settle(w, d, resolution, percent, ok, now);
      var asks := out.refundAmount > 0 && CapturedOnly(w.bookings[b]);
      && out.w.stripeRefunds == w.stripeRefunds + (if asks then [StripeRefund(b, out.refundAmount, ok)] else [])
      && (out.threw <==> || (asks && !ok)
                         || (resolution == ToPayout && w.bookings[b].refundPercent.GetOr(0) >= 100
                             && (w.bookings[b].refundedAt != None || w.bookings[b].refundAmount !in {None, Some(0)})))
  {
    match resolution
    case ToEscalation =>
    case ToPayout =>
    case ToRefund => AsksByRefund(w, d, true, percent, ok, now);
    case ToSplit => AsksByRefund(w, d, false, percent, ok, now);
  }

  lemma FinishAsksNothing(w: World, b: Id, full: bool, plan: Plan, now: int)
    requires b in w.bookings
    ensures FinishPayment(FinishRefund(w, b, plan, now), b, full, plan, now).stripeRefunds == w.stripeRefunds
  {
  }

  lemma AsksByRefund(w: World, d: Id, full: bool, percent: Option<real>, ok: bool, now: int)
    requires CanSettle(w, d)
    ensures
      var b, out := w.disputes[d].booking, SettleByRefund(w, d, full, percent, ok, now);
      var asks := out.refundAmount > 0 && CapturedOnly(w.bookings[b]);
      && out.w.stripeRefunds == w.stripeRefunds + (if asks then [StripeRefund(b, out.refundAmount, ok)] else [])
      && (out.threw <==> asks && !ok)
  {
    var b := w.disputes[d].booking;
    var plan := PlanRefund(w, b, full, percent);
    if Issues(w.bookings[b], plan) && (CallsStripe(w.bookings[b]) ==> ok) {
      var begun := BeginRefund(w, b, plan, full);
      FinishAsksNothing(if CallsStripe(w.bookings[b]) then RequestRefund(begun, b, plan, true) else begun,
                        b, full, plan, now);
    }
  }

  /** What a charge is taken to be: the payment's total, else what the booking says was paid, else its price. */
  predicate IsCharge(w: World, b: Id, charge: int) {
    && b in w.bookings
    && (b in w.payments ==> charge == w.payments[b].amountTotal)
    && (b !in w.payments && w.bookings[b].paymentAmount != None ==> Some(charge) == w.bookings[b].paymentAmount)
    && (b !in w.payments && w.bookings[b].paymentAmount == None ==> charge == w.bookings[b].totalPrice)
  }

  /**
   * The announced refund: the whole charge for a refund; for a split the given percentage of it to the
   * nearest cent, half of it when none is given.
   */
  lemma AnnouncedRefund(
    w: World, d: Id, resolution: Resolution, percent: Option<real>, ok: bool, now: int, charge: int)
    requires CanSettle(w, d) && IsCharge(w, w.disputes[d].booking, charge) && 0 <= charge
    ensures
      var out := Settle(w, d, resolution, percent, ok, now);
      && (resolution == ToRefund ==> out.refundAmount == charge)
      && (resolution == ToSplit && percent == None ==> charge <= 2 * out.refundAmount <= charge + 1)
      && (resolution == ToSplit && percent != None ==>
            out.refundAmount == PercentOf(charge, ClampRefundPercent(percent, 0)))
      && (resolution in {ToPayout, ToEscalation} ==> out.refundAmount == 0)
  {
    PercentOfBounds(charge, 100);
    PercentOfIsNearest(charge, 50, PercentOf(charge, 50));
  }

  /**
   * Without a payment row the charge is the whole basis: a refund announces nothing for the driver and a
   * split the rest; a payout or an escalation announces the segment fare, else the price.
   */
  lemma AnnouncedWithoutAPayment(
    w: World, d: Id, resolution: Resolution, percent: Option<real>, ok: bool, now: int, charge: int)
    requires CanSettle(w, d) && w.disputes[d].booking !in w.payments
    requires IsCharge(w, w.disputes[d].booking, charge) && 0 <= charge
    ensures
      var row, out := w.bookings[w.disputes[d].booking], Settle(w, d, resolution, percent, ok, now);
      if resolution in {ToRefund, ToSplit} then out.refundAmount + out.payoutAmount == charge
      else out.payoutAmount == row.segmentFare.GetOr(row.totalPrice)
  {
    var b := w.disputes[d].booking;
    if resolution in {ToRefund, ToSplit} {
      var plan := PlanRefund(w, b, resolution == ToRefund, percent);
      PercentOfBounds(charge, plan.percent);
      RefundSplitIsExact(charge, charge, plan.refund);
      RefundSplitIsProportionate(charge, charge, plan.refund);
    }
  }

  // ---------------------------------------------------------------------------------------------
  // The booking
  // ---------------------------------------------------------------------------------------------

  /**
   * What a settlement leaves on the booking. The first refund stamps its amount, cancels the booking or
   * marks it disputed, and is dated once it went through; a payout completes a disputed booking. No
   * other booking changes.
   */
  lemma SettledBooking(w: World, d: Id, resolution: Resolution, percent: Option<real>, ok: bool, now: int)
    requires CanSettle(w, d)
    ensures
      var b, out := w.disputes[d].booking, Settle(w, d, resolution, percent, ok, now);
      var row := w.bookings[b];
      var first := out.refundAmount > 0 && row.refundedAt == None && row.refundAmount in {None, Some(0)};
      && b in out.w.bookings && out.w.bookings == w.bookings[b := out.w.bookings[b]]
      && var row' := out.w.bookings[b];
      && row'.driver == row.driver && row'.stripeIntent == row.stripeIntent
      && row'.paymentCapturedAt == row.paymentCapturedAt && row'.completedAt == row.completedAt
      && row'.refundAmount == (if first then Some(out.refundAmount) else row.refundAmount)
      && row'.refundedAt == (if first && !out.threw then Some(now) else row.refundedAt)
      && row'.status == (if first then (if resolution == ToRefund then Cancelled else Disputed)
                         else if resolution == ToPayout && !out.threw && row.status == Disputed then Completed
                         else row.status)
  {
    match resolution
    case ToEscalation =>
    case ToPayout =>
    case ToRefund => BookingByRefund(w, d, true, percent, ok, now);
    case ToSplit => BookingByRefund(w, d, false, percent, ok, now);
  }

  lemma FinishedBookings(w: World, b: Id, full: bool, plan: Plan, now: int)
    requires b in w.bookings
    ensures FinishPayment(FinishRefund(w, b, plan, now), b, full, plan, now).bookings
         == w.bookings[b := w.bookings[b].(refundedAt := Some(now))]
  {
  }

  lemma BookingByRefund(w: World, d: Id, full: bool, percent: Option<real>, ok: bool, now: int)
    requires CanSettle(w, d)
    ensures
      var b, out := w.disputes[d].booking, SettleByRefund(w, d, full, percent, ok, now);
      var plan := PlanRefund(w, b, full, percent);
      && out.refundAmount == plan.refund
      && out.w.bookings == if Issues(w.bookings[b], plan)
                           then w.bookings[b := w.bookings[b].(
                             refundAmount := Some(plan.refund), refundPercent := Some(plan.percent),
                             status := if full then Cancelled else Disputed,
                             refundedAt := if out.threw then w.bookings[b].refundedAt else Some(now))]
                           else w.bookings
  {
    var b := w.disputes[d].booking;
    var plan := PlanRefund(w, b, full, percent);
    if Issues(w.bookings[b], plan) && (CallsStripe(w.bookings[b]) ==> ok) {
      var begun := BeginRefund(w, b, plan, full);
      FinishedBookings(if CallsStripe(w.bookings[b]) then RequestRefund(begun, b, plan, true) else begun,
                       b, full, plan, now);
    }
  }

  // ---------------------------------------------------------------------------------------------
  // Stripe against the ledger, over sequences of settlements
  // ---------------------------------------------------------------------------------------------

  /** What Stripe agreed to send back for a booking. */
  function AcceptedRefunds(refunds: seq<StripeRefund>, b: Id): int {
    if refunds == [] then 0
    else
      var r := refunds[|refunds| - 1];
      AcceptedRefunds(refunds[..|refunds| - 1], b) + if r.booking == b && r.accepted then r.amountMinor else 0
  }

  lemma AcceptedPush(refunds: seq<StripeRefund>, r: StripeRefund, b: Id)
    ensures AcceptedRefunds(refunds + [r], b)
         == AcceptedRefunds(refunds, b) + if r.booking == b && r.accepted then r.amountMinor else 0
  {
    assert (refunds + [r])[..|refunds|] == refunds;
  }

  function BookedRefunds(w: World, b: Id): int {
    Sum(w.ledger, OfPayment(b), RefundedToRider)
  }

  /** Refunds of the booking are sent through Stripe, and it has a payment to book them on. */
  predicate ThroughStripe(w: World, b: Id) {
    b in w.bookings && b in w.payments && w.bookings[b].stripeIntent != None && w.bookings[b].paymentCapturedAt != None
  }

  lemma BookedBySettlement(w: World, c: Call, b: Id)
    requires CanSettle(w, c.d) && ChargesSound(w)
    ensures
      var own, out := w.disputes[c.d].booking, Settle(w, c.d, c.resolution, c.percent, c.ok, c.now);
      BookedRefunds(out.w, b)
      == BookedRefunds(w, b)
         + if own == b && b in w.payments && Refunds(w, own, c.resolution, c.percent, c.ok)
           then out.refundAmount else 0
  {
    var own := w.disputes[c.d].booking;
    var plan := PlanRefund(w, own, c.resolution == ToRefund, c.percent);
    SettledLedger(w, c.d, c.resolution, c.percent, c.ok, c.now);
    if own in w.payments {
      PlanIsSound(w, own, c.resolution == ToRefund, c.percent);
      var rider, driver := w.payments[own].rider, w.bookings[own].driver;
      SumAppend(w.ledger, RefundGroup(w.groups, own, rider, driver, plan.refund, plan.split),
                OfPayment(b), RefundedToRider);
      RefundBooks(w.groups, own, rider, driver, plan.refund, plan.split, OfPayment(b), RefundedToRider);
    }
  }

  lemma StaysThroughStripe(w: World, c: Call, b: Id)
    requires ThroughStripe(w, b)
    ensures ThroughStripe(SettleOne(w, c), b)
  {
    if CanSettle(w, c.d) {
      SettledBooking(w, c.d, c.resolution, c.percent, c.ok, c.now);
      SettledLedger(w, c.d, c.resolution, c.percent, c.ok, c.now);
      if w.disputes[c.d].booking in w.payments {
        SettledPayments(w, c.d, c.resolution, c.percent, c.ok, c.now);
      }
    }
  }

  lemma GoesThroughWhenAccepted(w: World, c: Call)
    requires CanSettle(w, c.d) && ThroughStripe(w, w.disputes[c.d].booking)
    ensures
      var b, out := w.disputes[c.d].booking, Settle(w, c.d, c.resolution, c.percent, c.ok, c.now);
      Refunds(w, b, c.resolution, c.percent, c.ok) <==> out.refundAmount > 0 && CapturedOnly(w.bookings[b]) && c.ok
  {
  }

  lemma AcceptedBySettlement(w: World, c: Call, b: Id)
    requires CanSettle(w, c.d)
    ensures
      var own, out := w.disputes[c.d].booking, Settle(w, c.d, c.resolution, c.percent, c.ok, c.now);
      AcceptedRefunds(out.w.stripeRefunds, b)
      == AcceptedRefunds(w.stripeRefunds, b)
         + if own == b && out.refundAmount > 0 && CapturedOnly(w.bookings[own]) && c.ok then out.refundAmount else 0
  {
    var own, out := w.disputes[c.d].booking, Settle(w, c.d, c.resolution, c.percent, c.ok, c.now);
    AsksForWhatItAnnounces(w, c.d, c.resolution, c.percent, c.ok, c.now);
    AcceptedPush(w.stripeRefunds, StripeRefund(own, out.refundAmount, c.ok), b);
    assert w.stripeRefunds + [] == w.stripeRefunds;
  }

  lemma StripeMatchesOnce(w: World, c: Call, b: Id)
    requires ThroughStripe(w, b) && ChargesSound(w)
    ensures
      var w' := SettleOne(w, c);
      AcceptedRefunds(w'.stripeRefunds, b) - AcceptedRefunds(w.stripeRefunds, b)
      == BookedRefunds(w', b) - BookedRefunds(w, b)
  {
    if CanSettle(w, c.d) {
      AcceptedBySettlement(w, c, b);
      BookedBySettlement(w, c, b);
      if w.disputes[c.d].booking == b {
        GoesThroughWhenAccepted(w, c);
      }
    }
  }

  /**
   * Over any sequence of settlements of any disputes, what Stripe agreed to send back for a booking
   * charged through it is what the ledger credits its rider, cent for cent.
   */
  lemma {:induction false} StripeMatchesTheLedger(w: World, calls: seq<Call>, b: Id)
    requires ThroughStripe(w, b) && ChargesSound(w)
    ensures
      var w' := SettleAll(w, calls);
      AcceptedRefunds(w'.stripeRefunds, b) - AcceptedRefunds(w.stripeRefunds, b)
      == BookedRefunds(w', b) - BookedRefunds(w, b)
    decreases |calls|
  {
    if calls != [] {
      var w1 := SettleOne(w, calls[0]);
      StripeMatchesOnce(w, calls[0], b);
      StaysThroughStripe(w, calls[0], b);
      SettleKeepsCharges(w, calls[0]);
      StripeMatchesTheLedger(w1, calls[1..], b);
    }
  }

  // ---------------------------------------------------------------------------------------------
  // Webhooks against settlements
  // ---------------------------------------------------------------------------------------------

  /**
   * A refund webhook stamps exactly the bookings of its payment intent. One that names an amount or is
   * settled counts as an earlier refund: no later settlement ever asks Stripe to refund such a booking,
   * nor books a refund of it.
   */
  lemma WebhookStopsSettlementRefunds(
    w: World, intent: Id, found: Option<Id>, amount: Option<int>, settled: bool, now: int, b: Id, calls: seq<Call>)
    requires FoundBy(w, intent, found) && b in w.bookings && ChargesSound(w)
    requires amount.GetOr(0) >= 0
    ensures
      var w1 := RefundWebhook(w, intent, found, amount, settled, now);
      var row, own := w.bookings[b], w.bookings[b].stripeIntent == Some(intent);
      && b in w1.bookings
      && (if own then w1.bookings[b] == row.(refundAmount := amount,
                                             refundedAt := if settled then Some(now) else row.refundedAt)
          else w1.bookings[b] == row)
      && (!settled ==> w1.payments == w.payments && w1.ledger == w.ledger)
      && (own && (settled || amount !in {None, Some(0)}) ==>
            && StripeAsked(SettleAll(w1, calls).stripeRefunds, b) == StripeAsked(w.stripeRefunds, b)
            && RefundsBooked(SettleAll(w1, calls), b) == RefundsBooked(w1, b))
  {
    var w1 := RefundWebhook(w, intent, found, amount, settled, now);
    assert b in IntentIds(w, intent) <==> w.bookings[b].stripeIntent == Some(intent);
    WebhookKeepsCharges(w, intent, found, amount, settled, now);
    AtMostOneRefundPerBooking(w1, calls, b);
  }

  lemma WebhookKeepsCharges(
    w: World, intent: Id, found: Option<Id>, amount: Option<int>, settled: bool, now: int)
    requires FoundBy(w, intent, found) && ChargesSound(w) && amount.GetOr(0) >= 0
    ensures ChargesSound(RefundWebhook(w, intent, found, amount, settled, now))
    ensures RefundWebhook(w, intent, found, amount, settled, now).stripeRefunds == w.stripeRefunds
  {
    if found.Some? && found.value in w.payments {
      var row := w.payments[found.value];
      RefundSplitIsExact(row.amountTotal, row.fareAmount, EffectiveRefund(row, amount));
    }
  }
}
