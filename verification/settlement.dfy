/** Dispute settlement: the steps of `settleDispute`, which writes payment statuses without asking the machine. */
module Settlement {
  import opened Money
  import opened Tables
  import opened Ledger
  import opened Payments

  datatype Resolution = ToRefund | ToPayout | ToSplit | ToEscalation

  /** A stored refund time, or a stored amount other than zero, counts as an earlier refund. */
  predicate ExistingRefund(b: Booking) {
    b.refundedAt.Some? || b.refundAmount.GetOr(0) != 0
  }

  function ChargedAmount(w: World, b: Id): int
    requires b in w.bookings
  {
    if b in w.payments then w.payments[b].amountTotal
    else w.bookings[b].paymentAmount.GetOr(w.bookings[b].totalPrice)
  }

  function OwedFare(w: World, b: Id): int
    requires b in w.bookings
  {
    if b in w.payments then NetFare(w.payments[b]) else ChargedAmount(w, b)
  }

  /** The figure announced when no refund is planned. */
  function AnnouncedFare(w: World, b: Id): int
    requires b in w.bookings
  {
    if b in w.payments then NetFare(w.payments[b])
    else w.bookings[b].segmentFare.GetOr(w.bookings[b].totalPrice)
  }

  datatype Plan = Plan(percent: int, refund: int, split: RefundSplit, payoutAmount: int)

  function PlanRefund(w: World, b: Id, full: bool, percent: Option<real>): Plan
    requires b in w.bookings
  {
    var charged := ChargedAmount(w, b);
    var pct := if full then 100 else ClampRefundPercent(percent, 50);
    var refund := PercentOf(charged, pct);
    var fare := if b in w.payments then w.payments[b].fareAmount else charged;
    var split := ResolveRefundSplit(charged, fare, refund);
    Plan(pct, refund, split, Max(0, OwedFare(w, b) - split.fare))
  }

  predicate Issues(b: Booking, plan: Plan) {
    plan.refund > 0 && !ExistingRefund(b)
  }

  predicate CallsStripe(b: Booking) {
    b.stripeIntent.Some? && b.paymentCapturedAt.Some?
  }

  function SetPayment(w: World, b: Id, status: PaymentStatus, eligibleAt: Option<int>): World {
    if b in w.payments then
      w.(payments := w.payments[b := w.payments[b].(status := status, payoutEligibleAt := eligibleAt)])
    else w
  }

  /** The writes made before the refund is sent. */
  function BeginRefund(w: World, b: Id, plan: Plan, full: bool): World
    requires b in w.bookings
  {
    var row := w.bookings[b].(refundAmount := Some(plan.refund), refundPercent := Some(plan.percent),
                              status := if full then Cancelled else Disputed);
    var ps := if b in w.payments then w.payments[b := w.payments[b].(status := RefundPending)] else w.payments;
    w.(bookings := w.bookings[b := row], payments := ps)
  }

  function RequestRefund(w: World, b: Id, plan: Plan, accepted: bool): World {
    w.(stripeRefunds := w.stripeRefunds + [StripeRefund(b, plan.refund, accepted)])
  }

  /** The writes made once the refund went through: the booking stamp, the ledger group, the accumulated shares. */
  function FinishRefund(w: World, b: Id, plan: Plan, now: int): World
    requires b in w.bookings
  {
    var stamped := w.(bookings := w.bookings[b := w.bookings[b].(refundedAt := Some(now))]);
    if b in w.payments then
      var row := w.payments[b];
      AppendGroup(
        stamped.(payments := w.payments[b := row.(
          refundedFareAmount := row.refundedFareAmount + plan.split.fare,
          refundedFeeAmount := row.refundedFeeAmount + plan.split.fee)]),
        RefundGroup(w.groups, b, row.rider, w.bookings[b].driver, plan.refund, plan.split))
    else stamped
  }

  /** The status a refund or a split leaves on the payment. */
  function FinalStatus(full: bool, plan: Plan): PaymentStatus {
    if full || plan.payoutAmount <= 0 then Refunded else PayoutEligible
  }

  function FinishPayment(w: World, b: Id, full: bool, plan: Plan, now: int): World {
    if b !in w.payments then w
    else if full then w.(payments := w.payments[b := w.payments[b].(status := Refunded)])
    else SetPayment(w, b, FinalStatus(full, plan), if plan.payoutAmount > 0 then Some(now) else None)
  }

  function CloseDispute(w: World, d: Id, status: DisputeStatus): World
    requires d in w.disputes
  {
    w.(disputes := w.disputes[d := w.disputes[d].(status := status)])
  }

  /** The tables afterwards, whether the call threw, the payment statuses it wrote in order, and what it announced. */
  datatype Outcome = Outcome(w: World, threw: bool, writes: seq<PaymentStatus>, refundAmount: int, payoutAmount: int)

  function StatusWrites(w: World, b: Id, statuses: seq<PaymentStatus>): seq<PaymentStatus> {
    if b in w.payments then statuses else []
  }

  function SettleByRefund(w: World, d: Id, full: bool, percent: Option<real>, stripeAccepts: bool, now: int): Outcome
    requires d in w.disputes && w.disputes[d].booking in w.bookings
  {
    var b := w.disputes[d].booking;
    var booking := w.bookings[b];
    var plan := PlanRefund(w, b, full, percent);
    var final := FinalStatus(full, plan);
    var closing := if full then ResolvedRefund else ResolvedSplit;
    if Issues(booking, plan) then
      var begun := BeginRefund(w, b, plan, full);
      if CallsStripe(booking) && !stripeAccepts then
        Outcome(RequestRefund(begun, b, plan, false), true, StatusWrites(w, b, [RefundPending]),
                plan.refund, plan.payoutAmount)
      else
        var sent := if CallsStripe(booking) then RequestRefund(begun, b, plan, true) else begun;
        var finished := FinishPayment(FinishRefund(sent, b, plan, now), b, full, plan, now);
        Outcome(CloseDispute(finished, d, closing), false, StatusWrites(w, b, [RefundPending, final]),
                plan.refund, plan.payoutAmount)
    else
      Outcome(CloseDispute(FinishPayment(w, b, full, plan, now), d, closing), false,
              StatusWrites(w, b, [final]), plan.refund, plan.payoutAmount)
  }

  function SettleByPayout(w: World, d: Id, now: int): Outcome
    requires d in w.disputes && w.disputes[d].booking in w.bookings
  {
    var b := w.disputes[d].booking;
    var booking := w.bookings[b];
    if ExistingRefund(booking) && booking.refundPercent.GetOr(0) >= 100 then
      Outcome(w, true, [], 0, AnnouncedFare(w, b))
    else
      var paid := SetPayment(w, b, PayoutEligible, Some(now));
      var status := if booking.status == Disputed then Completed else booking.status;
      var w' := paid.(bookings := paid.bookings[b := booking.(status := status)]);
      Outcome(CloseDispute(w', d, ResolvedPayout), false, StatusWrites(w, b, [PayoutEligible]),
              0, AnnouncedFare(w, b))
  }

  /** The dispute exists, can still be settled, and its booking exists (a foreign key in the database). */
  predicate CanSettle(w: World, d: Id) {
    d in w.disputes && IsSettleable(w.disputes[d].status) && w.disputes[d].booking in w.bookings
  }

  /** `settleDispute`. */
  function Settle(
    w: World, d: Id, resolution: Resolution, percent: Option<real>, stripeAccepts: bool, now: int): Outcome
  {
    if !CanSettle(w, d) then Outcome(w, true, [], 0, 0)
    else
      match resolution
      case ToEscalation => Outcome(CloseDispute(w, d, Escalated), false, [], 0, AnnouncedFare(w, w.disputes[d].booking))
      case ToRefund => SettleByRefund(w, d, true, percent, stripeAccepts, now)
      case ToSplit => SettleByRefund(w, d, false, percent, stripeAccepts, now)
      case ToPayout => SettleByPayout(w, d, now)
  }
}
