/** How a payment gets where it is going: the guards by target, the events, and the whole way from charge to payout. */
module Lifecycle {
  import opened Money
  import opened Tables
  import opened Ledger
  import opened Payments
  import opened Payouts
  import opened Settlement
  import opened MoneyRuns
  import opened MoneyTheorems
  import opened Progress
  import opened Solvency
  import opened PayoutLaws
  import opened DisputeLaws
  import opened BalanceLaws

  // ---------------------------------------------------------------------------------------------
  // One status at a time
  // ---------------------------------------------------------------------------------------------

  /** Where a guarded call may come from. */
  function Sources(target: PaymentStatus): set<PaymentStatus> {
    match target
    case Created => {}
    case PaymentPending => {Created}
    case Paid => {PaymentPending}
    case HeldInEscrow => {Paid}
    case PayoutEligible => {HeldInEscrow, TransferCreated, RefundPending}
    case TransferCreated => {PayoutEligible}
    case PayoutCompleted => {TransferCreated}
    case RefundPending => {Paid, HeldInEscrow, PayoutEligible}
    case Refunded => {RefundPending}
    case PaymentFailed => {Created, PaymentPending}
  }

  /** A guarded call goes through exactly from the sources of its target, and writes only its own row. */
  lemma MarkedIff(w: World, p: Id, target: PaymentStatus, now: int)
    ensures
      var w' := Mark(w, p, target, now);
      if p in w.payments && w.payments[p].status in Sources(target) then
        w' == w.(payments := w.payments[p := w.payments[p].(
          status := target, payoutEligibleAt := if target == PayoutEligible then Some(now)
                                                else w.payments[p].payoutEligibleAt)])
      else w' == w
  {
  }

  /**
   * What an event does. `payment.paid` takes a received payment into escrow, `booking.completed` makes
   * its payment payable where the machine allows it or does nothing without one; then the event is
   * processed. Otherwise the handler throws and the event waits for its next attempt. An event nobody
   * handles fails at once.
   */
  lemma DeliveryOutcome(w: World, e: nat, now: int)
    requires e < |w.outbox|
    ensures
      var ev, w' := w.outbox[e], Deliver(w, e, now);
      && w'.outbox == w.outbox[e := w'.outbox[e]] && w'.outbox[e].payload == ev.payload
      && match ev.payload
         case Unhandled => w'.payments == w.payments && w'.outbox[e].status == Failed
         case BookingCompleted(None) => w'.payments == w.payments && w'.outbox[e].status == Processed
         case BookingCompleted(Some(p)) =>
           if p in w.payments && w.payments[p].status in {HeldInEscrow, TransferCreated, RefundPending} then
             && w'.payments == w.payments[p := w.payments[p].(status := PayoutEligible, payoutEligibleAt := Some(now))]
             && w'.outbox[e].status == Processed
           else w'.payments == w.payments && w'.outbox[e] == Retried(ev, now)
         case PaymentPaid(p) =>
           if p in w.payments && w.payments[p].status == Paid then
             && w'.payments == w.payments[p := w.payments[p].(status := HeldInEscrow)]
             && w'.outbox[e].status == Processed
           else w'.payments == w.payments && w'.outbox[e] == Retried(ev, now)
  {
  }

  /**
   * The eligibility check makes a payment payable exactly when it is in escrow, its ride was completed
   * longer ago than the delay, and no dispute of it is undecided; it dates what it marks.
   */
  lemma EligibleAfterTheDelayIff(w: World, delayMinutes: nat, now: int, p: Id)
    requires p in w.payments
    ensures
      var ps, row := MarkReady(w, delayMinutes, now).payments, w.payments[p];
      && p in ps
      && ps[p] == if && row.status == HeldInEscrow && !Held(w, p)
                     && p in w.bookings && w.bookings[p].status == Completed && w.bookings[p].completedAt.Some?
                     && w.bookings[p].completedAt.value + delayMinutes * 60_000 < now
                  then row.(status := PayoutEligible, payoutEligibleAt := Some(now)) else row
  {
    if p in w.bookings {
      DisputesHoldPaymentsIff(w, 0, p, now - delayMinutes * 60 * 1000);
    }
  }

  // ---------------------------------------------------------------------------------------------
  // From the charge to the driver's account
  // ---------------------------------------------------------------------------------------------

  /** The row of a payment with another status; what it was charged and refunded stands. */
  predicate SameCharge(a: Payment, b: Payment) {
    b == a.(status := b.status, payoutEligibleAt := b.payoutEligibleAt)
  }

  lemma {:induction false} DrainEscrows(w: World, sel: seq<nat>, now: int, p: Id, e: nat)
    requires forall k | 0 <= k < |sel| :: sel[k] < |w.outbox|
    requires p in w.payments && w.payments[p].status == Paid
    requires e < |w.outbox| && w.outbox[e].payload == PaymentPaid(p)
    ensures
      var w' := DeliverAll(w, sel, now);
      && p in w'.payments && SameCharge(w.payments[p], w'.payments[p])
      && w'.payments[p].status in {Paid, HeldInEscrow, PayoutEligible}
      && (e in sel ==> w'.payments[p].status != Paid)
      && w'.outbox[e].payload == PaymentPaid(p) && w'.accounts == w.accounts
  {
    if sel != [] {
      var front, last := sel[..|sel| - 1], sel[|sel| - 1];
      DrainEscrows(w, front, now, p, e);
      assert e in sel <==> e in front || e == last;
      var w1 := DeliverAll(w, front, now);
      DeliveryOutcome(w1, last, now);
    }
  }

  lemma {:induction false} RisingAtLeast(sel: seq<nat>, k: nat)
    requires k < |sel| && forall i, j | 0 <= i < j < |sel| :: sel[i] < sel[j]
    ensures k <= sel[k]
  {
    if k > 0 {
      RisingAtLeast(sel, k - 1);
    }
  }

  /** A batch of fifty reaches the newest event of a queue that is no longer than that. */
  lemma NewestIsSelected(outbox: seq<Event>, now: int)
    requires 1 <= |outbox| <= 50 && Due(outbox[|outbox| - 1], now)
    ensures |outbox| - 1 in SelectDue(outbox, 0, ELIGIBILITY_BATCH, now)
  {
    var sel := SelectDue(outbox, 0, ELIGIBILITY_BATCH, now);
    if |sel| >= 50 {
      RisingAtLeast(sel, 49);
    }
  }

  /** The booking's charge, received from the rider and then looked at by the eligibility check. */
  function Received(w: World, p: Id, rider: Id, driver: Id, split: PaymentSplit, pending: bool): World {
    MarkBookingPaid(CreatePayment(w, p, rider, split, if pending then PaymentPending else Created), p, driver)
  }

  lemma ReceivedTables(w: World, p: Id, rider: Id, driver: Id, split: PaymentSplit, pending: bool)
    requires p !in w.payments
    ensures
      var row := Payment(rider, split.total, split.fare, split.fee, 0, 0, Paid, None);
      var w' := Received(w, p, rider, driver, split, pending);
      w' == w.(payments := w.payments[p := row], ledger := w.ledger + ReceiptGroup(w.groups, p, row, driver),
               groups := w.groups + 1, outbox := w.outbox + [Event(PaymentPaid(p), Pending, 0, None, None)])
  {
    var row := Payment(rider, split.total, split.fare, split.fee, 0, 0, Created, None);
    var waiting := row.(status := PaymentPending);
    assert w.payments[p := row][p := waiting] == w.payments[p := waiting];
    assert w.payments[p := waiting][p := row.(status := Paid)] == w.payments[p := row.(status := Paid)];
    assert ReceiptGroup(w.groups, p, waiting, driver) == ReceiptGroup(w.groups, p, row.(status := Paid), driver);
  }

  /** The ride is over, its dispute window has passed, and nobody disputes it. */
  ghost predicate RideIsOver(w: World, p: Id, driver: Id, delayMinutes: nat, now: int) {
    && p in w.bookings && w.bookings[p].driver == driver && w.bookings[p].status == Completed
    && w.bookings[p].completedAt.Some? && w.bookings[p].completedAt.value + delayMinutes * 60_000 < now
    && !Held(w, p)
  }

  /** A received payment of a finished ride is payable after the next check, with all of its fare. */
  lemma ReceivedBecomesPayable(
    w: World, p: Id, rider: Id, driver: Id, split: PaymentSplit, pending: bool, delayMinutes: nat, now: int)
    requires p !in w.payments && RideIsOver(w, p, driver, delayMinutes, now) && |w.outbox| < 50
    ensures
      var row := Payment(rider, split.total, split.fare, split.fee, 0, 0, Paid, None);
      var w' := CheckAndMarkEligible(Received(w, p, rider, driver, split, pending), delayMinutes, now);
      && p in w'.payments && SameCharge(row, w'.payments[p]) && p in SelectedIds(w', driver)
      && w'.ledger == w.ledger + ReceiptGroup(w.groups, p, row, driver)
      && w'.batches == w.batches && w'.transfers == w.transfers && w'.accounts == w.accounts
  {
    var w1 := Received(w, p, rider, driver, split, pending);
    ReceivedTables(w, p, rider, driver, split, pending);
    NewestIsSelected(w1.outbox, now);
    var sel := SelectDue(w1.outbox, 0, ELIGIBILITY_BATCH, now);
    DrainEscrows(w1, sel, now, p, |w.outbox|);
    DeliverAllDisputes(w1, sel, now);
    DeliverAllLedger(w1, sel, now);
    DeliverAllMovesNoMoney(w1, sel, now);
    var w2 := DeliverAll(w1, sel, now);
    assert Held(w2, p) <==> Held(w, p) by {
      assert forall d :: Undecided(w2, d, p) <==> Undecided(w, d, p);
    }
    EligibleAfterTheDelayIff(w2, delayMinutes, now, p);
    var w3 := MarkReady(w2, delayMinutes, now);
    assert Held(w3, p) <==> Held(w, p) by {
      assert forall d :: Undecided(w3, d, p) <==> Undecided(w, d, p);
    }
    DisputesHoldPaymentsIff(w3, driver, p, 0);
  }

  /** A payable payment goes out with its driver's next successful payout, which debits all of its rows. */
  lemma PayableIsPaidOut(w: World, driver: Id, rows: seq<Id>, a: Attempt, p: Id)
    requires IsListing(rows, SelectedIds(w, driver)) && p in SelectedIds(w, driver) && TransfersNameBatches(w)
    requires driver in w.accounts && w.accounts[driver] == ConnectAccount(true, true)
    requires !a.mock && a.stripeAccepts && a.writes >= 3 * |rows| + 2
    ensures p in rows && forall q | q in rows :: q in w.payments
    ensures
      var paid := Payout(w, driver, rows, a);
      && p in paid.payments && paid.payments[p] == w.payments[p].(status := PayoutCompleted)
      && TimesSent(paid, p) == TimesSent(w, p) + 1 && Sent(paid, p) == Sent(w, p) + NetFare(w.payments[p])
      && Balance(paid, driver) == Balance(w, driver) - NetTotal(w.payments, rows)
      && (rows == [p] ==> NetTotal(w.payments, rows) == NetFare(w.payments[p]))
  {
    SelectedRows(w, driver, rows);
    assert Succeeds(w, driver, rows, a);
    assert Payout(w, driver, rows, a).payments[p] == w.payments[p].(status := PayoutCompleted) by {
      SuccessfulPayout(w, driver, rows, a);
    }
    PayoutSends(w, driver, rows, a, p);
    PayoutLowersBalance(w, driver, rows, a, driver);
    assert rows == [p] ==> rows[..0] == [];
  }

  lemma ReceiptCredits(w: World, p: Id, rider: Id, driver: Id, split: PaymentSplit, pending: bool)
    requires p !in w.payments && 0 <= split.fee
    ensures Balance(Received(w, p, rider, driver, split, pending), driver) == Balance(w, driver) + split.fare
  {
    var row := Payment(rider, split.total, split.fare, split.fee, 0, 0, Paid, None);
    ReceivedTables(w, p, rider, driver, split, pending);
    AppendMovesBalance(w.ledger, ReceiptGroup(w.groups, p, row, driver), driver);
    ReceiptAccounts(w.groups, p, row, driver, Driver, Some(driver));
  }

  /**
   * The whole way. A rider is charged a price and its fee, the payment comes in, the ride is completed
   * and stays undisputed past the delay: then the next check and a payout the driver's account accepts
   * leave the payment completed, with exactly the price less the fee sent to the driver once. What the
   * driver was credited for it is debited again, so their balance changes by the other rows of the
   * batch alone.
   */
  lemma PaidRideIsPaidOut(
    w: World, p: Id, rider: Id, driver: Id, total: nat, fee: nat, pending: bool, delayMinutes: nat, now: int,
    rows: seq<Id>, a: Attempt)
    requires p !in w.payments && fee <= total && TransfersNameBatches(w)
    requires RideIsOver(w, p, driver, delayMinutes, now) && |w.outbox| < 50
    requires driver in w.accounts && w.accounts[driver] == ConnectAccount(true, true)
    requires ResolvePaymentSplit(total, fee).Some?
    requires
      var split := ResolvePaymentSplit(total, fee).value;
      var payable := CheckAndMarkEligible(Received(w, p, rider, driver, split, pending), delayMinutes, now);
      IsListing(rows, SelectedIds(payable, driver))
    requires !a.mock && a.stripeAccepts && a.writes >= 3 * |rows| + 2
    ensures
      var split := ResolvePaymentSplit(total, fee).value;
      var payable := CheckAndMarkEligible(Received(w, p, rider, driver, split, pending), delayMinutes, now);
      && p in rows && (forall q | q in rows :: q in payable.payments)
      && var paid := Payout(payable, driver, rows, a);
      && p in paid.payments && paid.payments[p].status == PayoutCompleted
      && paid.payments[p].refundedFareAmount == 0
      && TimesSent(paid, p) == TimesSent(w, p) + 1 && Sent(paid, p) == Sent(w, p) + (total - fee)
      && Balance(paid, driver) == Balance(w, driver) + (total - fee) - NetTotal(payable.payments, rows)
      && (rows == [p] ==> Balance(paid, driver) == Balance(w, driver))
  {
    var split := ResolvePaymentSplit(total, fee).value;
    var payable := CheckAndMarkEligible(Received(w, p, rider, driver, split, pending), delayMinutes, now);
    ReceivedBecomesPayable(w, p, rider, driver, split, pending, delayMinutes, now);
    PayableIsPaidOut(payable, driver, rows, a, p);
    ReceiptCredits(w, p, rider, driver, split, pending);
    assert payable.ledger == Received(w, p, rider, driver, split, pending).ledger by {
      ReceivedTables(w, p, rider, driver, split, pending);
    }
  }

  // ---------------------------------------------------------------------------------------------
  // When a payment became payable
  // ---------------------------------------------------------------------------------------------

  /** The time of a step that can make a payment payable. */
  function At(s: Step): Option<int> {
    match s
    case MarkStep(_, _, now) => Some(now)
    case RefundStep(_, _, _, now) => Some(now)
    case WebhookStep(_, _, _, _, now) => Some(now)
    case OutboxStep(_, now) => Some(now)
    case EligibleStep(_, now) => Some(now)
    case SettleStep(_, _, _, _, now) => Some(now)
    case _ => None
  }

  /** A payable row carries the time it became payable: it was payable since before, or since `now`. */
  predicate DatedFrom(ps: map<Id, Payment>, ps': map<Id, Payment>, p: Id, now: Option<int>) {
    p in ps' && ps'[p].status == PayoutEligible ==>
      || (p in ps && ps[p].status == PayoutEligible && ps'[p].payoutEligibleAt == ps[p].payoutEligibleAt)
      || (now.Some? && ps'[p].payoutEligibleAt == now)
  }

  lemma {:induction false} DrainDates(w: World, sel: seq<nat>, now: int, p: Id)
    requires forall k | 0 <= k < |sel| :: sel[k] < |w.outbox|
    ensures DatedFrom(w.payments, DeliverAll(w, sel, now).payments, p, Some(now))
  {
    if sel != [] {
      var front, last := sel[..|sel| - 1], sel[|sel| - 1];
      DrainDates(w, front, now, p);
      DeliveryOutcome(DeliverAll(w, front, now), last, now);
    }
  }

  lemma RefundDates(w: World, q: Id, driver: Id, amount: Option<int>, now: int, p: Id)
    ensures DatedFrom(w.payments, MarkRefunded(w, q, driver, amount, now).payments, p, Some(now))
  {
  }

  lemma SettleByRefundDates(w: World, d: Id, full: bool, percent: Option<real>, ok: bool, now: int)
    requires CanSettle(w, d) && w.disputes[d].booking in w.payments
    ensures
      var b, ps := w.disputes[d].booking, SettleByRefund(w, d, full, percent, ok, now).w.payments;
      DatedFrom(w.payments, ps, b, Some(now)) && b in ps && (ps[b].status == PayoutEligible ==> !full)
  {
  }

  lemma SettleDates(w: World, d: Id, resolution: Resolution, percent: Option<real>, ok: bool, now: int, p: Id)
    ensures DatedFrom(w.payments, Settle(w, d, resolution, percent, ok, now).w.payments, p, Some(now))
  {
    if CanSettle(w, d) {
      var b := w.disputes[d].booking;
      if b in w.payments {
        SettledPayments(w, d, resolution, percent, ok, now);
        match resolution
        case ToRefund => SettleByRefundDates(w, d, true, percent, ok, now);
        case ToSplit => SettleByRefundDates(w, d, false, percent, ok, now);
        case ToPayout =>
        case ToEscalation =>
      } else {
        SettledLedger(w, d, resolution, percent, ok, now);
      }
    }
  }

  /** Every step that makes a payment payable dates it. */
  lemma StepDates(w: World, s: Step, p: Id)
    requires Enabled(w, s)
    ensures DatedFrom(w.payments, Apply(w, s).payments, p, At(s))
  {
    match s
    case PaidStep(q, driver) => BookingPaidRows(w, q, driver);
    case MarkStep(q, target, now) => MarkedIff(w, q, target, now);
    case RefundStep(q, driver, amount, now) => RefundDates(w, q, driver, AsInt(amount), now, p);
    case WebhookStep(intent, found, amount, settled, now) =>
      if found.Some? {
        var w1 := Stamped(w, intent, AsInt(amount), settled, now);
        RefundDates(w1, found.value, w.bookings[found.value].driver, AsInt(amount), now, p);
      }
    case OutboxStep(batchSize, now) => DrainDates(w, SelectDue(w.outbox, 0, batchSize, now), now, p);
    case EligibleStep(delay, now) =>
      DrainDates(w, SelectDue(w.outbox, 0, ELIGIBILITY_BATCH, now), now, p);
      var drained := ProcessOutbox(w, ELIGIBILITY_BATCH, now);
      if p in drained.payments {
        EligibleAfterTheDelayIff(drained, delay, now, p);
      }
    case PayoutStep(driver, rows, a) =>
      SelectedRows(w, driver, rows);
      PayoutRows(w, driver, rows, a);
    case SettleStep(d, resolution, percent, ok, now) => SettleDates(w, d, resolution, percent, ok, now, p);
    case _ =>
  }

  /** After every run a payable payment carries the time of the step that made it payable. */
  lemma {:induction false} PayablePaymentsAreDated(w: World, steps: seq<Step>, p: Id)
    requires IsRun(w, steps)
    requires p in w.payments ==> w.payments[p].status != PayoutEligible || w.payments[p].payoutEligibleAt.Some?
    ensures
      var ps := Run(w, steps).payments;
      p in ps && ps[p].status == PayoutEligible ==>
        && ps[p].payoutEligibleAt.Some?
        && (|| (p in w.payments && w.payments[p].status == PayoutEligible
                && w.payments[p].payoutEligibleAt == ps[p].payoutEligibleAt)
            || exists s | s in steps :: At(s) == ps[p].payoutEligibleAt)
    decreases |steps|
  {
    if steps != [] {
      StepDates(w, steps[0], p);
      PayablePaymentsAreDated(Apply(w, steps[0]), steps[1..], p);
      assert steps[0] in steps && forall s | s in steps[1..] :: s in steps;
    }
  }

  /** A charge that fails is never received: no run moves it on unless a settlement writes it. */
  lemma FailedChargeStaysFailed(w: World, steps: seq<Step>, p: Id, now: int)
    requires Sound(w) && p in w.payments && w.payments[p].status in {Created, PaymentPending}
    requires IsRun(Mark(w, p, PaymentFailed, now), steps)
    requires !Meets(Settles, Mark(w, p, PaymentFailed, now), steps, p)
    ensures
      var w' := Run(Mark(w, p, PaymentFailed, now), steps);
      && p in w'.payments && w'.payments[p].status == PaymentFailed
      && Sum(w'.ledger, OfPayment(p), Receipts) == 0 && EscrowMarks(w'.outbox, p) == 0
  {
    var s := MarkStep(p, PaymentFailed, now);
    var failed := Mark(w, p, PaymentFailed, now);
    assert failed == Apply(w, s);
    StepKeepsSound(w, s);
    UnsettledIsNotTakenBack(failed, steps, p);
    PaymentsOnlyProgress(failed, steps, p);
    RunKeepsSound(failed, steps, p);
    assert PaymentSound(Run(failed, steps), p);
  }

  lemma {:induction false} UnsettledIsNotTakenBack(w: World, steps: seq<Step>, p: Id)
    requires IsRun(w, steps) && !Meets(Settles, w, steps, p)
    ensures !Meets(TakesBack, w, steps, p)
    decreases |steps|
  {
    if steps != [] {
      UnsettledIsNotTakenBack(Apply(w, steps[0]), steps[1..], p);
    }
  }
}
