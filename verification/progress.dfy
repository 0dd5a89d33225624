/** How one payment row moves along a run: its status, its charge, and what is left of its fare. */
module Progress {
  import opened Money
  import opened Tables
  import opened Payments
  import opened Payouts
  import opened Settlement
  import opened MoneyRuns
  import opened MoneyTheorems

  /** The eligible, transfer and refund-pending statuses form a cycle and share a rank. */
  function Rank(s: PaymentStatus): nat {
    match s
    case Created => 0
    case PaymentPending => 1
    case Paid => 2
    case HeldInEscrow => 3
    case PayoutEligible => 4
    case TransferCreated => 4
    case RefundPending => 4
    case PayoutCompleted => 5
    case Refunded => 5
    case PaymentFailed => 5
  }

  /** The charge never changes and what went back, up to the charge, never shrinks. */
  predicate ChargeStands(a: Payment, b: Payment) {
    && a.rider == b.rider && a.amountTotal == b.amountTotal
    && a.fareAmount == b.fareAmount && a.platformFeeAmount == b.platformFeeAmount
    && Min(a.refundedFareAmount, a.fareAmount) <= Min(b.refundedFareAmount, b.fareAmount)
    && Min(a.refundedFeeAmount, a.platformFeeAmount) <= Min(b.refundedFeeAmount, b.platformFeeAmount)
  }

  /** A later row of the same payment: further along, the charge untouched, refunds only added to. */
  predicate Later(a: Payment, b: Payment) {
    ChargeStands(a, b) && Rank(a.status) <= Rank(b.status) && (Rank(a.status) == 5 ==> a.status == b.status)
  }

  /** `markRefunded` keeps the stored shares within the charge; only a settlement adds them unclamped. */
  predicate Clamped(row: Payment) {
    row.refundedFareAmount <= row.fareAmount && row.refundedFeeAmount <= row.platformFeeAmount
  }

  /** One step's effect on a row, given whether it takes fare, what a settlement wrote, and whether it is a payout. */
  predicate RowMoved(a: Payment, b: Payment, takes: bool, writes: seq<PaymentStatus>, paysOut: bool) {
    && ChargeStands(a, b)
    && (NetFare(b) < NetFare(a) <==> takes && NetFare(a) > 0)
    && (writes == [] && Clamped(a) ==> Clamped(b))
    && (if writes == [] then Later(a, b)
        else b.status == writes[|writes| - 1] && b.status in {RefundPending, Refunded, PayoutEligible})
    && (!paysOut && b.status in {TransferCreated, PayoutCompleted} ==> a.status == b.status)
  }

  /** A step that neither refunds, settles nor pays out. */
  predicate Quiet(a: Payment, b: Payment) {
    RowMoved(a, b, false, [], false)
  }

  lemma MarkedIsQuiet(row: Payment, target: PaymentStatus, now: int)
    requires ChargeSound(row) && Allowed(row.status, target) && target !in {TransferCreated, PayoutCompleted}
    ensures Quiet(row, Marked(row, target, now))
  {
  }

  lemma MarkMoves(w: World, q: Id, target: PaymentStatus, now: int, p: Id)
    requires PlainTarget(target) && p in w.payments && ChargeSound(w.payments[p])
    ensures p in Mark(w, q, target, now).payments && Quiet(w.payments[p], Mark(w, q, target, now).payments[p])
  {
    if q == p && CanMark(w, q, target) {
      MarkedIsQuiet(w.payments[p], target, now);
    }
  }

  lemma BookingPaidRows(w: World, q: Id, driver: Id)
    ensures MarkBookingPaid(w, q, driver).payments
         == if q in w.payments && w.payments[q].status in {Created, PaymentPending}
            then w.payments[q := w.payments[q].(status := Paid)] else w.payments
  {
  }

  lemma BookingPaidMoves(w: World, q: Id, driver: Id, p: Id)
    requires p in w.payments
    ensures
      var ps := MarkBookingPaid(w, q, driver).payments;
      p in ps && Quiet(w.payments[p], ps[p])
  {
    BookingPaidRows(w, q, driver);
  }

  lemma RefundedMoves(row: Payment, amount: Option<int>, now: int)
    requires ChargeSound(row) && Refundable(row.status) && EffectiveRefund(row, amount) >= 0
    ensures RowMoved(row, RefundedRow(row, amount, now), RefundShares(row, amount).fare > 0, [], false)
  {
    RefundSplitIsExact(row.amountTotal, row.fareAmount, EffectiveRefund(row, amount));
  }

  lemma RefundMovesRow(w: World, q: Id, driver: Id, amount: Option<int>, now: int, p: Id)
    requires p in w.payments && ChargeSound(w.payments[p]) && amount.GetOr(0) >= 0
    ensures
      var ps := MarkRefunded(w, q, driver, amount, now).payments;
      p in ps && RowMoved(w.payments[p], ps[p], q == p && TakesShare(w.payments[p], amount), [], false)
  {
    if q in w.payments && Refundable(w.payments[q].status) {
      RefundTables(w, q, driver, amount, now);
      if q == p {
        RefundedMoves(w.payments[p], amount, now);
      }
    }
  }

  lemma DeliverMoves(w: World, e: nat, now: int, p: Id)
    requires e < |w.outbox| && p in w.payments && ChargeSound(w.payments[p])
    ensures p in Deliver(w, e, now).payments && Quiet(w.payments[p], Deliver(w, e, now).payments[p])
  {
    DeliverTables(w, e, now);
    HandleRow(w, w.outbox[e].payload, now, p);
    if CanMark(w, p, HeldInEscrow) {
      MarkedIsQuiet(w.payments[p], HeldInEscrow, now);
    }
    if CanMark(w, p, PayoutEligible) {
      MarkedIsQuiet(w.payments[p], PayoutEligible, now);
    }
  }

  lemma QuietChains(a: Payment, b: Payment, c: Payment)
    requires ChargeSound(a) && Quiet(a, b) && Quiet(b, c)
    ensures Quiet(a, c)
  {
  }

  lemma {:induction false} DeliverAllMoves(w: World, sel: seq<nat>, now: int, p: Id)
    requires forall k | 0 <= k < |sel| :: sel[k] < |w.outbox|
    requires p in w.payments && PaymentSound(w, p)
    ensures
      var w' := DeliverAll(w, sel, now);
      p in w'.payments && Quiet(w.payments[p], w'.payments[p])
  {
    if sel != [] {
      var front, last := sel[..|sel| - 1], sel[|sel| - 1];
      var w1 := DeliverAll(w, front, now);
      DeliverAllMoves(w, front, now, p);
      DeliverAllKeeps(w, front, now, p);
      DeliverMoves(w1, last, now, p);
      QuietChains(w.payments[p], w1.payments[p], Deliver(w1, last, now).payments[p]);
    }
  }

  lemma EligibleMoves(w: World, delay: nat, now: int, p: Id)
    requires p in w.payments && PaymentSound(w, p)
    ensures
      var w' := CheckAndMarkEligible(w, delay, now);
      p in w'.payments && Quiet(w.payments[p], w'.payments[p])
  {
    var w1 := ProcessOutbox(w, ELIGIBILITY_BATCH, now);
    DeliverAllMoves(w, SelectDue(w.outbox, 0, ELIGIBILITY_BATCH, now), now, p);
    OutboxKeeps(w, ELIGIBILITY_BATCH, now, p);
    if ReadyForPayout(w1, p, now - delay * 60 * 1000) {
      MarkedIsQuiet(w1.payments[p], PayoutEligible, now);
    }
    QuietChains(w.payments[p], w1.payments[p], CheckAndMarkEligible(w, delay, now).payments[p]);
  }

  lemma PayoutMovesRow(w: World, driver: Id, rows: seq<Id>, a: Attempt, p: Id)
    requires IsListing(rows, SelectedIds(w, driver)) && p in w.payments && PaymentSound(w, p)
    ensures forall q | q in rows :: q in w.payments
    ensures
      var ps := Payout(w, driver, rows, a).payments;
      p in ps && RowMoved(w.payments[p], ps[p], false, [], true)
  {
    PayoutRow(w, driver, rows, a, p);
  }

  lemma SettledRowMoves(
    row: Payment, split: RefundSplit, writes: seq<PaymentStatus>, at: Option<int>)
    requires ChargeSound(row) && writes != [] && 0 <= split.fare && 0 <= split.fee
    requires writes[|writes| - 1] in {RefundPending, Refunded, PayoutEligible}
    ensures RowMoved(row, SettledRow(row, split, writes[|writes| - 1], at), split.fare > 0, writes, false)
  {
  }

  lemma SameRowMoves(row: Payment, paysOut: bool)
    ensures RowMoved(row, row, false, [], paysOut)
  {
  }

  lemma SettleMovesRow(
    w: World, d: Id, resolution: Resolution, percent: Option<real>, ok: bool, now: int, p: Id)
    requires Sound(w) && p in w.payments
    ensures
      var s := SettleStep(d, resolution, percent, ok, now);
      var ps := Settle(w, d, resolution, percent, ok, now).w.payments;
      p in ps && RowMoved(w.payments[p], ps[p], Takes(w, s, p), Writes(w, s, p), false)
  {
    if CanSettle(w, d) {
      var b := w.disputes[d].booking;
      if b in w.payments {
        assert PaymentSound(w, b);
        SettledPayments(w, d, resolution, percent, ok, now);
        if p == b {
          SettledOwnRow(w, d, resolution, percent, ok, now);
        }
      } else {
        SettledLedger(w, d, resolution, percent, ok, now);
      }
    }
  }

  /** The shares of the refund a settlement issues, nothing when it issues none. */
  function IssuedShares(w: World, b: Id, resolution: Resolution, percent: Option<real>, ok: bool): RefundSplit
    requires b in w.bookings
  {
    if Refunds(w, b, resolution, percent, ok) then PlanRefund(w, b, resolution == ToRefund, percent).split
    else RefundSplit(0, 0)
  }

  lemma SettledOwnRow(
    w: World, d: Id, resolution: Resolution, percent: Option<real>, ok: bool, now: int)
    requires CanSettle(w, d) && w.disputes[d].booking in w.payments
    requires ChargeSound(w.payments[w.disputes[d].booking])
    ensures
      var b := w.disputes[d].booking;
      var out := Settle(w, d, resolution, percent, ok, now);
      && b in out.w.payments
      && RowMoved(w.payments[b], out.w.payments[b], IssuedShares(w, b, resolution, percent, ok).fare > 0,
                  out.writes, false)
  {
    var b := w.disputes[d].booking;
    var row, split := w.payments[b], IssuedShares(w, b, resolution, percent, ok);
    var out := Settle(w, d, resolution, percent, ok, now);
    assert 0 <= split.fare && 0 <= split.fee by { PlanIsSound(w, b, resolution == ToRefund, percent); }
    SettledPayments(w, d, resolution, percent, ok, now);
    if out.writes == [] {
      SameRowMoves(row, false);
    } else {
      SettledRowMoves(row, split, out.writes, out.w.payments[b].payoutEligibleAt);
    }
  }

  lemma CallMovesRow(w: World, s: Step, p: Id)
    requires Sound(w) && Enabled(w, s) && p in w.payments
    requires s.CreateStep? || s.MarkStep? || s.PaidStep? || s.RefundStep? || s.WebhookStep?
    ensures
      var ps := Apply(w, s).payments;
      p in ps && RowMoved(w.payments[p], ps[p], Takes(w, s, p), [], false)
  {
    assert PaymentSound(w, p);
    match s
    case CreateStep(_, _, _, _, _) => SameRowMoves(w.payments[p], false);
    case MarkStep(q, target, now) => MarkMoves(w, q, target, now, p);
    case PaidStep(q, driver) => BookingPaidMoves(w, q, driver, p);
    case RefundStep(q, driver, amount, now) => RefundMovesRow(w, q, driver, AsInt(amount), now, p);
    case WebhookStep(intent, found, amount, settled, now) =>
      if found.Some? && settled {
        var w1 := Stamped(w, intent, AsInt(amount), settled, now);
        RefundMovesRow(w1, found.value, w.bookings[found.value].driver, AsInt(amount), now, p);
      } else {
        SameRowMoves(w.payments[p], false);
      }
  }

  lemma BatchMovesRow(w: World, s: Step, p: Id)
    requires Sound(w) && Enabled(w, s) && p in w.payments
    requires s.OutboxStep? || s.EligibleStep? || s.ProviderFeeStep? || s.EnqueueStep? || s.ElsewhereStep?
    ensures
      var ps := Apply(w, s).payments;
      p in ps && Quiet(w.payments[p], ps[p])
  {
    assert PaymentSound(w, p);
    if s.OutboxStep? {
      DeliverAllMoves(w, SelectDue(w.outbox, 0, s.batchSize, s.now), s.now, p);
    } else if s.EligibleStep? {
      EligibleMoves(w, s.delayMinutes, s.now, p);
    } else {
      SameRowMoves(w.payments[p], false);
    }
  }

  /** The effect of any step on any payment. */
  lemma StepMovesRow(w: World, s: Step, p: Id)
    requires Sound(w) && Enabled(w, s) && p in w.payments
    ensures
      var ps := Apply(w, s).payments;
      p in ps && RowMoved(w.payments[p], ps[p], Takes(w, s, p), Writes(w, s, p), s.PayoutStep?)
  {
    if s.PayoutStep? {
      assert PaymentSound(w, p);
      PayoutMovesRow(w, s.driver, s.rows, s.attempt, p);
    } else if s.SettleStep? {
      SettleMovesRow(w, s.d, s.resolution, s.percent, s.stripeAccepts, s.now, p);
    } else if s.CreateStep? || s.MarkStep? || s.PaidStep? || s.RefundStep? || s.WebhookStep? {
      CallMovesRow(w, s, p);
    } else {
      BatchMovesRow(w, s, p);
    }
  }

  lemma MovedIsLaterIff(
    a: Payment, b: Payment, takes: bool, writes: seq<PaymentStatus>, paysOut: bool)
    requires RowMoved(a, b, takes, writes, paysOut)
    ensures ChargeStands(a, b) && (Later(a, b) <==> !Reverted(a.status, writes))
  {
  }

  /** A step takes a payment back exactly when it is a settlement that reverts a finished one. */
  lemma StepIsLaterIff(w: World, s: Step, p: Id)
    requires Sound(w) && Enabled(w, s) && p in w.payments
    ensures p in Apply(w, s).payments && ChargeStands(w.payments[p], Apply(w, s).payments[p])
    ensures Later(w.payments[p], Apply(w, s).payments[p]) <==> !TakenBack(w, s, p)
  {
    StepMovesRow(w, s, p);
    MovedIsLaterIff(w.payments[p], Apply(w, s).payments[p], Takes(w, s, p), Writes(w, s, p), s.PayoutStep?);
  }

  lemma LaterChains(a: Payment, b: Payment, c: Payment)
    requires ChargeStands(a, b) && ChargeStands(b, c)
    ensures ChargeStands(a, c) && (Later(a, b) && Later(b, c) ==> Later(a, c))
  {
  }

  /** A later state of one payment. */
  predicate RowLater(w: World, w': World, p: Id, takenBack: bool)
    requires p in w.payments
  {
    && p in w'.payments && ChargeStands(w.payments[p], w'.payments[p])
    && (takenBack || Later(w.payments[p], w'.payments[p]))
  }

  /**
   * Along every run the gross charge never changes and what went back never shrinks. Unless some
   * settlement takes the payment back after it finished, its rank never falls either, and a finished
   * payment stays as it finished.
   */
  lemma {:induction false} PaymentsOnlyProgress(w: World, steps: seq<Step>, p: Id)
    requires Sound(w) && IsRun(w, steps) && p in w.payments
    ensures RowLater(w, Run(w, steps), p, Meets(TakesBack, w, steps, p))
    decreases |steps|
  {
    if steps != [] {
      var w1, w' := Apply(w, steps[0]), Run(w, steps);
      StepKeepsSound(w, steps[0]);
      StepIsLaterIff(w, steps[0], p);
      PaymentsOnlyProgress(w1, steps[1..], p);
      LaterChains(w.payments[p], w1.payments[p], w'.payments[p]);
    }
  }
}
