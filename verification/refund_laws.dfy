/** Refund termination, replays, and balanced refund groups. */
module RefundLaws {
  import opened Money
  import opened Tables
  import opened Ledger
  import opened Payments
  import opened MoneyRuns

  /** A refund of one payment, reported by the service itself or by a Stripe webhook. */
  datatype RefundCall =
    | Local(driver: Id, amount: Option<int>, now: int)
    | Webhook(intent: Id, amount: Option<int>, settled: bool, now: int)

  /** Every webhook of a sequence finds the payment's own booking. */
  predicate Finds(w: World, p: Id, calls: seq<RefundCall>) {
    forall c | c in calls :: c.Webhook? ==> HasIntent(w, p, c.intent)
  }

  function RefundOne(w: World, p: Id, c: RefundCall): World
    requires c.Webhook? ==> HasIntent(w, p, c.intent)
  {
    match c
    case Local(driver, amount, now) => MarkRefunded(w, p, driver, amount, now)
    case Webhook(intent, amount, settled, now) => RefundWebhook(w, intent, Some(p), amount, settled, now)
  }

  lemma RefundOneFinds(w: World, p: Id, c: RefundCall, calls: seq<RefundCall>)
    requires Finds(w, p, calls) && (c.Webhook? ==> HasIntent(w, p, c.intent))
    ensures Finds(RefundOne(w, p, c), p, calls)
  {
  }

  function RefundAll(w: World, p: Id, calls: seq<RefundCall>): World
    requires Finds(w, p, calls)
    decreases |calls|
  {
    if calls == [] then w
    else
      assert calls[0] in calls && forall c | c in calls[1..] :: c in calls;
      RefundOneFinds(w, p, calls[0], calls[1..]);
      RefundAll(RefundOne(w, p, calls[0]), p, calls[1..])
  }

  /** Once refunded, no sequence of repeated local calls and webhooks touches a payment or the ledger. */
  lemma {:induction false} RefundedIsFixed(w: World, p: Id, calls: seq<RefundCall>)
    requires p in w.payments && w.payments[p].status == Refunded && Finds(w, p, calls)
    ensures RefundAll(w, p, calls).payments == w.payments && RefundAll(w, p, calls).ledger == w.ledger
    decreases |calls|
  {
    if calls != [] {
      assert calls[0] in calls && forall c | c in calls[1..] :: c in calls;
      RefundOneFinds(w, p, calls[0], calls[1..]);
      RefundedIsFixed(RefundOne(w, p, calls[0]), p, calls[1..]);
    }
  }

  /** A refundable row whose stored shares are within the charge. */
  predicate OpenCharge(row: Payment) {
    ChargeSound(row) && Refundable(row.status)
    && row.refundedFareAmount <= row.fareAmount && row.refundedFeeAmount <= row.platformFeeAmount
  }

  /** The refund takes at least a cent of the fare; this looks at the gross charge only. */
  predicate TakesFare(row: Payment, amount: Option<int>) {
    EffectiveRefund(row, amount) >= 0 && RefundShares(row, amount).fare >= 1
  }

  lemma RefundShrinksResidual(row: Payment, amount: Option<int>, now: int)
    requires OpenCharge(row) && TakesFare(row, amount)
    ensures
      var after := RefundedRow(row, amount, now);
      && after.status in {Refunded, PayoutEligible}
      && after.amountTotal == row.amountTotal && after.fareAmount == row.fareAmount
      && (after.status != Refunded ==> OpenCharge(after) && 0 < NetFare(after) <= NetFare(row) - 1)
      && forall other | TakesFare(row, other) :: TakesFare(after, other)
  {
    RefundSplitIsExact(row.amountTotal, row.fareAmount, EffectiveRefund(row, amount));
  }

  /** A call that refunds at least a cent of the fare: a local one, or a settled webhook. */
  predicate CallTakesFare(row: Payment, c: RefundCall) {
    TakesFare(row, c.amount) && (c.Webhook? ==> c.settled)
  }

  lemma RefundOneRow(w: World, p: Id, c: RefundCall)
    requires p in w.payments && Refundable(w.payments[p].status)
    requires c.Webhook? ==> HasIntent(w, p, c.intent) && c.settled
    ensures RefundOne(w, p, c).payments == w.payments[p := RefundedRow(w.payments[p], c.amount, c.now)]
  {
  }

  /**
   * Each refund that takes at least a cent of the fare lowers the residual fare by a cent or more, so
   * as many calls as the residual has cents, local or by webhook, always end in REFUNDED.
   */
  lemma {:induction false} RefundsTerminate(w: World, p: Id, calls: seq<RefundCall>)
    requires p in w.payments && OpenCharge(w.payments[p]) && Finds(w, p, calls)
    requires forall c | c in calls :: CallTakesFare(w.payments[p], c)
    ensures
      var row, row' := w.payments[p], RefundAll(w, p, calls).payments;
      && p in row'
      && (row'[p].status == Refunded || NetFare(row'[p]) <= NetFare(row) - |calls|)
      && (|calls| >= NetFare(row) && calls != [] ==> row'[p].status == Refunded)
    decreases |calls|
  {
    if calls != [] {
      var row, c, rest := w.payments[p], calls[0], calls[1..];
      assert c in calls && forall other | other in rest :: other in calls;
      var w1, after := RefundOne(w, p, c), RefundedRow(row, c.amount, c.now);
      RefundOneRow(w, p, c);
      RefundOneFinds(w, p, c, rest);
      RefundShrinksResidual(row, c.amount, c.now);
      if after.status == Refunded {
        RefundedIsFixed(w1, p, rest);
      } else {
        RefundsTerminate(w1, p, rest);
      }
    }
  }

  /**
   * Repeating a refund (a local call, then Stripe's webhook for the same refund) is harmless exactly
   * when the first one was final; otherwise its shares count twice.
   */
  lemma ReplayIsHarmlessIff(w: World, p: Id, driver: Id, amount: Option<int>, now: int)
    requires p in w.payments && Refundable(w.payments[p].status)
    ensures
      var row := w.payments[p];
      var once := MarkRefunded(w, p, driver, amount, now);
      var twice := MarkRefunded(once, p, driver, amount, now);
      && (twice == once <==> RefundIsFinal(row, amount))
      && (!RefundIsFinal(row, amount) && OpenCharge(row) && EffectiveRefund(row, amount) >= 0 ==>
            twice.payments[p].refundedFareAmount
            == Min(row.fareAmount, row.refundedFareAmount + 2 * RefundShares(row, amount).fare))
  {
    var row := w.payments[p];
    var once := MarkRefunded(w, p, driver, amount, now);
    if RefundIsFinal(row, amount) {
      assert once.payments[p].status == Refunded;
    } else {
      assert once.payments[p].status == PayoutEligible;
      assert |MarkRefunded(once, p, driver, amount, now).ledger| > |once.ledger|;
      if OpenCharge(row) && EffectiveRefund(row, amount) >= 0 {
        RefundSplitIsExact(row.amountTotal, row.fareAmount, EffectiveRefund(row, amount));
      }
    }
  }

  /** The first refund of a charge ends it exactly when it returns everything or the whole fare. */
  lemma FirstRefundEndsIff(row: Payment, amount: Option<int>, now: int)
    requires ChargeSound(row) && row.refundedFareAmount == 0 && row.refundedFeeAmount == 0
    requires 0 <= EffectiveRefund(row, amount)
    ensures
      var after := RefundedRow(row, amount, now);
      && (after.status == Refunded <==>
            EffectiveRefund(row, amount) >= row.amountTotal || RefundShares(row, amount).fare >= row.fareAmount)
      && (amount == None ==> after.status == Refunded && NetFare(after) == 0 && NetPlatformFee(after) == 0)
      && (after.status == PayoutEligible ==>
            && 0 < NetFare(after)
            && NetFare(after) + NetPlatformFee(after) == row.amountTotal - EffectiveRefund(row, amount))
  {
    var refund := EffectiveRefund(row, amount);
    RefundSplitIsExact(row.amountTotal, row.fareAmount, refund);
    if refund <= row.amountTotal {
      RefundSplitIsProportionate(row.amountTotal, row.fareAmount, refund);
    }
  }

  /** The group `markRefunded` appends balances exactly when the amount it is called with is not negative. */
  lemma RefundGroupBalancesIff(w: World, p: Id, driver: Id, amount: Option<int>, now: int)
    requires p in w.payments && ChargeSound(w.payments[p]) && Refundable(w.payments[p].status)
    requires GroupsBelow(w.ledger, w.groups)
    ensures Sum(MarkRefunded(w, p, driver, amount, now).ledger, OfGroup(w.groups), Imbalance) == 0
       <==> EffectiveRefund(w.payments[p], amount) >= 0
  {
    var row := w.payments[p];
    var refund, split := EffectiveRefund(row, amount), RefundShares(row, amount);
    RefundSplitIsExact(row.amountTotal, row.fareAmount, refund);
    FreshGroupIsEmpty(w.ledger, w.groups, w.groups, Imbalance);
    SumAppend(w.ledger, RefundGroup(w.groups, p, row.rider, driver, refund, split), OfGroup(w.groups), Imbalance);
    RefundBooks(w.groups, p, row.rider, driver, refund, split, OfGroup(w.groups), Imbalance);
  }
}
