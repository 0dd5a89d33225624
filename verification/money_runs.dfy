/**
 * Whole runs of the money path. A run interleaves, in any order, payments, refunds, webhooks, outbox
 * batches, eligibility checks, payouts that may fail at any write, settlements of payments in any
 * status, and arbitrary changes to bookings and disputes. Every state reached keeps the row table, the
 * ledger and the payout batches in agreement; the hazards at the end of the steps section name the
 * steps that break a stronger promise.
 */
module MoneyRuns {
  import opened Money
  import opened Tables
  import opened Ledger
  import opened Payments
  import opened Payouts
  import opened Settlement

  // ---------------------------------------------------------------------------------------------
  // Steps
  // ---------------------------------------------------------------------------------------------

  datatype Step =
    | CreateStep(p: Id, rider: Id, total: nat, fee: nat, pending: bool)
    | MarkStep(p: Id, target: PaymentStatus, now: int)
    | PaidStep(p: Id, driver: Id)
    | RefundStep(p: Id, driver: Id, amount: Option<nat>, now: int)
    | WebhookStep(intent: Id, found: Option<Id>, amount: Option<nat>, settled: bool, now: int)
    | ProviderFeeStep(p: Id, charge: int)
    | EnqueueStep(payload: EventPayload)
    | OutboxStep(batchSize: nat, now: int)
    | EligibleStep(delayMinutes: nat, now: int)
    | PayoutStep(driver: Id, rows: seq<Id>, attempt: Attempt)
    | SettleStep(d: Id, resolution: Resolution, percent: Option<real>, stripeAccepts: bool, now: int)
    | ElsewhereStep(bookings: map<Id, Booking>, disputes: map<Id, Dispute>, accounts: map<Id, ConnectAccount>)

  function AsInt(x: Option<nat>): Option<int> {
    match x case None => None case Some(v) => Some(v)
  }

  /** Statuses the row updates without money may target; the others are written by their own calls. */
  predicate PlainTarget(s: PaymentStatus) {
    s in {PaymentPending, HeldInEscrow, PayoutEligible, RefundPending, PaymentFailed}
  }

  /** One step at a time; queries answer from the tables they find. */
  ghost predicate Enabled(w: World, s: Step) {
    match s
    case MarkStep(_, target, _) => PlainTarget(target)
    case WebhookStep(intent, found, _, _, _) => FoundBy(w, intent, found)
    case PayoutStep(driver, rows, _) => IsListing(rows, SelectedIds(w, driver))
    case _ => true
  }

  ghost function Apply(w: World, s: Step): World
    requires Enabled(w, s)
  {
    match s
    case CreateStep(p, rider, total, fee, pending) =>
      (match ResolvePaymentSplit(total, fee)
       case None => w
       case Some(split) => CreatePayment(w, p, rider, split, if pending then PaymentPending else Created))
    case MarkStep(p, target, now) => Mark(w, p, target, now)
    case PaidStep(p, driver) => MarkBookingPaid(w, p, driver)
    case RefundStep(p, driver, amount, now) => MarkRefunded(w, p, driver, AsInt(amount), now)
    case WebhookStep(intent, found, amount, settled, now) =>
      RefundWebhook(w, intent, found, AsInt(amount), settled, now)
    case ProviderFeeStep(p, fee) => RecordProviderFee(w, p, fee)
    case EnqueueStep(payload) => w.(outbox := w.outbox + [NewEvent(payload)])
    case OutboxStep(batchSize, now) => ProcessOutbox(w, batchSize, now)
    case EligibleStep(delayMinutes, now) => CheckAndMarkEligible(w, delayMinutes, now)
    case PayoutStep(driver, rows, a) =>
      assert forall p | p in rows :: p in SelectedIds(w, driver);
      Payout(w, driver, rows, a)
    case SettleStep(d, resolution, percent, stripeAccepts, now) =>
      Settle(w, d, resolution, percent, stripeAccepts, now).w
    case ElsewhereStep(bookings, disputes, accounts) =>
      w.(bookings := bookings, disputes := disputes, accounts := accounts)
  }

  ghost predicate IsRun(w: World, steps: seq<Step>)
    decreases |steps|
  {
    steps == [] || (Enabled(w, steps[0]) && IsRun(Apply(w, steps[0]), steps[1..]))
  }

  ghost function Run(w: World, steps: seq<Step>): World
    requires IsRun(w, steps)
    decreases |steps|
  {
    if steps == [] then w else Run(Apply(w, steps[0]), steps[1..])
  }

  /** No payments yet; any bookings, disputes and Connect accounts. */
  predicate IsStart(w: World) {
    w.payments == map[] && w.ledger == [] && w.outbox == [] && w.batches == [] && w.transfers == []
  }

  // ---------------------------------------------------------------------------------------------
  // What a step does to one payment
  // ---------------------------------------------------------------------------------------------

  /** The statuses a step's settlement writes on a payment. */
  function Writes(w: World, s: Step, p: Id): seq<PaymentStatus> {
    if s.SettleStep? && CanSettle(w, s.d) && w.disputes[s.d].booking == p then
      Settle(w, s.d, s.resolution, s.percent, s.stripeAccepts, s.now).writes
    else []
  }

  /** A step's refund goes through and takes some of a payment's fare. */
  ghost predicate Takes(w: World, s: Step, p: Id) {
    p in w.payments &&
    match s
    case RefundStep(q, _, amount, _) => q == p && TakesShare(w.payments[p], AsInt(amount))
    case WebhookStep(_, found, amount, settled, _) =>
      settled && found == Some(p) && TakesShare(w.payments[p], AsInt(amount))
    case SettleStep(d, resolution, percent, ok, _) =>
      && CanSettle(w, d) && w.disputes[d].booking == p && Refunds(w, p, resolution, percent, ok)
      && PlanRefund(w, p, resolution == ToRefund, percent).split.fare > 0
    case _ => false
  }

  predicate TakesShare(row: Payment, amount: Option<int>) {
    Refundable(row.status) && RefundShares(row, amount).fare > 0
  }

  /** A settlement's refund goes through: it is planned, not a repeat, and Stripe accepts it when asked. */
  predicate Refunds(w: World, b: Id, resolution: Resolution, percent: Option<real>, ok: bool)
    requires b in w.bookings
  {
    && (resolution == ToRefund || resolution == ToSplit)
    && Issues(w.bookings[b], PlanRefund(w, b, resolution == ToRefund, percent))
    && (CallsStripe(w.bookings[b]) ==> ok)
  }

  /** A step has Stripe send a payment's remaining fare, whether or not its own writes then succeed. */
  predicate Sends(w: World, s: Step, p: Id) {
    s.PayoutStep? && p in s.rows && Accepted(w, s.driver, s.rows, s.attempt)
  }

  /** A step moves fare of a payment that Stripe already sent. */
  ghost predicate Overspent(w: World, s: Step, p: Id) {
    && p in w.payments && SentCount(w.transfers, w.batches, p) >= 1 && NetFare(w.payments[p]) > 0
    && (Takes(w, s, p) || Sends(w, s, p))
  }

  /** A settlement writes a payment whose charge was never received. */
  predicate SettledUnreceived(w: World, s: Step, p: Id) {
    p in w.payments && Unreceived(w.payments[p].status) && Writes(w, s, p) != []
  }

  /** A settlement writes a payment after it was paid out. */
  predicate SettledPaidOut(w: World, s: Step, p: Id) {
    p in w.payments && w.payments[p].status == PayoutCompleted && Writes(w, s, p) != []
  }

  /** A payout of a payment stops between Stripe's answer and its last write. */
  predicate BrokenOff(w: World, s: Step, p: Id) {
    && s.PayoutStep? && p in s.rows && Attempted(w, s.driver, s.rows, s.attempt)
    && (s.attempt.mock || s.attempt.stripeAccepts) && s.attempt.writes < WriteCount(|s.rows|)
  }

  /** A settlement takes a finished payment to another status. */
  predicate TakenBack(w: World, s: Step, p: Id) {
    p in w.payments && Reverted(w.payments[p].status, Writes(w, s, p))
  }

  /** A call is made for a payment. */
  predicate CalledFor(w: World, s: Step, p: Id) {
    match s
    case MarkStep(q, _, _) => q == p
    case RefundStep(q, _, _, _) => q == p
    case WebhookStep(_, found, _, _, _) => found == Some(p)
    case PayoutStep(_, rows, _) => p in rows
    case _ => Writes(w, s, p) != []
  }

  /** Steps that break a promise about one payment. */
  datatype Hazard =
    | Overspends | SettlesUnreceived | SettlesPaidOut | BreaksOff | TakesBack | Settles | CallsFor

  ghost predicate Hits(h: Hazard, w: World, s: Step, p: Id) {
    match h
    case Overspends => Overspent(w, s, p)
    case SettlesUnreceived => SettledUnreceived(w, s, p)
    case SettlesPaidOut => SettledPaidOut(w, s, p)
    case BreaksOff => BrokenOff(w, s, p)
    case TakesBack => TakenBack(w, s, p)
    case Settles => Writes(w, s, p) != []
    case CallsFor => CalledFor(w, s, p)
  }

  predicate Finished(s: PaymentStatus) {
    s in {PayoutCompleted, Refunded, PaymentFailed}
  }

  predicate Reverted(s: PaymentStatus, writes: seq<PaymentStatus>) {
    writes != [] && Finished(s) && writes[|writes| - 1] != s
  }

  /** Some step of a run is a hazard to a payment. */
  ghost predicate Meets(h: Hazard, w: World, steps: seq<Step>, p: Id)
    requires IsRun(w, steps)
    decreases |steps|
  {
    steps != [] && (Hits(h, w, steps[0], p) || Meets(h, Apply(w, steps[0]), steps[1..], p))
  }

  // ---------------------------------------------------------------------------------------------
  // Figures of one payment
  // ---------------------------------------------------------------------------------------------

  function ItemCount(items: seq<Item>, p: Id): nat {
    if items == [] then 0
    else ItemCount(items[..|items| - 1], p) + if items[|items| - 1].payment == p then 1 else 0
  }

  function ItemSum(items: seq<Item>, p: Id): int {
    if items == [] then 0
    else ItemSum(items[..|items| - 1], p)
         + if items[|items| - 1].payment == p then items[|items| - 1].driverAmount else 0
  }

  /** In how many successful transfers a payment was included. */
  function PaidCount(batches: seq<Batch>, p: Id): nat {
    if batches == [] then 0
    else
      var b := batches[|batches| - 1];
      PaidCount(batches[..|batches| - 1], p) + if b.status == BatchCompleted then ItemCount(b.items, p) else 0
  }

  /** How much of a payment went out in successful transfers. */
  function PaidSum(batches: seq<Batch>, p: Id): int {
    if batches == [] then 0
    else
      var b := batches[|batches| - 1];
      PaidSum(batches[..|batches| - 1], p) + if b.status == BatchCompleted then ItemSum(b.items, p) else 0
  }

  /** What a transfer Stripe accepted carries of a payment: the items of its batch that are for it. */
  function CarriedItems(batches: seq<Batch>, t: StripeTransfer): seq<Item> {
    if t.batch < |batches| then batches[t.batch].items else []
  }

  /** In how many transfers Stripe accepted a payment went out. */
  function SentCount(transfers: seq<StripeTransfer>, batches: seq<Batch>, p: Id): nat {
    if transfers == [] then 0
    else
      var last := transfers[|transfers| - 1];
      SentCount(transfers[..|transfers| - 1], batches, p) + ItemCount(CarriedItems(batches, last), p)
  }

  /** How much of a payment went out in transfers Stripe accepted. */
  function SentSum(transfers: seq<StripeTransfer>, batches: seq<Batch>, p: Id): int {
    if transfers == [] then 0
    else
      var last := transfers[|transfers| - 1];
      SentSum(transfers[..|transfers| - 1], batches, p) + ItemSum(CarriedItems(batches, last), p)
  }

  /** Transfers name batches that exist. */
  predicate TransfersNameBatches(w: World) {
    forall t | t in w.transfers :: t.batch < |w.batches|
  }

  function EscrowMark(e: Event, p: Id): nat {
    if e.payload == PaymentPaid(p) && e.status == Processed then 1 else 0
  }

  /** How many `payment.paid` events of a payment have been processed. */
  function EscrowMarks(outbox: seq<Event>, p: Id): nat {
    if outbox == [] then 0
    else EscrowMarks(outbox[..|outbox| - 1], p) + EscrowMark(outbox[|outbox| - 1], p)
  }

  /** The ledger columns the row table must agree with. */
  datatype Books = Books(receipts: int, imbalance: int, owed: int, fee: int, transfers: int)

  function BooksOf(ledger: seq<Entry>, p: Id): Books {
    var key := OfPayment(p);
    Books(Sum(ledger, key, Receipts), Sum(ledger, key, Imbalance), Sum(ledger, key, FareOwed),
          Sum(ledger, key, FeeNet), Sum(ledger, key, Transfers))
  }

  predicate Unreceived(s: PaymentStatus) {
    s in {Created, PaymentPending, PaymentFailed}
  }

  predicate ChargeSound(row: Payment) {
    && 0 <= row.fareAmount && 0 <= row.platformFeeAmount
    && row.amountTotal == row.fareAmount + row.platformFeeAmount
    && 0 <= row.refundedFareAmount && 0 <= row.refundedFeeAmount
  }

  /**
   * One payment row agrees with its ledger entries and its outbox events. A payment without a receipt
   * may still have been settled; the ledger then owes nobody anything for it.
   */
  predicate Agrees(row: Payment, k: Books, marks: int) {
    && ChargeSound(row)
    && k.imbalance == 0 && 0 <= k.receipts <= 1
    && (Unreceived(row.status) ==>
          && k.receipts == 0 && k.owed == 0 && k.fee == 0
          && row.refundedFareAmount == 0 && row.refundedFeeAmount == 0)
    && (if k.receipts == 1 then NetFare(row) == Max(0, k.owed) && NetPlatformFee(row) == Max(0, k.fee)
        else k.owed <= 0 && k.fee <= 0)
    && 0 <= marks <= (if Unreceived(row.status) || row.status == Paid then 0 else 1)
  }

  predicate PaymentSound(w: World, p: Id) {
    var k, marks := BooksOf(w.ledger, p), EscrowMarks(w.outbox, p);
    var count, sum := PaidCount(w.batches, p), PaidSum(w.batches, p);
    && 0 <= sum && (count == 0 ==> sum == 0)
    && (if p in w.payments then Agrees(w.payments[p], k, marks)
        else k == Books(0, 0, 0, 0, 0) && count == 0 && marks == 0)
  }

  /** Past its receipt by status, but never received in the ledger. */
  predicate Unbooked(w: World, p: Id) {
    p in w.payments && !Unreceived(w.payments[p].status) && BooksOf(w.ledger, p).receipts == 0
  }

  /** A step keeps a payment sound; only a settlement before the receipt may leave it unbooked. */
  predicate Keeps(w: World, w': World, p: Id, hit: bool) {
    PaymentSound(w', p) && (Unbooked(w', p) <==> Unbooked(w, p) || hit)
  }

  /** Every group balances, the single-sided transfer and reversal entries aside. */
  predicate GroupSound(ledger: seq<Entry>, g: nat) {
    Sum(ledger, OfGroup(g), Imbalance) == 0
  }

  ghost predicate LedgerSound(ledger: seq<Entry>, groups: nat) {
    && AllWellTyped(ledger) && GroupsBelow(ledger, groups)
    && forall g: nat :: GroupSound(ledger, g)
  }

  ghost predicate Sound(w: World) {
    LedgerSound(w.ledger, w.groups) && forall p: Id :: PaymentSound(w, p)
  }

  // ---------------------------------------------------------------------------------------------
  // How the figures move
  // ---------------------------------------------------------------------------------------------

  function Plus(k: Books, receipts: int, imbalance: int, owed: int, fee: int, transfers: int): Books {
    Books(k.receipts + receipts, k.imbalance + imbalance, k.owed + owed, k.fee + fee, k.transfers + transfers)
  }

  lemma ReceiptMoves(ledger: seq<Entry>, g: nat, q: Id, row: Payment, driver: Id, p: Id)
    requires ChargeSound(row)
    ensures BooksOf(ledger + ReceiptGroup(g, q, row, driver), p)
         == if p == q then Plus(BooksOf(ledger, p), 1, 0, row.fareAmount, row.platformFeeAmount, 0)
            else BooksOf(ledger, p)
  {
    var es := ReceiptGroup(g, q, row, driver);
    forall c ensures Sum(ledger + es, OfPayment(p), c)
                  == Sum(ledger, OfPayment(p), c) + if p == q then ReceiptEffect(row, c) else 0
    {
      SumAppend(ledger, es, OfPayment(p), c);
      ReceiptBooks(g, q, row, driver, OfPayment(p), c);
    }
  }

  lemma RefundMoves(ledger: seq<Entry>, g: nat, q: Id, rider: Id, driver: Id, refund: int, split: RefundSplit, p: Id)
    requires split.fee >= 0
    ensures BooksOf(ledger + RefundGroup(g, q, rider, driver, refund, split), p)
         == if p == q then Plus(BooksOf(ledger, p), 0, split.fare + split.fee - refund, -split.fare, -split.fee, 0)
            else BooksOf(ledger, p)
  {
    var es := RefundGroup(g, q, rider, driver, refund, split);
    forall c ensures Sum(ledger + es, OfPayment(p), c)
                  == Sum(ledger, OfPayment(p), c) + if p == q then RefundEffect(refund, split, c) else 0
    {
      SumAppend(ledger, es, OfPayment(p), c);
      RefundBooks(g, q, rider, driver, refund, split, OfPayment(p), c);
    }
  }

  lemma ProviderFeeMoves(ledger: seq<Entry>, g: nat, q: Id, fee: int, p: Id)
    requires fee > 0
    ensures BooksOf(ledger + ProviderFeeGroup(g, q, fee), p) == BooksOf(ledger, p)
  {
    var es := ProviderFeeGroup(g, q, fee);
    forall c | c != Debits && c != Credits
      ensures Sum(ledger + es, OfPayment(p), c) == Sum(ledger, OfPayment(p), c)
    {
      SumAppend(ledger, es, OfPayment(p), c);
      ProviderFeeBooks(g, q, fee, OfPayment(p), c);
    }
  }

  lemma {:induction false} EscrowMarksUpdate(outbox: seq<Event>, e: nat, ev: Event, p: Id)
    requires e < |outbox|
    ensures EscrowMarks(outbox[e := ev], p)
         == EscrowMarks(outbox, p) - EscrowMark(outbox[e], p) + EscrowMark(ev, p)
  {
    var front := outbox[..|outbox| - 1];
    if e < |front| {
      assert outbox[e := ev][..|outbox| - 1] == front[e := ev];
      EscrowMarksUpdate(front, e, ev, p);
    } else {
      assert outbox[e := ev][..|outbox| - 1] == front;
    }
  }

  lemma EscrowMarksPush(outbox: seq<Event>, payload: EventPayload, p: Id)
    ensures EscrowMarks(outbox + [NewEvent(payload)], p) == EscrowMarks(outbox, p)
  {
    assert (outbox + [NewEvent(payload)])[..|outbox|] == outbox;
  }

  // ---------------------------------------------------------------------------------------------
  // Each step keeps a payment sound
  // ---------------------------------------------------------------------------------------------

  lemma MarkKeeps(w: World, q: Id, target: PaymentStatus, now: int, p: Id)
    requires PlainTarget(target) && PaymentSound(w, p)
    ensures Keeps(w, Mark(w, q, target, now), p, false)
  {
  }

  lemma CreateKeeps(
    w: World, q: Id, rider: Id, split: PaymentSplit, status: PaymentStatus, p: Id)
    requires PaymentSound(w, p) && status in {Created, PaymentPending}
    requires 0 <= split.fare && 0 <= split.fee && split.total == split.fare + split.fee
    ensures Keeps(w, CreatePayment(w, q, rider, split, status), p, false)
  {
  }

  lemma MarkPaidKeeps(w: World, q: Id, driver: Id, p: Id)
    requires PaymentSound(w, p) && PaymentSound(w, q)
    ensures Keeps(w, MarkPaid(w, q, driver), p, false)
  {
    if CanMark(w, q, Paid) {
      ReceiptMoves(w.ledger, w.groups, q, w.payments[q], driver, p);
      EscrowMarksPush(w.outbox, PaymentPaid(q), p);
    }
  }

  lemma BookingPaidKeeps(w: World, q: Id, driver: Id, p: Id)
    requires PaymentSound(w, p) && PaymentSound(w, q)
    ensures Keeps(w, MarkBookingPaid(w, q, driver), p, false)
  {
    MarkKeeps(w, q, PaymentPending, 0, p);
    MarkKeeps(w, q, PaymentPending, 0, q);
    MarkPaidKeeps(Mark(w, q, PaymentPending, 0), q, driver, p);
    MarkPaidKeeps(w, q, driver, p);
  }

  /** Adding a refund to the clamped row and to the unclamped ledger keeps the clamped figures equal. */
  lemma RefundAgrees(row: Payment, k: Books, marks: int, amount: Option<int>, now: int)
    requires Agrees(row, k, marks) && Refundable(row.status) && EffectiveRefund(row, amount) >= 0
    ensures
      var s := RefundShares(row, amount);
      && 0 <= s.fare && 0 <= s.fee && s.fare + s.fee == EffectiveRefund(row, amount)
      && Agrees(RefundedRow(row, amount, now), Plus(k, 0, 0, -s.fare, -s.fee, 0), marks)
  {
    RefundSplitIsExact(row.amountTotal, row.fareAmount, EffectiveRefund(row, amount));
  }

  /** What `markRefunded` leaves in the tables when it gets past its guards. */
  lemma RefundTables(w: World, q: Id, driver: Id, amount: Option<int>, now: int)
    requires q in w.payments && Refundable(w.payments[q].status)
    ensures
      var row, w' := w.payments[q], MarkRefunded(w, q, driver, amount, now);
      && w'.payments == w.payments[q := RefundedRow(row, amount, now)]
      && w'.ledger == w.ledger + RefundGroup(w.groups, q, row.rider, driver,
                                             EffectiveRefund(row, amount), RefundShares(row, amount))
      && w'.batches == w.batches && w'.outbox == w.outbox && w'.transfers == w.transfers
  {
  }

  lemma RefundKeeps(w: World, q: Id, driver: Id, amount: Option<int>, now: int, p: Id)
    requires PaymentSound(w, p) && PaymentSound(w, q)
    requires amount.GetOr(0) >= 0
    ensures Keeps(w, MarkRefunded(w, q, driver, amount, now), p, false)
  {
    if q in w.payments && Refundable(w.payments[q].status) {
      var row := w.payments[q];
      RefundTables(w, q, driver, amount, now);
      RefundAgrees(row, BooksOf(w.ledger, q), EscrowMarks(w.outbox, q), amount, now);
      RefundMoves(w.ledger, w.groups, q, row.rider, driver, EffectiveRefund(row, amount), RefundShares(row, amount), p);
    }
  }

  lemma WebhookKeeps(
    w: World, intent: Id, found: Option<Id>, amount: Option<int>, settled: bool, now: int, p: Id)
    requires PaymentSound(w, p) && FoundBy(w, intent, found) && amount.GetOr(0) >= 0
    requires found.Some? ==> PaymentSound(w, found.value)
    ensures Keeps(w, RefundWebhook(w, intent, found, amount, settled, now), p, false)
  {
    if found.Some? {
      var w1 := Stamped(w, intent, amount, settled, now);
      RefundKeeps(w1, found.value, w.bookings[found.value].driver, amount, now, p);
    }
  }

  lemma ProviderFeeKeeps(w: World, q: Id, fee: int, p: Id)
    requires PaymentSound(w, p)
    ensures Keeps(w, RecordProviderFee(w, q, fee), p, false)
  {
    if fee > 0 {
      ProviderFeeMoves(w.ledger, w.groups, q, fee, p);
    }
  }

  // ---------------------------------------------------------------------------------------------
  // Outbox
  // ---------------------------------------------------------------------------------------------

  lemma {:induction false} EscrowMarkBound(outbox: seq<Event>, e: nat, p: Id)
    requires e < |outbox|
    ensures EscrowMark(outbox[e], p) <= EscrowMarks(outbox, p)
  {
    if e < |outbox| - 1 {
      EscrowMarkBound(outbox[..|outbox| - 1], e, p);
    }
  }

  /** A delivery touches one event and at most one payment, the one its handler marks. */
  lemma DeliverTables(w: World, e: nat, now: int)
    requires e < |w.outbox|
    ensures
      var w' := Deliver(w, e, now);
      && w'.ledger == w.ledger && w'.batches == w.batches && w'.groups == w.groups
      && w'.payments == Handle(w, w.outbox[e].payload, now).payments
      && w'.payments.Keys == w.payments.Keys
      && w'.outbox == w.outbox[e := w'.outbox[e]]
  {
    HandleTables(w, w.outbox[e].payload, now);
  }

  lemma HandleTables(w: World, payload: EventPayload, now: int)
    ensures
      var w' := Handle(w, payload, now);
      && w'.ledger == w.ledger && w'.batches == w.batches && w'.groups == w.groups && w'.outbox == w.outbox
      && w'.payments.Keys == w.payments.Keys
      && (!payload.Unhandled? && !HandlerSucceeds(w, payload) ==> w'.payments == w.payments)
  {
  }

  /** It marks the event processed exactly when its handler ran; the row moves with it. */
  lemma DeliverMark(w: World, e: nat, now: int, p: Id)
    requires e < |w.outbox|
    ensures EscrowMark(Deliver(w, e, now).outbox[e], p)
         == if w.outbox[e].payload == PaymentPaid(p) && CanMark(w, p, HeldInEscrow) then 1 else 0
  {
  }

  lemma HandleRow(w: World, payload: EventPayload, now: int, p: Id)
    requires p in w.payments
    ensures
      var ps := Handle(w, payload, now).payments;
      && p in ps
      && (payload == PaymentPaid(p) && CanMark(w, p, HeldInEscrow) ==>
            ps[p] == Marked(w.payments[p], HeldInEscrow, now))
      && (payload == BookingCompleted(Some(p)) && CanMark(w, p, PayoutEligible) ==>
            ps[p] == Marked(w.payments[p], PayoutEligible, now))
      && (|| (payload == PaymentPaid(p) && CanMark(w, p, HeldInEscrow))
          || (payload == BookingCompleted(Some(p)) && CanMark(w, p, PayoutEligible))
          || ps[p] == w.payments[p])
  {
  }

  lemma EscrowedAgrees(row: Payment, k: Books, marks: int, now: int)
    requires Agrees(row, k, marks)
    ensures Allowed(row.status, HeldInEscrow) ==> marks == 0 && Agrees(Marked(row, HeldInEscrow, now), k, 1)
    ensures Allowed(row.status, PayoutEligible) ==> Agrees(Marked(row, PayoutEligible, now), k, marks)
  {
  }

  lemma DeliverKeeps(w: World, e: nat, now: int, p: Id)
    requires e < |w.outbox| && PaymentSound(w, p)
    ensures Keeps(w, Deliver(w, e, now), p, false)
  {
    var w', payload := Deliver(w, e, now), w.outbox[e].payload;
    DeliverTables(w, e, now);
    DeliverMark(w, e, now, p);
    EscrowMarksUpdate(w.outbox, e, w'.outbox[e], p);
    EscrowMarkBound(w.outbox, e, p);
    if p in w.payments {
      HandleRow(w, payload, now, p);
      EscrowedAgrees(w.payments[p], BooksOf(w.ledger, p), EscrowMarks(w.outbox, p), now);
    }
  }

  lemma {:induction false} DeliverAllKeeps(w: World, sel: seq<nat>, now: int, p: Id)
    requires forall k | 0 <= k < |sel| :: sel[k] < |w.outbox|
    requires PaymentSound(w, p)
    ensures Keeps(w, DeliverAll(w, sel, now), p, false)
  {
    if sel != [] {
      var front := sel[..|sel| - 1];
      DeliverAllKeeps(w, front, now, p);
      DeliverKeeps(DeliverAll(w, front, now), sel[|sel| - 1], now, p);
    }
  }

  lemma OutboxKeeps(w: World, batchSize: nat, now: int, p: Id)
    requires PaymentSound(w, p)
    ensures Keeps(w, ProcessOutbox(w, batchSize, now), p, false)
  {
    DeliverAllKeeps(w, SelectDue(w.outbox, 0, batchSize, now), now, p);
  }

  lemma MarkReadyKeeps(w: World, delayMinutes: nat, now: int, p: Id)
    requires PaymentSound(w, p)
    ensures Keeps(w, MarkReady(w, delayMinutes, now), p, false)
  {
  }

  // ---------------------------------------------------------------------------------------------
  // Payouts
  // ---------------------------------------------------------------------------------------------

  lemma InFront(rows: seq<Id>, p: Id)
    requires rows != [] && Distinct(rows)
    ensures
      var front := rows[..|rows| - 1];
      && Distinct(front) && (forall q | q in front :: q in rows)
      && (p in front <==> p in rows && p != rows[|rows| - 1])
  {
    assert rows == rows[..|rows| - 1] + [rows[|rows| - 1]];
  }

  lemma {:induction false} TransferSum(snap: map<Id, Payment>, driver: Id, rows: seq<Id>, g: nat, p: Id, c: Column)
    requires Distinct(rows) && forall q | q in rows :: q in snap
    ensures Sum(TransferEntries(snap, driver, rows, g), OfPayment(p), c)
         == if p in rows then Weight(c, TransferEntry(0, p, driver, NetFare(snap[p]))) else 0
  {
    if rows != [] {
      var front, last := rows[..|rows| - 1], rows[|rows| - 1];
      InFront(rows, p);
      TransferSum(snap, driver, front, g, p, c);
      SumPush(TransferEntries(snap, driver, front, g),
              TransferEntry(g + |rows| - 1, last, driver, NetFare(snap[last])), OfPayment(p), c);
    }
  }

  lemma {:induction false} ReversalSum(
    snap: map<Id, Payment>, driver: Id, rows: seq<Id>, lost: set<Id>, g: nat, p: Id, c: Column)
    requires Distinct(rows) && forall q | q in rows :: q in snap
    ensures Sum(ReversalEntries(snap, driver, rows, lost, g), OfPayment(p), c)
         == if p in rows && p !in lost then Weight(c, ReversalEntry(0, p, driver, NetFare(snap[p]))) else 0
  {
    if rows != [] {
      var front, last := rows[..|rows| - 1], rows[|rows| - 1];
      InFront(rows, p);
      ReversalSum(snap, driver, front, lost, g, p, c);
      var before := ReversalEntries(snap, driver, front, lost, g);
      SumPush(before, ReversalEntry(g + |before|, last, driver, NetFare(snap[last])), OfPayment(p), c);
    }
  }

  lemma TransferMoves(ledger: seq<Entry>, snap: map<Id, Payment>, driver: Id, rows: seq<Id>, g: nat, p: Id)
    requires Distinct(rows) && forall q | q in rows :: q in snap
    ensures BooksOf(ledger + TransferEntries(snap, driver, rows, g), p)
         == if p in rows then Plus(BooksOf(ledger, p), 0, 0, 0, 0, NetFare(snap[p])) else BooksOf(ledger, p)
  {
    var es := TransferEntries(snap, driver, rows, g);
    forall c ensures Sum(ledger + es, OfPayment(p), c) == Sum(ledger, OfPayment(p), c)
                     + if p in rows then Weight(c, TransferEntry(0, p, driver, NetFare(snap[p]))) else 0
    {
      SumAppend(ledger, es, OfPayment(p), c);
      TransferSum(snap, driver, rows, g, p, c);
    }
  }

  lemma ReversalMoves(
    ledger: seq<Entry>, snap: map<Id, Payment>, driver: Id, rows: seq<Id>, lost: set<Id>, g: nat, p: Id)
    requires Distinct(rows) && forall q | q in rows :: q in snap
    ensures BooksOf(ledger + ReversalEntries(snap, driver, rows, lost, g), p) == BooksOf(ledger, p)
  {
    var es := ReversalEntries(snap, driver, rows, lost, g);
    forall c ensures Sum(ledger + es, OfPayment(p), c) == Sum(ledger, OfPayment(p), c)
                     + if p in rows && p !in lost then Weight(c, ReversalEntry(0, p, driver, NetFare(snap[p]))) else 0
    {
      SumAppend(ledger, es, OfPayment(p), c);
      ReversalSum(snap, driver, rows, lost, g, p, c);
    }
  }

  lemma {:induction false} ItemFigures(snap: map<Id, Payment>, rows: seq<Id>, p: Id)
    requires Distinct(rows) && forall q | q in rows :: q in snap
    ensures ItemCount(NewItems(snap, rows), p) == if p in rows then 1 else 0
    ensures ItemSum(NewItems(snap, rows), p) == if p in rows then NetFare(snap[p]) else 0
  {
    if rows != [] {
      var front := rows[..|rows| - 1];
      InFront(rows, p);
      ItemFigures(snap, front, p);
      assert NewItems(snap, rows)[..|rows| - 1] == NewItems(snap, front);
    }
  }

  lemma {:induction false} ItemsAlike(a: seq<Item>, b: seq<Item>, p: Id)
    requires |a| == |b|
    requires forall i | 0 <= i < |a| :: a[i].payment == b[i].payment && a[i].driverAmount == b[i].driverAmount
    ensures ItemCount(a, p) == ItemCount(b, p) && ItemSum(a, p) == ItemSum(b, p)
  {
    if a != [] {
      ItemsAlike(a[..|a| - 1], b[..|b| - 1], p);
    }
  }

  /** A batch adds to the figures of its own payments, and only when it is completed. */
  lemma BatchMoves(
    batches: seq<Batch>, snap: map<Id, Payment>, rows: seq<Id>, b: Batch, p: Id)
    requires Distinct(rows) && forall q | q in rows :: q in snap
    requires |b.items| == |rows|
    requires forall i | 0 <= i < |rows| ::
      b.items[i].payment == rows[i] && b.items[i].driverAmount == NetFare(snap[rows[i]])
    ensures
      var paid := batches + [b];
      var counts := b.status == BatchCompleted && p in rows;
      && PaidCount(paid, p) == PaidCount(batches, p) + (if counts then 1 else 0)
      && PaidSum(paid, p) == PaidSum(batches, p) + (if counts then NetFare(snap[p]) else 0)
  {
    assert (batches + [b])[..|batches|] == batches;
    ItemFigures(snap, rows, p);
    ItemsAlike(NewItems(snap, rows), b.items, p);
  }

  /** What an attempt adds to the completed batches of a payment, however it goes. */
  lemma PayoutPaid(w: World, driver: Id, rows: seq<Id>, a: Attempt, p: Id)
    requires Distinct(rows) && forall q | q in rows :: q in w.payments
    ensures
      var w' := Payout(w, driver, rows, a);
      var counts := Completes(w, driver, rows, a) && p in rows;
      && PaidCount(w'.batches, p) == PaidCount(w.batches, p) + (if counts then 1 else 0)
      && PaidSum(w'.batches, p) == PaidSum(w.batches, p) + (if counts then NetFare(w.payments[p]) else 0)
  {
    PayoutBatches(w, driver, rows, a);
    if Attempted(w, driver, rows, a) {
      FinalItems(w, driver, rows, a);
      BatchMoves(w.batches, w.payments, rows, FinalBatch(w, driver, rows, a), p);
    }
  }

  lemma {:induction false} SentFrame(transfers: seq<StripeTransfer>, batches: seq<Batch>, b: Batch, p: Id)
    requires forall t | t in transfers :: t.batch < |batches|
    ensures SentCount(transfers, batches + [b], p) == SentCount(transfers, batches, p)
    ensures SentSum(transfers, batches + [b], p) == SentSum(transfers, batches, p)
  {
    if transfers != [] {
      assert transfers[|transfers| - 1] in transfers;
      SentFrame(transfers[..|transfers| - 1], batches, b, p);
    }
  }

  lemma SentPush(transfers: seq<StripeTransfer>, batches: seq<Batch>, b: Batch, t: StripeTransfer, p: Id)
    requires (forall x | x in transfers :: x.batch < |batches|) && t.batch == |batches|
    ensures SentCount(transfers + [t], batches + [b], p) == SentCount(transfers, batches, p) + ItemCount(b.items, p)
    ensures SentSum(transfers + [t], batches + [b], p) == SentSum(transfers, batches, p) + ItemSum(b.items, p)
  {
    SentFrame(transfers, batches, b, p);
    assert (transfers + [t])[..|transfers|] == transfers;
    assert (batches + [b])[|batches|] == b;
  }

  lemma FinalItemFigures(w: World, driver: Id, rows: seq<Id>, a: Attempt, p: Id)
    requires Distinct(rows) && (forall q | q in rows :: q in w.payments) && Attempted(w, driver, rows, a)
    ensures
      var items := FinalBatch(w, driver, rows, a).items;
      && ItemCount(items, p) == (if p in rows then 1 else 0)
      && ItemSum(items, p) == (if p in rows then NetFare(w.payments[p]) else 0)
  {
    FinalItems(w, driver, rows, a);
    ItemFigures(w.payments, rows, p);
    ItemsAlike(NewItems(w.payments, rows), FinalBatch(w, driver, rows, a).items, p);
  }

  /** An attempt Stripe accepts sends what is left of each of its rows, even when it throws afterwards. */
  lemma PayoutSends(w: World, driver: Id, rows: seq<Id>, a: Attempt, p: Id)
    requires Distinct(rows) && (forall q | q in rows :: q in w.payments) && TransfersNameBatches(w)
    ensures
      var w' := Payout(w, driver, rows, a);
      var sends := Accepted(w, driver, rows, a) && p in rows;
      && TransfersNameBatches(w')
      && SentCount(w'.transfers, w'.batches, p)
         == SentCount(w.transfers, w.batches, p) + (if sends then 1 else 0)
      && SentSum(w'.transfers, w'.batches, p)
         == SentSum(w.transfers, w.batches, p) + (if sends then NetFare(w.payments[p]) else 0)
  {
    PayoutTransfers(w, driver, rows, a);
    PayoutBatches(w, driver, rows, a);
    if Attempted(w, driver, rows, a) {
      var b := FinalBatch(w, driver, rows, a);
      FinalItemFigures(w, driver, rows, a, p);
      SentFrame(w.transfers, w.batches, b, p);
      SentPush(w.transfers, w.batches, b, StripeTransfer(|w.batches|, driver, NetTotal(w.payments, rows)), p);
    }
  }

  lemma DistinctPrefix(rows: seq<Id>, k: nat)
    requires Distinct(rows) && k <= |rows|
    ensures Distinct(rows[..k]) && forall q | q in rows[..k] :: q in rows
  {
  }

  /** An attempt moves only the transfer column, by the debits that were written. */
  lemma PayoutMoves(w: World, driver: Id, rows: seq<Id>, a: Attempt, p: Id)
    requires Distinct(rows) && forall q | q in rows :: q in w.payments
    ensures
      var debited := rows[..DebitCount(w, driver, rows, a)];
      BooksOf(Payout(w, driver, rows, a).ledger, p)
      == if p in debited then Plus(BooksOf(w.ledger, p), 0, 0, 0, 0, NetFare(w.payments[p])) else BooksOf(w.ledger, p)
  {
    var k := DebitCount(w, driver, rows, a);
    DistinctPrefix(rows, k);
    PayoutLedger(w, driver, rows, a);
    TransferMoves(w.ledger, w.payments, driver, rows[..k], w.groups, p);
    var debited := w.ledger + TransferEntries(w.payments, driver, rows[..k], w.groups);
    if Throws(w, driver, rows, a) {
      ReversalMoves(debited, w.payments, driver, rows, a.lost, w.groups + k, p);
    } else {
      assert debited + [] == debited;
    }
  }

  lemma SentAgrees(row: Payment, k: Books, marks: int, status: PaymentStatus, transfers: int)
    requires Agrees(row, k, marks) && row.status == PayoutEligible
    requires status in {PayoutEligible, TransferCreated, PayoutCompleted}
    ensures Agrees(row.(status := status), k.(transfers := transfers), marks)
  {
  }

  lemma PayoutRow(w: World, driver: Id, rows: seq<Id>, a: Attempt, p: Id)
    requires IsListing(rows, SelectedIds(w, driver)) && PaymentSound(w, p) && p in w.payments
    ensures forall q | q in rows :: q in w.payments
    ensures
      var w' := Payout(w, driver, rows, a);
      && p in w'.payments
      && (p !in rows ==> w'.payments[p] == w.payments[p])
      && (p in rows ==> w.payments[p].status == PayoutEligible
                        && w'.payments[p] == w.payments[p].(status := w'.payments[p].status)
                        && w'.payments[p].status in {PayoutEligible, TransferCreated, PayoutCompleted})
  {
    SelectedRows(w, driver, rows);
    PayoutRows(w, driver, rows, a);
  }

  lemma PayoutKeeps(w: World, driver: Id, rows: seq<Id>, a: Attempt, p: Id)
    requires IsListing(rows, SelectedIds(w, driver)) && PaymentSound(w, p)
    ensures forall q | q in rows :: q in w.payments
    ensures Keeps(w, Payout(w, driver, rows, a), p, false)
  {
    SelectedRows(w, driver, rows);
    var w' := Payout(w, driver, rows, a);
    assert w'.outbox == w.outbox by { PayoutElsewhere(w, driver, rows, a); }
    assert w'.payments.Keys == w.payments.Keys by { PayoutRows(w, driver, rows, a); }
    var k, k' := BooksOf(w.ledger, p), BooksOf(w'.ledger, p);
    assert k' == k.(transfers := k'.transfers) && (p !in rows ==> k' == k) by {
      DistinctPrefix(rows, DebitCount(w, driver, rows, a));
      PayoutMoves(w, driver, rows, a, p);
    }
    PayoutPaid(w, driver, rows, a, p);
    if p in w.payments {
      PayoutRow(w, driver, rows, a, p);
      if p in rows {
        SentAgrees(w.payments[p], k, EscrowMarks(w.outbox, p), w'.payments[p].status, k'.transfers);
      }
    }
  }

  // ---------------------------------------------------------------------------------------------
  // Settlements
  // ---------------------------------------------------------------------------------------------

  lemma PlanIsSound(w: World, b: Id, full: bool, percent: Option<real>)
    requires b in w.bookings && b in w.payments && ChargeSound(w.payments[b])
    ensures
      var plan := PlanRefund(w, b, full, percent);
      && 0 <= plan.percent <= 100 && 0 <= plan.refund <= w.payments[b].amountTotal
      && 0 <= plan.split.fare && 0 <= plan.split.fee && plan.split.fare + plan.split.fee == plan.refund
  {
    var row := w.payments[b];
    var plan := PlanRefund(w, b, full, percent);
    PercentOfBounds(row.amountTotal, plan.percent);
    RefundSplitIsExact(row.amountTotal, row.fareAmount, plan.refund);
  }

  /** The row a settlement leaves: a status, and the shares of the refund it issued. */
  function SettledRow(row: Payment, split: RefundSplit, status: PaymentStatus, at: Option<int>): Payment {
    row.(status := status, payoutEligibleAt := at,
         refundedFareAmount := row.refundedFareAmount + split.fare,
         refundedFeeAmount := row.refundedFeeAmount + split.fee)
  }

  lemma SettledAgrees(
    row: Payment, k: Books, marks: int, split: RefundSplit, status: PaymentStatus, at: Option<int>)
    requires Agrees(row, k, marks) && 0 <= split.fare && 0 <= split.fee
    requires status in {RefundPending, Refunded, PayoutEligible}
    ensures Agrees(SettledRow(row, split, status, at), Plus(k, 0, 0, -split.fare, -split.fee, 0), marks)
  {
  }

  /** A settlement changes one payment row, in status and refunded shares only. */
  lemma SettledPayments(w: World, d: Id, resolution: Resolution, percent: Option<real>, ok: bool, now: int)
    requires CanSettle(w, d) && w.disputes[d].booking in w.payments
    ensures
      var b := w.disputes[d].booking;
      var out := Settle(w, d, resolution, percent, ok, now);
      && out.w.batches == w.batches && out.w.outbox == w.outbox
      && b in out.w.payments
      && var split := (if Refunds(w, b, resolution, percent, ok)
                       then PlanRefund(w, b, resolution == ToRefund, percent).split else RefundSplit(0, 0));
      && out.w.payments == w.payments[b := out.w.payments[b]]
      && (out.writes == [] ==> out.w.payments == w.payments && !Refunds(w, b, resolution, percent, ok))
      && (out.writes != [] ==>
            out.w.payments[b] == SettledRow(w.payments[b], split, out.writes[|out.writes| - 1],
                                            out.w.payments[b].payoutEligibleAt)
            && out.writes[|out.writes| - 1] in {RefundPending, Refunded, PayoutEligible})
  {
    match resolution
    case ToEscalation =>
    case ToPayout =>
    case ToRefund => SettledByRefundRow(w, d, true, percent, ok, now);
    case ToSplit => SettledByRefundRow(w, d, false, percent, ok, now);
  }

  lemma SettledByRefundRow(w: World, d: Id, full: bool, percent: Option<real>, ok: bool, now: int)
    requires CanSettle(w, d) && w.disputes[d].booking in w.payments
    ensures
      var b := w.disputes[d].booking;
      var plan := PlanRefund(w, b, full, percent);
      var out := SettleByRefund(w, d, full, percent, ok, now);
      var row := w.payments[b];
      && out.w.batches == w.batches && out.w.outbox == w.outbox
      && b in out.w.payments
      && out.w.payments == w.payments[b := out.w.payments[b]]
      && out.writes == (if !Issues(w.bookings[b], plan) then [FinalStatus(full, plan)]
                        else if CallsStripe(w.bookings[b]) && !ok then [RefundPending]
                        else [RefundPending, FinalStatus(full, plan)])
      && out.w.payments[b] == SettledRow(
           row,
           if Issues(w.bookings[b], plan) && (CallsStripe(w.bookings[b]) ==> ok) then plan.split else RefundSplit(0, 0),
           out.writes[|out.writes| - 1],
           out.w.payments[b].payoutEligibleAt)
  {
  }

  /** The ledger gains one refund group when a refund of a payment goes through, and nothing otherwise. */
  ghost predicate RefundBooked(w: World, w': World, b: Id, plan: Plan, issued: bool)
    requires b in w.bookings
  {
    if b in w.payments && issued then
      && w'.ledger == w.ledger + RefundGroup(w.groups, b, w.payments[b].rider, w.bookings[b].driver,
                                             plan.refund, plan.split)
      && w'.groups == w.groups + 1
    else
      w'.ledger == w.ledger && w'.groups == w.groups
  }

  lemma SettledByRefundLedger(w: World, d: Id, full: bool, percent: Option<real>, ok: bool, now: int)
    requires CanSettle(w, d)
    ensures
      var b := w.disputes[d].booking;
      var plan := PlanRefund(w, b, full, percent);
      && RefundBooked(w, SettleByRefund(w, d, full, percent, ok, now).w, b, plan,
                      Issues(w.bookings[b], plan) && (CallsStripe(w.bookings[b]) ==> ok))
      && (b !in w.payments ==> Untouched(w, SettleByRefund(w, d, full, percent, ok, now).w))
  {
  }

  predicate Untouched(w: World, w': World) {
    w'.payments == w.payments && w'.ledger == w.ledger && w'.groups == w.groups
    && w'.batches == w.batches && w'.outbox == w.outbox
  }

  /** What the writes after a refund touch: neither money that left nor the booking's intent. */
  lemma FinishMovesNoMoney(w: World, b: Id, full: bool, plan: Plan, now: int)
    requires b in w.bookings
    ensures
      var w' := FinishPayment(FinishRefund(w, b, plan, now), b, full, plan, now);
      && w'.batches == w.batches && w'.transfers == w.transfers
      && b in w'.bookings && w'.bookings[b].stripeIntent == w.bookings[b].stripeIntent
  {
  }

  lemma RefundMovesNoMoney(w: World, d: Id, full: bool, percent: Option<real>, ok: bool, now: int)
    requires CanSettle(w, d)
    ensures
      var b, w' := w.disputes[d].booking, SettleByRefund(w, d, full, percent, ok, now).w;
      && w'.batches == w.batches && w'.transfers == w.transfers
      && b in w'.bookings && w'.bookings[b].stripeIntent == w.bookings[b].stripeIntent
  {
    var b := w.disputes[d].booking;
    var plan := PlanRefund(w, b, full, percent);
    if Issues(w.bookings[b], plan) && (CallsStripe(w.bookings[b]) ==> ok) {
      var begun := BeginRefund(w, b, plan, full);
      FinishMovesNoMoney(if CallsStripe(w.bookings[b]) then RequestRefund(begun, b, plan, true) else begun,
                         b, full, plan, now);
    }
  }

  lemma SettleMovesNoMoney(
    w: World, d: Id, resolution: Resolution, percent: Option<real>, ok: bool, now: int)
    ensures
      var w' := Settle(w, d, resolution, percent, ok, now).w;
      w'.batches == w.batches && w'.transfers == w.transfers
  {
    if CanSettle(w, d) {
      RefundMovesNoMoney(w, d, resolution == ToRefund, percent, ok, now);
    }
  }

  lemma SettledLedger(w: World, d: Id, resolution: Resolution, percent: Option<real>, ok: bool, now: int)
    requires CanSettle(w, d)
    ensures
      var b, w' := w.disputes[d].booking, Settle(w, d, resolution, percent, ok, now).w;
      && RefundBooked(w, w', b, PlanRefund(w, b, resolution == ToRefund, percent),
                      Refunds(w, b, resolution, percent, ok))
      && (b !in w.payments ==> Untouched(w, w'))
  {
    match resolution
    case ToEscalation =>
    case ToPayout =>
    case ToRefund => SettledByRefundLedger(w, d, true, percent, ok, now);
    case ToSplit => SettledByRefundLedger(w, d, false, percent, ok, now);
  }

  /** What a settlement adds to the books of any payment. */
  lemma SettledBooks(w: World, d: Id, resolution: Resolution, percent: Option<real>, ok: bool, now: int, p: Id)
    requires CanSettle(w, d) && w.disputes[d].booking in w.payments
    requires ChargeSound(w.payments[w.disputes[d].booking])
    ensures
      var b := w.disputes[d].booking;
      var split := PlanRefund(w, b, resolution == ToRefund, percent).split;
      && 0 <= split.fare && 0 <= split.fee
      && BooksOf(Settle(w, d, resolution, percent, ok, now).w.ledger, p)
         == if p == b && Refunds(w, b, resolution, percent, ok)
            then Plus(BooksOf(w.ledger, p), 0, 0, -split.fare, -split.fee, 0) else BooksOf(w.ledger, p)
  {
    var b := w.disputes[d].booking;
    var plan := PlanRefund(w, b, resolution == ToRefund, percent);
    SettledLedger(w, d, resolution, percent, ok, now);
    PlanIsSound(w, b, resolution == ToRefund, percent);
    RefundMoves(w.ledger, w.groups, b, w.payments[b].rider, w.bookings[b].driver, plan.refund, plan.split, p);
  }

  /** A change of one row, with its books: what is left is the agreement of that row. */
  lemma RowKeeps(w: World, w': World, p: Id, hit: bool)
    requires PaymentSound(w, p) && p in w.payments && p in w'.payments
    requires w'.batches == w.batches && w'.outbox == w.outbox
    requires Agrees(w'.payments[p], BooksOf(w'.ledger, p), EscrowMarks(w.outbox, p))
    requires BooksOf(w'.ledger, p).receipts == BooksOf(w.ledger, p).receipts
    requires Unreceived(w'.payments[p].status) <==> Unreceived(w.payments[p].status) && !hit
    ensures Keeps(w, w', p, hit && Unreceived(w.payments[p].status))
  {
  }

  lemma UntouchedKeeps(w: World, w': World, p: Id)
    requires PaymentSound(w, p) && w'.batches == w.batches && w'.outbox == w.outbox
    requires BooksOf(w'.ledger, p) == BooksOf(w.ledger, p)
    requires if p in w.payments then p in w'.payments && w'.payments[p] == w.payments[p] else p !in w'.payments
    ensures Keeps(w, w', p, false)
  {
  }

  lemma SettledKeeps(w: World, w': World, p: Id, split: RefundSplit, status: PaymentStatus)
    requires PaymentSound(w, p) && p in w.payments && p in w'.payments && 0 <= split.fare && 0 <= split.fee
    requires w'.batches == w.batches && w'.outbox == w.outbox
    requires w'.payments[p] == SettledRow(w.payments[p], split, status, w'.payments[p].payoutEligibleAt)
    requires status in {RefundPending, Refunded, PayoutEligible}
    requires BooksOf(w'.ledger, p) == Plus(BooksOf(w.ledger, p), 0, 0, -split.fare, -split.fee, 0)
    ensures Keeps(w, w', p, Unreceived(w.payments[p].status))
  {
    SettledAgrees(w.payments[p], BooksOf(w.ledger, p), EscrowMarks(w.outbox, p), split, status,
                  w'.payments[p].payoutEligibleAt);
    RowKeeps(w, w', p, true);
  }

  lemma SettledRowKeeps(
    w: World, d: Id, resolution: Resolution, percent: Option<real>, ok: bool, now: int)
    requires CanSettle(w, d) && w.disputes[d].booking in w.payments
    requires PaymentSound(w, w.disputes[d].booking)
    requires Settle(w, d, resolution, percent, ok, now).writes != []
    ensures
      var b, w' := w.disputes[d].booking, Settle(w, d, resolution, percent, ok, now).w;
      Keeps(w, w', b, Unreceived(w.payments[b].status))
  {
    var b, out := w.disputes[d].booking, Settle(w, d, resolution, percent, ok, now);
    var split := if Refunds(w, b, resolution, percent, ok)
                 then PlanRefund(w, b, resolution == ToRefund, percent).split else RefundSplit(0, 0);
    SettledPayments(w, d, resolution, percent, ok, now);
    SettledBooks(w, d, resolution, percent, ok, now, b);
    SettledKeeps(w, out.w, b, split, out.writes[|out.writes| - 1]);
  }

  lemma SettleOwnKeeps(
    w: World, d: Id, resolution: Resolution, percent: Option<real>, ok: bool, now: int, p: Id)
    requires CanSettle(w, d) && w.disputes[d].booking in w.payments
    requires PaymentSound(w, p) && PaymentSound(w, w.disputes[d].booking)
    ensures
      var s := SettleStep(d, resolution, percent, ok, now);
      Keeps(w, Settle(w, d, resolution, percent, ok, now).w, p, SettledUnreceived(w, s, p))
  {
    var b, out := w.disputes[d].booking, Settle(w, d, resolution, percent, ok, now);
    if p == b && out.writes != [] {
      SettledRowKeeps(w, d, resolution, percent, ok, now);
    } else {
      SettledPayments(w, d, resolution, percent, ok, now);
      SettledBooks(w, d, resolution, percent, ok, now, p);
      UntouchedKeeps(w, out.w, p);
    }
  }

  lemma SettleKeeps(
    w: World, d: Id, resolution: Resolution, percent: Option<real>, ok: bool, now: int, p: Id)
    requires PaymentSound(w, p)
    requires CanSettle(w, d) ==> PaymentSound(w, w.disputes[d].booking)
    ensures
      var s := SettleStep(d, resolution, percent, ok, now);
      Keeps(w, Settle(w, d, resolution, percent, ok, now).w, p, SettledUnreceived(w, s, p))
  {
    if CanSettle(w, d) {
      if w.disputes[d].booking in w.payments {
        SettleOwnKeeps(w, d, resolution, percent, ok, now, p);
      } else {
        SettledLedger(w, d, resolution, percent, ok, now);
      }
    }
  }
}
