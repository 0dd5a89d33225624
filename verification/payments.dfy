/** The payment status machine, refunds, and the outbox that drives it: each call as a function on the tables. */
module Payments {
  import opened Money
  import opened Tables
  import opened Ledger

  // ---------------------------------------------------------------------------------------------
  // Status machine
  // ---------------------------------------------------------------------------------------------

  function Transitions(s: PaymentStatus): set<PaymentStatus> {
    match s
    case Created => {PaymentPending, PaymentFailed}
    case PaymentPending => {Paid, PaymentFailed}
    case Paid => {HeldInEscrow, RefundPending}
    case HeldInEscrow => {PayoutEligible, RefundPending}
    case PayoutEligible => {TransferCreated, RefundPending}
    case TransferCreated => {PayoutCompleted, PayoutEligible}
    case RefundPending => {Refunded, PayoutEligible}
    case PayoutCompleted => {}
    case Refunded => {}
    case PaymentFailed => {}
  }

  predicate Allowed(current: PaymentStatus, target: PaymentStatus) {
    target in Transitions(current)
  }

  /** What the driver is still owed. */
  function NetFare(row: Payment): int {
    Max(0, row.fareAmount - row.refundedFareAmount)
  }

  /** What the platform still keeps. */
  function NetPlatformFee(row: Payment): int {
    Max(0, row.platformFeeAmount - row.refundedFeeAmount)
  }

  /** `createPayment`; a second payment for a booking violates the unique key. */
  function CreatePayment(w: World, p: Id, rider: Id, split: PaymentSplit, status: PaymentStatus): World {
    if p in w.payments then w
    else w.(payments := w.payments[p := Payment(rider, split.total, split.fare, split.fee, 0, 0, status, None)])
  }

  /** `assertTransition` after the row was found; every `mark*` call throws when this is false. */
  predicate CanMark(w: World, p: Id, target: PaymentStatus) {
    p in w.payments && Allowed(w.payments[p].status, target)
  }

  function Marked(row: Payment, target: PaymentStatus, now: int): Payment {
    if target == PayoutEligible then row.(status := target, payoutEligibleAt := Some(now))
    else row.(status := target)
  }

  /** The guarded single-row updates: `markPaymentPending`, `markHeldInEscrow`, `markPayoutEligible`, ... */
  function Mark(w: World, p: Id, target: PaymentStatus, now: int): World {
    if CanMark(w, p, target) then
      w.(payments := w.payments[p := Marked(w.payments[p], target, now)])
    else w
  }

  function AppendGroup(w: World, entries: seq<Entry>): World {
    w.(ledger := w.ledger + entries, groups := w.groups + 1)
  }

  function NewEvent(payload: EventPayload): Event {
    Event(payload, Pending, 0, None, None)
  }

  /** `markPaymentPaid`. */
  function MarkPaid(w: World, p: Id, driver: Id): World {
    if CanMark(w, p, Paid) then
      var row := w.payments[p];
      var paid := w.(payments := w.payments[p := row.(status := Paid)]);
      var booked := AppendGroup(paid, ReceiptGroup(w.groups, p, row, driver));
      booked.(outbox := booked.outbox + [NewEvent(PaymentPaid(p))])
    else w
  }

  /** `markBookingPaymentPaid`. */
  function MarkBookingPaid(w: World, p: Id, driver: Id): World {
    if p in w.payments && w.payments[p].status == Created then
      MarkPaid(Mark(w, p, PaymentPending, 0), p, driver)
    else if p in w.payments && w.payments[p].status == PaymentPending then
      MarkPaid(w, p, driver)
    else w
  }

  // ---------------------------------------------------------------------------------------------
  // Refunds
  // ---------------------------------------------------------------------------------------------

  /** `markRefunded` gets past its first transition check. */
  predicate Refundable(s: PaymentStatus) {
    s == RefundPending || Allowed(s, RefundPending)
  }

  function EffectiveRefund(row: Payment, amount: Option<int>): int {
    amount.GetOr(row.amountTotal)
  }

  function RefundShares(row: Payment, amount: Option<int>): RefundSplit {
    ResolveRefundSplit(row.amountTotal, row.fareAmount, EffectiveRefund(row, amount))
  }

  /** A full refund, or one that leaves no fare, ends the payment; any other leaves a residual to pay out. */
  predicate RefundIsFinal(row: Payment, amount: Option<int>) {
    var s := RefundShares(row, amount);
    var fare := row.refundedFareAmount + s.fare;
    var fee := row.refundedFeeAmount + s.fee;
    !(fare + fee < row.amountTotal && row.fareAmount - fare > 0)
  }

  function RefundedRow(row: Payment, amount: Option<int>, now: int): Payment {
    var s := RefundShares(row, amount);
    var next := if RefundIsFinal(row, amount) then Refunded else PayoutEligible;
    Marked(row, next, now).(
      refundedFareAmount := Min(row.fareAmount, row.refundedFareAmount + s.fare),
      refundedFeeAmount := Min(row.platformFeeAmount, row.refundedFeeAmount + s.fee))
  }

  /** `markRefunded`. */
  function MarkRefunded(w: World, p: Id, driver: Id, amount: Option<int>, now: int): World {
    if p in w.payments && Refundable(w.payments[p].status) then
      var row := w.payments[p];
      AppendGroup(
        w.(payments := w.payments[p := RefundedRow(row, amount, now)]),
        RefundGroup(w.groups, p, row.rider, driver, EffectiveRefund(row, amount), RefundShares(row, amount)))
    else w
  }

  /** `recordProviderFeeExpense`. */
  function RecordProviderFee(w: World, p: Id, fee: int): World {
    if fee > 0 then AppendGroup(w, ProviderFeeGroup(w.groups, p, fee)) else w
  }

  predicate HasIntent(w: World, b: Id, intent: Id) {
    b in w.bookings && w.bookings[b].stripeIntent == Some(intent)
  }

  function IntentIds(w: World, intent: Id): set<Id> {
    set b | b in w.bookings && HasIntent(w, b, intent)
  }

  function StampedRow(row: Booking, amount: Option<int>, settled: bool, now: int): Booking {
    row.(refundAmount := amount, refundedAt := if settled then Some(now) else row.refundedAt)
  }

  function StampAll(
    bookings: map<Id, Booking>, ids: set<Id>, amount: Option<int>, settled: bool, now: int): map<Id, Booking>
  {
    map b | b in bookings :: if b in ids then StampedRow(bookings[b], amount, settled, now) else bookings[b]
  }

  /** Every booking of the intent is stamped. */
  function Stamped(w: World, intent: Id, amount: Option<int>, settled: bool, now: int): World {
    w.(bookings := StampAll(w.bookings, IntentIds(w, intent), amount, settled, now))
  }

  /** What `findFirst` may return for an intent: one of its bookings, or nothing when there is none. */
  predicate FoundBy(w: World, intent: Id, found: Option<Id>) {
    if found.Some? then HasIntent(w, found.value, intent) else forall b | b in w.bookings :: !HasIntent(w, b, intent)
  }

  /** `applyChargeRefunded` and `applyRefundUpdated`: the booking rows first, then the payment when it is settled. */
  function RefundWebhook(
    w: World, intent: Id, found: Option<Id>, amount: Option<int>, settled: bool, now: int): World
    requires FoundBy(w, intent, found)
  {
    var w' := Stamped(w, intent, amount, settled, now);
    if settled && found.Some? then MarkRefunded(w', found.value, w.bookings[found.value].driver, amount, now) else w'
  }

  // ---------------------------------------------------------------------------------------------
  // Outbox
  // ---------------------------------------------------------------------------------------------

  const MAX_RETRIES := 5
  const RETRY_DELAY_MS := 60_000

  function Pow2(n: nat): nat {
    if n == 0 then 1 else 2 * Pow2(n - 1)
  }

  predicate Due(e: Event, now: int) {
    e.status == Pending && (e.nextRetryAt.None? || e.nextRetryAt.value <= now)
  }

  /** The first `take` due events at or after `start`, oldest first. */
  function SelectDue(outbox: seq<Event>, start: nat, take: nat, now: int): (sel: seq<nat>)
    requires start <= |outbox|
    ensures |sel| <= take
    ensures forall k | 0 <= k < |sel| :: start <= sel[k] < |outbox| && Due(outbox[sel[k]], now)
    ensures forall j, k | 0 <= j < k < |sel| :: sel[j] < sel[k]
    ensures |sel| < take ==> forall e | start <= e < |outbox| && Due(outbox[e], now) :: e in sel
    decreases |outbox| - start
  {
    if start == |outbox| || take == 0 then []
    else if Due(outbox[start], now) then
      var rest := SelectDue(outbox, start + 1, take - 1, now);
      assert forall e | start <= e < |outbox| && Due(outbox[e], now) && e in rest :: e in [start] + rest;
      [start] + rest
    else SelectDue(outbox, start + 1, take, now)
  }

  predicate HandlerSucceeds(w: World, payload: EventPayload)
    requires !payload.Unhandled?
  {
    match payload
    case PaymentPaid(p) => CanMark(w, p, HeldInEscrow)
    case BookingCompleted(None) => true
    case BookingCompleted(Some(p)) => CanMark(w, p, PayoutEligible)
  }

  function Handle(w: World, payload: EventPayload, now: int): World {
    match payload
    case PaymentPaid(p) => Mark(w, p, HeldInEscrow, now)
    case BookingCompleted(Some(p)) => Mark(w, p, PayoutEligible, now)
    case _ => w
  }

  /** The event row after a handler threw. */
  function Retried(e: Event, now: int): Event {
    var count := e.retryCount + 1;
    if count >= MAX_RETRIES then
      e.(status := Failed, retryCount := count, processedAt := Some(now))
    else
      e.(status := Pending, retryCount := count, nextRetryAt := Some(now + RETRY_DELAY_MS * Pow2(count)))
  }

  /** One event through `processOutboxEvents`. */
  function Deliver(w: World, e: nat, now: int): World
    requires e < |w.outbox|
  {
    var ev := w.outbox[e];
    if ev.payload.Unhandled? then
      w.(outbox := w.outbox[e := ev.(status := Failed, processedAt := Some(now))])
    else if HandlerSucceeds(w, ev.payload) then
      Handle(w, ev.payload, now).(outbox := w.outbox[e := ev.(status := Processed, processedAt := Some(now))])
    else
      w.(outbox := w.outbox[e := Retried(ev, now)])
  }

  function DeliverAll(w: World, sel: seq<nat>, now: int): (r: World)
    requires forall k | 0 <= k < |sel| :: sel[k] < |w.outbox|
    ensures |r.outbox| == |w.outbox|
  {
    if sel == [] then w
    else
      var front := sel[..|sel| - 1];
      Deliver(DeliverAll(w, front, now), sel[|sel| - 1], now)
  }

  lemma DeliverAllNext(w: World, sel: seq<nat>, i: nat, now: int)
    requires forall k | 0 <= k < |sel| :: sel[k] < |w.outbox|
    requires i < |sel|
    ensures DeliverAll(w, sel[..i + 1], now) == Deliver(DeliverAll(w, sel[..i], now), sel[i], now)
  {
    assert sel[..i + 1][..i] == sel[..i];
  }

  /** How many of the selected events now carry a status. */
  function CountWith(outbox: seq<Event>, sel: seq<nat>, s: EventStatus): nat
    requires forall k | 0 <= k < |sel| :: sel[k] < |outbox|
  {
    if sel == [] then 0
    else
      var front := sel[..|sel| - 1];
      CountWith(outbox, front, s) + if outbox[sel[|sel| - 1]].status == s then 1 else 0
  }

  lemma {:induction false} CountWithFrame(a: seq<Event>, b: seq<Event>, sel: seq<nat>, s: EventStatus)
    requires |a| == |b|
    requires forall k | 0 <= k < |sel| :: sel[k] < |a| && a[sel[k]] == b[sel[k]]
    ensures CountWith(a, sel, s) == CountWith(b, sel, s)
  {
    if sel != [] {
      CountWithFrame(a, b, sel[..|sel| - 1], s);
    }
  }

  lemma CountWithNext(a: seq<Event>, b: seq<Event>, sel: seq<nat>, i: nat, s: EventStatus)
    requires i < |sel| && |a| == |b|
    requires forall k | 0 <= k < |sel| :: sel[k] < |a|
    requires sel[i] !in sel[..i] && b == a[sel[i] := b[sel[i]]]
    ensures CountWith(b, sel[..i + 1], s) == CountWith(a, sel[..i], s) + if b[sel[i]].status == s then 1 else 0
  {
    assert sel[..i + 1][..i] == sel[..i];
    CountWithFrame(a, b, sel[..i], s);
  }

  /** `processOutboxEvents`. */
  function ProcessOutbox(w: World, batchSize: nat, now: int): World {
    DeliverAll(w, SelectDue(w.outbox, 0, batchSize, now), now)
  }

  // ---------------------------------------------------------------------------------------------
  // Eligibility
  // ---------------------------------------------------------------------------------------------

  const ELIGIBILITY_BATCH := 50

  /** Completed before the cutoff, undisputed, and still in escrow. */
  predicate ReadyForPayout(w: World, p: Id, cutoff: int) {
    && p in w.payments && p in w.bookings
    && w.payments[p].status == HeldInEscrow
    && w.bookings[p].status == Completed
    && w.bookings[p].completedAt.Some? && w.bookings[p].completedAt.value < cutoff
    && !w.HasOpenDispute(p)
  }

  function ReadyIds(w: World, cutoff: int): set<Id> {
    set p | p in w.payments && ReadyForPayout(w, p, cutoff)
  }

  function MarkAll(ps: map<Id, Payment>, ids: set<Id>, target: PaymentStatus, now: int): map<Id, Payment> {
    map p | p in ps :: if p in ids then Marked(ps[p], target, now) else ps[p]
  }

  /** The second half of `checkAndMarkEligible`: every payment past the delay becomes eligible. */
  function MarkReady(w: World, delayMinutes: nat, now: int): World {
    w.(payments := MarkAll(w.payments, ReadyIds(w, now - delayMinutes * 60 * 1000), PayoutEligible, now))
  }

  /** `checkAndMarkEligible`: the outbox is drained first. */
  function CheckAndMarkEligible(w: World, delayMinutes: nat, now: int): World {
    MarkReady(ProcessOutbox(w, ELIGIBILITY_BATCH, now), delayMinutes, now)
  }
}
