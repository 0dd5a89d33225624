/** What each call does to a driver's balance, and what the balance is after every run. */
module BalanceLaws {
  import opened Money
  import opened Tables
  import opened Ledger
  import opened Payments
  import opened Payouts
  import opened Settlement
  import opened MoneyRuns
  import opened MoneyTheorems
  import opened Progress
  import opened Solvency
  import opened PayoutLaws

  // ---------------------------------------------------------------------------------------------
  // One call
  // ---------------------------------------------------------------------------------------------

  lemma AppendMovesBalance(ledger: seq<Entry>, es: seq<Entry>, user: Id)
    ensures Sum(ledger + es, OfDriver(user), DriverNet)
         == Sum(ledger, OfDriver(user), DriverNet) + Sum(es, OfDriver(user), Credits) - Sum(es, OfDriver(user), Debits)
  {
    SumAppend(ledger, es, OfDriver(user), DriverNet);
    NetIsCreditsLessDebits(es, user);
  }

  /** Receiving a payment raises its driver's balance by the fare, once, and nobody else's. */
  lemma ReceiptRaisesBalance(w: World, p: Id, driver: Id, user: Id)
    requires p in w.payments ==> ChargeSound(w.payments[p])
    ensures
      var received := p in w.payments && w.payments[p].status in {Created, PaymentPending};
      Balance(MarkBookingPaid(w, p, driver), user)
      == Balance(w, user) + if received && user == driver then w.payments[p].fareAmount else 0
  {
    if p in w.payments && w.payments[p].status in {Created, PaymentPending} {
      var row := w.payments[p];
      assert MarkBookingPaid(w, p, driver).ledger == w.ledger + ReceiptGroup(w.groups, p, row, driver) by {
        ReceiptIsBooked(w, p, driver);
      }
      AppendMovesBalance(w.ledger, ReceiptGroup(w.groups, p, row, driver), user);
      ReceiptAccounts(w.groups, p, row, driver, Driver, Some(user));
    }
  }

  lemma ReceiptIsBooked(w: World, p: Id, driver: Id)
    requires p in w.payments && w.payments[p].status in {Created, PaymentPending}
    ensures MarkBookingPaid(w, p, driver).ledger == w.ledger + ReceiptGroup(w.groups, p, w.payments[p], driver)
  {
    var pending := Mark(w, p, PaymentPending, 0);
    assert w.payments[p].status == Created ==>
      ReceiptGroup(w.groups, p, pending.payments[p], driver) == ReceiptGroup(w.groups, p, w.payments[p], driver);
  }

  lemma RefundMovesBalance(
    ledger: seq<Entry>, g: nat, p: Id, rider: Id, driver: Id, refund: int, split: RefundSplit, user: Id)
    requires split.fee >= 0
    ensures Sum(ledger + RefundGroup(g, p, rider, driver, refund, split), OfDriver(user), DriverNet)
         == Sum(ledger, OfDriver(user), DriverNet) - if user == driver then split.fare else 0
  {
    AppendMovesBalance(ledger, RefundGroup(g, p, rider, driver, refund, split), user);
    RefundAccounts(g, p, rider, driver, refund, split, Driver, Some(user));
  }

  /** A refund lowers its driver's balance by the fare's share of it, and nobody else's. */
  lemma RefundLowersBalance(w: World, p: Id, driver: Id, amount: Option<int>, now: int, user: Id)
    requires p in w.payments ==> ChargeSound(w.payments[p])
    ensures
      var refunds := p in w.payments && Refundable(w.payments[p].status);
      Balance(MarkRefunded(w, p, driver, amount, now), user)
      == Balance(w, user) - if refunds && user == driver then RefundShares(w.payments[p], amount).fare else 0
  {
    if p in w.payments && Refundable(w.payments[p].status) {
      var row := w.payments[p];
      RefundTables(w, p, driver, amount, now);
      RefundSplitIsExact(row.amountTotal, row.fareAmount, EffectiveRefund(row, amount));
      RefundMovesBalance(w.ledger, w.groups, p, row.rider, driver, EffectiveRefund(row, amount),
                         RefundShares(row, amount), user);
    }
  }

  /** So does a settlement whose refund goes through. */
  lemma SettlementLowersBalance(
    w: World, d: Id, resolution: Resolution, percent: Option<real>, ok: bool, now: int, user: Id)
    requires CanSettle(w, d) && w.disputes[d].booking in w.payments && ChargeSound(w.payments[w.disputes[d].booking])
    ensures
      var b := w.disputes[d].booking;
      Balance(Settle(w, d, resolution, percent, ok, now).w, user)
      == Balance(w, user)
         - if Refunds(w, b, resolution, percent, ok) && user == w.bookings[b].driver
           then PlanRefund(w, b, resolution == ToRefund, percent).split.fare else 0
  {
    var b := w.disputes[d].booking;
    var plan := PlanRefund(w, b, resolution == ToRefund, percent);
    SettledLedger(w, d, resolution, percent, ok, now);
    PlanIsSound(w, b, resolution == ToRefund, percent);
    RefundMovesBalance(w.ledger, w.groups, b, w.payments[b].rider, w.bookings[b].driver, plan.refund, plan.split, user);
  }

  /** A successful payout lowers its driver's balance by the net fares of its rows, and nobody else's. */
  lemma PayoutLowersBalance(w: World, driver: Id, rows: seq<Id>, a: Attempt, user: Id)
    requires (forall q | q in rows :: q in w.payments) && Succeeds(w, driver, rows, a)
    ensures Balance(Payout(w, driver, rows, a), user)
         == Balance(w, user) - if user == driver then NetTotal(w.payments, rows) else 0
  {
    PayoutBalance(w, driver, rows, a, user);
    assert rows[..|rows|] == rows;
  }

  // ---------------------------------------------------------------------------------------------
  // Every driver entry is for the driver of its payment
  // ---------------------------------------------------------------------------------------------

  /** `driverOf` is who drives each booking; calls and bookings agree with it. */
  predicate Names(w: World, s: Step, driverOf: Id -> Id) {
    && (forall b | b in w.bookings :: w.bookings[b].driver == driverOf(b))
    && (s.PaidStep? ==> s.driver == driverOf(s.p))
    && (s.RefundStep? ==> s.driver == driverOf(s.p))
  }

  ghost predicate AllName(w: World, steps: seq<Step>, driverOf: Id -> Id)
    requires IsRun(w, steps)
    decreases |steps|
  {
    steps == [] || (Names(w, steps[0], driverOf) && AllName(Apply(w, steps[0]), steps[1..], driverOf))
  }

  predicate Attributed(e: Entry, payments: map<Id, Payment>, driverOf: Id -> Id) {
    e.account == Driver ==> e.payment in payments && e.user == Some(driverOf(e.payment))
  }

  predicate AllAttributed(ledger: seq<Entry>, payments: map<Id, Payment>, driverOf: Id -> Id) {
    forall e | e in ledger :: Attributed(e, payments, driverOf)
  }

  lemma AppendAttributed(
    ledger: seq<Entry>, es: seq<Entry>, payments: map<Id, Payment>, more: map<Id, Payment>, driverOf: Id -> Id)
    requires AllAttributed(ledger, payments, driverOf) && AllAttributed(es, payments, driverOf)
    requires forall p | p in payments :: p in more
    ensures AllAttributed(ledger + es, more, driverOf)
  {
  }

  lemma {:induction false} TransfersAttributed(
    snap: map<Id, Payment>, driver: Id, rows: seq<Id>, g: nat, driverOf: Id -> Id)
    requires forall p | p in rows :: p in snap && driverOf(p) == driver
    ensures AllAttributed(TransferEntries(snap, driver, rows, g), snap, driverOf)
  {
    if rows != [] {
      assert rows[|rows| - 1] in rows;
      TransfersAttributed(snap, driver, rows[..|rows| - 1], g, driverOf);
    }
  }

  lemma {:induction false} ReversalsAttributed(
    snap: map<Id, Payment>, driver: Id, rows: seq<Id>, lost: set<Id>, g: nat, driverOf: Id -> Id)
    requires forall p | p in rows :: p in snap && driverOf(p) == driver
    ensures AllAttributed(ReversalEntries(snap, driver, rows, lost, g), snap, driverOf)
  {
    if rows != [] {
      assert rows[|rows| - 1] in rows;
      ReversalsAttributed(snap, driver, rows[..|rows| - 1], lost, g, driverOf);
    }
  }

  lemma PayoutAttributes(w: World, driver: Id, rows: seq<Id>, a: Attempt, driverOf: Id -> Id)
    requires IsListing(rows, SelectedIds(w, driver)) && AllAttributed(w.ledger, w.payments, driverOf)
    requires forall b | b in w.bookings :: w.bookings[b].driver == driverOf(b)
    ensures forall p | p in rows :: p in w.payments
    ensures AllAttributed(Payout(w, driver, rows, a).ledger, w.payments, driverOf)
  {
    forall p | p in rows ensures p in w.payments && driverOf(p) == driver {
      assert p in SelectedIds(w, driver);
    }
    var k := DebitCount(w, driver, rows, a);
    var debits, reversed := TransferEntries(w.payments, driver, rows[..k], w.groups), Reversed(w, driver, rows, a, k);
    assert Payout(w, driver, rows, a).ledger == w.ledger + debits + reversed by {
      PayoutLedger(w, driver, rows, a);
    }
    TransfersAttributed(w.payments, driver, rows[..k], w.groups, driverOf);
    ReversalsAttributed(w.payments, driver, rows, a.lost, w.groups + k, driverOf);
    AppendAttributed(w.ledger, debits, w.payments, w.payments, driverOf);
    AppendAttributed(w.ledger + debits, reversed, w.payments, w.payments, driverOf);
  }

  lemma RefundAttributes(w: World, q: Id, driver: Id, amount: Option<int>, now: int, driverOf: Id -> Id)
    requires AllAttributed(w.ledger, w.payments, driverOf) && driver == driverOf(q)
    ensures AllAttributed(MarkRefunded(w, q, driver, amount, now).ledger, w.payments, driverOf)
  {
  }

  lemma SettleAttributes(
    w: World, d: Id, resolution: Resolution, percent: Option<real>, ok: bool, now: int, driverOf: Id -> Id)
    requires AllAttributed(w.ledger, w.payments, driverOf)
    requires forall b | b in w.bookings :: w.bookings[b].driver == driverOf(b)
    ensures AllAttributed(Settle(w, d, resolution, percent, ok, now).w.ledger, w.payments, driverOf)
  {
    if CanSettle(w, d) {
      SettledLedger(w, d, resolution, percent, ok, now);
    }
  }

  /** What the calls for one payment append, at most. */
  lemma CallAttributes(w: World, s: Step, driverOf: Id -> Id)
    requires Enabled(w, s) && Names(w, s, driverOf) && AllAttributed(w.ledger, w.payments, driverOf)
    requires !s.PayoutStep?
    ensures AllAttributed(Apply(w, s).ledger, w.payments, driverOf)
  {
    match s
    case PaidStep(q, driver) =>
      if q in w.payments && w.payments[q].status in {Created, PaymentPending} {
        ReceiptIsBooked(w, q, driver);
      }
    case OutboxStep(batchSize, now) => DeliverAllLedger(w, SelectDue(w.outbox, 0, batchSize, now), now);
    case EligibleStep(_, now) => DeliverAllLedger(w, SelectDue(w.outbox, 0, ELIGIBILITY_BATCH, now), now);
    case RefundStep(q, driver, amount, now) => RefundAttributes(w, q, driver, AsInt(amount), now, driverOf);
    case WebhookStep(intent, found, amount, settled, now) =>
      if found.Some? {
        var w1 := Stamped(w, intent, AsInt(amount), settled, now);
        RefundAttributes(w1, found.value, w.bookings[found.value].driver, AsInt(amount), now, driverOf);
      }
    case SettleStep(d, resolution, percent, ok, now) => SettleAttributes(w, d, resolution, percent, ok, now, driverOf);
    case _ =>
  }

  lemma StepAttributes(w: World, s: Step, driverOf: Id -> Id)
    requires Sound(w) && Enabled(w, s) && Names(w, s, driverOf) && AllAttributed(w.ledger, w.payments, driverOf)
    ensures AllAttributed(Apply(w, s).ledger, Apply(w, s).payments, driverOf)
  {
    var w' := Apply(w, s);
    if s.PayoutStep? {
      PayoutAttributes(w, s.driver, s.rows, s.attempt, driverOf);
    } else {
      CallAttributes(w, s, driverOf);
    }
    forall p | p in w.payments ensures p in w'.payments {
      StepMovesRow(w, s, p);
    }
    assert w'.ledger + [] == w'.ledger;
    AppendAttributed(w'.ledger, [], w.payments, w'.payments, driverOf);
  }

  lemma {:induction false} RunAttributes(w: World, steps: seq<Step>, driverOf: Id -> Id)
    requires Sound(w) && IsRun(w, steps) && AllName(w, steps, driverOf)
    requires AllAttributed(w.ledger, w.payments, driverOf)
    ensures AllAttributed(Run(w, steps).ledger, Run(w, steps).payments, driverOf)
    decreases |steps|
  {
    if steps != [] {
      StepKeepsSound(w, steps[0]);
      StepAttributes(w, steps[0], driverOf);
      RunAttributes(Apply(w, steps[0]), steps[1..], driverOf);
    }
  }

  // ---------------------------------------------------------------------------------------------
  // The balance after every run
  // ---------------------------------------------------------------------------------------------

  /** The driver columns of some payments, added up. */
  function BookedTotal(ledger: seq<Entry>, rows: seq<Id>): int {
    if rows == [] then 0
    else BookedTotal(ledger, rows[..|rows| - 1]) + Sum(ledger, OfPayment(rows[|rows| - 1]), DriverNet)
  }

  lemma {:induction false} BookedTotalEmpty(rows: seq<Id>)
    ensures BookedTotal([], rows) == 0
  {
    if rows != [] {
      BookedTotalEmpty(rows[..|rows| - 1]);
    }
  }

  lemma {:induction false} BookedTotalPush(ledger: seq<Entry>, e: Entry, rows: seq<Id>)
    requires Distinct(rows)
    ensures BookedTotal(ledger + [e], rows)
         == BookedTotal(ledger, rows) + if e.payment in rows then Weight(DriverNet, e) else 0
  {
    if rows != [] {
      var front, last := rows[..|rows| - 1], rows[|rows| - 1];
      BookedTotalPush(ledger, e, front);
      SumPush(ledger, e, OfPayment(last), DriverNet);
      assert e.payment in rows <==> e.payment in front || e.payment == last;
      assert last !in front;
    }
  }

  lemma {:induction false} BalanceIsBookedTotal(
    ledger: seq<Entry>, payments: map<Id, Payment>, driverOf: Id -> Id, driver: Id, rows: seq<Id>)
    requires AllAttributed(ledger, payments, driverOf) && Distinct(rows)
    requires forall p :: p in rows <==> p in payments && driverOf(p) == driver
    ensures Sum(ledger, OfDriver(driver), DriverNet) == BookedTotal(ledger, rows)
  {
    if ledger == [] {
      BookedTotalEmpty(rows);
    } else {
      var front, e := ledger[..|ledger| - 1], ledger[|ledger| - 1];
      BalanceIsBookedTotal(front, payments, driverOf, driver, rows);
      assert ledger == front + [e];
      assert Attributed(e, payments, driverOf);
      BookedTotalPush(front, e, rows);
    }
  }

  /** The fare of a payment that was received and has not been paid out. */
  function StillToPay(row: Payment): int {
    if Unreceived(row.status) || row.status == PayoutCompleted then 0 else NetFare(row)
  }

  /** Fare refunded beyond the fare: the ledger does not clamp refunds. */
  function OverRefunded(ledger: seq<Entry>, p: Id): int {
    Max(0, -Sum(ledger, OfPayment(p), FareOwed))
  }

  /** What a driver's payments leave in their balance. */
  function OwedTotal(w: World, rows: seq<Id>): int
    requires forall p | p in rows :: p in w.payments
  {
    if rows == [] then 0
    else
      var p := rows[|rows| - 1];
      OwedTotal(w, rows[..|rows| - 1])
      + StillToPay(w.payments[p]) + Sum(w.ledger, OfPayment(p), Reversals) - OverRefunded(w.ledger, p)
  }

  /** No settlement of a payment before its receipt or after it was paid out, and no payout of it that breaks off. */
  ghost predicate Undisturbed(w: World, steps: seq<Step>, p: Id)
    requires IsRun(w, steps)
  {
    && !Meets(SettlesUnreceived, w, steps, p) && !Meets(SettlesPaidOut, w, steps, p)
    && !Meets(BreaksOff, w, steps, p)
  }

  lemma BookedIsOwed(start: World, steps: seq<Step>, p: Id)
    requires IsStart(start) && IsRun(start, steps) && p in Run(start, steps).payments && Undisturbed(start, steps, p)
    ensures
      var w := Run(start, steps);
      Sum(w.ledger, OfPayment(p), DriverNet)
      == StillToPay(w.payments[p]) + Sum(w.ledger, OfPayment(p), Reversals) - OverRefunded(w.ledger, p)
  {
    var w := Run(start, steps);
    StartIsSound(start);
    RunKeepsSound(start, steps, p);
    RunKeepsPaidOnce(start, steps, p);
    assert PaymentSound(w, p);
    DerivedColumns(w.ledger, OfPayment(p));
  }

  lemma {:induction false} BookedIsOwedTotal(start: World, steps: seq<Step>, rows: seq<Id>)
    requires IsStart(start) && IsRun(start, steps)
    requires forall p | p in rows :: p in Run(start, steps).payments && Undisturbed(start, steps, p)
    ensures BookedTotal(Run(start, steps).ledger, rows) == OwedTotal(Run(start, steps), rows)
  {
    if rows != [] {
      assert rows[|rows| - 1] in rows;
      BookedIsOwedTotal(start, steps, rows[..|rows| - 1]);
      BookedIsOwed(start, steps, rows[|rows| - 1]);
    }
  }

  /**
   * The balance shown to a driver is what is still to be paid for their rides: after every run it is
   * the fares received and not paid out of exactly their payments, plus the liabilities that refused
   * payouts reopened, less what was refunded beyond a fare.
   */
  lemma BalanceIsStillToPay(start: World, steps: seq<Step>, driverOf: Id -> Id, driver: Id, rows: seq<Id>)
    requires IsStart(start) && IsRun(start, steps) && AllName(start, steps, driverOf) && Distinct(rows)
    requires forall p :: p in rows <==> p in Run(start, steps).payments && driverOf(p) == driver
    requires forall p | p in rows :: Undisturbed(start, steps, p)
    ensures Balance(Run(start, steps), driver) == OwedTotal(Run(start, steps), rows)
  {
    StartIsSound(start);
    RunAttributes(start, steps, driverOf);
    BalanceIsBookedTotal(Run(start, steps).ledger, Run(start, steps).payments, driverOf, driver, rows);
    BookedIsOwedTotal(start, steps, rows);
  }
}
