/** What holds at the end of every run of the money path, however long and however interleaved. */
module MoneyTheorems {
  import opened Money
  import opened Tables
  import opened Ledger
  import opened Payments
  import opened Payouts
  import opened Settlement
  import opened MoneyRuns

  // ---------------------------------------------------------------------------------------------
  // The ledger itself: types, group numbers, balanced groups
  // ---------------------------------------------------------------------------------------------

  lemma {:induction false} OtherGroups(es: seq<Entry>, group: nat, g: nat, c: Column)
    requires (forall e | e in es :: e.group == group) && g != group
    ensures Sum(es, OfGroup(g), c) == 0
  {
    if es != [] {
      assert es[|es| - 1] in es;
      OtherGroups(es[..|es| - 1], group, g, c);
    }
  }

  lemma AppendKeepsLedger(ledger: seq<Entry>, groups: nat, es: seq<Entry>)
    requires LedgerSound(ledger, groups)
    requires forall e | e in es :: WellTyped(e) && e.group == groups
    requires Sum(es, OfGroup(groups), Imbalance) == 0
    ensures LedgerSound(ledger + es, groups + 1)
  {
    forall g: nat ensures GroupSound(ledger + es, g) {
      SumAppend(ledger, es, OfGroup(g), Imbalance);
      if g == groups {
        FreshGroupIsEmpty(ledger, groups, g, Imbalance);
      } else {
        OtherGroups(es, groups, g, Imbalance);
        assert GroupSound(ledger, g);
      }
    }
  }

  lemma PushKeepsLedger(ledger: seq<Entry>, groups: nat, e: Entry)
    requires LedgerSound(ledger, groups) && WellTyped(e) && e.group == groups
    requires e.kind == DriverTransferCreated || e.kind == PayoutFailureReversal
    ensures LedgerSound(ledger + [e], groups + 1)
  {
    SumPush([], e, OfGroup(groups), Imbalance);
    assert [] + [e] == [e];
    AppendKeepsLedger(ledger, groups, [e]);
  }

  lemma ReceiptKeepsLedger(ledger: seq<Entry>, groups: nat, p: Id, row: Payment, driver: Id)
    requires LedgerSound(ledger, groups) && ChargeSound(row)
    ensures LedgerSound(ledger + ReceiptGroup(groups, p, row, driver), groups + 1)
  {
    ReceiptBooks(groups, p, row, driver, OfGroup(groups), Imbalance);
    AppendKeepsLedger(ledger, groups, ReceiptGroup(groups, p, row, driver));
  }

  lemma RefundKeepsLedger(
    ledger: seq<Entry>, groups: nat, p: Id, rider: Id, driver: Id, refund: int, split: RefundSplit)
    requires LedgerSound(ledger, groups) && split.fee >= 0 && split.fare + split.fee == refund
    ensures LedgerSound(ledger + RefundGroup(groups, p, rider, driver, refund, split), groups + 1)
  {
    RefundBooks(groups, p, rider, driver, refund, split, OfGroup(groups), Imbalance);
    AppendKeepsLedger(ledger, groups, RefundGroup(groups, p, rider, driver, refund, split));
  }

  lemma ProviderFeeKeepsLedger(ledger: seq<Entry>, groups: nat, p: Id, fee: int)
    requires LedgerSound(ledger, groups) && fee > 0
    ensures LedgerSound(ledger + ProviderFeeGroup(groups, p, fee), groups + 1)
  {
    ProviderFeeBooks(groups, p, fee, OfGroup(groups), Imbalance);
    AppendKeepsLedger(ledger, groups, ProviderFeeGroup(groups, p, fee));
  }

  lemma {:induction false} TransfersKeepLedger(
    ledger: seq<Entry>, groups: nat, snap: map<Id, Payment>, driver: Id, rows: seq<Id>)
    requires LedgerSound(ledger, groups) && forall p | p in rows :: p in snap
    ensures |TransferEntries(snap, driver, rows, groups)| == |rows|
    ensures LedgerSound(ledger + TransferEntries(snap, driver, rows, groups), groups + |rows|)
  {
    if rows == [] {
      assert ledger + [] == ledger;
    } else {
      var front, last := rows[..|rows| - 1], rows[|rows| - 1];
      TransfersKeepLedger(ledger, groups, snap, driver, front);
      var before := TransferEntries(snap, driver, front, groups);
      var e := TransferEntry(groups + |front|, last, driver, NetFare(snap[last]));
      PushKeepsLedger(ledger + before, groups + |front|, e);
      assert ledger + (before + [e]) == (ledger + before) + [e];
    }
  }

  lemma {:induction false} ReversalsKeepLedger(
    ledger: seq<Entry>, groups: nat, snap: map<Id, Payment>, driver: Id, rows: seq<Id>, lost: set<Id>)
    requires LedgerSound(ledger, groups) && forall p | p in rows :: p in snap
    ensures
      var es := ReversalEntries(snap, driver, rows, lost, groups);
      LedgerSound(ledger + es, groups + |es|)
  {
    if rows == [] {
      assert ledger + [] == ledger;
    } else {
      var front, last := rows[..|rows| - 1], rows[|rows| - 1];
      ReversalsKeepLedger(ledger, groups, snap, driver, front, lost);
      if last !in lost {
        var before := ReversalEntries(snap, driver, front, lost, groups);
        var e := ReversalEntry(groups + |before|, last, driver, NetFare(snap[last]));
        PushKeepsLedger(ledger + before, groups + |before|, e);
        assert ledger + (before + [e]) == (ledger + before) + [e];
      }
    }
  }

  lemma {:induction false} DeliverAllLedger(w: World, sel: seq<nat>, now: int)
    requires forall k | 0 <= k < |sel| :: sel[k] < |w.outbox|
    ensures DeliverAll(w, sel, now).ledger == w.ledger && DeliverAll(w, sel, now).groups == w.groups
  {
    if sel != [] {
      DeliverAllLedger(w, sel[..|sel| - 1], now);
    }
  }

  lemma RefundStepKeepsLedger(w: World, p: Id, driver: Id, amount: Option<int>, now: int)
    requires LedgerSound(w.ledger, w.groups) && PaymentSound(w, p) && amount.GetOr(0) >= 0
    ensures
      var w' := MarkRefunded(w, p, driver, amount, now);
      LedgerSound(w'.ledger, w'.groups)
  {
    if p in w.payments && Refundable(w.payments[p].status) {
      var row := w.payments[p];
      RefundSplitIsExact(row.amountTotal, row.fareAmount, EffectiveRefund(row, amount));
      RefundKeepsLedger(w.ledger, w.groups, p, row.rider, driver,
                        EffectiveRefund(row, amount), RefundShares(row, amount));
    }
  }

  lemma WebhookKeepsLedger(
    w: World, intent: Id, found: Option<Id>, amount: Option<int>, settled: bool, now: int)
    requires LedgerSound(w.ledger, w.groups) && FoundBy(w, intent, found) && amount.GetOr(0) >= 0
    requires found.Some? ==> PaymentSound(w, found.value)
    ensures
      var w' := RefundWebhook(w, intent, found, amount, settled, now);
      LedgerSound(w'.ledger, w'.groups)
  {
    if found.Some? {
      var w1 := Stamped(w, intent, amount, settled, now);
      RefundStepKeepsLedger(w1, found.value, w.bookings[found.value].driver, amount, now);
    }
  }

  lemma PayoutKeepsLedger(w: World, driver: Id, rows: seq<Id>, a: Attempt)
    requires LedgerSound(w.ledger, w.groups) && forall p | p in rows :: p in w.payments
    ensures
      var w' := Payout(w, driver, rows, a);
      LedgerSound(w'.ledger, w'.groups)
  {
    var k := DebitCount(w, driver, rows, a);
    PayoutLedger(w, driver, rows, a);
    TransfersKeepLedger(w.ledger, w.groups, w.payments, driver, rows[..k]);
    var debited := w.ledger + TransferEntries(w.payments, driver, rows[..k], w.groups);
    if Throws(w, driver, rows, a) {
      ReversalsKeepLedger(debited, w.groups + k, w.payments, driver, rows, a.lost);
    } else {
      assert debited + [] == debited;
    }
  }

  lemma SettleKeepsLedger(w: World, d: Id, resolution: Resolution, percent: Option<real>, ok: bool, now: int)
    requires LedgerSound(w.ledger, w.groups)
    requires CanSettle(w, d) ==> PaymentSound(w, w.disputes[d].booking)
    ensures
      var w' := Settle(w, d, resolution, percent, ok, now).w;
      LedgerSound(w'.ledger, w'.groups)
  {
    if CanSettle(w, d) {
      var b := w.disputes[d].booking;
      SettledLedger(w, d, resolution, percent, ok, now);
      if b in w.payments && Refunds(w, b, resolution, percent, ok) {
        var plan := PlanRefund(w, b, resolution == ToRefund, percent);
        PlanIsSound(w, b, resolution == ToRefund, percent);
        RefundKeepsLedger(w.ledger, w.groups, b, w.payments[b].rider, w.bookings[b].driver, plan.refund, plan.split);
      }
    }
  }

  lemma MarkPaidKeepsLedger(w: World, p: Id, driver: Id)
    requires LedgerSound(w.ledger, w.groups) && (p in w.payments ==> ChargeSound(w.payments[p]))
    ensures
      var w' := MarkPaid(w, p, driver);
      LedgerSound(w'.ledger, w'.groups)
  {
    if CanMark(w, p, Paid) {
      ReceiptKeepsLedger(w.ledger, w.groups, p, w.payments[p], driver);
    }
  }

  lemma BookingPaidKeepsLedger(w: World, p: Id, driver: Id)
    requires LedgerSound(w.ledger, w.groups) && (p in w.payments ==> ChargeSound(w.payments[p]))
    ensures
      var w' := MarkBookingPaid(w, p, driver);
      LedgerSound(w'.ledger, w'.groups)
  {
    MarkPaidKeepsLedger(w, p, driver);
    MarkPaidKeepsLedger(Mark(w, p, PaymentPending, 0), p, driver);
  }

  // ---------------------------------------------------------------------------------------------
  // One step, any step
  // ---------------------------------------------------------------------------------------------

  lemma StepKeepsLedger(w: World, s: Step)
    requires Sound(w) && Enabled(w, s)
    ensures LedgerSound(Apply(w, s).ledger, Apply(w, s).groups)
  {
    match s
    case CreateStep(_, _, _, _, _) =>
    case MarkStep(_, _, _) =>
    case PaidStep(p, driver) =>
      assert PaymentSound(w, p);
      BookingPaidKeepsLedger(w, p, driver);
    case RefundStep(p, driver, amount, now) =>
      assert PaymentSound(w, p);
      RefundStepKeepsLedger(w, p, driver, AsInt(amount), now);
    case WebhookStep(intent, found, amount, settled, now) =>
      assert found.Some? ==> PaymentSound(w, found.value);
      WebhookKeepsLedger(w, intent, found, AsInt(amount), settled, now);
    case ProviderFeeStep(p, charge) =>
      if charge > 0 { ProviderFeeKeepsLedger(w.ledger, w.groups, p, charge); }
    case EnqueueStep(_) =>
    case OutboxStep(batchSize, now) =>
      DeliverAllLedger(w, SelectDue(w.outbox, 0, batchSize, now), now);
    case EligibleStep(_, now) =>
      DeliverAllLedger(w, SelectDue(w.outbox, 0, ELIGIBILITY_BATCH, now), now);
    case PayoutStep(driver, rows, a) =>
      SelectedRows(w, driver, rows);
      PayoutKeepsLedger(w, driver, rows, a);
    case SettleStep(d, resolution, percent, ok, now) =>
      assert CanSettle(w, d) ==> PaymentSound(w, w.disputes[d].booking);
      SettleKeepsLedger(w, d, resolution, percent, ok, now);
    case ElsewhereStep(_, _, _) =>
  }

  lemma MarkCallKeepsPayment(w: World, s: Step, p: Id)
    requires Enabled(w, s) && PaymentSound(w, p) && (s.CreateStep? || s.MarkStep? || s.PaidStep?)
    requires s.PaidStep? ==> PaymentSound(w, s.p)
    ensures Keeps(w, Apply(w, s), p, false)
  {
    match s
    case CreateStep(q, rider, total, fee, pending) =>
      if fee <= total {
        CreateKeeps(w, q, rider, PaymentSplit(total, total - fee, fee), if pending then PaymentPending else Created, p);
      }
    case MarkStep(q, target, now) => MarkKeeps(w, q, target, now, p);
    case PaidStep(q, driver) => BookingPaidKeeps(w, q, driver, p);
  }

  lemma RefundCallKeepsPayment(w: World, s: Step, p: Id)
    requires Enabled(w, s) && PaymentSound(w, p) && (s.RefundStep? || s.WebhookStep? || s.ProviderFeeStep?)
    requires s.RefundStep? ==> PaymentSound(w, s.p)
    requires s.WebhookStep? && s.found.Some? ==> PaymentSound(w, s.found.value)
    ensures Keeps(w, Apply(w, s), p, false)
  {
    match s
    case RefundStep(q, driver, amount, now) => RefundKeeps(w, q, driver, AsInt(amount), now, p);
    case WebhookStep(intent, found, amount, settled, now) =>
      WebhookKeeps(w, intent, found, AsInt(amount), settled, now, p);
    case ProviderFeeStep(q, charge) => ProviderFeeKeeps(w, q, charge, p);
  }

  lemma StepKeepsPayment(w: World, s: Step, p: Id)
    requires Sound(w) && Enabled(w, s)
    ensures Keeps(w, Apply(w, s), p, SettledUnreceived(w, s, p))
  {
    assert PaymentSound(w, p);
    if s.SettleStep? {
      assert CanSettle(w, s.d) ==> PaymentSound(w, w.disputes[s.d].booking);
      SettleKeeps(w, s.d, s.resolution, s.percent, s.stripeAccepts, s.now, p);
    } else if s.PayoutStep? {
      PayoutKeeps(w, s.driver, s.rows, s.attempt, p);
    } else if s.RefundStep? || s.WebhookStep? || s.ProviderFeeStep? {
      assert s.RefundStep? ==> PaymentSound(w, s.p);
      assert s.WebhookStep? && s.found.Some? ==> PaymentSound(w, s.found.value);
      RefundCallKeepsPayment(w, s, p);
    } else if s.CreateStep? || s.MarkStep? || s.PaidStep? {
      assert s.PaidStep? ==> PaymentSound(w, s.p);
      MarkCallKeepsPayment(w, s, p);
    } else {
      BatchCallKeepsPayment(w, s, p);
    }
  }

  lemma BatchCallKeepsPayment(w: World, s: Step, p: Id)
    requires PaymentSound(w, p) && Enabled(w, s)
    requires s.EnqueueStep? || s.OutboxStep? || s.EligibleStep? || s.ElsewhereStep?
    ensures Keeps(w, Apply(w, s), p, false)
  {
    match s
    case EnqueueStep(payload) => EscrowMarksPush(w.outbox, payload, p);
    case OutboxStep(batchSize, now) => OutboxKeeps(w, batchSize, now, p);
    case EligibleStep(delay, now) =>
      OutboxKeeps(w, ELIGIBILITY_BATCH, now, p);
      MarkReadyKeeps(ProcessOutbox(w, ELIGIBILITY_BATCH, now), delay, now, p);
    case ElsewhereStep(_, _, _) =>
  }

  /** Every step, in any state that has it, keeps the agreement of rows, ledger, batches and outbox. */
  lemma StepKeepsSound(w: World, s: Step)
    requires Sound(w) && Enabled(w, s)
    ensures Sound(Apply(w, s))
  {
    StepKeepsLedger(w, s);
    forall p: Id ensures PaymentSound(Apply(w, s), p) {
      StepKeepsPayment(w, s, p);
    }
  }

  lemma StartIsSound(w: World)
    requires IsStart(w)
    ensures Sound(w)
  {
    forall p: Id ensures PaymentSound(w, p) { }
    forall g: nat ensures GroupSound(w.ledger, g) { }
  }

  /** And so does every run; a payment ends unbooked exactly when it was or was settled before its receipt. */
  lemma {:induction false} RunKeepsSound(w: World, steps: seq<Step>, p: Id)
    requires Sound(w) && IsRun(w, steps)
    ensures Sound(Run(w, steps))
    ensures Unbooked(Run(w, steps), p) <==> Unbooked(w, p) || Meets(SettlesUnreceived, w, steps, p)
    decreases |steps|
  {
    if steps != [] {
      StepKeepsSound(w, steps[0]);
      StepKeepsPayment(w, steps[0], p);
      RunKeepsSound(Apply(w, steps[0]), steps[1..], p);
    }
  }

  // ---------------------------------------------------------------------------------------------
  // What a reader may rely on after any run
  // ---------------------------------------------------------------------------------------------

  /**
   * The ledger holds one receipt for a payment exactly when its status says it was received, unless
   * some settlement wrote its status before that: then, and only then, a receipt is missing for good.
   */
  lemma ReceiptExactlyOnce(start: World, steps: seq<Step>, p: Id)
    requires IsStart(start) && IsRun(start, steps)
    ensures
      var w := Run(start, steps);
      var receipts := Sum(w.ledger, OfPayment(p), Receipts);
      && 0 <= receipts <= 1
      && (receipts == (if p in w.payments && !Unreceived(w.payments[p].status) then 1 else 0)
          <==> !Meets(SettlesUnreceived, start, steps, p))
  {
    StartIsSound(start);
    RunKeepsSound(start, steps, p);
    assert PaymentSound(Run(start, steps), p);
  }

  /** What the row says the driver and the platform still have is what the ledger says. */
  predicate RowMatchesLedger(w: World, p: Id)
    requires p in w.payments
  {
    var key := OfPayment(p);
    var paidOut := Sum(w.ledger, key, Transfers) - Sum(w.ledger, key, Reversals);
    && NetFare(w.payments[p]) == Max(0, Sum(w.ledger, key, DriverNet) + paidOut)
    && NetPlatformFee(w.payments[p]) == Max(0, Sum(w.ledger, key, FeeNet))
  }

  /**
   * Row and ledger agree after every run, although the row clamps every refund and the ledger never
   * does, exactly when the ledger has the receipt or nothing is left on the row. A received payment
   * that no settlement touched before its receipt therefore always agrees.
   */
  lemma RowsMatchLedger(start: World, steps: seq<Step>, p: Id)
    requires IsStart(start) && IsRun(start, steps) && p in Run(start, steps).payments
    ensures
      var w := Run(start, steps);
      var row := w.payments[p];
      && (RowMatchesLedger(w, p) <==>
            || Sum(w.ledger, OfPayment(p), Receipts) == 1
            || (NetFare(row) == 0 && NetPlatformFee(row) == 0))
      && (!Unreceived(row.status) && !Meets(SettlesUnreceived, start, steps, p) ==> RowMatchesLedger(w, p))
  {
    StartIsSound(start);
    RunKeepsSound(start, steps, p);
    var w := Run(start, steps);
    assert PaymentSound(w, p);
    DerivedColumns(w.ledger, OfPayment(p));
  }

  /** Double entry: every group and every payment balances up to transfers and their reversals. */
  lemma DoubleEntry(start: World, steps: seq<Step>, key: Key)
    requires IsStart(start) && IsRun(start, steps) && !key.OfAccount?
    ensures
      var ledger := Run(start, steps).ledger;
      Sum(ledger, key, Debits) - Sum(ledger, key, Credits)
      == Sum(ledger, key, Transfers) - Sum(ledger, key, Reversals)
  {
    StartIsSound(start);
    RunKeepsSound(start, steps, 0);
    var w := Run(start, steps);
    DerivedColumns(w.ledger, key);
    match key
    case OfPayment(p) => assert PaymentSound(w, p);
    case OfGroup(g) => assert GroupSound(w.ledger, g);
  }

  /** The two balance loops agree up to reversals, for every driver after every run. */
  lemma BalancesAgree(start: World, steps: seq<Step>, driver: Id)
    requires IsStart(start) && IsRun(start, steps)
    ensures
      var ledger, key := Run(start, steps).ledger, OfDriver(driver);
      Sum(ledger, key, DriverNet)
      == (Sum(ledger, key, Earned) - Sum(ledger, key, Transfers) - Sum(ledger, key, RefundedFare))
         + Sum(ledger, key, Reversals)
  {
    StartIsSound(start);
    RunKeepsSound(start, steps, 0);
    BalanceIsPendingPlusReversals(Run(start, steps).ledger, OfDriver(driver));
  }

  /** However many `payment.paid` events are queued for a payment, at most one is ever processed. */
  lemma EscrowAtMostOnce(start: World, steps: seq<Step>, p: Id)
    requires IsStart(start) && IsRun(start, steps)
    ensures
      var w := Run(start, steps);
      && EscrowMarks(w.outbox, p) <= 1
      && (EscrowMarks(w.outbox, p) == 1 ==>
            p in w.payments && !Unreceived(w.payments[p].status) && w.payments[p].status != Paid)
  {
    StartIsSound(start);
    RunKeepsSound(start, steps, p);
    assert PaymentSound(Run(start, steps), p);
  }
}
