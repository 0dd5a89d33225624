/** What settlements mean: machine paths, conservation, what they announce, and how refunds end. */
module SettlementLaws {
  import opened Money
  import opened Tables
  import opened Ledger
  import opened Payments
  import opened Payouts
  import opened Settlement
  import opened MoneyRuns

  // ---------------------------------------------------------------------------------------------
  // The unguarded writes against the guarded machine
  // ---------------------------------------------------------------------------------------------

  /** A sequence of statuses each of which `assertTransition` would have let through. */
  predicate IsPath(current: PaymentStatus, writes: seq<PaymentStatus>)
    decreases |writes|
  {
    writes == [] || (Allowed(current, writes[0]) && IsPath(writes[0], writes[1..]))
  }

  /** From where the first write of a settlement is a legal transition. */
  function LegalSources(w: World, b: Id, resolution: Resolution, percent: Option<real>): set<PaymentStatus>
    requires b in w.bookings
  {
    var full := resolution == ToRefund;
    var plan := PlanRefund(w, b, full, percent);
    if resolution == ToPayout then {HeldInEscrow, TransferCreated, RefundPending}
    else if Issues(w.bookings[b], plan) then {Paid, HeldInEscrow, PayoutEligible}
    else if FinalStatus(full, plan) == Refunded then {RefundPending}
    else {HeldInEscrow, TransferCreated, RefundPending}
  }

  lemma PathOfOne(s: PaymentStatus, t: PaymentStatus)
    ensures IsPath(s, [t]) <==> Allowed(s, t)
  {
    assert [t][1..] == [];
  }

  lemma PathOfTwo(s: PaymentStatus, t: PaymentStatus, u: PaymentStatus)
    ensures IsPath(s, [t, u]) <==> Allowed(s, t) && Allowed(t, u)
  {
    assert [t, u][1..] == [u];
    PathOfOne(t, u);
  }

  lemma RefundWritesAreAPathIff(w: World, d: Id, full: bool, percent: Option<real>, ok: bool, now: int)
    requires CanSettle(w, d) && w.disputes[d].booking in w.payments
    ensures
      var b := w.disputes[d].booking;
      var s := w.payments[b].status;
      IsPath(s, SettleByRefund(w, d, full, percent, ok, now).writes)
      <==> s in LegalSources(w, b, if full then ToRefund else ToSplit, percent)
  {
    var b := w.disputes[d].booking;
    var s := w.payments[b].status;
    var final := FinalStatus(full, PlanRefund(w, b, full, percent));
    SettledByRefundRow(w, d, full, percent, ok, now);
    PathOfOne(s, RefundPending);
    PathOfOne(s, final);
    PathOfTwo(s, RefundPending, final);
  }

  /**
   * A settlement writes statuses without asking the machine. Its writes are a path of the machine
   * exactly when it wrote nothing or started from a legal source of its first write.
   */
  lemma SettlementIsAPathIff(w: World, d: Id, resolution: Resolution, percent: Option<real>, ok: bool, now: int)
    requires CanSettle(w, d) && w.disputes[d].booking in w.payments
    ensures
      var b := w.disputes[d].booking;
      var s := w.payments[b].status;
      var out := Settle(w, d, resolution, percent, ok, now);
      && (out.writes == [] <==> resolution == ToEscalation || (resolution == ToPayout && out.threw))
      && (IsPath(s, out.writes) <==> out.writes == [] || s in LegalSources(w, b, resolution, percent))
  {
    var s := w.payments[w.disputes[d].booking].status;
    match resolution
    case ToEscalation =>
    case ToPayout => PathOfOne(s, PayoutEligible);
    case ToRefund =>
      RefundWritesAreAPathIff(w, d, true, percent, ok, now);
      SettledByRefundRow(w, d, true, percent, ok, now);
    case ToSplit =>
      RefundWritesAreAPathIff(w, d, false, percent, ok, now);
      SettledByRefundRow(w, d, false, percent, ok, now);
  }

  /** From escrow, with a fare and no earlier refund, every settlement refines the guarded machine. */
  lemma EscrowSettlementsRefineTheMachine(
    w: World, d: Id, resolution: Resolution, percent: Option<real>, ok: bool, now: int)
    requires CanSettle(w, d) && w.disputes[d].booking in w.payments
    requires var row := w.payments[w.disputes[d].booking];
             && row.status == HeldInEscrow && ChargeSound(row)
             && row.fareAmount > 0 && row.refundedFareAmount == 0
    requires !ExistingRefund(w.bookings[w.disputes[d].booking])
    ensures IsPath(HeldInEscrow, Settle(w, d, resolution, percent, ok, now).writes)
  {
    var b := w.disputes[d].booking;
    var row := w.payments[b];
    SettlementIsAPathIff(w, d, resolution, percent, ok, now);
    if resolution == ToRefund || resolution == ToSplit {
      PercentOfBounds(row.amountTotal, 100);
      // Nothing is issued only for a split that rounds to nothing, which leaves the whole fare.
      assert ResolveRefundSplit(row.amountTotal, row.fareAmount, 0) == RefundSplit(0, 0);
      PlanIsSound(w, b, resolution == ToRefund, percent);
    }
  }

  // ---------------------------------------------------------------------------------------------
  // Conservation and prediction
  // ---------------------------------------------------------------------------------------------

  /** The first refund of a charge by a settlement, at any percentage, and Stripe accepts it if asked. */
  predicate FreshCharge(w: World, b: Id) {
    && b in w.bookings && b in w.payments && ChargeSound(w.payments[b])
    && w.payments[b].refundedFareAmount == 0 && w.payments[b].refundedFeeAmount == 0
    && !ExistingRefund(w.bookings[b])
  }

  /** What the rider gets back, the driver keeps and the platform keeps add up to the charge. */
  lemma SettlementConservesMoney(w: World, d: Id, resolution: Resolution, percent: Option<real>, ok: bool, now: int)
    requires CanSettle(w, d) && FreshCharge(w, w.disputes[d].booking)
    requires resolution == ToRefund || resolution == ToSplit
    requires CallsStripe(w.bookings[w.disputes[d].booking]) ==> ok
    ensures
      var b := w.disputes[d].booking;
      var out := Settle(w, d, resolution, percent, ok, now);
      && !out.threw && b in out.w.payments
      && 0 <= out.refundAmount <= w.payments[b].amountTotal
      && out.refundAmount + NetFare(out.w.payments[b]) + NetPlatformFee(out.w.payments[b])
         == w.payments[b].amountTotal
      && out.payoutAmount == NetFare(out.w.payments[b])
      && (resolution == ToRefund ==> out.refundAmount == w.payments[b].amountTotal && out.payoutAmount == 0)
  {
    var b, full := w.disputes[d].booking, resolution == ToRefund;
    var row := w.payments[b];
    PlanIsSound(w, b, full, percent);
    var plan := PlanRefund(w, b, full, percent);
    RefundSplitIsProportionate(row.amountTotal, row.fareAmount, plan.refund);
    PercentOfBounds(row.amountTotal, 100);
    SettledPayments(w, d, resolution, percent, ok, now);
  }

  /**
   * What a settlement announces as the driver's payout is the fare left on the row exactly when its
   * refund went through, or there was nothing to take off: a second settlement announces a deduction
   * that is never made.
   */
  lemma AnnouncedPayoutIsOwedIff(w: World, d: Id, resolution: Resolution, percent: Option<real>, ok: bool, now: int)
    requires CanSettle(w, d) && w.disputes[d].booking in w.payments && ChargeSound(w.payments[w.disputes[d].booking])
    requires resolution == ToRefund || resolution == ToSplit
    ensures
      var b := w.disputes[d].booking;
      var out := Settle(w, d, resolution, percent, ok, now);
      && b in out.w.payments
      && (out.payoutAmount == NetFare(out.w.payments[b]) <==>
            || Refunds(w, b, resolution, percent, ok)
            || PlanRefund(w, b, resolution == ToRefund, percent).split.fare == 0
            || NetFare(w.payments[b]) == 0)
  {
    PlanIsSound(w, w.disputes[d].booking, resolution == ToRefund, percent);
    SettledPayments(w, d, resolution, percent, ok, now);
  }

  // ---------------------------------------------------------------------------------------------
  // Sequences of settlements
  // ---------------------------------------------------------------------------------------------

  datatype Call = Call(d: Id, resolution: Resolution, percent: Option<real>, ok: bool, now: int)

  function SettleOne(w: World, c: Call): World {
    Settle(w, c.d, c.resolution, c.percent, c.ok, c.now).w
  }

  function SettleAll(w: World, calls: seq<Call>): World
    decreases |calls|
  {
    if calls == [] then w else SettleAll(SettleOne(w, calls[0]), calls[1..])
  }

  function RefundsBooked(w: World, b: Id): int {
    Sum(w.ledger, OfPayment(b), RiderRefunds)
  }

  /** How often Stripe was asked to refund a booking. */
  function StripeAsked(refunds: seq<StripeRefund>, b: Id): nat {
    if refunds == [] then 0
    else StripeAsked(refunds[..|refunds| - 1], b) + if refunds[|refunds| - 1].booking == b then 1 else 0
  }

  lemma StripeAskedPush(refunds: seq<StripeRefund>, r: StripeRefund, b: Id)
    ensures StripeAsked(refunds + [r], b) == StripeAsked(refunds, b) + if r.booking == b then 1 else 0
  {
    assert (refunds + [r])[..|refunds|] == refunds;
  }

  /** What one settlement adds: at most one refund, none after an earlier one, and the mark that says so. */
  predicate OneRefundAtMost(w: World, w': World, b: Id)
    requires b in w.bookings
  {
    && b in w'.bookings
    && var booked := RefundsBooked(w', b) - RefundsBooked(w, b);
       var asked := StripeAsked(w'.stripeRefunds, b) - StripeAsked(w.stripeRefunds, b);
    && 0 <= booked <= 1 && 0 <= asked <= 1
    && (booked + asked > 0 ==> !ExistingRefund(w.bookings[b]) && ExistingRefund(w'.bookings[b]))
    && (ExistingRefund(w.bookings[b]) ==> ExistingRefund(w'.bookings[b]))
  }

  lemma RefundOnceByRefund(w: World, d: Id, full: bool, percent: Option<real>, ok: bool, now: int, b: Id)
    requires CanSettle(w, d) && b in w.bookings
    requires w.disputes[d].booking in w.payments ==> ChargeSound(w.payments[w.disputes[d].booking])
    ensures OneRefundAtMost(w, SettleByRefund(w, d, full, percent, ok, now).w, b)
  {
    var own := w.disputes[d].booking;
    var plan := PlanRefund(w, own, full, percent);
    SettledByRefundLedger(w, d, full, percent, ok, now);
    StripeAskedPush(w.stripeRefunds, StripeRefund(own, plan.refund, ok), b);
    if own in w.payments {
      PlanIsSound(w, own, full, percent);
      var es := RefundGroup(w.groups, own, w.payments[own].rider, w.bookings[own].driver, plan.refund, plan.split);
      SumAppend(w.ledger, es, OfPayment(b), RiderRefunds);
      RefundBooks(w.groups, own, w.payments[own].rider, w.bookings[own].driver, plan.refund, plan.split,
                  OfPayment(b), RiderRefunds);
    }
  }

  lemma RefundOnce(w: World, c: Call, b: Id)
    requires b in w.bookings && ChargesSound(w)
    ensures OneRefundAtMost(w, SettleOne(w, c), b)
  {
    if CanSettle(w, c.d) {
      match c.resolution
      case ToRefund => RefundOnceByRefund(w, c.d, true, c.percent, c.ok, c.now, b);
      case ToSplit => RefundOnceByRefund(w, c.d, false, c.percent, c.ok, c.now, b);
      case ToPayout => SettledLedger(w, c.d, c.resolution, c.percent, c.ok, c.now);
      case ToEscalation => SettledLedger(w, c.d, c.resolution, c.percent, c.ok, c.now);
    }
  }

  predicate ChargesSound(w: World) {
    forall p | p in w.payments :: ChargeSound(w.payments[p])
  }

  lemma SettleKeepsCharges(w: World, c: Call)
    requires ChargesSound(w)
    ensures ChargesSound(SettleOne(w, c))
  {
    if CanSettle(w, c.d) {
      var b := w.disputes[c.d].booking;
      SettledLedger(w, c.d, c.resolution, c.percent, c.ok, c.now);
      if b in w.payments {
        SettledPayments(w, c.d, c.resolution, c.percent, c.ok, c.now);
        PlanIsSound(w, b, c.resolution == ToRefund, c.percent);
      }
    }
  }

  /**
   * Over any sequence of settlements of any disputes, Stripe is asked at most once to refund a
   * booking, the ledger books at most one refund of it, and after an earlier refund neither happens.
   */
  lemma {:induction false} AtMostOneRefundPerBooking(w: World, calls: seq<Call>, b: Id)
    requires b in w.bookings && ChargesSound(w)
    ensures
      var w' := SettleAll(w, calls);
      && b in w'.bookings
      && 0 <= RefundsBooked(w', b) - RefundsBooked(w, b) <= (if ExistingRefund(w.bookings[b]) then 0 else 1)
      && 0 <= StripeAsked(w'.stripeRefunds, b) - StripeAsked(w.stripeRefunds, b)
           <= (if ExistingRefund(w.bookings[b]) then 0 else 1)
    decreases |calls|
  {
    if calls != [] {
      var w1 := SettleOne(w, calls[0]);
      assert OneRefundAtMost(w, w1, b) by { RefundOnce(w, calls[0], b); }
      assert ChargesSound(w1) by { SettleKeepsCharges(w, calls[0]); }
      AtMostOneRefundPerBooking(w1, calls[1..], b);
    }
  }

  /** The whole fare has gone back and the booking says so. */
  predicate FullyRefunded(w: World, b: Id) {
    && b in w.bookings && b in w.payments
    && ExistingRefund(w.bookings[b]) && w.bookings[b].refundPercent.GetOr(0) >= 100
    && ChargeSound(w.payments[b]) && NetFare(w.payments[b]) == 0
    && w.payments[b].status == Refunded
  }

  /** A refund that goes through on a charge of any size leaves it fully refunded. */
  lemma RefundCompletes(w: World, d: Id, percent: Option<real>, ok: bool, now: int)
    requires CanSettle(w, d) && FreshCharge(w, w.disputes[d].booking)
    requires w.payments[w.disputes[d].booking].amountTotal > 0
    requires CallsStripe(w.bookings[w.disputes[d].booking]) ==> ok
    ensures FullyRefunded(Settle(w, d, ToRefund, percent, ok, now).w, w.disputes[d].booking)
  {
    var b := w.disputes[d].booking;
    SettlementConservesMoney(w, d, ToRefund, percent, ok, now);
    SettledByRefundRow(w, d, true, percent, ok, now);
    PlanIsSound(w, b, true, percent);
    PercentOfBounds(w.payments[b].amountTotal, 100);
  }

  lemma FullRefundSurvivesRefund(w: World, d: Id, full: bool, percent: Option<real>, ok: bool, now: int, b: Id)
    requires CanSettle(w, d) && FullyRefunded(w, b)
    ensures FullyRefunded(SettleByRefund(w, d, full, percent, ok, now).w, b)
  {
    var own := w.disputes[d].booking;
    SettledByRefundLedger(w, d, full, percent, ok, now);
    if own in w.payments {
      SettledByRefundRow(w, d, full, percent, ok, now);
    }
    if own == b {
      PlanIsSound(w, b, full, percent);
    }
  }

  lemma FullRefundSurvives(w: World, c: Call, b: Id)
    requires FullyRefunded(w, b)
    ensures FullyRefunded(SettleOne(w, c), b)
  {
    if CanSettle(w, c.d) {
      match c.resolution
      case ToRefund => FullRefundSurvivesRefund(w, c.d, true, c.percent, c.ok, c.now, b);
      case ToSplit => FullRefundSurvivesRefund(w, c.d, false, c.percent, c.ok, c.now, b);
      case ToPayout =>
      case ToEscalation =>
    }
  }

  /** No later settlement of any dispute, whatever it decides, makes the payment payable again. */
  lemma {:induction false} FullRefundIsFinal(w: World, calls: seq<Call>, b: Id)
    requires FullyRefunded(w, b)
    ensures FullyRefunded(SettleAll(w, calls), b)
    decreases |calls|
  {
    if calls != [] {
      var w1 := SettleOne(w, calls[0]);
      assert FullyRefunded(w1, b) by { FullRefundSurvives(w, calls[0], b); }
      FullRefundIsFinal(w1, calls[1..], b);
    }
  }

  /** What a plan looks at stands between settlements: every later plan finds the stored amount. */
  lemma RefusedTables(w: World, d: Id, full: bool, percent: Option<real>, now: int)
    requires CanSettle(w, d) && w.disputes[d].booking in w.payments
    requires CallsStripe(w.bookings[w.disputes[d].booking])
    requires Issues(w.bookings[w.disputes[d].booking], PlanRefund(w, w.disputes[d].booking, full, percent))
    ensures
      var b, out := w.disputes[d].booking, SettleByRefund(w, d, full, percent, false, now);
      && out.threw && CanSettle(out.w, d) && out.w.disputes == w.disputes && out.w.ledger == w.ledger
      && b in out.w.bookings && ExistingRefund(out.w.bookings[b]) && b in out.w.payments
  {
  }

  lemma RepeatCloses(w: World, d: Id, full: bool, percent: Option<real>, ok: bool, now: int)
    requires CanSettle(w, d) && ExistingRefund(w.bookings[w.disputes[d].booking])
    ensures
      var out := SettleByRefund(w, d, full, percent, ok, now);
      && !out.threw && out.w.ledger == w.ledger && out.w.stripeRefunds == w.stripeRefunds
      && d in out.w.disputes && out.w.disputes[d].status == if full then ResolvedRefund else ResolvedSplit
  {
  }

  /**
   * A refund Stripe refuses once, of a refund or of a split, of a fresh charge or not, is never sent
   * again: the refused call leaves its amount on the booking, which every later settlement reads as an
   * earlier refund. Retrying either resolution then closes the dispute although nothing went back.
   */
  lemma RefusedRefundIsNeverResent(
    w: World, d: Id, full: bool, percent: Option<real>, now: int, calls: seq<Call>, again: Call)
    requires CanSettle(w, d) && w.disputes[d].booking in w.payments && ChargesSound(w)
    requires CallsStripe(w.bookings[w.disputes[d].booking])
    requires Issues(w.bookings[w.disputes[d].booking], PlanRefund(w, w.disputes[d].booking, full, percent))
    requires again.d == d && again.resolution in {ToRefund, ToSplit}
    ensures
      var b := w.disputes[d].booking;
      var refused := Settle(w, d, if full then ToRefund else ToSplit, percent, false, now);
      var later, retried := SettleAll(refused.w, calls), SettleOne(refused.w, again);
      && refused.threw && RefundsBooked(refused.w, b) == RefundsBooked(w, b)
      && RefundsBooked(later, b) == RefundsBooked(w, b)
      && StripeAsked(later.stripeRefunds, b) == StripeAsked(refused.w.stripeRefunds, b)
      && d in retried.disputes
      && !Settle(refused.w, d, again.resolution, again.percent, again.ok, again.now).threw
      && retried.disputes[d].status == (if again.resolution == ToRefund then ResolvedRefund else ResolvedSplit)
      && RefundsBooked(retried, b) == RefundsBooked(w, b)
  {
    var b := w.disputes[d].booking;
    var c := Call(d, if full then ToRefund else ToSplit, percent, false, now);
    var refused := SettleOne(w, c);
    RefusedTables(w, d, full, percent, now);
    SettleKeepsCharges(w, c);
    AtMostOneRefundPerBooking(refused, calls, b);
    RepeatCloses(refused, d, again.resolution == ToRefund, again.percent, again.ok, again.now);
  }

  /**
   * A refund or a split ends a payment as refunded with fare still on its row exactly when the booking
   * had an earlier refund, fare is left, and it is a refund or a split that announces nothing.
   */
  lemma EndsWithFareLeftIff(w: World, d: Id, full: bool, percent: Option<real>, ok: bool, now: int)
    requires CanSettle(w, d) && w.disputes[d].booking in w.payments
    requires ChargeSound(w.payments[w.disputes[d].booking])
    ensures
      var b := w.disputes[d].booking;
      var out := SettleByRefund(w, d, full, percent, ok, now);
      && b in out.w.payments
      && (!out.threw && out.w.payments[b].status == Refunded && NetFare(out.w.payments[b]) > 0
          <==> && ExistingRefund(w.bookings[b]) && NetFare(w.payments[b]) > 0
               && (full || PlanRefund(w, b, full, percent).payoutAmount == 0))
  {
    var b := w.disputes[d].booking;
    var row, plan := w.payments[b], PlanRefund(w, b, full, percent);
    PlanIsSound(w, b, full, percent);
    RefundSplitIsProportionate(row.amountTotal, row.fareAmount, plan.refund);
    PercentOfBounds(row.amountTotal, 100);
    SettledByRefundRow(w, d, full, percent, ok, now);
    SettleByRefundThrowsIff(w, d, full, percent, ok, now);
  }

  lemma SettleByRefundThrowsIff(w: World, d: Id, full: bool, percent: Option<real>, ok: bool, now: int)
    requires CanSettle(w, d)
    ensures
      var b := w.disputes[d].booking;
      SettleByRefund(w, d, full, percent, ok, now).threw
      <==> Issues(w.bookings[b], PlanRefund(w, b, full, percent)) && CallsStripe(w.bookings[b]) && !ok
  {
  }

  // ---------------------------------------------------------------------------------------------
  // Settling a payment that was already paid out
  // ---------------------------------------------------------------------------------------------

  /** Which settlements make a finished payment payable again. */
  lemma SettlementReopensIff(w: World, d: Id, resolution: Resolution, percent: Option<real>, ok: bool, now: int)
    requires CanSettle(w, d) && w.disputes[d].booking in w.payments
    requires w.payments[w.disputes[d].booking].status == PayoutCompleted
    ensures
      var b := w.disputes[d].booking;
      var out := Settle(w, d, resolution, percent, ok, now);
      var plan := PlanRefund(w, b, false, percent);
      && b in out.w.payments
      && (out.w.payments[b].status == PayoutEligible <==>
            || (resolution == ToPayout
                && !(ExistingRefund(w.bookings[b]) && w.bookings[b].refundPercent.GetOr(0) >= 100))
            || (resolution == ToSplit && plan.payoutAmount > 0
                && !(Issues(w.bookings[b], plan) && CallsStripe(w.bookings[b]) && !ok)))
  {
    match resolution
    case ToEscalation =>
    case ToPayout =>
    case ToRefund => SettledByRefundRow(w, d, true, percent, ok, now);
    case ToSplit => SettledByRefundRow(w, d, false, percent, ok, now);
  }

  /** Reopened in that way, the payment goes out once more as soon as Stripe accepts a payout of it. */
  lemma ReopenedPaymentIsPaidTwice(
    w: World, d: Id, resolution: Resolution, percent: Option<real>, ok: bool, now: int, rows: seq<Id>, a: Attempt)
    requires CanSettle(w, d) && w.disputes[d].booking in w.payments && w.disputes[d].booking in rows
    requires w.payments[w.disputes[d].booking].status == PayoutCompleted && TransfersNameBatches(w)
    requires
      var w' := Settle(w, d, resolution, percent, ok, now).w;
      var driver := w.bookings[w.disputes[d].booking].driver;
      IsListing(rows, SelectedIds(w', driver)) && Accepted(w', driver, rows, a)
    ensures
      var b := w.disputes[d].booking;
      var w' := Settle(w, d, resolution, percent, ok, now).w;
      && (forall p | p in rows :: p in w'.payments)
      && var paid := Payout(w', w.bookings[b].driver, rows, a);
      && SentCount(paid.transfers, paid.batches, b) == SentCount(w.transfers, w.batches, b) + 1
      && SentSum(paid.transfers, paid.batches, b) == SentSum(w.transfers, w.batches, b) + NetFare(w'.payments[b])
      && PaidCount(paid.batches, b)
         == PaidCount(w.batches, b) + if Completes(w', w.bookings[b].driver, rows, a) then 1 else 0
  {
    var b := w.disputes[d].booking;
    var w' := Settle(w, d, resolution, percent, ok, now).w;
    SettleMovesNoMoney(w, d, resolution, percent, ok, now);
    SelectedRows(w', w.bookings[b].driver, rows);
    PayoutSends(w', w.bookings[b].driver, rows, a, b);
    PayoutPaid(w', w.bookings[b].driver, rows, a, b);
  }

  /**
   * A settlement need not reopen a payment to overspend it. Settling one whose whole fare already left,
   * in transfers Stripe accepted and in refunds, keeps what left within the fare exactly when no fare
   * goes back to the rider: no refund goes through, it takes none of the fare, or none was left unrefunded.
   */
  lemma SettlementOverspendsIff(
    w: World, d: Id, resolution: Resolution, percent: Option<real>, ok: bool, now: int)
    requires CanSettle(w, d) && w.disputes[d].booking in w.payments
    requires ChargeSound(w.payments[w.disputes[d].booking])
    requires SentSum(w.transfers, w.batches, w.disputes[d].booking) == NetFare(w.payments[w.disputes[d].booking])
    ensures
      var b := w.disputes[d].booking;
      var w' := Settle(w, d, resolution, percent, ok, now).w;
      && b in w'.payments
      && var row := w'.payments[b];
      Min(row.refundedFareAmount, row.fareAmount) + SentSum(w'.transfers, w'.batches, b) > row.fareAmount
      <==> && Refunds(w, b, resolution, percent, ok)
           && PlanRefund(w, b, resolution == ToRefund, percent).split.fare > 0
           && NetFare(w.payments[b]) > 0
  {
    SettledPayments(w, d, resolution, percent, ok, now);
    SettleMovesNoMoney(w, d, resolution, percent, ok, now);
    PlanIsSound(w, w.disputes[d].booking, resolution == ToRefund, percent);
  }
}
