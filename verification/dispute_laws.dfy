/** What a dispute holds back, until when, and what each settlement does to it. */
module DisputeLaws {
  import opened Money
  import opened Tables
  import opened Payments
  import opened Payouts
  import opened Settlement
  import opened MoneyRuns
  import opened MoneyTheorems
  import opened Progress
  import opened Solvency
  import opened SettlementLaws

  /** Somebody decided: the service by itself, or an admin. Every other dispute is still open. */
  predicate Decided(s: DisputeStatus) {
    s in {AutoResolvedRiderRefund, AutoResolvedDriverPayout, ResolvedRefund, ResolvedPayout, ResolvedSplit}
  }

  /** An admin's decision is final, the automatic ones can still be settled. */
  predicate Final(s: DisputeStatus) {
    s in {ResolvedRefund, ResolvedPayout, ResolvedSplit}
  }

  predicate Undecided(w: World, d: Id, b: Id) {
    d in w.disputes && w.disputes[d].booking == b && !Decided(w.disputes[d].status)
  }

  /** Some dispute of the booking is undecided. */
  ghost predicate Held(w: World, b: Id) {
    exists d :: Undecided(w, d, b)
  }

  lemma StatusesByDecision(s: DisputeStatus)
    ensures IsOpen(s) <==> !Decided(s)
    ensures IsSettleable(s) <==> !Final(s)
  {
    match s
    case Open =>
    case EvidenceCollected =>
    case AutoResolvedRiderRefund =>
    case AutoResolvedDriverPayout =>
    case NeedsManualReview =>
    case WaitingForUserResponse =>
    case ResolvedRefund =>
    case ResolvedPayout =>
    case ResolvedSplit =>
    case Escalated =>
  }

  lemma OpenIsHeld(w: World, b: Id)
    ensures w.HasOpenDispute(b) <==> Held(w, b)
  {
    if w.HasOpenDispute(b) {
      var d :| d in w.disputes && w.disputes[d].booking == b && IsOpen(w.disputes[d].status);
      StatusesByDecision(w.disputes[d].status);
      assert Undecided(w, d, b);
    }
    if Held(w, b) {
      var d :| Undecided(w, d, b);
      StatusesByDecision(w.disputes[d].status);
    }
  }

  /**
   * Which disputes hold a payment back: the eligibility check and the payout query pass it over exactly
   * when some dispute of its booking is undecided, everything else being in place.
   */
  lemma DisputesHoldPaymentsIff(w: World, driver: Id, p: Id, cutoff: int)
    requires p in w.payments && p in w.bookings
    ensures
      var row, booking := w.payments[p], w.bookings[p];
      && (p in SelectedIds(w, driver) <==> row.status == PayoutEligible && booking.driver == driver && !Held(w, p))
      && (p in ReadyIds(w, cutoff) <==>
            && row.status == HeldInEscrow && booking.status == Completed
            && booking.completedAt.Some? && booking.completedAt.value < cutoff && !Held(w, p))
  {
    OpenIsHeld(w, p);
  }

  lemma FinishedDisputes(w: World, b: Id, full: bool, plan: Plan, now: int)
    requires b in w.bookings
    ensures FinishPayment(FinishRefund(w, b, plan, now), b, full, plan, now).disputes == w.disputes
  {
  }

  lemma SettledDisputesByRefund(w: World, d: Id, full: bool, percent: Option<real>, ok: bool, now: int)
    requires CanSettle(w, d)
    ensures
      var out := SettleByRefund(w, d, full, percent, ok, now);
      var closing := if full then ResolvedRefund else ResolvedSplit;
      out.w.disputes == if out.threw then w.disputes else w.disputes[d := Dispute(w.disputes[d].booking, closing)]
  {
    var b := w.disputes[d].booking;
    var plan := PlanRefund(w, b, full, percent);
    if Issues(w.bookings[b], plan) && (CallsStripe(w.bookings[b]) ==> ok) {
      var begun := BeginRefund(w, b, plan, full);
      FinishedDisputes(if CallsStripe(w.bookings[b]) then RequestRefund(begun, b, plan, true) else begun,
                       b, full, plan, now);
    }
  }

  /**
   * A settlement is taken exactly for a dispute of an existing booking that no admin has decided. It
   * writes the status its resolution names, on that dispute alone, and nothing when it throws. So an
   * escalated dispute still holds its booking and can be settled again, and any other settlement that
   * goes through is final and releases the booking unless another dispute holds it.
   */
  lemma SettlementClosesIff(w: World, d: Id, resolution: Resolution, percent: Option<real>, ok: bool, now: int)
    ensures CanSettle(w, d) <==>
      d in w.disputes && w.disputes[d].booking in w.bookings && !Final(w.disputes[d].status)
    ensures
      var out := Settle(w, d, resolution, percent, ok, now);
      var closing := match resolution
                     case ToRefund => ResolvedRefund
                     case ToPayout => ResolvedPayout
                     case ToSplit => ResolvedSplit
                     case ToEscalation => Escalated;
      && (!CanSettle(w, d) ==> out.threw && out.w == w)
      && out.w.disputes == (if out.threw then w.disputes
                            else w.disputes[d := Dispute(w.disputes[d].booking, closing)])
    ensures
      var out := Settle(w, d, resolution, percent, ok, now);
      CanSettle(w, d) && !out.threw ==>
        var b := w.disputes[d].booking;
        && (Undecided(out.w, d, b) <==> resolution == ToEscalation)
        && (CanSettle(out.w, d) <==> resolution == ToEscalation)
        && forall other | other != d :: Undecided(out.w, other, b) <==> Undecided(w, other, b)
  {
    if d in w.disputes {
      StatusesByDecision(w.disputes[d].status);
    }
    if CanSettle(w, d) {
      match resolution
      case ToEscalation =>
      case ToPayout =>
      case ToRefund => SettledDisputesByRefund(w, d, true, percent, ok, now);
      case ToSplit => SettledDisputesByRefund(w, d, false, percent, ok, now);
      SettlementKeepsBookings(w, d, resolution, percent, ok, now);
    }
  }

  lemma SettlementKeepsBookings(w: World, d: Id, resolution: Resolution, percent: Option<real>, ok: bool, now: int)
    requires CanSettle(w, d)
    ensures w.disputes[d].booking in Settle(w, d, resolution, percent, ok, now).w.bookings
  {
    RefundMovesNoMoney(w, d, resolution == ToRefund, percent, ok, now);
  }

  /** Escalating is only a mark on the dispute: its booking stays unpayable for every driver. */
  lemma EscalationHolds(w: World, d: Id, percent: Option<real>, ok: bool, now: int, driver: Id, cutoff: int)
    requires CanSettle(w, d)
    ensures
      var b, w' := w.disputes[d].booking, Settle(w, d, ToEscalation, percent, ok, now).w;
      && w' == w.(disputes := w.disputes[d := Dispute(b, Escalated)]) && CanSettle(w', d)
      && b !in SelectedIds(w', driver) && b !in ReadyIds(w', cutoff)
  {
    var b, w' := w.disputes[d].booking, Settle(w, d, ToEscalation, percent, ok, now).w;
    assert Undecided(w', d, b) && Held(w', b);
    if b in w'.payments {
      DisputesHoldPaymentsIff(w', driver, b, cutoff);
    }
  }

  // ---------------------------------------------------------------------------------------------
  // Sequences and runs
  // ---------------------------------------------------------------------------------------------

  /** An admin's decision is never changed: every later settlement of it throws and does nothing. */
  lemma {:induction false} DecisionsAreFinal(w: World, calls: seq<Call>, d: Id)
    requires d in w.disputes && Final(w.disputes[d].status)
    ensures
      var w' := SettleAll(w, calls);
      && d in w'.disputes && w'.disputes[d] == w.disputes[d]
      && forall c: Call | c.d == d :: SettleOne(w', c) == w'
    decreases |calls|
  {
    if calls == [] {
      forall c: Call | c.d == d ensures SettleOne(w, c) == w {
        SettlementClosesIff(w, d, c.resolution, c.percent, c.ok, c.now);
      }
    } else {
      var c := calls[0];
      SettlementClosesIff(w, c.d, c.resolution, c.percent, c.ok, c.now);
      DecisionsAreFinal(SettleOne(w, c), calls[1..], d);
    }
  }

  /** A step may decide a dispute: an admin's settlement of it, or a change made elsewhere. */
  predicate MayDecide(s: Step, d: Id) {
    s.ElsewhereStep? || (s.SettleStep? && s.d == d && s.resolution != ToEscalation)
  }

  lemma OtherStepsKeepDisputes(w: World, s: Step)
    requires Enabled(w, s) && !s.SettleStep? && !s.ElsewhereStep?
    ensures Apply(w, s).disputes == w.disputes
  {
    match s
    case OutboxStep(batchSize, now) => DeliverAllDisputes(w, SelectDue(w.outbox, 0, batchSize, now), now);
    case EligibleStep(_, now) => DeliverAllDisputes(w, SelectDue(w.outbox, 0, ELIGIBILITY_BATCH, now), now);
    case PayoutStep(driver, rows, a) =>
      SelectedRows(w, driver, rows);
      PayoutElsewhere(w, driver, rows, a);
    case _ =>
  }

  lemma {:induction false} DeliverAllDisputes(w: World, sel: seq<nat>, now: int)
    requires forall k | 0 <= k < |sel| :: sel[k] < |w.outbox|
    ensures DeliverAll(w, sel, now).disputes == w.disputes && DeliverAll(w, sel, now).bookings == w.bookings
  {
    if sel != [] {
      DeliverAllDisputes(w, sel[..|sel| - 1], now);
    }
  }

  lemma StepKeepsUndecided(w: World, s: Step, d: Id, b: Id)
    requires Enabled(w, s) && Undecided(w, d, b) && !MayDecide(s, d)
    ensures Undecided(Apply(w, s), d, b)
  {
    if s.SettleStep? {
      SettlementClosesIff(w, s.d, s.resolution, s.percent, s.stripeAccepts, s.now);
    } else {
      OtherStepsKeepDisputes(w, s);
    }
  }

  lemma HeldIsNotSent(w: World, s: Step, d: Id, b: Id)
    requires Sound(w) && Enabled(w, s) && TransfersNameBatches(w) && Undecided(w, d, b)
    ensures TransfersNameBatches(Apply(w, s))
    ensures TimesSent(Apply(w, s), b) == TimesSent(w, b) && Sent(Apply(w, s), b) == Sent(w, b)
  {
    StepSends(w, s, b);
    if s.PayoutStep? && b in s.rows {
      assert Held(w, b) && b in SelectedIds(w, s.driver);
      DisputesHoldPaymentsIff(w, s.driver, b, 0);
    }
  }

  /**
   * As long as a dispute of a booking is undecided, no run of anything sends any of its fare to a
   * driver: whatever is delivered, refunded, escalated or settled for other disputes in between.
   */
  lemma {:induction false} NothingIsSentUnderDispute(w: World, steps: seq<Step>, d: Id, b: Id)
    requires Sound(w) && TransfersNameBatches(w) && IsRun(w, steps) && Undecided(w, d, b)
    requires forall s | s in steps :: !MayDecide(s, d)
    ensures
      var w' := Run(w, steps);
      Undecided(w', d, b) && TimesSent(w', b) == TimesSent(w, b) && Sent(w', b) == Sent(w, b)
    decreases |steps|
  {
    if steps != [] {
      assert steps[0] in steps && forall s | s in steps[1..] :: s in steps;
      HeldIsNotSent(w, steps[0], d, b);
      StepKeepsUndecided(w, steps[0], d, b);
      StepKeepsSound(w, steps[0]);
      NothingIsSentUnderDispute(Apply(w, steps[0]), steps[1..], d, b);
    }
  }
}
