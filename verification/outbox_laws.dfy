/** The outbox over whole runs: bounded attempts, absorbing ends, doubling delays. */
module OutboxLaws {
  import opened Money
  import opened Tables
  import opened Payments
  import opened Payouts
  import opened Settlement
  import opened MoneyRuns

  /** Attempts an event can still have. */
  function Budget(e: Event): nat {
    if e.status == Pending && e.retryCount < MAX_RETRIES then MAX_RETRIES - e.retryCount else 0
  }

  /** Queued normally: not stuck in PROCESSING, and given up before the limit is passed. */
  predicate InOrder(e: Event) {
    e.status != Processing && (e.status == Pending ==> e.retryCount < MAX_RETRIES)
  }

  /** Every delivery of a pending event uses up some of its budget and leaves the other events alone. */
  lemma DeliverSpends(w: World, e: nat, now: int)
    requires e < |w.outbox| && w.outbox[e].status == Pending && InOrder(w.outbox[e])
    ensures
      var w' := Deliver(w, e, now);
      && w'.outbox == w.outbox[e := w'.outbox[e]]
      && InOrder(w'.outbox[e]) && w'.outbox[e].payload == w.outbox[e].payload
      && Budget(w'.outbox[e]) + 1 <= Budget(w.outbox[e])
  {
  }

  /** One batch delivers each selected event once. */
  lemma {:induction false} DeliverAllSpends(w: World, sel: seq<nat>, now: int, e: nat)
    requires forall k | 0 <= k < |sel| :: sel[k] < |w.outbox| && w.outbox[sel[k]].status == Pending
    requires forall j, k | 0 <= j < k < |sel| :: sel[j] < sel[k]
    requires e < |w.outbox| && InOrder(w.outbox[e])
    ensures
      var w' := DeliverAll(w, sel, now);
      && |w'.outbox| == |w.outbox| && InOrder(w'.outbox[e])
      && (if e in sel then Budget(w'.outbox[e]) + 1 <= Budget(w.outbox[e]) else w'.outbox[e] == w.outbox[e])
  {
    if sel != [] {
      var front, last := sel[..|sel| - 1], sel[|sel| - 1];
      DeliverAllSpends(w, front, now, e);
      assert e in sel <==> e in front || e == last;
      var w1 := DeliverAll(w, front, now);
      if e == last {
        assert e !in front;
        DeliverSpends(w1, e, now);
      } else {
        DeliverElsewhere(w1, last, now, e);
      }
    }
  }

  lemma DeliverElsewhere(w: World, other: nat, now: int, e: nat)
    requires other < |w.outbox| && e < |w.outbox| && e != other
    ensures Deliver(w, other, now).outbox[e] == w.outbox[e]
  {
  }

  /** Whether a step attempts an event. */
  ghost predicate Attempts(w: World, s: Step, e: nat) {
    match s
    case OutboxStep(batchSize, now) => e in SelectDue(w.outbox, 0, batchSize, now)
    case EligibleStep(_, now) => e in SelectDue(w.outbox, 0, ELIGIBILITY_BATCH, now)
    case _ => false
  }

  ghost function AttemptCount(w: World, steps: seq<Step>, e: nat): nat
    requires IsRun(w, steps)
    decreases |steps|
  {
    if steps == [] then 0
    else (if Attempts(w, steps[0], e) then 1 else 0) + AttemptCount(Apply(w, steps[0]), steps[1..], e)
  }

  lemma RefundLeavesOutbox(w: World, d: Id, full: bool, percent: Option<real>, ok: bool, now: int)
    requires CanSettle(w, d)
    ensures SettleByRefund(w, d, full, percent, ok, now).w.outbox == w.outbox
  {
  }

  lemma SettleLeavesOutbox(w: World, d: Id, resolution: Resolution, percent: Option<real>, ok: bool, now: int)
    ensures Settle(w, d, resolution, percent, ok, now).w.outbox == w.outbox
  {
    if CanSettle(w, d) {
      RefundLeavesOutbox(w, d, resolution == ToRefund, percent, ok, now);
    }
  }

  lemma PayoutLeavesOutbox(w: World, driver: Id, rows: seq<Id>, a: Attempt)
    requires forall p | p in rows :: p in w.payments
    ensures Payout(w, driver, rows, a).outbox == w.outbox
  {
  }

  lemma OtherStepsAppend(w: World, s: Step)
    requires Enabled(w, s) && !s.OutboxStep? && !s.EligibleStep? && !s.PayoutStep? && !s.SettleStep?
    ensures w.outbox <= Apply(w, s).outbox
  {
  }

  /** A step either attempts an event, spending its budget, or leaves it exactly as it was. */
  lemma StepSpends(w: World, s: Step, e: nat)
    requires Enabled(w, s) && e < |w.outbox| && InOrder(w.outbox[e])
    ensures
      var w' := Apply(w, s);
      && |w.outbox| <= |w'.outbox| && InOrder(w'.outbox[e])
      && (if Attempts(w, s, e) then Budget(w'.outbox[e]) + 1 <= Budget(w.outbox[e]) else w'.outbox[e] == w.outbox[e])
  {
    match s
    case OutboxStep(batchSize, now) => DeliverAllSpends(w, SelectDue(w.outbox, 0, batchSize, now), now, e);
    case EligibleStep(_, now) => DeliverAllSpends(w, SelectDue(w.outbox, 0, ELIGIBILITY_BATCH, now), now, e);
    case PayoutStep(driver, rows, a) =>
      SelectedRows(w, driver, rows);
      PayoutLeavesOutbox(w, driver, rows, a);
    case SettleStep(d, resolution, percent, ok, now) => SettleLeavesOutbox(w, d, resolution, percent, ok, now);
    case _ => OtherStepsAppend(w, s);
  }

  /** Along any run an event is attempted no more often than its budget allows. */
  lemma {:induction false} AttemptsFitTheBudget(w: World, steps: seq<Step>, e: nat)
    requires IsRun(w, steps) && e < |w.outbox| && InOrder(w.outbox[e])
    ensures
      var w' := Run(w, steps);
      && e < |w'.outbox| && InOrder(w'.outbox[e])
      && AttemptCount(w, steps, e) + Budget(w'.outbox[e]) <= Budget(w.outbox[e])
      && (AttemptCount(w, steps, e) == 0 ==> w'.outbox[e] == w.outbox[e])
    decreases |steps|
  {
    if steps != [] {
      StepSpends(w, steps[0], e);
      AttemptsFitTheBudget(Apply(w, steps[0]), steps[1..], e);
    }
  }

  /**
   * A fresh event is attempted at most five times, however long the run; an event that was
   * processed or has failed is never attempted again and its row never changes.
   */
  lemma EventsEnd(w: World, steps: seq<Step>, e: nat)
    requires IsRun(w, steps) && e < |w.outbox|
    ensures w.outbox[e] == NewEvent(w.outbox[e].payload) ==> AttemptCount(w, steps, e) <= 5
    ensures w.outbox[e].status == Processed || w.outbox[e].status == Failed ==>
      AttemptCount(w, steps, e) == 0
      && e < |Run(w, steps).outbox| && Run(w, steps).outbox[e] == w.outbox[e]
  {
    if InOrder(w.outbox[e]) {
      AttemptsFitTheBudget(w, steps, e);
    }
  }

  /**
   * A failed attempt hides the event for a delay that doubles each time, and gives up at the limit:
   * the event is selected again exactly when the delay has passed.
   */
  lemma RetryDelayDoubles(e: Event, first: int, second: int)
    requires e.status == Pending && e.retryCount + 2 < MAX_RETRIES
    ensures
      var once := Retried(e, first);
      var twice := Retried(once, second);
      var delay := once.nextRetryAt.GetOr(0) - first;
      && once.status == Pending && twice.status == Pending
      && (forall t :: Due(once, t) <==> first + delay <= t)
      && (forall t :: Due(twice, t) <==> second + 2 * delay <= t)
      && delay == 60_000 * Pow2(e.retryCount + 1)
  {
  }

  /** When a fresh event that keeps failing is tried again: after 2, 4, 8 and 16 minutes, and never after the fifth. */
  lemma RetrySchedule(payload: EventPayload, t1: int, t2: int, t3: int, t4: int, t5: int)
    ensures
      var e1 := Retried(NewEvent(payload), t1);
      var e2, e3, e4 := Retried(e1, t2), Retried(Retried(e1, t2), t3), Retried(Retried(Retried(e1, t2), t3), t4);
      && (forall t :: Due(NewEvent(payload), t))
      && (forall t :: Due(e1, t) <==> t1 + 120_000 <= t) && (forall t :: Due(e2, t) <==> t2 + 240_000 <= t)
      && (forall t :: Due(e3, t) <==> t3 + 480_000 <= t) && (forall t :: Due(e4, t) <==> t4 + 960_000 <= t)
      && (forall t :: !Due(Retried(e4, t5), t)) && Retried(e4, t5).status == Failed
  {
    assert Pow2(1) == 2 && Pow2(2) == 4;
    assert Pow2(3) == 8 by { assert Pow2(3) == 2 * Pow2(2); }
    assert Pow2(4) == 16 by { assert Pow2(4) == 2 * Pow2(3); }
  }

  /** Five failing attempts of a fresh event are spread over at least thirty minutes, and end it. */
  lemma FailingTakesThirtyMinutes(payload: EventPayload, t1: int, t2: int, t3: int, t4: int, t5: int)
    requires
      var e1 := Retried(NewEvent(payload), t1);
      var e2 := Retried(e1, t2);
      var e3 := Retried(e2, t3);
      Due(e1, t2) && Due(e2, t3) && Due(e3, t4) && Due(Retried(e3, t4), t5)
    ensures
      var e4 := Retried(Retried(Retried(Retried(NewEvent(payload), t1), t2), t3), t4);
      && t5 - t1 >= 30 * 60 * 1000 && Retried(e4, t5).status == Failed && Retried(e4, t5).processedAt == Some(t5)
  {
    RetrySchedule(payload, t1, t2, t3, t4, t5);
  }
}
