/** The service functions as they run: one store, updated in place, step by step. */
module MoneyService {
  import opened Money
  import opened Tables
  import opened Queries
  import L = Ledger
  import P = Payments
  import O = Payouts
  import S = Settlement

  lemma MarkAllNone(ps: map<Id, Payment>, target: PaymentStatus, now: int)
    ensures P.MarkAll(ps, SetOf([]), target, now) == ps
  {
  }

  lemma PaymentsAfterStages(ps: map<Id, Payment>, rows: seq<Id>, writes: nat)
    ensures
      var n := |rows|;
      var created := P.MarkAll(ps, SetOf(rows), TransferCreated, 0);
      && (writes < n ==>
            O.PaymentsAfter(ps, rows, writes) == P.MarkAll(ps, SetOf(rows[..writes]), TransferCreated, 0))
      && (n <= writes <= 2 * n ==> O.PaymentsAfter(ps, rows, writes) == created)
      && (2 * n < writes ==>
            O.PaymentsAfter(ps, rows, writes)
            == P.MarkAll(created, SetOf(rows[..O.Upto(writes - (2 * n + 1), n)]), PayoutCompleted, 0))
  {
    var n := |rows|;
    assert rows[..0] == [] && rows[..n] == rows;
    MarkAllNone(P.MarkAll(ps, SetOf(rows[..O.Upto(writes, n)]), TransferCreated, 0), PayoutCompleted, 0);
  }

  lemma CreatedCanComplete(w: World, start: map<Id, Payment>, rows: seq<Id>)
    requires forall p | p in rows :: p in start && start[p].status == PayoutEligible
    requires w.payments == P.MarkAll(start, SetOf(rows), TransferCreated, 0)
    ensures forall p | p in rows :: P.CanMark(w, p, PayoutCompleted)
  {
  }

  lemma MarkAllNext(ps: map<Id, Payment>, rows: seq<Id>, i: nat, target: PaymentStatus, now: int)
    requires i < |rows| && Distinct(rows) && rows[i] in ps
    ensures
      var done := P.MarkAll(ps, SetOf(rows[..i]), target, now);
      && done[rows[i]] == ps[rows[i]]
      && P.MarkAll(ps, SetOf(rows[..i + 1]), target, now)
         == done[rows[i] := P.Marked(ps[rows[i]], target, now)]
  {
    assert rows[..i + 1] == rows[..i] + [rows[i]];
    assert rows[i] !in rows[..i];
  }

  lemma StampNone(bookings: map<Id, Booking>, amount: Option<int>, settled: bool, now: int)
    ensures P.StampAll(bookings, SetOf([]), amount, settled, now) == bookings
  {
  }

  lemma StampNext(bookings: map<Id, Booking>, rows: seq<Id>, i: nat, amount: Option<int>, settled: bool, now: int)
    requires i < |rows| && Distinct(rows) && rows[i] in bookings
    ensures
      var done := P.StampAll(bookings, SetOf(rows[..i]), amount, settled, now);
      && done[rows[i]] == bookings[rows[i]]
      && P.StampAll(bookings, SetOf(rows[..i + 1]), amount, settled, now)
         == done[rows[i] := P.StampedRow(bookings[rows[i]], amount, settled, now)]
  {
    assert rows[..i + 1] == rows[..i] + [rows[i]];
    assert rows[i] !in rows[..i];
  }

  datatype PayoutReply =
    | NoEligiblePayments
    | NoStripeAccount
    | OnboardingIncomplete
    | BatchFailedReply(batch: nat)
    | BatchCompletedReply(batch: nat, amount: int)
    | Crashed

  /** The reply of `processDriverPayout`. */
  function Reply(w: World, driver: Id, rows: seq<Id>, a: O.Attempt): PayoutReply
    requires forall p | p in rows :: p in w.payments
  {
    if rows == [] then NoEligiblePayments
    else if !a.mock && (driver !in w.accounts || !w.accounts[driver].hasAccount) then NoStripeAccount
    else if !a.mock && !w.accounts[driver].onboarded then OnboardingIncomplete
    else if (a.mock || a.stripeAccepts) && a.writes >= O.WriteCount(|rows|) then
      BatchCompletedReply(|w.batches|, O.NetTotal(w.payments, rows))
    else if a.mock then Crashed
    else BatchFailedReply(|w.batches|)
  }

  /**
   * What a reply means: a completed batch is in the table, and was sent, with the amount replied; a
   * failed one is in the table as failed; a reply given before a batch was written left the tables alone.
   */
  lemma RepliesTellTheOutcome(w: World, driver: Id, rows: seq<Id>, a: O.Attempt)
    requires forall p | p in rows :: p in w.payments
    ensures
      var w' := O.Payout(w, driver, rows, a);
      match Reply(w, driver, rows, a)
      case NoEligiblePayments => rows == [] && w' == w
      case NoStripeAccount => !(driver in w.accounts && w.accounts[driver].hasAccount) && w' == w
      case OnboardingIncomplete =>
        driver in w.accounts && w.accounts[driver] == ConnectAccount(true, false) && w' == w
      case BatchFailedReply(batch) =>
        && !a.mock && batch == |w.batches| && |w'.batches| == batch + 1 && w'.batches[batch].status == BatchFailed
      case BatchCompletedReply(batch, amount) =>
        && batch == |w.batches| && |w'.batches| == batch + 1 && w'.batches[batch].status == BatchCompleted
        && w'.batches[batch].amountTotal == amount
        && (!a.mock ==> w'.transfers == w.transfers + [StripeTransfer(batch, driver, amount)])
      case Crashed => a.mock && a.writes < 3 * |rows| + 2
  {
    O.PayoutBatches(w, driver, rows, a);
    O.PayoutTransfers(w, driver, rows, a);
  }

  /** The replies of a series of payouts, each to the tables the ones before it left. */
  ghost function Replies(w: World, calls: seq<O.PayoutCall>): (replies: seq<PayoutReply>)
    requires O.ValidCalls(w, calls)
    ensures |replies| == |calls|
    decreases |calls|
  {
    if calls == [] then []
    else
      var c, before := calls[|calls| - 1], calls[..|calls| - 1];
      assert forall p | p in c.rows :: p in O.SelectedIds(O.PayAll(w, before), c.driver);
      Replies(w, before) + [Reply(O.PayAll(w, before), c.driver, c.rows, c.attempt)]
  }

  lemma RepliesPush(w: World, calls: seq<O.PayoutCall>, c: O.PayoutCall)
    requires O.ValidCalls(w, calls) && IsListing(c.rows, O.SelectedIds(O.PayAll(w, calls), c.driver))
    ensures O.ValidCalls(w, calls + [c])
    ensures forall p | p in c.rows :: p in O.PayAll(w, calls).payments
    ensures Replies(w, calls + [c]) == Replies(w, calls) + [Reply(O.PayAll(w, calls), c.driver, c.rows, c.attempt)]
  {
    O.PayAllPush(w, calls, c);
    assert (calls + [c])[..|calls|] == calls;
  }

  /** A series of payouts under way: what it did, what was replied, and whom it is done with. */
  ghost predicate Underway(
    start: World, w: World, calls: seq<O.PayoutCall>, replies: seq<PayoutReply>, done: seq<Id>, plan: Id -> O.Attempt)
  {
    && O.ValidCalls(start, calls) && w == O.PayAll(start, calls) && w.accounts == start.accounts
    && (forall c | c in calls :: O.CanTransferTo(start, c.driver) && c.attempt == plan(c.driver))
    && replies == Replies(start, calls)
    && |calls| == |O.Ready(start, done)|
    && (forall i | 0 <= i < |calls| :: calls[i].driver == O.Ready(start, done)[i])
    && (O.AllUnhindered(calls) ==> O.Cleared(start, w, done))
  }

  lemma UnderwayStart(start: World, plan: Id -> O.Attempt)
    ensures Underway(start, start, [], [], [], plan)
  {
  }

  lemma UnderwaySkip(start: World, w: World, calls: seq<O.PayoutCall>, replies: seq<PayoutReply>,
                     done: seq<Id>, plan: Id -> O.Attempt, driver: Id)
    requires Underway(start, w, calls, replies, done, plan) && !O.CanTransferTo(w, driver)
    ensures Underway(start, w, calls, replies, done + [driver], plan)
  {
    O.ReadyPush(start, done, driver);
    if O.AllUnhindered(calls) {
      O.ClearedSkip(start, w, done, driver);
    }
  }

  lemma UnderwayPay(start: World, w: World, calls: seq<O.PayoutCall>, replies: seq<PayoutReply>,
                    done: seq<Id>, plan: Id -> O.Attempt, driver: Id, rows: seq<Id>)
    requires Underway(start, w, calls, replies, done, plan) && O.CanTransferTo(w, driver)
    requires IsListing(rows, O.SelectedIds(w, driver))
    ensures forall p | p in rows :: p in w.payments
    ensures Underway(start, O.Payout(w, driver, rows, plan(driver)), calls + [O.PayoutCall(driver, rows, plan(driver))],
                     replies + [Reply(w, driver, rows, plan(driver))], done + [driver], plan)
  {
    var c := O.PayoutCall(driver, rows, plan(driver));
    O.ReadyPush(start, done, driver);
    O.PayAllPush(start, calls, c);
    RepliesPush(start, calls, c);
    assert forall x :: x in calls + [c] <==> x in calls || x == c;
    if O.AllUnhindered(calls + [c]) {
      O.ClearedPay(start, w, done, c);
    }
  }

  lemma EveryoneCleared(start: World, w: World, candidates: seq<Id>)
    requires IsListing(candidates, O.Waiting(start)) && O.Cleared(start, w, candidates)
    ensures forall driver, p | O.CanTransferTo(w, driver) :: !O.Selected(w, driver, p)
  {
    forall driver, p | O.Selected(start, driver, p) ensures driver in candidates {
      assert p in O.SelectedIds(start, driver);
      O.WaitingIff(start, driver);
    }
    O.ClearedAll(start, w, candidates);
  }

  predicate IsFailure(reply: PayoutReply) {
    reply.NoStripeAccount? || reply.OnboardingIncomplete? || reply.BatchFailedReply?
  }

  function CompletedCount(replies: seq<PayoutReply>): nat {
    if replies == [] then 0
    else CompletedCount(replies[..|replies| - 1]) + if replies[|replies| - 1].BatchCompletedReply? then 1 else 0
  }

  function FailedCount(replies: seq<PayoutReply>): nat {
    if replies == [] then 0
    else FailedCount(replies[..|replies| - 1]) + if IsFailure(replies[|replies| - 1]) then 1 else 0
  }

  lemma CountPush(replies: seq<PayoutReply>, reply: PayoutReply)
    ensures CompletedCount(replies + [reply]) == CompletedCount(replies) + if reply.BatchCompletedReply? then 1 else 0
    ensures FailedCount(replies + [reply]) == FailedCount(replies) + if IsFailure(reply) then 1 else 0
  {
    assert (replies + [reply])[..|replies|] == replies;
  }

  function CompletedBatches(batches: seq<Batch>): nat {
    if batches == [] then 0
    else CompletedBatches(batches[..|batches| - 1]) + if batches[|batches| - 1].status == BatchCompleted then 1 else 0
  }

  lemma BatchReplied(w: World, c: O.PayoutCall)
    requires (forall p | p in c.rows :: p in w.payments) && O.CanTransferTo(w, c.driver)
    requires Reply(w, c.driver, c.rows, c.attempt) != Crashed
    ensures
      var w', reply := O.Payout(w, c.driver, c.rows, c.attempt), Reply(w, c.driver, c.rows, c.attempt);
      && w'.accounts == w.accounts
      && |w'.batches|
         == |w.batches| + (if reply.BatchCompletedReply? then 1 else 0) + (if IsFailure(reply) then 1 else 0)
      && CompletedBatches(w'.batches)
         == CompletedBatches(w.batches) + if reply.BatchCompletedReply? then 1 else 0
  {
    O.PayoutElsewhere(w, c.driver, c.rows, c.attempt);
    O.PayoutBatches(w, c.driver, c.rows, c.attempt);
    if c.rows != [] {
      var b := O.FinalBatch(w, c.driver, c.rows, c.attempt);
      assert (w.batches + [b])[..|w.batches|] == w.batches;
    }
  }

  /**
   * What the counters count. Of a series of payouts to ready drivers that ran to its end, the drivers
   * processed and failed are the batches it added, and those processed the completed ones.
   */
  lemma {:induction false} CountersMatchTheBatches(w: World, calls: seq<O.PayoutCall>)
    requires O.ValidCalls(w, calls) && Crashed !in Replies(w, calls)
    requires forall c | c in calls :: O.CanTransferTo(w, c.driver)
    ensures
      var w', replies := O.PayAll(w, calls), Replies(w, calls);
      && w'.accounts == w.accounts
      && |w'.batches| == |w.batches| + CompletedCount(replies) + FailedCount(replies)
      && CompletedBatches(w'.batches) == CompletedBatches(w.batches) + CompletedCount(replies)
    decreases |calls|
  {
    if calls != [] {
      var before, c := calls[..|calls| - 1], calls[|calls| - 1];
      var w1 := O.PayAll(w, before);
      assert forall p | p in c.rows :: p in O.SelectedIds(w1, c.driver);
      var reply := Reply(w1, c.driver, c.rows, c.attempt);
      assert Replies(w, calls) == Replies(w, before) + [reply];
      assert reply in Replies(w, calls) && c in calls;
      CountersMatchTheBatches(w, before);
      CountPush(Replies(w, before), reply);
      BatchReplied(w1, c);
    }
  }

  class MoneyStore {
    var payments: map<Id, Payment>
    var bookings: map<Id, Booking>
    var disputes: map<Id, Dispute>
    var accounts: map<Id, ConnectAccount>
    var ledger: seq<Entry>
    var groups: nat
    var outbox: seq<Event>
    var batches: seq<Batch>
    var transfers: seq<StripeTransfer>
    var stripeRefunds: seq<StripeRefund>

    function View(): World
      reads this
    {
      World(payments, bookings, disputes, accounts, ledger, groups, outbox, batches, transfers, stripeRefunds)
    }

    constructor (bookings: map<Id, Booking>, disputes: map<Id, Dispute>, accounts: map<Id, ConnectAccount>)
      ensures View() == World(map[], bookings, disputes, accounts, [], 0, [], [], [], [])
    {
      payments, ledger, groups, outbox := map[], [], 0, [];
      batches, transfers, stripeRefunds := [], [], [];
      this.bookings, this.disputes, this.accounts := bookings, disputes, accounts;
    }

    // -------------------------------------------------------------------------------------------
    // Payments
    // -------------------------------------------------------------------------------------------

    method CreatePayment(p: Id, rider: Id, split: PaymentSplit, status: PaymentStatus) returns (ok: bool)
      modifies this`payments
      ensures ok == (p !in old(payments))
      ensures View() == P.CreatePayment(old(View()), p, rider, split, status)
    {
      if p in payments {
        return false;
      }
      payments := payments[p := Payment(rider, split.total, split.fare, split.fee, 0, 0, status, None)];
      return true;
    }

    method MarkRow(p: Id, target: PaymentStatus, now: int) returns (ok: bool)
      modifies this`payments
      ensures ok == P.CanMark(old(View()), p, target)
      ensures View() == P.Mark(old(View()), p, target, now)
    {
      if p !in payments {
        return false;
      }
      var row := payments[p];
      if !P.Allowed(row.status, target) {
        return false;
      }
      if target == PayoutEligible {
        row := row.(payoutEligibleAt := Some(now));
      }
      payments := payments[p := row.(status := target)];
      return true;
    }

    method RecordGroup(entries: seq<Entry>)
      modifies this`ledger, this`groups
      ensures View() == P.AppendGroup(old(View()), entries)
    {
      ledger := ledger + entries;
      groups := groups + 1;
    }

    method MarkPaymentPaid(p: Id, driver: Id) returns (ok: bool)
      modifies this`payments, this`ledger, this`groups, this`outbox
      ensures ok == P.CanMark(old(View()), p, Paid)
      ensures View() == P.MarkPaid(old(View()), p, driver)
    {
      if p !in payments {
        return false;
      }
      var row := payments[p];
      if !P.Allowed(row.status, Paid) {
        return false;
      }
      payments := payments[p := row.(status := Paid)];
      RecordGroup(L.ReceiptGroup(groups, p, row, driver));
      outbox := outbox + [P.NewEvent(PaymentPaid(p))];
      return true;
    }

    method MarkBookingPaymentPaid(p: Id, driver: Id) returns (found: bool)
      modifies this`payments, this`ledger, this`groups, this`outbox
      ensures found == (p in old(payments))
      ensures View() == P.MarkBookingPaid(old(View()), p, driver)
    {
      if p !in payments {
        return false;
      }
      var status := payments[p].status;
      if status == Created {
        var moved := MarkRow(p, PaymentPending, 0);
        var paid := MarkPaymentPaid(p, driver);
        assert moved && paid;
      } else if status == PaymentPending {
        var paid := MarkPaymentPaid(p, driver);
        assert paid;
      }
      return true;
    }

    method MarkRefunded(p: Id, driver: Id, amount: Option<int>, now: int) returns (ok: bool)
      modifies this`payments, this`ledger, this`groups
      ensures ok == (p in old(payments)
                     && (old(payments)[p].status == Refunded || P.Refundable(old(payments)[p].status)))
      ensures View() == P.MarkRefunded(old(View()), p, driver, amount, now)
    {
      if p !in payments {
        return false;
      }
      var row := payments[p];
      if row.status == Refunded {
        return true;
      }
      if row.status != RefundPending {
        if !P.Allowed(row.status, RefundPending) {
          return false;
        }
        payments := payments[p := row.(status := RefundPending)];
      }
      var effective := amount.GetOr(row.amountTotal);
      var split := ResolveRefundSplit(row.amountTotal, row.fareAmount, effective);
      var refundedFare := row.refundedFareAmount + split.fare;
      var refundedFee := row.refundedFeeAmount + split.fee;
      var residualFare := row.fareAmount - refundedFare;
      var isPartial := refundedFare + refundedFee < row.amountTotal;
      var next := if isPartial && residualFare > 0 then PayoutEligible else Refunded;
      assert P.Allowed(RefundPending, next);
      var updated := row.(
        status := next,
        refundedFareAmount := Min(row.fareAmount, refundedFare),
        refundedFeeAmount := Min(row.platformFeeAmount, refundedFee));
      if next == PayoutEligible {
        updated := updated.(payoutEligibleAt := Some(now));
      }
      assert updated == P.RefundedRow(row, amount, now);
      payments := payments[p := updated];
      RecordGroup(L.RefundGroup(groups, p, row.rider, driver, effective, split));
      return true;
    }

    method RecordProviderFeeExpense(p: Id, fee: int)
      modifies this`ledger, this`groups
      ensures View() == P.RecordProviderFee(old(View()), p, fee)
    {
      if fee > 0 {
        RecordGroup(L.ProviderFeeGroup(groups, p, fee));
      }
    }

    /** Stamps every booking of the intent, in whatever order they come. */
    method StampBookings(intent: Id, amount: Option<int>, settled: bool, now: int)
      modifies this`bookings
      ensures View() == P.Stamped(old(View()), intent, amount, settled, now)
    {
      ghost var start := bookings;
      var ids := P.IntentIds(View(), intent);
      var rows := ListRows(ids);
      assert rows[..0] == [];
      StampNone(start, amount, settled, now);
      for i := 0 to |rows|
        invariant bookings == P.StampAll(start, SetOf(rows[..i]), amount, settled, now)
      {
        assert rows[i] in rows;
        assert rows[i] in ids;
        StampNext(start, rows, i, amount, settled, now);
        bookings := bookings[rows[i] := P.StampedRow(bookings[rows[i]], amount, settled, now)];
      }
      assert rows[..|rows|] == rows;
      assert SetOf(rows) == ids;
    }

    /** `found` is the booking the query after the update returns. */
    method ApplyRefundWebhook(intent: Id, amount: Option<int>, settled: bool, now: int) returns (found: Option<Id>)
      modifies this`bookings, this`payments, this`ledger, this`groups
      ensures P.FoundBy(old(View()), intent, found)
      ensures View() == P.RefundWebhook(old(View()), intent, found, amount, settled, now)
    {
      ghost var start := View();
      StampBookings(intent, amount, settled, now);
      var ids := P.IntentIds(View(), intent);
      assert ids == P.IntentIds(start, intent);
      var rows := ListRows(ids);
      found := if |rows| > 0 then Some(rows[0]) else None;
      if |rows| > 0 {
        assert rows[0] in rows;
        assert rows[0] in ids;
        if settled {
          var ok := MarkRefunded(rows[0], bookings[rows[0]].driver, amount, now);
        }
      } else {
        assert forall b | b in start.bookings :: b !in ids;
      }
    }

    // -------------------------------------------------------------------------------------------
    // Outbox and eligibility
    // -------------------------------------------------------------------------------------------

    method RunHandler(payload: EventPayload, now: int) returns (ok: bool)
      requires !payload.Unhandled?
      modifies this`payments
      ensures ok == P.HandlerSucceeds(old(View()), payload)
      ensures View() == P.Handle(old(View()), payload, now)
    {
      match payload
      case PaymentPaid(p) =>
        ok := MarkRow(p, HeldInEscrow, now);
      case BookingCompleted(None) =>
        ok := true;
      case BookingCompleted(Some(p)) =>
        ok := MarkRow(p, PayoutEligible, now);
    }

    method DeliverEvent(e: nat, event: Event, now: int) returns (status: EventStatus)
      requires e < |outbox| && outbox[e] == event
      modifies this`payments, this`outbox
      ensures View() == P.Deliver(old(View()), e, now)
      ensures |outbox| == |old(outbox)| && outbox == old(outbox)[e := outbox[e]]
      ensures status == outbox[e].status
    {
      outbox := outbox[e := event.(status := Processing)];
      if event.payload.Unhandled? {
        outbox := outbox[e := event.(status := Failed, processedAt := Some(now))];
        return Failed;
      }
      var ok := RunHandler(event.payload, now);
      if ok {
        outbox := outbox[e := event.(status := Processed, processedAt := Some(now))];
        return Processed;
      }
      var count := event.retryCount + 1;
      if count >= P.MAX_RETRIES {
        outbox := outbox[e := event.(status := Failed, retryCount := count, processedAt := Some(now))];
        return Failed;
      }
      var next := now + P.RETRY_DELAY_MS * P.Pow2(count);
      outbox := outbox[e := event.(status := Pending, retryCount := count, nextRetryAt := Some(next))];
      return Pending;
    }

    /** The loop over the selected events, given as the query returned them. */
    method DeliverSelected(sel: seq<nat>, now: int) returns (processed: nat, failed: nat)
      requires forall k | 0 <= k < |sel| :: sel[k] < |outbox|
      requires forall j, k | 0 <= j < k < |sel| :: sel[j] < sel[k]
      modifies this`payments, this`outbox
      ensures View() == P.DeliverAll(old(View()), sel, now)
      ensures |outbox| == |old(outbox)|
      ensures processed == P.CountWith(outbox, sel, Processed) && failed == P.CountWith(outbox, sel, Failed)
    {
      ghost var start := View();
      var snapshot := outbox;
      processed, failed := 0, 0;
      for i := 0 to |sel|
        invariant View() == P.DeliverAll(start, sel[..i], now)
        invariant |outbox| == |snapshot|
        invariant forall e | 0 <= e < |snapshot| && e !in sel[..i] :: outbox[e] == snapshot[e]
        invariant processed == P.CountWith(outbox, sel[..i], Processed)
        invariant failed == P.CountWith(outbox, sel[..i], Failed)
      {
        var e := sel[i];
        P.DeliverAllNext(start, sel, i, now);
        assert e !in sel[..i];
        ghost var before := outbox;
        var status := DeliverEvent(e, snapshot[e], now);
        P.CountWithNext(before, outbox, sel, i, Processed);
        P.CountWithNext(before, outbox, sel, i, Failed);
        if status == Processed {
          processed := processed + 1;
        } else if status == Failed {
          failed := failed + 1;
        }
      }
      assert sel[..|sel|] == sel;
    }

    method ProcessOutboxEvents(batchSize: nat, now: int) returns (processed: nat, failed: nat, total: nat)
      modifies this`payments, this`outbox
      ensures View() == P.ProcessOutbox(old(View()), batchSize, now)
      ensures |outbox| == |old(outbox)|
      ensures
        var sel := P.SelectDue(old(outbox), 0, batchSize, now);
        && processed == P.CountWith(outbox, sel, Processed)
        && failed == P.CountWith(outbox, sel, Failed)
        && total == |sel|
    {
      var sel := P.SelectDue(outbox, 0, batchSize, now);
      processed, failed := DeliverSelected(sel, now);
      total := |sel|;
    }

    method MarkReadyEligible(delayMinutes: nat, now: int) returns (updated: nat)
      modifies this`payments
      ensures View() == P.MarkReady(old(View()), delayMinutes, now)
      ensures updated == |P.ReadyIds(old(View()), now - delayMinutes * 60 * 1000)|
    {
      var cutoff := now - delayMinutes * 60 * 1000;
      ghost var start := payments;
      var ready := P.ReadyIds(View(), cutoff);
      var eligible := ListRows(ready);
      updated := 0;
      MarkAllNone(payments, PayoutEligible, now);
      assert eligible[..0] == [];
      for i := 0 to |eligible|
        invariant payments == P.MarkAll(start, SetOf(eligible[..i]), PayoutEligible, now)
        invariant updated == i
      {
        assert eligible[i] in eligible;
        assert eligible[i] in ready;
        MarkAllNext(start, eligible, i, PayoutEligible, now);
        var row := payments[eligible[i]];
        payments := payments[eligible[i] := row.(status := PayoutEligible, payoutEligibleAt := Some(now))];
        updated := updated + 1;
      }
      assert eligible[..|eligible|] == eligible;
      assert SetOf(eligible) == ready;
      DistinctCount(eligible);
    }

    method CheckAndMarkEligible(delayMinutes: nat, now: int)
      returns (updated: nat, outboxProcessed: nat, outboxFailed: nat, outboxTotal: nat)
      modifies this`payments, this`outbox
      ensures View() == P.CheckAndMarkEligible(old(View()), delayMinutes, now)
      ensures updated == |P.ReadyIds(P.ProcessOutbox(old(View()), P.ELIGIBILITY_BATCH, now),
                                     now - delayMinutes * 60 * 1000)|
      ensures |outbox| == |old(outbox)|
      ensures
        var sel := P.SelectDue(old(outbox), 0, P.ELIGIBILITY_BATCH, now);
        && outboxProcessed == P.CountWith(outbox, sel, Processed)
        && outboxFailed == P.CountWith(outbox, sel, Failed)
        && outboxTotal == |sel|
    {
      outboxProcessed, outboxFailed, outboxTotal := ProcessOutboxEvents(P.ELIGIBILITY_BATCH, now);
      updated := MarkReadyEligible(delayMinutes, now);
    }

    // -------------------------------------------------------------------------------------------
    // Payouts
    // -------------------------------------------------------------------------------------------

    /** One loop of guarded marks; it stops with an error when the write budget runs out. */
    method MarkEach(rows: seq<Id>, target: PaymentStatus, budget: nat) returns (left: int)
      requires Distinct(rows) && target != PayoutEligible
      requires forall p | p in rows :: P.CanMark(View(), p, target)
      modifies this`payments
      ensures left == budget - |rows|
      ensures payments == P.MarkAll(old(payments), SetOf(rows[..O.Upto(budget, |rows|)]), target, 0)
    {
      ghost var start := payments;
      MarkAllNone(payments, target, 0);
      assert rows[..0] == [];
      for i := 0 to |rows|
        invariant i <= budget
        invariant payments == P.MarkAll(start, SetOf(rows[..i]), target, 0)
      {
        if i == budget {
          return budget - |rows|;
        }
        assert rows[i] in rows;
        MarkAllNext(start, rows, i, target, 0);
        var ok := MarkRow(rows[i], target, 0);
        assert ok;
      }
      return budget - |rows|;
    }

    /** The loop that debits the driver's liability payment by payment. */
    method RecordTransfers(snap: map<Id, Payment>, driver: Id, rows: seq<Id>, budget: nat) returns (left: int)
      requires forall p | p in rows :: p in snap
      modifies this`ledger, this`groups
      ensures left == budget - |rows|
      ensures
        var debits := O.TransferEntries(snap, driver, rows[..O.Upto(budget, |rows|)], old(groups));
        && ledger == old(ledger) + debits
        && groups == old(groups) + |debits|
    {
      assert rows[..0] == [];
      for i := 0 to |rows|
        invariant i <= budget
        invariant ledger == old(ledger) + O.TransferEntries(snap, driver, rows[..i], old(groups))
        invariant groups == old(groups) + i
        invariant |O.TransferEntries(snap, driver, rows[..i], old(groups))| == i
      {
        if i == budget {
          return budget - |rows|;
        }
        assert rows[i] in rows;
        assert rows[..i + 1][..i] == rows[..i];
        RecordGroup([L.TransferEntry(groups, rows[i], driver, P.NetFare(snap[rows[i]]))]);
      }
      return budget - |rows|;
    }

    /** The transfer body. */
    method WriteTransfer(snap: map<Id, Payment>, driver: Id, rows: seq<Id>, batch: nat, writes: nat)
      returns (threw: bool)
      requires Distinct(rows) && batch < |batches|
      requires forall p | p in rows :: p in snap && p in payments && payments[p].status == PayoutEligible
      modifies this`payments, this`ledger, this`groups, this`batches
      ensures threw == (writes < O.WriteCount(|rows|))
      ensures payments == O.PaymentsAfter(old(payments), rows, writes)
      ensures
        var debits := O.DebitsAfter(snap, driver, rows, writes, old(groups));
        ledger == old(ledger) + debits && groups == old(groups) + |debits|
      ensures batches == old(batches)[batch := O.BatchAfter(old(batches)[batch], |rows|, writes)]
    {
      ghost var n := |rows|;
      PaymentsAfterStages(payments, rows, writes);
      var left := MarkEach(rows, TransferCreated, writes);
      assert rows[..n] == rows;
      if left < 0 {
        assert rows[..0] == [] && ledger + [] == ledger && batches[batch := batches[batch]] == batches;
        return true;
      }
      left := RecordTransfers(snap, driver, rows, left);
      assert O.Debited(n, writes) == O.Upto(writes - n, n);
      if left <= 0 {
        assert batches[batch := batches[batch]] == batches;
        return true;
      }
      batches := batches[batch := batches[batch].(status := BatchCompleted)];
      assert forall p | p in rows :: P.CanMark(View(), p, PayoutCompleted) by {
        CreatedCanComplete(View(), old(payments), rows);
      }
      left := MarkEach(rows, PayoutCompleted, left - 1);
      if left <= 0 {
        return true;
      }
      batches := batches[batch := O.WithItems(batches[batch], ItemCompleted)];
      return false;
    }

    /** The catch block; a reversal that cannot be written is only logged. */
    method Compensate(snap: map<Id, Payment>, driver: Id, rows: seq<Id>, batch: nat, lost: set<Id>)
      requires batch < |batches|
      requires forall p | p in rows :: p in snap
      modifies this`ledger, this`groups, this`batches
      ensures View() == O.Compensate(old(View()), snap, driver, rows, batch, lost)
    {
      ghost var spec := O.Compensate(View(), snap, driver, rows, batch, lost);
      batches := batches[batch := batches[batch].(status := BatchFailed)];
      batches := batches[batch := O.WithItems(batches[batch], ItemFailed)];
      assert batches == spec.batches;
      assert rows[..0] == [];
      for i := 0 to |rows|
        invariant batches == spec.batches
        invariant
          var reversals := O.ReversalEntries(snap, driver, rows[..i], lost, old(groups));
          ledger == old(ledger) + reversals && groups == old(groups) + |reversals|
      {
        assert rows[i] in rows;
        assert rows[..i + 1][..i] == rows[..i];
        if rows[i] !in lost {
          RecordGroup([L.ReversalEntry(groups, rows[i], driver, P.NetFare(snap[rows[i]]))]);
        }
      }
      assert rows[..|rows|] == rows;
    }

    /** The guarded block of a live payout: Stripe first, then the transfer body. */
    method SendTransfer(snap: map<Id, Payment>, driver: Id, rows: seq<Id>, batch: nat, amount: int, a: O.Attempt)
      returns (threw: bool)
      requires Distinct(rows) && batch < |batches|
      requires forall p | p in rows :: p in snap && p in payments && payments[p].status == PayoutEligible
      modifies this`payments, this`ledger, this`groups, this`batches, this`transfers
      ensures threw == !(a.stripeAccepts && a.writes >= O.WriteCount(|rows|))
      ensures !a.stripeAccepts ==> View() == old(View())
      ensures a.stripeAccepts ==>
        View() == O.WriteTransfer(old(View()).(transfers := old(transfers) + [StripeTransfer(batch, driver, amount)]),
                                  snap, driver, rows, batch, a.writes)
    {
      if !a.stripeAccepts {
        return true;
      }
      transfers := transfers + [StripeTransfer(batch, driver, amount)];
      threw := WriteTransfer(snap, driver, rows, batch, a.writes);
    }

    method ProcessDriverPayout(driver: Id, a: O.Attempt) returns (reply: PayoutReply, rows: seq<Id>)
      modifies this`payments, this`ledger, this`groups, this`batches, this`transfers
      ensures IsListing(rows, O.SelectedIds(old(View()), driver))
      ensures reply == Reply(old(View()), driver, rows, a)
      ensures View() == O.Payout(old(View()), driver, rows, a)
    {
      rows := ListRows(O.SelectedIds(View(), driver));
      assert forall p | p in rows :: p in O.SelectedIds(View(), driver);
      if |rows| == 0 {
        return NoEligiblePayments, rows;
      }
      var snap := payments;
      var totalAmount := O.NetTotal(snap, rows);
      if !a.mock {
        if driver !in accounts || !accounts[driver].hasAccount {
          return NoStripeAccount, rows;
        }
        if !accounts[driver].onboarded {
          return OnboardingIncomplete, rows;
        }
      }
      var batch := |batches|;
      batches := batches + [O.NewBatch(snap, driver, rows)];
      if a.mock {
        var threw := WriteTransfer(snap, driver, rows, batch, a.writes);
        return if threw then Crashed else BatchCompletedReply(batch, totalAmount), rows;
      }
      var threw := SendTransfer(snap, driver, rows, batch, totalAmount, a);
      if threw {
        Compensate(snap, driver, rows, batch, a.lost);
        return BatchFailedReply(batch), rows;
      }
      return BatchCompletedReply(batch, totalAmount), rows;
    }

    /** One candidate's turn: paid when ready, else skipped. */
    method GiveTurn(driver: Id, plan: Id -> O.Attempt, ghost start: World, ghost calls: seq<O.PayoutCall>,
                    ghost replies: seq<PayoutReply>, ghost done: seq<Id>)
      returns (reply: Option<PayoutReply>, ghost now: seq<O.PayoutCall>)
      requires Underway(start, View(), calls, replies, done, plan)
      modifies this`payments, this`ledger, this`groups, this`batches, this`transfers
      ensures reply.Some? <==> O.CanTransferTo(start, driver)
      ensures Underway(start, View(), now, replies + (if reply.Some? then [reply.value] else []), done + [driver], plan)
    {
      if O.CanTransferTo(View(), driver) {
        ghost var before := View();
        var paid, rows := ProcessDriverPayout(driver, plan(driver));
        UnderwayPay(start, before, calls, replies, done, plan, driver, rows);
        return Some(paid), calls + [O.PayoutCall(driver, rows, plan(driver))];
      }
      UnderwaySkip(start, View(), calls, replies, done, plan, driver);
      assert replies + [] == replies;
      return None, calls;
    }

    /** The loop over the candidates; `done` are those that had their turn when it ended. */
    method PayInTurn(candidates: seq<Id>, plan: Id -> O.Attempt)
      returns (crashed: bool, ghost done: seq<Id>, ghost calls: seq<O.PayoutCall>, replies: seq<PayoutReply>,
               skipped: nat, processed: nat, failed: nat)
      modifies this`payments, this`ledger, this`groups, this`batches, this`transfers
      ensures Underway(old(View()), View(), calls, replies, done, plan)
      ensures crashed <==> Crashed in replies
      ensures !crashed ==> done == candidates
      ensures !crashed ==> skipped == |done| - |O.Ready(old(View()), done)|
      ensures processed == CompletedCount(replies) && failed == FailedCount(replies)
    {
      ghost var start := View();
      crashed, done, calls, replies, skipped, processed, failed := false, [], [], [], 0, 0, 0;
      UnderwayStart(start, plan);
      for i := 0 to |candidates|
        invariant done == candidates[..i] && Underway(start, View(), calls, replies, done, plan)
        invariant Crashed !in replies
        invariant processed == CompletedCount(replies) && failed == FailedCount(replies)
        invariant skipped == i - |O.Ready(start, done)|
      {
        var driver := candidates[i];
        O.ReadyPush(start, done, driver);
        ghost var paid;
        var reply;
        reply, paid := GiveTurn(driver, plan, start, calls, replies, done);
        calls, done := paid, done + [driver];
        if reply.Some? {
          CountPush(replies, reply.value);
          replies := replies + [reply.value];
          if reply.value.BatchCompletedReply? {
            processed := processed + 1;
          } else if IsFailure(reply.value) {
            failed := failed + 1;
          }
          if reply.value.Crashed? {
            return true, done, calls, replies, skipped, processed, failed;
          }
        } else {
          assert replies + [] == replies;
          skipped := skipped + 1;
        }
      }
    }

    /**
     * Pays every driver that has something to be paid and is ready to receive it, in turn. `plan` says
     * how each driver's attempt goes; an attempt that crashes in mock mode ends the whole call.
     */
    method ProcessEligibleDriverPayouts(plan: Id -> O.Attempt)
      returns (crashed: bool, candidates: seq<Id>, ghost calls: seq<O.PayoutCall>, replies: seq<PayoutReply>,
               checked: nat, skipped: nat, processed: nat, failed: nat)
      modifies this`payments, this`ledger, this`groups, this`batches, this`transfers
      ensures IsListing(candidates, O.Waiting(old(View())))
      ensures O.ValidCalls(old(View()), calls) && View() == O.PayAll(old(View()), calls)
      ensures forall c | c in calls :: O.CanTransferTo(old(View()), c.driver) && c.attempt == plan(c.driver)
      ensures replies == Replies(old(View()), calls)
      ensures crashed <==> Crashed in replies
      ensures !crashed ==>
        var ready := O.Ready(old(View()), candidates);
        && |calls| == |ready| && (forall i | 0 <= i < |calls| :: calls[i].driver == ready[i])
        && checked == |candidates| && skipped == |candidates| - |ready|
        && processed == CompletedCount(replies) && failed == FailedCount(replies)
      ensures !crashed && O.AllUnhindered(calls) ==>
        forall driver, p | O.CanTransferTo(View(), driver) :: !O.Selected(View(), driver, p)
    {
      ghost var start := View();
      candidates := ListRows(O.Waiting(View()));
      checked := |candidates|;
      ghost var done: seq<Id>;
      crashed, done, calls, replies, skipped, processed, failed := PayInTurn(candidates, plan);
      if !crashed && O.AllUnhindered(calls) {
        EveryoneCleared(start, View(), candidates);
      }
    }

    // -------------------------------------------------------------------------------------------
    // Disputes
    // -------------------------------------------------------------------------------------------

    method WriteStatus(b: Id, status: PaymentStatus) returns (written: seq<PaymentStatus>)
      modifies this`payments
      ensures payments == if b in old(payments)
                          then old(payments)[b := old(payments)[b].(status := status)] else old(payments)
      ensures written == S.StatusWrites(old(View()), b, [status])
    {
      if b !in payments {
        return [];
      }
      payments := payments[b := payments[b].(status := status)];
      return [status];
    }

    /** Marks the booking, asks Stripe when the charge was captured, then records what went back. */
    method IssueRefund(b: Id, booking: Booking, plan: S.Plan, full: bool, stripeAccepts: bool, now: int)
      returns (threw: bool, writes: seq<PaymentStatus>)
      requires b in bookings && bookings[b] == booking
      modifies this`payments, this`bookings, this`ledger, this`groups, this`stripeRefunds
      ensures threw == (S.CallsStripe(booking) && !stripeAccepts)
      ensures writes == S.StatusWrites(old(View()), b, [RefundPending])
      ensures
        var begun := S.BeginRefund(old(View()), b, plan, full);
        var sent := if S.CallsStripe(booking) then S.RequestRefund(begun, b, plan, stripeAccepts) else begun;
        View() == if threw then sent else S.FinishRefund(sent, b, plan, now)
    {
      bookings := bookings[b := booking.(refundAmount := Some(plan.refund), refundPercent := Some(plan.percent),
                                         status := if full then Cancelled else Disputed)];
      writes := WriteStatus(b, RefundPending);
      if booking.stripeIntent.Some? && booking.paymentCapturedAt.Some? {
        stripeRefunds := stripeRefunds + [StripeRefund(b, plan.refund, stripeAccepts)];
        if !stripeAccepts {
          return true, writes;
        }
      }
      bookings := bookings[b := bookings[b].(refundedAt := Some(now))];
      if b in payments {
        var row := payments[b];
        RecordGroup(L.RefundGroup(groups, b, row.rider, booking.driver, plan.refund, plan.split));
        payments := payments[b := row.(refundedFareAmount := row.refundedFareAmount + plan.split.fare,
                                       refundedFeeAmount := row.refundedFeeAmount + plan.split.fee)];
      }
      return false, writes;
    }

    method FinishPayment(b: Id, full: bool, plan: S.Plan, now: int) returns (written: seq<PaymentStatus>)
      modifies this`payments
      ensures View() == S.FinishPayment(old(View()), b, full, plan, now)
      ensures written == S.StatusWrites(old(View()), b, [S.FinalStatus(full, plan)])
    {
      if full {
        written := WriteStatus(b, Refunded);
      } else {
        written := WriteStatus(b, if plan.payoutAmount > 0 then PayoutEligible else Refunded);
        if b in payments {
          payments := payments[b := payments[b].(
            payoutEligibleAt := if plan.payoutAmount > 0 then Some(now) else None)];
        }
      }
    }

    /** The branch shared by a refund and a split. */
    method SettleByRefund(d: Id, full: bool, percent: Option<real>, stripeAccepts: bool, now: int)
      returns (threw: bool, writes: seq<PaymentStatus>, refundAmount: int, payoutAmount: int)
      requires d in disputes && disputes[d].booking in bookings
      modifies this`payments, this`bookings, this`disputes, this`ledger, this`groups, this`stripeRefunds
      ensures S.Outcome(View(), threw, writes, refundAmount, payoutAmount)
           == S.SettleByRefund(old(View()), d, full, percent, stripeAccepts, now)
    {
      var b := disputes[d].booking;
      var booking := bookings[b];
      var plan := S.PlanRefund(View(), b, full, percent);
      refundAmount, payoutAmount := plan.refund, plan.payoutAmount;
      writes := [];
      if refundAmount > 0 && !S.ExistingRefund(booking) {
        threw, writes := IssueRefund(b, booking, plan, full, stripeAccepts, now);
        if threw {
          return;
        }
      }
      var last := FinishPayment(b, full, plan, now);
      writes := writes + last;
      disputes := disputes[d := disputes[d].(status := if full then ResolvedRefund else ResolvedSplit)];
      threw := false;
    }

    method SettleByPayout(d: Id, now: int) returns (threw: bool, writes: seq<PaymentStatus>, payoutAmount: int)
      requires d in disputes && disputes[d].booking in bookings
      modifies this`payments, this`bookings, this`disputes
      ensures S.Outcome(View(), threw, writes, 0, payoutAmount) == S.SettleByPayout(old(View()), d, now)
    {
      var b := disputes[d].booking;
      var booking := bookings[b];
      payoutAmount := S.AnnouncedFare(View(), b);
      if S.ExistingRefund(booking) && booking.refundPercent.GetOr(0) >= 100 {
        return true, [], payoutAmount;
      }
      writes := WriteStatus(b, PayoutEligible);
      if b in payments {
        payments := payments[b := payments[b].(payoutEligibleAt := Some(now))];
      }
      bookings := bookings[b := booking.(status := if booking.status == Disputed then Completed else booking.status)];
      disputes := disputes[d := disputes[d].(status := ResolvedPayout)];
      threw := false;
    }

    method SettleDispute(d: Id, resolution: S.Resolution, percent: Option<real>, stripeAccepts: bool, now: int)
      returns (threw: bool, writes: seq<PaymentStatus>, refundAmount: int, payoutAmount: int)
      modifies this`payments, this`bookings, this`disputes, this`ledger, this`groups, this`stripeRefunds
      ensures S.Outcome(View(), threw, writes, refundAmount, payoutAmount)
           == S.Settle(old(View()), d, resolution, percent, stripeAccepts, now)
    {
      threw, writes, refundAmount, payoutAmount := true, [], 0, 0;
      if d !in disputes || !IsSettleable(disputes[d].status) || disputes[d].booking !in bookings {
        return;
      }
      match resolution
      case ToEscalation =>
        payoutAmount := S.AnnouncedFare(View(), disputes[d].booking);
        disputes := disputes[d := disputes[d].(status := Escalated)];
        threw := false;
      case ToRefund =>
        threw, writes, refundAmount, payoutAmount := SettleByRefund(d, true, percent, stripeAccepts, now);
      case ToSplit =>
        threw, writes, refundAmount, payoutAmount := SettleByRefund(d, false, percent, stripeAccepts, now);
      case ToPayout =>
        threw, writes, payoutAmount := SettleByPayout(d, now);
    }
  }
}
