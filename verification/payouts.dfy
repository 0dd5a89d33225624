/** Driver payouts: the batch, the transfer loops, and the compensation when one of them throws. */
module Payouts {
  import opened Money
  import opened Tables
  import opened Queries
  import opened Ledger
  import opened Payments

  /** The payments `processDriverPayout` selects. */
  predicate Selected(w: World, driver: Id, p: Id) {
    && p in w.payments && p in w.bookings
    && w.payments[p].status == PayoutEligible
    && w.bookings[p].driver == driver
    && !w.HasOpenDispute(p)
  }

  function SelectedIds(w: World, driver: Id): set<Id> {
    set p | p in w.payments && Selected(w, driver, p)
  }

  predicate CanTransferTo(w: World, driver: Id) {
    driver in w.accounts && w.accounts[driver].hasAccount && w.accounts[driver].onboarded
  }

  function NetTotal(snap: map<Id, Payment>, rows: seq<Id>): int
    requires forall p | p in rows :: p in snap
  {
    if rows == [] then 0
    else NetTotal(snap, rows[..|rows| - 1]) + NetFare(snap[rows[|rows| - 1]])
  }

  function NewItem(p: Id, row: Payment): Item {
    Item(p, NetFare(row), NetPlatformFee(row), ItemPending)
  }

  function NewItems(snap: map<Id, Payment>, rows: seq<Id>): seq<Item>
    requires forall p | p in rows :: p in snap
  {
    seq(|rows|, i requires 0 <= i < |rows| => NewItem(rows[i], snap[rows[i]]))
  }

  function NewBatch(snap: map<Id, Payment>, driver: Id, rows: seq<Id>): Batch
    requires forall p | p in rows :: p in snap
  {
    Batch(driver, NetTotal(snap, rows), BatchProcessing, NewItems(snap, rows))
  }

  function WithItems(b: Batch, s: ItemStatus): Batch {
    b.(items := seq(|b.items|, i requires 0 <= i < |b.items| => b.items[i].(status := s)))
  }

  /** Database writes of the transfer body: n status marks, n ledger debits, the batch, n marks, the items. */
  function WriteCount(n: nat): nat { 3 * n + 2 }

  function Upto(n: int, limit: nat): (r: nat)
    ensures r <= limit
  {
    if n < 0 then 0 else if n > limit then limit else n
  }

  function Debited(n: nat, f: nat): (r: nat) ensures r <= n { Upto(f - n, n) }

  function TransferEntries(snap: map<Id, Payment>, driver: Id, rows: seq<Id>, g: nat): seq<Entry>
    requires forall p | p in rows :: p in snap
  {
    if rows == [] then []
    else
      var last := rows[|rows| - 1];
      TransferEntries(snap, driver, rows[..|rows| - 1], g)
      + [TransferEntry(g + |rows| - 1, last, driver, NetFare(snap[last]))]
  }

  /** The reversals written by the catch block; those in `lost` fail to be written and are only logged. */
  function ReversalEntries(snap: map<Id, Payment>, driver: Id, rows: seq<Id>, lost: set<Id>, g: nat): (r: seq<Entry>)
    requires forall p | p in rows :: p in snap
  {
    if rows == [] then []
    else
      var last := rows[|rows| - 1];
      var before := ReversalEntries(snap, driver, rows[..|rows| - 1], lost, g);
      if last in lost then before
      else before + [ReversalEntry(g + |before|, last, driver, NetFare(snap[last]))]
  }

  /** Payment rows after `f` successful writes of the transfer body. */
  function PaymentsAfter(ps: map<Id, Payment>, rows: seq<Id>, f: nat): map<Id, Payment> {
    var n := |rows|;
    var created := MarkAll(ps, SetOf(rows[..Upto(f, n)]), TransferCreated, 0);
    MarkAll(created, SetOf(rows[..Upto(f - (2 * n + 1), n)]), PayoutCompleted, 0)
  }

  function DebitsAfter(snap: map<Id, Payment>, driver: Id, rows: seq<Id>, f: nat, g: nat): seq<Entry>
    requires forall p | p in rows :: p in snap
  {
    TransferEntries(snap, driver, rows[..Debited(|rows|, f)], g)
  }

  function BatchAfter(b: Batch, n: nat, f: nat): Batch {
    var b1 := if f >= 2 * n + 1 then b.(status := BatchCompleted) else b;
    if f >= WriteCount(n) then WithItems(b1, ItemCompleted) else b1
  }

  /** The tables after `f` successful writes of the transfer body (all of them when `f` reaches the count). */
  function WriteTransfer(w: World, snap: map<Id, Payment>, driver: Id, rows: seq<Id>, batch: nat, f: nat): World
    requires forall p | p in rows :: p in snap
    requires batch < |w.batches|
  {
    var debits := DebitsAfter(snap, driver, rows, f, w.groups);
    w.(payments := PaymentsAfter(w.payments, rows, f),
       ledger := w.ledger + debits,
       groups := w.groups + |debits|,
       batches := w.batches[batch := BatchAfter(w.batches[batch], |rows|, f)])
  }

  /** The catch block. */
  function Compensate(w: World, snap: map<Id, Payment>, driver: Id, rows: seq<Id>, batch: nat, lost: set<Id>): World
    requires forall p | p in rows :: p in snap
    requires batch < |w.batches|
  {
    var reversals := ReversalEntries(snap, driver, rows, lost, w.groups);
    w.(batches := w.batches[batch := WithItems(w.batches[batch].(status := BatchFailed), ItemFailed)],
       ledger := w.ledger + reversals,
       groups := w.groups + |reversals|)
  }

  /** How one attempt goes: mock mode or live, Stripe's answer, and where the database gives out. */
  datatype Attempt = Attempt(mock: bool, stripeAccepts: bool, writes: nat, lost: set<Id>)

  /** `processDriverPayout` on the rows its query returned. */
  function Payout(w: World, driver: Id, rows: seq<Id>, a: Attempt): World
    requires forall p | p in rows :: p in w.payments
  {
    if rows == [] || (!a.mock && !CanTransferTo(w, driver)) then w
    else
      var batch := |w.batches|;
      var snap := w.payments;
      var prepared := w.(batches := w.batches + [NewBatch(snap, driver, rows)]);
      if a.mock then WriteTransfer(prepared, snap, driver, rows, batch, a.writes)
      else if !a.stripeAccepts then Compensate(prepared, snap, driver, rows, batch, a.lost)
      else
        var sent := prepared.(transfers :=
          w.transfers + [StripeTransfer(batch, driver, NetTotal(snap, rows))]);
        var written := WriteTransfer(sent, snap, driver, rows, batch, a.writes);
        if a.writes < WriteCount(|rows|) then Compensate(written, snap, driver, rows, batch, a.lost)
        else written
  }

  // ---------------------------------------------------------------------------------------------
  // What an attempt leaves, however it goes
  // ---------------------------------------------------------------------------------------------

  predicate Attempted(w: World, driver: Id, rows: seq<Id>, a: Attempt) {
    rows != [] && (a.mock || CanTransferTo(w, driver))
  }

  /** A live payout whose body throws: Stripe refuses, or a later write fails. */
  predicate Throws(w: World, driver: Id, rows: seq<Id>, a: Attempt) {
    && rows != [] && !a.mock && CanTransferTo(w, driver)
    && (a.stripeAccepts ==> a.writes < WriteCount(|rows|))
  }

  /** How many liabilities an attempt debits. */
  function DebitCount(w: World, driver: Id, rows: seq<Id>, a: Attempt): (k: nat)
    ensures k <= |rows|
  {
    if Attempted(w, driver, rows, a) && (a.mock || a.stripeAccepts) then Debited(|rows|, a.writes) else 0
  }

  /** The reversals an attempt writes after `k` debits. */
  function Reversed(w: World, driver: Id, rows: seq<Id>, a: Attempt, k: nat): seq<Entry>
    requires forall p | p in rows :: p in w.payments
  {
    if Throws(w, driver, rows, a) then ReversalEntries(w.payments, driver, rows, a.lost, w.groups + k) else []
  }

  lemma {:induction false} TransferEntriesCount(snap: map<Id, Payment>, driver: Id, rows: seq<Id>, g: nat)
    requires forall p | p in rows :: p in snap
    ensures |TransferEntries(snap, driver, rows, g)| == |rows|
  {
    if rows != [] {
      TransferEntriesCount(snap, driver, rows[..|rows| - 1], g);
    }
  }

  /** However an attempt goes, the ledger gains its debits and then its reversals. */
  lemma PayoutLedger(w: World, driver: Id, rows: seq<Id>, a: Attempt)
    requires forall p | p in rows :: p in w.payments
    ensures
      var w', k := Payout(w, driver, rows, a), DebitCount(w, driver, rows, a);
      var reversed := Reversed(w, driver, rows, a, k);
      && w'.ledger == w.ledger + TransferEntries(w.payments, driver, rows[..k], w.groups) + reversed
      && w'.groups == w.groups + k + |reversed|
  {
    var k := DebitCount(w, driver, rows, a);
    TransferEntriesCount(w.payments, driver, rows[..k], w.groups);
    assert rows[..0] == [];
    assert w.ledger + [] == w.ledger;
    if Attempted(w, driver, rows, a) && (a.mock || a.stripeAccepts) {
      assert DebitsAfter(w.payments, driver, rows, a.writes, w.groups)
          == TransferEntries(w.payments, driver, rows[..k], w.groups);
    }
  }

  lemma PayoutElsewhere(w: World, driver: Id, rows: seq<Id>, a: Attempt)
    requires forall p | p in rows :: p in w.payments
    ensures
      var w' := Payout(w, driver, rows, a);
      && w'.outbox == w.outbox && w'.bookings == w.bookings && w'.disputes == w.disputes && w'.accounts == w.accounts
      && w'.stripeRefunds == w.stripeRefunds
  {
  }

  /** However an attempt goes, only statuses of its own rows change. */
  lemma PayoutRows(w: World, driver: Id, rows: seq<Id>, a: Attempt)
    requires forall p | p in rows :: p in w.payments
    ensures
      var ps := Payout(w, driver, rows, a).payments;
      && ps.Keys == w.payments.Keys
      && forall p | p in w.payments ::
           || ps[p] == w.payments[p]
           || (p in rows && (ps[p] == w.payments[p].(status := TransferCreated)
                             || ps[p] == w.payments[p].(status := PayoutCompleted)))
  {
  }

  /** The batch an attempt leaves behind. */
  function FinalBatch(w: World, driver: Id, rows: seq<Id>, a: Attempt): Batch
    requires forall p | p in rows :: p in w.payments
  {
    var b := NewBatch(w.payments, driver, rows);
    var written := if a.mock || a.stripeAccepts then BatchAfter(b, |rows|, a.writes) else b;
    if Throws(w, driver, rows, a) then WithItems(written.(status := BatchFailed), ItemFailed) else written
  }

  lemma PayoutBatches(w: World, driver: Id, rows: seq<Id>, a: Attempt)
    requires forall p | p in rows :: p in w.payments
    ensures Payout(w, driver, rows, a).batches
         == if Attempted(w, driver, rows, a) then w.batches + [FinalBatch(w, driver, rows, a)] else w.batches
  {
    var b, f := NewBatch(w.payments, driver, rows), FinalBatch(w, driver, rows, a);
    assert (w.batches + [b])[|w.batches| := f] == w.batches + [f];
    assert (w.batches + [b])[|w.batches|] == b;
    var written := BatchAfter(b, |rows|, a.writes);
    assert (w.batches + [b])[|w.batches| := written][|w.batches| := f] == w.batches + [f];
  }

  lemma PayoutTransfers(w: World, driver: Id, rows: seq<Id>, a: Attempt)
    requires forall p | p in rows :: p in w.payments
    ensures Payout(w, driver, rows, a).transfers
         == if Accepted(w, driver, rows, a)
            then w.transfers + [StripeTransfer(|w.batches|, driver, NetTotal(w.payments, rows))] else w.transfers
  {
  }

  /** Stripe takes the money, whatever fails afterwards. */
  predicate Accepted(w: World, driver: Id, rows: seq<Id>, a: Attempt) {
    Attempted(w, driver, rows, a) && !a.mock && a.stripeAccepts
  }

  /** Its batch ends up completed. */
  predicate Completes(w: World, driver: Id, rows: seq<Id>, a: Attempt) {
    && Attempted(w, driver, rows, a)
    && (if a.mock then a.writes >= 2 * |rows| + 1 else a.stripeAccepts && a.writes >= WriteCount(|rows|))
  }

  /** Whatever happens to a batch, its items stay those of its rows. */
  lemma FinalItems(w: World, driver: Id, rows: seq<Id>, a: Attempt)
    requires (forall p | p in rows :: p in w.payments) && Attempted(w, driver, rows, a)
    ensures
      var b, items := FinalBatch(w, driver, rows, a), NewItems(w.payments, rows);
      && (b.status == BatchCompleted <==> Completes(w, driver, rows, a))
      && |b.items| == |items|
      && forall i | 0 <= i < |items| ::
           b.items[i].payment == items[i].payment && b.items[i].driverAmount == items[i].driverAmount
  {
  }

  // ---------------------------------------------------------------------------------------------
  // The two outcomes when only Stripe may refuse
  // ---------------------------------------------------------------------------------------------

  /** The batch a successful payout leaves behind. */
  function CompletedBatch(snap: map<Id, Payment>, driver: Id, rows: seq<Id>): Batch
    requires forall p | p in rows :: p in snap
  {
    WithItems(NewBatch(snap, driver, rows).(status := BatchCompleted), ItemCompleted)
  }

  function FailedBatch(snap: map<Id, Payment>, driver: Id, rows: seq<Id>): Batch
    requires forall p | p in rows :: p in snap
  {
    WithItems(NewBatch(snap, driver, rows).(status := BatchFailed), ItemFailed)
  }

  /** A payout whose database writes all succeed and which Stripe (or mock mode) accepts. */
  predicate Succeeds(w: World, driver: Id, rows: seq<Id>, a: Attempt) {
    Attempted(w, driver, rows, a) && (a.mock || a.stripeAccepts) && a.writes >= WriteCount(|rows|)
  }

  predicate Rejected(w: World, driver: Id, rows: seq<Id>, a: Attempt) {
    Attempted(w, driver, rows, a) && !a.mock && !a.stripeAccepts
  }

  lemma SuccessfulPayout(w: World, driver: Id, rows: seq<Id>, a: Attempt)
    requires forall p | p in rows :: p in w.payments
    requires Succeeds(w, driver, rows, a)
    ensures
      var w' := Payout(w, driver, rows, a);
      && w'.ledger == w.ledger + TransferEntries(w.payments, driver, rows, w.groups)
      && w'.groups == w.groups + |TransferEntries(w.payments, driver, rows, w.groups)|
      && w'.batches == w.batches + [CompletedBatch(w.payments, driver, rows)]
      && w'.outbox == w.outbox && w'.bookings == w.bookings && w'.disputes == w.disputes && w'.accounts == w.accounts
      && w'.payments.Keys == w.payments.Keys
      && (forall p | p in w.payments ::
            w'.payments[p] == if p in rows then w.payments[p].(status := PayoutCompleted) else w.payments[p])
  {
    var n := |rows|;
    assert rows[..n] == rows;
    var b := NewBatch(w.payments, driver, rows);
    assert BatchAfter(b, n, a.writes) == CompletedBatch(w.payments, driver, rows);
    assert (w.batches + [b])[|w.batches| := BatchAfter(b, n, a.writes)]
        == w.batches + [CompletedBatch(w.payments, driver, rows)];
  }

  lemma RejectedPayout(w: World, driver: Id, rows: seq<Id>, a: Attempt)
    requires forall p | p in rows :: p in w.payments
    requires Rejected(w, driver, rows, a)
    ensures
      var reversals := ReversalEntries(w.payments, driver, rows, a.lost, w.groups);
      Payout(w, driver, rows, a) == w.(
        ledger := w.ledger + reversals, groups := w.groups + |reversals|,
        batches := w.batches + [FailedBatch(w.payments, driver, rows)])
  {
    var b := NewBatch(w.payments, driver, rows);
    assert (w.batches + [b])[|w.batches| := FailedBatch(w.payments, driver, rows)]
        == w.batches + [FailedBatch(w.payments, driver, rows)];
  }

  lemma SelectedRows(w: World, driver: Id, rows: seq<Id>)
    requires IsListing(rows, SelectedIds(w, driver))
    ensures forall q | q in rows :: q in w.payments && w.payments[q].status == PayoutEligible
  {
    forall q | q in rows ensures q in w.payments && w.payments[q].status == PayoutEligible {
      assert q in SelectedIds(w, driver);
    }
  }

  // ---------------------------------------------------------------------------------------------
  // Paying every ready driver
  // ---------------------------------------------------------------------------------------------

  /** The drivers that have something to be paid. */
  function Waiting(w: World): set<Id> {
    set p | p in w.payments && p in w.bookings && Selected(w, w.bookings[p].driver, p) :: w.bookings[p].driver
  }

  lemma WaitingIff(w: World, driver: Id)
    ensures driver in Waiting(w) <==> SelectedIds(w, driver) != {}
  {
    if driver in Waiting(w) {
      var p :| && p in w.payments && p in w.bookings
               && Selected(w, w.bookings[p].driver, p) && w.bookings[p].driver == driver;
      assert p in SelectedIds(w, driver);
    }
    if SelectedIds(w, driver) != {} {
      var p :| p in SelectedIds(w, driver);
      assert Selected(w, w.bookings[p].driver, p);
    }
  }

  /** Those of a list that can be paid, in its order. */
  function Ready(w: World, drivers: seq<Id>): seq<Id> {
    if drivers == [] then []
    else
      var last := drivers[|drivers| - 1];
      Ready(w, drivers[..|drivers| - 1]) + if CanTransferTo(w, last) then [last] else []
  }

  lemma ReadyPush(w: World, drivers: seq<Id>, driver: Id)
    ensures Ready(w, drivers + [driver]) == Ready(w, drivers) + if CanTransferTo(w, driver) then [driver] else []
  {
    assert (drivers + [driver])[..|drivers|] == drivers;
  }

  datatype PayoutCall = PayoutCall(driver: Id, rows: seq<Id>, attempt: Attempt)

  /** Each call pays the rows its own query returned at that point. */
  ghost predicate ValidCalls(w: World, calls: seq<PayoutCall>)
    decreases |calls|, 0
  {
    calls == [] ||
    var c := calls[|calls| - 1];
    var before := calls[..|calls| - 1];
    && ValidCalls(w, before)
    && IsListing(c.rows, SelectedIds(PayAll(w, before), c.driver))
  }

  ghost function PayAll(w: World, calls: seq<PayoutCall>): World
    requires ValidCalls(w, calls)
    decreases |calls|, 1
  {
    if calls == [] then w
    else
      var c := calls[|calls| - 1];
      var w' := PayAll(w, calls[..|calls| - 1]);
      assert forall p | p in c.rows :: p in SelectedIds(w', c.driver);
      Payout(w', c.driver, c.rows, c.attempt)
  }

  lemma PayAllPush(w: World, calls: seq<PayoutCall>, c: PayoutCall)
    requires ValidCalls(w, calls) && IsListing(c.rows, SelectedIds(PayAll(w, calls), c.driver))
    ensures ValidCalls(w, calls + [c])
    ensures forall p | p in c.rows :: p in PayAll(w, calls).payments
    ensures PayAll(w, calls + [c]) == Payout(PayAll(w, calls), c.driver, c.rows, c.attempt)
  {
    assert (calls + [c])[..|calls|] == calls;
    assert forall p | p in c.rows :: p in SelectedIds(PayAll(w, calls), c.driver);
  }

  /** Nothing stands in the way: mock mode or an accepting Stripe, and a database that keeps writing. */
  predicate Unhindered(a: Attempt, n: nat) {
    (a.mock || a.stripeAccepts) && a.writes >= WriteCount(n)
  }

  /** A successful payout leaves its driver nothing to select and gives no driver anything new. */
  lemma PayoutClears(w: World, driver: Id, rows: seq<Id>, a: Attempt, other: Id, p: Id)
    requires IsListing(rows, SelectedIds(w, driver))
    requires CanTransferTo(w, driver) && Unhindered(a, |rows|)
    ensures forall q | q in rows :: q in w.payments
    ensures Selected(Payout(w, driver, rows, a), other, p) ==> Selected(w, other, p) && other != driver
    ensures Payout(w, driver, rows, a).accounts == w.accounts
  {
    SelectedRows(w, driver, rows);
    if rows == [] {
      assert Selected(w, driver, p) ==> p in SelectedIds(w, driver);
    } else {
      SuccessfulPayout(w, driver, rows, a);
      if Selected(w, driver, p) {
        assert p in SelectedIds(w, driver);
      }
    }
  }

  ghost predicate AllUnhindered(calls: seq<PayoutCall>) {
    forall c | c in calls :: Unhindered(c.attempt, |c.rows|)
  }

  /** Of the drivers done so far, only those not ready to be paid still have something selected. */
  ghost predicate Cleared(start: World, w: World, done: seq<Id>) {
    && w.accounts == start.accounts
    && forall driver, p | Selected(w, driver, p) ::
         Selected(start, driver, p) && (driver in done ==> !CanTransferTo(start, driver))
  }

  lemma ClearedSkip(start: World, w: World, done: seq<Id>, driver: Id)
    requires Cleared(start, w, done) && !CanTransferTo(start, driver)
    ensures Cleared(start, w, done + [driver])
  {
  }

  lemma ClearedPay(start: World, w: World, done: seq<Id>, c: PayoutCall)
    requires Cleared(start, w, done) && CanTransferTo(start, c.driver)
    requires IsListing(c.rows, SelectedIds(w, c.driver)) && Unhindered(c.attempt, |c.rows|)
    ensures forall q | q in c.rows :: q in w.payments
    ensures Cleared(start, Payout(w, c.driver, c.rows, c.attempt), done + [c.driver])
  {
    SelectedRows(w, c.driver, c.rows);
    var w' := Payout(w, c.driver, c.rows, c.attempt);
    PayoutClears(w, c.driver, c.rows, c.attempt, 0, 0);
    forall driver, p | Selected(w', driver, p)
      ensures Selected(start, driver, p) && (driver in done + [c.driver] ==> !CanTransferTo(start, driver))
    {
      PayoutClears(w, c.driver, c.rows, c.attempt, driver, p);
    }
  }

  /** When every waiting driver has had its turn, no ready driver has anything left to be paid. */
  lemma ClearedAll(start: World, w: World, done: seq<Id>)
    requires Cleared(start, w, done)
    requires forall driver, p | Selected(start, driver, p) :: driver in done
    ensures forall driver, p | CanTransferTo(w, driver) :: !Selected(w, driver, p)
  {
  }
}
