/** What one payout does to the driver's balance, when it succeeds and when it fails at any point. */
module PayoutLaws {
  import opened Money
  import opened Tables
  import opened Ledger
  import opened Payments
  import opened Payouts
  import opened MoneyRuns

  function Balance(w: World, driver: Id): int {
    Sum(w.ledger, OfDriver(driver), DriverNet)
  }

  function ItemTotal(items: seq<Item>): int {
    if items == [] then 0 else ItemTotal(items[..|items| - 1]) + items[|items| - 1].driverAmount
  }

  /** Net fares whose reversal could not be written. */
  function LostTotal(snap: map<Id, Payment>, rows: seq<Id>, lost: set<Id>): int
    requires forall p | p in rows :: p in snap
  {
    if rows == [] then 0
    else
      var last := rows[|rows| - 1];
      LostTotal(snap, rows[..|rows| - 1], lost) + if last in lost then NetFare(snap[last]) else 0
  }

  lemma {:induction false} ItemTotalIsNetTotal(snap: map<Id, Payment>, rows: seq<Id>)
    requires forall p | p in rows :: p in snap
    ensures ItemTotal(NewItems(snap, rows)) == NetTotal(snap, rows)
  {
    if rows != [] {
      var front := rows[..|rows| - 1];
      ItemTotalIsNetTotal(snap, front);
      assert NewItems(snap, rows)[..|rows| - 1] == NewItems(snap, front);
    }
  }

  lemma {:induction false} ItemTotalAlike(a: seq<Item>, b: seq<Item>)
    requires |a| == |b| && forall i | 0 <= i < |a| :: a[i].driverAmount == b[i].driverAmount
    ensures ItemTotal(a) == ItemTotal(b)
  {
    if a != [] {
      ItemTotalAlike(a[..|a| - 1], b[..|b| - 1]);
    }
  }

  lemma {:induction false} TransferBalance(snap: map<Id, Payment>, driver: Id, rows: seq<Id>, g: nat, user: Id)
    requires forall p | p in rows :: p in snap
    ensures Sum(TransferEntries(snap, driver, rows, g), OfDriver(user), DriverNet)
         == if user == driver then -NetTotal(snap, rows) else 0
  {
    if rows != [] {
      var front, last := rows[..|rows| - 1], rows[|rows| - 1];
      TransferBalance(snap, driver, front, g, user);
      SumPush(TransferEntries(snap, driver, front, g),
              TransferEntry(g + |rows| - 1, last, driver, NetFare(snap[last])), OfDriver(user), DriverNet);
    }
  }

  lemma {:induction false} ReversalBalance(
    snap: map<Id, Payment>, driver: Id, rows: seq<Id>, lost: set<Id>, g: nat, user: Id)
    requires forall p | p in rows :: p in snap
    ensures Sum(ReversalEntries(snap, driver, rows, lost, g), OfDriver(user), DriverNet)
         == if user == driver then NetTotal(snap, rows) - LostTotal(snap, rows, lost) else 0
  {
    if rows != [] {
      var front, last := rows[..|rows| - 1], rows[|rows| - 1];
      ReversalBalance(snap, driver, front, lost, g, user);
      var before := ReversalEntries(snap, driver, front, lost, g);
      SumPush(before, ReversalEntry(g + |before|, last, driver, NetFare(snap[last])), OfDriver(user), DriverNet);
    }
  }

  lemma {:induction false} NetTotalSplit(snap: map<Id, Payment>, rows: seq<Id>, k: nat)
    requires k <= |rows| && forall p | p in rows :: p in snap
    ensures NetTotal(snap, rows) == NetTotal(snap, rows[..k]) + NetTotal(snap, rows[k..])
  {
    if k == |rows| {
      assert rows[..k] == rows;
    } else {
      var front := rows[..|rows| - 1];
      NetTotalSplit(snap, front, k);
      assert front[..k] == rows[..k];
      assert rows[k..][..|rows| - k - 1] == front[k..];
    }
  }

  /** A net fare is never negative, so a total of zero means there was nothing to pay in any of the rows. */
  lemma {:induction false} NetTotalZero(snap: map<Id, Payment>, rows: seq<Id>)
    requires forall p | p in rows :: p in snap
    ensures NetTotal(snap, rows) >= 0
    ensures NetTotal(snap, rows) == 0 <==> forall p | p in rows :: NetFare(snap[p]) == 0
  {
    if rows != [] {
      var front, last := rows[..|rows| - 1], rows[|rows| - 1];
      NetTotalZero(snap, front);
      assert forall p | p in rows :: p in front || p == last;
    }
  }

  /**
   * In a successful payout the batch total, the sum of its items, the amount Stripe is asked for and
   * the fall in the driver's balance are one number.
   */
  lemma SuccessMovesOneAmount(w: World, driver: Id, rows: seq<Id>, a: Attempt)
    requires forall p | p in rows :: p in w.payments
    requires Succeeds(w, driver, rows, a)
    ensures
      var w' := Payout(w, driver, rows, a);
      var total := Balance(w, driver) - Balance(w', driver);
      && |w'.batches| == |w.batches| + 1
      && var b := w'.batches[|w.batches|];
      && b.status == BatchCompleted && b.driver == driver && b.amountTotal == total && ItemTotal(b.items) == total
      && (!a.mock ==> w'.transfers == w.transfers + [StripeTransfer(|w.batches|, driver, total)])
      && (a.mock ==> w'.transfers == w.transfers)
  {
    var es, b := TransferEntries(w.payments, driver, rows, w.groups), CompletedBatch(w.payments, driver, rows);
    SuccessfulPayout(w, driver, rows, a);
    SumAppend(w.ledger, es, OfDriver(driver), DriverNet);
    TransferBalance(w.payments, driver, rows, w.groups, driver);
    ItemTotalIsNetTotal(w.payments, rows);
    ItemTotalAlike(NewItems(w.payments, rows), b.items);
  }

  /** The balance after `k` debits, and after the reversals of all rows when the body threw. */
  function Shift(snap: map<Id, Payment>, rows: seq<Id>, k: nat, lost: set<Id>, thrown: bool): int
    requires k <= |rows| && forall p | p in rows :: p in snap
  {
    (if thrown then NetTotal(snap, rows) - LostTotal(snap, rows, lost) else 0) - NetTotal(snap, rows[..k])
  }

  lemma DebitsThenReversals(
    ledger: seq<Entry>, snap: map<Id, Payment>, driver: Id, rows: seq<Id>, k: nat, lost: set<Id>, g: nat, thrown: bool,
    user: Id)
    requires k <= |rows| && forall p | p in rows :: p in snap
    ensures
      var reversed := if thrown then ReversalEntries(snap, driver, rows, lost, g + k) else [];
      Sum(ledger + TransferEntries(snap, driver, rows[..k], g) + reversed, OfDriver(user), DriverNet)
      == Sum(ledger, OfDriver(user), DriverNet) + if user == driver then Shift(snap, rows, k, lost, thrown) else 0
  {
    var debits := TransferEntries(snap, driver, rows[..k], g);
    SumAppend(ledger, debits, OfDriver(user), DriverNet);
    TransferBalance(snap, driver, rows[..k], g, user);
    if thrown {
      SumAppend(ledger + debits, ReversalEntries(snap, driver, rows, lost, g + k), OfDriver(user), DriverNet);
      ReversalBalance(snap, driver, rows, lost, g + k, user);
    } else {
      assert ledger + debits + [] == ledger + debits;
    }
  }

  /** Every debit and reversal of an attempt, as figures of the driver's balance; nobody else's moves. */
  lemma PayoutBalance(w: World, driver: Id, rows: seq<Id>, a: Attempt, user: Id)
    requires forall p | p in rows :: p in w.payments
    ensures
      var k, thrown := DebitCount(w, driver, rows, a), Throws(w, driver, rows, a);
      Balance(Payout(w, driver, rows, a), user)
      == Balance(w, user) + if user == driver then Shift(w.payments, rows, k, a.lost, thrown) else 0
  {
    var k, thrown := DebitCount(w, driver, rows, a), Throws(w, driver, rows, a);
    assert Payout(w, driver, rows, a).ledger
        == w.ledger + TransferEntries(w.payments, driver, rows[..k], w.groups) + Reversed(w, driver, rows, a, k) by {
      PayoutLedger(w, driver, rows, a);
    }
    DebitsThenReversals(w.ledger, w.payments, driver, rows, k, a.lost, w.groups, thrown, user);
  }

  /**
   * Exact effect of a failed payout. The driver's balance ends higher by the net fares that had not
   * been debited yet, less those whose reversal was itself lost.
   */
  lemma FailedPayoutShiftsBalance(w: World, driver: Id, rows: seq<Id>, a: Attempt)
    requires forall p | p in rows :: p in w.payments
    requires Throws(w, driver, rows, a)
    ensures Balance(Payout(w, driver, rows, a), driver)
         == Balance(w, driver) + NetTotal(w.payments, rows[DebitCount(w, driver, rows, a)..])
            - LostTotal(w.payments, rows, a.lost)
  {
    PayoutBalance(w, driver, rows, a, driver);
    NetTotalSplit(w.payments, rows, DebitCount(w, driver, rows, a));
  }

  lemma {:induction false} NothingLost(snap: map<Id, Payment>, rows: seq<Id>)
    requires forall p | p in rows :: p in snap
    ensures LostTotal(snap, rows, {}) == 0
  {
    if rows != [] {
      NothingLost(snap, rows[..|rows| - 1]);
    }
  }

  /**
   * With every reversal written, the balance is restored exactly when no fare was still undebited:
   * the case the catch block is written for. A refusal by Stripe comes before any debit, so it
   * raises the balance by the whole batch.
   */
  lemma CompensationIsExactIff(w: World, driver: Id, rows: seq<Id>, a: Attempt)
    requires forall p | p in rows :: p in w.payments
    requires Throws(w, driver, rows, a) && a.lost == {}
    ensures
      var after := Balance(Payout(w, driver, rows, a), driver);
      var undebited := rows[DebitCount(w, driver, rows, a)..];
      && after >= Balance(w, driver)
      && (after == Balance(w, driver) <==> forall p | p in undebited :: NetFare(w.payments[p]) == 0)
      && (!a.stripeAccepts ==> after == Balance(w, driver) + NetTotal(w.payments, rows))
  {
    var k := DebitCount(w, driver, rows, a);
    FailedPayoutShiftsBalance(w, driver, rows, a);
    NothingLost(w.payments, rows);
    NetTotalZero(w.payments, rows[k..]);
    assert rows[0..] == rows;
  }

  lemma PrefixMember(rows: seq<Id>, i: nat, k: nat)
    requires Distinct(rows) && i < |rows| && k <= |rows|
    ensures rows[i] in rows[..k] <==> i < k
  {
    if i < k {
      assert rows[..k][i] == rows[i];
    }
  }

  /** The status a failed payout leaves on each payment, by the write at which it stopped. */
  lemma FailedPayoutStatuses(w: World, driver: Id, rows: seq<Id>, a: Attempt, i: nat)
    requires Distinct(rows) && forall p | p in rows :: p in w.payments && w.payments[p].status == PayoutEligible
    requires Throws(w, driver, rows, a) && i < |rows|
    ensures
      var ps, n := Payout(w, driver, rows, a).payments, |rows|;
      && rows[i] in ps
      && ps[rows[i]] == w.payments[rows[i]].(status := ps[rows[i]].status)
      && ps[rows[i]].status == (if !a.stripeAccepts || a.writes <= i then PayoutEligible
                                else if a.writes <= 2 * n + 1 + i then TransferCreated
                                else PayoutCompleted)
  {
    var n := |rows|;
    assert rows[i] in rows;
    var made, done := rows[..Upto(a.writes, n)], rows[..Upto(a.writes - (2 * n + 1), n)];
    PrefixMember(rows, i, |made|);
    PrefixMember(rows, i, |done|);
  }

  /** After a failed payout a payment is selectable again exactly when its first mark had not run. */
  lemma SelectableAgainIff(w: World, driver: Id, rows: seq<Id>, a: Attempt, i: nat)
    requires IsListing(rows, SelectedIds(w, driver)) && Throws(w, driver, rows, a) && i < |rows|
    ensures forall p | p in rows :: p in w.payments
    ensures Selected(Payout(w, driver, rows, a), driver, rows[i]) <==> !a.stripeAccepts || a.writes <= i
  {
    SelectedRows(w, driver, rows);
    FailedPayoutStatuses(w, driver, rows, a, i);
    PayoutElsewhere(w, driver, rows, a);
    assert rows[i] in SelectedIds(w, driver);
  }

  // ---------------------------------------------------------------------------------------------
  // What Stripe was really asked to send
  // ---------------------------------------------------------------------------------------------

  /** The money Stripe takes for an attempt is the sum of its batch's items, even when the batch then fails. */
  lemma AcceptedTransferIsItsItems(w: World, driver: Id, rows: seq<Id>, a: Attempt)
    requires (forall p | p in rows :: p in w.payments) && Accepted(w, driver, rows, a)
    ensures
      var w' := Payout(w, driver, rows, a);
      && |w'.transfers| == |w.transfers| + 1 && |w'.batches| == |w.batches| + 1
      && var t := w'.transfers[|w.transfers|];
      t.batch == |w.batches| && t.driver == driver && t.amountMinor == ItemTotal(w'.batches[t.batch].items)
  {
    PayoutTransfers(w, driver, rows, a);
    PayoutBatches(w, driver, rows, a);
    FinalItems(w, driver, rows, a);
    ItemTotalIsNetTotal(w.payments, rows);
    ItemTotalAlike(NewItems(w.payments, rows), FinalBatch(w, driver, rows, a).items);
  }

  /** Money goes out exactly in a live payout with rows, to a driver whose account is onboarded, when Stripe accepts. */
  lemma MoneyGoesOutIff(w: World, driver: Id, rows: seq<Id>, a: Attempt)
    requires forall p | p in rows :: p in w.payments
    ensures
      var w' := Payout(w, driver, rows, a);
      var ready := driver in w.accounts && w.accounts[driver] == ConnectAccount(true, true);
      && (w'.transfers != w.transfers <==> rows != [] && !a.mock && ready && a.stripeAccepts)
      && (rows == [] || (!a.mock && !ready) ==> w' == w)
      && (rows != [] && (a.mock || ready) ==> |w'.batches| == |w.batches| + 1)
  {
    PayoutTransfers(w, driver, rows, a);
    PayoutBatches(w, driver, rows, a);
  }

  /**
   * The batch an attempt leaves accounts for each of its rows: what goes to the driver, what the platform
   * keeps, and what was refunded add up to the charge. Batch and items end completed together or failed
   * together.
   */
  lemma BatchAccountsForItsRows(w: World, driver: Id, rows: seq<Id>, a: Attempt, i: nat)
    requires (forall p | p in rows :: p in w.payments) && Attempted(w, driver, rows, a) && i < |rows|
    ensures
      var w' := Payout(w, driver, rows, a);
      && |w'.batches| == |w.batches| + 1
      && var b := w'.batches[|w.batches|];
      && b.driver == driver && |b.items| == |rows| && b.items[i].payment == rows[i]
      && var row, item := w.payments[rows[i]], b.items[i];
      && 0 <= item.driverAmount && 0 <= item.platformFee
      && (0 <= row.refundedFareAmount <= row.fareAmount && 0 <= row.refundedFeeAmount <= row.platformFeeAmount
          && row.amountTotal == row.fareAmount + row.platformFeeAmount ==>
            item.driverAmount + item.platformFee + row.refundedFareAmount + row.refundedFeeAmount == row.amountTotal)
      && (Succeeds(w, driver, rows, a) ==> b.status == BatchCompleted && item.status == ItemCompleted)
      && (Throws(w, driver, rows, a) ==> b.status == BatchFailed && item.status == ItemFailed)
  {
    PayoutBatches(w, driver, rows, a);
    assert rows[i] in rows;
  }

  /**
   * Retrying a failed payout until it succeeds: a payment of the failed batch goes out to the driver
   * twice exactly when Stripe had accepted the first transfer and the payment's first mark had not run.
   */
  lemma RetrySendsTwiceIff(
    w: World, driver: Id, rows: seq<Id>, a: Attempt, again: seq<Id>, a2: Attempt, i: nat)
    requires IsListing(rows, SelectedIds(w, driver)) && TransfersNameBatches(w)
    requires Throws(w, driver, rows, a) && i < |rows|
    requires forall p | p in rows :: p in w.payments
    requires
      var w1 := Payout(w, driver, rows, a);
      IsListing(again, SelectedIds(w1, driver)) && Succeeds(w1, driver, again, a2) && !a2.mock
    ensures
      var w1 := Payout(w, driver, rows, a);
      && (forall p | p in again :: p in w1.payments)
      && var w2 := Payout(w1, driver, again, a2);
      var sent := SentCount(w2.transfers, w2.batches, rows[i]) - SentCount(w.transfers, w.batches, rows[i]);
      && 1 <= sent <= 2
      && (sent == 2 <==> a.stripeAccepts && a.writes <= i)
  {
    var w1 := Payout(w, driver, rows, a);
    SelectableAgainIff(w, driver, rows, a, i);
    SelectedRows(w1, driver, again);
    assert rows[i] in SelectedIds(w1, driver) <==> Selected(w1, driver, rows[i]);
    PayoutSends(w, driver, rows, a, rows[i]);
    PayoutSends(w1, driver, again, a2, rows[i]);
  }
}
