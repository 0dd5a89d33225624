/** The append-only ledger: the groups each event writes, and the balances derived from them. */
module Ledger {
  import opened Money
  import opened Tables

  // ---------------------------------------------------------------------------------------------
  // Groups written by the record functions
  // ---------------------------------------------------------------------------------------------

  function ReceiptGroup(g: nat, p: Id, row: Payment, driver: Id): seq<Entry> {
    [ Entry(g, p, Some(row.rider), Rider, RiderPaymentReceived, Debit, row.amountTotal),
      Entry(g, p, Some(driver), Driver, DriverEarningLiability, Credit, row.fareAmount) ]
    + if row.platformFeeAmount > 0
      then [Entry(g, p, None, Platform, PlatformFeeRevenue, Credit, row.platformFeeAmount)]
      else []
  }

  function RefundGroup(g: nat, p: Id, rider: Id, driver: Id, refund: int, split: RefundSplit): seq<Entry> {
    [ Entry(g, p, Some(rider), Rider, RefundToRider, Credit, refund),
      Entry(g, p, Some(driver), Driver, DriverEarningLiability, Debit, split.fare) ]
    + if split.fee > 0
      then [Entry(g, p, None, Platform, PlatformFeeReversal, Debit, split.fee)]
      else []
  }

  function TransferEntry(g: nat, p: Id, driver: Id, amount: int): Entry {
    Entry(g, p, Some(driver), Driver, DriverTransferCreated, Debit, amount)
  }

  function ReversalEntry(g: nat, p: Id, driver: Id, amount: int): Entry {
    Entry(g, p, Some(driver), Driver, PayoutFailureReversal, Credit, amount)
  }

  function ProviderFeeGroup(g: nat, p: Id, fee: int): seq<Entry> {
    if fee > 0 then
      [ Entry(g, p, None, Provider, StripeFeeExpense, Credit, fee),
        Entry(g, p, None, Platform, StripeFeeExpense, Debit, fee) ]
    else []
  }

  // ---------------------------------------------------------------------------------------------
  // Sums: every figure the theorems speak of is one column over the entries of one key
  // ---------------------------------------------------------------------------------------------

  /** Which entries a sum looks at. */
  datatype Key = OfPayment(payment: Id) | OfAccount(account: AccountType, holder: Option<Id>) | OfGroup(group: nat)

  function OfDriver(user: Id): Key {
    OfAccount(Driver, Some(user))
  }

  predicate Matches(key: Key, e: Entry) {
    match key
    case OfPayment(p) => e.payment == p
    case OfAccount(account, holder) => e.account == account && e.user == holder
    case OfGroup(g) => e.group == g
  }

  /** What a sum adds up. `Receipts` and `RiderRefunds` count entries, the others add cents. */
  datatype Column =
    | Debits | Credits | Receipts | RiderRefunds | RefundedToRider | DriverNet | FeeNet
    | Earned | RefundedFare | Transfers | Reversals
    | FareOwed   // the liability column alone: what was earned less what was refunded
    | Imbalance  // debits less credits, single-sided transfer and reversal entries aside

  function Signed(e: Entry): int {
    if e.direction == Credit then e.amount else -e.amount
  }

  function Weight(c: Column, e: Entry): int {
    match c
    case Debits => if e.direction == Debit then e.amount else 0
    case Credits => if e.direction == Credit then e.amount else 0
    case Receipts => if e.kind == RiderPaymentReceived then 1 else 0
    case RiderRefunds => if e.kind == RefundToRider then 1 else 0
    case RefundedToRider => if e.kind == RefundToRider then Signed(e) else 0
    case DriverNet => if e.account == Driver then Signed(e) else 0
    case FeeNet => if e.kind == PlatformFeeRevenue || e.kind == PlatformFeeReversal then Signed(e) else 0
    case Earned => if e.kind == DriverEarningLiability && e.direction == Credit then e.amount else 0
    case RefundedFare => if e.kind == DriverEarningLiability && e.direction == Debit then e.amount else 0
    case Transfers => if e.kind == DriverTransferCreated then e.amount else 0
    case Reversals => if e.kind == PayoutFailureReversal then e.amount else 0
    case FareOwed => if e.kind == DriverEarningLiability then Signed(e) else 0
    case Imbalance => if e.kind == DriverTransferCreated || e.kind == PayoutFailureReversal then 0 else -Signed(e)
  }

  function Part(key: Key, c: Column, e: Entry): int {
    if Matches(key, e) then Weight(c, e) else 0
  }

  function Sum(ledger: seq<Entry>, key: Key, c: Column): int {
    if ledger == [] then 0
    else Sum(ledger[..|ledger| - 1], key, c) + Part(key, c, ledger[|ledger| - 1])
  }

  lemma {:induction false} SumAppend(a: seq<Entry>, b: seq<Entry>, key: Key, c: Column)
    ensures Sum(a + b, key, c) == Sum(a, key, c) + Sum(b, key, c)
  {
    if b == [] {
      assert a + b == a;
    } else {
      var front := b[..|b| - 1];
      assert (a + b)[..|a + b| - 1] == a + front;
      SumAppend(a, front, key, c);
    }
  }

  lemma SumPush(a: seq<Entry>, e: Entry, key: Key, c: Column)
    ensures Sum(a + [e], key, c) == Sum(a, key, c) + Part(key, c, e)
  {
    assert (a + [e])[..|a|] == a;
  }

  lemma SumGroup(es: seq<Entry>, key: Key, c: Column)
    requires 2 <= |es| <= 3
    ensures Sum(es, key, c)
         == Part(key, c, es[0]) + Part(key, c, es[1]) + if |es| == 3 then Part(key, c, es[2]) else 0
  {
    assert es[..2] == [] + [es[0]] + [es[1]];
    SumPush([], es[0], key, c);
    SumPush([] + [es[0]], es[1], key, c);
    if |es| == 3 {
      assert es == es[..2] + [es[2]];
      SumPush(es[..2], es[2], key, c);
    } else {
      assert es == es[..2];
    }
  }

  /** What one receipt adds, column by column, to its own payment or group. */
  function ReceiptEffect(row: Payment, c: Column): int {
    match c
    case Debits => row.amountTotal
    case Credits => row.fareAmount + row.platformFeeAmount
    case Receipts => 1
    case DriverNet => row.fareAmount
    case FeeNet => row.platformFeeAmount
    case Earned => row.fareAmount
    case FareOwed => row.fareAmount
    case Imbalance => row.amountTotal - row.fareAmount - row.platformFeeAmount
    case _ => 0
  }

  lemma ReceiptBooks(g: nat, p: Id, row: Payment, driver: Id, key: Key, c: Column)
    requires row.platformFeeAmount >= 0
    ensures !key.OfAccount? ==>
      Sum(ReceiptGroup(g, p, row, driver), key, c)
      == if key == OfPayment(p) || key == OfGroup(g) then ReceiptEffect(row, c) else 0
  {
    SumGroup(ReceiptGroup(g, p, row, driver), key, c);
  }

  /** Whose accounts a receipt moves: the rider's is debited, the driver's and the platform's are credited. */
  lemma ReceiptAccounts(g: nat, p: Id, row: Payment, driver: Id, account: AccountType, holder: Option<Id>)
    requires row.platformFeeAmount >= 0
    ensures
      var es, key := ReceiptGroup(g, p, row, driver), OfAccount(account, holder);
      && Sum(es, key, Debits) == (if account == Rider && holder == Some(row.rider) then row.amountTotal else 0)
      && Sum(es, key, Credits) == (if account == Driver && holder == Some(driver) then row.fareAmount
                                   else if account == Platform && holder == None then row.platformFeeAmount
                                   else 0)
  {
    SumGroup(ReceiptGroup(g, p, row, driver), OfAccount(account, holder), Debits);
    SumGroup(ReceiptGroup(g, p, row, driver), OfAccount(account, holder), Credits);
  }

  /** What one refund adds, column by column, to its own payment or group. */
  function RefundEffect(refund: int, split: RefundSplit, c: Column): int {
    match c
    case Debits => split.fare + split.fee
    case Credits => refund
    case RiderRefunds => 1
    case RefundedToRider => refund
    case DriverNet => -split.fare
    case FeeNet => -split.fee
    case RefundedFare => split.fare
    case FareOwed => -split.fare
    case Imbalance => split.fare + split.fee - refund
    case _ => 0
  }

  lemma RefundBooks(g: nat, p: Id, rider: Id, driver: Id, refund: int, split: RefundSplit, key: Key, c: Column)
    requires split.fee >= 0
    ensures !key.OfAccount? ==>
      Sum(RefundGroup(g, p, rider, driver, refund, split), key, c)
      == if key == OfPayment(p) || key == OfGroup(g) then RefundEffect(refund, split, c) else 0
  {
    SumGroup(RefundGroup(g, p, rider, driver, refund, split), key, c);
  }

  /** Whose accounts a refund moves: the rider's is credited, the driver and the platform fund their shares. */
  lemma RefundAccounts(
    g: nat, p: Id, rider: Id, driver: Id, refund: int, split: RefundSplit, account: AccountType, holder: Option<Id>)
    requires split.fee >= 0
    ensures
      var es, key := RefundGroup(g, p, rider, driver, refund, split), OfAccount(account, holder);
      && Sum(es, key, Credits) == (if account == Rider && holder == Some(rider) then refund else 0)
      && Sum(es, key, Debits) == (if account == Driver && holder == Some(driver) then split.fare
                                  else if account == Platform && holder == None then split.fee
                                  else 0)
  {
    SumGroup(RefundGroup(g, p, rider, driver, refund, split), OfAccount(account, holder), Debits);
    SumGroup(RefundGroup(g, p, rider, driver, refund, split), OfAccount(account, holder), Credits);
  }

  /** The platform bears the provider's fee. */
  lemma ProviderFeeAccounts(g: nat, p: Id, fee: int, account: AccountType, holder: Option<Id>)
    requires fee > 0
    ensures
      var es, key := ProviderFeeGroup(g, p, fee), OfAccount(account, holder);
      && Sum(es, key, Debits) == (if account == Platform && holder == None then fee else 0)
      && Sum(es, key, Credits) == (if account == Provider && holder == None then fee else 0)
  {
    SumGroup(ProviderFeeGroup(g, p, fee), OfAccount(account, holder), Debits);
    SumGroup(ProviderFeeGroup(g, p, fee), OfAccount(account, holder), Credits);
  }

  /** A driver's balance is what their account was credited less what it was debited. */
  lemma {:induction false} NetIsCreditsLessDebits(ledger: seq<Entry>, user: Id)
    ensures Sum(ledger, OfDriver(user), DriverNet)
         == Sum(ledger, OfDriver(user), Credits) - Sum(ledger, OfDriver(user), Debits)
  {
    if ledger != [] {
      NetIsCreditsLessDebits(ledger[..|ledger| - 1], user);
    }
  }

  lemma ProviderFeeBooks(g: nat, p: Id, fee: int, key: Key, c: Column)
    requires fee > 0
    ensures !key.OfAccount? ==>
      Sum(ProviderFeeGroup(g, p, fee), key, c)
      == if (key == OfPayment(p) || key == OfGroup(g)) && (c == Debits || c == Credits) then fee else 0
  {
    SumGroup(ProviderFeeGroup(g, p, fee), key, c);
  }

  // ---------------------------------------------------------------------------------------------
  // Double entry
  // ---------------------------------------------------------------------------------------------

  /** Entries carry the account and direction their kind is specified with. */
  predicate WellTyped(e: Entry) {
    if e.account == Driver then
      || e.kind == DriverEarningLiability
      || (e.kind == DriverTransferCreated && e.direction == Debit)
      || (e.kind == PayoutFailureReversal && e.direction == Credit)
    else
      e.kind !in {DriverEarningLiability, DriverTransferCreated, PayoutFailureReversal}
  }

  predicate AllWellTyped(ledger: seq<Entry>) {
    forall e | e in ledger :: WellTyped(e)
  }

  /**
   * The two balance loops look at different columns. On a well-typed ledger they differ by exactly
   * the reopened liabilities, which the earnings summary never adds back.
   */
  lemma {:induction false} BalanceIsPendingPlusReversals(ledger: seq<Entry>, key: Key)
    requires AllWellTyped(ledger)
    ensures Sum(ledger, key, DriverNet)
         == Sum(ledger, key, Earned) - Sum(ledger, key, Transfers) - Sum(ledger, key, RefundedFare)
            + Sum(ledger, key, Reversals)
  {
    if ledger != [] {
      BalanceIsPendingPlusReversals(ledger[..|ledger| - 1], key);
      assert WellTyped(ledger[|ledger| - 1]);
    }
  }

  /** Likewise the two derived columns: the fare owed and the imbalance, in terms of the stored figures. */
  lemma {:induction false} DerivedColumns(ledger: seq<Entry>, key: Key)
    requires AllWellTyped(ledger)
    ensures Sum(ledger, key, FareOwed)
         == Sum(ledger, key, DriverNet) + Sum(ledger, key, Transfers) - Sum(ledger, key, Reversals)
    ensures Sum(ledger, key, Imbalance)
         == Sum(ledger, key, Debits) - Sum(ledger, key, Credits)
            - Sum(ledger, key, Transfers) + Sum(ledger, key, Reversals)
  {
    if ledger != [] {
      DerivedColumns(ledger[..|ledger| - 1], key);
      assert WellTyped(ledger[|ledger| - 1]);
    }
  }

  /** Group numbers are handed out in order, so no entry carries one not handed out yet. */
  predicate GroupsBelow(ledger: seq<Entry>, groups: nat) {
    forall e | e in ledger :: e.group < groups
  }

  lemma {:induction false} FreshGroupIsEmpty(ledger: seq<Entry>, groups: nat, g: nat, c: Column)
    requires GroupsBelow(ledger, groups) && groups <= g
    ensures Sum(ledger, OfGroup(g), c) == 0
  {
    if ledger != [] {
      FreshGroupIsEmpty(ledger[..|ledger| - 1], groups, g, c);
      assert ledger[|ledger| - 1] in ledger;
    }
  }

  /** `getDriverBalance`. */
  method GetDriverBalance(ledger: seq<Entry>, driver: Id) returns (balance: int, entriesCount: nat)
    ensures balance == Sum(ledger, OfDriver(driver), DriverNet)
    ensures entriesCount == |set i | 0 <= i < |ledger| && Matches(OfDriver(driver), ledger[i])|
  {
    balance, entriesCount := 0, 0;
    for i := 0 to |ledger|
      invariant balance == Sum(ledger[..i], OfDriver(driver), DriverNet)
      invariant entriesCount == |set k | 0 <= k < i && Matches(OfDriver(driver), ledger[k])|
    {
      var entry := ledger[i];
      assert ledger[..i + 1] == ledger[..i] + [entry];
      SumPush(ledger[..i], entry, OfDriver(driver), DriverNet);
      ghost var before := set k | 0 <= k < i && Matches(OfDriver(driver), ledger[k]);
      ghost var after := set k | 0 <= k < i + 1 && Matches(OfDriver(driver), ledger[k]);
      if entry.user == Some(driver) && entry.account == Driver {
        if entry.direction == Credit {
          balance := balance + entry.amount;
        } else {
          balance := balance - entry.amount;
        }
        entriesCount := entriesCount + 1;
        assert after == before + {i};
      } else {
        assert after == before;
      }
    }
    assert ledger[..|ledger|] == ledger;
  }

  datatype Earnings = Earnings(totalEarned: int, totalPaidOut: int, totalRefunded: int, pendingBalance: int)

  /** `getDriverEarnings`. */
  method GetDriverEarnings(ledger: seq<Entry>, driver: Id) returns (r: Earnings)
    ensures r.totalEarned == Sum(ledger, OfDriver(driver), Earned)
    ensures r.totalPaidOut == Sum(ledger, OfDriver(driver), Transfers)
    ensures r.totalRefunded == Sum(ledger, OfDriver(driver), RefundedFare)
    ensures r.pendingBalance == r.totalEarned - r.totalPaidOut - r.totalRefunded
    ensures AllWellTyped(ledger) ==>
      Sum(ledger, OfDriver(driver), DriverNet)
      == r.pendingBalance + Sum(ledger, OfDriver(driver), Reversals)
  {
    var key := OfDriver(driver);
    var totalEarned, totalPaidOut, totalRefunded := 0, 0, 0;
    for i := 0 to |ledger|
      invariant totalEarned == Sum(ledger[..i], key, Earned)
      invariant totalPaidOut == Sum(ledger[..i], key, Transfers)
      invariant totalRefunded == Sum(ledger[..i], key, RefundedFare)
    {
      var entry := ledger[i];
      assert ledger[..i + 1] == ledger[..i] + [entry];
      SumPush(ledger[..i], entry, key, Earned);
      SumPush(ledger[..i], entry, key, Transfers);
      SumPush(ledger[..i], entry, key, RefundedFare);
      if entry.user == Some(driver) && entry.account == Driver {
        if entry.kind == DriverEarningLiability && entry.direction == Credit {
          totalEarned := totalEarned + entry.amount;
        }
        if entry.kind == DriverTransferCreated {
          totalPaidOut := totalPaidOut + entry.amount;
        }
        if entry.kind == DriverEarningLiability && entry.direction == Debit {
          totalRefunded := totalRefunded + entry.amount;
        }
      }
    }
    assert ledger[..|ledger|] == ledger;
    if AllWellTyped(ledger) {
      BalanceIsPendingPlusReversals(ledger, key);
    }
    r := Earnings(totalEarned, totalPaidOut, totalRefunded, totalEarned - totalPaidOut - totalRefunded);
  }
}
