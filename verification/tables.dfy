/** The rows the money path reads and writes. A payment shares its booking's identifier (both are unique). */
module Tables {
  import opened Money

  type Id = nat

  datatype PaymentStatus =
    | Created | PaymentPending | Paid | HeldInEscrow | PayoutEligible
    | TransferCreated | PayoutCompleted | RefundPending | Refunded | PaymentFailed

  datatype Payment = Payment(
    rider: Id,
    amountTotal: int,
    fareAmount: int,
    platformFeeAmount: int,
    refundedFareAmount: int,
    refundedFeeAmount: int,
    status: PaymentStatus,
    payoutEligibleAt: Option<int>)

  datatype BookingStatus = PendingPayment | Active | Completed | Cancelled | Disputed | FailedPayment

  datatype Booking = Booking(
    driver: Id,
    status: BookingStatus,
    completedAt: Option<int>,
    totalPrice: int,
    segmentFare: Option<int>,
    paymentAmount: Option<int>,
    stripeIntent: Option<Id>,
    paymentCapturedAt: Option<int>,
    refundAmount: Option<int>,
    refundPercent: Option<int>,
    refundedAt: Option<int>)

  datatype DisputeStatus =
    | Open | EvidenceCollected | AutoResolvedRiderRefund | AutoResolvedDriverPayout
    | NeedsManualReview | WaitingForUserResponse
    | ResolvedRefund | ResolvedPayout | ResolvedSplit | Escalated

  datatype Dispute = Dispute(booking: Id, status: DisputeStatus)

  predicate IsOpen(s: DisputeStatus) {
    s in {Open, EvidenceCollected, NeedsManualReview, WaitingForUserResponse, Escalated}
  }

  predicate IsSettleable(s: DisputeStatus) {
    IsOpen(s) || s in {AutoResolvedRiderRefund, AutoResolvedDriverPayout}
  }

  datatype AccountType = Rider | Driver | Platform | Provider

  datatype EntryKind =
    | RiderPaymentReceived | DriverEarningLiability | PlatformFeeRevenue | StripeFeeExpense
    | RefundToRider | DriverTransferCreated | PayoutFailureReversal | PlatformFeeReversal

  datatype Direction = Debit | Credit

  datatype Entry = Entry(
    group: nat, payment: Id, user: Option<Id>,
    account: AccountType, kind: EntryKind, direction: Direction, amount: int)

  datatype EventStatus = Pending | Processing | Processed | Failed

  datatype EventPayload =
    | PaymentPaid(payment: Id)
    | BookingCompleted(maybePayment: Option<Id>)
    | Unhandled

  datatype Event = Event(
    payload: EventPayload, status: EventStatus,
    retryCount: nat, nextRetryAt: Option<int>, processedAt: Option<int>)

  datatype BatchStatus = BatchProcessing | BatchCompleted | BatchFailed

  datatype ItemStatus = ItemPending | ItemCompleted | ItemFailed

  datatype Item = Item(payment: Id, driverAmount: int, platformFee: int, status: ItemStatus)

  datatype Batch = Batch(driver: Id, amountTotal: int, status: BatchStatus, items: seq<Item>)

  /** A driver's Stripe Connect state. */
  datatype ConnectAccount = ConnectAccount(hasAccount: bool, onboarded: bool)

  /** Money Stripe accepted to move to a driver, in minor units. */
  datatype StripeTransfer = StripeTransfer(batch: nat, driver: Id, amountMinor: int)

  /** A refund request sent to Stripe, in minor units. */
  datatype StripeRefund = StripeRefund(booking: Id, amountMinor: int, accepted: bool)

  datatype World = World(
    payments: map<Id, Payment>,
    bookings: map<Id, Booking>,
    disputes: map<Id, Dispute>,
    accounts: map<Id, ConnectAccount>,
    ledger: seq<Entry>,
    groups: nat,
    outbox: seq<Event>,
    batches: seq<Batch>,
    transfers: seq<StripeTransfer>,
    stripeRefunds: seq<StripeRefund>)
  {
    predicate HasOpenDispute(b: Id) {
      exists d | d in disputes :: disputes[d].booking == b && IsOpen(disputes[d].status)
    }
  }

  predicate Distinct(rows: seq<Id>) {
    forall i, j | 0 <= i < j < |rows| :: rows[i] != rows[j]
  }

  /** A query result: the rows of `ids` in whatever order the database returned them. */
  ghost predicate IsListing(rows: seq<Id>, ids: set<Id>) {
    Distinct(rows) && (forall id :: id in rows <==> id in ids)
  }
}
