/** The payment record: status, method and type enumerations, the stored fields with their
    defaults, and the two properties the record computes. */
module PaymentModel {
  import opened Wrappers
  import opened Timestamps

  datatype PaymentStatus = Pending | Processing | Completed | Failed | Cancelled | Refunded | OfflineApproved

  datatype PaymentMethod = Stripe | Offline | BankTransfer

  datatype PaymentType = RentalFee | DepositFee | LateFee | DamageFee

  /** The columns the payment endpoints read or write. `rentalId` is absent for a payment not tied
      to a rental. */
  datatype Payment = Payment(
    userId: int,
    rentalId: Option<int>,
    amount: real,
    currency: string,
    paymentType: PaymentType,
    paymentMethod: PaymentMethod,
    status: PaymentStatus,
    externalId: Option<string>,
    externalStatus: Option<string>,
    description: Option<string>,
    failureReason: Option<string>,
    processedAt: Option<Instant>,
    approvedBy: Option<int>,
    approvedAt: Option<Instant>,
    offlineNotes: Option<string>)

  const DefaultCurrency: string := "PLN"

  /** A record built with only its required columns: currency "PLN", type RENTAL, status PENDING,
      and none of the gateway or approval fields set. */
  function NewPayment(userId: int, amount: real, paymentMethod: PaymentMethod): (p: Payment)
    ensures p.status == Pending && p.currency == "PLN" && p.paymentType == RentalFee
    ensures !IsSuccessful(p) && !CanBeRefunded(p)
  {
    Payment(userId, None, amount, DefaultCurrency, RentalFee, paymentMethod, Pending,
            None, None, None, None, None, None, None, None)
  }

  /** A payment has succeeded when the gateway completed it or an administrator approved it offline. */
  function IsSuccessful(p: Payment): (b: bool)
    ensures b <==> p.status == Completed || p.status == OfflineApproved
  {
    p.status in {Completed, OfflineApproved}
  }

  /** Only a gateway-completed card payment can be refunded. */
  function CanBeRefunded(p: Payment): (b: bool)
    ensures b ==> p.status == Completed
    ensures b ==> p.paymentMethod == Stripe
    ensures p.status == Completed && p.paymentMethod == Stripe ==> b
  {
    p.status == Completed && p.paymentMethod == Stripe
  }

  /** Whatever can be refunded has succeeded. */
  lemma RefundableIsSuccessful(p: Payment)
    ensures CanBeRefunded(p) ==> IsSuccessful(p)
  {
  }

  /** An offline approval is a success that can never be refunded. */
  lemma OfflineApprovalIsNotRefundable(p: Payment)
    requires p.status == OfflineApproved
    ensures IsSuccessful(p) && !CanBeRefunded(p)
  {
  }
}
