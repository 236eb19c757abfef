/** The payment endpoints: creating a card payment intent, reconciling it with the gateway's
    status, approving a payment offline and recording an offline payment. The gateway itself is
    outside the model: what it answers is a parameter, and what is sent to it is an output. */
module PaymentController {
  import opened Wrappers
  import opened Timestamps
  import opened PaymentModel
  import opened PaymentSchemas
  import opened UserModel
  import opened Database
  import R = RentalModel

  /** The refusals of the payment endpoints. */
  datatype PaymentApiError =
    | NotConfigured
    | RentalNotFound
    | NotOwner
    | GatewayFailure(message: string)
    | PaymentNotFound
    | AdminOnly
    | AlreadyApproved
    | RentalIdRequired

  /** The HTTP status of each refusal. */
  function StatusCode(e: PaymentApiError): (code: int)
    ensures code == 501 <==> e.NotConfigured?
    ensures code == 404 <==> e.RentalNotFound? || e.PaymentNotFound?
    ensures code == 403 <==> e.NotOwner? || e.AdminOnly?
    ensures code == 400 <==> e.GatewayFailure? || e.AlreadyApproved? || e.RentalIdRequired?
  {
    match e
    case NotConfigured => 501
    case RentalNotFound => 404
    case PaymentNotFound => 404
    case NotOwner => 403
    case AdminOnly => 403
    case _ => 400
  }

  // ---------------------------------------------------------------- linked rentals

  /** A payment confirms its rental only out of PENDING; any other status is left as it is. */
  function ConfirmIfPending(r: R.Rental): (r2: R.Rental)
    ensures r.status == R.Pending ==> r2 == r.(status := R.Confirmed)
    ensures r.status != R.Pending ==> r2 == r
  {
    if r.status == R.Pending then r.(status := R.Confirmed) else r
  }

  /** The rentals after a payment for rental `rentalId` confirmed it: the linked rental, when it
      exists, goes through `ConfirmIfPending`; every other rental is untouched. */
  function ConfirmLinkedRental(rentals: seq<R.Rental>, rentalId: Option<int>): (rs: seq<R.Rental>)
    ensures |rs| == |rentals|
    ensures RentalByOptionalId(rentals, rentalId).None? ==> rs == rentals
    ensures RentalByOptionalId(rentals, rentalId).Some? ==>
              rs == rentals[rentalId.value - 1 := ConfirmIfPending(rentals[rentalId.value - 1])]
    ensures forall i :: 0 <= i < |rentals| && rentals[i].status != R.Pending ==> rs[i] == rentals[i]
  {
    match RentalByOptionalId(rentals, rentalId)
    case None => rentals
    case Some(r) => rentals[rentalId.value - 1 := ConfirmIfPending(r)]
  }

  /** Confirming twice is confirming once, and confirmation never moves a rental out of any status
      other than PENDING. */
  lemma ConfirmationIsIdempotent(rentals: seq<R.Rental>, rentalId: Option<int>)
    ensures ConfirmLinkedRental(ConfirmLinkedRental(rentals, rentalId), rentalId)
            == ConfirmLinkedRental(rentals, rentalId)
  {
    var once := ConfirmLinkedRental(rentals, rentalId);
    if RentalByOptionalId(rentals, rentalId).Some? {
      assert RentalByOptionalId(once, rentalId).Some?;
    }
  }

  // ---------------------------------------------------------------- card payment intent

  /** The amount in the smallest currency unit: the amount times 100, truncated toward zero. */
  function ToCents(amount: real): (c: int)
    ensures amount >= 0.0 ==> c as real <= amount * 100.0 < c as real + 1.0
    ensures amount < 0.0 ==> c as real - 1.0 < amount * 100.0 <= c as real
  {
    if amount >= 0.0 then (amount * 100.0).Floor else -((-amount * 100.0).Floor)
  }

  /** Amounts in whole hundredths convert exactly, and every amount the card schema accepts is at
      least 50 units. */
  lemma ToCentsBounds(amount: real, k: int)
    ensures amount == k as real / 100.0 ==> ToCents(amount) == k
    ensures ValidateStripeAmount(amount).Ok? ==> ToCents(amount) >= 50
  {
  }

  /** What the endpoint sends to the gateway. */
  datatype IntentRequest = IntentRequest(amountCents: int, currency: string, rentalId: int, userId: int, userEmail: string)

  /** What the gateway answers to a create request. */
  datatype IntentReply = IntentCreated(intentId: string, clientSecret: string) | CreateRefused(message: string)

  /** What the endpoint answers once the intent exists. */
  datatype IntentResponse = IntentResponse(clientSecret: string, intentId: string, amount: real,
                                           currency: string, paymentId: int)

  const GatewayErrorPrefix: string := "Błąd Stripe: "

  /** The number a string of decimal digits spells, most significant digit first. */
  function DigitsValue(s: string): nat
  {
    if |s| == 0 then 0
    else
      var c := s[|s| - 1];
      10 * DigitsValue(s[..|s| - 1]) + (if '0' <= c <= '9' then c as int - '0' as int else 0)
  }

  /** The decimal digits of a non-negative number, as Python's str writes it: they spell the number,
      and only zero itself begins with a zero. */
  function DecimalDigits(n: nat): (s: string)
    ensures |s| >= 1
    ensures forall i :: 0 <= i < |s| ==> '0' <= s[i] <= '9'
    ensures DigitsValue(s) == n
    ensures s[0] == '0' <==> n == 0
  {
    if n < 10 then [(48 + n) as char]
    else
      var prefix := DecimalDigits(n / 10);
      assert (prefix + [(48 + n % 10) as char])[..|prefix|] == prefix;
      prefix + [(48 + n % 10) as char]
  }

  /** The payment record an intent creates: PENDING, by card, for the rental fee, carrying the
      intent's id and the requested currency. */
  function IntentPayment(req: StripePaymentCreate, rentalId: nat, userId: int, intentId: string): (p: Payment)
    ensures p.status == Pending && p.paymentMethod == Stripe && p.paymentType == RentalFee
    ensures !IsSuccessful(p)
  {
    Payment(userId, req.rentalId, req.amount, req.currency, RentalFee, Stripe, Pending,
            Some(intentId), None, Some("Płatność za wypożyczenie #" + DecimalDigits(rentalId)),
            None, None, None, None, None)
  }

  /** `create_stripe_payment_intent`: 501 when the gateway has no key, 404 for an unknown rental,
      403 for a rental of another user; otherwise the amount goes to the gateway in the smallest
      unit, and a refusal from the gateway is 400. Only an accepted intent stores a payment. */
  method CreateStripePaymentIntent(db: Db, req: StripePaymentCreate, user: User, configured: bool,
                                   reply: IntentReply)
    returns (sent: Option<IntentRequest>, res: Result<IntentResponse, PaymentApiError>)
    modifies db
    ensures db.equipment == old(db.equipment) && db.rentals == old(db.rentals)
    ensures res.Err? ==> db.payments == old(db.payments)
    ensures !configured ==> res == Err(NotConfigured) && sent.None?
    ensures configured && RentalByOptionalId(old(db.rentals), req.rentalId).None? ==> res == Err(RentalNotFound) && sent.None?
    ensures configured && RentalByOptionalId(old(db.rentals), req.rentalId).Some?
            && RentalByOptionalId(old(db.rentals), req.rentalId).value.userId != user.id
            ==> res == Err(NotOwner) && sent.None?
    ensures sent.Some? <==> configured && RentalByOptionalId(old(db.rentals), req.rentalId).Some?
                            && RentalByOptionalId(old(db.rentals), req.rentalId).value.userId == user.id
    ensures sent.Some? ==> sent.value == IntentRequest(ToCents(req.amount), req.currency, req.rentalId.value, user.id, user.email)
    ensures sent.Some? && reply.CreateRefused? ==> res == Err(GatewayFailure(GatewayErrorPrefix + reply.message))
    ensures res.Ok? <==> sent.Some? && reply.IntentCreated?
    ensures res.Ok? ==>
              && req.rentalId.value >= 1
              && db.payments == old(db.payments) + [IntentPayment(req, req.rentalId.value, user.id, reply.intentId)]
              && res.value == IntentResponse(reply.clientSecret, reply.intentId, req.amount, req.currency, |db.payments|)
  {
    sent := None;
    if !configured {
      return sent, Err(NotConfigured);
    }
    var rental := RentalByOptionalId(db.rentals, req.rentalId);
    if rental.None? {
      return sent, Err(RentalNotFound);
    }
    if rental.value.userId != user.id {
      return sent, Err(NotOwner);
    }
    sent := Some(IntentRequest(ToCents(req.amount), req.currency, req.rentalId.value, user.id, user.email));
    match reply
    case CreateRefused(message) =>
      res := Err(GatewayFailure(GatewayErrorPrefix + message));
    case IntentCreated(intentId, clientSecret) =>
      db.payments := db.payments + [IntentPayment(req, req.rentalId.value, user.id, intentId)];
      res := Ok(IntentResponse(clientSecret, intentId, req.amount, req.currency, |db.payments|));
  }

  // ---------------------------------------------------------------- reconciliation

  /** The local status a gateway status maps onto; an unlisted gateway status maps onto none. */
  function MapGatewayStatus(gatewayStatus: string): (s: Option<PaymentStatus>)
    ensures s == Some(Completed) <==> gatewayStatus == "succeeded"
    ensures s == Some(Cancelled) <==> gatewayStatus == "canceled"
    ensures s == Some(Failed) <==> gatewayStatus == "requires_payment_method" || gatewayStatus == "requires_confirmation"
    ensures s.Some? ==> s.value in {Completed, Cancelled, Failed}
  {
    if gatewayStatus == "succeeded" then Some(Completed)
    else if gatewayStatus == "canceled" then Some(Cancelled)
    else if gatewayStatus == "requires_payment_method" || gatewayStatus == "requires_confirmation" then Some(Failed)
    else None
  }

  const FailureReason: string := "Płatność wymaga dodatkowego potwierdzenia"

  /** The payment after reconciliation with gateway status `gatewayStatus` at time `now`: the mapped
      status when there is one, the processing time on success, the failure reason on failure, and
      always the gateway status itself; who paid, how much and for what never change. */
  function SyncStatus(p: Payment, gatewayStatus: string, now: Instant): (q: Payment)
    ensures MapGatewayStatus(gatewayStatus).Some? ==> q.status == MapGatewayStatus(gatewayStatus).value
    ensures MapGatewayStatus(gatewayStatus).None? ==> q.status == p.status
    ensures q.externalStatus == Some(gatewayStatus)
    ensures q.processedAt == (if gatewayStatus == "succeeded" then Some(now) else p.processedAt)
    ensures q.failureReason == (if q.status == Failed && MapGatewayStatus(gatewayStatus).Some? then Some(FailureReason) else p.failureReason)
    ensures q.userId == p.userId && q.rentalId == p.rentalId && q.amount == p.amount && q.currency == p.currency
    ensures q.paymentMethod == p.paymentMethod && q.paymentType == p.paymentType && q.externalId == p.externalId
    ensures q.approvedBy == p.approvedBy && q.approvedAt == p.approvedAt && q.offlineNotes == p.offlineNotes
    ensures q.description == p.description
  {
    var mapped := if gatewayStatus == "succeeded" then p.(status := Completed, processedAt := Some(now))
                  else if gatewayStatus == "canceled" then p.(status := Cancelled)
                  else if gatewayStatus == "requires_payment_method" || gatewayStatus == "requires_confirmation"
                  then p.(status := Failed, failureReason := Some(FailureReason))
                  else p;
    mapped.(externalStatus := Some(gatewayStatus))
  }

  /** Reconciling again with the same gateway status changes nothing but the processing time. */
  lemma ResyncIsStable(p: Payment, gatewayStatus: string, now: Instant, later: Instant)
    ensures SyncStatus(SyncStatus(p, gatewayStatus, now), gatewayStatus, later)
            == SyncStatus(p, gatewayStatus, now).(processedAt := SyncStatus(p, gatewayStatus, later).processedAt)
  {
  }

  /** The position of the first payment with external id `externalId` that belongs to `userId`. */
  function FindPayment(payments: seq<Payment>, externalId: string, userId: int): (i: Option<nat>)
    ensures i.Some? ==> i.value < |payments| && payments[i.value].externalId == Some(externalId)
                        && payments[i.value].userId == userId
    ensures i.Some? ==> forall j :: 0 <= j < i.value ==>
                          !(payments[j].externalId == Some(externalId) && payments[j].userId == userId)
    ensures i.None? ==> forall j :: 0 <= j < |payments| ==>
                          !(payments[j].externalId == Some(externalId) && payments[j].userId == userId)
    decreases |payments|
  {
    if payments == [] then None
    else if payments[0].externalId == Some(externalId) && payments[0].userId == userId then Some(0)
    else match FindPayment(payments[1..], externalId, userId)
         case None => None
         case Some(k) => Some(k + 1)
  }

  /** What the gateway answers to a status lookup. */
  datatype IntentLookup = IntentFound(status: string) | LookupRefused(message: string)

  /** `confirm_stripe_payment`: the gateway is asked first, and its refusal is 400; a payment with
      that external id that is not the caller's is 404; otherwise the payment is reconciled, and on
      success its rental, if still PENDING, is confirmed. Nothing else changes. */
  method ConfirmStripePayment(db: Db, intentId: string, user: User, lookup: IntentLookup, now: Instant)
    returns (res: Result<PaymentStatus, PaymentApiError>)
    modifies db
    ensures db.equipment == old(db.equipment)
    ensures res.Err? ==> db.payments == old(db.payments) && db.rentals == old(db.rentals)
    ensures lookup.LookupRefused? ==> res == Err(GatewayFailure(GatewayErrorPrefix + lookup.message))
    ensures lookup.IntentFound? && FindPayment(old(db.payments), intentId, user.id).None? ==> res == Err(PaymentNotFound)
    ensures res.Ok? <==> lookup.IntentFound? && FindPayment(old(db.payments), intentId, user.id).Some?
    ensures res.Ok? ==>
              var i := FindPayment(old(db.payments), intentId, user.id).value;
              var synced := SyncStatus(old(db.payments)[i], lookup.status, now);
              && db.payments == old(db.payments)[i := synced]
              && res.value == synced.status
              && db.rentals == (if lookup.status == "succeeded"
                                then ConfirmLinkedRental(old(db.rentals), old(db.payments)[i].rentalId)
                                else old(db.rentals))
  {
    if lookup.LookupRefused? {
      return Err(GatewayFailure(GatewayErrorPrefix + lookup.message));
    }
    var found := FindPayment(db.payments, intentId, user.id);
    if found.None? {
      return Err(PaymentNotFound);
    }
    var i := found.value;
    var payment := db.payments[i];
    var synced := SyncStatus(payment, lookup.status, now);
    db.payments := db.payments[i := synced];
    if lookup.status == "succeeded" {
      db.rentals := ConfirmLinkedRental(db.rentals, payment.rentalId);
    }
    res := Ok(synced.status);
  }

  // ---------------------------------------------------------------- offline approval

  /** A payment can be approved offline unless it already succeeded, by card or offline. */
  predicate Approvable(p: Payment)
  {
    p.status != Completed && p.status != OfflineApproved
  }

  /** The payment after an administrator's offline approval at time `now`. */
  function ApproveOffline(p: Payment, adminId: int, notes: Option<string>, now: Instant): (q: Payment)
    ensures q.status == OfflineApproved && IsSuccessful(q) && !CanBeRefunded(q) && !Approvable(q)
    ensures q.approvedBy == Some(adminId) && q.approvedAt == Some(now) && q.processedAt == Some(now)
    ensures q.offlineNotes == notes
    ensures q.userId == p.userId && q.rentalId == p.rentalId && q.amount == p.amount
    ensures q.paymentMethod == p.paymentMethod && q.externalId == p.externalId
    ensures q.currency == p.currency && q.paymentType == p.paymentType && q.description == p.description
    ensures q.externalStatus == p.externalStatus && q.failureReason == p.failureReason
  {
    p.(status := OfflineApproved, approvedBy := Some(adminId), approvedAt := Some(now),
       offlineNotes := notes, processedAt := Some(now))
  }

  /** `approve_payment_offline`: 403 for a non-administrator, 404 for an unknown payment, 400 for a
      payment that already succeeded; otherwise the payment is approved and its rental, if still
      PENDING, is confirmed. */
  method ApprovePaymentOffline(db: Db, paymentId: int, notes: Option<string>, admin: User, now: Instant)
    returns (res: Result<Payment, PaymentApiError>)
    modifies db
    ensures db.equipment == old(db.equipment)
    ensures res.Err? ==> db.payments == old(db.payments) && db.rentals == old(db.rentals)
    ensures !IsAdminUser(admin) ==> res == Err(AdminOnly)
    ensures IsAdminUser(admin) && RowById(old(db.payments), paymentId).None? ==> res == Err(PaymentNotFound)
    ensures (IsAdminUser(admin) && RowById(old(db.payments), paymentId).Some?
             && !Approvable(old(db.payments)[paymentId - 1])) ==> res == Err(AlreadyApproved)
    ensures res.Ok? <==> IsAdminUser(admin) && RowById(old(db.payments), paymentId).Some?
                         && Approvable(old(db.payments)[paymentId - 1])
    ensures res.Ok? ==>
              var p := old(db.payments)[paymentId - 1];
              && res.value == ApproveOffline(p, admin.id, notes, now)
              && db.payments == old(db.payments)[paymentId - 1 := res.value]
              && db.rentals == ConfirmLinkedRental(old(db.rentals), p.rentalId)
  {
    if !IsAdminUser(admin) {
      return Err(AdminOnly);
    }
    var found := RowById(db.payments, paymentId);
    if found.None? {
      return Err(PaymentNotFound);
    }
    var payment := found.value;
    if !Approvable(payment) {
      return Err(AlreadyApproved);
    }
    var approved := ApproveOffline(payment, admin.id, notes, now);
    db.payments := db.payments[paymentId - 1 := approved];
    db.rentals := ConfirmLinkedRental(db.rentals, payment.rentalId);
    res := Ok(approved);
  }

  /** A payment once approved offline cannot be approved again. */
  lemma ApprovalHappensOnce(p: Payment, adminId: int, notes: Option<string>, now: Instant)
    ensures !Approvable(ApproveOffline(p, adminId, notes, now))
    ensures Approvable(p) <==> !IsSuccessful(p)
  {
  }

  // ---------------------------------------------------------------- offline payment

  /** The payment an administrator records offline: already approved, owned by the rental's user. */
  function OfflinePayment(req: PaymentCreate, owner: int, paymentMethod: PaymentMethod, adminId: int, now: Instant): (p: Payment)
    ensures p.status == OfflineApproved && IsSuccessful(p) && !CanBeRefunded(p)
    ensures p.userId == owner && p.rentalId == req.rentalId && p.amount == req.amount
    ensures p.approvedBy == Some(adminId) && p.approvedAt == Some(now) && p.processedAt == Some(now)
    ensures p.currency == DefaultCurrency
  {
    Payment(owner, req.rentalId, req.amount, DefaultCurrency, req.paymentType, paymentMethod, OfflineApproved,
            None, None, req.description, None, Some(now), Some(adminId), Some(now), None)
  }

  /** `create_offline_payment`: 403 for a non-administrator, 400 without a rental id (a zero id
      counts as none), 404 for an unknown rental; otherwise the approved payment is stored and the
      rental, if still PENDING, is confirmed. The payment method is an input of its own. */
  method CreateOfflinePayment(db: Db, req: PaymentCreate, paymentMethod: PaymentMethod, admin: User, now: Instant)
    returns (res: Result<int, PaymentApiError>)
    modifies db
    ensures db.equipment == old(db.equipment)
    ensures res.Err? ==> db.payments == old(db.payments) && db.rentals == old(db.rentals)
    ensures !IsAdminUser(admin) ==> res == Err(AdminOnly)
    ensures IsAdminUser(admin) && (req.rentalId.None? || req.rentalId.value == 0) ==> res == Err(RentalIdRequired)
    ensures IsAdminUser(admin) && req.rentalId.Some? && req.rentalId.value != 0
            && RowById(old(db.rentals), req.rentalId.value).None?
            ==> res == Err(RentalNotFound)
    ensures res.Ok? <==> IsAdminUser(admin) && RentalByOptionalId(old(db.rentals), req.rentalId).Some?
    ensures res.Ok? ==>
              var owner := old(db.rentals)[req.rentalId.value - 1].userId;
              && db.payments == old(db.payments) + [OfflinePayment(req, owner, paymentMethod, admin.id, now)]
              && res.value == |db.payments|
              && db.rentals == ConfirmLinkedRental(old(db.rentals), req.rentalId)
  {
    if !IsAdminUser(admin) {
      return Err(AdminOnly);
    }
    if req.rentalId.None? || req.rentalId.value == 0 {
      return Err(RentalIdRequired);
    }
    var rental := RowById(db.rentals, req.rentalId.value);
    if rental.None? {
      return Err(RentalNotFound);
    }
    db.payments := db.payments + [OfflinePayment(req, rental.value.userId, paymentMethod, admin.id, now)];
    db.rentals := ConfirmLinkedRental(db.rentals, req.rentalId);
    res := Ok(|db.payments|);
  }
}
