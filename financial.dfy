/** PaymentService (backend/app/services/financial.py): payment and refund records, the
    idempotency lookup, the provider-status mappings, the refund guards and the default
    payment method. The payment provider is not modelled: each provider call is a
    parameter holding its response or its error message. */
module Financial {
  import opened Wrappers
  import opened Json
  import ErrorHandler

  /** Ids are the strings the service is called with; "" is an absent (falsy) value. */
  type Id = string

  datatype Payment = Payment(
    id: Id,
    tenantId: Id,
    bookingId: Id,
    customerId: Id,
    amountCents: int,
    currencyCode: string,
    status: string,
    providerPaymentId: Id,
    providerSetupIntentId: Id,
    providerChargeId: Id,
    idempotencyKey: string,
    feeType: string,
    noShowFeeCents: int,
    providerMetadata: Value)

  datatype Refund = Refund(
    tenantId: Id,
    paymentId: Id,
    bookingId: Id,
    amountCents: int,
    reason: string,
    refundType: string,
    providerRefundId: Id,
    status: string)

  datatype PaymentMethod = PaymentMethod(id: Id, tenantId: Id, customerId: Id, isDefault: bool, providerMethodId: Id)

  /** The booking columns the no-show fee reads. */
  datatype BookingRecord = BookingRecord(id: Id, tenantId: Id, customerId: Id)

  /** What the provider answers for an intent, a setup intent or a refund. */
  datatype ProviderObject = ProviderObject(id: Id, status: string, latestCharge: Id, metadata: Value)

  /** A provider call: its response, or the message of the provider error it raised. */
  type ProviderCall = Result<ProviderObject, string>

  // ---------------------------------------------------------------------------
  // Raising coded errors
  // ---------------------------------------------------------------------------

  /** What a `raise TithiError(...)` statement raises. */
  datatype Raised = Coded(error: ErrorHandler.Error) | PyTypeError(message: string)

  /** As written the service calls `TithiError(message, error_code=code)`; the
      constructor's parameter is `code`, so the call itself fails with a TypeError. */
  function RaiseAsWritten(message: string, errorCode: string): (r: Raised)
    ensures r.PyTypeError?
  {
    PyTypeError("__init__() got an unexpected keyword argument 'error_code'")
  }

  /** Corrected: the error with the intended code and the base status 500. */
  function Raise(message: string, code: string): (r: Raised)
    ensures r.Coded? && r.error.code == code && r.error.message == message && r.error.statusCode == 500
  {
    Coded(ErrorHandler.NewTithiError(message, code))
  }

  /** No error raised as written carries its code to the client; corrected, every one does. */
  lemma CodesLostAsWritten(message: string, code: string)
    ensures RaiseAsWritten(message, code) != Raise(message, code)
    ensures Raise(message, code).error.code == code
  {
  }

  // ---------------------------------------------------------------------------
  // Lookups and decisions
  // ---------------------------------------------------------------------------

  /** The first payment of the tenant with the idempotency key. */
  function FindByKey(payments: seq<Payment>, tenantId: Id, key: string): (r: Option<Payment>)
    ensures r.Some? ==> r.value in payments && r.value.tenantId == tenantId && r.value.idempotencyKey == key
    ensures r.None? ==> forall k :: 0 <= k < |payments| ==>
                          !(payments[k].tenantId == tenantId && payments[k].idempotencyKey == key)
  {
    if payments == [] then None
    else if payments[0].tenantId == tenantId && payments[0].idempotencyKey == key then Some(payments[0])
    else FindByKey(payments[1..], tenantId, key)
  }

  lemma {:induction false} FindByKeyAppend(payments: seq<Payment>, p: Payment)
    requires FindByKey(payments, p.tenantId, p.idempotencyKey).None?
    ensures FindByKey(payments + [p], p.tenantId, p.idempotencyKey) == Some(p)
  {
    if payments != [] {
      assert (payments + [p])[1..] == payments[1..] + [p];
      FindByKeyAppend(payments[1..], p);
    }
  }

  /** The index of the first payment with the id of the tenant. */
  function FindPayment(payments: seq<Payment>, id: Id, tenantId: Id): (r: Option<nat>)
    ensures r.Some? ==> r.value < |payments| && payments[r.value].id == id && payments[r.value].tenantId == tenantId
    ensures r.None? ==> forall k :: 0 <= k < |payments| ==> !(payments[k].id == id && payments[k].tenantId == tenantId)
  {
    if payments == [] then None
    else if payments[0].id == id && payments[0].tenantId == tenantId then Some(0)
    else match FindPayment(payments[1..], id, tenantId)
      case None => None
      case Some(k) => Some(k + 1)
  }

  /** The key an intent is created under: the caller's, or one generated from the ids. */
  function IntentKey(prefix: string, tenantId: Id, ownerId: Id, given: string, generated: string): (k: string)
    ensures given != "" ==> k == given
    ensures given == "" ==> k == prefix + "_" + tenantId + "_" + ownerId + "_" + generated
  {
    if given != "" then given else prefix + "_" + tenantId + "_" + ownerId + "_" + generated
  }

  /** `confirm_payment_intent`'s status mapping. */
  function ConfirmedStatus(providerStatus: string): (r: string)
    ensures r == "captured" <==> providerStatus == "succeeded"
    ensures r == "requires_action" <==> providerStatus == "requires_action"
    ensures r == "canceled" <==> providerStatus == "canceled"
    ensures r == "failed" <==> providerStatus !in {"succeeded", "requires_action", "canceled"}
  {
    if providerStatus == "succeeded" then "captured"
    else if providerStatus == "requires_action" then "requires_action"
    else if providerStatus == "canceled" then "canceled"
    else "failed"
  }

  /** Captured for a succeeded provider object, failed otherwise: the no-show fee. */
  function FeeStatus(providerStatus: string): (r: string)
    ensures r == "captured" <==> providerStatus == "succeeded"
    ensures r == "captured" || r == "failed"
  {
    if providerStatus == "succeeded" then "captured" else "failed"
  }

  /** Succeeded for a succeeded provider refund, failed otherwise. */
  function RefundStatus(providerStatus: string): (r: string)
    ensures r == "succeeded" <==> providerStatus == "succeeded"
    ensures r == "succeeded" || r == "failed"
  {
    if providerStatus == "succeeded" then "succeeded" else "failed"
  }

  /** The guards of `process_refund`, in order. */
  function RefundGuard(payments: seq<Payment>, paymentId: Id, tenantId: Id, amountCents: int): (r: Result<nat, Raised>)
    ensures r.Ok? ==> r.value < |payments| && payments[r.value].id == paymentId && payments[r.value].tenantId == tenantId &&
                      payments[r.value].providerPaymentId != "" && amountCents <= payments[r.value].amountCents
    ensures FindPayment(payments, paymentId, tenantId).None? ==>
              r == Err(Raise("Payment not found", "TITHI_PAYMENT_NOT_FOUND"))
    ensures (FindPayment(payments, paymentId, tenantId).Some? &&
             amountCents > payments[FindPayment(payments, paymentId, tenantId).value].amountCents) ==> r.Err?
  {
    match FindPayment(payments, paymentId, tenantId)
    case None => Err(Raise("Payment not found", "TITHI_PAYMENT_NOT_FOUND"))
    case Some(k) =>
      if payments[k].providerPaymentId == "" then Err(Raise("No Stripe payment intent found", "TITHI_PAYMENT_NO_STRIPE_INTENT"))
      else if amountCents > payments[k].amountCents then
        Err(Raise("Refund amount exceeds payment amount", "TITHI_REFUND_AMOUNT_EXCEEDED"))
      else Ok(k)
  }

  /** The payment's status after a refund: `refunded` exactly for a full refund of the
      whole amount. */
  function AfterRefund(p: Payment, amountCents: int, refundType: string): (r: Payment)
    ensures r.status == (if refundType == "full" && amountCents == p.amountCents then "refunded" else p.status)
    ensures r.(status := p.status) == p
  {
    if refundType == "full" && amountCents == p.amountCents then p.(status := "refunded") else p
  }

  /** A partial refund, or a "full" one for less than the amount, never marks the payment
      refunded unless it already was. */
  lemma OnlyWholeFullRefundsMarkRefunded(p: Payment, amountCents: int, refundType: string)
    requires p.status != "refunded"
    ensures AfterRefund(p, amountCents, refundType).status == "refunded" <==>
            refundType == "full" && amountCents == p.amountCents
  {
  }

  /** The first default method of the customer. */
  function DefaultMethod(methods: seq<PaymentMethod>, tenantId: Id, customerId: Id): (r: Option<PaymentMethod>)
    ensures r.Some? ==> r.value in methods && r.value.isDefault && r.value.tenantId == tenantId &&
                        r.value.customerId == customerId
    ensures r.None? ==> forall m :: m in methods && m.tenantId == tenantId && m.customerId == customerId ==> !m.isDefault
  {
    if methods == [] then None
    else if methods[0].tenantId == tenantId && methods[0].customerId == customerId && methods[0].isDefault then Some(methods[0])
    else DefaultMethod(methods[1..], tenantId, customerId)
  }

  function FindMethod(methods: seq<PaymentMethod>, id: Id, tenantId: Id): (r: Option<nat>)
    ensures r.Some? ==> r.value < |methods| && methods[r.value].id == id && methods[r.value].tenantId == tenantId
    ensures r.None? ==> forall k :: 0 <= k < |methods| ==> !(methods[k].id == id && methods[k].tenantId == tenantId)
  {
    if methods == [] then None
    else if methods[0].id == id && methods[0].tenantId == tenantId then Some(0)
    else match FindMethod(methods[1..], id, tenantId)
      case None => None
      case Some(k) => Some(k + 1)
  }

  function FindBookingRecord(bookings: seq<BookingRecord>, id: Id, tenantId: Id): (r: Option<BookingRecord>)
    ensures r.Some? ==> r.value in bookings && r.value.id == id && r.value.tenantId == tenantId
    ensures r.None? ==> forall b :: b in bookings ==> !(b.id == id && b.tenantId == tenantId)
  {
    if bookings == [] then None
    else if bookings[0].id == id && bookings[0].tenantId == tenantId then Some(bookings[0])
    else FindBookingRecord(bookings[1..], id, tenantId)
  }

  /** `set_default_payment_method` on the table: the bulk update clears the customer's
      defaults, then the chosen method is set. */
  function WithDefault(methods: seq<PaymentMethod>, k: nat): (r: seq<PaymentMethod>)
    requires k < |methods|
    ensures |r| == |methods| && r[k].isDefault
    ensures forall j :: 0 <= j < |r| ==> r[j] == methods[j].(isDefault := r[j].isDefault)
    ensures forall j :: (0 <= j < |r| && j != k && r[j].tenantId == methods[k].tenantId &&
                         r[j].customerId == methods[k].customerId) ==> !r[j].isDefault
    ensures forall j :: 0 <= j < |r| && (r[j].tenantId != methods[k].tenantId || r[j].customerId != methods[k].customerId) ==>
                        r[j] == methods[j]
  {
    var m := methods[k];
    seq(|methods|, j requires 0 <= j < |methods| =>
      if j == k then methods[j].(isDefault := true)
      else if methods[j].tenantId == m.tenantId && methods[j].customerId == m.customerId then methods[j].(isDefault := false)
      else methods[j])
  }

  /** After setting a default the customer has exactly one default method: the chosen one. */
  lemma ExactlyOneDefault(methods: seq<PaymentMethod>, k: nat)
    requires k < |methods|
    ensures DefaultMethod(WithDefault(methods, k), methods[k].tenantId, methods[k].customerId) == Some(WithDefault(methods, k)[k])
  {
    var r := WithDefault(methods, k);
    DefaultIsFirstDefault(r, methods[k].tenantId, methods[k].customerId, k);
  }

  /** In a table where only index `k` is a default of the customer, the lookup finds it. */
  lemma {:induction false} DefaultIsFirstDefault(ms: seq<PaymentMethod>, tenantId: Id, customerId: Id, k: nat)
    requires k < |ms| && ms[k].isDefault && ms[k].tenantId == tenantId && ms[k].customerId == customerId
    requires forall j :: 0 <= j < |ms| && j != k && ms[j].tenantId == tenantId && ms[j].customerId == customerId ==>
                         !ms[j].isDefault
    ensures DefaultMethod(ms, tenantId, customerId) == Some(ms[k])
  {
    if k > 0 {
      DefaultIsFirstDefault(ms[1..], tenantId, customerId, k - 1);
    }
  }

  // ---------------------------------------------------------------------------
  // The service
  // ---------------------------------------------------------------------------

  class PaymentService {
    var payments: seq<Payment>
    var refunds: seq<Refund>
    var paymentMethods: seq<PaymentMethod>

    /** `create_payment_intent`: an existing payment under the key comes back unchanged;
        otherwise the provider is asked and a `requires_action` card payment recorded. */
    method CreatePaymentIntent(tenantId: Id, bookingId: Id, amountCents: int, newId: Id, generatedKey: string,
                               intent: ProviderCall, currency: string := "USD", customerId: Id := "",
                               idempotencyKey: string := "")
      returns (r: Result<Payment, Raised>)
      modifies this
      ensures var key := IntentKey("pi", tenantId, bookingId, idempotencyKey, generatedKey);
              && (FindByKey(old(payments), tenantId, key).Some? ==>
                    r == Ok(FindByKey(old(payments), tenantId, key).value) && payments == old(payments))
              && (FindByKey(old(payments), tenantId, key).None? && intent.Err? ==>
                    r == Err(Raise("Payment creation failed: " + intent.error, "TITHI_PAYMENT_STRIPE_ERROR")) &&
                    payments == old(payments))
              && (FindByKey(old(payments), tenantId, key).None? && intent.Ok? ==>
                    r.Ok? && payments == old(payments) + [r.value] &&
                    r.value == Payment(newId, tenantId, bookingId, customerId, amountCents, currency, "requires_action",
                                       intent.value.id, "", "", key, "", 0, intent.value.metadata))
      ensures refunds == old(refunds) && paymentMethods == old(paymentMethods)
    {
      var key := IntentKey("pi", tenantId, bookingId, idempotencyKey, generatedKey);
      var existing := FindByKey(payments, tenantId, key);
      if existing.Some? {
        return Ok(existing.value);
      }
      if intent.Err? {
        return Err(Raise("Payment creation failed: " + intent.error, "TITHI_PAYMENT_STRIPE_ERROR"));
      }
      var payment := Payment(newId, tenantId, bookingId, customerId, amountCents, currency, "requires_action",
                             intent.value.id, "", "", key, "", 0, intent.value.metadata);
      payments := payments + [payment];
      r := Ok(payment);
    }

    /** `confirm_payment_intent`. */
    method ConfirmPaymentIntent(paymentId: Id, tenantId: Id, intent: ProviderCall)
      returns (r: Result<Payment, Raised>)
      modifies this
      ensures var found := FindPayment(old(payments), paymentId, tenantId);
              && (found.None? ==> r == Err(Raise("Payment not found", "TITHI_PAYMENT_NOT_FOUND")) && payments == old(payments))
              && (found.Some? && old(payments)[found.value].providerPaymentId == "" ==>
                    r == Err(Raise("No Stripe payment intent found", "TITHI_PAYMENT_NO_STRIPE_INTENT")) &&
                    payments == old(payments))
              && (found.Some? && old(payments)[found.value].providerPaymentId != "" && intent.Err? ==>
                    r == Err(Raise("Payment confirmation failed: " + intent.error, "TITHI_PAYMENT_STRIPE_ERROR")) &&
                    payments == old(payments))
              && (found.Some? && old(payments)[found.value].providerPaymentId != "" && intent.Ok? ==>
                    var p := old(payments)[found.value];
                    var q := p.(status := ConfirmedStatus(intent.value.status),
                                providerChargeId := if intent.value.status == "succeeded" then intent.value.latestCharge
                                                    else p.providerChargeId,
                                providerMetadata := intent.value.metadata);
                    r == Ok(q) && payments == old(payments)[found.value := q])
      ensures refunds == old(refunds) && paymentMethods == old(paymentMethods)
    {
      var found := FindPayment(payments, paymentId, tenantId);
      if found.None? {
        return Err(Raise("Payment not found", "TITHI_PAYMENT_NOT_FOUND"));
      }
      var k := found.value;
      var payment := payments[k];
      if payment.providerPaymentId == "" {
        return Err(Raise("No Stripe payment intent found", "TITHI_PAYMENT_NO_STRIPE_INTENT"));
      }
      if intent.Err? {
        return Err(Raise("Payment confirmation failed: " + intent.error, "TITHI_PAYMENT_STRIPE_ERROR"));
      }
      var response := intent.value;
      if response.status == "succeeded" {
        payment := payment.(status := "captured", providerChargeId := response.latestCharge);
      } else if response.status == "requires_action" {
        payment := payment.(status := "requires_action");
      } else if response.status == "canceled" {
        payment := payment.(status := "canceled");
      } else {
        payment := payment.(status := "failed");
      }
      payment := payment.(providerMetadata := response.metadata);
      payments := payments[k := payment];
      r := Ok(payment);
    }

    /** `create_setup_intent`: a zero-amount `setup` payment for card-on-file. */
    method CreateSetupIntent(tenantId: Id, customerId: Id, newId: Id, generatedKey: string, setup: ProviderCall,
                             idempotencyKey: string := "")
      returns (r: Result<Payment, Raised>)
      modifies this
      ensures var key := IntentKey("si", tenantId, customerId, idempotencyKey, generatedKey);
              && (FindByKey(old(payments), tenantId, key).Some? ==>
                    r == Ok(FindByKey(old(payments), tenantId, key).value) && payments == old(payments))
              && (FindByKey(old(payments), tenantId, key).None? && setup.Err? ==>
                    r == Err(Raise("Setup intent creation failed: " + setup.error, "TITHI_PAYMENT_STRIPE_ERROR")) &&
                    payments == old(payments))
              && (FindByKey(old(payments), tenantId, key).None? && setup.Ok? ==>
                    r.Ok? && payments == old(payments) + [r.value] &&
                    r.value == Payment(newId, tenantId, "", customerId, 0, "USD", "requires_action", "", setup.value.id, "",
                                       key, "setup", 0, setup.value.metadata))
      ensures refunds == old(refunds) && paymentMethods == old(paymentMethods)
    {
      var key := IntentKey("si", tenantId, customerId, idempotencyKey, generatedKey);
      var existing := FindByKey(payments, tenantId, key);
      if existing.Some? {
        return Ok(existing.value);
      }
      if setup.Err? {
        return Err(Raise("Setup intent creation failed: " + setup.error, "TITHI_PAYMENT_STRIPE_ERROR"));
      }
      var payment := Payment(newId, tenantId, "", customerId, 0, "USD", "requires_action", "", setup.value.id, "",
                             key, "setup", 0, setup.value.metadata);
      payments := payments + [payment];
      r := Ok(payment);
    }

    /** `capture_no_show_fee`: charges the customer's default method. */
    method CaptureNoShowFee(bookingId: Id, tenantId: Id, feeCents: int, bookings: seq<BookingRecord>, newId: Id,
                            intent: ProviderCall)
      returns (r: Result<Payment, Raised>)
      modifies this
      ensures var booking := FindBookingRecord(bookings, bookingId, tenantId);
              && (booking.None? ==> r == Err(Raise("Booking not found", "TITHI_BOOKING_NOT_FOUND")) && payments == old(payments))
              && (booking.Some? && DefaultMethod(paymentMethods, tenantId, booking.value.customerId).None? ==>
                    r == Err(Raise("No payment method found for no-show fee", "TITHI_PAYMENT_NO_METHOD")) &&
                    payments == old(payments))
              && (booking.Some? && DefaultMethod(paymentMethods, tenantId, booking.value.customerId).Some? && intent.Err? ==>
                    r == Err(Raise("No-show fee capture failed: " + intent.error, "TITHI_PAYMENT_STRIPE_ERROR")) &&
                    payments == old(payments))
              && (booking.Some? && DefaultMethod(paymentMethods, tenantId, booking.value.customerId).Some? && intent.Ok? ==>
                    r.Ok? && payments == old(payments) + [r.value] &&
                    r.value == Payment(newId, tenantId, bookingId, booking.value.customerId, feeCents, "USD",
                                       FeeStatus(intent.value.status), intent.value.id, "", "", "", "no_show", feeCents,
                                       intent.value.metadata))
      ensures refunds == old(refunds) && paymentMethods == old(paymentMethods)
    {
      var booking := FindBookingRecord(bookings, bookingId, tenantId);
      if booking.None? {
        return Err(Raise("Booking not found", "TITHI_BOOKING_NOT_FOUND"));
      }
      var defaultMethod := DefaultMethod(paymentMethods, tenantId, booking.value.customerId);
      if defaultMethod.None? {
        return Err(Raise("No payment method found for no-show fee", "TITHI_PAYMENT_NO_METHOD"));
      }
      if intent.Err? {
        return Err(Raise("No-show fee capture failed: " + intent.error, "TITHI_PAYMENT_STRIPE_ERROR"));
      }
      var payment := Payment(newId, tenantId, bookingId, booking.value.customerId, feeCents, "USD",
                             FeeStatus(intent.value.status), intent.value.id, "", "", "", "no_show", feeCents,
                             intent.value.metadata);
      payments := payments + [payment];
      r := Ok(payment);
    }

    /** `process_refund`: guards, then a refund row, and `refunded` for a full refund of
        the whole amount. */
    method ProcessRefund(paymentId: Id, tenantId: Id, amountCents: int, reason: string, providerRefund: ProviderCall,
                         refundType: string := "partial")
      returns (r: Result<Refund, Raised>)
      modifies this
      ensures var guard := RefundGuard(old(payments), paymentId, tenantId, amountCents);
              && (guard.Err? ==> r == Err(guard.error) && payments == old(payments) && refunds == old(refunds))
              && (guard.Ok? && providerRefund.Err? ==>
                    r == Err(Raise("Refund processing failed: " + providerRefund.error, "TITHI_PAYMENT_STRIPE_ERROR")) &&
                    payments == old(payments) && refunds == old(refunds))
              && (guard.Ok? && providerRefund.Ok? ==>
                    var p := old(payments)[guard.value];
                    r.Ok? && refunds == old(refunds) + [r.value] &&
                    r.value == Refund(tenantId, paymentId, p.bookingId, amountCents, reason, refundType,
                                      providerRefund.value.id, RefundStatus(providerRefund.value.status)) &&
                    payments == old(payments)[guard.value := AfterRefund(p, amountCents, refundType)])
      ensures paymentMethods == old(paymentMethods)
    {
      var guard := RefundGuard(payments, paymentId, tenantId, amountCents);
      if guard.Err? {
        return Err(guard.error);
      }
      if providerRefund.Err? {
        return Err(Raise("Refund processing failed: " + providerRefund.error, "TITHI_PAYMENT_STRIPE_ERROR"));
      }
      var k := guard.value;
      var payment := payments[k];
      var refund := Refund(tenantId, paymentId, payment.bookingId, amountCents, reason, refundType,
                           providerRefund.value.id, RefundStatus(providerRefund.value.status));
      refunds := refunds + [refund];
      if refundType == "full" && amountCents == payment.amountCents {
        payments := payments[k := payment.(status := "refunded")];
      }
      r := Ok(refund);
    }

    /** `set_default_payment_method`. */
    method SetDefaultPaymentMethod(tenantId: Id, methodId: Id) returns (r: Result<PaymentMethod, Raised>)
      modifies this
      ensures var found := FindMethod(old(paymentMethods), methodId, tenantId);
              && (found.None? ==> r == Err(Raise("Payment method not found", "TITHI_PAYMENT_METHOD_NOT_FOUND")) &&
                                  paymentMethods == old(paymentMethods))
              && (found.Some? ==> paymentMethods == WithDefault(old(paymentMethods), found.value) &&
                                  r == Ok(paymentMethods[found.value]))
      ensures payments == old(payments) && refunds == old(refunds)
    {
      var found := FindMethod(paymentMethods, methodId, tenantId);
      if found.None? {
        return Err(Raise("Payment method not found", "TITHI_PAYMENT_METHOD_NOT_FOUND"));
      }
      paymentMethods := WithDefault(paymentMethods, found.value);
      r := Ok(paymentMethods[found.value]);
    }
  }

  /** A second intent under the same key returns the payment the first one recorded. */
  lemma IntentCreationIsIdempotent(payments: seq<Payment>, p: Payment)
    requires FindByKey(payments, p.tenantId, p.idempotencyKey).None?
    ensures FindByKey(payments + [p], p.tenantId, p.idempotencyKey) == Some(p)
  {
    FindByKeyAppend(payments, p);
  }

  /** Both directions of the refund guard: a refund is accepted exactly when the tenant's
      payment exists, has a provider intent and is at least the refund amount; so an
      accepted refund never exceeds the payment it refunds. */
  lemma RefundWithinAmount(payments: seq<Payment>, paymentId: Id, tenantId: Id, amountCents: int)
    ensures var found := FindPayment(payments, paymentId, tenantId);
            RefundGuard(payments, paymentId, tenantId, amountCents).Ok? <==>
              found.Some? && payments[found.value].providerPaymentId != "" &&
              amountCents <= payments[found.value].amountCents
  {
  }
}
