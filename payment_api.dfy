/** The payment endpoints of the backend (`PaymentController`): the amount
    guard of the two create endpoints and the owner-or-admin rule of the
    read and cancel endpoints, over the service of `Payments`. */
module PaymentApi {
  import opened Common
  import opened Payments

  /** An HTTP reply: the status code, the `message` entry of the body (empty
      when the body is a payment) and the payment it carries, if any. */
  datatype Response = Response(code: int, message: string, payment: Option<Payment>)

  function BadRequest(message: string): Response
  {
    Response(400, message, None)
  }

  /** `amount != null && amount.compareTo(ZERO) > 0`: a missing, zero or
      negative amount is refused. */
  predicate ValidAmount(amount: Option<real>): (r: bool)
    ensures amount.None? ==> !r
    ensures amount.Some? ==> (r <==> amount.value > 0.0)
  {
    amount.Some? && amount.value > 0.0
  }

  /** The caller owns the payment or is an admin. */
  predicate MayAccess(ownerId: int, caller: Principal): (r: bool)
    ensures caller.role == ADMIN ==> r
    ensures caller.role != ADMIN ==> (r <==> ownerId == caller.id)
  {
    ownerId == caller.id || caller.role == ADMIN
  }

  /** `getPaymentById`: 400 for an unknown id, 403 for a caller who neither
      owns the payment nor is an admin, the payment otherwise. */
  function PaymentById(table: map<int, Payment>, id: int, caller: Principal): (r: Response)
    ensures r.code == 400 <==> id !in table
    ensures r.code == 403 <==> id in table && !MayAccess(table[id].userId, caller)
    ensures r.code == 200 <==> id in table && MayAccess(table[id].userId, caller)
    ensures r.code == 200 ==> r.payment == Some(table[id])
    ensures r.code != 200 ==> r.payment.None?
    ensures r.code == 400 ==> r.message == "Payment not found"
    ensures r.code == 403 ==> r.message == "Access denied"
  {
    if id !in table then BadRequest("Payment not found")
    else if !MayAccess(table[id].userId, caller) then Response(403, "Access denied", None)
    else Response(200, "", Some(table[id]))
  }

  /** The Stripe create endpoint. A refused amount never reaches the
      service; a Stripe failure is reported, and the row the service saved
      before calling Stripe stays. */
  method CreateStripePayment(service: PaymentService, caller: Principal, amount: Option<real>, description: string,
                             stamp: string, suffix: string, intent: Result<string, string>) returns (r: Response)
    requires service.Valid()
    modifies service
    ensures service.Valid()
    ensures !ValidAmount(amount) ==>
      r == BadRequest("Invalid payment amount") && service.payments == old(service.payments)
    ensures ValidAmount(amount) ==> exists id | id !in old(service.payments) ::
      var row := NewPayment(caller.id, amount.value, STRIPE, description, TransactionId(stamp, suffix));
      && (intent.Err? ==>
            && r == BadRequest("Stripe error: " + intent.error)
            && service.payments == old(service.payments)[id := row])
      && (intent.Ok? ==>
            && service.payments == old(service.payments)[id := row.(stripePaymentIntentId := Some(intent.value))]
            && r == Response(200, "Stripe payment created successfully", Some(service.payments[id])))
  {
    if !ValidAmount(amount) {
      return BadRequest("Invalid payment amount");
    }
    var created, _ := service.CreateStripePayment(caller.id, amount.value, description, stamp, suffix, intent);
    if created.Err? {
      return BadRequest("Stripe error: " + Message(created.error));
    }
    r := Response(200, "Stripe payment created successfully", Some(service.payments[created.value]));
  }

  /** The PayPal create endpoint. The service already prefixes its failure
      message, and the endpoint prefixes it once more. */
  method CreatePayPalPayment(service: PaymentService, caller: Principal, amount: Option<real>, description: string,
                             stamp: string, suffix: string, order: Result<string, string>) returns (r: Response)
    requires service.Valid()
    modifies service
    ensures service.Valid()
    ensures !ValidAmount(amount) ==>
      r == BadRequest("Invalid payment amount") && service.payments == old(service.payments)
    ensures ValidAmount(amount) && order.Err? ==>
      && r == BadRequest(PAYPAL_CREATE_FAILED + Message(PayPalCreateFailed(ProviderFailure(order.error))))
      && service.payments == old(service.payments)
    ensures ValidAmount(amount) && order.Ok? ==> exists id | id !in old(service.payments) ::
      && service.payments == old(service.payments)[id := NewPayment(caller.id, amount.value, PAYPAL, description,
                                                                    TransactionId(stamp, suffix))
                                                           .(paypalOrderId := Some(order.value))]
      && r == Response(200, "PayPal payment created successfully", Some(service.payments[id]))
  {
    if !ValidAmount(amount) {
      return BadRequest("Invalid payment amount");
    }
    var created := service.CreatePayPalPayment(caller.id, amount.value, description, stamp, suffix, order);
    if created.Err? {
      return BadRequest(PAYPAL_CREATE_FAILED + Message(created.error));
    }
    r := Response(200, "PayPal payment created successfully", Some(service.payments[created.value]));
    ghost var id := created.value;
    ghost var row := NewPayment(caller.id, amount.value, PAYPAL, description, TransactionId(stamp, suffix))
                       .(paypalOrderId := Some(order.value));
    assert && id !in old(service.payments)
           && service.payments == old(service.payments)[id := row]
           && r == Response(200, "PayPal payment created successfully", Some(service.payments[id]));
  }

  /** The PayPal failure a client sees carries the prefix twice. */
  lemma PayPalCreateFailureMessage(providerMessage: string)
    ensures PAYPAL_CREATE_FAILED + Message(PayPalCreateFailed(ProviderFailure(providerMessage)))
         == PAYPAL_CREATE_FAILED + PAYPAL_CREATE_FAILED + providerMessage
  {
  }

  /** The cancel endpoint: the access check comes before the service call,
      so a refused caller changes nothing. */
  method CancelPayment(service: PaymentService, id: int, caller: Principal) returns (r: Response)
    requires service.Valid()
    modifies service
    ensures service.Valid()
    ensures id !in old(service.payments) ==>
      r == BadRequest("Failed to cancel payment: Payment not found") && service.payments == old(service.payments)
    ensures id in old(service.payments) && !MayAccess(old(service.payments)[id].userId, caller) ==>
      r == Response(403, "Access denied", None) && service.payments == old(service.payments)
    ensures id in old(service.payments) && MayAccess(old(service.payments)[id].userId, caller) ==>
      match Cancelled(old(service.payments)[id])
      case Ok(p) =>
        r == Response(200, "Payment cancelled successfully", Some(p))
        && service.payments == old(service.payments)[id := p]
      case Err(e) =>
        r == BadRequest("Failed to cancel payment: " + Message(e))
        && service.payments == old(service.payments)
  {
    if id !in service.payments {
      return BadRequest("Failed to cancel payment: " + Message(PaymentNotFound));
    }
    if !MayAccess(service.payments[id].userId, caller) {
      return Response(403, "Access denied", None);
    }
    var cancelled := service.CancelPayment(id);
    if cancelled.Err? {
      return BadRequest("Failed to cancel payment: " + Message(cancelled.error));
    }
    r := Response(200, "Payment cancelled successfully", Some(cancelled.value));
  }
}
