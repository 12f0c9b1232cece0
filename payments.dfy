/** The payment backend (`PaymentService`): payment rows keyed by id, the
    status machine PENDING -> COMPLETED / FAILED / CANCELLED -> REFUNDED,
    the conversion of an amount to Stripe's minor units, and the revenue
    sums. Provider SDK answers, the clock and the transaction-id randomness
    are parameters. Amounts are `BigDecimal` in the source and exact reals
    here. */
module Payments {
  import opened Common

  datatype Status = PENDING | COMPLETED | FAILED | CANCELLED | REFUNDED

  datatype PaymentMethod = STRIPE | PAYPAL

  /** `Enum.toString` of a status, as the error messages print it. */
  function StatusName(s: Status): string
  {
    match s
    case PENDING => "PENDING"
    case COMPLETED => "COMPLETED"
    case FAILED => "FAILED"
    case CANCELLED => "CANCELLED"
    case REFUNDED => "REFUNDED"
  }

  datatype Payment = Payment(
    userId: int,
    amount: real,
    paymentMethod: PaymentMethod,
    description: string,
    status: Status,
    transactionId: string,
    stripePaymentIntentId: Option<string>,
    paypalOrderId: Option<string>,
    completedAt: Option<int>)

  /** The exceptions of the service. `ProviderFailure` carries the message of
      an SDK exception; `NonUniqueResult` is the framework's refusal when a
      lookup that returns one row finds several. */
  datatype PaymentError =
    | PaymentNotFound
    | CannotCancel(status: Status)
    | CannotRefund(status: Status)
    | ProviderFailure(message: string)
    | NonUniqueResult
    | PayPalCreateFailed(cause: PaymentError)
    | PayPalConfirmFailed(cause: PaymentError)

  const PAYPAL_CREATE_FAILED: string := "Failed to create PayPal payment: "

  /** `getMessage()` of each exception. */
  function Message(e: PaymentError): string
  {
    match e
    case PaymentNotFound => "Payment not found"
    case CannotCancel(s) => "Cannot cancel payment with status: " + StatusName(s)
    case CannotRefund(s) => "Cannot refund payment with status: " + StatusName(s)
    case ProviderFailure(m) => m
    case NonUniqueResult => "query did not return a unique result"
    case PayPalCreateFailed(c) => PAYPAL_CREATE_FAILED + Message(c)
    case PayPalConfirmFailed(c) => "Failed to confirm PayPal payment: " + Message(c)
  }

  // ---------------------------------------------------------------------
  // Transaction ids and minor units

  const TXN_PREFIX: string := "TXN_"

  /** `generateTransactionId`: the prefix, the clock reading and the first
      eight characters of a random UUID, upper-cased, given here as `stamp`
      and `suffix`. */
  function TransactionId(stamp: string, suffix: string): (r: string)
    ensures StartsWith(r, TXN_PREFIX)
    ensures r[|TXN_PREFIX|..] == stamp + "_" + suffix
  {
    StartsWithConcat(TXN_PREFIX, stamp + "_" + suffix);
    TXN_PREFIX + (stamp + "_" + suffix)
  }

  const TWO_64: int := 0x1_0000_0000_0000_0000
  const LONG_MIN: int := -0x8000_0000_0000_0000
  const LONG_MAX: int := 0x7fff_ffff_ffff_ffff

  /** Dropping the fraction of a real, toward zero. */
  function TruncateTowardZero(x: real): (r: int)
    ensures 0.0 <= x ==> 0 <= r && r as real <= x < r as real + 1.0
    ensures x < 0.0 ==> r <= 0 && r as real - 1.0 < x <= r as real
  {
    if x >= 0.0 then x.Floor else -((-x).Floor)
  }

  /** The low 64 bits of an integer, read as a signed `long`. */
  function WrapLong(n: int): (r: int)
    ensures LONG_MIN <= r <= LONG_MAX
    ensures (r - n) % TWO_64 == 0
    ensures LONG_MIN <= n <= LONG_MAX ==> r == n
  {
    (n - LONG_MIN) % TWO_64 + LONG_MIN
  }

  /** `amount.multiply(100).longValue()`: the amount in paise handed to
      Stripe. `longValue` drops the fraction and keeps the low 64 bits. */
  function StripeMinorUnits(amount: real): (r: int)
    ensures LONG_MIN <= r <= LONG_MAX
    ensures -0.01 < amount < 0.01 ==> r == 0
  {
    WrapLong(TruncateTowardZero(amount * 100.0))
  }

  /** An amount with a whole number of paise reaches Stripe exactly. */
  lemma StripeMinorUnitsExact(paise: int)
    requires LONG_MIN <= paise <= LONG_MAX
    ensures StripeMinorUnits(paise as real / 100.0) == paise
  {
    assert (paise as real / 100.0) * 100.0 == paise as real;
    assert (paise as real).Floor == paise;
    assert (-(paise as real)).Floor == -paise;
  }

  /** A positive amount that fits loses less than one paisa: the fraction of
      a paisa is dropped, never rounded up. */
  lemma StripeMinorUnitsTruncates(amount: real)
    requires 0.0 < amount && amount * 100.0 < LONG_MAX as real
    ensures var units := StripeMinorUnits(amount);
      0 <= units && units as real <= amount * 100.0 < units as real + 1.0
  {
    var t := TruncateTowardZero(amount * 100.0);
    assert t <= LONG_MAX;
  }

  /** 0.999 rupees is 99 paise, not 100. */
  lemma StripeMinorUnitsDropsFraction()
    ensures StripeMinorUnits(0.999) == 99
  {
    assert 0.999 * 100.0 == 99.9;
    assert (99.9).Floor == 99;
  }

  // ---------------------------------------------------------------------
  // The status machine

  /** The row `createPayment` builds. The entity's own constructor is not
      part of this model; it is taken to start the row PENDING with no
      provider ids and no completion time. */
  function NewPayment(userId: int, amount: real, paymentMethod: PaymentMethod, description: string,
                      transactionId: string): (p: Payment)
    ensures p.status == PENDING && p.completedAt.None?
    ensures p.userId == userId && p.amount == amount && p.paymentMethod == paymentMethod && p.transactionId == transactionId
  {
    Payment(userId, amount, paymentMethod, description, PENDING, transactionId, None, None, None)
  }

  /** `cancelPayment` on a loaded row. */
  function Cancelled(p: Payment): (r: Result<Payment, PaymentError>)
    ensures r.Ok? <==> p.status == PENDING
    ensures r.Ok? ==> r.value == p.(status := CANCELLED)
    ensures r.Err? ==> r.error == CannotCancel(p.status)
  {
    if p.status == PENDING then Ok(p.(status := CANCELLED)) else Err(CannotCancel(p.status))
  }

  /** `refundPayment` on a loaded row. */
  function Refunded(p: Payment): (r: Result<Payment, PaymentError>)
    ensures r.Ok? <==> p.status == COMPLETED
    ensures r.Ok? ==> r.value == p.(status := REFUNDED)
    ensures r.Err? ==> r.error == CannotRefund(p.status)
  {
    if p.status == COMPLETED then Ok(p.(status := REFUNDED)) else Err(CannotRefund(p.status))
  }

  /** The status mapping of `confirmStripePayment`. It does not look at the
      row's current status. */
  function StripeConfirmed(p: Payment, intentStatus: string, now: int): (r: Payment)
    ensures intentStatus == "succeeded" ==> r == p.(status := COMPLETED, completedAt := Some(now))
    ensures intentStatus == "payment_failed" ==> r == p.(status := FAILED)
    ensures intentStatus != "succeeded" && intentStatus != "payment_failed" ==> r == p
  {
    if intentStatus == "succeeded" then p.(status := COMPLETED, completedAt := Some(now))
    else if intentStatus == "payment_failed" then p.(status := FAILED)
    else p
  }

  /** The status mapping of `confirmPayPalPayment`: anything but "COMPLETED"
      fails the payment. */
  function PayPalConfirmed(p: Payment, orderStatus: string, now: int): (r: Payment)
    ensures orderStatus == "COMPLETED" ==> r == p.(status := COMPLETED, completedAt := Some(now))
    ensures orderStatus != "COMPLETED" ==> r == p.(status := FAILED)
  {
    if orderStatus == "COMPLETED" then p.(status := COMPLETED, completedAt := Some(now))
    else p.(status := FAILED)
  }

  /** What can happen to a stored payment. */
  datatype Event =
    | Cancel
    | Refund
    | StripeConfirm(intentStatus: string, now: int)
    | PayPalConfirm(orderStatus: string, now: int)

  /** One event on one row; a refused cancel or refund leaves the row. */
  function Apply(p: Payment, e: Event): Payment
  {
    match e
    case Cancel => if Cancelled(p).Ok? then Cancelled(p).value else p
    case Refund => if Refunded(p).Ok? then Refunded(p).value else p
    case StripeConfirm(s, now) => StripeConfirmed(p, s, now)
    case PayPalConfirm(s, now) => PayPalConfirmed(p, s, now)
  }

  function Run(p: Payment, events: seq<Event>): Payment
  {
    if events == [] then p else Apply(Run(p, events[..|events| - 1]), events[|events| - 1])
  }

  /** A completed or refunded payment has a completion time. */
  ghost predicate Stamped(p: Payment)
  {
    p.status == COMPLETED || p.status == REFUNDED ==> p.completedAt.Some?
  }

  /** The fields no event touches. */
  ghost predicate SameOrigin(p: Payment, q: Payment)
  {
    && q.userId == p.userId && q.amount == p.amount && q.paymentMethod == p.paymentMethod
    && q.description == p.description && q.transactionId == p.transactionId
    && q.stripePaymentIntentId == p.stripePaymentIntentId && q.paypalOrderId == p.paypalOrderId
  }

  lemma {:induction false} RunKeepsStampedAndOrigin(p: Payment, events: seq<Event>)
    requires Stamped(p)
    ensures Stamped(Run(p, events))
    ensures SameOrigin(p, Run(p, events))
  {
    if events != [] {
      RunKeepsStampedAndOrigin(p, events[..|events| - 1]);
    }
  }

  /** A payment only becomes REFUNDED through a refund of a COMPLETED
      payment. */
  lemma {:induction false} RefundNeedsCompletion(p: Payment, events: seq<Event>)
    requires p.status != REFUNDED
    requires Run(p, events).status == REFUNDED
    ensures exists k | 0 <= k < |events| :: events[k] == Refund && Run(p, events[..k]).status == COMPLETED
  {
    var n := |events|;
    var init := events[..n - 1];
    var before := Run(p, init);
    if before.status == REFUNDED {
      RefundNeedsCompletion(p, init);
      var k :| 0 <= k < |init| && init[k] == Refund && Run(p, init[..k]).status == COMPLETED;
      assert init[..k] == events[..k];
    } else {
      assert events[..n - 1] == init;
      assert events[n - 1] == Refund && Run(p, events[..n - 1]).status == COMPLETED;
    }
  }

  /** A cancel only succeeds from PENDING, a refund only from COMPLETED; in
      every other status they change nothing. */
  lemma CancelAndRefundGuards(p: Payment)
    ensures Apply(p, Cancel) != p <==> p.status == PENDING
    ensures Apply(p, Refund) != p <==> p.status == COMPLETED
  {
  }

  /** Confirmation ignores the current status: a cancelled payment whose
      Stripe intent later reports success becomes COMPLETED. */
  lemma ConfirmAfterCancel(p: Payment, now: int)
    requires p.status == PENDING
    ensures Run(p, [Cancel, StripeConfirm("succeeded", now)]).status == COMPLETED
  {
    assert [Cancel, StripeConfirm("succeeded", now)][..1] == [Cancel];
    assert [Cancel][..0] == [];
  }

  // ---------------------------------------------------------------------
  // Revenue sums

  function Sum(amounts: seq<real>): real
  {
    if amounts == [] then 0.0 else Sum(amounts[..|amounts| - 1]) + amounts[|amounts| - 1]
  }

  /** SQL `SUM` over the selected rows: NULL when there are none. */
  function SqlSum(amounts: seq<real>): Option<real>
  {
    if amounts == [] then None else Some(Sum(amounts))
  }

  /** The `!= null ? total : BigDecimal.ZERO` of the user total, the monthly
      revenue and the daily revenue. */
  function OrZero(total: Option<real>): (r: real)
    ensures total.None? ==> r == 0.0
    ensures total.Some? ==> r == total.value
  {
    if total.Some? then total.value else 0.0
  }

  /** The three aggregates are the plain sum of the selected amounts, zero
      when nothing is selected. */
  lemma {:induction false} OrZeroIsSum(amounts: seq<real>)
    ensures OrZero(SqlSum(amounts)) == Sum(amounts)
    ensures (forall i | 0 <= i < |amounts| :: amounts[i] >= 0.0) ==> Sum(amounts) >= 0.0
  {
    if amounts != [] {
      OrZeroIsSum(amounts[..|amounts| - 1]);
    }
  }

  /** The amounts the user total adds up: the user's COMPLETED payments. */
  function CompletedAmounts(payments: seq<Payment>, userId: int): (r: seq<real>)
    ensures |r| <= |payments|
    ensures (forall i | 0 <= i < |payments| :: payments[i].amount >= 0.0) ==> forall j | 0 <= j < |r| :: r[j] >= 0.0
    ensures (forall i | 0 <= i < |payments| :: payments[i].userId != userId || payments[i].status != COMPLETED) ==> r == []
  {
    if payments == [] then []
    else
      var p := payments[|payments| - 1];
      var rest := CompletedAmounts(payments[..|payments| - 1], userId);
      if p.userId == userId && p.status == COMPLETED then rest + [p.amount] else rest
  }

  /** `getTotalAmountByUser` over the rows of the table: never negative when
      no amount is, and 0 (not NULL) for a user without a COMPLETED payment. */
  function TotalAmountByUser(payments: seq<Payment>, userId: int): (r: real)
    ensures (forall i | 0 <= i < |payments| :: payments[i].amount >= 0.0) ==> r >= 0.0
    ensures (forall i | 0 <= i < |payments| :: payments[i].userId != userId || payments[i].status != COMPLETED) ==> r == 0.0
  {
    OrZeroIsSum(CompletedAmounts(payments, userId));
    OrZero(SqlSum(CompletedAmounts(payments, userId)))
  }

  /** A payment that is not COMPLETED adds nothing to its user's total, and a
      COMPLETED one adds its amount. */
  lemma TotalAmountByUserAppend(payments: seq<Payment>, p: Payment, userId: int)
    ensures TotalAmountByUser(payments + [p], userId)
      == TotalAmountByUser(payments, userId) + (if p.userId == userId && p.status == COMPLETED then p.amount else 0.0)
  {
    assert (payments + [p])[..|payments|] == payments;
    OrZeroIsSum(CompletedAmounts(payments + [p], userId));
    OrZeroIsSum(CompletedAmounts(payments, userId));
    var rest := CompletedAmounts(payments, userId);
    assert (rest + [p.amount])[..|rest|] == rest;
  }

  // ---------------------------------------------------------------------
  // The service

  /** The provider reference a confirmation looks a row up by. */
  datatype ProviderRef = StripeIntent(intentId: string) | PayPalOrder(orderId: string)

  predicate Carries(table: map<int, Payment>, id: int, ref: ProviderRef)
  {
    && id in table
    && match ref
       case StripeIntent(i) => table[id].stripePaymentIntentId == Some(i)
       case PayPalOrder(o) => table[id].paypalOrderId == Some(o)
  }

  /** Row `id` is the only row carrying `ref`. */
  ghost predicate OnlyCarrier(table: map<int, Payment>, id: int, ref: ProviderRef)
  {
    Carries(table, id, ref) && forall other :: Carries(table, other, ref) ==> other == id
  }


  /** `PaymentService` over its payment table; `nextId` stands for the
      database's id generator. Every method is one transaction: a
      `RuntimeException` rolls it back, a checked `StripeException` does
      not. */
  class PaymentService {
    var payments: map<int, Payment>
    var nextId: int

    ghost predicate Valid()
      reads this
    {
      forall id | id in payments ::
        && id < nextId
        && StartsWith(payments[id].transactionId, TXN_PREFIX)
        && Stamped(payments[id])
    }

    constructor ()
      ensures Valid() && payments == map[]
    {
      payments := map[];
      nextId := 1;
    }

    /** `findByStripePaymentIntentId` and `findByPaypalOrderId`: the one row
        carrying `ref`; no row is "not found" and several rows are refused
        by the framework. */
    method FindByReference(ref: ProviderRef) returns (r: Result<int, PaymentError>)
      ensures r == Err(PaymentNotFound) <==> forall id :: !Carries(payments, id, ref)
      ensures r == Err(NonUniqueResult) <==>
        exists a, b :: a != b && Carries(payments, a, ref) && Carries(payments, b, ref)
      ensures r.Ok? ==> OnlyCarrier(payments, r.value, ref)
      ensures r.Ok? || r == Err(PaymentNotFound) || r == Err(NonUniqueResult)
    {
      if !exists id | id in payments :: Carries(payments, id, ref) {
        return Err(PaymentNotFound);
      }
      var id :| id in payments && Carries(payments, id, ref);
      if exists other | other in payments :: other != id && Carries(payments, other, ref) {
        return Err(NonUniqueResult);
      }
      r := Ok(id);
    }

    /** `createPayment`: a new row with a "TXN_" transaction id. */
    method CreatePayment(userId: int, amount: real, paymentMethod: PaymentMethod, description: string,
                         stamp: string, suffix: string) returns (id: int)
      requires Valid()
      modifies this
      ensures Valid()
      ensures id !in old(payments)
      ensures payments == old(payments)[id := NewPayment(userId, amount, paymentMethod, description, TransactionId(stamp, suffix))]
    {
      var p := NewPayment(userId, amount, paymentMethod, description, TransactionId(stamp, suffix));
      id := nextId;
      payments := payments[id := p];
      nextId := nextId + 1;
    }

    /** `createStripePayment`. `intent` is what `PaymentIntent.create`
        answers: the intent id or the message of its `StripeException`.
        `sent` is the amount in paise the request carries. The exception is
        a checked one, so the row saved by `createPayment` stays. */
    method CreateStripePayment(userId: int, amount: real, description: string, stamp: string, suffix: string,
                               intent: Result<string, string>) returns (r: Result<int, PaymentError>, sent: int)
      requires Valid()
      modifies this
      ensures Valid()
      ensures sent == StripeMinorUnits(amount)
      ensures intent.Err? ==> r == Err(ProviderFailure(intent.error))
      ensures intent.Ok? ==> r.Ok?
      ensures exists id | id !in old(payments) ::
        var row := NewPayment(userId, amount, STRIPE, description, TransactionId(stamp, suffix));
        && (intent.Err? ==> payments == old(payments)[id := row])
        && (intent.Ok? ==> r.value == id && payments == old(payments)[id := row.(stripePaymentIntentId := Some(intent.value))])
    {
      var id := CreatePayment(userId, amount, STRIPE, description, stamp, suffix);
      sent := StripeMinorUnits(amount);
      if intent.Err? {
        return Err(ProviderFailure(intent.error)), sent;
      }
      var p := payments[id].(stripePaymentIntentId := Some(intent.value), status := PENDING);
      payments := payments[id := p];
      r := Ok(id);
    }

    /** `createPayPalPayment`. `order` is the id of the created order or the
        message of the failure; every failure is rethrown as a
        `RuntimeException`, which rolls the new row back. */
    method CreatePayPalPayment(userId: int, amount: real, description: string, stamp: string, suffix: string,
                               order: Result<string, string>) returns (r: Result<int, PaymentError>)
      requires Valid()
      modifies this
      ensures Valid()
      ensures order.Err? ==> r == Err(PayPalCreateFailed(ProviderFailure(order.error))) && payments == old(payments)
      ensures order.Ok? ==>
        && r.Ok? && r.value !in old(payments)
        && payments == old(payments)[r.value := NewPayment(userId, amount, PAYPAL, description, TransactionId(stamp, suffix))
                                                 .(paypalOrderId := Some(order.value))]
    {
      if order.Err? {
        return Err(PayPalCreateFailed(ProviderFailure(order.error)));
      }
      var id := CreatePayment(userId, amount, PAYPAL, description, stamp, suffix);
      var p := payments[id].(paypalOrderId := Some(order.value), status := PENDING);
      payments := payments[id := p];
      r := Ok(id);
    }

    /** `confirmStripePayment`. The intent is retrieved first (`retrieved`
        is its status or the message of the failure), then the row is looked
        up by intent id. */
    method ConfirmStripePayment(intentId: string, retrieved: Result<string, string>, now: int)
      returns (r: Result<Payment, PaymentError>)
      requires Valid()
      modifies this
      ensures Valid() && nextId == old(nextId)
      ensures r.Err? ==> payments == old(payments)
      ensures retrieved.Err? ==> r == Err(ProviderFailure(retrieved.error))
      ensures retrieved.Ok? && (forall id :: !Carries(old(payments), id, StripeIntent(intentId))) ==>
        r == Err(PaymentNotFound)
      ensures retrieved.Ok? && (exists a, b :: a != b && Carries(old(payments), a, StripeIntent(intentId))
                                               && Carries(old(payments), b, StripeIntent(intentId))) ==>
        r == Err(NonUniqueResult)
      ensures forall id | retrieved.Ok? && OnlyCarrier(old(payments), id, StripeIntent(intentId)) ::
        && r == Ok(StripeConfirmed(old(payments)[id], retrieved.value, now))
        && payments == old(payments)[id := r.value]
    {
      if retrieved.Err? {
        return Err(ProviderFailure(retrieved.error));
      }
      var found := FindByReference(StripeIntent(intentId));
      if found.Err? {
        return Err(found.error);
      }
      var id := found.value;
      var p := StripeConfirmed(payments[id], retrieved.value, now);
      payments := payments[id := p];
      r := Ok(p);
    }

    /** `confirmPayPalPayment`. The row is looked up first, then the order
        is captured (`captured` is its status or the message of the
        failure); every failure is rethrown wrapped. */
    method ConfirmPayPalPayment(orderId: string, captured: Result<string, string>, now: int)
      returns (r: Result<Payment, PaymentError>)
      requires Valid()
      modifies this
      ensures Valid() && nextId == old(nextId)
      ensures r.Err? ==> payments == old(payments)
      ensures (forall id :: !Carries(old(payments), id, PayPalOrder(orderId))) ==>
        r == Err(PayPalConfirmFailed(PaymentNotFound))
      ensures (exists a, b :: a != b && Carries(old(payments), a, PayPalOrder(orderId))
                                     && Carries(old(payments), b, PayPalOrder(orderId))) ==>
        r == Err(PayPalConfirmFailed(NonUniqueResult))
      ensures forall id | OnlyCarrier(old(payments), id, PayPalOrder(orderId)) ::
        && (captured.Err? ==> r == Err(PayPalConfirmFailed(ProviderFailure(captured.error))))
        && (captured.Ok? ==> r == Ok(PayPalConfirmed(old(payments)[id], captured.value, now))
                             && payments == old(payments)[id := r.value])
    {
      var found := FindByReference(PayPalOrder(orderId));
      if found.Err? {
        return Err(PayPalConfirmFailed(found.error));
      }
      if captured.Err? {
        return Err(PayPalConfirmFailed(ProviderFailure(captured.error)));
      }
      var id := found.value;
      var p := PayPalConfirmed(payments[id], captured.value, now);
      payments := payments[id := p];
      r := Ok(p);
    }

    /** `cancelPayment`. */
    method CancelPayment(paymentId: int) returns (r: Result<Payment, PaymentError>)
      requires Valid()
      modifies this
      ensures Valid() && nextId == old(nextId)
      ensures paymentId !in old(payments) ==> r == Err(PaymentNotFound)
      ensures paymentId in old(payments) ==> r == Cancelled(old(payments)[paymentId])
      ensures r.Ok? ==> payments == old(payments)[paymentId := r.value]
      ensures r.Err? ==> payments == old(payments)
    {
      if paymentId !in payments {
        return Err(PaymentNotFound);
      }
      r := Cancelled(payments[paymentId]);
      if r.Ok? {
        payments := payments[paymentId := r.value];
      }
    }

    /** `refundPayment`. */
    method RefundPayment(paymentId: int) returns (r: Result<Payment, PaymentError>)
      requires Valid()
      modifies this
      ensures Valid() && nextId == old(nextId)
      ensures paymentId !in old(payments) ==> r == Err(PaymentNotFound)
      ensures paymentId in old(payments) ==> r == Refunded(old(payments)[paymentId])
      ensures r.Ok? ==> payments == old(payments)[paymentId := r.value]
      ensures r.Err? ==> payments == old(payments)
    {
      if paymentId !in payments {
        return Err(PaymentNotFound);
      }
      r := Refunded(payments[paymentId]);
      if r.Ok? {
        payments := payments[paymentId := r.value];
      }
    }
  }
}
