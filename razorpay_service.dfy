/** `RazorpayService`: order creation, payment processing (fetch, then capture
    unless already captured) and refunds, each folding the processor's answer
    into a `{ success, <payload>, error }` record. */
module RazorpayService {
  import opened Common
  import opened Processor

  /** What a caller asks `createOrder` for; `amount` is in major units. */
  datatype OrderData = OrderData(
    amount: real,
    currency: string,
    receipt: string,
    notes: Option<map<string, string>>)

  /** What a caller asks `processPayment` for. */
  datatype PaymentData = PaymentData(paymentId: string, amount: Option<real>, currency: Option<string>)

  /** `{ success, <payload>, error }`, with `null` as `None`. */
  datatype ServiceResult<T> = ServiceResult(success: bool, payload: Option<T>, error: Option<string>) {
    /** A success carries a payload and no error; a failure an error and no payload. */
    predicate WellFormed() {
      && (success ==> payload.Some? && error.None?)
      && (!success ==> payload.None? && error.Some?)
    }
  }

  function Succeeded<T>(v: T): ServiceResult<T> {
    ServiceResult(true, Some(v), None)
  }

  function Failed<T>(message: string): ServiceResult<T> {
    ServiceResult(false, None, Some(message))
  }

  /** The order `createOrder` sends: the amount in paise (within half a paisa
      of the major-unit amount), capture on payment, and the caller's notes or
      an empty set of notes. */
  function OrderRequestFor(data: OrderData): (req: OrderRequest)
    ensures req.amount == MinorUnits(data.amount)
    ensures -0.005 < MajorUnits(req.amount) - data.amount <= 0.005
    ensures req.currency == data.currency && req.receipt == data.receipt
    ensures req.paymentCapture
    ensures req.notes.Some? && (data.notes.Some? ==> req.notes == data.notes)
    ensures data.notes.None? ==> req.notes == Some(map[])
  {
    MinorUnitsRoundTrip(data.amount);
    OrderRequest(
      MinorUnits(data.amount),
      data.currency,
      data.receipt,
      true,
      Some(if data.notes.Some? then data.notes.value else map[]))
  }

  /** `createOrder`: the processor's order on success; on failure no order and
      the processor's message, or a fixed one when it gives none. */
  function CreateOrder(data: OrderData, orders: OrderRequest -> Outcome<Order>): (r: ServiceResult<Order>)
    ensures r.WellFormed()
    ensures r.success <==> orders(OrderRequestFor(data)).Ok?
    ensures r.success ==> r.payload.value == orders(OrderRequestFor(data)).value
    ensures !r.success ==>
      r.error.value == MessageOr(orders(OrderRequestFor(data)).error, "Failed to create Razorpay order")
    ensures !r.success ==> r.error.value != ""
  {
    match orders(OrderRequestFor(data))
    case Ok(order) => Succeeded(order)
    case Err(e) => Failed(MessageOr(e, "Failed to create Razorpay order"))
  }

  /** The options `refundPayment` sends: a truthy amount in paise, otherwise
      no amount, which the processor reads as a full refund. */
  function RefundRequestFor(amount: Option<real>): (req: RefundRequest)
    ensures req.amount.Some? <==> GivenAmount(amount)
    ensures req.amount.Some? ==> req.amount.value == MinorUnits(amount.value)
  {
    RefundRequest(if GivenAmount(amount) then Some(MinorUnits(amount.value)) else None)
  }

  /** `refundPayment`: the processor's refund on success, otherwise its message
      or a fixed one. */
  function RefundPayment(paymentId: string, amount: Option<real>, refunds: (string, RefundRequest) -> Outcome<Refund>)
    : (r: ServiceResult<Refund>)
    ensures r.WellFormed()
    ensures r.success <==> refunds(paymentId, RefundRequestFor(amount)).Ok?
    ensures r.success ==> r.payload.value == refunds(paymentId, RefundRequestFor(amount)).value
    ensures !r.success ==>
      r.error.value == MessageOr(refunds(paymentId, RefundRequestFor(amount)).error, "Failed to refund payment")
  {
    match refunds(paymentId, RefundRequestFor(amount))
    case Ok(refund) => Succeeded(refund)
    case Err(e) => Failed(MessageOr(e, "Failed to refund payment"))
  }

  /** `processPayment`: fetch the payment; capture it, for its own amount and in
      the requested currency or else its own, unless it is already captured.
      The result is the captured payment, or the fetched one when no capture
      was needed; a successful result is always a captured payment that the
      processor now holds. */
  method ProcessPayment(gw: Gateway, data: PaymentData) returns (r: ServiceResult<Payment>)
    modifies gw
    ensures r.WellFormed()
    ensures r.success ==> r.payload.value.status == CapturedStatus
    ensures r.success ==> data.paymentId in gw.payments && gw.payments[data.paymentId] == r.payload.value
    ensures !r.success ==> r.error == Some(MessageOr(gw.refusal, "Failed to process payment"))
    ensures data.paymentId !in old(gw.payments) ==>
      && !r.success
      && gw.payments == old(gw.payments)
      && gw.calls == old(gw.calls) + [FetchCall(data.paymentId)]
    ensures data.paymentId in old(gw.payments) && old(gw.payments)[data.paymentId].status == CapturedStatus ==>
      && r == Succeeded(old(gw.payments)[data.paymentId])
      && gw.payments == old(gw.payments)
      && gw.calls == old(gw.calls) + [FetchCall(data.paymentId)]
    ensures data.paymentId in old(gw.payments) && old(gw.payments)[data.paymentId].status != CapturedStatus ==>
      var p := old(gw.payments)[data.paymentId];
      var currency := Or(data.currency, p.currency);
      && gw.calls == old(gw.calls) + [FetchCall(data.paymentId), CaptureCall(data.paymentId, p.amount, currency)]
      && (CaptureAccepted(old(gw.payments), data.paymentId, p.amount, currency) ==>
            r == Succeeded(p.(status := CapturedStatus))
            && gw.payments == old(gw.payments)[data.paymentId := p.(status := CapturedStatus)])
      && (!CaptureAccepted(old(gw.payments), data.paymentId, p.amount, currency) ==>
            !r.success && gw.payments == old(gw.payments))
  {
    var fetched := gw.Fetch(data.paymentId);
    if fetched.Err? {
      return Failed(MessageOr(fetched.error, "Failed to process payment"));
    }
    var payment := fetched.value;
    var capturedPayment := payment;
    if payment.status != CapturedStatus {
      var captured := gw.Capture(data.paymentId, payment.amount, Or(data.currency, payment.currency));
      if captured.Err? {
        return Failed(MessageOr(captured.error, "Failed to process payment"));
      }
      capturedPayment := captured.value;
    }
    r := Succeeded(capturedPayment);
  }

  /** Processing a payment again after it succeeded only fetches: no second
      capture is asked for, and the same payment comes back. */
  method ProcessPaymentTwice(gw: Gateway, data: PaymentData)
    returns (first: ServiceResult<Payment>, second: ServiceResult<Payment>)
    modifies gw
    ensures first.success ==> second == first
    ensures first.success ==> |gw.calls| > 0 && gw.calls[|gw.calls| - 1] == FetchCall(data.paymentId)
  {
    first := ProcessPayment(gw, data);
    ghost var callsBefore := gw.calls;
    second := ProcessPayment(gw, data);
    if first.success {
      assert gw.calls == callsBefore + [FetchCall(data.paymentId)];
    }
  }

  /** The scenario of the service's own tests: a payment fetched as authorized
      for 200 paise in INR is captured with (id, 200, "INR") and comes back
      captured. */
  method AuthorizedPaymentIsCaptured(id: string) returns (r: ServiceResult<Payment>)
    ensures r == Succeeded(Payment(id, 200, "INR", CapturedStatus, None))
  {
    var gw := new Gateway(map[id := Payment(id, 200, "INR", "authorized", None)], Failure("", None));
    r := ProcessPayment(gw, PaymentData(id, Some(2.0), Some("INR")));
    assert gw.calls == [FetchCall(id), CaptureCall(id, 200, "INR")];
  }
}
