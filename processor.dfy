/** The payment processor as the adapter sees it: the records its API takes
    and returns, and a stand-in for its payment store on which the two
    fetch-then-capture sequences run. Order creation and refunds are single
    calls whose outcome the handlers receive as an input; fetch and capture
    change the processor's state, so they are methods of `Gateway`. */
module Processor {
  import opened Common

  /** The body of `orders.create`. `notes` is absent when the caller sends none. */
  datatype OrderRequest = OrderRequest(
    amount: int,
    currency: string,
    receipt: string,
    paymentCapture: bool,
    notes: Option<map<string, string>>)

  /** An order as the processor returns it; `amount` is in minor units. */
  datatype Order = Order(id: string, amount: int, currency: string)

  /** A payment as `payments.fetch` and `payments.capture` return it. */
  datatype Payment = Payment(
    id: string,
    amount: int,
    currency: string,
    status: string,
    invoiceId: Option<string>)

  /** The options of `payments.refund`: an absent amount asks for a full refund. */
  datatype RefundRequest = RefundRequest(amount: Option<int>)

  /** A refund as the processor returns it. */
  datatype Refund = Refund(id: string, amount: Option<int>, currency: string)

  const CapturedStatus: string := "captured"

  /** One call made to the processor's payments API. */
  datatype Call = FetchCall(paymentId: string) | CaptureCall(paymentId: string, amount: int, currency: string)

  /** The processor accepts a capture of an authorized payment for its own
      amount in its own currency. */
  predicate CaptureAccepted(payments: map<string, Payment>, paymentId: string, amount: int, currency: string) {
    && paymentId in payments
    && payments[paymentId].status == "authorized"
    && payments[paymentId].amount == amount
    && payments[paymentId].currency == currency
  }

  /** The processor's payment store. `calls` records every call made to it, in
      order; `refusal` is the error it rejects a fetch or a capture with. */
  class Gateway {
    var payments: map<string, Payment>
    var calls: seq<Call>
    const refusal: Failure

    constructor (payments: map<string, Payment>, refusal: Failure)
      ensures this.payments == payments && this.refusal == refusal && calls == []
    {
      this.payments := payments;
      this.refusal := refusal;
      calls := [];
    }

    /** `payments.fetch(paymentId)`: the stored payment, or a refusal. */
    method Fetch(paymentId: string) returns (r: Outcome<Payment>)
      modifies this`calls
      ensures calls == old(calls) + [FetchCall(paymentId)]
      ensures r == if paymentId in payments then Ok(payments[paymentId]) else Err(refusal)
    {
      calls := calls + [FetchCall(paymentId)];
      r := if paymentId in payments then Ok(payments[paymentId]) else Err(refusal);
    }

    /** `payments.capture(paymentId, amount, currency)`: an accepted capture
        marks the payment captured and returns it; anything else is refused
        and changes nothing. */
    method Capture(paymentId: string, amount: int, currency: string) returns (r: Outcome<Payment>)
      modifies this
      ensures calls == old(calls) + [CaptureCall(paymentId, amount, currency)]
      ensures CaptureAccepted(old(payments), paymentId, amount, currency) ==>
        && r == Ok(old(payments)[paymentId].(status := CapturedStatus))
        && payments == old(payments)[paymentId := r.value]
      ensures !CaptureAccepted(old(payments), paymentId, amount, currency) ==>
        r == Err(refusal) && payments == old(payments)
    {
      calls := calls + [CaptureCall(paymentId, amount, currency)];
      if CaptureAccepted(payments, paymentId, amount, currency) {
        var captured := payments[paymentId].(status := CapturedStatus);
        payments := payments[paymentId := captured];
        r := Ok(captured);
      } else {
        r := Err(refusal);
      }
    }
  }
}
