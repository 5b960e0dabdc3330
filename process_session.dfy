/** The transaction-process-session webhook: fetch the payment the storefront
    reports, capture it for its own amount unless it is already captured, and
    answer with a charge event either way. */
module ProcessSession {
  import opened Common
  import opened TransactionSchema
  import opened Processor
  import opened SessionWire

  /** The request body; a field left out is `None`. */
  datatype ProcessBody = ProcessBody(paymentId: Option<string>, amount: Option<real>, currency: Option<string>)

  const InvoicesDashboard: string := "https://dashboard.razorpay.com/app/invoices/"

  /** The dashboard link of the payment's invoice, when it has one. */
  function InvoiceUrl(p: Payment): (url: Option<string>)
    ensures url.Some? <==> Given(p.invoiceId)
    ensures url.Some? ==> url.value == InvoicesDashboard + p.invoiceId.value
  {
    if Given(p.invoiceId) then Some(InvoicesDashboard + p.invoiceId.value) else None
  }

  /** The body reporting a captured payment: its id as PSP reference and its
      amount converted back to major units. */
  function ChargeSucceeded(p: Payment): (b: SessionBody)
    ensures b.data == Some(EmptyData) && b.errors == []
    ensures b.transactionEvent.Some?
    ensures var ev := b.transactionEvent.value;
      && ev.eventType == ChargeSuccess && ev.pspReference == p.id
      && ev.amount == Some(Money(MajorUnits(p.amount), p.currency))
      && ev.externalUrl == InvoiceUrl(p)
  {
    SessionBody(
      Some(EmptyData),
      Some(SessionEvent(ChargeSuccess, p.id, "Payment captured successfully",
                        Some(Money(MajorUnits(p.amount), p.currency)), InvoiceUrl(p))),
      [])
  }

  /** The body reporting a failed fetch or capture: the requested payment id as
      PSP reference, the requested amount echoed when truthy, and the error
      both in the event and as a GRAPHQL_ERROR. */
  function ChargeFailed(body: ProcessBody, e: Failure): (b: SessionBody)
    requires Given(body.paymentId)
    ensures b.data == Some(EmptyData)
    ensures b.errors == [WireError(None, e.message, GraphqlError)]
    ensures b.transactionEvent.Some?
    ensures var ev := b.transactionEvent.value;
      && ev.eventType == ChargeFailure && ev.pspReference == body.paymentId.value
      && ev.message == e.message && ev.externalUrl.None?
      && (ev.amount.Some? <==> GivenAmount(body.amount))
      && (ev.amount.Some? ==> ev.amount.value == Money(body.amount.value, Default(body.currency, DefaultCurrency)))
  {
    var amount := if GivenAmount(body.amount) then Some(Money(body.amount.value, Default(body.currency, DefaultCurrency))) else None;
    SessionBody(
      Some(EmptyData),
      Some(SessionEvent(ChargeFailure, body.paymentId.value, e.message, amount, None)),
      [WireError(None, e.message, GraphqlError)])
  }

  /** The webhook over the processor's payment store. A request without a
      payment id touches nothing; otherwise the payment is fetched and, unless
      already captured, captured for its own amount in the requested currency
      (INR when none is sent). Every answered request gets status 200 and one
      charge event. */
  method Handle(gw: Gateway, body: ProcessBody) returns (r: Reply<SessionBody>)
    modifies gw
    ensures !Given(body.paymentId) ==>
      && r == Reply(400, Rejected("payment_id", "Missing payment_id"))
      && gw.calls == old(gw.calls) && gw.payments == old(gw.payments)
    ensures Given(body.paymentId) ==>
      var id := body.paymentId.value;
      && r.status == 200
      && (id !in old(gw.payments) ==>
            && r.body == ChargeFailed(body, gw.refusal)
            && gw.calls == old(gw.calls) + [FetchCall(id)]
            && gw.payments == old(gw.payments))
      && (id in old(gw.payments) && old(gw.payments)[id].status == CapturedStatus ==>
            && r.body == ChargeSucceeded(old(gw.payments)[id])
            && gw.calls == old(gw.calls) + [FetchCall(id)]
            && gw.payments == old(gw.payments))
      && (id in old(gw.payments) && old(gw.payments)[id].status != CapturedStatus ==>
            var p := old(gw.payments)[id];
            var currency := Default(body.currency, DefaultCurrency);
            && gw.calls == old(gw.calls) + [FetchCall(id), CaptureCall(id, p.amount, currency)]
            && (CaptureAccepted(old(gw.payments), id, p.amount, currency) ==>
                  r.body == ChargeSucceeded(p.(status := CapturedStatus))
                  && gw.payments == old(gw.payments)[id := p.(status := CapturedStatus)])
            && (!CaptureAccepted(old(gw.payments), id, p.amount, currency) ==>
                  r.body == ChargeFailed(body, gw.refusal) && gw.payments == old(gw.payments)))
    ensures r.body.transactionEvent.Some? ==>
      r.body.transactionEvent.value.eventType in {ChargeSuccess, ChargeFailure}
  {
    if !Given(body.paymentId) {
      return Reply(400, Rejected("payment_id", "Missing payment_id"));
    }
    var id := body.paymentId.value;
    var fetched := gw.Fetch(id);
    if fetched.Err? {
      return Reply(200, ChargeFailed(body, fetched.error));
    }
    var payment := fetched.value;
    var capturedPayment := payment;
    if payment.status != CapturedStatus {
      var captured := gw.Capture(id, payment.amount, Default(body.currency, DefaultCurrency));
      if captured.Err? {
        return Reply(200, ChargeFailed(body, captured.error));
      }
      capturedPayment := captured.value;
    }
    r := Reply(200, ChargeSucceeded(capturedPayment));
  }

  /** A payment created at initialisation for `major` rupees and captured for
      that order amount is reported back within half a paisa of `major`. */
  lemma ReportedAmountMatchesInitialized(major: real, p: Payment)
    requires p.amount == MinorUnits(major)
    ensures var reported := ChargeSucceeded(p).transactionEvent.value.amount.value.amount;
      -0.005 < reported - major <= 0.005
  {
  }

  /** Once a payment is captured, every later process call for it reports the
      same success and asks the processor for no further capture. */
  method HandleTwice(gw: Gateway, body: ProcessBody) returns (first: Reply<SessionBody>, second: Reply<SessionBody>)
    modifies gw
    ensures Given(body.paymentId) && first.body.transactionEvent.Some? && first.body.transactionEvent.value.eventType == ChargeSuccess ==>
      && second == first
      && |gw.calls| > 0 && gw.calls[|gw.calls| - 1] == FetchCall(body.paymentId.value)
  {
    first := Handle(gw, body);
    ghost var callsBefore := gw.calls;
    second := Handle(gw, body);
    if first.body.transactionEvent.Some? && first.body.transactionEvent.value.eventType == ChargeSuccess {
      assert gw.calls == callsBefore + [FetchCall(body.paymentId.value)];
    }
  }
}
