/** The transaction-refund webhook: check the payment id and the amount, ask
    the processor for a refund of that amount in paise, and answer with a
    refund event either way. */
module RefundSession {
  import opened Common
  import opened TransactionSchema
  import opened Processor
  import opened SessionWire
  import RazorpayService

  /** The request body; a field left out is `None`. */
  datatype RefundBody = RefundBody(paymentId: Option<string>, amount: Option<real>, currency: Option<string>)

  predicate HasRequiredFields(body: RefundBody) {
    Given(body.paymentId) && GivenAmount(body.amount)
  }

  /** The field a rejection names: the payment id whenever it is missing. */
  function MissingField(body: RefundBody): (field: string)
    requires !HasRequiredFields(body)
    ensures field == "payment_id" <==> !Given(body.paymentId)
    ensures field != "payment_id" ==> field == "amount" && !GivenAmount(body.amount)
  {
    if !Given(body.paymentId) then "payment_id" else "amount"
  }

  /** The refund asked for: always a partial refund of the requested amount. */
  function HandlerRefundRequest(body: RefundBody): (req: RefundRequest)
    requires HasRequiredFields(body)
    ensures req.amount == Some(MinorUnits(body.amount.value))
  {
    RefundRequest(Some(MinorUnits(body.amount.value)))
  }

  /** The handler asks for the same refund the service's `refundPayment` would. */
  lemma SameRequestAsService(body: RefundBody)
    requires HasRequiredFields(body)
    ensures HandlerRefundRequest(body) == RazorpayService.RefundRequestFor(body.amount)
  {
  }

  /** The body reporting a refund: the refund id as PSP reference and the
      refunded amount (0 when the processor omits it) in major units. */
  function RefundSucceeded(refund: Refund): (b: SessionBody)
    ensures b.data == Some(EmptyData) && b.errors == []
    ensures b.transactionEvent.Some?
    ensures var ev := b.transactionEvent.value;
      && ev.eventType == RefundSuccess && ev.pspReference == refund.id && ev.externalUrl.None?
      && ev.amount == Some(Money(if refund.amount.Some? then MajorUnits(refund.amount.value) else 0.0, refund.currency))
  {
    var minor := if refund.amount.Some? then refund.amount.value else 0;
    SessionBody(
      Some(EmptyData),
      Some(SessionEvent(RefundSuccess, refund.id, "Refund processed successfully",
                        Some(Money(MajorUnits(minor), refund.currency)), None)),
      [])
  }

  /** The body reporting a refused refund: the payment id as PSP reference, the
      requested amount echoed, and the error both in the event and as a
      GRAPHQL_ERROR. */
  function RefundFailed(body: RefundBody, e: Failure): (b: SessionBody)
    requires HasRequiredFields(body)
    ensures b.data == Some(EmptyData)
    ensures b.errors == [WireError(None, e.message, GraphqlError)]
    ensures b.transactionEvent.Some?
    ensures var ev := b.transactionEvent.value;
      && ev.eventType == RefundFailure && ev.pspReference == body.paymentId.value
      && ev.message == e.message && ev.externalUrl.None?
      && ev.amount == Some(Money(body.amount.value, Default(body.currency, DefaultCurrency)))
  {
    SessionBody(
      Some(EmptyData),
      Some(SessionEvent(RefundFailure, body.paymentId.value, e.message,
                        Some(Money(body.amount.value, Default(body.currency, DefaultCurrency))), None)),
      [WireError(None, e.message, GraphqlError)])
  }

  /** The webhook; `refunds` is the processor's answer to a refund request. */
  function Handle(body: RefundBody, refunds: (string, RefundRequest) -> Outcome<Refund>): (r: Reply<SessionBody>)
    ensures !HasRequiredFields(body) ==> r == Reply(400, Rejected(MissingField(body), "Missing required field"))
    ensures r.status == 400 <==> !HasRequiredFields(body)
    ensures HasRequiredFields(body) ==>
      && r.status == 200
      && match refunds(body.paymentId.value, HandlerRefundRequest(body))
         case Ok(refund) => r.body == RefundSucceeded(refund)
         case Err(e) => r.body == RefundFailed(body, e)
  {
    if !HasRequiredFields(body) then
      Reply(400, Rejected(MissingField(body), "Missing required field"))
    else
      match refunds(body.paymentId.value, HandlerRefundRequest(body))
      case Ok(refund) => Reply(200, RefundSucceeded(refund))
      case Err(e) => Reply(200, RefundFailed(body, e))
  }

  /** A refund the processor grants for exactly the requested paise is
      reported within half a paisa of the requested amount. */
  lemma FullAmountReported(body: RefundBody, refund: Refund)
    requires HasRequiredFields(body)
    requires refund.amount == HandlerRefundRequest(body).amount
    ensures var reported := RefundSucceeded(refund).transactionEvent.value.amount.value.amount;
      -0.005 < reported - body.amount.value <= 0.005
  {
  }
}
