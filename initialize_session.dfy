/** The transaction-initialize-session webhook: check the amount and the
    transaction id, create a processor order whose receipt is that id, and
    answer with the order or a processor error. */
module InitializeSession {
  import opened Common
  import opened Processor
  import opened SessionWire

  /** The request body; a field left out is `None`. */
  datatype InitializeBody = InitializeBody(
    amount: Option<real>,
    currency: Option<string>,
    id: Option<string>,
    idempotencyKey: Option<string>)

  predicate HasRequiredFields(body: InitializeBody) {
    GivenAmount(body.amount) && Given(body.id)
  }

  /** The field a rejection names: the amount whenever it is missing, even
      when the id is missing too. */
  function MissingField(body: InitializeBody): (field: string)
    requires !HasRequiredFields(body)
    ensures field == "amount" <==> !GivenAmount(body.amount)
    ensures field != "amount" ==> field == "id" && !Given(body.id)
  {
    if !GivenAmount(body.amount) then "amount" else "id"
  }

  /** The order the stage asks for: the amount in paise, the currency or INR,
      the transaction id as receipt, and the id and idempotency key as notes. */
  function InitializeOrderRequest(body: InitializeBody): (req: OrderRequest)
    requires HasRequiredFields(body)
    ensures req.amount == MinorUnits(body.amount.value)
    ensures req.currency == Default(body.currency, DefaultCurrency)
    ensures req.receipt == body.id.value && req.paymentCapture
    ensures req.notes == Some(map["saleor_id" := body.id.value, "idempotencyKey" := Or(body.idempotencyKey, "")])
  {
    OrderRequest(
      MinorUnits(body.amount.value),
      Default(body.currency, DefaultCurrency),
      body.id.value,
      true,
      Some(map["saleor_id" := body.id.value, "idempotencyKey" := Or(body.idempotencyKey, "")]))
  }

  /** The webhook. `keyId` is the configured processor key id, echoed to the
      storefront; `orders` is the processor's answer to an order request. */
  function Handle(body: InitializeBody, keyId: Option<string>, orders: OrderRequest -> Outcome<Order>)
    : (r: Reply<SessionBody>)
    ensures !HasRequiredFields(body) ==> r == Reply(400, Rejected(MissingField(body), "Missing required field"))
    ensures HasRequiredFields(body) && orders(InitializeOrderRequest(body)).Ok? ==>
      var order := orders(InitializeOrderRequest(body)).value;
      r == Reply(200, SessionBody(Some(OrderCreated(order.id, order.amount, order.currency, keyId)), None, []))
    ensures HasRequiredFields(body) && orders(InitializeOrderRequest(body)).Err? ==>
      var e := orders(InitializeOrderRequest(body)).error;
      r == Reply(500, SessionBody(None, None, [WireError(None, e.message, GraphqlError)]))
    ensures r.status == 200 <==> r.body.errors == []
    ensures r.body.transactionEvent.None?
  {
    if !HasRequiredFields(body) then
      Reply(400, Rejected(MissingField(body), "Missing required field"))
    else
      match orders(InitializeOrderRequest(body))
      case Ok(order) =>
        Reply(200, SessionBody(Some(OrderCreated(order.id, order.amount, order.currency, keyId)), None, []))
      case Err(e) =>
        Reply(500, SessionBody(None, None, [WireError(None, e.message, GraphqlError)]))
  }

  /** A rejected request creates no order: the reply does not depend on the processor. */
  lemma RejectionCreatesNoOrder(
    body: InitializeBody, keyId: Option<string>,
    orders1: OrderRequest -> Outcome<Order>, orders2: OrderRequest -> Outcome<Order>)
    requires !HasRequiredFields(body)
    ensures Handle(body, keyId, orders1) == Handle(body, keyId, orders2)
  {
  }

  /** The scenario of an initialize call for 2.00 INR on transaction "txn-1":
      the processor is asked for 200 paise in INR with receipt "txn-1". */
  lemma TwoRupeeInitialize(key: Option<string>)
    ensures var req := InitializeOrderRequest(InitializeBody(Some(2.0), Some("INR"), Some("txn-1"), key));
      req.amount == 200 && req.currency == "INR" && req.receipt == "txn-1"
  {
  }
}
