/** The payment-gateway-config endpoint: create a processor order for a
    checkout and hand the storefront what its checkout widget needs. */
module GatewayConfigRoute {
  import opened Common
  import opened Processor

  /** The request body; a field left out is `None`. */
  datatype ConfigBody = ConfigBody(
    amount: Option<real>,
    currency: Option<string>,
    checkoutId: Option<string>,
    orderId: Option<string>)

  datatype ConfigReply =
    | ConfigError(error: string)
    | ConfigOrder(keyId: Option<string>, amount: int, currency: string, orderId: string)

  predicate HasRequiredFields(body: ConfigBody) {
    GivenAmount(body.amount) && Given(body.checkoutId)
  }

  /** The order asked for: the amount in paise, the currency or INR, the order
      id (or else the checkout id) as receipt, and both ids as notes. */
  function ConfigOrderRequest(body: ConfigBody): (req: OrderRequest)
    requires HasRequiredFields(body)
    ensures req.amount == MinorUnits(body.amount.value)
    ensures req.currency == Default(body.currency, DefaultCurrency)
    ensures Given(body.orderId) ==> req.receipt == body.orderId.value
    ensures !Given(body.orderId) ==> req.receipt == body.checkoutId.value
    ensures req.paymentCapture
    ensures req.notes == Some(map["saleor_checkout_id" := body.checkoutId.value,
                                  "saleor_order_id" := Or(body.orderId, "")])
  {
    OrderRequest(
      MinorUnits(body.amount.value),
      Default(body.currency, DefaultCurrency),
      Or(body.orderId, body.checkoutId.value),
      true,
      Some(map["saleor_checkout_id" := body.checkoutId.value, "saleor_order_id" := Or(body.orderId, "")]))
  }

  /** The endpoint. `keyId` is the configured processor key id; `orders` is the
      processor's answer to an order request. */
  function Handle(httpMethod: string, body: ConfigBody, keyId: Option<string>, orders: OrderRequest -> Outcome<Order>)
    : (r: Reply<ConfigReply>)
    ensures httpMethod != "POST" ==> r == Reply(405, ConfigError("Method not allowed"))
    ensures httpMethod == "POST" && !HasRequiredFields(body) ==> r == Reply(400, ConfigError("Missing required fields"))
    ensures httpMethod == "POST" && HasRequiredFields(body) ==>
      match orders(ConfigOrderRequest(body))
      case Ok(order) => r == Reply(200, ConfigOrder(keyId, order.amount, order.currency, order.id))
      case Err(e) => r == Reply(500, ConfigError(MessageOr(e, "Internal server error")))
    ensures r.status == 200 <==> r.body.ConfigOrder?
  {
    if httpMethod != "POST" then
      Reply(405, ConfigError("Method not allowed"))
    else if !HasRequiredFields(body) then
      Reply(400, ConfigError("Missing required fields"))
    else
      match orders(ConfigOrderRequest(body))
      case Ok(order) => Reply(200, ConfigOrder(keyId, order.amount, order.currency, order.id))
      case Err(e) => Reply(500, ConfigError(MessageOr(e, "Internal server error")))
  }

  /** A refused request creates no order: the reply does not depend on the processor. */
  lemma RefusalCreatesNoOrder(
    httpMethod: string, body: ConfigBody, keyId: Option<string>,
    orders1: OrderRequest -> Outcome<Order>, orders2: OrderRequest -> Outcome<Order>)
    requires httpMethod != "POST" || !HasRequiredFields(body)
    ensures Handle(httpMethod, body, keyId, orders1) == Handle(httpMethod, body, keyId, orders2)
    ensures Handle(httpMethod, body, keyId, orders1).status in {400, 405}
  {
  }

  /** Unlike the create-order route, this endpoint does not bound the receipt:
      a checkout id of any length without an order id becomes the receipt whole. */
  lemma ReceiptUnbounded(checkoutId: string, amount: real)
    requires checkoutId != "" && amount != 0.0
    ensures var req := ConfigOrderRequest(ConfigBody(Some(amount), None, Some(checkoutId), None));
      req.receipt == checkoutId && |req.receipt| == |checkoutId|
  {
  }
}
