/** The payment-gateway-initialize-session webhook: a single gateway
    configuration for the storefront, built from the request and constants. */
module GatewayInitialize {
  import opened Common

  /** The request body; a field left out is `None`. */
  datatype GatewayInitBody = GatewayInitBody(amount: Option<real>, currency: Option<string>)

  /** `data` of the one gateway configuration. */
  datatype GatewayData = GatewayData(
    keyId: Option<string>,
    amount: Option<real>,
    currency: string,
    name: string,
    description: string,
    supportedCurrencies: seq<string>,
    supportedPaymentMethods: seq<string>)

  datatype GatewayConfig = GatewayConfig(id: string, data: GatewayData, errors: seq<string>)

  datatype GatewayInitReply = GatewayInitReply(gatewayConfigs: seq<GatewayConfig>, errors: seq<string>)

  const SupportedCurrencies: seq<string> := ["INR", "USD", "EUR", "GBP"]
  const SupportedPaymentMethods: seq<string> := ["card", "netbanking", "wallet", "upi"]

  /** The webhook; `keyId` is the configured processor key id. It never fails,
      offers exactly one configuration, echoes the amount as sent and the
      currency or INR, and lists the four currencies and four payment methods. */
  function Handle(body: GatewayInitBody, keyId: Option<string>): (r: Reply<GatewayInitReply>)
    ensures r.status == 200 && r.body.errors == []
    ensures |r.body.gatewayConfigs| == 1
    ensures var c := r.body.gatewayConfigs[0];
      && c.id == GatewayId && c.errors == []
      && c.data.keyId == keyId
      && c.data.amount == body.amount
      && c.data.currency == Default(body.currency, DefaultCurrency)
      && c.data.name == "Razorpay" && c.data.description == "Pay securely with Razorpay"
      && DefaultCurrency in c.data.supportedCurrencies
      && c.data.supportedCurrencies == SupportedCurrencies
      && c.data.supportedPaymentMethods == SupportedPaymentMethods
  {
    var data := GatewayData(
      keyId, body.amount, Default(body.currency, DefaultCurrency),
      "Razorpay", "Pay securely with Razorpay",
      SupportedCurrencies, SupportedPaymentMethods);
    Reply(200, GatewayInitReply([GatewayConfig(GatewayId, data, [])], []))
  }
}
