/** The admin connection test: create a one-rupee probe order with the
    submitted credentials and map the processor's answer to a status. */
module TestConnection {
  import opened Common
  import opened Processor

  datatype TestReply =
    | TestError(error: string)
    | TestPassed(message: string, testOrderId: string)

  /** The probe: 100 paise in INR, receipt "test-connection", no capture, no notes. */
  const ProbeOrder: OrderRequest := OrderRequest(100, DefaultCurrency, "test-connection", false, None)

  /** The status and text for a refused probe: the processor's BAD_REQUEST_ERROR
      and UNAUTHORIZED codes are bad credentials; anything else is a server error. */
  function FailureReply(e: Failure): (r: Reply<TestReply>)
    ensures e.code == Some("BAD_REQUEST_ERROR") <==> r.status == 400
    ensures e.code == Some("UNAUTHORIZED") <==> r.status == 401
    ensures r.status == 400 ==> r.body == TestError("Invalid credentials. Please check your Key ID and Key Secret.")
    ensures r.status == 401 ==> r.body == TestError("Unauthorized. Please check your Razorpay credentials.")
    ensures r.status in {400, 401, 500} && r.body.TestError?
    ensures r.status == 500 ==>
      r.body.error == MessageOr(e, "Connection test failed. Please check your credentials and try again.")
  {
    if e.code == Some("BAD_REQUEST_ERROR") then
      Reply(400, TestError("Invalid credentials. Please check your Key ID and Key Secret."))
    else if e.code == Some("UNAUTHORIZED") then
      Reply(401, TestError("Unauthorized. Please check your Razorpay credentials."))
    else
      Reply(500, TestError(MessageOr(e, "Connection test failed. Please check your credentials and try again.")))
  }

  /** The endpoint. `body` is the parsed request; `probe` is the processor's
      answer to an order request made with the given key id and secret;
      `typeErrorMessage` is the message of the TypeError that reading fields
      off a null body raises; such an error carries no processor code. */
  function Handle(httpMethod: string, body: Json, probe: (Json, Json, OrderRequest) -> Outcome<Order>, typeErrorMessage: string)
    : (r: Reply<TestReply>)
    ensures httpMethod != "POST" ==> r == Reply(405, TestError("Method not allowed"))
    ensures httpMethod == "POST" && body.JNull? ==>
      r.status == 500 && r == FailureReply(Failure(typeErrorMessage, None))
    ensures httpMethod == "POST" && !body.JNull? ==>
      var keyId := Field(body, "keyId");
      var keySecret := Field(body, "keySecret");
      && (!(keyId.Some? && Truthy(keyId.value) && keySecret.Some? && Truthy(keySecret.value)) ==>
            r == Reply(400, TestError("Key ID and Key Secret are required")))
      && (keyId.Some? && Truthy(keyId.value) && keySecret.Some? && Truthy(keySecret.value) ==>
            match probe(keyId.value, keySecret.value, ProbeOrder)
            case Ok(order) => r == Reply(200, TestPassed("Connection successful", order.id))
            case Err(e) => r == FailureReply(e))
    ensures r.status == 200 <==> r.body.TestPassed?
  {
    if httpMethod != "POST" then
      Reply(405, TestError("Method not allowed"))
    else if body.JNull? then
      FailureReply(Failure(typeErrorMessage, None))
    else
      var keyId := Field(body, "keyId");
      var keySecret := Field(body, "keySecret");
      if !(keyId.Some? && Truthy(keyId.value) && keySecret.Some? && Truthy(keySecret.value)) then
        Reply(400, TestError("Key ID and Key Secret are required"))
      else
        match probe(keyId.value, keySecret.value, ProbeOrder)
        case Ok(order) => Reply(200, TestPassed("Connection successful", order.id))
        case Err(e) => FailureReply(e)
  }

  /** Credentials missing from an object body are refused without contacting
      the processor: the reply does not depend on it. */
  lemma MissingCredentialsSkipProbe(
    body: map<string, Json>, probe1: (Json, Json, OrderRequest) -> Outcome<Order>,
    probe2: (Json, Json, OrderRequest) -> Outcome<Order>, err: string)
    requires "keyId" !in body || !Truthy(body["keyId"])
    ensures Handle("POST", JObj(body), probe1, err) == Handle("POST", JObj(body), probe2, err)
    ensures Handle("POST", JObj(body), probe1, err).status == 400
  {
  }

  /** Whatever the processor answers, the probe is one rupee in the default
      currency under the receipt "test-connection", with no notes, and never
      asks the processor to capture. */
  lemma ProbeNeverCaptures()
    ensures !ProbeOrder.paymentCapture && ProbeOrder.amount == MinorUnits(1.0)
    ensures ProbeOrder.currency == DefaultCurrency && ProbeOrder.receipt == "test-connection"
    ensures ProbeOrder.notes.None?
  {
  }
}
