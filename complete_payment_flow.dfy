/** The complete-payment-flow endpoint: with a payment id and a transaction id
    it is the payment-success callback (process the payment, then complete the
    checkout); otherwise it initialises a payment. */
module CompletePaymentFlow {
  import opened Common
  import opened TransactionSchema
  import opened PaymentFlow

  /** The request body; a field left out is `None`. */
  datatype FlowRequest = FlowRequest(
    checkoutId: Option<string>,
    amount: Option<real>,
    currency: Option<string>,
    customer: Option<Customer>,
    notes: Option<map<string, string>>,
    paymentId: Option<string>,
    transactionId: Option<string>)

  datatype FlowReply =
    | PlainError(error: string)
    | Unsuccessful(error: string)
    | Completed(message: string, order: Option<Json>, paymentId: Option<string>)
    | Initialized(message: string, orderId: Option<Json>, transactionId: Option<string>, order: Option<Json>)

  /** Whether the request is the payment-success callback. */
  predicate IsCallback(req: FlowRequest) {
    Given(req.paymentId) && Given(req.transactionId)
  }

  predicate HasInitializeFields(req: FlowRequest) {
    GivenAmount(req.amount) && Given(req.currency) && req.customer.Some?
  }

  function FlowDataFor(req: FlowRequest): (data: FlowData)
    requires Given(req.checkoutId) && HasInitializeFields(req)
    ensures data == FlowData(req.checkoutId.value, req.amount.value, req.currency.value, req.customer.value, req.notes)
  {
    FlowData(req.checkoutId.value, req.amount.value, req.currency.value, req.customer.value, req.notes)
  }

  /** The endpoint over the three platform mutations. */
  function Handle(
    httpMethod: string, req: FlowRequest,
    initialize: InitializeVariables -> Mutation<InitializePayload>,
    process: ProcessVariables -> Mutation<ProcessPayload>,
    complete: string -> Mutation<CheckoutPayload>)
    : (r: Reply<FlowReply>)
    ensures httpMethod != "POST" ==> r == Reply(405, PlainError("Method not allowed"))
    ensures httpMethod == "POST" && !Given(req.checkoutId) ==> r == Reply(400, PlainError("Checkout ID is required"))
    ensures httpMethod == "POST" && Given(req.checkoutId) && IsCallback(req) ==>
      match ProcessPaymentSuccess(req.paymentId.value, req.transactionId.value, req.checkoutId.value, process, complete)
      case FlowSucceeded(_, paymentId, _, order) =>
        r == Reply(200, Completed("Payment processed and checkout completed successfully", order, paymentId))
      case FlowFailed(e) => r == Reply(400, Unsuccessful(e))
    ensures httpMethod == "POST" && Given(req.checkoutId) && !IsCallback(req) && !HasInitializeFields(req) ==>
      r == Reply(400, PlainError("Amount, currency, and customer data are required for payment initialization"))
    ensures httpMethod == "POST" && Given(req.checkoutId) && !IsCallback(req) && HasInitializeFields(req) ==>
      match InitializePayment(FlowDataFor(req), initialize)
      case FlowSucceeded(orderId, _, transactionId, order) =>
        r == Reply(200, Initialized("Payment initialized successfully", orderId, transactionId, order))
      case FlowFailed(e) => r == Reply(400, Unsuccessful(e))
    ensures r.status in {200, 400, 405}
    ensures r.status == 200 <==> r.body.Completed? || r.body.Initialized?
  {
    if httpMethod != "POST" then
      Reply(405, PlainError("Method not allowed"))
    else if !Given(req.checkoutId) then
      Reply(400, PlainError("Checkout ID is required"))
    else if IsCallback(req) then
      match ProcessPaymentSuccess(req.paymentId.value, req.transactionId.value, req.checkoutId.value, process, complete)
      case FlowSucceeded(_, paymentId, _, order) =>
        Reply(200, Completed("Payment processed and checkout completed successfully", order, paymentId))
      case FlowFailed(e) => Reply(400, Unsuccessful(e))
    else if !HasInitializeFields(req) then
      Reply(400, PlainError("Amount, currency, and customer data are required for payment initialization"))
    else
      match InitializePayment(FlowDataFor(req), initialize)
      case FlowSucceeded(orderId, _, transactionId, order) =>
        Reply(200, Initialized("Payment initialized successfully", orderId, transactionId, order))
      case FlowFailed(e) => Reply(400, Unsuccessful(e))
  }

  /** The callback path never initialises a payment and the initialise path
      never processes one: each reply depends only on its own path's mutations. */
  lemma PathsAreSeparate(
    req: FlowRequest,
    initialize1: InitializeVariables -> Mutation<InitializePayload>, initialize2: InitializeVariables -> Mutation<InitializePayload>,
    process1: ProcessVariables -> Mutation<ProcessPayload>, process2: ProcessVariables -> Mutation<ProcessPayload>,
    complete1: string -> Mutation<CheckoutPayload>, complete2: string -> Mutation<CheckoutPayload>)
    ensures IsCallback(req) ==>
      Handle("POST", req, initialize1, process1, complete1) == Handle("POST", req, initialize2, process1, complete1)
    ensures !IsCallback(req) ==>
      Handle("POST", req, initialize1, process1, complete1) == Handle("POST", req, initialize1, process2, complete2)
  {
  }

  /** A callback whose payment fails processing is answered 400 with the
      processing error, whatever the checkout mutation would have said. */
  lemma FailedCallbackReportsProcessingError(
    req: FlowRequest,
    initialize: InitializeVariables -> Mutation<InitializePayload>,
    process: ProcessVariables -> Mutation<ProcessPayload>,
    complete: string -> Mutation<CheckoutPayload>)
    requires Given(req.checkoutId) && IsCallback(req)
    requires ProcessPayment(req.paymentId.value, req.transactionId.value, process).FlowFailed?
    ensures Handle("POST", req, initialize, process, complete) ==
      Reply(400, Unsuccessful(ProcessPayment(req.paymentId.value, req.transactionId.value, process).error))
  {
  }
}
