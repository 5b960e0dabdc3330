/** `PaymentFlowService`: the storefront-side flow that asks the platform to
    initialise a transaction, to process it once the processor reports a
    payment, and to complete the checkout. Each step is one GraphQL mutation
    whose outcome is an input here; each folds that outcome into a flow result
    and never lets an error escape. */
module PaymentFlow {
  import opened Common
  import opened TransactionSchema

  /** `PaymentFlowData`. */
  datatype FlowData = FlowData(
    checkoutId: string,
    amount: real,
    currency: string,
    customer: Customer,
    notes: Option<map<string, string>>)

  /** `PaymentFlowResult`: `success` is the constructor. */
  datatype FlowResult =
    | FlowSucceeded(orderId: Option<Json>, paymentId: Option<string>, transactionId: Option<string>, order: Option<Json>)
    | FlowFailed(error: string)

  /** One entry of a mutation's `errors` list. */
  datatype GqlError = GqlError(message: string)

  /** The mutation's payload: its `errors` list, when present, and the rest. */
  datatype Payload<+P> = Payload(errors: Option<seq<GqlError>>, body: P)

  /** What `client.mutation(...).toPromise()` gives: an exception, or a result
      with an optional transport error and an optional payload. */
  datatype Mutation<+P> =
    | Threw(failure: Failure)
    | Returned(error: Option<Failure>, payload: Option<Payload<P>>)

  predicate HasErrors<P>(p: Option<Payload<P>>) {
    p.Some? && p.value.errors.Some? && |p.value.errors.value| > 0
  }

  /** The outcome every step reads first: refused with a message, or accepted
      with whatever payload came back. */
  datatype Checked<+P> = Refused(message: string) | Accepted(payload: Option<P>)

  /** The checks each step makes, in order: an exception (its message, or
      `fallback`), then a transport error, then the first entry of a non-empty
      `errors` list. */
  function Check<P>(m: Mutation<P>, fallback: string): (c: Checked<P>)
    ensures m.Threw? ==> c == Refused(MessageOr(m.failure, fallback))
    ensures m.Returned? && m.error.Some? ==> c == Refused(m.error.value.message)
    ensures m.Returned? && m.error.None? && HasErrors(m.payload) ==>
      c == Refused(m.payload.value.errors.value[0].message)
    ensures c.Accepted? <==> m.Returned? && m.error.None? && !HasErrors(m.payload)
    ensures c.Accepted? ==> (c.payload.Some? <==> m.payload.Some?)
    ensures c.Accepted? && c.payload.Some? ==> c.payload.value == m.payload.value.body
  {
    match m
    case Threw(f) => Refused(MessageOr(f, fallback))
    case Returned(err, p) =>
      if err.Some? then Refused(err.value.message)
      else if HasErrors(p) then Refused(p.value.errors.value[0].message)
      else Accepted(if p.Some? then Some(p.value.body) else None)
  }

  // ---------------------------------------------------------------------------
  // initializePayment

  /** The variables of `TransactionInitialize`. */
  datatype InitializeVariables = InitializeVariables(
    checkoutId: string,
    action: Action,
    gatewayId: string,
    gatewayData: Json,
    amount: real)

  /** `transactionInitialize { transaction { id }, data }` */
  datatype InitializePayload = InitializePayload(transactionId: Option<string>, data: Option<Json>)

  /** `data.notes || { checkout_id }`: any notes object, even an empty one, is kept. */
  function FlowNotes(data: FlowData): (notes: map<string, string>)
    ensures data.notes.Some? ==> notes == data.notes.value
    ensures data.notes.None? ==> notes.Keys == {"checkout_id"} && notes["checkout_id"] == data.checkoutId
  {
    if data.notes.Some? then data.notes.value else map["checkout_id" := data.checkoutId]
  }

  /** The event the flow always asks the gateway for. */
  const ChargeEvent: SyncWebhookRequestData := SyncWebhookRequestData(RequestEvent(ChargeSuccess, true))

  /** The transaction fields of the gateway data, in the legacy schema's terms. */
  function GatewayTransaction(data: FlowData): TransactionData {
    TransactionData(data.amount, data.currency, data.customer, Some(FlowNotes(data)), data.checkoutId)
  }

  /** The variables of `TransactionInitialize`. For every input, the gateway
      data holds exactly the event, the amount, currency and customer of the
      flow, its notes or the checkout-id note, and the checkout id as order id. */
  function InitializeVariablesFor(data: FlowData): (v: InitializeVariables)
    ensures v.checkoutId == data.checkoutId && v.action == Charge && v.gatewayId == GatewayId
    ensures v.amount == data.amount
    ensures v.gatewayData.JObj?
    ensures v.gatewayData.fields.Keys == {"event", "amount", "currency", "customer", "notes", "order_id"}
    ensures ParseData(v.gatewayData) == Some(ChargeEvent)
    ensures Field(v.gatewayData, "amount") == Some(JNum(data.amount))
    ensures Field(v.gatewayData, "currency") == Some(JStr(data.currency))
    ensures Field(v.gatewayData, "customer") == Some(CustomerToJson(data.customer))
    ensures Field(v.gatewayData, "notes") == Some(JObj(StringRecordToJson(FlowNotes(data))))
    ensures Field(v.gatewayData, "order_id") == Some(JStr(data.checkoutId))
  {
    var fields := TransactionDataToJson(GatewayTransaction(data)).fields;
    var event := DataToJson(ChargeEvent).fields["event"];
    var j := JObj(fields["event" := event]);
    DataRoundTrip(ChargeEvent);
    assert Field(j, "event") == Field(DataToJson(ChargeEvent), "event");
    InitializeVariables(data.checkoutId, Charge, GatewayId, j, data.amount)
  }

  /** The gateway data passes the request-data schema as a CHARGE_SUCCESS event
      that includes the PSP reference, and, for a positive amount and a valid
      e-mail, the legacy transaction schema with the checkout id as order id
      and the default checkout-id note. */
  lemma GatewayDataPassesSchemas(data: FlowData, isEmail: string -> bool)
    ensures ParseData(InitializeVariablesFor(data).gatewayData) == Some(ChargeEvent)
    ensures data.amount > 0.0 && isEmail(data.customer.email) ==>
      ValidateTransactionData(InitializeVariablesFor(data).gatewayData, isEmail) == Some(GatewayTransaction(data))
    ensures GatewayTransaction(data).orderId == data.checkoutId
    ensures data.notes.None? ==> GatewayTransaction(data).notes == Some(map["checkout_id" := data.checkoutId])
  {
    var t := GatewayTransaction(data);
    var plain := TransactionDataToJson(t);
    var j := InitializeVariablesFor(data).gatewayData;
    assert Field(j, "event") == Field(DataToJson(ChargeEvent), "event");
    DataRoundTrip(ChargeEvent);
    assert ParseData(j) == ParseData(DataToJson(ChargeEvent));
    if data.amount > 0.0 && isEmail(data.customer.email) {
      TransactionDataRoundTrip(t, isEmail);
      assert Field(j, "amount") == Field(plain, "amount");
      assert Field(j, "currency") == Field(plain, "currency");
      assert Field(j, "customer") == Field(plain, "customer");
      assert Field(j, "notes") == Field(plain, "notes");
      assert Field(j, "order_id") == Field(plain, "order_id");
      assert ValidateTransactionData(j, isEmail) == ValidateTransactionData(plain, isEmail);
    }
  }

  /** `initializePayment`: on acceptance the order id is `data.orderId` of the
      payload and the transaction id its transaction's id. */
  function InitializePayment(data: FlowData, initialize: InitializeVariables -> Mutation<InitializePayload>)
    : (r: FlowResult)
    ensures r.FlowFailed? <==> Check(initialize(InitializeVariablesFor(data)), "Failed to initialize payment").Refused?
    ensures r.FlowFailed? ==> r.error == Check(initialize(InitializeVariablesFor(data)), "Failed to initialize payment").message
    ensures r.FlowSucceeded? ==> r.paymentId.None?
    ensures r.FlowSucceeded? && r.order.Some? ==> r.orderId == Field(r.order.value, "orderId")
    ensures r.FlowSucceeded? && r.order.None? ==> r.orderId.None?
    ensures r.FlowSucceeded? ==>
      var c := Check(initialize(InitializeVariablesFor(data)), "Failed to initialize payment");
      && r.order == (if c.payload.Some? then c.payload.value.data else None)
      && r.transactionId == (if c.payload.Some? then c.payload.value.transactionId else None)
  {
    match Check(initialize(InitializeVariablesFor(data)), "Failed to initialize payment")
    case Refused(msg) => FlowFailed(msg)
    case Accepted(p) =>
      var order := if p.Some? then p.value.data else None;
      var orderId := if order.Some? then Field(order.value, "orderId") else None;
      var transactionId := if p.Some? then p.value.transactionId else None;
      FlowSucceeded(orderId, None, transactionId, order)
  }

  // ---------------------------------------------------------------------------
  // completeCheckout

  /** `checkoutComplete { order }` */
  datatype CheckoutPayload = CheckoutPayload(order: Option<Json>)

  /** `completeCheckout`: on acceptance, only the completed order. */
  function CompleteCheckout(checkoutId: string, complete: string -> Mutation<CheckoutPayload>): (r: FlowResult)
    ensures r.FlowFailed? <==> Check(complete(checkoutId), "Failed to complete checkout").Refused?
    ensures r.FlowFailed? ==> r.error == Check(complete(checkoutId), "Failed to complete checkout").message
    ensures r.FlowSucceeded? ==> r.orderId.None? && r.paymentId.None? && r.transactionId.None?
    ensures r.FlowSucceeded? ==>
      && complete(checkoutId).Returned?
      && r.order == (if complete(checkoutId).payload.Some? then complete(checkoutId).payload.value.body.order else None)
  {
    match Check(complete(checkoutId), "Failed to complete checkout")
    case Refused(msg) => FlowFailed(msg)
    case Accepted(p) => FlowSucceeded(None, None, None, if p.Some? then p.value.order else None)
  }

  // ---------------------------------------------------------------------------
  // processPayment and processPaymentSuccess

  /** The variables of `TransactionProcess`: the transaction id and
      `{ razorpay_payment_id }`. */
  datatype ProcessVariables = ProcessVariables(transactionId: string, paymentId: string)

  /** `transactionProcess { transactionEvent { type, message } }` */
  datatype ProcessPayload = ProcessPayload(eventType: Option<string>, eventMessage: Option<string>)

  /** The event types the flow counts as a successful payment. */
  predicate PaidEvent(eventType: Option<string>)
    ensures PaidEvent(eventType) <==>
      eventType.Some? && ParseEventType(eventType.value) in {Some(ChargeSuccess), Some(AuthorizationSuccess)}
  {
    eventType == Some(EventTypeName(ChargeSuccess)) || eventType == Some(EventTypeName(AuthorizationSuccess))
  }

  /** `processPayment`: success exactly when the accepted payload reports a
      charge or an authorization success, carrying the payment id. */
  function ProcessPayment(paymentId: string, transactionId: string, process: ProcessVariables -> Mutation<ProcessPayload>)
    : (r: FlowResult)
    ensures var c := Check(process(ProcessVariables(transactionId, paymentId)), "Failed to process payment");
      && (c.Refused? ==> r == FlowFailed(c.message))
      && (r.FlowSucceeded? <==> c.Accepted? && c.payload.Some? && PaidEvent(c.payload.value.eventType))
      && (c.Accepted? && r.FlowFailed? ==>
            r.error == "Payment failed: " + (if c.payload.Some? then Or(c.payload.value.eventMessage, "Unknown error") else "Unknown error"))
    ensures r.FlowSucceeded? ==> r == FlowSucceeded(None, Some(paymentId), None, None)
  {
    match Check(process(ProcessVariables(transactionId, paymentId)), "Failed to process payment")
    case Refused(msg) => FlowFailed(msg)
    case Accepted(p) =>
      if p.Some? && PaidEvent(p.value.eventType) then FlowSucceeded(None, Some(paymentId), None, None)
      else FlowFailed("Payment failed: " + if p.Some? then Or(p.value.eventMessage, "Unknown error") else "Unknown error")
  }

  /** `processPaymentSuccess`: process the payment, and only once that has
      succeeded complete the checkout. */
  function ProcessPaymentSuccess(
    paymentId: string, transactionId: string, checkoutId: string,
    process: ProcessVariables -> Mutation<ProcessPayload>, complete: string -> Mutation<CheckoutPayload>)
    : (r: FlowResult)
    ensures ProcessPayment(paymentId, transactionId, process).FlowFailed? ==>
      r == ProcessPayment(paymentId, transactionId, process)
    ensures ProcessPayment(paymentId, transactionId, process).FlowSucceeded? && CompleteCheckout(checkoutId, complete).FlowFailed? ==>
      r == FlowFailed("Payment successful but checkout failed: " + CompleteCheckout(checkoutId, complete).error)
    ensures r.FlowSucceeded? <==>
      ProcessPayment(paymentId, transactionId, process).FlowSucceeded? && CompleteCheckout(checkoutId, complete).FlowSucceeded?
    ensures r.FlowSucceeded? ==>
      r.paymentId == Some(paymentId) && r.order == CompleteCheckout(checkoutId, complete).order
  {
    var processed := ProcessPayment(paymentId, transactionId, process);
    if processed.FlowFailed? then processed
    else
      var checkout := CompleteCheckout(checkoutId, complete);
      if checkout.FlowFailed? then FlowFailed("Payment successful but checkout failed: " + checkout.error)
      else FlowSucceeded(None, processed.paymentId, None, checkout.order)
  }

  /** A payment that fails processing never reaches checkout completion: the
      result does not depend on the checkout mutation at all. */
  lemma FailedPaymentSkipsCheckout(
    paymentId: string, transactionId: string, checkoutId: string,
    process: ProcessVariables -> Mutation<ProcessPayload>,
    complete1: string -> Mutation<CheckoutPayload>, complete2: string -> Mutation<CheckoutPayload>)
    requires ProcessPayment(paymentId, transactionId, process).FlowFailed?
    ensures ProcessPaymentSuccess(paymentId, transactionId, checkoutId, process, complete1)
         == ProcessPaymentSuccess(paymentId, transactionId, checkoutId, process, complete2)
  {
  }

  /** A platform answer the process-session webhook gives for a captured
      payment makes the flow's processing step succeed. */
  lemma CapturedPaymentIsPaid(paymentId: string, transactionId: string, process: ProcessVariables -> Mutation<ProcessPayload>,
                              message: Option<string>)
    requires process(ProcessVariables(transactionId, paymentId)) ==
      Returned(None, Some(Payload(None, ProcessPayload(Some("CHARGE_SUCCESS"), message))))
    ensures ProcessPayment(paymentId, transactionId, process) == FlowSucceeded(None, Some(paymentId), None, None)
  {
  }
}
