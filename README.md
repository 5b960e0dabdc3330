# Razorpay payment adapter for Saleor — a Dafny model

The adapter connects a Saleor store to the Razorpay payment processor. This
project models its server-side core:

- the shared validation schemas (event types, action lists, the webhook
  request data, the webhook response and the legacy transaction data);
- `RazorpayService` (order creation, payment processing, refunds);
- the create-order route and the payment-gateway-config endpoint;
- the Saleor synchronous webhooks: payment-gateway initialise, transaction
  initialise, process, charge-requested, cancel-requested and refund;
- `PaymentFlowService` and the complete-payment-flow endpoint built on it;
- the admin settings store and the admin connection test.

Amounts are exact reals in major units (rupees). The processor speaks minor
units (paise): `Common.MinorUnits` is `Math.round(x * 100)` and
`Common.MajorUnits` is the division by 100. JavaScript truthiness is explicit:
`Given` for text, `GivenAmount` for amounts, `Truthy` for JSON. `||` defaults
(`Or`) are distinct from destructuring defaults (`Default`), which keep an
empty string. A schema parse is a function giving `None` where the schema
library would throw; keys the schema does not name are ignored, as the library
strips them.

Calls into code outside the adapter are parameters of the members that make
them:

- the processor's `orders.create` and `payments.refund`;
- the GraphQL mutations;
- `getTransactionActions`;
- MD5;
- `uuidv7` (a non-empty string);
- `process.env` reads;
- the e-mail and URL checks of the schema library.

Fetch and capture are the two processor calls whose effect later calls
observe. They are methods of `Processor.Gateway`, a stand-in for the
processor's payment store that logs every call. `RazorpayService.ProcessPayment`
and `ProcessSession.Handle` are methods over it. The settings endpoint's
module-level `settings` is the field of the class `SettingsStore.Store`.

Modules, one per source file (plus `Common`, `Processor`, `SessionWire` and
`RequestedSession` for what several files share): `TransactionSchema`,
`RazorpayService`, `CreateOrderRoute`, `InitializeSession`, `ProcessSession`,
`RefundSession`, `GatewayInitialize`, `ChargeRequested`, `CancelRequested`,
`GatewayConfigRoute`, `PaymentFlow`, `CompletePaymentFlow`, `SettingsStore`,
`TestConnection`.

## Model

| member | source | states |
|---|---|---|
| Common.Round | src/lib/razorpay.ts:25 | `Math.round` lands within half a unit of its argument |
| Common.MinorUnits | src/lib/razorpay.ts:25 | the paise sent to the processor lie within half a paisa of a hundred times the rupee amount |
| Common.MajorUnits | src/pages/api/webhooks/transaction-process-session.ts:44 | the rupee amount reported is exactly a hundredth of the processor's paise |
| Common.MinorUnitsRoundTrip | src/lib/razorpay.ts:25 | converting rupees to paise and back moves the amount by at most half a paisa |
| Common.WholePaiseExact | src/lib/razorpay.ts:25 | an amount that is a whole number of paise converts back exactly |
| Common.TwoRupeesIs200Paise | src/lib/__tests__/razorpay.test.ts:34-50 | 2.00 rupees is sent to the processor as 200 paise |
| TransactionSchema.ParseEventType | src/lib/validation/transaction.ts:4-13 | a name parses exactly when it is one of the eight event-type names, and parses to the type of that name |
| TransactionSchema.EventTypeRoundTrip | src/lib/validation/transaction.ts:4-13 | every event type's name is in the vocabulary and parses back to that type |
| TransactionSchema.ParseAction | src/lib/validation/transaction.ts:15 | a name parses exactly when it is CHARGE, AUTHORIZATION, REFUND or CANCEL |
| TransactionSchema.ParseActions | src/lib/validation/transaction.ts:15 | an action list parses exactly when every element is an action name; the result has the same length and names each element |
| TransactionSchema.ActionsRoundTrip | src/lib/validation/transaction.ts:15 | every list of actions, once serialised, parses back to itself |
| TransactionSchema.ActionsInverse | src/lib/validation/transaction.ts:15 | a list that parses is the serialisation of what it parses to |
| TransactionSchema.ParseData | src/lib/validation/transaction.ts:18-23 | request data parses exactly when `event.type` is an event-type name and `includePspReference` is absent or a boolean; the flag defaults to true |
| TransactionSchema.DataRoundTrip | src/lib/validation/transaction.ts:18-23 | serialised request data parses back to itself |
| TransactionSchema.IncludePspReferenceDefaultsToTrue | src/lib/validation/transaction.ts:21 | an event without `includePspReference` parses with it set to true |
| TransactionSchema.JsonToScalar | src/lib/validation/transaction.ts:32 | a string, number or boolean value reads back to the same JSON |
| TransactionSchema.ScalarRoundTrip | src/lib/validation/transaction.ts:32 | a `data` value survives serialisation |
| TransactionSchema.ParseScalarRecord | src/lib/validation/transaction.ts:32 | a `data` record parses exactly when every value is a string, number or boolean, and serialises back to the input |
| TransactionSchema.RecordRoundTrip | src/lib/validation/transaction.ts:32 | every `data` record survives serialisation |
| TransactionSchema.ParseResponse | src/lib/validation/transaction.ts:28-37 | a response parses exactly when it has the schema's shape; each parsed field is the input's field, and a parsed `externalUrl` is a URL |
| TransactionSchema.ResponseJsonFields | src/lib/validation/transaction.ts:28-37 | serialising a response puts each field under its schema key, and leaves an absent optional field out |
| TransactionSchema.ResponseRoundTrip | src/lib/validation/transaction.ts:28-37 | every response whose `externalUrl` is a URL passes the schema and parses back to itself |
| TransactionSchema.ParseStringRecord | src/lib/validation/transaction.ts:50 | a notes record parses exactly when every value is a string, and serialises back to the input |
| TransactionSchema.ParseCustomer | src/lib/validation/transaction.ts:45-49 | accepts exactly an object with string name, e-mail and contact whose e-mail passes the check, and takes the three values from it |
| TransactionSchema.CustomerRoundTrip | src/lib/validation/transaction.ts:45-49 | a customer with a valid e-mail reads back unchanged |
| TransactionSchema.ValidateTransactionData | src/lib/validation/transaction.ts:42-58 | accepts exactly when the amount is a positive number, the currency absent or a string, the customer valid, the notes absent or a string record, and order_id a string; the record takes amount, order_id, customer and notes from the input and the currency or INR |
| TransactionSchema.TransactionDataRoundTrip | src/lib/validation/transaction.ts:42-58 | every record meeting the schema is accepted when sent and parses back to itself |
| Processor.Gateway.constructor | src/lib/razorpay.ts:3-6 | the processor store starts with the given payments and an empty call log |
| Processor.Gateway.Fetch | src/lib/razorpay.ts:48 | a fetch is logged and returns the stored payment, or the processor's refusal for an unknown id |
| Processor.Gateway.Capture | src/lib/razorpay.ts:54-58 | a capture is logged; an accepted one marks exactly that payment captured and returns it, any other changes nothing and is refused |
| RazorpayService.OrderRequestFor | src/lib/razorpay.ts:24-30 | the order asks for the amount in paise, within half a paisa of the rupee amount, with capture on payment and the caller's notes or empty notes |
| RazorpayService.CreateOrder | src/lib/razorpay.ts:22-44 | success exactly when the processor creates the order, carrying it; otherwise no order and the processor's message or "Failed to create Razorpay order" |
| RazorpayService.RefundRequestFor | src/lib/razorpay.ts:77-79 | a truthy amount is refunded in paise; a missing or zero amount sends no amount, a full refund |
| RazorpayService.RefundPayment | src/lib/razorpay.ts:75-93 | success exactly when the processor grants the refund, carrying it; otherwise the processor's message or "Failed to refund payment" |
| RazorpayService.ProcessPayment | src/lib/razorpay.ts:46-73 | fetches the payment; captures it for its own amount in the requested currency or its own unless already captured; a success is always a captured payment the processor now holds; the call log and store change exactly so |
| RazorpayService.ProcessPaymentTwice | src/lib/razorpay.ts:46-73 | processing a payment again after a success returns the same result and only fetches, with no second capture, given the processor stand-in's fetch (see Left out) |
| RazorpayService.AuthorizedPaymentIsCaptured | src/lib/__tests__/razorpay.test.ts:96-128 | an authorized 200-paise INR payment is captured with (id, 200, "INR") and returned captured |
| CreateOrderRoute.Receipt | src/app/api/create-razorpay-order/route.ts:21-24 | the receipt is at most 40 UTF-16 code units; an id whose JavaScript length is at most 40 is kept verbatim, a longer one becomes its 32-digit MD5 hex digest |
| CreateOrderRoute.Utf16Length | src/app/api/create-razorpay-order/route.ts:22 | `.length` counts UTF-16 code units: at least one and at most two per character, exactly one per character of the Basic Multilingual Plane |
| CreateOrderRoute.AstralIdIsHashed | src/app/api/create-razorpay-order/route.ts:22-24 | an id of 21 emoji (21 characters, 42 code units) is replaced by its digest |
| CreateOrderRoute.ReceiptIdempotent | src/app/api/create-razorpay-order/route.ts:21-24 | the receipt of a receipt is itself |
| CreateOrderRoute.ReceiptSeparatesIds | src/app/api/create-razorpay-order/route.ts:21-24 | two ids of JavaScript length at most 40 never share a receipt, and a long id can only share one with a 32-character id |
| CreateOrderRoute.OrderNotes | src/app/api/create-razorpay-order/route.ts:32-37 | the notes hold the full checkout id and exactly those customer fields that were sent |
| CreateOrderRoute.RouteOrderRequest | src/app/api/create-razorpay-order/route.ts:27-38 | the order asks for the amount in paise and the given currency, with the bounded receipt, capture on payment and the notes |
| CreateOrderRoute.Post | src/app/api/create-razorpay-order/route.ts:10-52 | 400 "Missing required fields" exactly when amount, currency or checkout id is missing; otherwise 200 with the order's id, paise amount and currency, or 500 with the message or "Failed to create order" |
| CreateOrderRoute.MissingFieldsCreateNoOrder | src/app/api/create-razorpay-order/route.ts:14-19 | a request missing a field gets 400 whatever the processor would answer |
| SessionWire.Rejected | src/pages/api/webhooks/transaction-initialize-session.ts:22-29 | the 400 body of a session webhook: exactly one INVALID error naming the field, with the given message, and no data or event |
| InitializeSession.MissingField | src/pages/api/webhooks/transaction-initialize-session.ts:22-24 | the rejection names "amount" exactly when the amount is missing, and "id" otherwise |
| InitializeSession.InitializeOrderRequest | src/pages/api/webhooks/transaction-initialize-session.ts:31-38 | the order asks for the amount in paise, the currency or INR, the transaction id as receipt, capture on payment, and the id and idempotency key (or "") as notes |
| InitializeSession.Handle | src/pages/api/webhooks/transaction-initialize-session.ts:19-58 | 400 with one INVALID error naming the missing field; 200 with the created order's id, paise amount, currency and the key id; 500 with one GRAPHQL_ERROR on a processor error; never a transaction event |
| InitializeSession.RejectionCreatesNoOrder | src/pages/api/webhooks/transaction-initialize-session.ts:22-29 | a rejected request gets the same reply whatever the processor would answer |
| InitializeSession.TwoRupeeInitialize | src/pages/api/webhooks/transaction-initialize-session.ts:31-38 | initialising 2.00 INR asks the processor for 200 paise in INR with the transaction id as receipt |
| ProcessSession.InvoiceUrl | src/pages/api/webhooks/transaction-process-session.ts:45 | a dashboard invoice link exactly when the payment has an invoice id |
| ProcessSession.ChargeSucceeded | src/pages/api/webhooks/transaction-process-session.ts:37-48 | CHARGE_SUCCESS with the captured payment's id and its amount in rupees and currency, and no errors |
| ProcessSession.ChargeFailed | src/pages/api/webhooks/transaction-process-session.ts:49-62 | CHARGE_FAILURE with the requested payment id, the error message, the requested amount echoed exactly when truthy, and one GRAPHQL_ERROR |
| ProcessSession.Handle | src/pages/api/webhooks/transaction-process-session.ts:19-63 | 400 without touching the processor when payment_id is missing; otherwise 200 after a fetch and, unless captured, a capture for the payment's amount in the requested currency or INR, reporting success or failure; store and call log change exactly so |
| ProcessSession.ReportedAmountMatchesInitialized | src/pages/api/webhooks/transaction-process-session.ts:44 | a payment captured for the paise of an initialised rupee amount is reported within half a paisa of that amount |
| ProcessSession.HandleTwice | src/pages/api/webhooks/transaction-process-session.ts:31-37 | a second process call after a charge success reports the same and only fetches, given the processor stand-in's fetch (see Left out) |
| RefundSession.MissingField | src/pages/api/webhooks/transaction-refund-session.ts:22-24 | the rejection names "payment_id" exactly when the payment id is missing, and "amount" otherwise |
| RefundSession.HandlerRefundRequest | src/pages/api/webhooks/transaction-refund-session.ts:32 | the refund asked for is the requested amount in paise |
| RefundSession.SameRequestAsService | src/pages/api/webhooks/transaction-refund-session.ts:32 | the handler asks for the same refund the service's `refundPayment` would |
| RefundSession.RefundSucceeded | src/pages/api/webhooks/transaction-refund-session.ts:33-44 | REFUND_SUCCESS with the refund id and the refunded amount in rupees (0 when absent) |
| RefundSession.RefundFailed | src/pages/api/webhooks/transaction-refund-session.ts:45-58 | REFUND_FAILURE with the payment id, the error message, the requested amount and currency or INR, and one GRAPHQL_ERROR |
| RefundSession.Handle | src/pages/api/webhooks/transaction-refund-session.ts:19-59 | 400 exactly when payment id or amount is missing; otherwise 200 with the success or failure body for the processor's answer |
| RefundSession.FullAmountReported | src/pages/api/webhooks/transaction-refund-session.ts:32-44 | a refund granted for the requested paise is reported within half a paisa of the requested amount |
| GatewayInitialize.Handle | src/pages/api/webhooks/payment-gateway-initialize-session.ts:16-37 | always 200 with exactly one configuration under the gateway id, echoing the amount, the currency or INR, the key id, the name "Razorpay" and its description, and the four currencies and four payment methods |
| RequestedSession.AuthorizedAmount | src/pages/api/webhooks/transaction-charge-requested.ts:27 | the transaction's authorized amount when there is one, and 0 otherwise |
| RequestedSession.MissingReference | src/pages/api/webhooks/transaction-charge-requested.ts:33-47 | a failure of the stage's family under the fresh reference, amount 0, no actions, the exception flag and "Missing payment_id", with no link |
| RequestedSession.Settled | src/pages/api/webhooks/transaction-charge-requested.ts:53-66 | a success of the stage's family under the reference, with the authorized amount, the looked-up actions, the dashboard link, and data holding exactly the payment id, amount, currency and status |
| RequestedSession.Errored | src/pages/api/webhooks/transaction-charge-requested.ts:71-89 | a failure of the stage's family under the reference, amount 0, the exception flag, the dashboard link, and the stage's prefix followed by the error message |
| RequestedSession.Handle | src/pages/api/webhooks/transaction-charge-requested.ts:20-90 | status 200 and a result of the stage's family; a missing reference gives a failure under the fresh id; a success exactly when there is a reference and the action lookup succeeds; a lookup error gives the failure body, or escapes if the lookup fails again |
| RequestedSession.HandleConformsToSchema | src/pages/api/webhooks/transaction-charge-requested.ts:34-88 | every body either handler answers with passes the response schema and reads back unchanged |
| RequestedSession.SettledEchoesAuthorization | src/pages/api/webhooks/transaction-charge-requested.ts:53-66 | the success body echoes the authorized amount and currency and reports the settled status |
| ChargeRequested.Handle | src/pages/api/webhooks/transaction-charge-requested.ts:20-90 | 200 with CHARGE_SUCCESS or CHARGE_FAILURE; "Missing payment_id" with a fresh reference, amount 0 and no actions; a success echoes the reference, the authorized amount, the dashboard link and status "captured"; an error prefixes "Charge processing failed: " |
| CancelRequested.Handle | src/pages/api/webhooks/transaction-cancel-requested.ts:20-90 | 200 with CANCEL_SUCCESS or CANCEL_FAILURE; "Missing payment_id" with a fresh reference, amount 0 and no actions; a success echoes the reference, the authorized amount, the dashboard link and status "cancelled"; an error prefixes "Cancel processing failed: " |
| GatewayConfigRoute.ConfigOrderRequest | src/pages/api/payment-gateway-config.ts:15-31 | the order asks for the amount in paise and the currency or INR; the receipt is the order id when given, else the checkout id; the notes hold both ids |
| GatewayConfigRoute.Handle | src/pages/api/payment-gateway-config.ts:9-43 | 405 for a non-POST; 400 when amount or checkout id is missing; otherwise 200 with the key id and the order's paise amount, currency and id, or 500 with the message or "Internal server error" |
| GatewayConfigRoute.RefusalCreatesNoOrder | src/pages/api/payment-gateway-config.ts:10-19 | a refused request gets the same 400 or 405 whatever the processor would answer |
| GatewayConfigRoute.ReceiptUnbounded | src/pages/api/payment-gateway-config.ts:25 | a checkout id of any length becomes the receipt whole |
| PaymentFlow.Check | src/lib/payment-flow.ts:75-89 | an exception refuses with its message or the fallback, a transport error with its message, a non-empty errors list with the first message; anything else is accepted with its payload |
| PaymentFlow.InitializeVariablesFor | src/lib/payment-flow.ts:29-47 | for every input, the mutation asks for action CHARGE on the Razorpay gateway for the checkout and amount, and the gateway data holds exactly the CHARGE_SUCCESS event, the amount, currency and customer, the notes or `{checkout_id}`, and the checkout id as order_id |
| PaymentFlow.GatewayDataPassesSchemas | src/lib/payment-flow.ts:29-47 | the gateway data is a CHARGE_SUCCESS event including the PSP reference, and for a positive amount and valid e-mail passes the legacy schema with the checkout id as order id and notes defaulting to the checkout id |
| PaymentFlow.InitializePayment | src/lib/payment-flow.ts:27-103 | fails exactly when the mutation is refused, with its message; on success the order is the payload's `data`, the order id its `orderId` and the transaction id the payload's transaction id |
| PaymentFlow.FlowNotes | src/lib/payment-flow.ts:42 | the caller's notes when given, otherwise exactly the checkout id under `checkout_id` |
| PaymentFlow.CompleteCheckout | src/lib/payment-flow.ts:105-152 | fails exactly when the mutation is refused, with its message; on success carries only the order of the returned payload, or none when no payload came back |
| PaymentFlow.ProcessPayment | src/lib/payment-flow.ts:186-251 | succeeds exactly when the accepted payload reports CHARGE_SUCCESS or AUTHORIZATION_SUCCESS, carrying the payment id; otherwise "Payment failed: " and the event message or "Unknown error" |
| PaymentFlow.PaidEvent | src/lib/payment-flow.ts:234 | an event type counts as paid exactly when it parses as CHARGE_SUCCESS or AUTHORIZATION_SUCCESS |
| PaymentFlow.ProcessPaymentSuccess | src/lib/payment-flow.ts:154-184 | a processing failure is returned unchanged; a checkout failure after it gives "Payment successful but checkout failed: " and its error; success exactly when both succeed, with the payment id and the order |
| PaymentFlow.FailedPaymentSkipsCheckout | src/lib/payment-flow.ts:157-161 | after a processing failure the result does not depend on checkout completion |
| PaymentFlow.CapturedPaymentIsPaid | src/lib/payment-flow.ts:232-238 | a CHARGE_SUCCESS answer makes processing succeed with the payment id |
| CompletePaymentFlow.Handle | src/pages/api/complete-payment-flow.ts:4-71 | 405 for a non-POST, 400 without checkout id; with payment and transaction ids the callback path (200 with order and payment id, else 400); otherwise amount, currency and customer are required and the initialise path answers 200 or 400 |
| CompletePaymentFlow.PathsAreSeparate | src/pages/api/complete-payment-flow.ts:17-63 | the callback path does not depend on initialisation, and the initialise path does not depend on processing or checkout completion |
| CompletePaymentFlow.FailedCallbackReportsProcessingError | src/pages/api/complete-payment-flow.ts:17-33 | a callback whose payment fails processing gets 400 with the processing error |
| TestConnection.FailureReply | src/pages/api/admin/test-razorpay-connection.ts:39-54 | BAD_REQUEST_ERROR gives 400 and UNAUTHORIZED 401, each exactly and with its fixed text; anything else 500 with the message or the default text |
| TestConnection.Handle | src/pages/api/admin/test-razorpay-connection.ts:4-56 | 405 for a non-POST; 500 for a null body, whose TypeError carries no processor code; 400 when key id or secret is falsy; otherwise the probe order with those credentials decides: 200 with its id, or the failure reply |
| TestConnection.MissingCredentialsSkipProbe | src/pages/api/admin/test-razorpay-connection.ts:12-14 | a body without a key id gets 400 whatever the processor would answer |
| TestConnection.ProbeNeverCaptures | src/pages/api/admin/test-razorpay-connection.ts:23-28 | the probe order is one rupee in paise, in INR, under the receipt "test-connection", without notes, and never asks for capture |
| SettingsStore.InitialSettings | src/pages/api/admin/razorpay-settings.ts:5-13 | the store starts with the environment's keys or "", no webhook secret, test mode on and INR only |
| SettingsStore.MaskedView | src/pages/api/admin/razorpay-settings.ts:16-22 | GET shows every stored field unchanged except the key secret, which is the mask when truthy and "" otherwise |
| SettingsStore.Merged | src/pages/api/admin/razorpay-settings.ts:33-36 | the posted fields replace theirs and every other field keeps its value |
| SettingsStore.Acceptable | src/pages/api/admin/razorpay-settings.ts:28 | an accepted POST body is an object holding a truthy key id and a truthy key secret |
| SettingsStore.MergeIdempotent | src/pages/api/admin/razorpay-settings.ts:33-36 | posting the same settings twice stores the same as posting them once |
| SettingsStore.SecretNeverShown | src/pages/api/admin/razorpay-settings.ts:16-22 | a stored secret is never shown; GET shows the mask instead |
| SettingsStore.Store.constructor | src/pages/api/admin/razorpay-settings.ts:5-13 | the store starts with the initial settings and holds every settings field |
| SettingsStore.Store.Handle | src/pages/api/admin/razorpay-settings.ts:15-49 | GET returns the masked view, which shows every settings field; POST with truthy key id and secret merges the body in; a falsy one gives 400, a null body 500, another method 405, each leaving the store unchanged; the store never loses a field |
| SettingsStore.SaveThenView | src/pages/api/admin/razorpay-settings.ts:23-41 | saving credentials and reading back shows the saved key id and the mask |

## Left out

- Processor.Gateway.Capture: the processor's acceptance rule is an assumption: an authorized payment is captured for its own amount in its own currency, and anything else is refused. The processor's real rules are not part of this model.
- Outcomes of single processor calls and GraphQL mutations are inputs. No model decides what the processor or the platform answers.
- `getTransactionActions` is an uninterpreted parameter: its table is not part of this model.
- MD5 is a parameter returning 32 lower-case hex digits; its internals are left out.
- `uuidv7` is a non-empty string parameter.
- `process.env` values are parameters.
- Amounts are exact reals. IEEE-754 rounding error in `amount * 100` and `/ 100` is not modelled.
- The schema library's error lists are not modelled: a failed parse is `None`. Its e-mail and URL checks are parameters.
- JSON `null` and an absent field are the same `None` wherever the source treats both as falsy.
- A `currency = "INR"` destructuring default applies only when the field is absent; a JSON `null` currency stays `null` in the source. The model has one `None` for both and gives "INR" for it. This affects the members that follow.
- InitializeSession.InitializeOrderRequest: a `null` currency is sent to the processor as `null` in the source, and as "INR" in the model.
- ProcessSession.Handle: a `null` currency is passed to the capture call as `null` in the source, and as "INR" in the model.
- ProcessSession.ChargeFailed: a `null` currency is reported as `null` in the source, and as "INR" in the model.
- RefundSession.RefundFailed: a `null` currency is reported as `null` in the source, and as "INR" in the model.
- GatewayInitialize.Handle: a `null` currency is echoed as `null` in the source, and as "INR" in the model.
- GatewayConfigRoute.ConfigOrderRequest: a `null` currency is sent to the processor as `null` in the source, and as "INR" in the model.
- Route and endpoint bodies are records of optional fields, so a body that is not a JSON object is not modelled, except where stated here. The settings endpoint answers a `null` POST body with 500, and the connection test does the same for any `null` body; both are modelled. The payment-gateway-config endpoint reads its fields inside its `try`, so a `null` body gives 500 with the TypeError's message; this is not modelled. The complete-payment-flow endpoint and the session webhooks read their fields before any `try`, so a `null` body throws out of the handler; this is not modelled either. A failing `request.json()` in the create-order route and fields of an unexpected JSON type are also left out.
- Processor.Gateway.Fetch: the stand-in always returns a stored payment. A real processor fetch can fail transiently for an id it knows. RazorpayService.ProcessPaymentTwice and ProcessSession.HandleTwice rely on this, so their "same result again" holds only under that assumption.
- CompletePaymentFlow.Handle: its 500 branch is left out. Every flow step already catches its own errors, so no error reaches the endpoint's `catch`. The same holds for the outer `catch` of `processPaymentSuccess`.
- A missing `error.message` is modelled as the message string the error carries, so the text "undefined" that a template string would print is not distinguished.
- Webhook signature verification, the `SaleorSyncWebhook` wrapper, `bodyParser` configuration, logging and async scheduling are transport concerns and are left out.
- RequestedSession.Handle: an error that escapes the handler (`Err`) is reported as such; the status the webhook framework then answers with is not part of this model.
- The React pages and components, the app manifest and the build configuration are user interface and configuration, and are left out.
