/** The body shape the initialize, process and refund session webhooks answer
    with: `{ data, transaction, transactionEvent, errors }`. `transaction` is
    `null` in every body these handlers build, so it is not a field here. */
module SessionWire {
  import opened Common
  import opened TransactionSchema

  datatype ErrorCode = Invalid | GraphqlError

  /** `{ field?, message, code }` */
  datatype WireError = WireError(field: Option<string>, message: string, code: ErrorCode)

  /** `{ amount, currency }`, the amount in major units. */
  datatype Money = Money(amount: real, currency: string)

  /** `{ type, pspReference, message, amount, externalUrl }` */
  datatype SessionEvent = SessionEvent(
    eventType: EventType,
    pspReference: string,
    message: string,
    amount: Option<Money>,
    externalUrl: Option<string>)

  /** `data`: `{}`, or the created order for the initialize stage. */
  datatype SessionData =
    | EmptyData
    | OrderCreated(orderId: string, amount: int, currency: string, keyId: Option<string>)

  datatype SessionBody = SessionBody(
    data: Option<SessionData>,
    transactionEvent: Option<SessionEvent>,
    errors: seq<WireError>)

  /** The 400 body for a missing field: a single INVALID error naming it. */
  function Rejected(field: string, message: string): (b: SessionBody)
    ensures b.data.None? && b.transactionEvent.None?
    ensures |b.errors| == 1 && b.errors[0].code == Invalid && b.errors[0].field == Some(field)
    ensures |b.errors| == 1 && b.errors[0].message == message
  {
    SessionBody(None, None, [WireError(Some(field), message, Invalid)])
  }
}
