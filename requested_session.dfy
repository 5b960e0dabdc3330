/** The shape shared by the charge-requested and cancel-requested webhooks.
    Neither calls the processor: a transaction without a PSP reference gets a
    failure under a fresh reference, any other transaction a logical success
    echoing its authorized amount, and an error while building the success
    (only the lookup of the allowed follow-up actions can raise one) a failure
    body of the same family. */
module RequestedSession {
  import opened Common
  import opened TransactionSchema
  import opened SessionWire

  /** `payload.transaction`: the fields the two handlers read. */
  datatype Transaction = Transaction(pspReference: Option<string>, authorizedAmount: Option<Money>)

  datatype Stage = ChargeStage | CancelStage

  function SuccessType(stage: Stage): EventType {
    match stage
    case ChargeStage => ChargeSuccess
    case CancelStage => CancelSuccess
  }

  function FailureType(stage: Stage): EventType {
    match stage
    case ChargeStage => ChargeFailure
    case CancelStage => CancelFailure
  }

  /** The action family of the stage's results. */
  function StageAction(stage: Stage): Action {
    match stage
    case ChargeStage => Charge
    case CancelStage => Cancel
  }

  function SuccessMessage(stage: Stage): string {
    match stage
    case ChargeStage => "Payment charged successfully"
    case CancelStage => "Payment cancelled successfully"
  }

  /** The `status` the success body reports for the payment. */
  function SettledStatus(stage: Stage): string {
    match stage
    case ChargeStage => "captured"
    case CancelStage => "cancelled"
  }

  function FailurePrefix(stage: Stage): string {
    match stage
    case ChargeStage => "Charge processing failed: "
    case CancelStage => "Cancel processing failed: "
  }

  const PaymentsDashboard: string := "https://dashboard.razorpay.com/app/payments/"

  /** `transaction?.authorizedAmount?.amount || 0` */
  function AuthorizedAmount(t: Option<Transaction>): (amount: real)
    ensures amount != 0.0 ==> t.Some? && t.value.authorizedAmount.Some? && amount == t.value.authorizedAmount.value.amount
    ensures t.Some? && t.value.authorizedAmount.Some? ==> amount == t.value.authorizedAmount.value.amount
    ensures !(t.Some? && t.value.authorizedAmount.Some?) ==> amount == 0.0
  {
    if t.Some? && t.value.authorizedAmount.Some? then t.value.authorizedAmount.value.amount else 0.0
  }

  /** `transaction?.authorizedAmount?.currency || "INR"` */
  function AuthorizedCurrency(t: Option<Transaction>): string {
    if t.Some? && t.value.authorizedAmount.Some? then Or(Some(t.value.authorizedAmount.value.currency), DefaultCurrency)
    else DefaultCurrency
  }

  /** `transaction?.pspReference` */
  function Reference(t: Option<Transaction>): Option<string> {
    if t.Some? then t.value.pspReference else None
  }

  /** The body for a transaction without a PSP reference. */
  function MissingReference(stage: Stage, freshId: string): (body: ResponseType)
    ensures body.result == FailureType(stage) && FamilyOf(body.result) == StageAction(stage)
    ensures body.pspReference == Some(freshId) && body.amount == 0.0 && body.actions == []
    ensures body.data == Some(map["exception" := SBool(true)])
    ensures body.externalUrl.None? && body.message == Some("Missing payment_id")
  {
    ResponseType(Some(freshId), FailureType(stage), 0.0, Some(map["exception" := SBool(true)]),
                 None, None, Some("Missing payment_id"), [])
  }

  /** The logical success: the reference, the authorized amount and currency
      and the settled status, with the payment's dashboard link. */
  function Settled(stage: Stage, id: string, t: Option<Transaction>, actions: seq<Action>): (body: ResponseType)
    ensures body.result == SuccessType(stage) && FamilyOf(body.result) == StageAction(stage)
    ensures body.pspReference == Some(id) && body.actions == actions
    ensures body.amount == AuthorizedAmount(t)
    ensures body.data.Some? && body.data.value.Keys == {"paymentId", "amount", "currency", "status"}
    ensures body.data.Some? && body.data.value["paymentId"] == SStr(id)
    ensures body.data.Some? && body.data.value["amount"] == SNum(body.amount)
    ensures body.data.Some? && body.data.value["currency"] == SStr(AuthorizedCurrency(t))
    ensures body.externalUrl == Some(PaymentsDashboard + id)
  {
    var data := map[
      "paymentId" := SStr(id),
      "amount" := SNum(AuthorizedAmount(t)),
      "currency" := SStr(AuthorizedCurrency(t)),
      "status" := SStr(SettledStatus(stage))];
    ResponseType(Some(id), SuccessType(stage), AuthorizedAmount(t), Some(data),
                 None, Some(PaymentsDashboard + id), Some(SuccessMessage(stage)), actions)
  }

  /** The failure body for an error raised while building the success. */
  function Errored(stage: Stage, id: string, e: Failure, actions: seq<Action>): (body: ResponseType)
    ensures body.result == FailureType(stage) && FamilyOf(body.result) == StageAction(stage)
    ensures body.pspReference == Some(id) && body.amount == 0.0 && body.actions == actions
    ensures body.data == Some(map["exception" := SBool(true)])
    ensures body.message.Some? && FailurePrefix(stage) <= body.message.value
    ensures body.message.Some? && body.message.value[|FailurePrefix(stage)|..] == e.message
    ensures body.externalUrl == Some(PaymentsDashboard + id)
  {
    ResponseType(Some(id), FailureType(stage), 0.0, Some(map["exception" := SBool(true)]),
                 None, Some(PaymentsDashboard + id), Some(FailurePrefix(stage) + e.message), actions)
  }

  /** Either handler. `freshId` is a newly generated UUID; `actionsFor` is the
      lookup of the follow-up actions allowed after a result, which may raise.
      `Err` is an error that escapes the handler: the lookup raising again
      inside the error branch. */
  function Handle(stage: Stage, t: Option<Transaction>, freshId: string,
                  actionsFor: EventType -> Outcome<seq<Action>>): (r: Outcome<Reply<ResponseType>>)
    requires freshId != ""
    ensures !Given(Reference(t)) ==> r == Ok(Reply(200, MissingReference(stage, freshId)))
    ensures Given(Reference(t)) ==>
      var id := Reference(t).value;
      match actionsFor(SuccessType(stage))
      case Ok(acts) => r == Ok(Reply(200, Settled(stage, id, t, acts)))
      case Err(e) =>
        match actionsFor(FailureType(stage))
        case Ok(acts) => r == Ok(Reply(200, Errored(stage, id, e, acts)))
        case Err(e2) => r == Err(e2)
    ensures r.Ok? ==> r.value.status == 200
    ensures r.Ok? ==> r.value.body.result in {SuccessType(stage), FailureType(stage)}
    ensures r.Ok? ==> FamilyOf(r.value.body.result) == StageAction(stage)
    ensures r.Ok? ==> r.value.body.pspReference.Some? && r.value.body.pspReference.value != ""
    ensures r.Ok? && r.value.body.result == SuccessType(stage) <==>
      Given(Reference(t)) && actionsFor(SuccessType(stage)).Ok?
  {
    if !Given(Reference(t)) then
      Ok(Reply(200, MissingReference(stage, freshId)))
    else
      var id := Reference(t).value;
      match actionsFor(SuccessType(stage))
      case Ok(acts) => Ok(Reply(200, Settled(stage, id, t, acts)))
      case Err(e) =>
        match actionsFor(FailureType(stage))
        case Ok(acts) => Ok(Reply(200, Errored(stage, id, e, acts)))
        case Err(e2) => Err(e2)
  }

  /** Every body either handler answers with passes the response schema and
      reads back unchanged, given that the dashboard link of the transaction's
      reference is a URL. */
  lemma HandleConformsToSchema(stage: Stage, t: Option<Transaction>, freshId: string,
                               actionsFor: EventType -> Outcome<seq<Action>>, isUrl: string -> bool)
    requires freshId != ""
    requires Given(Reference(t)) ==> isUrl(PaymentsDashboard + Reference(t).value)
    ensures var r := Handle(stage, t, freshId, actionsFor);
      r.Ok? ==> ParseResponse(ResponseToJson(r.value.body), isUrl) == Some(r.value.body)
  {
    var r := Handle(stage, t, freshId, actionsFor);
    if r.Ok? {
      ResponseRoundTrip(r.value.body, isUrl);
    }
  }

  /** Neither handler asks for anything beyond the transaction itself: the
      success body depends on the reference, the authorized amount and the
      actions only, and echoes the authorized amount. */
  lemma SettledEchoesAuthorization(stage: Stage, id: string, amount: real, currency: string, acts: seq<Action>)
    requires amount != 0.0 && currency != ""
    ensures var body := Settled(stage, id, Some(Transaction(Some(id), Some(Money(amount, currency)))), acts);
      && body.amount == amount
      && body.data.value["currency"] == SStr(currency)
      && body.data.value["status"] == SStr(SettledStatus(stage))
  {
  }
}
