/** The transaction-charge-requested webhook: a logical charge of the
    authorized amount, with no processor call. */
module ChargeRequested {
  import opened Common
  import opened TransactionSchema
  import opened RequestedSession

  function Handle(t: Option<Transaction>, freshId: string, actionsFor: EventType -> Outcome<seq<Action>>)
    : (r: Outcome<Reply<ResponseType>>)
    requires freshId != ""
    ensures r.Ok? ==> r.value.status == 200 && r.value.body.result in {ChargeSuccess, ChargeFailure}
    ensures !Given(Reference(t)) ==>
      && r.Ok? && r.value.body.result == ChargeFailure
      && r.value.body.pspReference == Some(freshId)
      && r.value.body.message == Some("Missing payment_id")
      && r.value.body.amount == 0.0 && r.value.body.actions == []
    ensures r.Ok? && r.value.body.result == ChargeSuccess ==>
      && r.value.body.pspReference == Reference(t)
      && r.value.body.amount == AuthorizedAmount(t)
      && r.value.body.externalUrl == Some(PaymentsDashboard + Reference(t).value)
      && r.value.body.data.Some?
      && "status" in r.value.body.data.value && "currency" in r.value.body.data.value
      && r.value.body.data.value["status"] == SStr("captured")
      && r.value.body.data.value["currency"] == SStr(AuthorizedCurrency(t))
    ensures Given(Reference(t)) && actionsFor(ChargeSuccess).Err? && r.Ok? ==>
      && r.value.body.result == ChargeFailure
      && r.value.body.amount == 0.0
      && r.value.body.pspReference == Reference(t)
      && r.value.body.message.Some?
      && r.value.body.message.value == "Charge processing failed: " + actionsFor(ChargeSuccess).error.message
  {
    RequestedSession.Handle(ChargeStage, t, freshId, actionsFor)
  }
}
