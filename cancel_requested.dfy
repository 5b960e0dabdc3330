/** The transaction-cancel-requested webhook: a logical cancellation, with no
    processor call. */
module CancelRequested {
  import opened Common
  import opened TransactionSchema
  import opened RequestedSession

  function Handle(t: Option<Transaction>, freshId: string, actionsFor: EventType -> Outcome<seq<Action>>)
    : (r: Outcome<Reply<ResponseType>>)
    requires freshId != ""
    ensures r.Ok? ==> r.value.status == 200 && r.value.body.result in {CancelSuccess, CancelFailure}
    ensures !Given(Reference(t)) ==>
      && r.Ok? && r.value.body.result == CancelFailure
      && r.value.body.pspReference == Some(freshId)
      && r.value.body.message == Some("Missing payment_id")
      && r.value.body.amount == 0.0 && r.value.body.actions == []
    ensures r.Ok? && r.value.body.result == CancelSuccess ==>
      && r.value.body.pspReference == Reference(t)
      && r.value.body.amount == AuthorizedAmount(t)
      && r.value.body.externalUrl == Some(PaymentsDashboard + Reference(t).value)
      && r.value.body.data.Some?
      && "status" in r.value.body.data.value && "currency" in r.value.body.data.value
      && r.value.body.data.value["status"] == SStr("cancelled")
      && r.value.body.data.value["currency"] == SStr(AuthorizedCurrency(t))
    ensures Given(Reference(t)) && actionsFor(CancelSuccess).Err? && r.Ok? ==>
      && r.value.body.result == CancelFailure
      && r.value.body.amount == 0.0
      && r.value.body.pspReference == Reference(t)
      && r.value.body.message.Some?
      && r.value.body.message.value == "Cancel processing failed: " + actionsFor(CancelSuccess).error.message
  {
    RequestedSession.Handle(CancelStage, t, freshId, actionsFor)
  }
}
