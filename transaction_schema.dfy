/** The wire vocabulary of the platform's transaction webhooks: the eight
    transaction event types, the four follow-up actions, the request-data
    schema (with its `includePspReference` default), the response schema, and
    the legacy transaction-data schema. A schema's `parse` is modelled as a
    function giving `None` exactly where the schema library would throw; keys a
    schema does not name are stripped, as the library does by default. */
module TransactionSchema {
  import opened Common

  // ---------------------------------------------------------------------------
  // Event types and actions

  datatype EventType =
    | ChargeSuccess | ChargeFailure
    | AuthorizationSuccess | AuthorizationFailure
    | RefundSuccess | RefundFailure
    | CancelSuccess | CancelFailure

  function EventTypeName(t: EventType): string {
    match t
    case ChargeSuccess => "CHARGE_SUCCESS"
    case ChargeFailure => "CHARGE_FAILURE"
    case AuthorizationSuccess => "AUTHORIZATION_SUCCESS"
    case AuthorizationFailure => "AUTHORIZATION_FAILURE"
    case RefundSuccess => "REFUND_SUCCESS"
    case RefundFailure => "REFUND_FAILURE"
    case CancelSuccess => "CANCEL_SUCCESS"
    case CancelFailure => "CANCEL_FAILURE"
  }

  const EventTypeNames: set<string> := {
    "CHARGE_SUCCESS", "CHARGE_FAILURE",
    "AUTHORIZATION_SUCCESS", "AUTHORIZATION_FAILURE",
    "REFUND_SUCCESS", "REFUND_FAILURE",
    "CANCEL_SUCCESS", "CANCEL_FAILURE"
  }

  /** The event-type enum accepts exactly the eight names and maps each back
      to the event type that carries it. */
  function ParseEventType(s: string): (r: Option<EventType>)
    ensures r.Some? <==> s in EventTypeNames
    ensures r.Some? ==> EventTypeName(r.value) == s
  {
    if s == "CHARGE_SUCCESS" then Some(ChargeSuccess)
    else if s == "CHARGE_FAILURE" then Some(ChargeFailure)
    else if s == "AUTHORIZATION_SUCCESS" then Some(AuthorizationSuccess)
    else if s == "AUTHORIZATION_FAILURE" then Some(AuthorizationFailure)
    else if s == "REFUND_SUCCESS" then Some(RefundSuccess)
    else if s == "REFUND_FAILURE" then Some(RefundFailure)
    else if s == "CANCEL_SUCCESS" then Some(CancelSuccess)
    else if s == "CANCEL_FAILURE" then Some(CancelFailure)
    else None
  }

  /** Every event type has a name in the vocabulary, and parsing that name
      gives the event type back. */
  lemma EventTypeRoundTrip(t: EventType)
    ensures EventTypeName(t) in EventTypeNames
    ensures ParseEventType(EventTypeName(t)) == Some(t)
  {
  }

  datatype Action = Charge | Authorization | Refund | Cancel

  function ActionName(a: Action): string {
    match a
    case Charge => "CHARGE"
    case Authorization => "AUTHORIZATION"
    case Refund => "REFUND"
    case Cancel => "CANCEL"
  }

  const ActionNames: set<string> := {"CHARGE", "AUTHORIZATION", "REFUND", "CANCEL"}

  function ParseAction(s: string): (r: Option<Action>)
    ensures r.Some? <==> s in ActionNames
    ensures r.Some? ==> ActionName(r.value) == s
  {
    if s == "CHARGE" then Some(Charge)
    else if s == "AUTHORIZATION" then Some(Authorization)
    else if s == "REFUND" then Some(Refund)
    else if s == "CANCEL" then Some(Cancel)
    else None
  }

  /** The action family an event type belongs to (CHARGE_SUCCESS and
      CHARGE_FAILURE belong to CHARGE, and so on). */
  function FamilyOf(t: EventType): Action {
    match t
    case ChargeSuccess | ChargeFailure => Charge
    case AuthorizationSuccess | AuthorizationFailure => Authorization
    case RefundSuccess | RefundFailure => Refund
    case CancelSuccess | CancelFailure => Cancel
  }

  predicate IsActionJson(j: Json) {
    j.JStr? && j.s in ActionNames
  }

  function ActionsToJson(acts: seq<Action>): (items: seq<Json>)
    ensures |items| == |acts|
    ensures forall i :: 0 <= i < |acts| ==> items[i] == JStr(ActionName(acts[i]))
  {
    if acts == [] then [] else [JStr(ActionName(acts[0]))] + ActionsToJson(acts[1..])
  }

  /** The actions array schema: it accepts a JSON array exactly when every
      element is one of the four action names, and keeps them in order. */
  function ParseActions(items: seq<Json>): (r: Option<seq<Action>>)
    ensures r.Some? <==> forall i :: 0 <= i < |items| ==> IsActionJson(items[i])
    ensures r.Some? ==> |r.value| == |items|
    ensures r.Some? ==> forall i :: 0 <= i < |items| ==> items[i] == JStr(ActionName(r.value[i]))
  {
    if items == [] then Some([])
    else
      var rest := ParseActions(items[1..]);
      assert forall i :: 1 <= i < |items| ==> items[i] == items[1..][i - 1];
      if items[0].JStr? && ParseAction(items[0].s).Some? && rest.Some? then
        Some([ParseAction(items[0].s).value] + rest.value)
      else
        None
  }

  lemma {:induction false} ActionsRoundTrip(acts: seq<Action>)
    ensures ParseActions(ActionsToJson(acts)) == Some(acts)
  {
    var items := ActionsToJson(acts);
    assert forall i :: 0 <= i < |items| ==> IsActionJson(items[i]) by {
      forall i | 0 <= i < |items| ensures IsActionJson(items[i]) {
        assert items[i] == JStr(ActionName(acts[i]));
      }
    }
    var parsed := ParseActions(items).value;
    forall i | 0 <= i < |acts| ensures parsed[i] == acts[i] {
      ActionNameInjective(parsed[i], acts[i]);
    }
    assert parsed == acts;
  }

  lemma ActionNameInjective(a: Action, b: Action)
    requires ActionName(a) == ActionName(b)
    ensures a == b
  {
  }

  // ---------------------------------------------------------------------------
  // Request data: `{ event: { type, includePspReference } }`

  datatype RequestEvent = RequestEvent(eventType: EventType, includePspReference: bool)

  datatype SyncWebhookRequestData = SyncWebhookRequestData(event: RequestEvent)

  function ParseData(j: Json): (r: Option<SyncWebhookRequestData>)
    ensures r.Some? <==>
      && Field(j, "event").Some?
      && Field(Field(j, "event").value, "type").Some?
      && Field(Field(j, "event").value, "type").value.JStr?
      && Field(Field(j, "event").value, "type").value.s in EventTypeNames
      && (Field(Field(j, "event").value, "includePspReference").None?
          || Field(Field(j, "event").value, "includePspReference").value.JBool?)
    ensures r.Some? ==>
      Field(Field(j, "event").value, "type") == Some(JStr(EventTypeName(r.value.event.eventType)))
    ensures r.Some? ==>
      r.value.event.includePspReference ==
        (Field(Field(j, "event").value, "includePspReference").None?
         || Field(Field(j, "event").value, "includePspReference").value.b)
  {
    match Field(j, "event")
    case None => None
    case Some(ev) =>
      match (Field(ev, "type"), Field(ev, "includePspReference"))
      case (Some(JStr(name)), None) =>
        if name in EventTypeNames then Some(SyncWebhookRequestData(RequestEvent(ParseEventType(name).value, true)))
        else None
      case (Some(JStr(name)), Some(JBool(b))) =>
        if name in EventTypeNames then Some(SyncWebhookRequestData(RequestEvent(ParseEventType(name).value, b)))
        else None
      case _ => None
  }

  function DataToJson(d: SyncWebhookRequestData): Json {
    JObj(map["event" := JObj(map[
      "type" := JStr(EventTypeName(d.event.eventType)),
      "includePspReference" := JBool(d.event.includePspReference)])])
  }

  lemma DataRoundTrip(d: SyncWebhookRequestData)
    ensures ParseData(DataToJson(d)) == Some(d)
  {
    EventTypeRoundTrip(d.event.eventType);
  }

  /** An event that leaves `includePspReference` out parses with it set to true. */
  lemma IncludePspReferenceDefaultsToTrue(t: EventType)
    ensures ParseData(JObj(map["event" := JObj(map["type" := JStr(EventTypeName(t))])]))
         == Some(SyncWebhookRequestData(RequestEvent(t, true)))
  {
    EventTypeRoundTrip(t);
  }

  // ---------------------------------------------------------------------------
  // Response: `{ pspReference?, result, amount, data?, time?, externalUrl?, message?, actions }`

  /** The values a response's `data` record may hold. */
  datatype Scalar = SStr(s: string) | SNum(n: real) | SBool(b: bool)

  datatype ResponseType = ResponseType(
    pspReference: Option<string>,
    result: EventType,
    amount: real,
    data: Option<map<string, Scalar>>,
    time: Option<string>,
    externalUrl: Option<string>,
    message: Option<string>,
    actions: seq<Action>)

  predicate IsScalarJson(j: Json) {
    j.JStr? || j.JNum? || j.JBool?
  }

  function ScalarToJson(v: Scalar): Json {
    match v
    case SStr(s) => JStr(s)
    case SNum(n) => JNum(n)
    case SBool(b) => JBool(b)
  }

  function JsonToScalar(j: Json): (v: Scalar)
    requires IsScalarJson(j)
    ensures ScalarToJson(v) == j
  {
    match j
    case JStr(s) => SStr(s)
    case JNum(n) => SNum(n)
    case JBool(b) => SBool(b)
  }

  lemma ScalarRoundTrip(v: Scalar)
    ensures JsonToScalar(ScalarToJson(v)) == v
  {
  }

  function RecordToJson(m: map<string, Scalar>): map<string, Json> {
    map k | k in m :: ScalarToJson(m[k])
  }

  /** The `data` record schema: every value must be a string, a number or a boolean. */
  function ParseScalarRecord(m: map<string, Json>): (r: Option<map<string, Scalar>>)
    ensures r.Some? <==> forall k :: k in m ==> IsScalarJson(m[k])
    ensures r.Some? ==> RecordToJson(r.value) == m
  {
    if forall k :: k in m ==> IsScalarJson(m[k]) then
      var d := map k | k in m :: JsonToScalar(m[k]);
      assert RecordToJson(d) == m;
      Some(d)
    else None
  }

  lemma RecordRoundTrip(m: map<string, Scalar>)
    ensures ParseScalarRecord(RecordToJson(m)) == Some(m)
  {
    var j := RecordToJson(m);
    assert forall k :: k in j ==> IsScalarJson(j[k]);
    var d := map k | k in j :: JsonToScalar(j[k]);
    assert ParseScalarRecord(j) == Some(d);
    forall k | k in m ensures d[k] == m[k] {
      ScalarRoundTrip(m[k]);
    }
    assert d == m;
  }

  /** An optional string field: absent, or present and a string. */
  predicate OptionalStringOk(j: Json, key: string) {
    Field(j, key).None? || Field(j, key).value.JStr?
  }

  /** An optional `data` record: absent, or an object of scalars. */
  predicate OptionalRecordOk(j: Json, key: string) {
    Field(j, key).None?
    || (Field(j, key).value.JObj?
        && forall k :: k in Field(j, key).value.fields ==> IsScalarJson(Field(j, key).value.fields[k]))
  }

  function OptionalString(j: Json, key: string): Option<string> {
    if Field(j, key).Some? && Field(j, key).value.JStr? then Some(Field(j, key).value.s) else None
  }

  /** The response schema, field by field; `isUrl` is the URL check the
      schema applies to `externalUrl`. */
  predicate ResponseShaped(j: Json, isUrl: string -> bool) {
    && j.JObj?
    && OptionalStringOk(j, "pspReference")
    && Field(j, "result").Some? && Field(j, "result").value.JStr?
    && Field(j, "result").value.s in EventTypeNames
    && Field(j, "amount").Some? && Field(j, "amount").value.JNum?
    && OptionalRecordOk(j, "data")
    && OptionalStringOk(j, "time")
    && OptionalStringOk(j, "externalUrl")
    && (OptionalString(j, "externalUrl").Some? ==> isUrl(OptionalString(j, "externalUrl").value))
    && OptionalStringOk(j, "message")
    && Field(j, "actions").Some? && Field(j, "actions").value.JArr?
    && forall i :: 0 <= i < |Field(j, "actions").value.items| ==> IsActionJson(Field(j, "actions").value.items[i])
  }

  function ParseResponse(j: Json, isUrl: string -> bool): (r: Option<ResponseType>)
    ensures r.Some? <==> ResponseShaped(j, isUrl)
    ensures r.Some? ==> Field(j, "result") == Some(JStr(EventTypeName(r.value.result)))
    ensures r.Some? ==> Field(j, "amount") == Some(JNum(r.value.amount))
    ensures r.Some? ==> Field(j, "actions") == Some(JArr(ActionsToJson(r.value.actions)))
    ensures r.Some? ==> r.value.pspReference == OptionalString(j, "pspReference")
    ensures r.Some? ==> r.value.time == OptionalString(j, "time")
    ensures r.Some? ==> r.value.externalUrl == OptionalString(j, "externalUrl")
    ensures r.Some? ==> r.value.message == OptionalString(j, "message")
    ensures r.Some? ==> r.value.data == if Field(j, "data").Some? then ParseScalarRecord(Field(j, "data").value.fields) else None
    ensures r.Some? && r.value.externalUrl.Some? ==> isUrl(r.value.externalUrl.value)
  {
    if !ResponseShaped(j, isUrl) then None
    else
      var items := Field(j, "actions").value.items;
      var acts := ParseActions(items).value;
      ActionsInverse(items, acts);
      Some(ResponseType(
        OptionalString(j, "pspReference"),
        ParseEventType(Field(j, "result").value.s).value,
        Field(j, "amount").value.n,
        if Field(j, "data").Some? then ParseScalarRecord(Field(j, "data").value.fields) else None,
        OptionalString(j, "time"),
        OptionalString(j, "externalUrl"),
        OptionalString(j, "message"),
        acts))
  }

  /** A parsed actions array serialises back to the very array it came from. */
  lemma ActionsInverse(items: seq<Json>, acts: seq<Action>)
    requires ParseActions(items) == Some(acts)
    ensures ActionsToJson(acts) == items
  {
  }

  /** Adds `key` to an object's fields when its value is present; an absent
      optional value is left out of the JSON text altogether. */
  function PutOptional(m: map<string, Json>, key: string, v: Option<Json>): map<string, Json> {
    if v.Some? then m[key := v.value] else m
  }

  function StringOpt(s: Option<string>): Option<Json> {
    if s.Some? then Some(JStr(s.value)) else None
  }

  function ResponseToJson(r: ResponseType): Json {
    var m0 := map["result" := JStr(EventTypeName(r.result)),
                  "amount" := JNum(r.amount),
                  "actions" := JArr(ActionsToJson(r.actions))];
    var m1 := PutOptional(m0, "pspReference", StringOpt(r.pspReference));
    var m2 := PutOptional(m1, "data", if r.data.Some? then Some(JObj(RecordToJson(r.data.value))) else None);
    var m3 := PutOptional(m2, "time", StringOpt(r.time));
    var m4 := PutOptional(m3, "externalUrl", StringOpt(r.externalUrl));
    JObj(PutOptional(m4, "message", StringOpt(r.message)))
  }

  /** Where each field of a response lands in its JSON form. */
  lemma ResponseJsonFields(r: ResponseType)
    ensures Field(ResponseToJson(r), "result") == Some(JStr(EventTypeName(r.result)))
    ensures Field(ResponseToJson(r), "amount") == Some(JNum(r.amount))
    ensures Field(ResponseToJson(r), "actions") == Some(JArr(ActionsToJson(r.actions)))
    ensures Field(ResponseToJson(r), "pspReference") == StringOpt(r.pspReference)
    ensures Field(ResponseToJson(r), "time") == StringOpt(r.time)
    ensures Field(ResponseToJson(r), "externalUrl") == StringOpt(r.externalUrl)
    ensures Field(ResponseToJson(r), "message") == StringOpt(r.message)
    ensures Field(ResponseToJson(r), "data") ==
      if r.data.Some? then Some(JObj(RecordToJson(r.data.value))) else None
  {
    ResponseJsonRequired(r);
    ResponseJsonOptional(r);
  }

  lemma ResponseJsonRequired(r: ResponseType)
    ensures Field(ResponseToJson(r), "result") == Some(JStr(EventTypeName(r.result)))
    ensures Field(ResponseToJson(r), "amount") == Some(JNum(r.amount))
    ensures Field(ResponseToJson(r), "actions") == Some(JArr(ActionsToJson(r.actions)))
  {
    var j := ResponseToJson(r);
    assert Field(j, "result") == Some(JStr(EventTypeName(r.result))) by { }
    assert Field(j, "amount") == Some(JNum(r.amount)) by { }
    assert Field(j, "actions") == Some(JArr(ActionsToJson(r.actions))) by { }
  }

  lemma ResponseJsonOptional(r: ResponseType)
    ensures Field(ResponseToJson(r), "pspReference") == StringOpt(r.pspReference)
    ensures Field(ResponseToJson(r), "time") == StringOpt(r.time)
    ensures Field(ResponseToJson(r), "externalUrl") == StringOpt(r.externalUrl)
    ensures Field(ResponseToJson(r), "message") == StringOpt(r.message)
    ensures Field(ResponseToJson(r), "data") ==
      if r.data.Some? then Some(JObj(RecordToJson(r.data.value))) else None
  {
    var j := ResponseToJson(r);
    assert Field(j, "pspReference") == StringOpt(r.pspReference) by { }
    assert Field(j, "time") == StringOpt(r.time) by { }
    assert Field(j, "externalUrl") == StringOpt(r.externalUrl) by { }
    assert Field(j, "message") == StringOpt(r.message) by { }
    assert Field(j, "data") == if r.data.Some? then Some(JObj(RecordToJson(r.data.value))) else None by { }
  }

  /** Every response whose external URL passes the URL check satisfies the
      response schema, and parsing it gives the same response back. */
  lemma ResponseRoundTrip(r: ResponseType, isUrl: string -> bool)
    requires r.externalUrl.Some? ==> isUrl(r.externalUrl.value)
    ensures ParseResponse(ResponseToJson(r), isUrl) == Some(r)
  {
    var j := ResponseToJson(r);
    ResponseJsonShaped(r, isUrl);
    ResponseJsonFields(r);
    if r.data.Some? {
      RecordRoundTrip(r.data.value);
    }
    var p := ParseResponse(j, isUrl).value;
    EventTypeNameInjective(p.result, r.result);
    ActionsToJsonInjective(p.actions, r.actions);
  }

  /** The JSON form of every response whose external URL passes the URL check
      has the schema's shape. */
  lemma ResponseJsonShaped(r: ResponseType, isUrl: string -> bool)
    requires r.externalUrl.Some? ==> isUrl(r.externalUrl.value)
    ensures ResponseShaped(ResponseToJson(r), isUrl)
  {
    ResponseJsonFields(r);
    EventTypeRoundTrip(r.result);
    ActionsRoundTrip(r.actions);
    if r.data.Some? {
      RecordRoundTrip(r.data.value);
    }
  }

  lemma EventTypeNameInjective(a: EventType, b: EventType)
    requires EventTypeName(a) == EventTypeName(b)
    ensures a == b
  {
  }

  lemma ActionsToJsonInjective(a: seq<Action>, b: seq<Action>)
    requires ActionsToJson(a) == ActionsToJson(b)
    ensures a == b
  {
  }

  // ---------------------------------------------------------------------------
  // Legacy transaction data

  datatype Customer = Customer(name: string, email: string, contact: string)

  datatype TransactionData = TransactionData(
    amount: real,
    currency: string,
    customer: Customer,
    notes: Option<map<string, string>>,
    orderId: string)

  /** What the legacy schema promises of a record it returns; `isEmail` is the
      e-mail check it applies to `customer.email`. */
  predicate ValidTransactionData(t: TransactionData, isEmail: string -> bool) {
    t.amount > 0.0 && isEmail(t.customer.email)
  }

  /** The `customer` object: string name, e-mail and contact, the e-mail
      passing the check. */
  function ParseCustomer(j: Json, isEmail: string -> bool): (c: Option<Customer>)
    ensures c.Some? <==>
      && Field(j, "name").Some? && Field(j, "name").value.JStr?
      && Field(j, "email").Some? && Field(j, "email").value.JStr? && isEmail(Field(j, "email").value.s)
      && Field(j, "contact").Some? && Field(j, "contact").value.JStr?
    ensures c.Some? ==>
      && Field(j, "name") == Some(JStr(c.value.name))
      && Field(j, "email") == Some(JStr(c.value.email))
      && Field(j, "contact") == Some(JStr(c.value.contact))
  {
    match (Field(j, "name"), Field(j, "email"), Field(j, "contact"))
    case (Some(JStr(n)), Some(JStr(e)), Some(JStr(c))) =>
      if isEmail(e) then Some(Customer(n, e, c)) else None
    case _ => None
  }

  function StringRecordToJson(m: map<string, string>): map<string, Json> {
    map k | k in m :: JStr(m[k])
  }

  function ParseStringRecord(m: map<string, Json>): (r: Option<map<string, string>>)
    ensures r.Some? <==> forall k :: k in m ==> m[k].JStr?
    ensures r.Some? ==> StringRecordToJson(r.value) == m
  {
    if forall k :: k in m ==> m[k].JStr? then
      var d := map k | k in m :: m[k].s;
      assert StringRecordToJson(d) == m;
      Some(d)
    else None
  }

  /** `validateTransactionData`: the record the schema yields, or `None` where
      the schema throws. It never yields a record that breaks the schema. */
  function ValidateTransactionData(j: Json, isEmail: string -> bool): (r: Option<TransactionData>)
    ensures r.Some? ==> ValidTransactionData(r.value, isEmail)
    ensures r.Some? ==> Field(j, "amount") == Some(JNum(r.value.amount))
    ensures r.Some? ==> Field(j, "order_id") == Some(JStr(r.value.orderId))
    ensures r.Some? ==> r.value.currency == Default(OptionalString(j, "currency"), DefaultCurrency)
    ensures (Field(j, "amount").None? || !Field(j, "amount").value.JNum? || Field(j, "amount").value.n <= 0.0)
            ==> r.None?
    ensures (Field(j, "order_id").None? || !Field(j, "order_id").value.JStr?) ==> r.None?
    ensures r.Some? <==>
      && Field(j, "amount").Some? && Field(j, "amount").value.JNum? && Field(j, "amount").value.n > 0.0
      && (Field(j, "currency").None? || Field(j, "currency").value.JStr?)
      && Field(j, "customer").Some? && ParseCustomer(Field(j, "customer").value, isEmail).Some?
      && (Field(j, "notes").None? ||
          (Field(j, "notes").value.JObj? && ParseStringRecord(Field(j, "notes").value.fields).Some?))
      && Field(j, "order_id").Some? && Field(j, "order_id").value.JStr?
    ensures r.Some? ==>
      Field(j, "customer").Some? && Some(r.value.customer) == ParseCustomer(Field(j, "customer").value, isEmail)
    ensures r.Some? && Field(j, "notes").Some? ==>
      Field(j, "notes").value.JObj? && r.value.notes == ParseStringRecord(Field(j, "notes").value.fields)
    ensures r.Some? && Field(j, "notes").None? ==> r.value.notes.None?
  {
    match (Field(j, "amount"), Field(j, "currency"), Field(j, "customer"), Field(j, "notes"), Field(j, "order_id"))
    case (Some(JNum(amount)), cur, Some(cust), notes, Some(JStr(orderId))) =>
      if amount > 0.0
         && (cur.None? || cur.value.JStr?)
         && ParseCustomer(cust, isEmail).Some?
         && (notes.None? || (notes.value.JObj? && ParseStringRecord(notes.value.fields).Some?))
      then
        Some(TransactionData(
          amount,
          if cur.Some? then cur.value.s else DefaultCurrency,
          ParseCustomer(cust, isEmail).value,
          if notes.Some? then ParseStringRecord(notes.value.fields) else None,
          orderId))
      else None
    case _ => None
  }

  function CustomerToJson(c: Customer): Json {
    JObj(map["name" := JStr(c.name), "email" := JStr(c.email), "contact" := JStr(c.contact)])
  }

  /** A customer whose e-mail passes the check reads back unchanged. */
  lemma CustomerRoundTrip(c: Customer, isEmail: string -> bool)
    requires isEmail(c.email)
    ensures ParseCustomer(CustomerToJson(c), isEmail) == Some(c)
  {
  }

  function TransactionDataToJson(t: TransactionData): Json {
    JObj(PutOptional(
      map["amount" := JNum(t.amount),
          "currency" := JStr(t.currency),
          "customer" := CustomerToJson(t.customer),
          "order_id" := JStr(t.orderId)],
      "notes", if t.notes.Some? then Some(JObj(StringRecordToJson(t.notes.value))) else None))
  }

  /** Every record that satisfies the legacy schema is accepted when sent, and
      comes back unchanged. */
  lemma TransactionDataRoundTrip(t: TransactionData, isEmail: string -> bool)
    requires ValidTransactionData(t, isEmail)
    ensures ValidateTransactionData(TransactionDataToJson(t), isEmail) == Some(t)
  {
    var j := TransactionDataToJson(t);
    if t.notes.Some? {
      var m := t.notes.value;
      var p := ParseStringRecord(StringRecordToJson(m));
      assert p.Some?;
      assert p.value.Keys == m.Keys;
      assert p.value == m;
      assert Field(j, "notes") == Some(JObj(StringRecordToJson(m)));
    } else {
      assert Field(j, "notes").None?;
    }
  }
}
