/** Vocabulary shared by every handler of the adapter: optional values, JSON
    bodies, JavaScript truthiness, HTTP replies, outcomes of calls into code
    outside the model, and the conversion between major units (rupees, as the
    platform speaks them) and minor units (paise, as the processor speaks them). */
module Common {

  datatype Option<+T> = None | Some(value: T)

  /** A JSON value as it appears in a request or response body. */
  datatype Json =
    | JNull
    | JBool(b: bool)
    | JNum(n: real)
    | JStr(s: string)
    | JArr(items: seq<Json>)
    | JObj(fields: map<string, Json>)

  /** `obj.key` on a parsed body: absent unless `j` is an object holding `key`. */
  function Field(j: Json, key: string): (r: Option<Json>)
    ensures r.Some? <==> j.JObj? && key in j.fields
    ensures r.Some? ==> r.value == j.fields[key]
  {
    if j.JObj? && key in j.fields then Some(j.fields[key]) else None
  }

  /** JavaScript truthiness of a JSON value: null, false, 0 and "" are falsy. */
  predicate Truthy(j: Json) {
    match j
    case JNull => false
    case JBool(b) => b
    case JNum(n) => n != 0.0
    case JStr(s) => s != ""
    case _ => true
  }

  /** Truthiness of an optional text field: absent and "" are both falsy. */
  predicate Given(s: Option<string>) {
    s.Some? && s.value != ""
  }

  /** Truthiness of an optional amount: absent and 0 are both falsy. */
  predicate GivenAmount(x: Option<real>) {
    x.Some? && x.value != 0.0
  }

  /** `s || fallback` on an optional text field. */
  function Or(s: Option<string>, fallback: string): string {
    if Given(s) then s.value else fallback
  }

  /** A destructuring default `{ s = fallback }`: it applies only when the
      field is absent, so an empty string is kept. */
  function Default(s: Option<string>, fallback: string): string {
    if s.Some? then s.value else fallback
  }

  /** The error object a failed call rejects with: its `message`, and, for an
      error raised by the processor, the nested `error.error.code`. */
  datatype Failure = Failure(message: string, code: Option<string>)

  /** `error.message || fallback` */
  function MessageOr(e: Failure, fallback: string): string {
    if e.message != "" then e.message else fallback
  }

  /** What a call into code outside the model gives back: a value, or an error
      it throws (an awaited promise that rejects). */
  datatype Outcome<+T> = Ok(value: T) | Err(error: Failure)

  /** An HTTP reply, `res.status(status).json(body)`. */
  datatype Reply<+B> = Reply(status: int, body: B)

  const DefaultCurrency: string := "INR"

  /** The id under which the platform knows this payment gateway. */
  const GatewayId: string := "razorpay.payment.gateway"

  /** `Math.round`: the nearest integer, a half rounding up. */
  function Round(x: real): (n: int)
    ensures x - 0.5 < n as real <= x + 0.5
  {
    (x + 0.5).Floor
  }

  /** Major units to minor units, `Math.round(x * 100)`. */
  function MinorUnits(major: real): (minor: int)
    ensures major * 100.0 - 0.5 < minor as real <= major * 100.0 + 0.5
  {
    Round(major * 100.0)
  }

  /** Minor units back to major units, `Number(x) / 100`, with no rounding. */
  function MajorUnits(minor: int): (major: real)
    ensures major * 100.0 == minor as real
  {
    minor as real / 100.0
  }

  /** Converting to paise and back lands within half a paisa of the amount. */
  lemma MinorUnitsRoundTrip(major: real)
    ensures -0.005 < MajorUnits(MinorUnits(major)) - major <= 0.005
  {
  }

  /** An amount that is a whole number of paise survives the round trip exactly. */
  lemma WholePaiseExact(minor: int)
    ensures MinorUnits(MajorUnits(minor)) == minor
  {
  }

  /** The processor receives 200 paise for 2.00 rupees. */
  lemma TwoRupeesIs200Paise()
    ensures MinorUnits(2.0) == 200
  {
  }
}
