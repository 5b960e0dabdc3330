/** The create-order route: check the required fields, derive a receipt of at
    most 40 characters from the checkout id, create the processor order with
    the full checkout id kept in its notes, and echo the order back. */
module CreateOrderRoute {
  import opened Common
  import opened Processor

  /** The processor's ceiling on receipt length. */
  const MaxReceiptLength: nat := 40

  predicate IsLowerHex(s: string) {
    forall i :: 0 <= i < |s| ==> s[i] in "0123456789abcdef"
  }

  /** An MD5 digest (RFC 1321) written as 32 lower-case hex digits. */
  type HexDigest = s: string | |s| == 32 && IsLowerHex(s)
    witness "00000000000000000000000000000000"

  /** `s.substring(0, n)` */
  function Prefix(s: string, n: nat): (r: string)
    ensures |r| <= n && r <= s
    ensures |s| <= n ==> r == s
  {
    if |s| <= n then s else s[..n]
  }

  /** `s.length` in JavaScript: the number of UTF-16 code units, two for a
      character outside the Basic Multilingual Plane and one otherwise. */
  function Utf16Length(s: string): (n: nat)
    ensures |s| <= n <= 2 * |s|
    ensures (forall i :: 0 <= i < |s| ==> s[i] as int <= 0xFFFF) ==> n == |s|
  {
    if s == [] then 0
    else
      assert forall i :: 0 <= i < |s[1..]| ==> s[1..][i] == s[i + 1];
      (if s[0] as int > 0xFFFF then 2 else 1) + Utf16Length(s[1..])
  }

  /** A hex digest is as long in UTF-16 code units as in characters. */
  lemma HexUtf16Length(s: string)
    requires IsLowerHex(s)
    ensures Utf16Length(s) == |s|
  {
    forall i | 0 <= i < |s| ensures s[i] as int <= 0xFFFF {
      HexDigitIsNarrow(s[i]);
    }
  }

  lemma HexDigitIsNarrow(c: char)
    requires c in "0123456789abcdef"
    ensures c as int <= 0xFFFF
  {
    assert c as int < 128;
  }

  /** The receipt for a checkout id: the id itself when its JavaScript length
      is at most 40, otherwise its MD5 hex digest (`md5`) cut to 40
      characters, which is the whole 32-character digest. */
  function Receipt(checkoutId: string, md5: string -> HexDigest): (r: string)
    ensures Utf16Length(r) <= MaxReceiptLength && |r| <= MaxReceiptLength
    ensures Utf16Length(checkoutId) <= MaxReceiptLength ==> r == checkoutId
    ensures Utf16Length(checkoutId) > MaxReceiptLength ==> r == md5(checkoutId) && |r| == 32 && IsLowerHex(r)
  {
    if Utf16Length(checkoutId) > MaxReceiptLength then
      HexUtf16Length(md5(checkoutId));
      Prefix(md5(checkoutId), MaxReceiptLength)
    else checkoutId
  }

  /** An id of 21 emoji is 21 characters but 42 UTF-16 code units, so it is
      replaced by its digest. */
  lemma AstralIdIsHashed(md5: string -> HexDigest)
    ensures var id := seq(21, _ => '\U{1F600}'); Receipt(id, md5) == md5(id)
  {
    var id := seq(21, _ => '\U{1F600}');
    assert Utf16Length(id) == 42 by { AllAstral(id); }
  }

  lemma {:induction false} AllAstral(s: string)
    requires forall i :: 0 <= i < |s| ==> s[i] == '\U{1F600}'
    ensures Utf16Length(s) == 2 * |s|
  {
    if s != [] {
      assert forall i :: 0 <= i < |s[1..]| ==> s[1..][i] == s[i + 1];
      AllAstral(s[1..]);
    }
  }

  /** A receipt is its own receipt: building one from a receipt changes nothing. */
  lemma ReceiptIdempotent(checkoutId: string, md5: string -> HexDigest)
    ensures Receipt(Receipt(checkoutId, md5), md5) == Receipt(checkoutId, md5)
  {
  }

  /** Two checkout ids that fit the ceiling never share a receipt, and a long
      id never takes the receipt of a short id of another length than 32. */
  lemma ReceiptSeparatesIds(a: string, b: string, md5: string -> HexDigest)
    requires Receipt(a, md5) == Receipt(b, md5)
    ensures Utf16Length(a) <= MaxReceiptLength && Utf16Length(b) <= MaxReceiptLength ==> a == b
    ensures Utf16Length(a) > MaxReceiptLength && Utf16Length(b) <= MaxReceiptLength ==> |b| == 32
  {
  }

  /** The route's JSON body; a field the client leaves out is `None`. */
  datatype CreateOrderBody = CreateOrderBody(
    amount: Option<real>,
    currency: Option<string>,
    checkoutId: Option<string>,
    customerEmail: Option<string>,
    customerName: Option<string>,
    customerPhone: Option<string>)

  datatype RouteReply =
    | RouteError(error: string)
    | RouteOrder(orderId: string, amount: int, currency: string)

  /** Adds a note when its value was sent; an undefined value is dropped when
      the request is serialised. */
  function PutNote(notes: map<string, string>, key: string, v: Option<string>): map<string, string> {
    if v.Some? then notes[key := v.value] else notes
  }

  /** The notes of the order: the full checkout id and whichever customer
      fields were sent. */
  function OrderNotes(body: CreateOrderBody): (notes: map<string, string>)
    requires body.checkoutId.Some?
    ensures "checkout_id" in notes && notes["checkout_id"] == body.checkoutId.value
    ensures "customer_email" in notes <==> body.customerEmail.Some?
    ensures body.customerEmail.Some? ==> notes["customer_email"] == body.customerEmail.value
    ensures "customer_name" in notes <==> body.customerName.Some?
    ensures body.customerName.Some? ==> notes["customer_name"] == body.customerName.value
    ensures "customer_phone" in notes <==> body.customerPhone.Some?
    ensures body.customerPhone.Some? ==> notes["customer_phone"] == body.customerPhone.value
    ensures notes.Keys <= {"checkout_id", "customer_email", "customer_name", "customer_phone"}
  {
    var n0 := map["checkout_id" := body.checkoutId.value];
    var n1 := PutNote(n0, "customer_email", body.customerEmail);
    var n2 := PutNote(n1, "customer_name", body.customerName);
    PutNote(n2, "customer_phone", body.customerPhone)
  }

  predicate HasRequiredFields(body: CreateOrderBody) {
    GivenAmount(body.amount) && Given(body.currency) && Given(body.checkoutId)
  }

  /** The order the route asks the processor for. */
  function RouteOrderRequest(body: CreateOrderBody, md5: string -> HexDigest): (req: OrderRequest)
    requires HasRequiredFields(body)
    ensures req.amount == MinorUnits(body.amount.value)
    ensures req.currency == body.currency.value
    ensures req.receipt == Receipt(body.checkoutId.value, md5) && |req.receipt| <= MaxReceiptLength
    ensures req.paymentCapture
    ensures req.notes.Some? && req.notes.value == OrderNotes(body)
  {
    OrderRequest(
      MinorUnits(body.amount.value),
      body.currency.value,
      Receipt(body.checkoutId.value, md5),
      true,
      Some(OrderNotes(body)))
  }

  /** `POST /api/create-razorpay-order`. */
  function Post(body: CreateOrderBody, md5: string -> HexDigest, orders: OrderRequest -> Outcome<Order>)
    : (r: Reply<RouteReply>)
    ensures !HasRequiredFields(body) <==> r == Reply(400, RouteError("Missing required fields"))
    ensures HasRequiredFields(body) ==>
      match orders(RouteOrderRequest(body, md5))
      case Ok(order) => r == Reply(200, RouteOrder(order.id, order.amount, order.currency))
      case Err(e) => r == Reply(500, RouteError(MessageOr(e, "Failed to create order")))
    ensures r.status in {200, 400, 500}
  {
    if !HasRequiredFields(body) then
      Reply(400, RouteError("Missing required fields"))
    else
      match orders(RouteOrderRequest(body, md5))
      case Ok(order) => Reply(200, RouteOrder(order.id, order.amount, order.currency))
      case Err(e) => Reply(500, RouteError(MessageOr(e, "Failed to create order")))
  }

  /** A request missing a required field is answered without asking the
      processor for anything: any two processors give the same reply. */
  lemma MissingFieldsCreateNoOrder(
    body: CreateOrderBody, md5: string -> HexDigest,
    orders1: OrderRequest -> Outcome<Order>, orders2: OrderRequest -> Outcome<Order>)
    requires !HasRequiredFields(body)
    ensures Post(body, md5, orders1) == Post(body, md5, orders2)
    ensures Post(body, md5, orders1).status == 400
  {
  }
}
