/** The gateway's decisions as pure functions: which order change a remote
    status asks for, where the shopper's browser is sent, and what each
    handler does to the state of the order it resolves. The handlers in
    module Gateway are proved to behave as these functions say. */
module Reconcile {
  import opened Wrappers
  import opened Php
  import opened Orders
  import opened Client

  /** The order change a status asks for. */
  datatype Action = Complete | MarkFailed | MarkPending | Leave

  /** Where a handler sends the browser: the checkout page, the order's
      receipt page, or a page off the store. */
  datatype Redirect = Checkout | Receipt(orderId: int) | Offsite(url: string)

  const WebhookCompletedNote := "Payment completed via Grateful Payment."
  const WebhookFailedNote := "Payment failed in Grateful."
  const WebhookPendingNote := "Payment is pending in Grateful."
  const ApiCompletedNotePrefix := "Payment status confirmed via API. Payment ID: "
  const ApiFailedNotePrefix := "Payment failed confirmed via API. Payment ID: "
  const ApiPendingNotePrefix := "Payment pending confirmed via API. Payment ID: "
  const CreatedNotePrefix := "Payment created in Grateful. Redirecting user to complete payment. Payment ID: "
  const CreateFailedNote := "Failed to create payment in Grateful. Please check API key and try again."
  const ReturnPath := "/wc-api/grateful_payment_return?order_id="

  // ---------------------------------------------------------------------------
  // Status vocabularies

  /** The webhook's `switch ($status)`: loose comparison, exact letter case,
      and no `processing` case. */
  function WebhookAction(status: Value): (a: Action)
    ensures a == Complete <==> status in {JString("completed"), JString("success"), JBool(true)}
    ensures a == MarkFailed <==> status in {JString("failed"), JString("error")}
    ensures a == MarkPending <==> status == JString("pending")
  {
    if LooseEquals(status, "completed") || LooseEquals(status, "success") then Complete
    else if LooseEquals(status, "failed") || LooseEquals(status, "error") then MarkFailed
    else if LooseEquals(status, "pending") then MarkPending
    else Leave
  }

  /** The webhook's `$data['status'] ?? ''`. */
  function WebhookStatus(data: Decoded): (r: Value)
    ensures r != JNull
    ensures Field(data, "status").None? ==> r == JString("")
    ensures Field(data, "status").Some? ==> r == Field(data, "status").value
  {
    Field(data, "status").GetOr(JString(""))
  }

  /** The switch of `update_order_from_api_status` on the lower-cased status:
      `completed` and `error` are not among its cases. */
  function ApiAction(word: string): (a: Action)
    ensures a == Complete <==> word == "success"
    ensures a == MarkFailed <==> word == "failed"
    ensures a == MarkPending <==> word == "pending" || word == "processing"
  {
    match word
    case "success" => Complete
    case "failed" => MarkFailed
    case "pending" => MarkPending
    case "processing" => MarkPending
    case _ => Leave
  }

  /** `strtolower($api_status['status'] ?? '')`. */
  function ApiWord(report: map<string, Value>): (r: string)
    ensures Lower(r) == r
    ensures Get(report, "status").None? ==> r == ""
    ensures Get(report, "status").Some? ==> r == Lower(Text(report["status"]))
  {
    var text := Text(Get(report, "status").GetOr(JString("")));
    LowerIdempotent(text);
    Lower(text)
  }

  // ---------------------------------------------------------------------------
  // Routing of the returning shopper

  /** `handle_return`'s switch on the lower-cased live status: only `expired`
      and `failed` go back to checkout, every other word to the receipt. */
  function ApiRoute(validated: string, orderId: int): (r: Redirect)
    ensures r == Checkout <==> Lower(validated) == "expired" || Lower(validated) == "failed"
    ensures r != Checkout ==> r == Receipt(orderId)
  {
    match Lower(validated)
    case "success" => Receipt(orderId)
    case "expired" => Checkout
    case "failed" => Checkout
    case "pending" => Receipt(orderId)
    case "processing" => Receipt(orderId)
    case _ => Receipt(orderId)
  }

  /** `handle_return`'s fallback switch on the raw query hint, matched exactly. */
  function HintRoute(hint: string, orderId: int): (r: Redirect)
    ensures r == Checkout <==> hint == "expired" || hint == "failed"
    ensures r != Checkout ==> r == Receipt(orderId)
  {
    match hint
    case "success" => Receipt(orderId)
    case "expired" => Checkout
    case "failed" => Checkout
    case _ => Receipt(orderId)
  }

  // ---------------------------------------------------------------------------
  // Webhook

  /** An inbound notification: the raw body, what it decodes to, and the
      `X-Grateful-Signature` header if one was sent. */
  datatype WebhookRequest = WebhookRequest(body: string, data: Decoded, signature: Option<string>)

  /** The webhook's decision: a rejection with its HTTP code, or an action on an order. */
  datatype WebhookVerdict = Reject(code: int) | Apply(orderId: int, action: Action)

  /** The signature is checked only when both the header and the secret key are truthy. */
  function SignatureChecked(signature: Option<string>, secretKey: string): (r: bool)
    ensures signature.None? || signature == Some("") || signature == Some("0") ==> !r
    ensures secretKey == "" || secretKey == "0" ==> !r
    ensures signature.Some? && TruthyText(signature.value) && TruthyText(secretKey) ==> r
  {
    signature.Some? && TruthyText(signature.value) && TruthyText(secretKey)
  }

  /** A checked signature that differs from the HMAC of the raw body. */
  function SignatureRejected(secretKey: string, req: WebhookRequest, hmac: (string, string) -> string): (r: bool)
    ensures !SignatureChecked(req.signature, secretKey) ==> !r
    ensures req.signature == Some(hmac(req.body, secretKey)) ==> !r
    ensures SignatureChecked(req.signature, secretKey) && hmac(req.body, secretKey) != req.signature.value ==> r
  {
    SignatureChecked(req.signature, secretKey) && hmac(req.body, secretKey) != req.signature.value
  }

  /** `$data['externalReferenceId'] ?? $data['external_reference_id'] ?? null`. */
  function ReferenceOf(data: Decoded): (r: Option<Value>)
    ensures r.Some? ==> data.Fields? && r.value != JNull
    ensures Field(data, "externalReferenceId").Some? ==> r == Field(data, "externalReferenceId")
    ensures Field(data, "externalReferenceId").None? ==> r == Field(data, "external_reference_id")
  {
    match Field(data, "externalReferenceId")
    case Some(v) => Some(v)
    case None => Field(data, "external_reference_id")
  }

  /** The reference passes `if (!$external_reference_id)`. */
  function ReferencePresent(data: Decoded): (r: bool)
    ensures r ==> data.Fields? && DecodedTruthy(data)
    ensures r <==> ReferenceOf(data).Some? && ReferenceOf(data).value !in {JString(""), JString("0"), JInt(0), JBool(false)}
  {
    ReferenceOf(data).Some? && Truthy(ReferenceOf(data).value)
  }

  /** The order id `wc_get_order` reads from a reference: an integer, or a
      string of decimal digits. */
  function ResolveOrderId(reference: Value): (r: Option<int>)
    ensures reference.JNull? || reference.JBool? ==> r.None?
    ensures reference.JString? && r.Some? ==> r.value >= 0 && reference.s != "" && AllDigits(reference.s)
    ensures reference.JInt? ==> r == Some(reference.i)
    ensures reference.JString? && reference.s != "" && AllDigits(reference.s) ==> r == Some(DigitsValue(reference.s))
  {
    match reference
    case JInt(i) => Some(i)
    case JString(s) => if s != "" && AllDigits(s) then Some(DigitsValue(s)) else None
    case _ => None
  }

  /** `webhook` up to the status switch. `orders` holds the ids the host resolves. */
  function WebhookVerdictOf(secretKey: string, req: WebhookRequest, hmac: (string, string) -> string,
                            orders: set<int>): (r: WebhookVerdict)
    ensures r.Reject? ==> r.code == 400 || r.code == 401 || r.code == 404
    ensures r == Reject(400) <==>
              !DecodedTruthy(req.data)
              || (!SignatureRejected(secretKey, req, hmac) && !ReferencePresent(req.data))
    ensures r == Reject(401) <==> DecodedTruthy(req.data) && SignatureRejected(secretKey, req, hmac)
    ensures r.Apply? <==>
              DecodedTruthy(req.data) && !SignatureRejected(secretKey, req, hmac) && ReferencePresent(req.data)
              && ResolveOrderId(ReferenceOf(req.data).value).Some?
              && ResolveOrderId(ReferenceOf(req.data).value).value in orders
    ensures r.Apply? ==> Some(r.orderId) == ResolveOrderId(ReferenceOf(req.data).value)
                         && r.action == WebhookAction(WebhookStatus(req.data))
  {
    if !DecodedTruthy(req.data) then Reject(400)
    else if SignatureRejected(secretKey, req, hmac) then Reject(401)
    else if !ReferencePresent(req.data) then Reject(400)
    else match ResolveOrderId(ReferenceOf(req.data).value)
      case None => Reject(404)
      case Some(id) =>
        if id !in orders then Reject(404)
        else Apply(id, WebhookAction(WebhookStatus(req.data)))
  }

  /** What the webhook's status switch does to the order: it never touches the
      metadata or the transaction id, and it adds exactly one note unless it
      leaves the order alone. */
  function WebhookEffect(s: OrderState, a: Action): (r: OrderState)
    ensures r.meta == s.meta && r.transactionId == s.transactionId
    ensures a == Leave <==> r == s
    ensures a == Complete ==> r.status == Paid && r.notes == s.notes + [WebhookCompletedNote]
    ensures a == MarkFailed ==> r.status == Failed && r.notes == s.notes + [WebhookFailedNote]
    ensures a == MarkPending ==> r.status == Pending && r.notes == s.notes + [WebhookPendingNote]
  {
    match a
    case Complete => WithNote(PaymentCompleted(s, ""), WebhookCompletedNote)
    case MarkFailed => WithStatus(s, Failed, WebhookFailedNote)
    case MarkPending => WithStatus(s, Pending, WebhookPendingNote)
    case Leave => s
  }

  // ---------------------------------------------------------------------------
  // Return from the processor's page

  /** `update_order_from_api_status`: only the order's status, transaction id
      and notes change, and the transaction id only to the stored payment id. */
  function ApiStatusEffect(s: OrderState, report: map<string, Value>): (r: OrderState)
    ensures r.meta == s.meta
    ensures ApiAction(ApiWord(report)) == Leave <==> r == s
    ensures r.transactionId != s.transactionId ==> r.transactionId == MetaOf(s, PaymentIdKey)
    ensures r.status != s.status ==> ApiAction(ApiWord(report)) != Leave
    ensures ApiWord(report) == "success" ==> r.status == Paid
    ensures ApiWord(report) == "success" && TruthyText(MetaOf(s, PaymentIdKey)) ==>
              r.transactionId == MetaOf(s, PaymentIdKey)
    ensures ApiWord(report) == "success" && !TruthyText(MetaOf(s, PaymentIdKey)) ==>
              r.transactionId == s.transactionId
    ensures ApiAction(ApiWord(report)) == Complete ==>
              r.status == Paid && r.notes == s.notes + [ApiCompletedNotePrefix + MetaOf(s, PaymentIdKey)]
    ensures ApiAction(ApiWord(report)) == MarkFailed ==>
              r.status == Failed && r.transactionId == s.transactionId
              && r.notes == s.notes + [ApiFailedNotePrefix + MetaOf(s, PaymentIdKey)]
    ensures ApiAction(ApiWord(report)) == MarkPending ==>
              r.status == Pending && r.transactionId == s.transactionId
              && r.notes == s.notes + [ApiPendingNotePrefix + MetaOf(s, PaymentIdKey)]
    ensures ApiWord(report) == "failed" ==> r.status == Failed
    ensures ApiWord(report) == "pending" || ApiWord(report) == "processing" ==> r.status == Pending
  {
    var pid := MetaOf(s, PaymentIdKey);
    match ApiAction(ApiWord(report))
    case Complete => WithNote(PaymentCompleted(s, pid), ApiCompletedNotePrefix + pid)
    case MarkFailed => WithStatus(s, Failed, ApiFailedNotePrefix + pid)
    case MarkPending => WithStatus(s, Pending, ApiPendingNotePrefix + pid)
    case Leave => s
  }

  /** The browser's destination and the order's state after `handle_return`. */
  datatype ReturnOutcome = ReturnOutcome(redirect: Redirect, after: Option<OrderState>)

  /** `handle_return` for query parameters `orderId` (after `intval`, 0 when
      absent) and `hint`, the order `wc_get_order` finds, and the processor's
      reply to a status request. */
  function HandleReturnSpec(apiKey: string, orderId: int, order: Option<OrderState>, hint: string,
                            reply: HttpResponse): (r: ReturnOutcome)
    ensures r.after.Some? <==> order.Some?
    ensures r.redirect == Checkout || r.redirect == Receipt(orderId)
    ensures orderId == 0 || order.None? || !TruthyText(MetaOf(order.value, PaymentIdKey)) ==>
              r == ReturnOutcome(Checkout, order)
    ensures r.after != order ==> FetchStatus(apiKey, MetaOf(order.value, PaymentIdKey), reply).Some?
    ensures orderId != 0 && order.Some? && FetchStatus(apiKey, MetaOf(order.value, PaymentIdKey), reply).Some? ==>
              var report := FetchStatus(apiKey, MetaOf(order.value, PaymentIdKey), reply).value;
              r.after == Some(ApiStatusEffect(order.value, report))
              && r.redirect == ApiRoute(Text(Get(report, "status").GetOr(JString(hint))), orderId)
    ensures orderId != 0 && order.Some? && TruthyText(MetaOf(order.value, PaymentIdKey))
            && FetchStatus(apiKey, MetaOf(order.value, PaymentIdKey), reply).None? ==>
              r == ReturnOutcome(HintRoute(hint, orderId), order)
  {
    if orderId == 0 then ReturnOutcome(Checkout, order)
    else if order.None? then ReturnOutcome(Checkout, order)
    else
      var pid := MetaOf(order.value, PaymentIdKey);
      if !TruthyText(pid) then ReturnOutcome(Checkout, order)
      else match FetchStatus(apiKey, pid, reply)
        case Some(report) =>
          var validated := Text(Get(report, "status").GetOr(JString(hint)));
          ReturnOutcome(ApiRoute(validated, orderId), Some(ApiStatusEffect(order.value, report)))
        case None =>
          ReturnOutcome(HintRoute(hint, orderId), order)
  }

  // ---------------------------------------------------------------------------
  // Payment creation

  /** `home_url('/wc-api/grateful_payment_return?order_id=' . $order_id)`. */
  function CallbackUrl(homeUrl: string, orderId: int): (r: string)
    ensures |r| > |homeUrl| + |ReturnPath| && r[..|homeUrl| + |ReturnPath|] == homeUrl + ReturnPath
    ensures orderId >= 0 ==>
              var query := r[|homeUrl| + |ReturnPath|..];
              AllDigits(query) && DigitsValue(query) == orderId
              && query != "" && (query[0] == '0' ==> orderId == 0)
  {
    DigitsValueOfNatText(if orderId >= 0 then orderId else 0);
    homeUrl + ReturnPath + IntText(orderId)
  }

  /** The array `process_payment` returns to the host. */
  datatype PaymentResult = PaymentResult(result: string, redirect: Redirect)

  datatype PaymentOutcome = PaymentOutcome(response: PaymentResult, after: OrderState)

  /** `process_payment` for an order with state `s`, given the processor's reply
      to the create request. */
  function ProcessPaymentSpec(apiKey: string, currency: string, homeUrl: string, orderId: int, total: real,
                              s: OrderState, reply: HttpResponse): (r: PaymentOutcome)
    ensures var created := CreatePayment(apiKey, OrderData(total, orderId, CallbackUrl(homeUrl, orderId)), currency, reply);
            (r.response.result == "success" <==> created.Some?)
            && (created.Some? ==> r.after.status == Pending
                                  && r.response.redirect == Offsite(Text(created.value["url"])))
            && (created.Some? && Get(created.value, "id").Some? ==>
                  MetaOf(r.after, PaymentIdKey) == Text(created.value["id"]))
            && (created.Some? && Get(created.value, "id").None? ==> r.after.meta == s.meta)
            && (created.Some? ==>
                  r.after.notes == s.notes + [CreatedNotePrefix + Text(Get(created.value, "id").GetOr(JString("N/A")))])
            && (created.None? ==> r.after.notes == s.notes + [CreateFailedNote])
    ensures r.response.result != "success" ==>
              r.response == PaymentResult("failure", Checkout) && r.after.status == Failed && r.after.meta == s.meta
    ensures r.after.transactionId == s.transactionId
    ensures forall k :: k in s.meta && k != PaymentIdKey ==> k in r.after.meta && r.after.meta[k] == s.meta[k]
    ensures r.after.meta.Keys <= s.meta.Keys + {PaymentIdKey}
  {
    var data := OrderData(total, orderId, CallbackUrl(homeUrl, orderId));
    var created := CreatePayment(apiKey, data, currency, reply);
    if created.Some? && DecodedTruthy(Fields(created.value)) && Get(created.value, "url").Some? then
      var payment := created.value;
      var idText := Text(Get(payment, "id").GetOr(JString("N/A")));
      var pending := WithStatus(s, Pending, CreatedNotePrefix + idText);
      var stored := if Get(payment, "id").Some? then WithMeta(pending, PaymentIdKey, Text(payment["id"])) else pending;
      PaymentOutcome(PaymentResult("success", Offsite(Text(payment["url"]))), stored)
    else
      PaymentOutcome(PaymentResult("failure", Checkout), WithStatus(s, Failed, CreateFailedNote))
  }
}
