/** Properties of the gateway that relate several of its operations or pin
    down what the code does where a careful reconciliation protocol would
    do more (no terminal-state guard, no replay guard, two status vocabularies). */
module Properties {
  import opened Wrappers
  import opened Php
  import opened Orders
  import opened Client
  import opened Reconcile

  // ---------------------------------------------------------------------------
  // The external reference: created by `create_grateful_payment`, read by `webhook`

  /** The `externalReferenceId` sent with a create request, echoed back in a
      webhook, passes the webhook's truthiness test and resolves to the same order. */
  lemma CreatedReferenceResolves(apiKey: string, data: OrderData, currency: string)
    requires CreateRequest(apiKey, data, currency).Some?
    requires data.orderId > 0
    ensures var reference := JString(CreateRequest(apiKey, data, currency).value.body.externalReferenceId);
            Truthy(reference) && ResolveOrderId(reference) == Some(data.orderId)
  {
  }

  /** An unsigned webhook (or one signed correctly) that carries back the
      reference of a created payment is applied to that order, with the action
      its status word asks for. */
  lemma WebhookFindsCreatedOrder(apiKey: string, data: OrderData, currency: string, secretKey: string,
                                 body: string, status: Value, signature: Option<string>,
                                 hmac: (string, string) -> string, orders: set<int>)
    requires CreateRequest(apiKey, data, currency).Some?
    requires data.orderId > 0 && data.orderId in orders
    requires signature.None? || signature == Some(hmac(body, secretKey))
    ensures var reference := CreateRequest(apiKey, data, currency).value.body.externalReferenceId;
            var fields := map["externalReferenceId" := JString(reference), "status" := status];
            WebhookVerdictOf(secretKey, WebhookRequest(body, Fields(fields), signature), hmac, orders)
              == Apply(data.orderId, WebhookAction(status))
  {
    CreatedReferenceResolves(apiKey, data, currency);
    var reference := CreateRequest(apiKey, data, currency).value.body.externalReferenceId;
    var fields := map["externalReferenceId" := JString(reference), "status" := status];
    if status == JNull {
      assert WebhookStatus(Fields(fields)) == JString("");
      assert WebhookAction(JString("")) == Leave == WebhookAction(status);
    } else {
      assert Field(Fields(fields), "status") == Some(status);
    }
  }

  // ---------------------------------------------------------------------------
  // Webhook status handling

  /** The two vocabularies agree on `success`, `failed` and `pending` and on
      nothing else the gateway knows: for a lower-case status word, the webhook
      and the status API act differently exactly on `completed`, `error` and
      `processing`. */
  lemma {:induction false} ChannelsDisagree(word: string)
    requires LowerLetters(word)
    ensures WebhookAction(JString(word)) != ApiAction(ApiWord(map["status" := JString(word)]))
            <==> word == "completed" || word == "error" || word == "processing"
  {
    LowerOfWord(word);
    var report := map["status" := JString(word)];
    assert Get(report, "status") == Some(JString(word));
    assert ApiWord(report) == word;
  }

  /** A boolean `true` status completes the order through the webhook's loose
      `switch`, while the status API, which lower-cases its text "1", ignores it. */
  lemma BooleanStatusCompletesOnlyViaWebhook()
    ensures WebhookAction(JBool(true)) == Complete
    ensures ApiAction(ApiWord(map["status" := JBool(true)])) == Leave
  {
  }

  /** The webhook is case-sensitive: `Completed` leaves the order alone. */
  lemma WebhookIsCaseSensitive()
    ensures WebhookAction(JString("Completed")) == Leave
    ensures WebhookAction(JString("processing")) == Leave
  {
  }

  /** No terminal-state guard: a late `pending` or `failed` webhook moves a
      paid order out of the paid state. */
  lemma NoTerminalStateGuard(s: OrderState)
    requires s.status == Paid
    ensures WebhookEffect(s, MarkPending).status == Pending
    ensures WebhookEffect(s, MarkFailed).status == Failed
    ensures forall report :: ApiWord(report) == "pending" ==> ApiStatusEffect(s, report).status == Pending
  {
  }

  /** No replay guard: delivering a `completed` webhook twice leaves the status
      as one delivery does but records the completion note twice. */
  lemma WebhookReplayRepeatsNote(s: OrderState)
    ensures var once := WebhookEffect(s, Complete);
            var twice := WebhookEffect(once, Complete);
            twice.status == once.status == Paid && twice.meta == once.meta
            && twice.notes == s.notes + [WebhookCompletedNote, WebhookCompletedNote]
  {
  }

  /** The snake-case reference is used only when the camel-case one is absent
      or null: a falsy `externalReferenceId` is a 400 even when
      `external_reference_id` names an order. */
  lemma CamelCaseReferenceWins(secretKey: string, body: string, hmac: (string, string) -> string, orders: set<int>)
    requires 501 in orders
    ensures var fields := map["externalReferenceId" := JString(""), "external_reference_id" := JString("501")];
            WebhookVerdictOf(secretKey, WebhookRequest(body, Fields(fields), None), hmac, orders) == Reject(400)
    ensures var fields := map["externalReferenceId" := JNull, "external_reference_id" := JString("501")];
            WebhookVerdictOf(secretKey, WebhookRequest(body, Fields(fields), None), hmac, orders).Apply?
  {
    var fields := map["externalReferenceId" := JString(""), "external_reference_id" := JString("501")];
    assert Field(Fields(fields), "externalReferenceId") == Some(JString(""));
    var fields' := map["externalReferenceId" := JNull, "external_reference_id" := JString("501")];
    assert Field(Fields(fields'), "externalReferenceId") == None;
    assert Field(Fields(fields'), "external_reference_id") == Some(JString("501"));
    assert DigitsValue("501") == 501 by {
      assert "501"[..2] == "50" && "50"[..1] == "5" && "5"[..0] == "";
    }
  }

  /** A truthy signature header that differs from the HMAC of the body, with a
      truthy secret key, is answered with 401 whatever the body names. */
  lemma ForgedSignatureRejected(secretKey: string, req: WebhookRequest, hmac: (string, string) -> string,
                                orders: set<int>)
    requires DecodedTruthy(req.data)
    requires req.signature.Some? && TruthyText(req.signature.value) && TruthyText(secretKey)
    requires hmac(req.body, secretKey) != req.signature.value
    ensures WebhookVerdictOf(secretKey, req, hmac, orders) == Reject(401)
  {
  }

  /** A signature header of "0" is falsy, so no signature is checked at all. */
  lemma ZeroSignatureHeaderSkipsCheck(secretKey: string, req: WebhookRequest, hmac: (string, string) -> string,
                                      orders: set<int>)
    requires req.signature == Some("0")
    ensures WebhookVerdictOf(secretKey, req, hmac, orders) != Reject(401)
  {
  }

  // ---------------------------------------------------------------------------
  // Return handler

  /** The query hint never changes the order: whatever the hint, the order
      ends in the same state. */
  lemma HintNeverChangesOrder(apiKey: string, orderId: int, order: Option<OrderState>, hint1: string, hint2: string,
                              reply: HttpResponse)
    ensures HandleReturnSpec(apiKey, orderId, order, hint1, reply).after
            == HandleReturnSpec(apiKey, orderId, order, hint2, reply).after
  {
  }

  /** When the status fetch fails, the order is unchanged and the hint alone routes. */
  lemma FailedFetchOnlyRoutes(apiKey: string, orderId: int, order: Option<OrderState>, hint: string,
                              reply: HttpResponse)
    requires orderId != 0 && order.Some? && TruthyText(MetaOf(order.value, PaymentIdKey))
    requires FetchStatus(apiKey, MetaOf(order.value, PaymentIdKey), reply).None?
    ensures HandleReturnSpec(apiKey, orderId, order, hint, reply) == ReturnOutcome(HintRoute(hint, orderId), order)
  {
  }

  /** When the status fetch succeeds the hint is ignored: the fetched answer
      always carries `status`, so `?? $payment_status` never applies. */
  lemma HintIgnoredAfterFetch(apiKey: string, orderId: int, order: Option<OrderState>, hint1: string, hint2: string,
                              reply: HttpResponse)
    requires orderId != 0 && order.Some? && TruthyText(MetaOf(order.value, PaymentIdKey))
    requires FetchStatus(apiKey, MetaOf(order.value, PaymentIdKey), reply).Some?
    ensures var report := FetchStatus(apiKey, MetaOf(order.value, PaymentIdKey), reply).value;
            HandleReturnSpec(apiKey, orderId, order, hint1, reply).redirect
            == HandleReturnSpec(apiKey, orderId, order, hint2, reply).redirect
            == ApiRoute(Text(report["status"]), orderId)
  {
  }

  /** The return handler marks an order paid only on a 200 answer from the
      processor whose lower-cased `status` is `success`. */
  lemma ReturnMarksPaidOnlyOnApiSuccess(apiKey: string, orderId: int, s: OrderState, hint: string,
                                        reply: HttpResponse)
    requires s.status != Paid
    requires HandleReturnSpec(apiKey, orderId, Some(s), hint, reply).after.value.status == Paid
    ensures reply.Reply? && reply.code == 200 && reply.body.Fields?
    ensures ApiWord(reply.body.m) == "success"
  {
  }

  /** The live route does not depend on letter case, unlike the hint route. */
  lemma {:induction false} ApiRouteIgnoresCase(validated: string, orderId: int)
    ensures ApiRoute(Lower(validated), orderId) == ApiRoute(validated, orderId)
  {
    LowerIdempotent(validated);
  }

  /** The status-API update, like the live route, does not depend on the
      status's letter case. */
  lemma {:induction false} ApiUpdateIgnoresCase(s: OrderState, text: string)
    ensures ApiStatusEffect(s, map["status" := JString(text)])
            == ApiStatusEffect(s, map["status" := JString(Lower(text))])
  {
    LowerIdempotent(text);
  }

  lemma LiveAndHintRoutesDifferOnCase()
    ensures ApiRoute("FAILED", 7) == Checkout
    ensures HintRoute("FAILED", 7) == Receipt(7)
  {
  }

  // ---------------------------------------------------------------------------
  // Payment creation followed by the return

  /** After a payment is created with an id, a return whose status fetch answers
      `success` marks the order paid with that id as its transaction id and
      sends the shopper to the receipt. */
  lemma CreatedPaymentThenSuccessfulReturn(apiKey: string, currency: string, homeUrl: string, orderId: int,
                                           total: real, s: OrderState, createReply: HttpResponse, hint: string,
                                           statusReply: HttpResponse)
    requires orderId != 0
    requires var created := CreatePayment(apiKey, OrderData(total, orderId, CallbackUrl(homeUrl, orderId)),
                                          currency, createReply);
             created.Some? && Get(created.value, "id").Some? && TruthyText(Text(created.value["id"]))
             && var report := FetchStatus(apiKey, Text(created.value["id"]), statusReply);
                report.Some? && ApiWord(report.value) == "success"
    ensures var created := CreatePayment(apiKey, OrderData(total, orderId, CallbackUrl(homeUrl, orderId)),
                                         currency, createReply);
            var paid := ProcessPaymentSpec(apiKey, currency, homeUrl, orderId, total, s, createReply).after;
            var back := HandleReturnSpec(apiKey, orderId, Some(paid), hint, statusReply);
            back.redirect == Receipt(orderId) && back.after.value.status == Paid
            && back.after.value.transactionId == Text(created.value["id"])
  {
  }

  /** Order 501 for 42.00 USD: the create request carries reference "501" and
      the amount; a reply with id `pay_abc` and a url stores `pay_abc` on the
      order, sets it pending and sends the shopper to the url. */
  lemma Order501Scenario(apiKey: string, homeUrl: string, s: OrderState)
    requires TruthyText(apiKey)
    ensures var data := OrderData(42.0, 501, CallbackUrl(homeUrl, 501));
            var request := CreateRequest(apiKey, data, "USD").value;
            request.body == CreateBody(42.0, "USD", "501", homeUrl + ReturnPath + "501")
    ensures var reply := Reply(200, Fields(map["id" := JString("pay_abc"), "url" := JString("https://proc/pay_abc")]));
            var out := ProcessPaymentSpec(apiKey, "USD", homeUrl, 501, 42.0, s, reply);
            out.response == PaymentResult("success", Offsite("https://proc/pay_abc"))
            && MetaOf(out.after, PaymentIdKey) == "pay_abc" && out.after.status == Pending
  {
  }
}
