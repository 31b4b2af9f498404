/** The payment gateway: its settings and the handlers the host calls. Each
    handler changes the order it resolves exactly as the matching function
    of module Reconcile says, and no other order. */
module Gateway {
  import opened Wrappers
  import opened Php
  import opened Orders
  import opened Client
  import opened Reconcile

  /** What `process_refund` returns: false, a `WP_Error`, or true. */
  datatype RefundResult = Declined | RefundError(code: string, message: string) | Refunded

  const RefundErrorCode := "grateful_refund_error"
  const RefundErrorMessage := "Grateful payment ID not found for this order."

  class Gateway {
    const apiKey: string
    const secretKey: string
    /** The host's `home_url()` and `get_woocommerce_currency()`. */
    const homeUrl: string
    const currency: string

    constructor (apiKey: string, secretKey: string, homeUrl: string, currency: string)
      ensures this.apiKey == apiKey && this.secretKey == secretKey
      ensures this.homeUrl == homeUrl && this.currency == currency
    {
      this.apiKey := apiKey;
      this.secretKey := secretKey;
      this.homeUrl := homeUrl;
      this.currency := currency;
    }

    /** `is_api_key_configured`: `! empty($this->api_key)`, so "0" counts as
        missing. It holds exactly when both API calls are willing to send, so
        on an enabled gateway the admin warning appears exactly when every
        create and status call would be refused. */
    function IsApiKeyConfigured(): (r: bool)
      ensures r <==> apiKey != "" && apiKey != "0"
      ensures forall data, currency :: CreateRequest(apiKey, data, currency).Some? <==> r
      ensures forall paymentId :: TruthyText(paymentId) ==> (StatusRequest(apiKey, paymentId).Some? <==> r)
    {
      TruthyText(apiKey)
    }

    method ProcessPayment(store: map<int, Order>, orderId: int, reply: HttpResponse) returns (r: PaymentResult)
      requires orderId in store
      modifies store[orderId]
      ensures var out := ProcessPaymentSpec(apiKey, currency, homeUrl, orderId, store[orderId].total,
                                            old(store[orderId].State()), reply);
              r == out.response && store[orderId].State() == out.after
    {
      var order := store[orderId];
      var data := OrderData(order.total, orderId, CallbackUrl(homeUrl, orderId));
      var created := CreatePayment(apiKey, data, currency, reply);
      if created.Some? && DecodedTruthy(Fields(created.value)) && Get(created.value, "url").Some? {
        var payment := created.value;
        order.UpdateStatus(Pending, CreatedNotePrefix + Text(Get(payment, "id").GetOr(JString("N/A"))));
        if Get(payment, "id").Some? {
          order.UpdateMetaData(PaymentIdKey, Text(payment["id"]));
        }
        r := PaymentResult("success", Offsite(Text(payment["url"])));
      } else {
        order.UpdateStatus(Failed, CreateFailedNote);
        r := PaymentResult("failure", Checkout);
      }
    }

    /** `webhook`: answers with an HTTP code; `hmac` stands for `hash_hmac('sha256', ...)`. */
    method Webhook(store: map<int, Order>, req: WebhookRequest, hmac: (string, string) -> string)
      returns (code: int)
      modifies store.Values
      ensures var v := WebhookVerdictOf(secretKey, req, hmac, store.Keys);
              code == (if v.Reject? then v.code else 200)
      ensures var v := WebhookVerdictOf(secretKey, req, hmac, store.Keys);
              v.Reject? ==> forall o :: o in store.Values ==> unchanged(o)
      ensures var v := WebhookVerdictOf(secretKey, req, hmac, store.Keys);
              v.Apply? ==>
                store[v.orderId].State() == WebhookEffect(old(store[v.orderId].State()), v.action)
                && forall o :: o in store.Values && o != store[v.orderId] ==> unchanged(o)
    {
      if !DecodedTruthy(req.data) {
        return 400;
      }
      if SignatureChecked(req.signature, secretKey) {
        var expected := hmac(req.body, secretKey);
        if expected != req.signature.value {
          return 401;
        }
      }
      var reference := ReferenceOf(req.data);
      if reference.None? || !Truthy(reference.value) {
        return 400;
      }
      var id := ResolveOrderId(reference.value);
      if id.None? || id.value !in store {
        return 404;
      }
      var order := store[id.value];
      match WebhookAction(WebhookStatus(req.data)) {
        case Complete =>
          order.PaymentComplete("");
          order.AddOrderNote(WebhookCompletedNote);
        case MarkFailed =>
          order.UpdateStatus(Failed, WebhookFailedNote);
        case MarkPending =>
          order.UpdateStatus(Pending, WebhookPendingNote);
        case Leave =>
      }
      code := 200;
    }

    /** `handle_return` for query parameters `orderId` (after `intval`, 0 when
        absent) and `hint` (the `status` parameter, "" when absent). */
    method HandleReturn(store: map<int, Order>, orderId: int, hint: string, reply: HttpResponse)
      returns (r: Redirect)
      modifies store.Values
      ensures var out := HandleReturnSpec(apiKey, orderId, old(StateOf(store, orderId)), hint, reply);
              r == out.redirect && StateOf(store, orderId) == out.after
      ensures forall o :: o in store.Values && (orderId !in store || o != store[orderId]) ==> unchanged(o)
    {
      if orderId == 0 {
        return Checkout;
      }
      if orderId !in store {
        return Checkout;
      }
      var order := store[orderId];
      var paymentId := order.GetMeta(PaymentIdKey);
      if !TruthyText(paymentId) {
        return Checkout;
      }
      var apiStatus := FetchStatus(apiKey, paymentId, reply);
      if apiStatus.Some? {
        var report := apiStatus.value;
        var validated := Text(Get(report, "status").GetOr(JString(hint)));
        UpdateOrderFromApiStatus(order, report);
        r := ApiRoute(validated, orderId);
      } else {
        r := HintRoute(hint, orderId);
      }
    }

    /** `update_order_from_api_status`. */
    method UpdateOrderFromApiStatus(order: Order, report: map<string, Value>)
      modifies order
      ensures order.State() == ApiStatusEffect(old(order.State()), report)
    {
      var word := ApiWord(report);
      var paymentId := order.GetMeta(PaymentIdKey);
      match ApiAction(word) {
        case Complete =>
          order.PaymentComplete(paymentId);
          order.AddOrderNote(ApiCompletedNotePrefix + paymentId);
        case MarkFailed =>
          order.UpdateStatus(Failed, ApiFailedNotePrefix + paymentId);
        case MarkPending =>
          order.UpdateStatus(Pending, ApiPendingNotePrefix + paymentId);
        case Leave =>
      }
    }

    /** `process_refund`: only the checks before its placeholder. */
    method ProcessRefund(store: map<int, Order>, orderId: int) returns (r: RefundResult)
      ensures r == Declined <==> orderId !in store
      ensures r.RefundError? <==> orderId in store && !TruthyText(store[orderId].GetMeta(PaymentIdKey))
      ensures r.RefundError? ==> r == RefundError(RefundErrorCode, RefundErrorMessage)
      ensures r == Refunded <==> orderId in store && TruthyText(store[orderId].GetMeta(PaymentIdKey))
    {
      if orderId !in store {
        return Declined;
      }
      var paymentId := store[orderId].GetMeta(PaymentIdKey);
      if !TruthyText(paymentId) {
        return RefundError(RefundErrorCode, RefundErrorMessage);
      }
      r := Refunded;
    }
  }
}
