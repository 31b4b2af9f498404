/** The two calls to the payment processor's API. The network is not modelled:
    each call is given the reply the processor would send to the request it
    issues, and that reply is consulted only when a request is issued. */
module Client {
  import opened Wrappers
  import opened Php

  const CreateUrl := "http://localhost:3000/api/payments/new"
  const StatusUrlPrefix := "http://localhost:3000/api/payments/"
  const StatusUrlSuffix := "/status"
  const CreateTimeout := 30
  const StatusTimeout := 15

  /** What `process_payment` hands to `create_grateful_payment`. */
  datatype OrderData = OrderData(total: real, orderId: int, callbackUrl: string)

  /** The JSON body of the create request. */
  datatype CreateBody = CreateBody(
    fiatAmount: real,
    fiatCurrency: string,
    externalReferenceId: string,
    callbackUrl: string)

  datatype Request =
    | PostRequest(url: string, apiKey: string, body: CreateBody, timeout: nat)
    | GetRequest(url: string, apiKey: string, timeout: nat)

  /** A transport error, or an HTTP status code with the decoded body. */
  datatype HttpResponse = TransportError | Reply(code: int, body: Decoded)

  /** The request `create_grateful_payment` sends, if any: none without an API key.
      The amount goes out as `fiatAmount`, the order id as text as `externalReferenceId`. */
  function CreateRequest(apiKey: string, data: OrderData, currency: string): (r: Option<Request>)
    ensures r.Some? <==> TruthyText(apiKey)
    ensures r.Some? ==> r.value.PostRequest? && r.value.url == CreateUrl && r.value.apiKey == apiKey
                        && r.value.timeout == CreateTimeout
    ensures r.Some? ==> r.value.body.fiatAmount == data.total
                        && r.value.body.fiatCurrency == currency
                        && r.value.body.callbackUrl == data.callbackUrl
    ensures r.Some? && data.orderId >= 0 ==>
              AllDigits(r.value.body.externalReferenceId)
              && DigitsValue(r.value.body.externalReferenceId) == data.orderId
              && r.value.body.externalReferenceId != ""
              && (r.value.body.externalReferenceId[0] == '0' ==> data.orderId == 0)
  {
    if !TruthyText(apiKey) then None
    else
      var reference := IntText(data.orderId);
      DigitsValueOfNatText(if data.orderId >= 0 then data.orderId else 0);
      Some(PostRequest(CreateUrl, apiKey, CreateBody(data.total, currency, reference, data.callbackUrl), CreateTimeout))
  }

  /** `create_grateful_payment`: the response fields when a request was sent,
      answered with 200, and the answer carries a `url`; false otherwise. */
  function CreatePayment(apiKey: string, data: OrderData, currency: string, reply: HttpResponse)
    : (r: Option<map<string, Value>>)
    ensures r.Some? <==> CreateRequest(apiKey, data, currency).Some? && reply.Reply? && reply.code == 200
                         && Field(reply.body, "url").Some?
    ensures r.Some? ==> reply.body == Fields(r.value) && Get(r.value, "url").Some?
  {
    if CreateRequest(apiKey, data, currency).None? then None
    else match reply
      case TransportError => None
      case Reply(code, body) =>
        if code != 200 then None
        else if Field(body, "url").None? then None
        else Some(body.m)
  }

  /** The request `get_grateful_payment_status` sends, if any: none without an
      API key or without a payment id. */
  function StatusRequest(apiKey: string, paymentId: string): (r: Option<Request>)
    ensures r.Some? <==> TruthyText(apiKey) && TruthyText(paymentId)
    ensures r.Some? ==> r.value.GetRequest? && r.value.apiKey == apiKey && r.value.timeout == StatusTimeout
                        && r.value.url == StatusUrlPrefix + paymentId + StatusUrlSuffix
  {
    if !TruthyText(apiKey) || !TruthyText(paymentId) then None
    else Some(GetRequest(StatusUrlPrefix + paymentId + StatusUrlSuffix, apiKey, StatusTimeout))
  }

  /** `get_grateful_payment_status`: the response fields when a request was sent,
      answered with 200, and the answer carries a `status`; false otherwise. */
  function FetchStatus(apiKey: string, paymentId: string, reply: HttpResponse): (r: Option<map<string, Value>>)
    ensures r.Some? <==> StatusRequest(apiKey, paymentId).Some? && reply.Reply? && reply.code == 200
                         && Field(reply.body, "status").Some?
    ensures r.Some? ==> reply.body == Fields(r.value) && Get(r.value, "status").Some?
  {
    if StatusRequest(apiKey, paymentId).None? then None
    else match reply
      case TransportError => None
      case Reply(code, body) =>
        if code != 200 then None
        else if !DecodedTruthy(body) || Field(body, "status").None? then None
        else Some(body.m)
  }
}
