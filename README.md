# Grateful Payments gateway: payment-status reconciliation in Dafny

This project models the payment gateway class of the Grateful Payments
WooCommerce plugin (`includes/Grateful_Payment_Gateway.php`), which accepts
stablecoin payments through an external payment processor. The gateway does four things:

- `process_payment` creates a remote payment. On success it sets the order
  pending, stores the processor's payment id in the `_grateful_payment_id`
  metadata and sends the shopper to the processor's page. Otherwise it fails
  the order.
- `webhook` receives the processor's push notification. It decodes the body
  and checks the HMAC signature, but only when both the header and the secret
  key are truthy. It resolves `externalReferenceId` (or
  `external_reference_id`) to an order and maps the status word to an order
  change. The answer is 400, 401, 404 or 200.
- `handle_return` handles the shopper's browser when it comes back. It fetches
  the live status from the processor, applies `update_order_from_api_status`
  and routes on the lower-cased live status. When the fetch fails it routes on
  the untrusted `status` query parameter alone and never changes the order.
- `create_grateful_payment` and `get_grateful_payment_status` are the two API
  calls. Each refuses to run without an API key, and each rejects a non-200
  answer or an answer that lacks `url` (for create) or `status` (for status).

The model follows the code as written:
- A reconciliation protocol would normally have idempotent transitions, sticky
  terminal states and a signature check that fails closed. The code has none
  of these.
- The signature is checked only when both the header and the secret are truthy.
- A late `pending` or `failed` signal moves a paid order back.
- A replayed webhook adds its note again.
- The webhook's status switch is case-sensitive and has no `processing` case.
- The status-API update lower-cases its word but ignores `completed` and `error`.

Lemmas in `Properties` pin each of these down.

Module layout:
- `Php` holds the PHP semantics the decisions depend on: truthiness (`""` and
  `"0"` are falsy), `isset`/`??` on fields, string conversion, PHP 8's loose
  `switch` comparison, `strtolower` and decimal ids.
- `Orders` holds the order record: an `OrderState` value, and an `Order` class
  whose methods stand for the host's `update_status`, `payment_complete`,
  `add_order_note` and `update_meta_data`.
- `Client` holds the two API calls. Each is a pure function of the API key and
  of the processor's reply to the request it issues.
- `Reconcile` holds the decisions and routes, plus one specification function
  per handler.
- `Gateway` holds the `Gateway` class. Its imperative handlers are proved to
  change the resolved order exactly as the `Reconcile` functions say, and to
  change no other order.
- `Properties` holds lemmas that relate several operations.

Inputs that the source takes from its environment are parameters here:
- the raw body and its decoded JSON
- the signature header
- the `order_id` query parameter after `intval` and the `status` query
  parameter after `sanitize_text_field`
- the processor's replies
- the HMAC function
- the host's order store, a map from order id to `Order`

## Model

| member | source | states |
|---|---|---|
| `Php.NatText` | includes/Grateful_Payment_Gateway.php:420 | the decimal text of an order id, as `(string) $order_data['order_id']` yields it, is non-empty, all digits and without a leading zero |
| `Php.DigitsValueOfNatText` | includes/Grateful_Payment_Gateway.php:420 | reading back the decimal text of an id gives the same id |
| `Php.LooseEquals` | includes/Grateful_Payment_Gateway.php:210-225 | against a lower-case case label, PHP 8's `switch` comparison holds exactly for that string and for boolean `true` |
| `Php.LowerIdempotent` | includes/Grateful_Payment_Gateway.php:270 | applying `strtolower` twice gives the same result as applying it once |
| `Client.CreateRequest` | includes/Grateful_Payment_Gateway.php:408-434 | no request is sent unless the API key is truthy; the request goes by POST to the `payments/new` URL with a 30 s timeout and the order total as `fiatAmount`, the store currency, the order id as its canonical decimal text (non-empty, reading back as the id, no leading zero except for id 0) as `externalReferenceId`, and the callback URL |
| `Client.CreatePayment` | includes/Grateful_Payment_Gateway.php:408-461 | the response fields are returned iff a request was sent and answered with 200 and with a `url` that is set; otherwise false |
| `Client.StatusRequest` | includes/Grateful_Payment_Gateway.php:317-336 | no status request is sent unless both the API key and the payment id are truthy; the request is a GET of `payments/<id>/status` with a 15 s timeout |
| `Client.FetchStatus` | includes/Grateful_Payment_Gateway.php:317-361 | the response fields are returned iff a request was sent and answered with 200 and with a `status` that is set; a returned answer always carries `status` |
| `Php.LowerOfWord` | includes/Grateful_Payment_Gateway.php:367 | `strtolower` leaves a word of lower-case letters unchanged |
| `Orders.Order.GetMeta` | includes/Grateful_Payment_Gateway.php:251 | `get_meta` returns the stored text, or `""` (falsy) for a key never set |
| `Reconcile.SignatureChecked` | includes/Grateful_Payment_Gateway.php:186-187 | the signature is never checked when the header is absent, empty or `"0"`, or when the secret key is empty or `"0"`, and always checked when both the header and the secret key are truthy |
| `Reconcile.SignatureRejected` | includes/Grateful_Payment_Gateway.php:186-193 | a webhook is rejected for its signature only when the signature is checked, never when the header equals the HMAC of the body, and always when a checked header differs from that HMAC |
| `Reconcile.ReferenceOf` | includes/Grateful_Payment_Gateway.php:196 | the reference is `externalReferenceId` when that is set and non-null, and `external_reference_id` otherwise; a found reference is never null and only a field map carries one |
| `Reconcile.ReferencePresent` | includes/Grateful_Payment_Gateway.php:197 | a reference passes the truthiness test exactly when one is found and it is none of `""`, `"0"`, `0` and `false` (so an integer reference such as `501` passes); a passing reference comes from a non-empty field map |
| `Reconcile.ResolveOrderId` | includes/Grateful_Payment_Gateway.php:202 | null and booleans name no order; an integer names itself; a string names an order exactly when it is non-empty decimal digits, and then the id those digits spell (`"0501"` names 501) |
| `Reconcile.WebhookStatus` | includes/Grateful_Payment_Gateway.php:209 | the switched status is never null: a set `status` is passed on unchanged, and a missing or null `status` is the empty string |
| `Reconcile.ApiWord` | includes/Grateful_Payment_Gateway.php:367 | the status word is the lower-cased text of the reply's `status`, and empty when the reply has no `status` |
| `Reconcile.ApiAction` | includes/Grateful_Payment_Gateway.php:371-388 | the API switch completes payment exactly for `success`, fails the order exactly for `failed`, sets it pending exactly for `pending` or `processing`, and otherwise does nothing |
| `Reconcile.CallbackUrl` | includes/Grateful_Payment_Gateway.php:133 | the callback URL is the home URL followed by the return path, and for a non-negative order id the query value after it is the id's canonical decimal text: it reads back as that order id and has no leading zero except for id 0 |
| `Reconcile.WebhookAction` | includes/Grateful_Payment_Gateway.php:209-225 | the webhook completes payment exactly for `"completed"`, `"success"` or boolean `true`, fails the order exactly for `"failed"` or `"error"`, sets it pending exactly for `"pending"`, and otherwise leaves it alone |
| `Reconcile.ApiRoute` | includes/Grateful_Payment_Gateway.php:269-290 | with a live status, the shopper goes to checkout exactly when the lower-cased status is `expired` or `failed`, and to the order's receipt otherwise |
| `Reconcile.HintRoute` | includes/Grateful_Payment_Gateway.php:294-308 | without a live status, the shopper goes to checkout exactly when the raw hint is `expired` or `failed` (exact match), and to the receipt otherwise, including for an empty hint |
| `Reconcile.WebhookVerdictOf` | includes/Grateful_Payment_Gateway.php:176-209 | the webhook answers 400 exactly when the body is falsy, or when the signature is accepted and the reference is falsy; 401 exactly when the body is truthy, both header and secret are truthy and the HMAC differs; 404 when the reference resolves to no known order; otherwise it applies the status action to the resolved order |
| `Reconcile.WebhookEffect` | includes/Grateful_Payment_Gateway.php:210-225 | the webhook's order change never touches the metadata or the transaction id; each action sets its status and appends its one note; leaving the order alone is the only no-op |
| `Reconcile.ApiStatusEffect` | includes/Grateful_Payment_Gateway.php:366-391 | the API-driven update never touches metadata; it changes the order iff the lower-cased word is `success`, `failed`, `pending` or `processing`; `success` marks it paid, with the stored payment id as transaction id when that id is truthy and the old transaction id kept otherwise, and appends the confirmation note naming the id; `failed` sets failed and `pending` or `processing` set pending, each appending its one note with the id and leaving the transaction id alone |
| `Reconcile.HandleReturnSpec` | includes/Grateful_Payment_Gateway.php:234-312 | order id 0, an unknown order or a falsy stored payment id send the shopper to checkout with nothing changed; the order changes only when the status fetch succeeded, and after a successful fetch it is `ApiStatusEffect` of the fetched report and the destination is `ApiRoute` of the fetched `status`; after a failed fetch the order is unchanged and the destination is `HintRoute` of the hint; the destination is always checkout or the order's receipt |
| `Reconcile.ProcessPaymentSpec` | includes/Grateful_Payment_Gateway.php:122-171 | the result is `success` iff the create call returned a response with `url`; then the order is pending, the shopper goes to that `url`, and the `id` is stored as metadata when set; when `id` is not set the metadata is unchanged; a created payment appends one note naming the id, or `N/A`; otherwise the result is `failure` to checkout and the order is failed with metadata unchanged and the one creation-failure note appended; no other metadata key or transaction id changes |
| `Orders.Order.UpdateStatus` | includes/Grateful_Payment_Gateway.php:219 | `update_status` sets the status and appends the note |
| `Orders.Order.PaymentComplete` | includes/Grateful_Payment_Gateway.php:373 | `payment_complete` marks the order paid and records a truthy transaction id |
| `Orders.Order.AddOrderNote` | includes/Grateful_Payment_Gateway.php:214 | `add_order_note` appends the note |
| `Orders.Order.UpdateMetaData` | includes/Grateful_Payment_Gateway.php:149 | `update_meta_data` sets one metadata key |
| `Gateway.Gateway.constructor` | includes/Grateful_Payment_Gateway.php:51-52 | the gateway holds the configured API key and secret key |
| `Gateway.Gateway.IsApiKeyConfigured` | includes/Grateful_Payment_Gateway.php:112-114 | the key counts as configured iff it is neither `""` nor `"0"`, and that is exactly when the create call sends a request for any order and the status call sends one for any truthy payment id, so on an enabled gateway the admin warning (line 467) shows exactly when both API calls would refuse |
| `Gateway.Gateway.ProcessPayment` | includes/Grateful_Payment_Gateway.php:122-171 | the returned array and the order's new state are those of `ProcessPaymentSpec` |
| `Gateway.Gateway.Webhook` | includes/Grateful_Payment_Gateway.php:176-229 | the HTTP code is the verdict's code or 200; a rejection changes no order; an applied action changes the resolved order as `WebhookEffect` says and no other order |
| `Gateway.Gateway.HandleReturn` | includes/Grateful_Payment_Gateway.php:234-312 | the redirect and the resolved order's new state are those of `HandleReturnSpec`; no other order changes |
| `Gateway.Gateway.UpdateOrderFromApiStatus` | includes/Grateful_Payment_Gateway.php:366-391 | the order's new state is `ApiStatusEffect` of its old state |
| `Gateway.Gateway.ProcessRefund` | includes/Grateful_Payment_Gateway.php:482-500 | false exactly for an unknown order; the `grateful_refund_error` error exactly when the stored payment id is falsy; true otherwise |
| `Properties.CreatedReferenceResolves` | includes/Grateful_Payment_Gateway.php:196-202 | the `externalReferenceId` sent at creation is truthy and resolves back to the same order id |
| `Properties.WebhookFindsCreatedOrder` | includes/Grateful_Payment_Gateway.php:176-225 | an unsigned or correctly signed webhook that carries back a created payment's reference is applied to that order with its status word's action |
| `Properties.ChannelsDisagree` | includes/Grateful_Payment_Gateway.php:210-225 | for a lower-case status word, the webhook and the status-API update act differently exactly on `completed`, `error` and `processing` |
| `Properties.BooleanStatusCompletesOnlyViaWebhook` | includes/Grateful_Payment_Gateway.php:210-213 | a JSON `true` status completes payment through the webhook's loose switch, while the status-API update reads it as `"1"` and ignores it |
| `Properties.WebhookIsCaseSensitive` | includes/Grateful_Payment_Gateway.php:210-225 | the webhook leaves the order alone for `Completed` and for `processing` |
| `Properties.NoTerminalStateGuard` | includes/Grateful_Payment_Gateway.php:217-224 | a paid order is moved to pending or failed by a later webhook, and to pending by a later API status of `pending` |
| `Properties.WebhookReplayRepeatsNote` | includes/Grateful_Payment_Gateway.php:211-215 | a `completed` webhook delivered twice gives the same status as one delivery, but the completion note is recorded twice |
| `Properties.CamelCaseReferenceWins` | includes/Grateful_Payment_Gateway.php:196-200 | a set but falsy `externalReferenceId` gives 400 even when `external_reference_id` names an order; a null one falls through to `external_reference_id` |
| `Properties.ForgedSignatureRejected` | includes/Grateful_Payment_Gateway.php:186-191 | a truthy signature header that differs from the HMAC of a truthy body under a truthy secret key is answered with 401 |
| `Properties.ZeroSignatureHeaderSkipsCheck` | includes/Grateful_Payment_Gateway.php:186-193 | a signature header of `"0"` is falsy, so the signature is never checked and never gives 401 |
| `Properties.HintNeverChangesOrder` | includes/Grateful_Payment_Gateway.php:291-309 | the order's final state after a return never depends on the query hint |
| `Properties.FailedFetchOnlyRoutes` | includes/Grateful_Payment_Gateway.php:291-309 | when the status fetch fails the order is unchanged and only the hint decides the destination |
| `Properties.HintIgnoredAfterFetch` | includes/Grateful_Payment_Gateway.php:260-270 | when the status fetch succeeds, the destination depends only on the fetched `status`, never on the hint |
| `Properties.ReturnMarksPaidOnlyOnApiSuccess` | includes/Grateful_Payment_Gateway.php:258-267 | a return marks an unpaid order paid only on a 200 reply whose lower-cased `status` is `success` |
| `Properties.ApiRouteIgnoresCase` | includes/Grateful_Payment_Gateway.php:270 | the live route does not depend on the status's letter case |
| `Properties.ApiUpdateIgnoresCase` | includes/Grateful_Payment_Gateway.php:367-388 | the status-API update does the same to an order for a `status` text and for its lower-cased form |
| `Properties.LiveAndHintRoutesDifferOnCase` | includes/Grateful_Payment_Gateway.php:270-308 | a live status of `FAILED` goes to checkout, while a hint of `FAILED` goes to the receipt |
| `Properties.CreatedPaymentThenSuccessfulReturn` | includes/Grateful_Payment_Gateway.php:142-273 | after a payment is created with a truthy id, a return whose status fetch answers `success` marks the order paid with that id as transaction id and sends the shopper to the receipt |
| `Properties.Order501Scenario` | includes/Grateful_Payment_Gateway.php:130-160 | order 501 for 42.0 USD is sent with reference `"501"`; a reply with id `pay_abc` and a url stores `pay_abc`, sets the order pending and redirects to the url |

## Left out

- HTTP transport is not modelled: `wp_remote_post`, `wp_remote_get`, `file_get_contents('php://input')`, `http_response_code`, `exit` and `wp_redirect`. Each call takes the processor's reply as a parameter; handlers return the code or redirect target. The timeouts appear only as request fields.
- `hash_hmac('sha256', ...)` is a function parameter and `hash_equals` is plain equality. The cryptography and the constant-time comparison are outside the model.
- `json_decode` is given as its result beside the raw body. JSON floats and nested arrays or objects as field values are not modelled. Field values are null, booleans, integers and strings.
- Loose comparison is PHP 8's. Under PHP 7, `0 == "completed"` would also hold, and a status of `0` would complete payment.
- `intval` and `sanitize_text_field` are not modelled. `HandleReturn` takes their results.
- `wc_get_order` accepts numeric strings that are not plain decimal digits, such as signs, decimals, exponents and whitespace. These are not modelled. The model resolves only integers and digit strings, and the store map decides which ids exist.
- Metadata values are stored as text. WooCommerce reads them back as strings after a reload.
- WooCommerce internals are simple state updates. `payment_complete`'s own status guard and its choice between `processing` and `completed` are not modelled: both become `Paid`. `update_status` always appends its note, where WooCommerce adds a transition note only on a change. `save()` is not modelled.
- `WC()->cart->empty_cart()` is not modelled, because the cart is host state outside the order.
- `get_return_url` and `wc_get_checkout_url` are not modelled. They become the abstract destinations `Receipt(orderId)` and `Checkout`.
- `error_log`, the `__()` translation wrapper, `get_api_key` (a plain accessor), `init_form_fields`, `admin_notices`, `process_admin_options` and the hook registration in the constructor are not modelled.
- `process_refund`: its `amount` and `reason` parameters and the refund itself are not modelled. The source has only a placeholder after the two checks.
- Concurrency is not modelled. Each handler runs as one step on the orders it resolves; interleavings of webhook and return are left to sequences of calls.
- `Client.CreateRequest`: the round trip between the reference and the order id is stated only for non-negative order ids. The host never issues a negative id; one would be sent with a minus sign.
- Not part of this model: grateful-payments.php (bootstrap), includes/Blocks_Support.php, src/checkout.js, webpack.config.js and includes/admin/setup.php.
