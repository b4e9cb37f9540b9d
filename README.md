# QPay payment gateway for WooCommerce — a verified Dafny model

This project models the core of the QPay V2 WooCommerce plugin:

- the API client `WC_QPay_API`. It caches the access token in a WordPress transient, exchanges
  username and password for a token when the cache is empty, and POSTs to the invoice and
  payment-check endpoints. Every failure comes back as `null`.
- the invoice-creation rule of `WC_QPay_Gateway::process_payment`. It builds the request, decides
  success from the returned `invoice_id`, and writes four order metadata fields.
- the two confirmation paths: the provider's webhook `WC_QPay_Webhook::handle` and the payment
  page's poll `qpay_ajax_check_payment`. Both ask the provider whether an invoice is paid and report
  `paid` or `unpaid`. Only the webhook changes an order.

The host follows two sources. These parts follow the repository's PHPUnit stubs
(`tests/bootstrap.php`):

- a transient map whose entries never expire, and whose `get_transient` answers `false` for a
  missing key or a stored null;
- a log of outbound calls;
- a first-in first-out queue of scripted replies. An empty queue answers `200 {}`.

These parts follow WordPress and WooCommerce themselves, which the stubs do not provide:

- `set_transient` records the TTL it is given (the stub drops it);
- a scripted reply can be a `WP_Error` transport failure (the stubbed `wp_remote_*` are declared
  to return arrays, so they cannot);
- the list of checkout notices added by `wc_add_notice`;
- orders, each holding metadata, notes, a `payment_complete` counter and a save counter.

Layout, one module per file:

- `wrappers.dfy`: `Option`, standing for PHP `null`.
- `json.dfy`: decoded JSON, PHP `empty()`, `??` lookups, and the string cast with its decimal
  round trip.
- `wordpress.dfy`: the host. `Site` holds the transients, the reply queue, the call log and the
  notices. `Order` is a WooCommerce order. `FirstWithMeta` is the meta query.
- `api.dfy`: the client. The pure functions `TokenSpec` and `RequestSpec` state what a call does to
  the host state `Env` and what it returns. The methods of class `Api` run the PHP steps on a `Site`
  and are proved equal to those functions.
- `gateway.dfy`: `process_payment` and the settings it reads.
- `confirmation.dfy`: the paid predicate the two paths share.
- `webhook.dfy`, `plugin.dfy`: the two handlers.
- `scenarios.dfy`: the repository's API client test cases replayed against the model, plus
  webhook scenarios built from the handler's code (the repository has no webhook tests).

Facts about the code that the model keeps as they are:

- The access-token TTL is `(expires_in ?? 3600) - 60`. It is not clamped at 0.
- Order mutation is not idempotent. Every paid webhook calls `payment_complete` and adds a note
  (`Scenarios.TwicePaidNotification`).
- With duplicate invoice ids the webhook reconciles the first order the query returns. Which one
  that is depends on WooCommerce's query order.
- The poll's `Missing invoice_id` error is sent without a status code, so it is HTTP 200. Only the
  webhook uses 400 and 404.
- A failed payment check is not an error reply. It becomes `null`, which both paths report as
  `unpaid`.
- An invoice id or token of `"0"` counts as missing, because PHP's `empty("0")` is true.

## Model

| member | source | states |
|---|---|---|
| `Json.NatToDecimal` | includes/class-qpay-gateway.php:75 | An int cast to a string is a non-empty run of digits, with a leading zero only for 0 |
| `Json.DecimalRoundTrip` | includes/class-qpay-gateway.php:75 | The cast order id reads back as the same number |
| `Json.DecimalUnique` | includes/class-qpay-gateway.php:75 | A non-empty digit string with no leading zero (other than `"0"`) that reads back as `n` is exactly the cast of `n`. So digits, no leading zero and the round trip together fix the text |
| `Json.EmptyCases` | includes/class-qpay-api.php:32 | PHP `empty()`: null, `false`, `0`, `0.0`, `""`, `"0"` and empty arrays are empty. `true`, `-1`, a non-empty array and the strings `"00"`, `" "`, `"0.0"` and `"false"` are not |
| `Json.FieldOr` | includes/class-qpay-api.php:33 | `$o[$key] ?? $default`: the default replaces both a missing key and a null value. Any other value is returned as stored |
| `Json.Text` | includes/class-qpay-webhook.php:13 | The string cast: null gives `""`, `true` gives `"1"` and `false` gives `""`, and a string is itself. A non-negative int gives non-empty digits with no leading zero (except `"0"`) that read back as the int. A negative int gives `-` followed by such digits for its magnitude |
| `Json.TextKeepsEmptiness` | includes/class-qpay-api.php:47 | A null, bool, int or string is `empty()` exactly when its string cast is, so a truthy token passes `! $token` after the `?string` return |
| `WordPress.Dispatch` | tests/bootstrap.php:48-68 | An outbound call is logged after all earlier calls. It takes the head of the reply queue, or `200 {}` when the queue is empty, and leaves the transients alone |
| `WordPress.Site.constructor` | tests/bootstrap.php:26-28 | A host starts with the given cache and reply queue, no calls and no notices |
| `WordPress.CachedValue` | tests/bootstrap.php:31-34 | The stored value, or `false` for an absent key or a stored null |
| `WordPress.Site.GetTransient` | tests/bootstrap.php:31-34 | The stored value, or `false` for an absent key or a stored null |
| `WordPress.Site.SetTransient` | includes/class-qpay-api.php:34-36 | The key is overwritten with the value and the TTL `set_transient` is given. Nothing else changes |
| `WordPress.Site.Send` | tests/bootstrap.php:48-68 | The site's state afterwards and the reply are those of `Dispatch`. Notices are untouched |
| `WordPress.Site.AddNotice` | includes/class-qpay-gateway.php:83 | Appends one notice and changes nothing else |
| `WordPress.Order.constructor` | includes/class-qpay-gateway.php:70 | An order with the given id, email, total, payment URL and metadata, and no notes, completions or saves |
| `WordPress.Order.UpdateMeta` | includes/class-qpay-gateway.php:87-90 | One metadata key is overwritten. Notes, completions and saves are unchanged |
| `WordPress.Order.Save` | includes/class-qpay-gateway.php:91 | The save count goes up by one and nothing else changes |
| `WordPress.Order.PaymentComplete` | includes/class-qpay-webhook.php:35 | The completion count goes up by one, even on an order already completed |
| `WordPress.Order.AddOrderNote` | includes/class-qpay-webhook.php:36 | Appends one note |
| `WordPress.FirstWithMeta` | includes/class-qpay-webhook.php:19-23 | The index of the first order whose meta under the key reads as the value, or `|orders|` when none matches, and no earlier order matches |
| `QPayApi.RTrimSlash` | includes/class-qpay-api.php:13 | The result is a prefix of the input, does not end in `/`, and everything removed was `/` |
| `QPayApi.RTrimSlashIdempotent` | includes/class-qpay-api.php:13 | Trimming an already-trimmed base changes nothing |
| `QPayApi.EndpointJoin` | includes/class-qpay-api.php:62 | A trimmed base plus a path starting with `/` has exactly one `/` at the join |
| `QPayApi.DefaultEndpoints` | includes/class-qpay-api.php:9 | The default base is `https://merchant.qpay.mn`. A trailing `/` on it is dropped. The three endpoint URLs are the base plus their paths |
| `QPayApi.TokenCall` | includes/class-qpay-api.php:21-27 | The token exchange is a POST to base plus `/v2/auth/token`. It carries HTTP Basic credentials `username:password` and no body |
| `QPayApi.EndpointCall` | includes/class-qpay-api.php:49-60 | The call carries the given method, base plus endpoint, and `Bearer <token>`. It has a body exactly when the body array is non-empty, and the body is that array |
| `QPayApi.SecondsOr` | includes/class-qpay-api.php:33-36 | `?? default` read as seconds: a missing or null lifetime gives the default, and an int lifetime is used as given |
| `QPayApi.StoreGrant` | includes/class-qpay-api.php:32-37 | The access token is cached with TTL `(expires_in ?? 3600) - 60`. The refresh token is cached with TTL `(refresh_expires_in ?? 7200) - 60` only when it is non-empty; otherwise its key is untouched. No other key changes |
| `QPayApi.TokenSpec` | includes/class-qpay-api.php:16-42 | A truthy cached token is returned with no call and no change. Otherwise exactly one call, the Basic-auth token exchange, is made. A token is returned exactly when the reply decoded and has a non-empty `access_token`, which is then cached. On failure the cache is unchanged |
| `QPayApi.ExchangedTokenIsReused` | includes/class-qpay-api.php:18-19 | After a successful exchange, the next `get_token` finds the token in the cache, returns it and makes no call |
| `QPayApi.UsableToken` | includes/class-qpay-api.php:46-47 | A request goes ahead exactly when `get_token` returned a string that is truthy. A truthy cached scalar token, or a granted scalar `access_token`, is always usable, and its string cast is the token used |
| `QPayApi.Decoded` | includes/class-qpay-api.php:63-65 | A transport error gives null. Any reply gives its decoded body, whatever its status code |
| `QPayApi.RequestSpec` | includes/class-qpay-api.php:44-66 | Without a usable token the result is null and the endpoint call is never made. With a cached token exactly one call is made, the endpoint call. Without one, two calls are made: the exchange, then the endpoint. The result is the endpoint reply's decoded body whatever its status code, or null on a transport error |
| `QPayApi.PaymentCheckBody` | includes/class-qpay-api.php:75-78 | Exactly two fields: `object_type` is `INVOICE` and `object_id` is the invoice id. So the body is never empty and is always attached |
| `QPayApi.CreateInvoiceSpec` | includes/class-qpay-api.php:68-71 | With a usable token the last call is a POST of the given fields to `/v2/invoice`, and its decoded reply is returned. Without one the result is null |
| `QPayApi.CheckPaymentSpec` | includes/class-qpay-api.php:73-79 | With a usable token exactly one call follows any exchange: a POST to `/v2/payment/check` with `{object_type: "INVOICE", object_id: id}`. Its decoded reply, empty `rows` included, is returned unchanged |
| `QPayApi.Api.constructor` | includes/class-qpay-api.php:9-14 | The client keeps the username and password and the base URL with every trailing `/` removed. The base defaults to `https://merchant.qpay.mn` |
| `QPayApi.Api.GetToken` | includes/class-qpay-api.php:16-42 | Its effect on the site and its result are those of `TokenSpec` |
| `QPayApi.Api.Request` | includes/class-qpay-api.php:44-66 | Its effect on the site and its result are those of `RequestSpec` |
| `QPayApi.Api.CreateInvoice` | includes/class-qpay-api.php:68-71 | Its effect on the site and its result are those of `CreateInvoiceSpec` |
| `QPayApi.Api.CheckPayment` | includes/class-qpay-api.php:73-79 | Its effect on the site and its result are those of `CheckPaymentSpec` |
| `Gateway.ClientConfig` | includes/class-qpay-gateway.php:71 | The client built from the options keeps the username and password. Its base is a prefix of the option with no trailing `/`, and everything removed was `/` |
| `Gateway.InvoiceRequest` | includes/class-qpay-gateway.php:73-80 | Exactly six fields. `sender_invoice_no` is non-empty digits with no leading zero (except `"0"` for id 0) that read back as the id, which by `DecimalUnique` is exactly the cast `(string) $order_id`. The description is `WooCommerce Order #` followed by that text. The receiver is the billing email. Code and callback come from the settings, and the amount is the order total |
| `Gateway.InvoiceAccepted` | includes/class-qpay-gateway.php:82 | Creation succeeded exactly when `invoice_id` is non-empty; the `! $invoice` test adds nothing |
| `Gateway.InvoiceMeta` | includes/class-qpay-gateway.php:87-90 | Exactly the four QPay keys. The stored invoice id is the returned `invoice_id`, so a meta query for it matches. A QR image or text that is missing or null gives `''`, and links that are missing or null give the encoding of `[]`. Other values are stored as returned |
| `Gateway.MetaWritesAreUnion` | includes/class-qpay-gateway.php:87-90 | The four writes in sequence equal the old metadata overridden by `InvoiceMeta` |
| `Gateway.ProcessPayment` | includes/class-qpay-gateway.php:68-97 | The site changes as `CreateInvoiceSpec` says for the built request. On failure: one error notice, result `fail`, no metadata written, no save. On success: the metadata becomes old plus `InvoiceMeta`, one save, no notice, a redirect to the payment URL, and the order is findable by the returned invoice id. The order is never completed or noted here |
| `Confirmation.StatusOf` | includes/class-qpay-webhook.php:34 | Paid exactly when `rows` is non-empty. A null result is never paid |
| `Confirmation.PaidNeedsSuccessfulCheck` | qpay-woocommerce.php:50-55 | A check reads as paid only if a usable token was obtained and the check call got a decoded reply. An authentication or transport failure never yields paid |
| `Webhook.NotifiedInvoiceId` | includes/class-qpay-webhook.php:13 | A missing or null `invoice_id` is sanitised as `''`. A string id is sanitised as it is, an int id as its decimal text, and a bool as `"1"` or `''` |
| `Webhook.ConfirmationNote` | includes/class-qpay-webhook.php:36 | The note is `QPay payment confirmed. Invoice: ` followed by exactly the invoice id |
| `Webhook.Handle` | includes/class-qpay-webhook.php:10-41 | An empty sanitised id gives `Missing invoice_id` / 400 with nothing changed and no call. No matching order gives `Order not found` / 404 likewise. Otherwise the site changes as `CheckPaymentSpec` says and the reply is the check's status. Only on paid does the first matching order get one more completion and the note `QPay payment confirmed. Invoice: <id>`. No other order changes |
| `Plugin.PolledInvoiceId` | qpay-woocommerce.php:42 | A missing `invoice_id` form field is sanitised as `''`. A present one is sanitised as it is |
| `Plugin.AjaxCheckPayment` | qpay-woocommerce.php:40-56 | An empty sanitised id gives `Missing invoice_id` with status 200 and no call. Otherwise the site changes as `CheckPaymentSpec` says and the reply is the check's status, using the same predicate as the webhook. It has no order it could change |
| `Scenarios.InvoiceWithFreshCache` | tests/test-qpay-api.php:37-69 | With an empty cache: the exchange, then the invoice call, both tokens cached with TTLs 3540 and 7140, and the invoice reply returned |
| `Scenarios.InvoiceWithCachedToken` | tests/test-qpay-api.php:252-266 | With a cached token and a base ending in `/`: one call, to `https://merchant.qpay.mn/v2/invoice` |
| `Scenarios.InvoiceAfterRejectedCredentials` | tests/test-qpay-api.php:162-173 | A 401 exchange reply: null, one call, nothing cached |
| `Scenarios.InvoiceTimesOut` | tests/test-qpay-api.php:175-184 | A transport error on the invoice call: null, with the token still cached |
| `Scenarios.CheckUnpaidInvoice` | tests/test-qpay-api.php:219-237 | The payment-check body names the invoice. A reply with empty rows is returned unchanged and reads as unpaid |
| `Scenarios.NotificationWithoutInvoiceId` | includes/class-qpay-webhook.php:12-17 | A notification with no invoice id gets 400 and causes no outbound call |
| `Scenarios.NotifyPaid` | includes/class-qpay-webhook.php:33-37 | A paid check on a cached token completes and notes the order once and replies paid |
| `Scenarios.TwicePaidNotification` | includes/class-qpay-webhook.php:34-36 | Two paid notifications complete the order twice and leave two identical notes |

## Left out

- HTTP transport and its 30-second timeout. A call takes the next scripted reply, as the test stubs
  do. The timeout and the `Content-Type` header are only recorded in the call.
- Transient expiry by wall clock. TTLs are recorded, but a transient never expires, as in the stub.
  So a cached token is used whatever its age.
- base64 encoding. `Basic` holds the `username:password` text before encoding.
- JSON encoding and decoding. Outbound bodies are kept as the arrays handed to `wp_json_encode`.
  Replies and the webhook body are taken as already decoded. `_qpay_urls` holds `JsonText(v)` for
  the encoding of `v`.
- The merging of `{}` and `[]` by `json_decode(..., true)`. PHP turns both into the same empty
  array, but the model keeps `JObject(map[])` and `JList([])` apart. So `JsonText(JObject(map[]))`
  and `JsonText(JList([]))` are different values of `_qpay_urls` that stand for the same stored
  text `[]`.
- A reply body that decodes to a top-level JSON list or a bare scalar. The model only represents
  objects, and null for anything else.
- Reading `php://input` and `$_POST`. The handlers receive the decoded body and the form fields as
  parameters.
- `sanitize_text_field`. It is a function parameter of both handlers.
- `wc_get_order($order_id)`. `ProcessPayment` receives the order object itself.
- `wc_get_orders` ordering. The handler receives the orders in the order the query returns them.
- WooCommerce order statuses. `payment_complete` is recorded as a counter, and any idempotence it
  has inside WooCommerce is not shown in the source.
- Sending a reply and exiting (`wp_send_json_*`). Each is a returned `JsonReply`.
- PHP type juggling beyond null, bools, ints and strings:
  - a float or an array where a string is expected (PHP renders the float or raises a TypeError)
    reads as `""`;
  - a non-integer `expires_in` / `refresh_expires_in` (PHP coerces it or raises a TypeError) reads
    as the default.
- The `(float)` cast of the order total. The amount is an opaque `real` carried into the request.
- Concurrency between webhook and poll. The code has no locking, and each handler is modelled as
  one sequential run.
- A refresh-token exchange. The code never performs one: the refresh token is only written.
- The receipt page, including the 3-second client-side poll loop. It is HTML and JavaScript
  rendering.
- The gateway constructor and `init_form_fields`. The options the core reads are the `Settings`
  record.
- Plugin bootstrap, hook registration and `uninstall.php`. They are WordPress plumbing.
