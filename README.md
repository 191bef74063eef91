# IDPay payment gateway for WooCommerce — a verified model

This project models the payment core of the IDPay gateway plugin for WooCommerce: the class
`WC_IDPay` in `includes/wc-gateway-idpay-init.php`. It covers:

- the **transaction initiator** (`idpay_checkout_receipt_page`). It converts the order total to the gateway's unit, asks the gateway to create a transaction, stores the transaction id together with the "created" remote status, and redirects the payer to the payment link;
- the **return reconciler** (`idpay_checkout_return_handler`), which processes the payer's return callback. In order, it:
  - validates the callback;
  - rejects a transaction id other than the stored one (`double_spending_occurred`);
  - short-circuits orders that are already settled;
  - stores an optimistic metadata snapshot from the callback;
  - fails when the callback status is not "submitted" (10);
  - otherwise calls the verify endpoint, overwrites the metadata with the verified values, and applies the consistency gate (status, track id and amount present, and the amount equal to the order's converted total) before committing `processing` or `failed`;
- the **bounded retry loop** (`call_gateway_endpoint`). It makes up to four posts, repeats only on a transport error, and returns the first other response unchanged;
- **notice rendering** (`idpay_display_success_message`, `idpay_display_failed_message`). Each substitutes `{track_id}` with the stored track id and then `{order_id}` with the order id;
- the two **currency filters** `wc_idpay_currencies` and `wc_idpay_currency_symbol`.

Layout:

- `php.dfy`: the PHP values the plugin stores. A numeric value is `Int`; everything else is `Str`. The module also gives `empty()` on strings and on decoded fields, and `get_post_meta`, where a missing key and a stored NULL both read as `""`.
- `remote.dfy`: the requests and the decoded replies of the gateway's REST API. The transport is an oracle `(request, attempt number) -> response`. `RetryFrom`/`Retry` specify the retry loop.
- `notices.dfy`: `str_replace` as `ReplaceAll`, and the rendering of the configured messages.
- `reconcile.dfy`: the two handlers as pure functions `ReturnSpec` and `ReceiptSpec`. Each maps the order, the request and the gateway's replies to the handler's `Effects`: the metadata written, the final status, and the notes, notices, redirects and posts it adds.
- `properties.dfy`: the reconciliation rules, proved as lemmas about those functions.
- `gateway.dfy`: the imperative model. `Order` has a metadata `map` and a status changed in place. `Site` holds the request's notice queue, redirect, cart and network log. `WcIdPay` holds the handler methods, each proved to have exactly the effects its specification function describes.
- `currencies.dfy`: the currency filters.

## Model

| member | source | states |
|---|---|---|
| Gateway.WcIdPay.CallGatewayEndpoint | includes/wc-gateway-idpay-init.php:614-627 | the loop makes between one and four posts, all but the last failed in transport, the response returned is the last post's answer unchanged, it is a transport error only after four posts, and the whole outcome equals the retry specification `Retry` |
| Remote.RetryBound | includes/wc-gateway-idpay-init.php:614-627 | at most four posts; each post before the last failed in transport; the last answer is returned as it is (even an HTTP error); the result is a transport error exactly when all four attempts failed |
| Remote.RetryFromStops | includes/wc-gateway-idpay-init.php:616-624 | from any attempt on, the loop stops at the first answer that is not a transport error, or at the fourth attempt |
| Remote.SandboxHeader | includes/wc-gateway-idpay-init.php:300 | the `X-SANDBOX` header is "false" exactly when the sandbox option is "no", and "true" exactly otherwise |
| Gateway.WcIdPay.CheckoutReceiptPage | includes/wc-gateway-idpay-init.php:292-389 | the order's metadata, status and notes and the request's notices, redirects and posts change exactly as `ReceiptSpec` says |
| Properties.UnsupportedCurrencyStops | includes/wc-gateway-idpay-init.php:313-322 | an empty converted amount gives the "Selected currency is not supported" notice and nothing else: no post, no write, no note, no redirect |
| Properties.CreationWritesOnlyWhenAccepted | includes/wc-gateway-idpay-init.php:348-388 | metadata is written exactly when the create reply is HTTP 201 with a non-empty id and link; it is then the transaction id and status 1, followed by a redirect to the link; otherwise nothing is written and there is no redirect; at most four posts, all of them the create request; the status never changes |
| Reconcile.DoubleSpendingOccurred | includes/wc-gateway-idpay-init.php:655-661 | the callback id differs from the stored transaction id; pinned down by `Properties.CreatedTransactionIsAuthoritative` (after creation exactly the created id passes) and `Properties.InvalidCallbackRejected` (a mismatch rejects the callback) |
| Properties.CreatedTransactionIsAuthoritative | includes/wc-gateway-idpay-init.php:380-383 | after a created transaction, a callback passes `double_spending_occurred` exactly when it presents the created id, and the stored status 1 does not count as settled |
| Gateway.WcIdPay.CheckoutReturnHandler | includes/wc-gateway-idpay-init.php:394-571 | the order found (if any) and the request change exactly as `ReturnSpec` says |
| Gateway.WcIdPay.ReconcileOrder | includes/wc-gateway-idpay-init.php:422-571 | for a callback with non-empty ids and an existing order, the order and the request change exactly as `ReturnSpec` says |
| Gateway.WcIdPay.VerifyPayment | includes/wc-gateway-idpay-init.php:460-571 | once the snapshot is stored and the status is 10, the verify call and what follows change the order and the request as `ReturnSpec` says |
| Gateway.WcIdPay.ReconcileVerifyResponse | includes/wc-gateway-idpay-init.php:480-571 | the handling of the verify response changes the order and the request as `VerifyOutcome` says |
| Gateway.WcIdPay.CommitVerifiedReply | includes/wc-gateway-idpay-init.php:514-569 | for a 200 reply: the payment-status note, the eight verified metadata values, the inconsistency note when the gate fails, and the final status, notice and redirect, all as `VerifyOutcome` says |
| Gateway.WcIdPay.CommitStatus | includes/wc-gateway-idpay-init.php:553-569 | a failed outcome sets `failed`, shows the failure notice and redirects to checkout; a paid outcome calls `payment_complete` with the verified id, sets `processing`, empties the cart once, shows the success notice and redirects to the success return URL |
| Gateway.WcIdPay.StoreCallbackMeta | includes/wc-gateway-idpay-init.php:443-450 | the seven writes store exactly the snapshot of the callback over the previous metadata |
| Gateway.WcIdPay.StoreVerifiedMeta | includes/wc-gateway-idpay-init.php:533-541 | the eight writes store exactly the verified values, with empty fields as NULL, over the previous metadata |
| Gateway.WcIdPay.DisplayInvalidOrderMessage | includes/wc-gateway-idpay-init.php:578-584 | exactly one error notice with the invalid-order text is queued |
| Gateway.WcIdPay.DisplaySuccessMessage | includes/wc-gateway-idpay-init.php:595-602 | exactly one success notice is queued: the success template rendered with the stored track id and the order id |
| Gateway.WcIdPay.DisplayFailedMessage | includes/wc-gateway-idpay-init.php:638-645 | exactly one error notice is queued: the failure template rendered with the stored track id and the order id |
| Properties.InvalidCallbackRejected | includes/wc-gateway-idpay-init.php:406-427 | an empty `id` or `order_id`, a missing order, or an id other than the stored transaction id all give the same result: the invalid-order notice and a redirect to checkout, with no write, no status, no note, no payment and no post |
| Properties.SettledOrderShortCircuits | includes/wc-gateway-idpay-init.php:429-441 | an admitted callback for an order that is `completed` or `processing`, or whose stored remote status is at least 100, shows the success notice and redirects to the success URL, with no write, no status, no note and no post |
| Properties.NotSubmittedFailsWithoutVerify | includes/wc-gateway-idpay-init.php:443-458 | after the snapshot, a status other than 10 keeps the snapshot, sets `failed`, shows the failure notice rendered over the snapshot and redirects to checkout, with no post |
| Properties.SnapshotRecordsId | includes/wc-gateway-idpay-init.php:446 | after the snapshot, the stored transaction id is the callback's id |
| Properties.VerifyRequestCarriesCallbackId | includes/wc-gateway-idpay-init.php:463-466 | every post of the reconciler is the verify request carrying the callback's `id` and `order_id`; there are at most four; and there are none unless the verify step is reached |
| Properties.ProcessingIffVerified | includes/wc-gateway-idpay-init.php:492-569 | the order becomes `processing` exactly when the verify step is reached and the reply is HTTP 200 with status ≥ 100, a track id and an amount equal to the converted total; `payment_complete` and `empty_cart` happen exactly then, followed by the success redirect; every other 200 reply sets `failed` |
| Properties.AmountMismatchFails | includes/wc-gateway-idpay-init.php:543-555 | a verified amount other than the converted order total fails the order, whatever remote status is reported |
| Properties.VerifyTransportErrorOnlyNotes | includes/wc-gateway-idpay-init.php:480-486 | a verify transport error (after four posts) only adds the error note: the snapshot stays, and there is no status, no notice and no redirect |
| Properties.VerifyHttpErrorFails | includes/wc-gateway-idpay-init.php:492-513 | a non-200 verify reply keeps the snapshot, sets `failed` and redirects to checkout without emptying the cart |
| Properties.ReturnWritesGatewayKeys | includes/wc-gateway-idpay-init.php:443-541 | the reconciler writes only the gateway's eight metadata keys |
| Properties.CallbackStatusMarksFailedOrderSettled | includes/wc-gateway-idpay-init.php:436-458 | an admitted callback reporting a status of 100 or more fails the order, yet stores that status; the same callback repeated then gets the success notice and the success redirect with no write, no status and no post, and the order stays `failed` |
| Properties.GateFailureLeavesOrderSettled | includes/wc-gateway-idpay-init.php:534-555 | a verified status of 100 or more that fails the consistency gate leaves the order `failed` with that status stored, so no later callback writes, sets a status or calls the gateway |
| Properties.PaymentIsFinal | includes/wc-gateway-idpay-init.php:436-441 | after a payment that made the order `processing`, any later callback, whatever the order's status has become, writes nothing, sets no status and makes no post |
| Notices.ReplaceAllRemoves | includes/wc-gateway-idpay-init.php:599-600 | after `str_replace` with a non-empty replacement that shares no character with the pattern, the pattern no longer occurs |
| Notices.ReplaceAll | includes/wc-gateway-idpay-init.php:599-600 | `str_replace` of a pattern by a replacement; fixed on every input by `Notices.ReplaceAllFirst` (the first occurrence becomes the replacement and the scan resumes after it) together with `Notices.ReplaceAllAbsent` (a text without the pattern is unchanged) |
| Notices.RenderNotice | includes/wc-gateway-idpay-init.php:598-600 | `{track_id}` replaced by the track id, then `{order_id}` by the order id; pinned down by `Notices.RenderDefaultSuccess` and `Notices.RenderNoticeOrder` |
| Notices.ReplaceAllFirst | includes/wc-gateway-idpay-init.php:599-600 | the first occurrence of the pattern is the one replaced: the text before it is kept, the occurrence becomes the replacement, and the scan resumes after it |
| Notices.RenderDefaultSuccess | includes/wc-gateway-idpay-init.php:260 | the default success message renders as its lead text followed by the track id, when the track id does not spell `{order_id}` |
| Notices.ReplaceAllKeepsAbsent | includes/wc-gateway-idpay-init.php:599-600 | replacing one pattern does not create another pattern absent from the input, when the replacement shares no character with it |
| Notices.ReplaceAllAbsent | includes/wc-gateway-idpay-init.php:599-600 | a text without the pattern is left unchanged |
| Notices.RenderNoticeFillsPlaceholders | includes/wc-gateway-idpay-init.php:595-602 | with non-empty ids, a track id that shares no character with `{track_id}` and an order id that shares none with either placeholder, the rendered notice contains neither `{track_id}` nor `{order_id}` |
| Notices.RenderNoticePlain | includes/wc-gateway-idpay-init.php:638-645 | a template without placeholders is shown as it is |
| Notices.RenderNoticeOrder | includes/wc-gateway-idpay-init.php:642-643 | the substitutions run in order: a `{order_id}` brought in by the track id is then itself replaced by the order id |
| Currencies.AddCurrencies | includes/wc-gateway-idpay-init.php:39-44 | the list gains IRHR ("Iranian hezar rial") and IRHT ("Iranian hezar toman"), and every other currency keeps its label |
| Currencies.AddCurrenciesIdempotent | includes/wc-gateway-idpay-init.php:39-44 | applying the filter twice gives the same list as applying it once |
| Currencies.CurrencySymbol | includes/wc-gateway-idpay-init.php:49-62 | the symbol of IRHR and IRHT is their code; any other currency keeps the symbol it had |

## Left out

- Hook and filter registration (`add_filter`, `add_action`), the admin settings form and the loading of options: the loaded options are the immutable `Config` of `WcIdPay`.
- The transport (`wp_safe_remote_post`, `wp_remote_retrieve_*`, `json_decode`). It is an oracle from the request and the attempt number to a transport error or an HTTP code with the decoded fields. An undecodable body is a body with every field absent.
- `wc_idpay_get_amount` is not part of this model. It is the uninterpreted `Config.getAmount`, and the `WC_IDPay_Currency` filter is taken as already applied to the order's currency.
- `sanitize_text_field`, `wpautop`, `wptexturize` and `__()` are taken as the identity.
- `process_payment` only returns the framework's checkout URL and is not modelled.
- PHP loose comparison is not reproduced. Instead: a numeric value is `Int`; `!= 10` and `>= 100` compare with the integer, and a non-numeric value never reaches 100; `empty()` of a string is `""` or `"0"`, and of a decoded number it is 0 or absent.
- The values that are compared as numbers are taken as canonical: the callback status and the stored transaction status are `Int` whenever PHP would read them as a number, and the verify reply's status and amount are decoded integers. A `Str` status that holds a numeral, such as `Str("10")`, is outside the model; PHP would compare it with 10 as a number. Fields that are only stored or rendered (track id, amount and card number of the callback, track id and date of the reply) stay strings.
- The wording of order notes is translated text. Notes are kept as structured `Note` values carrying the same data.
- URL building (`add_query_arg`, `get_return_url`, `get_checkout_url`, the callback URL): redirects are the abstract `Redirect` values, and the callback URL is represented by the order id it carries.
- `payment_complete` is modelled only as recording the transaction id it is given. Its own status change is WooCommerce's and is not part of this model.
- Concurrent callbacks for one order, and the early `return FALSE` values the framework ignores.
- In these places the model follows the code, which a reader might not expect:
  - the initiator adds its error note and notice only when the reply carries both an error code and an error message;
  - the verify reply's id is stored without being compared to the stored transaction id;
  - a verify transport error adds only a note, with no status change and no redirect;
  - the snapshot does not store `hashed_card_no`;
  - the snapshot stores the callback's unverified status, and the settled check reads it: a callback reporting 100 or more fails the order, and a repeat of it is then answered with the success notice while the order stays `failed` (`Properties.CallbackStatusMarksFailedOrderSettled`). A verified status of 100 or more that fails the amount gate leaves the same state (`Properties.GateFailureLeavesOrderSettled`).
