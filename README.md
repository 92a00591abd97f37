# HyperPay payment integration — a Dafny model

This project models the decision logic of the HyperPay payment-gateway
integration, a Django app that sells carts through the HyperPay "Copy and
Pay" checkout.

- **`client.dfy` (module `Client`)** covers the API client. It models:
  - how a gateway result code is classified as SUCCESS, PENDING or FAILURE by five start-anchored patterns, written as prefix and character predicates;
  - the acceptance gates of checkout creation and checkout-status verification;
  - the cached OAuth access token. It is the client-credentials grant of section 4.4 of RFC 6749, and its state machine runs over integer seconds.

  `HyperPayClient` is a class whose fields are the token and its expiry. Its methods are proved equal to the pure functions `AfterGenerate` and `AfterEnsure`, and the lemmas about the token lifecycle are stated over those functions.
- **`helpers.dfy` (module `Helpers`)** models the validator of a success response against the local cart. It is an ordered chain of checks that stops at the first failure.
- **`views.dfy` (module `Views`)** models the status view and the webhook:
  - the status view, which a browser polls, is a function from query and store to reply and audit record;
  - the webhook, which the gateway calls, is a method over a `PaymentStore` class and an `AuditLog`. The method is proved equal to the function `Reconcile`, and the reconciliation properties are proved about that function. They include the webhook's answers, the all-or-nothing payment record, redelivery, a store invariant preserved by any sequence of deliveries, and agreement with the status view after a committed payment.
- **`audit.dfy`** is the append-only audit log.
- **`pyvalues.dfy`** holds decoded JSON values with Python's truthiness, `dict.get`, `in` and `len`.
- **`text.dfy`** holds splitting, joining, `str.replace` and `str.title`.
- **`decimals.dfy`** holds exact decimals. It has parsing of the plain notation, rendering, and the round trip between them.

The validator is the function `Helpers.VerifySuccessResponse` (`verify_success_response_with_cart`), and the status view the function `Views.StatusCheck` (`HyperPayStatusView.get`); the `Helpers.VerifyValid`, `Helpers.*Rejected` and `Views.Status*` lemmas below are stated about them.

Design decisions:
- Python's own exceptions (`TypeError`, `AttributeError`, `KeyError`, `ValueError`) are kept apart from the gateway's exception family. This is so that an error escaping uncaught can be told from a handled one.
- The collaborators `get_cart`, `handle_payment`, `create_invoice` and `fulfill_cart` are not part of this model. They are modelled by their observed behaviour:
  - `get_cart` is a lookup by key in the store's carts;
  - `handle_payment` refuses a gateway id it already holds, and otherwise records a transaction and pays the cart;
  - a fault flag stands for any other failure of `handle_payment`;
  - an `InvoiceOutcome` and a fulfilment flag, chosen by the caller, stand for `create_invoice` and `fulfill_cart`.
- The cart status constants are `"processing"`, as the status view's tests show, and `"paid"`, which is assumed: the value of the paid status is not part of this model. It flows into the 202 message of a paid cart without invoice and into the wrong-state audit record of a redelivery.

## Model

| member | source | states |
|---|---|---|
| Client.CodeFamilies | hyperpay/client.py:31-34 | The pending-soon, pending-later, success and manual-review families are told apart by the first and fifth characters, so the earlier patterns never shadow the success pattern |
| Client.ClassifyCode | hyperpay/client.py:162-201 | PENDING exactly for codes starting `000.200`; SUCCESS exactly for codes of the success pattern; FAILURE for everything else, including the pending-later and manual-review codes |
| Client.ResultCode | hyperpay/client.py:152 | `data.get('result', {}).get('code')`: None without a result, the code of a result dict, AttributeError for a result of another kind |
| Client.WebhookStatus | hyperpay/client.py:150-201 | A missing or falsy code, or a missing or falsy payment id, raises the bad-gateway error. With both present and a string code, the result is the classification and nothing is raised. A truthy non-string code with a truthy id escapes as TypeError, outside the gateway family |
| Client.ProcessedCodes | hyperpay/client.py:29-31 | The processed pattern is the success pattern plus `000.400.110` and `000.400.120`, so every code classified SUCCESS passes the status gate |
| Client.SettledReviewCodes | hyperpay/client.py:29-193 | `000.400.110`/`000.400.120` pass the checkout-status gate, yet a webhook carrying them is classified FAILURE |
| Client.ClassifierExamples | tests/test_client.py:226-231 | The five classifications the client's tests pin down |
| Client.CheckoutResult | hyperpay/client.py:104-119 | A checkout is returned exactly when `result.code` equals `000.200.100`, built from `id`, `ndc` and `integrity`. A missing result, or a result without "code" (a dict, string or list), raises the invalid-response gateway error, which carries no code; a dict result with another code raises the gateway error carrying that code. Any other result that is not a dict escapes as TypeError |
| Client.CheckoutStatusResult | hyperpay/client.py:143-148 | The reply is returned unchanged exactly when its code is a string of the processed pattern. A missing or empty code, or a string code outside the pattern, raises the gateway error. A non-dict result escapes as AttributeError, and a truthy non-string code as TypeError, both past the return view's handler |
| Client.ParseIntRendered | hyperpay/client.py:67 | `int(str(n)) == n` for the model of `int()` on text |
| Client.PyInt | hyperpay/client.py:67 | `int(v)` on a JSON value: an int is itself, text converts exactly when it parses, unparseable text is ValueError, a boolean is 0 or 1, other kinds TypeError |
| Client.AfterGenerate | hyperpay/client.py:56-75 | A reply raises nothing exactly when its lifetime converts and its token is truthy. With a convertible lifetime, the expiry is `now + expires_in - 30` and the token is the reply's. A missing token then raises. A failed call or a bad lifetime changes nothing and raises the gateway error; only a non-numeric lifetime kind escapes as TypeError |
| Client.AfterEnsure | hyperpay/client.py:77-85 | The generator runs exactly when the token is empty, the expiry is absent or now ≥ expiry; otherwise nothing changes and nothing is raised |
| Client.EnsuredTokenPresent | hyperpay/client.py:67-85 | Whenever `_ensure_token` returns normally, the cached token is non-empty |
| Client.IssuedTokenLifetime | hyperpay/client.py:67-82 | A fresh token is renewed exactly from `lifetime - 30` seconds after issue |
| Client.MissingLifetimeIsZero | hyperpay/client.py:67 | A missing `expires_in` counts as 0: expiry is `now - 30` and the next call renews |
| Client.MissingTokenRegenerates | hyperpay/client.py:67-85 | A reply without a token raises, the expiry is already written, and the next `_ensure_token` regenerates whenever it comes |
| Client.ShortLifetimeIsStale | hyperpay/client.py:67-82 | A lifetime of 30 seconds or less is stale at once |
| Client.HyperPayClient.constructor | hyperpay/client.py:36-43 | A new client has no token and no expiry |
| Client.HyperPayClient.GenerateAccessToken | hyperpay/client.py:45-75 | The fields and the error are those `AfterGenerate` gives for the old fields |
| Client.HyperPayClient.EnsureToken | hyperpay/client.py:77-85 | The fields and the error are those `AfterEnsure` gives for the old fields |
| Client.HyperPayClient.CreateCheckout | hyperpay/client.py:87-119 | The token is ensured first and its error propagates. A failed request raises the gateway error; otherwise the result is `CheckoutResult` of the reply |
| Client.HyperPayClient.VerifyCheckoutStatus | hyperpay/client.py:121-148 | The token is ensured first. A received reply is appended to the audit log before the processed-code gate decides; a failed request logs nothing |
| Helpers.HasMandatory | hyperpay/helpers.py:11-14 | All seven mandatory fields are present (so amount, currency and result can be read) |
| Helpers.FirstMissingFirst | hyperpay/helpers.py:24-53 | The field search finds nothing exactly when every field is present, and otherwise names the first absent one in list order |
| Helpers.MandatoryCheck | hyperpay/helpers.py:24-26 | Passes exactly when every mandatory field is present, else rejects with a missing field |
| Helpers.VerifyValid | hyperpay/helpers.py:17-59 | The validator returns normally exactly when all checks hold: fields present, amount equal in value to the cart total, valid currency, non-empty string result code, absent/empty/complete card, matching item count |
| Helpers.FirstMissingFieldReported | hyperpay/helpers.py:24-26 | A missing mandatory field is reported by name, and it is the first missing one |
| Helpers.TotalTextAccepted | hyperpay/helpers.py:28-31 | Any amount text whose decimal value equals the total passes, whatever its scale |
| Helpers.RenderedTotalAccepted | hyperpay/helpers.py:28-31 | The rendered cart total always passes the amount check |
| Helpers.AmountErrorIsSingle | hyperpay/helpers.py:28-38 | An amount that does not convert (unparseable text, null, list, dict) or converts to another value (text or number) always gives the one comparison error, carrying the total and the raw amount |
| Helpers.CurrencyRejected | hyperpay/helpers.py:40-41 | Past the amount check, a wrong currency is rejected with the currency received |
| Helpers.ResultCodeRejected | hyperpay/helpers.py:43-46 | Past the currency check, a missing, empty or non-string code is rejected |
| Helpers.CardRejected | hyperpay/helpers.py:48-53 | Once the first four checks pass, a non-empty card dict lacking a card field is rejected naming the first absent one |
| Helpers.ItemCountRejected | hyperpay/helpers.py:55-59 | Once the card check passes, an item count other than the cart's is rejected with both counts |
| Helpers.NoCardPasses | hyperpay/helpers.py:48-49 | An absent, null or empty card passes the card check |
| Helpers.CardDictCheck | hyperpay/helpers.py:48-53 | A non-empty card dict passes exactly when it has all five card fields, else the first absent one is named |
| Helpers.AbsentItemsCountZero | hyperpay/helpers.py:55-59 | An absent cart or absent items count as zero items |
| Helpers.CrashCauses | hyperpay/helpers.py:43-59 | A Python error escapes only for a non-dict result, a non-container card, a non-dict `cart` or items without a length |
| Decimals.ParseRendered | hyperpay/helpers.py:30 | Parsing the text of a decimal gives back the same decimal |
| Audit.AuditLog.Log | hyperpay/views.py:183-187 | Appends one record and changes nothing else |
| Views.ParseReference | hyperpay/views.py:99-100 | A reference splits into three parts exactly when it has two dashes; they are dash-free and join back to the reference |
| Views.ReferenceRoundTrip | hyperpay/views.py:100 | Three dash-free segments joined by dashes parse back to themselves |
| Views.AfterPayment | hyperpay/views.py:226-236 | A recorded payment appends one transaction numbered after the others and sets that cart, and only that cart, to paid |
| Views.WithInvoice | hyperpay/views.py:265 | The first paid invoice of a cart stays the one found; no other invoice changes |
| Views.PaymentStore.constructor | hyperpay/views.py:197-212 | A store starts with its carts, no transaction and no invoice |
| Views.PaymentStore.Restore | hyperpay/views.py:224-225 | Rolling back puts back the snapshot taken at the start of the atomic block |
| Views.PaymentStore.HandlePayment | hyperpay/views.py:226-236 | A recorded gateway id is refused with nothing written; otherwise the payment is recorded, even when a fault follows |
| Views.PaymentStore.CreateInvoice | hyperpay/views.py:264-265 | A failing invoice writes nothing; an issued one is linked to the transaction and kept unless the cart already has one |
| Views.MissingParams | hyperpay/views.py:86-91 | The reported names are exactly the empty parameters, in query order (transaction id before merchant reference); none exactly when both are non-empty |
| Views.StatusOk | hyperpay/views.py:123-154 | 200 exactly for a complete query naming a paid cart whose first paid invoice is related to the queried gateway id; the body is the invoice number |
| Views.StatusRejections | hyperpay/views.py:90-116 | Empty parameters give 400 naming them. A malformed or unknown reference gives 404 and the one audit record. An audit record is appended only in that case |
| Views.StatusUnpaid | hyperpay/views.py:118-167 | An unpaid cart gives 202 when processing and 404 otherwise, both naming the status |
| Views.StatusPaidCart | hyperpay/views.py:123-160 | A paid cart without an invoice gives 202; with one, 400 exactly when it has no related transaction or a different gateway id |
| Views.TwoWordMessage | hyperpay/views.py:92-95 | A parameter `first_second` of lower-case words is named "First Second" in the message |
| Views.MissingReferenceMessage | tests/test_views.py:78-81 | "Merchant Reference is required to verify payment status." |
| Views.MissingTransactionMessage | tests/test_views.py:83-87 | "Transaction Id is required to verify payment status." |
| Views.MissingReferenceReply | tests/test_views.py:78-81 | A query with a transaction id and no reference gets 400 "Merchant Reference is required to verify payment status." and no audit record |
| Views.MissingTransactionReply | tests/test_views.py:83-87 | A query with a reference and no transaction id gets 400 "Transaction Id is required to verify payment status." and no audit record |
| Views.StatusView | hyperpay/views.py:84-167 | The reply is the status decision, and its audit record, if any, is appended |
| Views.MerchantReference | hyperpay/views.py:195 | The split yields three parts exactly for a string with two dashes; a missing key, a non-string or a wrong count raise |
| Views.AfterCommit | hyperpay/views.py:263-276 | After commit the reply is 200 and carts and transactions stand, whatever invoicing and fulfilment do |
| Views.Reconcile | hyperpay/views.py:183-187 | The received payload is always the first record |
| Views.Webhook | hyperpay/views.py:180-276 | The store, the appended records and the reply are those of `Reconcile` |
| Views.WebhookReplies | hyperpay/views.py:183-212 | An error escapes exactly for an unclassifiable callback or a malformed reference. 400 exactly for a successful callback naming no cart; every other answer is 200. A non-success callback changes nothing and logs only the payload |
| Views.WebhookCommit | hyperpay/views.py:224-276 | The transactions change exactly when the delivery commits. A commit appends one transaction and pays the cart, whatever invoicing does, and logs fulfilment only if both succeed. Every other delivery leaves the store as it was |
| Views.NotProcessingReported | hyperpay/views.py:214-222 | A cart not in processing is only reported, with the store unchanged and 200 |
| Views.DuplicateRefused | hyperpay/views.py:238-248 | A recorded gateway id gives the duplicate record, no change and 200 |
| Views.FailureRolledBack | hyperpay/views.py:224-261 | A missing payment argument or a failing `handle_payment` leaves the store as it was and records the rollback with cart and site |
| Views.RedeliveryChangesNothing | hyperpay/views.py:214-222 | Redelivering a committed payload changes nothing: the paid cart is only reported |
| Views.FreshConsistent | hyperpay/views.py:197-212 | An empty store with any carts satisfies the store invariant |
| Views.UnpaidHasNoInvoice | hyperpay/views.py:123-127 | Under the invariant, a cart that is not paid has no paid invoice |
| Views.PaymentConsistent | hyperpay/views.py:226-236 | Recording a new gateway id keeps the invariant |
| Views.InvoiceConsistent | hyperpay/views.py:264-265 | Adding an invoice linked to a transaction of its cart keeps the invariant |
| Views.CommitOutcome | hyperpay/views.py:224-276 | A committed delivery answers 200, appends exactly one transaction with the next number, makes only its cart paid, and gives the cart the issued invoice, linked to that transaction, unless the cart already had one; a failed invoice leaves the invoices as they were |
| Views.CommitConsistent | hyperpay/views.py:224-276 | A committed delivery keeps the invariant |
| Views.ReconcileConsistent | hyperpay/views.py:180-276 | Every delivery keeps the invariant: numbered transactions of paid known carts, no gateway id twice, every invoice linked to a transaction of its cart |
| Views.CommittedPaymentVisible | hyperpay/views.py:123-154 | After a committed delivery that issued an invoice, the status view queried with the delivery's id and reference answers 200 with that invoice number |
| Views.ReconcileAllConsistent | hyperpay/views.py:180-276 | The invariant holds after any sequence of deliveries |
| Views.ReconcileAllGrows | hyperpay/views.py:224-276 | Deliveries only append transactions and never replace an invoice |

## Left out

- HTTP transport: requests, headers, the Base64 credentials, timeouts and JSON decoding. A gateway call is its decoded reply or `Failed`. In `verify_checkout_status` no status check is made (hyperpay/client.py:126-135), so a reply with an error status is still a decoded reply.
- Regular expressions: only the five fixed patterns are modelled, as prefix and character predicates.
- Django plumbing:
  - request parsing;
  - `JsonResponse`/`HttpResponse` framing;
  - authentication and the `request.user` argument;
  - CSRF;
  - `render`;
  - `reverse`, so the `invoice_url` of the 200 body is not modelled;
  - `HyperPayReturnView`, the processor's settings, URLs and app config.
- hyperpay/processor.py is not part of this model: its settings lookup, identifiers, ORM rows and template rendering are not modelled. Two assumptions of the views model rest on it:
  - `HyperPay()` builds `HyperPayClient` without the required `slug` argument (hyperpay/processor.py:35-39 against hyperpay/client.py:36), which as written raises `TypeError` wherever the views construct the processor. The model instead takes the gateway slug to be `Views.Slug == "hyperpay"`, the value the processor's tests expect.
  - The checkout sends a dash-free `uuid4().hex[:12]` as `merchant_transaction_id` (hyperpay/processor.py:69). A reference of that form makes the webhook's three-way split raise `ValueError` and makes the status view answer 404. The model assumes references of the three-segment form `{prefix}-{site}-{cart}` that both views expect.
- hyperpay/exceptions.py is folded into `Client.ClientError`. Messages of client and validator errors are kept as structured reasons. Status-view messages are rendered in full.
- The database, `get_cart`, `handle_payment`, `create_invoice` and `fulfill_cart` are not part of this model. They are modelled as:
  - carts looked up by the reference's last segment;
  - transactions numbered by their position;
  - invoices keyed by cart.
- `fulfill_cart` is not modelled as changing the cart status. The status it may set is unknown.
- `create_invoice` is assumed to issue a paid invoice related to the transaction just recorded (the view passes it that transaction, hyperpay/views.py:265) and to leave a cart's first paid invoice in place. Its effect is not part of this model, and `Views.CommittedPaymentVisible` depends on this assumption.
- The model's transaction table holds only the payments the webhook records. The checkout also writes pending transaction rows (hyperpay/processor.py), which are not modelled, so `Views.Consistent`'s "every transaction's cart is paid" describes the model's table and not the real one.
- A gateway id stored as text by the database: the model compares the decoded values as they are.
- Concurrency: the atomic block is all-or-nothing on one sequential store, and racing deliveries are not modelled.
- Logging through `logger`.
- Time is whole seconds, read once per call as `now`. `datetime` overflow is not modelled.
- `Decimal(text)`: only an optional sign, ASCII digits and at most one point. There are no exponents, whitespace, underscores, non-ASCII decimal digits, NaN or infinity (these last two equal no total, and the model treats them as unparseable). The tuple form is not modelled either: a JSON list amount, which Python can convert as a sign-digits-exponent tuple, is treated as unconvertible. JSON numbers with a fraction are not modelled.
- The rendering of a decimal is the plain notation only; Python's `str` switches to exponent form for adjusted exponents below -6.
- `int(text)`: no surrounding whitespace, no underscores and no non-ASCII decimal digits (Python's `int` accepts, say, Arabic-Indic digits; the model refuses them, so such an `expires_in` gives the token-request error).
- Request bodies and gateway replies that are not JSON objects: a reply is a map, so the `AttributeError` that `data.get` raises on a list, string or number reply, and which escapes `_generate_access_token` uncaught, is not modelled.
- `str.title` is modelled for ASCII letters only.
- The webhook, like the source, never calls the success-response validator, and treats every non-processing cart state alike.
- The classifier does raise once code and id are present, when the code is a truthy non-string (a number, a list): the regex search raises `TypeError`, and the model follows the code in this.
