# Mercado Pago checkout — a Dafny model of its decision rules

This project models the server-side rules of a small Next.js checkout. The checkout takes payments through Mercado Pago, either as PIX or as a checkout preference. The model also covers the one client component whose state changes step by step: the PIX QR code panel.

Each route handler becomes a function or method from its inputs to a response value:

- the parsed request body;
- the query parameters;
- the environment variables;
- the answers of the gateway SDK and of the database.

The gateway, database and clock calls are parameters: functions that answer `Ok(value)` or `Err(thrown)`. The trace of calls a handler makes is part of its result where the source bounds it: the webhook makes one gateway fetch, and the debug route makes one lookup followed by one fetch.

The JavaScript semantics the handlers rely on are spelled out once, in module `JsText`:

- truthiness of JSON values;
- `replace(/\D/g, '')`, `trim()`, `split(' ')` and `join(' ')`;
- decimal rendering and `padStart(2, '0')`;
- `parseInt`, including `NaN`;
- ASCII `toUpperCase()`.

Modules follow the source files:

| module | file |
|---|---|
| `JsText` | JavaScript string and value semantics used by all the others |
| `MercadoPago` | lib/mercadopago.ts |
| `PixPaymentRoute` | app/api/pix-payment/route.ts |
| `WebhookDataRoute` | app/api/test/webhook-data/route.ts |
| `WebhookRoute` | app/api/webhook/route.ts |
| `Records` | the stored payment and webhook-event shapes the routes read |
| `PaymentsRoute` | app/api/payments/route.ts |
| `RecentPaymentsRoute` | app/api/payments/recent/route.ts |
| `DebugPaymentRoute` | app/api/debug/payment/route.ts |
| `EnvCheckRoute` | app/api/test/env/route.ts |
| `PixQrCode` | components/pix-qr-code.tsx |

Where the code changes state step by step, the model is imperative:

- the `where` object of the payments listing;
- the loop over the required fields;
- the two histogram `reduce`s;
- the `criticalIssues` array that is grown by `push`;
- the QR panel's countdown and status poll.

The panel is a class, `PixQrCode.PixPanel`. Its methods are:

- `Tick`, one second of the countdown;
- `Launch`, one firing of the status interval, which starts a fetch;
- `Answer`, the reply to one fetch in flight;
- `Unmount`, the effect's cleanup.

They keep an invariant that ties the two interval flags to the countdown and to the status. An answer is handled even after the interval has been cleared, as in the source. So two fetches in flight that both answer "approved" fire the completion callback twice. The callback fires at most once only when no fetch was started while another was still in flight.

The model follows the code, and some behaviour described for the system is not in it. The webhook handler makes one gateway call and answers 500 on failure. It has no retry loop, no classifier of rejection reasons, no approval e-mail, no guard against stale updates and no extraction of query parameters, so none of these is modelled.

## Model

| member | source | states |
|---|---|---|
| JsText.StripNonDigits | lib/mercadopago.ts:47 | The cleaned CPF consists of digits only and is no longer than the input. |
| JsText.StripNonDigitsIdempotent | lib/mercadopago.ts:85 | Stripping non-digits a second time changes nothing. |
| JsText.StripNonDigitsKeepsDigits | app/api/pix-payment/route.ts:38 | Every digit of the input is kept, as many times as it occurs. |
| JsText.Trim | app/api/test/webhook-data/route.ts:48 | `trim()` leaves no leading or trailing white space and yields a contiguous slice of the input. |
| JsText.JoinSplit | lib/mercadopago.ts:81-82 | Joining the pieces of `split(' ')` with a single space gives the original string back. |
| JsText.PadStart2 | components/pix-qr-code.tsx:83 | `padStart(2, '0')` of a one-digit rendering adds one leading zero; longer renderings are unchanged. |
| JsText.ParseIntOfNatToString | app/api/payments/route.ts:11-12 | `parseInt` of a decimal rendering gives the number back, so the default values parse to themselves. |
| MercadoPago.BaseUrl | lib/mercadopago.ts:59-63 | The base URL is the environment value when it is truthy, and `http://localhost:3000` otherwise. |
| MercadoPago.CpfNumber | lib/mercadopago.ts:85 | The CPF sent to the gateway (here and in the preference at line 47) is all digits and is its own stripped form. |
| MercadoPago.NameSplit | lib/mercadopago.ts:81-82 | The first name has no space. If the name has a space, first name + " " + last name is the name. Otherwise the first name is the whole name and the last name is "". |
| MercadoPago.BuildPreference | lib/mercadopago.ts:32-69 | The preference has exactly one item: quantity 1, unit price equal to the amount, currency BRL. It has one installment, excludes credit_card, debit_card and bank_transfer, and uses a digits-only CPF. The back URLs are the base URL plus /success, /failure and /pending, the notification URL is the base URL plus /api/webhook, and the external reference is `order_<now>`. |
| MercadoPago.BuildPixPayload | lib/mercadopago.ts:75-89 | The payment method is `pix` and the amount is passed through unchanged. It carries the split name, a digits-only CPF and the preference's external reference. |
| MercadoPago.CreatePixPayment | lib/mercadopago.ts:29-105 | Every failure, including a failed preference and a non-string name, becomes the one error "Falha ao processar pagamento PIX". On success the id is the gateway id rendered as a string, the status and QR data are the gateway's, and the external reference is the preference's. |
| MercadoPago.GetPaymentStatus | lib/mercadopago.ts:107-116 | It succeeds exactly when the gateway does, with the gateway's status. Otherwise it fails with "Falha ao verificar status do pagamento". |
| MercadoPago.GetPaymentDetails | lib/mercadopago.ts:118-138 | It succeeds exactly when the gateway does. It then carries the gateway's id, status, external reference, amount, description, payment method, both dates, payer and point of interaction. Otherwise it fails with "Falha ao buscar detalhes do pagamento". |
| MercadoPago.DetailsDropRejectionFields | lib/mercadopago.ts:122-134 | The details do not depend on `status_detail` or `rejection_reason`. |
| PixPaymentRoute.IsEmailIffPattern | app/api/pix-payment/route.ts:49-50 | The executable e-mail check accepts exactly the strings matching `^[^\s@]+@[^\s@]+\.[^\s@]+$`. |
| PixPaymentRoute.ErrorDetails | app/api/pix-payment/route.ts:100 | The `details` text is the message of an `Error` and "Erro desconhecido" for anything else. |
| PixPaymentRoute.Validate | app/api/pix-payment/route.ts:23-67 | A falsy field gives 400 "Todos os campos são obrigatórios". Otherwise a CPF whose digits are not exactly 11 gives 400 "CPF inválido", and otherwise an address not matching the pattern gives 400 "Email inválido". It passes exactly when all three checks hold, and then hands on name, e-mail and the raw, uncleaned CPF unchanged. |
| PixPaymentRoute.Post | app/api/pix-payment/route.ts:4-105 | An unreadable body or a service failure gives 500 with the error's details. A validation failure is returned as such. A service success gives 200 with the service's data. |
| PixPaymentRoute.FirstFailingCheckDecides | app/api/pix-payment/route.ts:23-57 | A missing field is reported whatever the CPF and e-mail are. A bad CPF is reported whatever truthy e-mail accompanies it. |
| PixPaymentRoute.CpfExamples | app/api/pix-payment/route.ts:38-46 | "123.456.789-09" cleans to eleven digits and passes; "123" fails. |
| PixPaymentRoute.ServiceSuccessIs200 | app/api/pix-payment/route.ts:71-95 | With the gateway service, validated data whose preference and PIX payment both succeed, with QR code data, reaches the client as 200 carrying the payment's id, status and the preference's reference. |
| PixPaymentRoute.ServiceFailureIs500 | app/api/pix-payment/route.ts:71-103 | With the gateway service, a failure of validated data reaches the client as 500 with details "Falha ao processar pagamento PIX". |
| WebhookDataRoute.FirstPresent | app/api/test/webhook-data/route.ts:56-71 | The chain's result is the first truthy candidate, with every earlier candidate falsy, or the fallback when none is truthy. |
| WebhookDataRoute.EmailAndCpfFollowPriority | app/api/test/webhook-data/route.ts:40-71 | The e-mail follows metadata.buyer_email, then payer.email, then additional_info.payer.email, then the sentinel. The CPF follows payer.identification.number, then metadata.payer_cpf, then additional_info.payer.identification.number, then the sentinel. |
| WebhookDataRoute.NameFollowsPriority | app/api/test/webhook-data/route.ts:39-53 | If either payer name part is truthy, the name is the trimmed space-join of the truthy parts. Otherwise it is metadata.customer_name, then additional_info.payer.first_name, then the sentinel. |
| WebhookDataRoute.FieldsAreIndependent | app/api/test/webhook-data/route.ts:43-73 | Each field depends only on its own sources. |
| WebhookDataRoute.BlankFirstNameIsFound | app/api/test/webhook-data/route.ts:44-84 | A blank first name wins the chain, trims to "" and still counts as found. |
| WebhookDataRoute.Analyze | app/api/test/webhook-data/route.ts:83-90 | Each `*Found` flag holds exactly when its value differs from its sentinel, and `allDataFound` is their conjunction. |
| WebhookDataRoute.EmailFoundIffSourcePresent | app/api/test/webhook-data/route.ts:56-85 | `emailFound` holds exactly when some e-mail source is truthy and the first truthy one is not the sentinel text. |
| WebhookDataRoute.Post | app/api/test/webhook-data/route.ts:5-101 | An unreadable body gives 500 "Falha ao testar extração". Otherwise the input is the mock data or the built-in sample, and the reply carries its extraction and analysis. |
| WebhookDataRoute.DefaultMockIsFullyFound | app/api/test/webhook-data/route.ts:10-76 | Without mock data the sample extracts "João Silva", "joao.silva@email.com" and "12345678901", and all data is found. |
| WebhookRoute.Post | app/api/webhook/route.ts:4-61 | An unreadable body gives 500 "Erro interno do servidor" with no fetch. A non-payment notification is acknowledged with no fetch. A payment notification fetches its id once and echoes the id with the fetched status, or gives 500 "Erro ao processar pagamento". |
| WebhookRoute.AtMostOneFetch | app/api/webhook/route.ts:12-45 | At most one fetch is made, exactly for payment notifications. A 500 comes exactly from an unreadable body or a failed fetch. |
| WebhookRoute.TypeIsComparedExactly | app/api/webhook/route.ts:12 | The types "payment.created" and "merchant_order", an empty id and a missing `data` are each acknowledged without a fetch. |
| WebhookRoute.Get | app/api/webhook/route.ts:64-70 | The health reply always has status "ok" and the fixed message. |
| Records.LastWebhook | app/api/payments/recent/route.ts:42-46 | The summary exists exactly when there is a first event, and it copies that event's type, processed flag and creation time. |
| Records.WebhookCount | app/api/payments/recent/route.ts:40 | The count is the number of events, or 0 when the events are absent. |
| PaymentsRoute.Ceil | app/api/payments/route.ts:46 | `Math.ceil(x)` is the integer in `[x, x + 1)`. |
| PaymentsRoute.PositiveLimitPagination | app/api/payments/route.ts:42-49 | With a positive limit the page count is the least covering all rows. `hasNext` holds exactly when page < totalPages, `hasPrev` exactly when page > 1, and the last page has no next. A page from 1 on starts before the last row exactly when it is not past the count. |
| PaymentsRoute.ZeroLimitPagination | app/api/payments/route.ts:46-47 | With limit 0 a non-empty table has `Infinity` pages and always a next one. An empty table has `NaN` pages and no next one. |
| PaymentsRoute.NaNPageHasNoNeighbours | app/api/payments/route.ts:47-48 | A page that is not a number has neither a next nor a previous one. |
| PaymentsRoute.BuildWhere | app/api/payments/route.ts:19-21 | A truthy status adds its upper-cased form and a truthy e-mail adds a case-insensitive "contains". No other key is ever added. |
| PaymentsRoute.Get | app/api/payments/route.ts:6-59 | The store is asked for offset `(page-1)*limit` and `limit` rows. The filter holds the upper-cased status exactly when a status is given, a case-insensitive "contains" on the e-mail exactly when one is given, and no other key. A success gives the rows with their pagination; a failure gives 500. |
| PaymentsRoute.DefaultPage | app/api/payments/route.ts:11-24 | Without parameters the page is 1, the limit 20 and the offset 0. |
| PaymentsRoute.FirstMissingField | app/api/payments/route.ts:66-74 | It reports nothing exactly when all seven fields are truthy, and otherwise the first falsy one in listed order. |
| PaymentsRoute.FirstMissingIsUnique | app/api/payments/route.ts:67-68 | Only one field can be the first missing one. |
| PaymentsRoute.CreateInputOf | app/api/payments/route.ts:82-92 | The stored CPF is all digits, namely the body's CPF without its non-digits. The other fields are the body's own. |
| PaymentsRoute.Post | app/api/payments/route.ts:61-109 | An unreadable body gives 500. The first missing field gives 400 naming it. A non-string CPF makes `replace` throw, which gives 500. Otherwise the store's answer decides between the stored payment and 500. |
| RecentPaymentsRoute.Format | app/api/payments/recent/route.ts:26-47 | Each entry copies the payment's fields and adds the webhook count and the summary (type, processed flag, creation time) of the first event, when there is one. |
| RecentPaymentsRoute.FormatAll | app/api/payments/recent/route.ts:26 | There is one formatted entry per payment, in the same order. |
| RecentPaymentsRoute.HistogramSnoc | app/api/payments/recent/route.ts:58-60 | One more key raises its own count, starting from 0, and no other. |
| RecentPaymentsRoute.CountBy | app/api/payments/recent/route.ts:58-65 | The `reduce` loop builds exactly the histogram of the keys. |
| RecentPaymentsRoute.Dedup | app/api/payments/recent/route.ts:58-65 | It lists the same keys, each once. |
| RecentPaymentsRoute.HistogramSum | app/api/payments/recent/route.ts:58-65 | The histogram's counts add up to the number of keys counted. |
| RecentPaymentsRoute.Get | app/api/payments/recent/route.ts:6-76 | The limit is `parseInt(limit \|\| '10')`. On success the reply holds the formatted payments, the total, the limit, `showing` equal to the number of payments, and both histograms. A failure of either call gives 500. |
| RecentPaymentsRoute.DefaultLimit | app/api/payments/recent/route.ts:9 | Without a parameter ten payments are asked for. |
| RecentPaymentsRoute.SummaryCounts | app/api/payments/recent/route.ts:58-65 | `byStatus` lists exactly the statuses that occur, each with its number of payments, and its counts sum to the number of payments; `byPaymentMethod` likewise. |
| DebugPaymentRoute.GatewayOf | app/api/debug/payment/route.ts:53-62 | The gateway section copies id, status, reference, amount, creation date and last-update date, and never has a status detail or a rejection reason. |
| DebugPaymentRoute.StatusMatch | app/api/debug/payment/route.ts:33 | The statuses match exactly when both records exist and their statuses are equal. |
| DebugPaymentRoute.Difference | app/api/debug/payment/route.ts:67-71 | A difference is reported exactly when both records exist, with both statuses. |
| DebugPaymentRoute.NeedsUpdateIsMismatch | app/api/debug/payment/route.ts:33-71 | `needsUpdate` is the negation of `statusMatch`, and without a difference there is no match. |
| DebugPaymentRoute.CaseMismatchNeverMatches | app/api/debug/payment/route.ts:33 | A stored status with no lower-case letter never matches a gateway status that has one, so such a pair always needs an update. |
| DebugPaymentRoute.Get | app/api/debug/payment/route.ts:7-94 | A missing id gives 400 before any call. A failed lookup gives 500 after that one call. Otherwise there is one lookup and one fetch, and the reply has a database section exactly when the record exists, namely `DatabaseOf` the record, a gateway section exactly when the fetch succeeded, namely `GatewayOf` the details, and the analysis of both. |
| DebugPaymentRoute.GatewayErrorIsSwallowed | app/api/debug/payment/route.ts:25-85 | A gateway failure still gives 200, with no gateway section, no status match and no status difference. |
| DebugPaymentRoute.RejectionFieldsAlwaysAbsent | app/api/debug/payment/route.ts:60-61 | The gateway section never carries a status detail or a rejection reason. |
| EnvCheckRoute.Mask | app/api/test/env/route.ts:20-25 | The preview is the first six characters, "...", then the last four, with the lengths stated for short values too. |
| EnvCheckRoute.SecretStatusOf | app/api/test/env/route.ts:17-26 | `defined` is truthiness, `length` is the value's length or 0, and the preview is the mask or "Não definido". |
| EnvCheckRoute.UrlStatusOf | app/api/test/env/route.ts:27-34 | `defined` is truthiness and the value is the setting or "Não definido". |
| EnvCheckRoute.ShortSecretsAreExposed | app/api/test/env/route.ts:19-25 | For a value of at most ten characters, its preview and length give the whole value back. |
| EnvCheckRoute.CriticalIssues | app/api/test/env/route.ts:40-56 | Per key it lists "not configured" exactly when the key is missing and "default value" exactly when it equals its placeholder. A missing base URL is listed too. The list is ordered token, key, base URL and has at most three entries. |
| EnvCheckRoute.PushKeyIssue | app/api/test/env/route.ts:42-52 | For one key, the list grows by "não está configurado" when the key is missing, otherwise by "ainda está com valor padrão" when it equals its placeholder, otherwise not at all; earlier entries stay in place. |
| EnvCheckRoute.AtMostOnePerSetting | app/api/test/env/route.ts:42-52 | An ordered list never holds both issues of one key. |
| EnvCheckRoute.Get | app/api/test/env/route.ts:58-67 | `success` holds exactly when the list is empty, which is exactly when both keys are set and not placeholders and the base URL is set. The message follows `success`, and the environment status is reported. |
| PixQrCode.NextTimeLeft | components/pix-qr-code.tsx:28-34 | One tick takes the countdown to max(prev - 1, 0): never negative, never up. |
| PixQrCode.AfterTicksIs | components/pix-qr-code.tsx:27-35 | After n ticks from t the countdown is max(t - n, 0). |
| PixQrCode.Countdown | components/pix-qr-code.tsx:23-34 | From 1800 the countdown is 0 exactly after at least 1800 ticks. It stays between 0 and 1800 and never goes up. |
| PixQrCode.TwoDigits | components/pix-qr-code.tsx:83 | A number below 100 renders as two digits that read back as the number. |
| PixQrCode.FormatTimeRoundTrip | components/pix-qr-code.tsx:80-84 | Below 6000 seconds `mm:ss` has five characters with a colon in the middle, and it reads back as the seconds. |
| PixQrCode.PendingTextOtherwise | components/pix-qr-code.tsx:97-117 | Every status other than approved and rejected shows the waiting text and description; approved and rejected show their own. |
| PixQrCode.PixPanel.constructor | components/pix-qr-code.tsx:22-38 | The panel mounts with 1800 seconds left, pending, both intervals set and no fetch in flight. |
| PixQrCode.PixPanel.Tick | components/pix-qr-code.tsx:27-35 | A tick applies the updater while the timer is set and clears the timer on reaching 0. Nothing else changes. |
| PixQrCode.PixPanel.Launch | components/pix-qr-code.tsx:38-40 | While the status interval is set, each firing starts one more fetch, whether or not earlier ones have answered. Once the interval is cleared, nothing starts. |
| PixQrCode.PixPanel.Answer | components/pix-qr-code.tsx:41-53 | Each fetch's answer is handled unconditionally. "approved" sets approved, fires the callback and clears the interval. "rejected" sets rejected and clears the interval. Any other answer or an error changes nothing. After unmounting, the status update is discarded but the callback still fires. |
| PixQrCode.PixPanel.Unmount | components/pix-qr-code.tsx:56-59 | The cleanup clears both intervals and leaves fetches in flight running. |
| PixQrCode.Run | components/pix-qr-code.tsx:25-60 | Over any sequence of events, the callback fires only for "approved" answers, and only when a callback is given. If no fetch ever overlapped another, it fires at most once, and while mounted the status is then approved. |
| PixQrCode.OverlappingApprovalsFireTwice | components/pix-qr-code.tsx:38-54 | Two overlapping fetches that both answer "approved" fire the callback twice. |
| PixQrCode.LateRejectionOverwritesApproval | components/pix-qr-code.tsx:38-54 | An "approved" answer followed by a slower "rejected" one leaves the status at rejected. |

## Left out

- Amounts: `parseFloat(amount)` in the PIX route and `Number(body.amount)` in the payments route are not modelled. Amounts pass through as opaque values. Numbers are reals in the model, without `NaN`, `-0` or rounding.
- JSON rendering: the rendering of `NaN` and `Infinity` as `null` in a reply is left out. The pagination values keep their number form.
- Strings: `toUpperCase()` is modelled on ASCII letters only. Lengths count characters, not UTF-16 code units.
- JSON values: arrays are not told apart from other objects. The webhook-data payer fields are optional strings, so a non-string leaf, such as a number used as a name part, is not modelled.
- PixPaymentRoute.Validate: `emailRegex.test(email)` converts a non-string e-mail to a string first. A body whose e-mail is an array whose comma-joined text matches the pattern, such as `["a@b.co"]` or `["a@b","c.d"]`, therefore passes the check and reaches the service. The model treats every non-string e-mail as failing the pattern and answers 400 "Email inválido" for it.
- PaymentsRoute.ZeroLimitPagination: `parseInt` of `"-0"` is `-0` in JavaScript, so `?limit=-0` with a non-zero total gives `totalPages` of `-Infinity` and `hasNext` false. The model has no `-0`: it reads this limit as 0 and gives `Infinity` pages and `hasNext` true for a finite page.
- `parseInt` is modelled as it reads a string with no radix: leading white space is skipped, then an optional sign, then an optional `0x` prefix, then the longest run of digits. Results too large for a double are kept exact rather than rounded.
- Time: `Date.now()`, ISO timestamps and the two expiration dates of the preference are inputs or are left out, because they read a clock. `external_reference` takes the clock value as a parameter.
- Logging: all `console` logging is left out, since it has no effect on replies.
- External calls: the SDK calls, the database calls and `request.json()` are parameters that answer `Ok` or `Err`. `listPayments` and `countPayments` are not defined by the database wrapper, so their results are inputs. prisma/prisma.config.ts and lib/mailer.ts are not part of this model.
- Payment methods: the excluded payment types are modelled as a list of their ids, not as `{ id }` objects.
- PixQrCode.PixPanel: `setInterval` scheduling and the effect's re-subscription when its dependencies change are not modelled. Ticks, fetch starts, fetch answers and the cleanup arrive as an arbitrary sequence of events, and each answer is handled in one step. The JSX, `getStatusIcon` and `copyPixCode` are presentation only and are left out.
- RecentPaymentsRoute.CountBy: the accumulator is a plain object. A status equal to an inherited property name, such as `constructor`, would read that property, and the model does not capture this.
- EnvCheckRoute.Get: the `catch` branch can only be reached by an exception, and nothing in the `try` block throws, so it is not modelled.
- DebugPaymentRoute.DatabaseOf copies the stored record's fields one to one and carries no contract of its own. `Get` states that the database section is exactly `DatabaseOf` of the stored record.
