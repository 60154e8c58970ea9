# KLU checkout, modelled in Dafny

KLU is a card checkout. A Next.js front end validates the payment form
(a Yup schema) and relays requests through its `/api/transactions` route to
a FastAPI backend. The backend stores a "pending" transaction and queues a
Celery job. The job charges the card through the Blumonpay gateway and
records the gateway's status on the transaction. This project models that
path and proves what each step promises:

- `validation.dfy` (`ClientValidation`): the client schema as the first
  message per field, with one lemma per field saying exactly what it accepts.
- `schemas.dfy` (`PaymentSchemas`): the pydantic constraints, the request
  shapes the endpoint reads, and where the two validators disagree.
- `repository.dfy` (`TransactionRepository`): the table as a class whose
  rows and insertion order the create/update methods change in place.
- `endpoints.dfy` (`TransactionsEndpoint`): create, fetch and list, plus
  the job queue that `process_payment.delay` feeds.
- `payment_tasks.dfy` (`PaymentTasks`): the Celery task as a worker
  object, with its status update, its failure path and the database sessions
  it opens and closes.
- `blumonpay.dfy` (`Blumonpay`): the gateway adapter. It covers the Basic
  credential, the token it caches, the requests it sends, and how it reads
  replies and builds the charge payload.
- `config.dfy` (`Config`): the settings defaults and the two connection
  strings.
- `proxy.dfy` (`TransactionsProxy`): the Next.js route. It covers the POST
  and GET relays, the query string it builds with `URLSearchParams`, its error
  relay and the 405 answer.
- `lifecycle.dfy` (`CheckoutLifecycle`): one checkout end to end.
- Supporting formats: `json.dfy`, `utf8.dfy` (UTF-8, RFC 3629),
  `base64.dfy` (section 4 of RFC 4648), `uuid.dfy` (the 8-4-4-4-12 text form
  of RFC 4122), `form_urlencoded.dfy` (section 5 of the WHATWG URL
  Standard), `numerals.dfy`, `wrappers.dfy`, `payment_shape.dfy` and
  `transaction_model.dfy`.

Every HTTP reply is a parameter:
`HttpResponse = Response(status, body) | ConnectionError`. Freshly
generated ids (`uuid4`) are parameters as well. The result is that every
outcome, including each exception path, is a function of its inputs.

Two data shapes appear in the source, and the model keeps both:

- The client form, the pydantic `PaymentRequest` and the async charge
  payload use flat `customer_email`/`customer_name` fields and a `card_info`
  object (`PaymentShape.PaymentData`).
- The create endpoint and the repository read a `CardPaymentRequest` with
  `customerInformation` and `noPresentCardData`. That class is not in
  `klu_backend/app/schemas/transaction.py`, whose `TransactionCreate` has
  the flat fields. The model follows the code that reads the data:
  `PaymentSchemas.CardPaymentRequest` and `PaymentSchemas.TransactionCreate`
  carry the fields that the endpoint and repository use.

## Model

| member | source | states |
|---|---|---|
| `ClientValidation.Validate` | klu_ui/utils/validation.js:3-33 | The error map is empty exactly when every field meets every rule of the schema (`AcceptsAll`). |
| `ClientValidation.AcceptsAllIffNoMessage` | klu_ui/utils/validation.js:3-33 | The form meets every rule iff no field yields a message. |
| `ClientValidation.AmountAccepted` | klu_ui/utils/validation.js:4-6 | The amount is accepted iff present and strictly positive; a missing amount reports "Amount is required". |
| `ClientValidation.CurrencyAccepted` | klu_ui/utils/validation.js:7-9 | The currency is accepted iff non-empty and exactly 3 UTF-16 units long. |
| `ClientValidation.EmailAccepted` | klu_ui/utils/validation.js:10-12 | The e-mail is accepted iff non-empty and well-formed. An empty one reports "Email is required"; a malformed one reports "Invalid email". |
| `ClientValidation.NamesRejected` | klu_ui/utils/validation.js:13-15 | The customer name, and likewise the card holder name (lines 29-31), is rejected iff it is shorter than 2 UTF-16 units. |
| `ClientValidation.CardNumberAccepted` | klu_ui/utils/validation.js:17-19 | The card number is accepted iff it is exactly 16 decimal digits. |
| `ClientValidation.MonthPattern` | klu_ui/utils/validation.js:22 | `^(0[1-9]\|1[0-2])$` matches exactly the twelve strings "01" to "12". |
| `ClientValidation.MonthAccepted` | klu_ui/utils/validation.js:20-22 | The expiry month is accepted iff it is one of "01" to "12"; "00", "13" and "1" are rejected. |
| `ClientValidation.YearAndCvvAccepted` | klu_ui/utils/validation.js:23-28 | The year is accepted iff it is 2 digits; the CVV iff it is 3 or 4 digits. |
| `ClientValidation.ErrorsAreFieldLocal` | klu_ui/utils/validation.js:3-33 | Two forms that agree on a field get the same verdict and message for it, whatever their other fields hold. |
| `PaymentSchemas.PaymentRequestValid` | klu_backend/app/schemas/transaction.py:8-28 | A `PaymentRequest` has no violation iff its `TransactionBase` fields and its `CardInfo` are each valid. |
| `PaymentSchemas.CardNumberLengthOnly` | klu_backend/app/schemas/transaction.py:20 | The backend checks the card number's length only: 16 letters pass there and fail on the client. |
| `PaymentSchemas.MonthLengthOnly` | klu_backend/app/schemas/transaction.py:21 | The backend accepts month "13" or "00", which the client rejects. |
| `PaymentSchemas.CvvDisagreement` | klu_backend/app/schemas/transaction.py:23 | The client accepts and the backend rejects a CVV exactly when it is four digits. |
| `PaymentSchemas.CurrencyLengthsDiffer` | klu_backend/app/schemas/transaction.py:10 | A currency of one astral character plus one letter passes the client (3 UTF-16 units) and fails the backend (2 code points). |
| `PaymentSchemas.ClientAcceptedIsBackendValid` | klu_backend/app/schemas/transaction.py:8-28 | A form the client accepts is a valid `PaymentRequest` when the CVV has 3 digits, the text stays in the Basic Multilingual Plane, and the backend's e-mail check admits the address. |
| `TransactionRepository.CreatedRowResponseValid` | klu_backend/app/schemas/transaction.py:31-35 | A created row passes the `TransactionResponse` checks iff the amount is positive, the currency has 3 characters, the e-mail is well-formed and at least one name part is non-empty. |
| `TransactionRepository.TransactionTable.CreateTransaction` | klu_backend/app/repositories/transaction_repository.py:9-23 | It adds one row under the fresh id: status "pending", name "first last", no gateway id. The row becomes last in list order and is then found by `GetTransaction`. |
| `TransactionRepository.StatusUpdated` | klu_backend/app/repositories/transaction_repository.py:32-38 | An update keeps the set of ids, sets the status of its own row, and leaves every other row unchanged. |
| `TransactionRepository.StatusUpdateEffect` | klu_backend/app/repositories/transaction_repository.py:35-38 | A missing id changes nothing. Otherwise only the status changes, plus the gateway id when a non-empty one is given. |
| `TransactionRepository.TransactionTable.UpdateTransactionStatus` | klu_backend/app/repositories/transaction_repository.py:25-41 | The table becomes `StatusUpdated` of the old one, and the list order is kept. The result is the updated row, or None when the id is absent. |
| `TransactionRepository.TransactionTable.GetTransaction` | klu_backend/app/repositories/transaction_repository.py:43-44 | Some row iff one has that id, and then that row. |
| `TransactionRepository.TransactionTable.ListTransactions` | klu_backend/app/repositories/transaction_repository.py:46-47 | The rows from position `skip` on, in insertion order: exactly min(limit, rows left) of them, or every row left when `limit` is negative. A negative `skip` counts as 0. This is how SQLite reads `OFFSET` and `LIMIT`. |
| `TransactionsEndpoint.PaymentsApi.CreateTransaction` | klu_backend/app/api/endpoints/transactions.py:25-42 | It stores the request without its card data as a pending row and answers with that row. It enqueues exactly one job: the id as text plus the whole request as JSON. |
| `TransactionsEndpoint.CardDataNotStored` | klu_backend/app/api/endpoints/transactions.py:28-39 | Two requests that differ only in card data create the same row. |
| `TransactionsEndpoint.PaymentsApi.GetTransaction` | klu_backend/app/api/endpoints/transactions.py:45-52 | An error iff the id is absent, and then 404 "Transaction not found"; otherwise the stored row. |
| `TransactionsEndpoint.PaymentsApi.ListTransactions` | klu_backend/app/api/endpoints/transactions.py:55-58 | The repository's window for any integer `skip` and `limit`, negatives included; the defaults are `skip = 0` and `limit = 100`. |
| `TransactionsEndpoint.ListDefaults` | klu_backend/app/api/endpoints/transactions.py:56-57 | With no parameters the list is the first 100 rows in insertion order, or all rows when there are fewer. |
| `TransactionsEndpoint.PaymentsApi.TakeNextJob` | klu_backend/app/api/endpoints/transactions.py:41 | Jobs leave the queue oldest first. |
| `Json.TextMember` | klu_backend/app/tasks/payment_tasks.py:34-35 | A member read as text is Some exactly when the answer is an object whose member is a string, and then that string. It reads the gateway's `status` and `blumonpay_transaction_id` (`PaymentTasks.GatewayStatus`, `PaymentTasks.GatewayTransactionId`) and the token reply's `access_token` (`Blumonpay.AccessToken`, blumonpay_service.py:57). |
| `PaymentTasks.SessionsClosed` | klu_backend/app/tasks/payment_tasks.py:29-57 | On every path, each database session is closed before the next opens, and none stays open. |
| `PaymentTasks.SettleOutcome` | klu_backend/app/tasks/payment_tasks.py:21-58 | For a stored transaction the task changes that row only. It returns the id text and the gateway's status whenever the gateway answered with a text `status`; otherwise it raises after setting "failed". The row stays "pending" only if the gateway said so. |
| `PaymentTasks.MissingStatusFails` | klu_backend/app/tasks/payment_tasks.py:31-58 | A gateway answer without `status` ends with the transaction "failed" and the task raising. |
| `PaymentTasks.Worker.MarkFailed` | klu_backend/app/tasks/payment_tasks.py:49-57 | Sets the row "failed" inside one opened-and-closed session. |
| `PaymentTasks.Worker.Record` | klu_backend/app/tasks/payment_tasks.py:29-58 | The outcome, the new table and the session trace are those of `Apply` for the gateway's answer. |
| `PaymentTasks.Worker.ProcessPayment` | klu_backend/app/tasks/payment_tasks.py:15-58 | The outcome, table and sessions are those of `Settle` for `process_payment_sync`'s result. When the id parses, the gateway gets at most one token request, then the job's `payment_data` unchanged. An id that does not parse touches neither the table nor the gateway. |
| `Blumonpay.EncodeCredentials` | klu_backend/app/services/blumonpay_service.py:31-33 | The token is valid Base64 whose octets are the UTF-8 encoding of the credential text. |
| `Blumonpay.HeaderTexts` | klu_backend/app/services/blumonpay_service.py:43-47 | The token request's header is "Basic " plus `generate_basic_token()`. The charge header (line 73) is "Bearer " plus the token, or "Bearer None" without one. |
| `Blumonpay.GenerateBasicToken` | klu_backend/app/services/blumonpay_service.py:28-33 | The Basic token decodes to the fixed `blumon_pay_ecommerce_api:...` text, whatever the configured username and password. |
| `Blumonpay.Service.constructor` | klu_backend/app/services/blumonpay_service.py:18-23 | URLs and credentials come from the settings; there is no token and nothing has been sent. |
| `Blumonpay.TokenOutcomeOf` | klu_backend/app/services/blumonpay_service.py:49-64 | A token request yields a token iff a reply came back with a non-raising status and a JSON object body. The token is then that object's `access_token`. |
| `Blumonpay.Service.GetToken` | klu_backend/app/services/blumonpay_service.py:35-64 | It logs one form-encoded token request with the plain password and the fixed Basic credential. It keeps the fetched token, or the old one when the request raises. |
| `Blumonpay.Service.GetTokenSync` | klu_backend/app/services/blumonpay_service.py:115-141 | The same, as multipart with the password's SHA-256 digest; `requests` raises only on 4xx and 5xx. |
| `Blumonpay.SyncReturnsRawJson` | klu_backend/app/services/blumonpay_service.py:144-163 | `process_payment_sync` returns the gateway's JSON exactly as sent, whatever the status. It raises iff a needed token request raised, no reply came back, or the body is not JSON. |
| `Blumonpay.Service.ProcessPaymentSync` | klu_backend/app/services/blumonpay_service.py:144-163 | It fetches a token only when none is kept, then posts the data unchanged with the Bearer token. It states the exact requests sent and the token afterwards. |
| `Blumonpay.MapStatus` | klu_backend/app/services/blumonpay_service.py:101-104 | The status is "completed" iff the gateway said "succeeded", otherwise "failed". |
| `Blumonpay.AsyncChargeOutcome` | klu_backend/app/services/blumonpay_service.py:66-113 | The charge stage never raises. It settles "completed" iff the reply is 2xx JSON with status "succeeded"; the details are the reply and the id is its `id`. Only a token fetch can raise, and only when no token is kept. |
| `Blumonpay.Service.ProcessPayment` | klu_backend/app/services/blumonpay_service.py:66-113 | The async variant: form-encoded token request, then the built charge payload. |
| `Blumonpay.ReadCardOf` | klu_backend/app/services/blumonpay_service.py:80-86 | The `card` object carries the five card fields unaltered. |
| `Blumonpay.ReadChargePayloadOf` | klu_backend/app/services/blumonpay_service.py:77-91 | The charge payload reads back as the payment data it was built from. |
| `Blumonpay.TokenKept` | klu_backend/app/services/blumonpay_service.py:68-69 | Once a usable token has been fetched, later payments keep it and request no new one. |
| `Config.PostgresInAnyCase` | klu_backend/app/core/config.py:41 | The database type selects PostgreSQL iff it is "postgres" in any mix of letter case. |
| `Config.GetDbUri` | klu_backend/app/core/config.py:40-43 | The PostgreSQL URL from the settings' user, password, server and database when the type selects PostgreSQL; the SQLite URI otherwise. |
| `Config.DefaultDbUri` | klu_backend/app/core/config.py:11-43 | With the defaults the backend uses `sqlite:///./payments_app.db`. |
| `Config.GetRedisUrl` | klu_backend/app/core/config.py:45-46 | The URL is `redis://HOST:` + port text + `/0`. The port text reads back as the configured port and is canonical: no leading zero, no "-0". |
| `Numerals.ParseIntToString` | klu_backend/app/core/config.py:46 | Reading back `str(port)` gives the port, for every integer. |
| `Numerals.IntToStringCanonical` | klu_backend/app/core/config.py:46 | `str(i)` has no leading zero and no "-0". |
| `TransactionsProxy.ForwardedParamsSpec` | klu_ui/pages/api/transactions/index.js:32-38 | A pair is forwarded iff it is `limit`, `offset` or `status` with a truthy value, and forwarded pairs keep that order. |
| `TransactionsProxy.ListUrl` | klu_ui/pages/api/transactions/index.js:42 | With no parameters the URL is `{base}/transactions`. Otherwise it adds `?` and a query string that parses back to exactly the forwarded pairs. |
| `TransactionsProxy.BuildListUrl` | klu_ui/pages/api/transactions/index.js:35-42 | Building the URL with `URLSearchParams` yields `ListUrl`. |
| `FormUrlEncoded.SearchParams.Append` | klu_ui/pages/api/transactions/index.js:36-38 | `append` adds one pair at the end of the list. |
| `FormUrlEncoded.SearchParams.ToString` | klu_ui/pages/api/transactions/index.js:42 | `toString()` parses back to the list. |
| `FormUrlEncoded.ParseSerialize` | klu_ui/pages/api/transactions/index.js:42 | The urlencoded parser reads back every list the serializer writes, pair by pair and in order. |
| `TransactionsProxy.Relay` | klu_ui/pages/api/transactions/index.js:22-27 | The route answers 200 iff the backend answered 2xx, with its data. Otherwise it uses the backend's status (500 when there is none) and a body holding only `detail`: the backend's truthy detail or the fallback text. |
| `TransactionsProxy.RelayDetail` | klu_ui/pages/api/transactions/index.js:26 | A backend error passes its truthy `detail` through; with none, the fallback text is used. |
| `TransactionsProxy.Handler` | klu_ui/pages/api/transactions/index.js:5-61 | POST relays the body to `{base}/transactions`. GET relays to `ListUrl`. Any other method makes no call and gets 405 "Method not allowed". |
| `Base64.DecodeEncode` | klu_backend/app/services/blumonpay_service.py:32 | Base64 decoding undoes `b64encode` for every octet string. |
| `Utf8.DecodeEncode` | klu_backend/app/services/blumonpay_service.py:31 | UTF-8 decoding undoes `str.encode()` for every string. |
| `UuidText.ParseFormat` | klu_backend/app/tasks/payment_tasks.py:23 | `uuid.UUID(str(u))` gives back `u`. |
| `UuidText.FormatInjective` | klu_backend/app/api/endpoints/transactions.py:41 | Distinct ids have distinct texts, so a job's text names one transaction. |
| `CheckoutLifecycle.SettleNewRow` | klu_backend/app/tasks/payment_tasks.py:29-57 | Settling a freshly inserted row changes that row only. It ends with the gateway's status when the task returns, and "failed" otherwise. |
| `CheckoutLifecycle.Checkout` | klu_backend/app/api/endpoints/transactions.py:36-41 | One checkout: the row is created "pending" and its job runs. The row then holds the returned status or "failed", and no other row changes. |

## Left out

- HTTP transport, Celery, Redis, SQLAlchemy sessions and the database engine are out of scope. Replies are parameters, jobs sit in a queue field, and sessions are only traced as open/close events.
- `uuid4` is replaced by an id given by the caller, which `CreateTransaction` requires to be fresh.
- `created_at` (a server-side timestamp) is not modelled.
- `get_hashed_password` is represented by `Sha256HexOf(password)`; SHA-256 is not computed.
- The multipart and urlencoded wire encodings of token requests are not modelled. Token requests are logged with their fields and encoding kind.
- Logging, `ic` and `str(e)` error texts are left out; the async failure result is `FailedWithError` with no text.
- Amounts are `real`; float rounding is not modelled.
- E-mail syntax (Yup's `.email()`, pydantic's `EmailStr`) is a predicate parameter.
- `klu_ui/pages/api/transactions/[id].js`, `klu_ui/utils/api.js` and the React pages are not part of this model.
- FastAPI's 422 answers to a malformed body or path id are not modelled; the endpoints take typed values.
- A query parameter that Next.js gives as an array is not modelled; query values are text or absent.
- The list order is insertion order; SQL without `ORDER BY` promises no order.
- `TransactionRepository.TransactionTable.ListTransactions`, `TransactionsEndpoint.PaymentsApi.ListTransactions`: negative `skip` and `limit` are read as SQLite reads them, the default engine. PostgreSQL rejects them with an error, and that error is not modelled.
- `Blumonpay.AccessToken`: a non-text `access_token` (a number, say) is cached by Python but read as no token here.
- `PaymentTasks.GatewayStatus`: a non-text gateway `status` is treated as missing (the task marks "failed" and raises), whereas Python would store it.
- `PaymentTasks.GatewayTransactionId`: a non-text gateway id is treated as absent.
- `Config.Lower`: `str.lower()` is modelled on ASCII letters only. No non-ASCII character lowers to a letter of "postgres" except the Kelvin sign (to 'k', not in the word) and U+0130 (to two code points), so `IsPostgres` is unaffected.
- `UuidText.Parse`: it reads only dashes and hex digits. The braces and the `urn:uuid:` prefix that `uuid.UUID` strips are not modelled. Nor is the leniency of its final `int(hex, 16)`: a sign, surrounding blanks, `_` between digits, a `0x` prefix. Such text reads as None here, and Python accepts it. Dashes anywhere are dropped, as in Python.
- `PaymentTasks.Worker.ProcessPayment`: on an id text that only `int()`'s leniency makes valid (say "+" and 31 hex digits), the model neither charges nor updates, but Python does both. Jobs carry `str(id)` only, which both read alike (`UuidText.ParseFormat`).
- `ClientValidation.Validate`: the amount is a number or absent (Formik hands an empty field over as absent); Yup's type error for non-numeric text is not modelled.
