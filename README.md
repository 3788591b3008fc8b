# Ledger demo services in Dafny

This project models the request-handling logic of the Ledger demonstration
platform. The platform has three services:

- **Payments API (Express).** It keeps a process-wide `payments` Map from id to
  payment record and has five routes: list, get, create, patch status and
  delete. Beside it sit the health routes with their readiness flag.
- **Notification service (Go).** Its `notifyHandler` checks the method, the
  request body, the required fields and the notification type, then answers
  "queued". `healthHandler` and `versionHandler` accept only GET.
- **Audit service (Python).** `do_GET` dispatches on three fixed paths.
  `do_POST` computes the missing required fields of an audit event, then
  stamps a timestamp and an `audit-` id onto a valid event.

Layout:

- `wrappers.dfy`: `Option` and `Result`.
- `json.dfy`: a decoded JSON document. A body field the client did not send is
  `None`.
- `payments.dfy` (module `Payments`): the payment record and the route checks.
  It holds the Map as a value `Store`: its entries, plus its keys in insertion
  order. Each mutating route has two functions, its outcome and the store it
  leaves behind. The module also proves lemmas about single requests and about
  whole sequences of requests.
- `ledger.dfy` (module `PaymentRoutes`): class `Ledger`, whose fields the route
  handlers update in place. Each method is proved against the `Payments`
  functions. Two client methods replay the create-and-list tests and the completed-payment delete test.
- `health.js` is modelled in `health.dfy` (module `Health`): a pure `Step`
  function, and class `Readiness` holding the `isReady` flag.
- `notifications.dfy` (module `Notifications`): the Go handlers, plus `%d`
  formatting with its inverse.
- `audit.dfy` (module `Audit`): the Python handlers. Python's `in` is modelled
  on every kind of JSON document: on a dict, a list or a str it searches, and
  on anything else it raises. A body that is valid JSON but not an object
  therefore either gets a 400 listing the missing fields or leaves the handler
  with an exception (`Unhandled`), as the code does.

Ids, clock readings, the process uptime and the configured version are
parameters. The caller must supply a payment id that is not already stored,
because `uuidv4()` would give a fresh one.

## Behaviour worth noting

- GET /payments returns at most 10 payments when no `limit` is sent.
- A sent limit goes through `parseInt` and then to `slice(0, limit)` as is. A
  negative limit therefore drops that many payments from the tail; it does not
  give an empty list. A limit that is not a number gives an empty list.
- The description is replaced by `""` whenever it is falsy. That covers an
  absent description, but also `0`, `false` and `""`. A truthy description that
  is not a string is stored unchanged.
- The status route checks only that the new status is one of the five names;
  there is no transition rule. A completed payment can be set back to another
  status and then deleted: deletion is refused only while the status is
  completed.
- The amount check accepts exactly a JSON number above zero. The currency and
  recipient checks accept exactly a non-empty string.

## Model

| member | source | states |
|---|---|---|
| `Payments.Includes` | src/app/routes/payments.js:106 | `includes` finds a status exactly when the value is the string name of a listed status, and the status it returns is the one named |
| `Payments.ParseStatusExact` | src/app/routes/payments.js:104-111 | the status check lets through exactly the five status names, and whatever it accepts is the name of the status it yields |
| `Payments.ParseStatusRoundTrip` | src/app/routes/payments.js:104 | the name of every status parses back to that status |
| `Payments.ToUpperCaseProperties` | src/app/routes/payments.js:85 | upper-casing keeps the length, leaves no lower-case ASCII letter, changes only lower-case letters (each to its capital) and is idempotent |
| `Payments.ToUpperCaseExample` | src/app/routes/payments.js:85 | "usd" is stored as "USD" |
| `Payments.Code` | src/app/routes/payments.js:43-146 | an unknown id is answered 404 and every other refusal 400 |
| `Payments.Body` | src/app/routes/payments.js:44-146 | the refusals about a payment (not found, completed) carry its id, the field refusals an error and a message; not found reads "Payment not found" |
| `Payments.DescriptionOrEmpty` | src/app/routes/payments.js:86 | a truthy description is kept as sent, a falsy or absent one becomes `""`, so the stored description is truthy exactly when the sent one was |
| `Payments.CreateOutcome` | src/app/routes/payments.js:61-91 | amount, then currency, then recipient: the first invalid one is the error (an amount fails iff it is not a number above zero, -50 included); success iff all three pass, giving a pending payment under the given id with the currency upper-cased, the description defaulted to "" when falsy and both timestamps set |
| `Payments.ValuesOf` | src/app/routes/payments.js:22 | the values are the entries under the keys, one per key, in insertion order |
| `Payments.Get` | src/app/routes/payments.js:40-51 | get finds exactly the stored ids, returning the stored record; any other id is NotFound with 404 |
| `Payments.WithStatus` | src/app/routes/payments.js:24-26 | the filter keeps exactly the payments whose status name equals the filter, and never more than it was given |
| `Payments.WithStatusAppend` | src/app/routes/payments.js:25 | filtering keeps the relative order: it distributes over concatenation |
| `Payments.SliceEnd` | src/app/routes/payments.js:28 | where `slice(0, end)` stops: never past the array; 0 for NaN; min(end, length) for end >= 0; length + end, at least 0, for a negative end |
| `Payments.List` | src/app/routes/payments.js:19-33 | count equals the number returned; every payment returned is stored; with a status filter all have that status; the result is a prefix of the (filtered) insertion-ordered values, of length min(10, filtered) when no limit is sent, min(limit, filtered) for limit >= 0, filtered + limit (at least 0) for a negative limit, and 0 for NaN |
| `Payments.AfterCreate` | src/app/routes/payments.js:93 | a refused create leaves the store; an accepted one sets the entry under its id, keeps every key's position, and appends the id when it is new |
| `Payments.CreateKeepsConsistent` | src/app/routes/payments.js:93 | setting an entry keeps every key listed once in the order and every payment stored under its own id |
| `Payments.CreateAppends` | src/app/routes/payments.js:82-93 | a successful create under a fresh id adds exactly one key, changes no other entry, and puts the new payment last in the values |
| `Payments.CreatedPaymentListedLast` | src/app/routes/payments.js:88-93 | after a create, the payments GET /payments slices (all of them, or those with the filtered status) end with the new payment when the filter is empty or "pending", and are unchanged for every other filter |
| `Payments.UpdateOutcome` | src/app/routes/payments.js:102-123 | a value that does not name a status gives InvalidStatus whether or not the id exists; a valid status for a missing id gives NotFound; otherwise the stored record with that status and the new updatedAt |
| `Payments.AfterUpdate` | src/app/routes/payments.js:122-123 | a refused update leaves the store; an accepted one replaces only the target's entry; the key order never changes |
| `Payments.UpdateTouchesOnlyTarget` | src/app/routes/payments.js:122-123 | a status update keeps the store consistent, the keys and their order; every other payment is unchanged, and the target changes only in status and updatedAt |
| `Payments.InvalidStatusBeforeNotFound` | src/app/routes/payments.js:106-120 | an invalid status on an existing payment is refused with InvalidStatus and leaves the store as it was |
| `Payments.DeleteOutcome` | src/app/routes/payments.js:133-147 | an unknown id gives NotFound, a completed payment CannotDeleteCompleted, and the delete is allowed exactly for a stored payment that is not completed |
| `Payments.Without` | src/app/routes/payments.js:149 | removing a key from the order keeps exactly the other keys |
| `Payments.WithoutKeepsDistinct` | src/app/routes/payments.js:149 | removing a key keeps the order free of duplicates |
| `Payments.AfterDelete` | src/app/routes/payments.js:149 | a refused delete leaves the store; an allowed one removes exactly that key from the entries and from the order |
| `Payments.OmitId` | src/app/routes/payments.js:149 | omitting a payment keeps exactly the payments with another id |
| `Payments.ValuesOfWithout` | src/app/routes/payments.js:149 | the values after `payments.delete(id)` are the former values without that payment, in the same order |
| `Payments.DeleteRemovesOnlyTarget` | src/app/routes/payments.js:132-151 | an allowed delete keeps the store consistent, makes a later get NotFound, removes only that key, leaves the other entries unchanged and the listing otherwise in order |
| `Payments.DeleteKeepsConsistent` | src/app/routes/payments.js:149 | a delete, allowed or refused, keeps the store consistent |
| `Payments.CompletedIsNeverDeleted` | src/app/routes/payments.js:142-147 | deleting a completed payment gives CannotDeleteCompleted and leaves the store as it was |
| `Payments.Answer` | src/app/routes/payments.js:43-125 | a get, create or status route answers its success status (200, or 201 for a create) with the payment exactly when it succeeded; a refusal is answered with its error's status and body |
| `Payments.DeleteAnswer` | src/app/routes/payments.js:136-151 | the delete route answers 204 with no body exactly when the delete was allowed; a refusal with its error's status and body |
| `Payments.RunKeepsConsistent` | src/app/routes/payments.js:13 | any sequence of create, status and delete requests keeps the Map consistent: unique ids, each payment under its own id |
| `Payments.CompletedPaymentPersists` | src/app/routes/payments.js:142-147 | a completed payment survives, unchanged, any sequence of requests in which every request naming its id is a delete or a status update whose value names no status (so its status is never changed and no create reuses its id) |
| `PaymentRoutes.Ledger.constructor` | src/app/routes/payments.js:13 | the Map starts empty and consistent |
| `PaymentRoutes.Ledger.Get` | src/app/routes/payments.js:40-51 | a stored id gives its payment (carrying that id) with 200; any other id gives 404 "Payment not found" with the id |
| `PaymentRoutes.Ledger.List` | src/app/routes/payments.js:19-34 | the listing is the one `Payments.List` specifies for the current entries, answered with 200 |
| `PaymentRoutes.Ledger.Create` | src/app/routes/payments.js:57-96 | the outcome is `CreateOutcome`; a failure leaves entries and order unchanged; a success sets the one new entry and appends the payment to the values; the answer is 201 with the payment exactly on success, otherwise the error's status and body |
| `PaymentRoutes.Ledger.UpdateStatus` | src/app/routes/payments.js:102-126 | the outcome is `UpdateOutcome`; only the target entry may change; keys and order stay; the answer is 200 with the payment exactly on success, otherwise the error's status and body |
| `PaymentRoutes.Ledger.Delete` | src/app/routes/payments.js:132-152 | the outcome is `DeleteOutcome`; a refusal leaves the store unchanged; an allowed delete removes exactly that key; the answer is 204 exactly when allowed, otherwise the error's status and body |
| `Health.Step` | src/app/routes/health.js:17-72 | only a POST with a boolean `ready` changes the flag, to exactly that value, answering 200 'ready'/'not ready' to match; any other POST gives 400 "Invalid request"; GET /ready answers 200 iff the flag is set and 503 iff not; GET / and /live answer 200 'healthy'/'alive' whatever the flag |
| `Health.RunIsLastBoolean` | src/app/routes/health.js:58-65 | after any sequence of requests the flag is the last boolean posted, or its starting value if none was |
| `Health.Readiness.constructor` | src/app/routes/health.js:11 | the flag starts true |
| `Health.Readiness.Health` | src/app/routes/health.js:17-23 | GET /health is the `Step` response: 200 'healthy' |
| `Health.Readiness.Live` | src/app/routes/health.js:29-34 | GET /health/live is the `Step` response: 200 'alive' |
| `Health.Readiness.Ready` | src/app/routes/health.js:40-51 | GET /health/ready is the `Step` response: 200 when ready, 503 otherwise |
| `Health.Readiness.SetReady` | src/app/routes/health.js:58-72 | POST /health/ready leaves the flag and gives the response as `Step` says |
| `Notifications.FormatNat` | src/go-service/main.go:136 | `%d` of a natural number is a non-empty string of digits with no leading zero |
| `Notifications.ParseFormatNat` | src/go-service/main.go:136 | the digits read back to the number |
| `Notifications.ParseFormatInt` | src/go-service/main.go:136 | `%d` of any integer is an optional minus sign and digits that read back to it |
| `Notifications.NotificationId` | src/go-service/main.go:136 | the id is "notif-" followed by digits, with an optional minus sign, that read back to the clock reading |
| `Notifications.NotificationIdInjective` | src/go-service/main.go:136 | different clock readings give different notification ids |
| `Notifications.HealthHandler` | src/go-service/main.go:78-88 | any method but GET gives 405 "Method not allowed"; GET gives 200 'healthy' |
| `Notifications.VersionHandler` | src/go-service/main.go:90-101 | any method but GET gives 405; GET gives 200 with the version, "notification-service" and "go" |
| `Notifications.NotifyHandler` | src/go-service/main.go:103-145 | checks in order: non-POST gives 405, an undecodable body 400 "Invalid JSON", an empty type, recipient or body 400 missing fields, a type outside {email, webhook, sms} 400 invalid type; 202 iff all pass, with status "queued" and id "notif-" followed by the clock reading; only 202, 400 and 405 occur |
| `Audit.DoGet` | src/python-service/app.py:36-58 | 200 exactly for /health, /version and /ready, each with its fixed body; every other path gives 404 "Not found" |
| `Audit.Contains` | src/python-service/app.py:71 | `in` works on dicts, lists and strings, and on a dict it tests for the key; on anything else it raises |
| `Audit.Absent` | src/python-service/app.py:70-71 | the comprehension's result is a sub-list of the required fields; for a dict it is exactly the required keys the event lacks |
| `Audit.Missing` | src/python-service/app.py:71 | the comprehension raises exactly when a field is required and the document cannot be searched |
| `Audit.AbsentAppend` | src/python-service/app.py:71 | the missing list keeps the order of the required list: it distributes over concatenation |
| `Audit.MissingRequired` | src/python-service/app.py:70-71 | for a dict event, `missing` is those of action, actor, resource that are absent, in that order |
| `Audit.DoPost` | src/python-service/app.py:60-95 | a path other than /audit gives 404; an invalid JSON body gives 400 "Invalid JSON"; for any event `in` can search that lacks a required field (a dict, a list or a str), 400 with the missing list and nothing stamped, and for an object event 400 iff a required field is absent; 201 iff the path is /audit and the event is an object with all three fields, and then the event gains exactly `timestamp` and `id` = "audit-" + stamp, with every other field kept, and `audit_id` is that id; the event is logged exactly on that 201 path; a non-UTF-8 body, or a non-object document that passes the field check or cannot be searched, raises out of the handler |

## Left out

- Routing, middleware and response writing: Express, `net/http` and `http.server` are left out. So are headers, JSON encoding of the responses, and request logging. Each handler returns its status code and body as a value; the payment routes return their outcome beside it.
- Decoding of request bodies: JSON parsing, the Go decoder's type checks and Python's `Content-Length` handling are left out. The decoded document, or the decoding failure, is an input.
- `parseInt(limit, 10)`: a sent limit arrives as its integer result, or as NaN; the parsing of the text is not modelled. The query `status` is taken to be a single string, so a repeated query parameter is not modelled.
- Id and clock sources: `uuidv4()`, `new Date().toISOString()`, `process.uptime()`, `time.Now()` and `datetime.utcnow()` become parameters. `PaymentRoutes.Ledger.Create` requires the id to be fresh, as a UUID is taken to be.
- Number representation: amounts are exact reals, so double rounding is not modelled. Python's `json.loads` also accepts `NaN`, `Infinity` and `-Infinity`; the JSON value type has no such numbers, and no check of the audit service depends on a number.
- Integer width: `UnixNano` is an unbounded integer here, so its int64 range is not modelled.
- `toUpperCase`: only ASCII letters are mapped. Unicode case mapping is not modelled.
- Payment objects: a record is a value replaced in the Map. Route handlers hold a record only for one request, so no aliasing between records is modelled.
- Python dict key order: the stamped event is a map, so the order its keys are logged in is not kept.
- Go `init` and `getEnv`: the configured version is a parameter. `main` and the server timeouts are not modelled.
- Not modelled at all: concurrency (all handlers run one request at a time), `src/app/routes/version.js` (it only echoes package and environment fields), `src/app/server.js` (wiring), `pulumi/index.ts` (resource declarations) and `commitlint.config.js` (configuration).
