# Task marketplace backend — verified model of its core

This project is a Dafny model of the request-processing core of a NestJS task
marketplace. Clients post tasks, an administrator negotiates and completes
them, clients pay by UPI and have manual payments verified, and files can be
attached to tasks. Authentication is by JWT access and refresh tokens, read
from a header or cookies. A global filter turns every thrown error into a
JSON error body.

The model has eight modules, one per concern:

- `Common` holds identifiers, roles, statuses, the service error kinds and the
  `Result`/`Option` wrappers. It also holds the `Crypto` record: the
  password-hash and JWT functions, which are left uninterpreted.
- `Store` holds the relational records and the class `Database`, whose fields
  are the tables the services change in place. Refresh tokens are keyed by
  their unique token value. Payments are a sequence in creation order, so the
  newest payment of a task is its last one. `Valid()` states the unique
  constraints of the schema: user emails, provider ids and file keys.
- `TaskService` (from `src/task/task.service.ts`) covers:
  - the derived view (payment status and allowed actions)
  - the owner-or-admin guard
  - the list, detail and file read paths
  - the administrator's status transitions
  - task creation and file upload
- `AuthService` (from `src/auth/auth.service.ts`) covers registration, login,
  token issue, refresh-token rotation, the profile read and the two logout
  paths.
- `PaymentService` (from `src/payment/payment.service.ts`) covers UPI payment
  intents, manual verification and the two disabled webhook handlers.
- `JwtStrategy` (from `src/auth/strategies/jwt.strategy.ts`) covers token
  extraction from the header or cookie and claim validation.
- `AuthController` (from `src/auth/auth.controller.ts`) covers where a refresh
  token is read from, and how refresh, profile and logout requests are
  dispatched.
- `ExceptionsFilter` (from `src/common/filters/all-exceptions.filter.ts`)
  covers the status, code and message of the error body.

The specification follows a common pattern:

- The effect of most operations that change state is a pure function of the
  old tables. It returns the result and the new table: `Accept`, `SetStatus`,
  `Counter`, `Issue`, `Refresh`, `LogoutTokens`, `RevokeToken`, `Intent`,
  `Verify`. The three inserts, `Create`, `Register` and `UploadFile`, state
  their new table in their own `ensures`: the old one plus the row built by
  `NewTask`, `NewUser` or the upload.
- The state-changing operations are methods of each service module that take
  the `Database` object and update its fields in place. Each is proved to
  produce exactly that result and table, to keep `Valid()`, and to change
  only the tables in its `modifies` clause.
- The properties of the operations are lemmas about these functions,
  including:
  - idempotent accept and verify
  - single-use refresh tokens
  - isolation of logout-everywhere
  - that verifying the newest payment removes PAY from a client's view

Collaborators outside the core are parameters of the operations:

- the clock, as `now` or a time-stamp string
- random and store-assigned identifiers: `newId`, `newFileId`, `random`
- bcrypt and JWT signing and verification, as the `Crypto` record
- URI encoding and number rendering, as `PaymentService.Formatting`

Some behaviours of the code are easy to misread. The model follows the code
in each:

- A registration with a taken email is a `BadRequest("User already
  exists")` (`src/auth/auth.service.ts:22-24`).
- The comment above the manual-verification guard and the guard's message
  both speak of the "task owner". The check itself compares the *payment's*
  `clientId` with the caller, and lets an administrator through as well
  (`src/payment/payment.service.ts:99-105`).
- The comment in the exception filter speaks of validation errors. The test
  itself turns every 400 whose response object has a truthy `message` into
  422. So `BadRequest("User already exists")` and the payment checks'
  BadRequests reach the client as 422
  (`src/common/filters/all-exceptions.filter.ts:27-29`;
  `ExceptionsFilter.ServiceErrorResponses`).
- Accepting a task never consults its payments.
- Completion and a direct status update apply no transition check.
- A counter-offer resets any task to SUBMITTED. The amount is taken from the
  request body unchecked; a missing amount leaves the budget as it was.
- A refresh that fails verification, names an unknown user, or presents a
  missing or expired token reads "Invalid refresh token". Once those checks
  pass, the presented token is deleted and the new pair is issued by a call
  returned from inside the `try` without being awaited
  (`src/auth/auth.service.ts:80-85`). The catch block therefore does not see
  a failure of that call: a store unique violation reaches the caller as it
  is, and the presented token stays deleted.
- A manual transaction id is accepted when it is a demo id or at least ten
  characters long as JavaScript counts them, in UTF-16 code units.

## Model

| member | source | states |
|---|---|---|
| Store.PaymentsOf | src/task/task.service.ts:108 | the payments fetched with one task: a payment is listed iff it is stored and belongs to that task (the model lists them in creation order) |
| Store.PaymentsOfCounts | src/task/task.service.ts:108 | each payment of the task is listed exactly as often as it is stored, and no other payment is listed |
| Store.NewestPayment | src/task/task.service.ts:47 | the include ordered by creation time descending, take one: anything found is a stored payment of the task (the rest of its meaning is in `NewestPaymentIsNewest`) |
| Store.NewestPaymentIsNewest | src/task/task.service.ts:47 | "newest payment, take one": None iff the task has no payment; otherwise a payment of the task with no later payment of the task after it |
| Store.IndexOfPayment | src/payment/payment.service.ts:92-95 | lookup by provider payment id: None iff no payment has that id; otherwise a position holding that id |
| TaskService.PaymentStatusOf | src/task/task.service.ts:76 | UNPAID iff the fetched payment list is empty, otherwise the status of its first payment |
| TaskService.AllowedActions | src/task/task.service.ts:78-90 | admin on SUBMITTED gets [ACCEPT, COUNTER, REJECT]; admin on ACCEPTED or IN_PROGRESS gets [COMPLETE]; admin on any other status gets nothing; a non-admin gets [PAY] iff unpaid or the payment FAILED, and nothing otherwise |
| TaskService.PayNeverWithAdminActions | src/task/task.service.ts:78-90 | PAY is offered only to non-admins, admin actions only to admins, and never both together |
| TaskService.FormatTaskResponse | src/task/task.service.ts:68-99 | the view keeps the task and carries the payment status and allowed actions derived from the fetched payments and the role |
| TaskService.NewestOnly | src/task/task.service.ts:47 | at most one payment; empty iff the task has no payment; otherwise the newest one, which no later payment of the task follows |
| TaskService.Authorize | src/task/task.service.ts:113-119 | NotFound("Task not found") iff the task is missing; success iff the task exists and the caller is admin or its client; otherwise Forbidden with the given message |
| TaskService.FindAll | src/task/task.service.ts:41-52 | an admin sees every task; any other caller sees exactly their own tasks; each task is viewed with its newest payment and the caller's role |
| TaskService.FindUserTasks | src/task/task.service.ts:54-66 | exactly the caller's tasks, each viewed with its newest payment under the USER role |
| TaskService.UserTasksAreClientListing | src/task/task.service.ts:54-66 | the own-task listing equals the general listing for a USER caller, whatever the caller's real role |
| TaskService.FindOne | src/task/task.service.ts:101-122 | NotFound for a missing task; for a stranger a Forbidden built without a message, which the filter sends with the default "Forbidden"; otherwise the view with all of the task's payments |
| TaskService.GetTaskFiles | src/task/task.service.ts:197-221 | fails iff the guard fails, with the guard's error ("Access denied"); otherwise exactly the task's files, each with its download URL |
| TaskService.DownloadFile | src/task/task.service.ts:223-238 | guard errors first; succeeds iff the guard passes and the file exists and belongs to that task; otherwise NotFound("File not found") |
| TaskService.Accept | src/task/task.service.ts:141-151 | NotFound for a missing task; an ACCEPTED task is returned unchanged; any other task becomes ACCEPTED with all other fields and rows kept |
| TaskService.AcceptIdempotent | src/task/task.service.ts:144 | a second accept returns the same task and leaves the table as the first accept left it |
| TaskService.SetStatus | src/task/task.service.ts:134-139 | store error P2025 for a missing task; otherwise exactly the given status with no transition check, all other fields and rows kept |
| TaskService.Counter | src/task/task.service.ts:124-132 | store error P2025 for a missing task; otherwise status := SUBMITTED and budget := the amount when one is given, the old budget when it is absent; all other fields and rows kept |
| TaskService.CounterReopensNegotiation | src/task/task.service.ts:124-132 | after a counter-offer, with or without an amount, any admin is offered [ACCEPT, COUNTER, REJECT] again, whatever the task's earlier status |
| TaskService.NewTask | src/task/task.service.ts:15-32 | the created row is SUBMITTED, owned by the caller, carries the client's fields, and defaults its target date to seven days after now |
| TaskService.Create | src/task/task.service.ts:15-39 | inserts exactly `NewTask` under the new id and keeps the unique constraints |
| TaskService.AcceptTask | src/task/task.service.ts:141-151 | result and new task table are those of `Accept` on the old table |
| TaskService.CounterOffer | src/task/task.service.ts:124-132 | result and new task table are those of `Counter` on the old table |
| TaskService.UpdateStatus | src/task/task.service.ts:134-139 | result and new task table are those of `SetStatus` on the old table |
| TaskService.CompleteTask | src/task/task.service.ts:153-158 | result and new task table are those of `SetStatus(..., COMPLETED)` on the old table |
| TaskService.FileKey | src/task/task.service.ts:174 | the key starts with the task id and "/", ends with the original file name, and has the length of its parts plus two separators |
| TaskService.UploadFile | src/task/task.service.ts:161-195 | a missing file is BadRequest("No file provided") before any lookup; then the guard's errors; a key already in use is a unique violation; any failure changes nothing; success iff a file is given, the guard passes and the key is unused; success adds exactly one file row and returns its info and download URL |
| AuthService.RegionFor | src/auth/auth.service.ts:30 | INDIA iff the currency is "INR", FOREIGN otherwise |
| AuthService.NewUser | src/auth/auth.service.ts:26-40 | the new row stores only the hash of the password, has role USER and the region from the currency |
| AuthService.FindByEmail | src/auth/auth.service.ts:46-48 | None iff no user has the email; otherwise the stored row with that email |
| AuthService.CheckCredentials | src/auth/auth.service.ts:45-52 | succeeds iff a user with the email has a matching password hash; an unknown email and a wrong password give the same "Invalid credentials" error |
| AuthService.ProjectedRegion | src/auth/auth.service.ts:120 | the stored user's region, or INDIA when the user row is missing |
| AuthService.Issue | src/auth/auth.service.ts:88-123 | both tokens sign {sub, email, role}; the refresh token is stored for the user expiring seven days after now; fails with a unique violation, changing nothing, iff the new refresh token is already stored |
| AuthService.IssueAddsOneRecord | src/auth/auth.service.ts:106-111 | a successful issue adds exactly one record, owned by the user, and keeps every other record |
| AuthService.Refresh | src/auth/auth.service.ts:57-86 | unless signature, user, stored token and expiry all check out, the result is "Invalid refresh token" and nothing changes; otherwise the presented token is deleted and the result is the issue of a pair for the stored user, whose unique violation reaches the caller unchanged with the token still deleted |
| AuthService.RefreshConsumesToken | src/auth/auth.service.ts:79-82 | after a successful refresh the presented token is stored iff the newly issued token is the same string |
| AuthService.RefreshSingleUse | src/auth/auth.service.ts:57-86 | presenting a rotated-away refresh token again fails and changes nothing, at any later time |
| AuthService.GetMe | src/auth/auth.service.ts:125-143 | Unauthorized("User not found") iff the user is unknown; otherwise the user's public profile fields |
| AuthService.LogoutTokens | src/auth/auth.service.ts:145-162 | with a truthy token only the user's record with that token is deleted; without one exactly the user's records are deleted; nothing else changes |
| AuthService.RevokeToken | src/auth/auth.service.ts:164-171 | the token's record is gone whoever owns it, and every other record is kept |
| AuthService.LogoutAllIsolatesUser | src/auth/auth.service.ts:155-158 | logging out everywhere leaves no record of the user and every record of other users |
| AuthService.GenerateTokens | src/auth/auth.service.ts:88-123 | result and new token table are those of `Issue` |
| AuthService.Register | src/auth/auth.service.ts:17-43 | a taken email is BadRequest("User already exists") and changes nothing; otherwise exactly `NewUser` is added and tokens are issued for it as USER |
| AuthService.Login | src/auth/auth.service.ts:45-55 | a credential failure is "Invalid credentials" and changes nothing; otherwise tokens are issued for the matched user |
| AuthService.RefreshTokens | src/auth/auth.service.ts:57-86 | result and new token table are those of `Refresh` |
| AuthService.Logout | src/auth/auth.service.ts:145-162 | always reports success; the new token table is `LogoutTokens` of the old one |
| AuthService.LogoutByRefreshToken | src/auth/auth.service.ts:164-171 | always reports success; the new token table is `RevokeToken` of the old one |
| PaymentService.PaymentIdOf | src/payment/payment.service.ts:59 | every generated payment id starts with "pay_" |
| PaymentService.UpiLink | src/payment/payment.service.ts:62 | the link starts with the fixed payee prefix and always carries "&cu=INR&tn=" |
| PaymentService.UpiLinkIgnoresCurrency | src/payment/payment.service.ts:57-62 | the link is the same whatever the task's currency |
| PaymentService.Intent | src/payment/payment.service.ts:45-87 | BadRequests for an empty task id, then an unknown user, then an unknown task; a used payment id is the store's unique violation (P2002) with no change; failures change nothing; success appends exactly one PENDING upi payment and returns it with the fixed UPI details |
| PaymentService.Utf16Length | src/payment/payment.service.ts:109 | `transactionId.length`: the UTF-16 length, between the number of characters and twice that |
| PaymentService.Utf16LengthOfBmp | src/payment/payment.service.ts:109 | for characters of the Basic Multilingual Plane the length is the character count |
| PaymentService.IsValidTransaction | src/payment/payment.service.ts:108-109 | a demo id or at least ten UTF-16 code units; an accepted id is non-empty and at least six code units long (the examples are in `TransactionAcceptance`) |
| PaymentService.TransactionAcceptance | src/payment/payment.service.ts:108-109 | the three demo ids and every id of ten or more UTF-16 code units are accepted; no id under five characters is, nor any other id of fewer than ten Basic Multilingual Plane characters |
| PaymentService.TransactionExamples | src/payment/payment.service.ts:108-109 | nine ASCII digits are refused, while five emoji (ten UTF-16 code units) are accepted |
| PaymentService.Verify | src/payment/payment.service.ts:91-123 | "Payment not found", then "Only admin or task owner…", then "Invalid transaction ID…", each changing nothing; success iff admin or the payment's client with an acceptable id; then only that payment becomes SUCCESS and the id is echoed |
| PaymentService.IndexOfAfterStatusChange | src/payment/payment.service.ts:115-120 | changing a payment's status does not move any lookup by provider id |
| PaymentService.VerifyIdempotent | src/payment/payment.service.ts:91-123 | a second verification of a verified payment gives the same answer and the same table |
| PaymentService.NewestAfterReplace | src/task/task.service.ts:47 | for two payment lists that differ only at one position, holding payments of the same task, the newest payment differs only when that position held the newest one |
| PaymentService.VerifiedNewestStopsPay | src/task/task.service.ts:86-89 | once the newest payment of a task is verified, the client's listing shows it SUCCESS and offers no PAY |
| PaymentService.VerifyRazorpayPayment | src/payment/payment.service.ts:205-208 | the disabled handler always reports `success: false` with its fixed message, whatever it is given |
| PaymentService.HandleStripeWebhook | src/payment/payment.service.ts:210-213 | the disabled handler always reports `received: false` with its fixed message, whatever it is given |
| PaymentService.CreatePaymentIntent | src/payment/payment.service.ts:45-87 | result and new payment table are those of `Intent` with the id built from the stamp and random part |
| PaymentService.VerifyManualPayment | src/payment/payment.service.ts:91-123 | result and new payment table are those of `Verify` |
| JwtStrategy.AccessCookie | src/auth/strategies/jwt.strategy.ts:16-18 | a token iff the cookies are present and hold a non-empty `accessToken`, and then exactly that cookie's value |
| JwtStrategy.ExtractJwtFromHeaderOrCookie | src/auth/strategies/jwt.strategy.ts:8-21 | a Bearer header yields the rest of the header; otherwise the non-empty cookie; otherwise no token |
| JwtStrategy.BearerRoundTrip | src/auth/strategies/jwt.strategy.ts:11-13 | "Bearer " + t is extracted back as exactly t, whatever the cookies hold |
| JwtStrategy.OtherSchemeFallsThrough | src/auth/strategies/jwt.strategy.ts:11-18 | a header with another scheme such as "bearer " counts as no header |
| JwtStrategy.EmptyCookieIsAbsent | src/auth/strategies/jwt.strategy.ts:16-20 | an empty access-token cookie counts as no cookie |
| JwtStrategy.Validate | src/auth/strategies/jwt.strategy.ts:33-35 | the request user carries the claims' sub, email and role |
| JwtStrategy.IssuedAccessTokenIdentifiesUser | src/auth/strategies/jwt.strategy.ts:33-35 | when verification inverts signing, an issued access token validates back to the user it was issued for |
| ExceptionsFilter.StatusOf | src/common/filters/all-exceptions.filter.ts:16-29 | 500 for anything that is not an HTTP exception; an HTTP exception's own status, except that 400 becomes 422 iff the response is an object with a truthy message |
| ExceptionsFilter.CodeOf | src/common/filters/all-exceptions.filter.ts:34 | the code is always truthy: the thrown value's truthy code, else its constructor name, else "Error" |
| ExceptionsFilter.MessageOf | src/common/filters/all-exceptions.filter.ts:21-35 | "Internal server error" for a non-HTTP exception; a string response as it is; otherwise the object's truthy message, else the object |
| ExceptionsFilter.Catch | src/common/filters/all-exceptions.filter.ts:31-39 | the body is never a success and carries the status, code and message above |
| ExceptionsFilter.ServiceErrorResponses | src/common/filters/all-exceptions.filter.ts:16-37 | every BadRequest is sent as 422; Unauthorized, Forbidden and NotFound keep 401, 403 and 404; each reports its message, and an empty BadRequest or Forbidden the default "Bad Request" or "Forbidden"; a plain Error and a store error are 500 with the generic message |
| AuthController.RefreshTokenOf | src/auth/auth.controller.ts:31 | the first truthy of the body's refreshToken, the body's refresh_token and the cookie, and never an empty token |
| AuthController.LogoutDispatch | src/auth/auth.controller.ts:58-69 | an authenticated caller logs out by user id (with the token if any); an anonymous caller with a token revokes it; nothing else happens iff neither is present |
| AuthController.Refresh | src/auth/auth.controller.ts:26-36 | with no token the result is the plain "Refresh token is required" error and nothing changes; otherwise it is the service's refresh |
| AuthController.GetMeEndpoint | src/auth/auth.controller.ts:42-48 | null for an anonymous caller; otherwise the service's profile or its Unauthorized error |
| AuthController.Logout | src/auth/auth.controller.ts:55-70 | always reports success and changes the token table as `LogoutDispatch` says |

## Left out

- The store's query engine: rows and relations are maps and sequences. The
  `include`d relations that do not feed a modelled decision are left out:
  client email and region, AI analysis, files and messages as returned by
  `findOne`. So is the order of list results: the listings are maps keyed by
  task id.
- Payment `createdAt` is not stored. "Newest" is the last position in the
  payment sequence, which is the creation order.
- The AI task analysis, `aiMetadata` and `priorityScore`: the analysis call
  is disabled in the code and the fields come from an external service.
- The file storage service, sockets, chat, screen share, the admin
  statistics, the other controllers, bootstrapping and the scripts. They are
  outside the modelled core.
- The commented-out Stripe and Razorpay code. It is dead code. Only the two
  stub handlers that remain live are modelled.
- DTO validation. It is kept as the `requires` of `TaskService.Create`
  (non-empty title and description) and `AuthService.Register` (password of
  at least six characters, non-empty name). Other field formats are not
  modelled.
- The role guard of the admin endpoints. It is stated as `requires
  callerRole == ADMIN` on `AcceptTask`, `CounterOffer`, `UpdateStatus` and
  `CompleteTask`. The guard's own Forbidden response is not modelled.
- bcrypt and JWT: they are uninterpreted functions of the `Crypto` record.
  Token expiry is the `verify` function's business, given the current time.
- The clock, `Math.random`, `nanoid` and the store's generated ids are
  parameters. Their freshness is a `requires` (`newId !in ...`) where the
  store would otherwise reject the insert.
- `encodeURIComponent` and number-to-string conversion are uninterpreted
  functions of `PaymentService.Formatting`.
- `AuthService.Issue`: the seven-day expiry via `setDate(getDate() + 7)` is
  modelled as exactly 7 × 24 hours in milliseconds. Daylight-saving shifts of
  local time are not captured.
- Amounts are integers. Floating-point budgets are not modelled.
- `TaskService.Counter`: a request-body amount that is present but not a
  number is not modelled. The store would reject it before any change; the
  model's amount is a number or absent.
- `TaskService.FindOne`: the detail read includes the task's payments
  without an order, so their order is the store's. The model fixes it as
  creation order, so the detail's payment status is that of the task's
  oldest payment.
- Foreign-key constraints of the schema are not modelled. Tasks, payments
  and files may refer to missing rows.
- Concurrency and asynchronous interleaving of the service calls. Each call
  is one atomic step.
- `PaymentService.Verify`: an absent (`undefined`) transaction id is not
  modelled. The source would fail on its length with a TypeError before any
  table change. Transaction ids are always strings here.
- The web framework's exception classes are not part of this model.
  `ExceptionsFilter.ThrownOf` builds their response object as the framework
  does: statusCode, message and error for a given message, and statusCode
  with the default description as the message when none is given.
- `AuthController.RefreshTokenOf`: when every source is falsy, the
  JavaScript `||` chain yields the last falsy value. This is modelled as no
  token, which the callers treat the same way.
- The task controller's download response headers (content type and
  disposition) are not part of this model.
