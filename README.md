# AI report backend: a verified model

This project models the core of a Node.js/MongoDB backend that sells report credits and generates business-analysis reports. It is written in Dafny. The model covers:

- **Report jobs.** `generateReport` validates the form, stores a `queued` report, takes a credit when one is due and records the report in the user's history. It then calls the processing webhook and either schedules the runner or marks the report `failed`. The runner `processReport` saves the report five times (25, 50, 75, `completed` at 100, `delivered`). It emits a socket event after each of the first four saves. On any error it reloads the report as last saved and marks it `failed`. The routes that read reports back are `getReport`, `getReportStatus`, `getUserReports` and `downloadReport`.
- **The credit ledger.** This covers `hasCredits`, `deductCredit` and `addCredits` on the user document, and the `requireCredits` guard. On the subscription side it covers plan seeding, order creation, payment verification and the purchase history. Payment verification credits a user at most once per order.
- **The OTP login flow.** This covers OTP generation and storage with a ten-minute expiry, the single-use check, token refresh, the two authentication middlewares, and the controller's validation (including the e-mail pattern).
- **The legacy submission pipeline.** This covers `/api/submit`, the change stream that re-derives progress from a status the external workflow writes, and the status and results endpoints. It models both servers (`server.js` and `server-enhanced.js`) and proves where they differ.

The modules follow the source:

| module | file | models |
|---|---|---|
| `Common` | common.dfy | optional values, the thrown-error result, JavaScript truthiness and `x \|\| d` |
| `Text` | text.dfy | `join`, `toString` on naturals, `replace` with a string pattern, `toLowerCase`, the `\s` class |
| `Ordering` | ordering.dfy | `.find`, `.sort`, `.skip`/`.limit` over a sequence |
| `Accounts` | accounts.dfy | models/User.js as a class whose methods update its fields |
| `Auth` | auth.dfy | auth/auth.service.js, auth/auth.middleware.js, auth/auth.controller.js |
| `Subscriptions` | subscriptions.dfy | controllers/subscription.controller.js, models/UserPlan.js, plan seeding |
| `Legacy` | legacy.dfy | server.js and server-enhanced.js over models/Submission.js |
| `ReportModel` | report_model.dfy | models/Report.js, the upload filter, the new report of `generateReport` |
| `ReportContent` | report_content.dfy | `generateReportContent` |
| `ReportRun` | report_run.dfy | one run of `processReport`, as values |
| `ReportStore` | report_store.dfy | the reports collection and the report routes, as a class |

The external services are parameters of the operations that use them:

- the processing webhook's reply;
- whether the PDF renders;
- whether the mailer sends;
- the payment provider's order creation and signature check;
- JWT verification (the user id a token decodes to, or none);
- `new URL(...)` parsing;
- the random OTP draw;
- the clock (`now`).

Document ids and order ids are drawn from counters in the stores. Request ids (uuids) are parameters.

## Model

| member | source | states |
|---|---|---|
| Common.OrElse | server.js:149 | `s \|\| fallback` gives the string when it is present and non-empty, the fallback otherwise |
| Text.JoinEmptyIff | controllers/report.controller.js:409 | a join with a non-empty separator is empty iff there is nothing to join or a single empty item |
| Text.DecimalString | auth/auth.service.js:11 | `n.toString()` is a non-empty digit string with no leading zero |
| Text.DecimalRoundTrip | auth/auth.service.js:11 | reading the decimal string back gives the number |
| Text.DecimalLength | auth/auth.service.js:11 | a number with k digits renders to exactly k characters |
| Text.IndexOf | controllers/report.controller.js:30-31 | the first occurrence at or after `from`, or -1 exactly when there is none (how an unanchored pattern test matches) |
| Text.ReplaceFirstOfPrefixed | auth/auth.middleware.js:6 | removing a prefix the string starts with leaves exactly the rest |
| Text.ReplaceFirstAbsent | auth/auth.middleware.js:6 | a header without the pattern passes through unchanged |
| Text.LowerChar | auth/auth.controller.js:25 | upper-case ASCII letters map to lower case, every other character is kept |
| Text.ToLower | auth/auth.controller.js:25 | lowercasing keeps the length and lowercases each character |
| Text.ToLowerIdempotent | auth/auth.controller.js:53 | lowercasing an already lowercased email changes nothing |
| Ordering.Filter | controllers/report.controller.js:513-518 | the result holds each element that satisfies the query exactly as often as the input does, and nothing else |
| Ordering.Insert | controllers/report.controller.js:519 | inserting into a sorted sequence keeps it sorted and adds exactly that element |
| Ordering.SortBy | controllers/report.controller.js:519 | `.sort(key)` returns a sorted permutation of its input |
| Ordering.Page | controllers/report.controller.js:520-521 | skip then limit: an offset past the end gives nothing; a limit of 0 keeps everything; otherwise the size is min(\|limit\|, remaining); the i-th element is the input's (offset+i)-th |
| Ordering.PageOfSorted | controllers/report.controller.js:519-521 | a page of a sorted sequence is sorted and is the run that starts at `offset` |
| Ordering.FirstSelected | controllers/subscription.controller.js:227-238 | `find(q).sort(key).limit(n)` draws from the input, and any match it leaves out comes after a full page and sorts no earlier than its last element |
| Accounts.UserAccount.constructor | models/User.js:3-54 | a new user has the schema's defaults: no OTP, 0 credits, no plan, empty histories, active |
| Accounts.UserAccount.Save | models/User.js:56-59 | a save changes nothing but `updatedAt` |
| Accounts.UserAccount.DeductCredit | models/User.js:65-72 | refused with "Insufficient credits" iff the balance is below the amount, with nothing changed; otherwise the balance drops by exactly the amount and is returned; the balance never goes negative |
| Accounts.UserAccount.GrantPlan | controllers/subscription.controller.js:170-192 | the plan's credits are added, the plan becomes active, the purchase joins the plan history, nothing else changes |
| Accounts.UserAccount.AddCredits | models/User.js:74-78 | the balance grows by exactly the amount; a save that would leave it negative fails validation and changes nothing |
| Auth.GenerateOTP | auth/auth.service.js:10-12 | the OTP is six digits, has no leading zero and reads back as the draw |
| Auth.OtpRefusal | auth/auth.service.js:57-70 | the checks in order, each as an iff: user not found iff there is no user; invalid iff no OTP is stored or it differs; expired iff it matches but its expiry has passed; accepted iff none of these |
| Auth.OtpSingleUse | auth/auth.service.js:72-75 | after a successful login every OTP is refused until a new one is issued |
| Auth.IssuedOtpAcceptedIff | auth/auth.service.js:34-70 | a freshly issued OTP is accepted iff it is the one given, is not empty, and at most ten minutes have passed |
| Auth.NewOtpSupersedes | auth/auth.service.js:48-51 | issuing a new OTP makes the previous one invalid |
| Auth.UserStore.FindByEmail | auth/auth.service.js:39 | a user is found iff one is stored under the email, and it is that user |
| Auth.UserStore.SaveOTP | auth/auth.service.js:34-55 | a known user gets the OTP and an expiry ten minutes ahead and nothing else changes; an unknown email gets a new user with 0 credits holding the OTP |
| Auth.UserStore.Register | auth/auth.service.js:41-47 | a new user under a fresh id is stored in both indexes with the OTP and no credits |
| Auth.UserStore.VerifyOTP | auth/auth.service.js:57-88 | fails with exactly the first refusal, leaving the user unchanged; otherwise the OTP is cleared, the login time recorded and the user summarised |
| Auth.UserStore.ActiveUser | auth/auth.middleware.js:17-25 | a user is returned iff the token decodes to a stored, active user |
| Auth.UserStore.RefreshToken | auth/auth.service.js:90-113 | succeeds iff the decoded user exists and is active; every failure is "Failed to refresh token" |
| Auth.UserStore.Authenticate | auth/auth.middleware.js:4-36 | every rejection is 401; no token gives "Authentication required"; the request passes iff there is a token and an active user, carrying that user and token |
| Auth.UserStore.OptionalAuth | auth/auth.middleware.js:38-60 | never rejects; a user is attached iff `authMiddleware` would pass, and it is the same user |
| Auth.UserStore.SendOTP | auth/auth.controller.js:6-41 | 400 without an email or with a malformed one, with every user left as it was; otherwise the lowercased email's user gets the OTP and its expiry and nothing else changes, or a new user with no credits holding them is stored; this happens even when the mail then fails (500) |
| Auth.UserStore.VerifyOTPRequest | auth/auth.controller.js:43-68 | 400 without both fields; otherwise succeeds iff the service accepts the OTP for the lowercased email, and then the OTP is spent and the login recorded (the response summarises that user); every refusal is 400 and leaves the user as it was |
| Auth.UserStore.RefreshTokenRequest | auth/auth.controller.js:70-95 | 400 without a token; otherwise succeeds iff the service refreshes, and refusals are 401 |
| Auth.UserStore.GetProfile | auth/auth.controller.js:97-140 | 404 iff the user is gone; otherwise the profile of the stored user |
| Auth.BearerToken | auth/auth.middleware.js:6 | a token is extracted iff a header is present |
| Auth.BearerTokenOfHeader | auth/auth.middleware.js:6 | the header `Bearer t` carries the token `t` |
| Auth.RequireCredits | auth/auth.middleware.js:62-81 | 401 iff no user; 403 with the required and current counts iff the balance is below the need; otherwise the request goes on |
| Auth.DefaultNeedIsHasCredits | auth/auth.middleware.js:62-70 | with the default need of 1, the guard lets a user through iff `hasCredits()` holds |
| Auth.GateAdmitsDeduction | auth/auth.middleware.js:70-77 | the guard admits a user for n credits iff `deductCredit(n)` would succeed |
| Auth.ValidEmail | auth/auth.controller.js:16-17 | the test agrees with the e-mail pattern read as a formula (both directions) |
| Auth.LowercasePreservesValidity | auth/auth.controller.js:16-25 | an address is valid iff its lowercased form is valid |
| Auth.ReportCountFollowsHistory | auth/auth.controller.js:128 | each report added to the history raises the profile's report count by one |
| Legacy.ProgressForStatus | server.js:30-37 | the table: queued 25, processing 75, done 100; 100 only for `done`; 0 for `error` and any unknown status |
| Legacy.ProgressFollowsLifecycle | server.js:30-35 | progress rises along queued, processing, done, and `error` gives 0 |
| Legacy.SelectModel | server.js:134-140 | `model \|\| 'sonar'` is accepted iff it is whitelisted; no model means `sonar` |
| Legacy.SubmissionStore.constructor | server.js:163 | the store is empty and the fallback webhook is server.js's hard-coded address |
| Legacy.SubmissionStore.Submit | server.js:113-210 | 400 for a missing URL, a URL that does not parse or a model off the whitelist, storing nothing and calling nothing; 500 iff the input is valid but the request id is already stored, again storing and calling nothing; otherwise a `queued` submission at progress 25 is stored, the webhook is called as the server does, and the reply is 201 |
| Legacy.SubmissionStore.WebhookCalls | server-enhanced.js:299-328 | server.js always calls once, to the configured address or its fallback; server-enhanced.js calls iff an address is configured, and then to that address; the payload carries the request id and URL |
| Legacy.SubmissionStore.ApplyStatusUpdate | server.js:69-92 | a status written to a stored submission sets its status; when the status is non-empty only its progress (from the table) and update time change with it; other submissions are untouched |
| Legacy.SubmissionStore.OnStatusChange | server-enhanced.js:95-113 | an update carrying a non-empty status sets that submission's progress from the table and stamps it; anything else changes nothing |
| Legacy.SubmissionStore.UpdateSubmissionProgress | server.js:43-51 | sets the table's progress and the update time of the submission, leaving its status and every other submission alone |
| Legacy.SubmissionStore.Status | server.js:213-244 | 404 iff the request is unknown; otherwise its status, and its stored progress or else the table's |
| Legacy.SubmissionStore.Results | server.js:247-297 | found iff the assessment exists under the server's key; otherwise 404 for an unknown request, 202 with the status while it is not `done`, 404 when it is done but no assessment is stored |
| Legacy.ServersDisagreeOnLookup | server-enhanced.js:389 | an assessment stored under the request id but linked to another report is returned by server.js and not by server-enhanced.js |
| ReportModel.StatusNameInjective | models/Report.js:105-109 | distinct statuses are stored as distinct strings |
| ReportModel.Extname | controllers/report.controller.js:30 | non-empty iff the last '.' is past the first character, and then exactly the name from that '.' on |
| ReportModel.DocumentKind | controllers/report.controller.js:97 | the stored type is the extension without its dot, and empty when there is no extension |
| ReportModel.ToDocument | controllers/report.controller.js:96-103 | a document entry has the upload's extension as its type, keeps the name and size, records the upload time and points at the stored file |
| ReportModel.ToDocuments | controllers/report.controller.js:95-104 | one document entry per uploaded file, in order |
| ReportModel.AsList | controllers/report.controller.js:81 | an array is kept as is; a single value becomes a one-item list unless it is empty |
| ReportModel.NewJob | controllers/report.controller.js:76-104 | the new report is `queued` at progress 0 with the schema's defaults and normalised list fields; it passes the validators iff every upload's type is in the schema's enum |
| ReportModel.UpperCasePdfPassesFilterButNotSchema | controllers/report.controller.js:27-39 | `REPORT.PDF` passes the upload filter, but its stored type `PDF` is outside the schema's enum |
| ReportModel.DocxPassesFilterButNotSchema | controllers/report.controller.js:27-39 | a `.docx` file passes the upload filter, but `docx` is outside the schema's enum |
| ReportContent.Fill | controllers/report.controller.js:334 | a template blank holds the value when it is truthy, the fallback otherwise |
| ReportContent.CompetitorEntries | controllers/report.controller.js:360-365 | one entry per listed competitor, in order, named after it |
| ReportContent.GenerateReportContent | controllers/report.controller.js:332-450 | the content lists exactly the report's competitors, in order |
| ReportContent.UspFillsAdvantageAndStrength | controllers/report.controller.js:366-376 | a given USP is both the competitive advantage and the last SWOT strength; without one both fall back |
| ReportContent.SummaryNamesOrganization | controllers/report.controller.js:334 | the executive summary names the organization right after its opening words |
| ReportContent.ConclusionOpensWithOrganization | controllers/report.controller.js:448 | the conclusion starts with the organization |
| ReportContent.RecommendationsInOrder | controllers/report.controller.js:394-419 | the fixed recommendations come first, then the partnership one, then the team one |
| ReportContent.PartnersFallbackIff | controllers/report.controller.js:409 | for any wording, the partnership recommendation uses its fallback iff there is no partner (or a single empty one) or the joined partners equal the fallback |
| ReportContent.SourcePartnersFallbackIff | controllers/report.controller.js:407-412 | with the source's wording, there are four recommendations and the third says "strategic partners" under exactly those conditions |
| ReportContent.ContentDependsOnFormOnly | controllers/report.controller.js:332-450 | two reports with the same form fields get the same content, whatever their status or bookkeeping |
| ReportRun.SavesDone | controllers/report.controller.js:253-313 | all five saves go through iff nothing fails; a save failure is the only way to stop before the fourth save or to lose the fifth |
| ReportRun.CheckpointShape | controllers/report.controller.js:257-312 | after k saves: progress 25k (100 from the fourth save); processing, then completed, then delivered; content from the third save; e-mailed only at the fifth; always valid and coherent |
| ReportRun.ProgressNeverDecreases | controllers/report.controller.js:257-293 | the progress of a later save is never lower |
| ReportRun.ContentIsFromForm | controllers/report.controller.js:278 | the content generated after the second save is the template filled from the report's own form |
| ReportRun.RunOutcome | controllers/report.controller.js:253-330 | a run ends `delivered` iff nothing failed; otherwise `failed` with the error's message and the progress of the last save that went through; the record is valid and coherent |
| ReportRun.DeliveryFailureFailsCompletedReport | controllers/report.controller.js:301-323 | a PDF or e-mail failure turns a completed report `failed`, keeping its content and progress 100, with no e-mail recorded |
| ReportRun.WritesInOrder | controllers/report.controller.js:257-323 | the saves of a run write progress 25, 50, 75, 100, 100 in order, then the failure record if the run broke |
| ReportRun.EventsInOrder | controllers/report.controller.js:261-328 | the completion event is sent iff the fourth save went through; progress rises between events; an error event comes last, and only when the run broke |
| ReportStore.WebhookFailureMessage | controllers/report.controller.js:189-198 | the stored error always starts with "Webhook failed: " |
| ReportStore.LaunchOutcome | controllers/report.controller.js:137-233 | the report is launched when no webhook is configured or the webhook answered ok; a called webhook is marked triggered iff it succeeded; otherwise the report is `failed` with the webhook's message; the record stays valid and coherent |
| ReportStore.Dispatches | controllers/report.controller.js:137-154 | the webhook is called once iff it is configured, with the report's ids and URL |
| ReportStore.ChargeOutcome | controllers/report.controller.js:71-114 | the user pays exactly one credit iff they have an active plan and credits, nothing otherwise; the balance stays non-negative; the report joins the history |
| ReportStore.Project | controllers/report.controller.js:522 | each listed report is the stored one without its content, in order |
| ReportStore.Matching | controllers/report.controller.js:513-519 | the matching ids, each as often as among the stored ones, newest first; every one a stored report the query selects |
| ReportStore.ListPage | controllers/report.controller.js:518-522 | the page holds min(\|limit\|, matches after the offset) reports (all of them when the limit is 0), and its i-th is the (offset+i)-th matching report, newest first, without content |
| ReportStore.PageIdsSelected | controllers/report.controller.js:513-522 | every id on the page is a stored report the query selects, and the page is newest first |
| ReportStore.ListedReports | controllers/report.controller.js:513-522 | listed reports are the caller's, match the status filter, lack their content and are newest first |
| ReportStore.FindRequest | controllers/report.controller.js:485 | finds a report carrying the request id iff there is one |
| ReportStore.BreakEndsRun | controllers/report.controller.js:314-328 | marking the last-saved report failed, saving it and emitting the error leaves the store as the run's specification says |
| ReportStore.SaveAdvancesRun | controllers/report.controller.js:257-299 | each save writes the next checkpoint, and with its event the store advances by one save |
| ReportStore.JobStore.Insert | controllers/report.controller.js:106 | a new report is stored under the next id; nothing else is touched |
| ReportStore.JobStore.Save | models/Report.js:172-175 | a save replaces the report with its stamped version and keeps the store valid |
| ReportStore.JobStore.GenerateReport | controllers/report.controller.js:43-251 | 400 iff a required field is missing; 500 with nothing stored or charged iff the new report fails validation or its request id is taken; otherwise the report is stored, the user charged, and the reply is 201 with the runner scheduled iff the webhook step succeeded, else 500 |
| ReportStore.JobStore.StoreAndLaunch | controllers/report.controller.js:106-243 | a validated report is stored, the user charged and the webhook step applied; 201 with the runner scheduled iff accepted |
| ReportStore.JobStore.ChargeUser | controllers/report.controller.js:108-114 | the user after the charge is exactly `Charged` of the user before |
| ReportStore.JobStore.LaunchReport | controllers/report.controller.js:118-233 | the stored report becomes `Launch` of itself, the webhook is called as configured, and the runner is scheduled iff accepted |
| ReportStore.JobStore.ProcessReport | controllers/report.controller.js:253-330 | a run leaves the report as `Run` says, appends exactly the saves of `Writes` and the events of `RunEvents`, and unschedules the runner |
| ReportStore.JobStore.Analyse | controllers/report.controller.js:267-276 | from the first save on, the run ends as `Run`, `Writes` and `RunEvents` say |
| ReportStore.JobStore.GenerateContent | controllers/report.controller.js:278-288 | from the content step on, the run ends as `Run`, `Writes` and `RunEvents` say |
| ReportStore.JobStore.Complete | controllers/report.controller.js:290-299 | from the completion on, the run ends as `Run`, `Writes` and `RunEvents` say |
| ReportStore.JobStore.Deliver | controllers/report.controller.js:301-312 | from the PDF on, the run ends as `Run`, `Writes` and `RunEvents` say |
| ReportStore.JobStore.SaveCheckpoint | controllers/report.controller.js:257-299 | the k-th save stores the k-th checkpoint and emits its event |
| ReportStore.JobStore.RecordFailure | controllers/report.controller.js:314-329 | the error handler leaves the store as `Run`, `Writes` and `RunEvents` say for the failed run |
| ReportStore.JobStore.DownloadReport | controllers/report.controller.js:542-581 | 404 iff the report is not the caller's completed or delivered one; otherwise the download is counted and timed, then JSON iff the format is `json`, else a PDF that may fail (500) after the count |
| ReportStore.JobStore.GetReport | controllers/report.controller.js:452-479 | the report is returned iff it exists and belongs to the caller |
| ReportStore.JobStore.GetReportStatus | controllers/report.controller.js:481-506 | 404 iff no report carries the request id; otherwise the status and progress of the report that carries it |
| ReportStore.JobStore.GetUserReports | controllers/report.controller.js:508-540 | fails iff the offset is negative; `total` counts all the matching reports; the page holds min(\|limit\|, matches after the offset) reports (all when the limit is 0), the i-th being the (offset+i)-th matching report, newest first, without content |
| Subscriptions.NewUserPlan | controllers/subscription.controller.js:175-187 | a purchase is allocated the plan's credits, none used, active, with no expiry |
| Subscriptions.FindPlan | controllers/subscription.controller.js:46 | a plan is found iff one has the id, and it is that plan |
| Subscriptions.ActivePlansByPrice | controllers/subscription.controller.js:11 | each active plan as often as it is stored, no inactive plan, cheapest first |
| Subscriptions.PurchaseRows | controllers/subscription.controller.js:251-259 | one row per purchase, in order, with its id, the plan's display name, the credits allocated and used, the remaining credits allocated minus used, the purchase date and the status; fails iff some purchase's plan is gone |
| Subscriptions.PaymentRows | controllers/subscription.controller.js:242-250 | one row per payment, in order, with its order id, the plan's display name and credits, and the payment's amount, currency, payment id and creation date; fails iff some payment's plan is gone |
| Subscriptions.RecentPayments | controllers/subscription.controller.js:227-233 | at most 20 of the user's successful payments, newest first |
| Subscriptions.RecentPaymentsAreNewest | controllers/subscription.controller.js:227-233 | the listed payments are drawn from the stored ones; all of the user's successful payments are listed unless 20 are, and none left out is newer than the last listed |
| Subscriptions.RecentPurchases | controllers/subscription.controller.js:235-238 | at most 20 of the user's purchases, newest first |
| Subscriptions.RecentPurchasesAreNewest | controllers/subscription.controller.js:235-238 | the listed purchases are drawn from the stored ones; all of the user's purchases are listed unless 20 are, and none left out is newer than the last listed |
| Subscriptions.PaymentStore.InitializeDefaultPlans | server-enhanced.js:125-184 | the three plans are seeded iff there is no plan yet |
| Subscriptions.PaymentStore.CreateOrder | controllers/subscription.controller.js:35-92 | 400 without a plan id; 404 iff the plan is missing or inactive; 500 iff the plan is active but the provider fails; an order is created iff the plan is active and the provider answers, for the price in minor units and in the plan's currency, with a `created` transaction for the price under a fresh order id; nothing stored otherwise |
| Subscriptions.PaymentStore.SignatureCheck | controllers/subscription.controller.js:112-145 | passes iff both ids are given and either test mode is on or a signature is given and valid; every refusal is 400 |
| Subscriptions.PaymentStore.VerifyPayment | controllers/subscription.controller.js:94-221 | the refusals in order; 404 iff the order is unknown; 400 iff it already succeeded; the payment is verified iff the checks pass, the order is `created` and its plan exists, and then the transaction succeeds and the user is credited the plan's credits exactly once, with a purchase recorded, and the reply carries the new balance, the plan's display name and credits, and the test-mode flag; 500 iff the plan is gone, after the transaction is marked successful |
| Subscriptions.PaymentStore.GrantedAreSucceeded | controllers/subscription.controller.js:157-161 | an order not yet successful has never credited anyone |
| Subscriptions.PaymentStore.MarkSucceeded | controllers/subscription.controller.js:163-167 | the order's transaction becomes successful with the payment's details; nothing else changes |
| Subscriptions.PaymentStore.RecordPurchase | controllers/subscription.controller.js:175-191 | the purchase is appended and the order counts as granted |
| Subscriptions.PaymentStore.StoredOnceEach | controllers/subscription.controller.js:227-233 | the transactions the history query runs over are the stored ones, each exactly once |
| Subscriptions.PaymentStore.PurchaseHistory | controllers/subscription.controller.js:223-268 | at most 20 payments and 20 purchases, each purchase showing its remaining credits |

## Left out

- JWT signing, `jwt.verify` and token expiry are not modelled. A token is an opaque string, and verification is a parameter giving the decoded user id or none. `generateJWT` and the token in responses are omitted.
- The `activePlan` and `planHistory` populations are omitted, and so is the plan lookup in `getProfile`. The profile carries the stored ids.
- `ReportStore.JobStore.GetUserReports`: the query-string defaults (`limit` 10, `offset` 0 when absent) are not modelled. The caller passes both as integers.
- `Auth.UserStore.Authenticate`: the `.select('-otp -otpExpiry')` projection is not modelled. The user it attaches is the full stored document, OTP fields included.
- `getCredits`, `logout` and `getPlans`' projection of plan fields are omitted. `ActivePlansByPrice` covers the query.
- The webhook, the PDF renderer, the mailer and the payment provider are parameters, and so is the random OTP draw. Their request bodies are reduced to the fields the model checks. The webhook's JSON body is kept as a string.
- The two-second pause and the `setImmediate` scheduling are not modelled. A scheduled runner is an entry in `pending`, and a run is one atomic step with one clock reading. Concurrent requests and interleaved runs are not modelled.
- The outer `setImmediate` error handler is not modelled: `processReport` catches everything it throws itself, so that handler only runs when the error handler's own reload or save fails, and database failures inside the error handler are not modelled. A run that starts on a report that is no longer stored is excluded: the runner is only scheduled for stored reports.
- `global.io` is assumed present. With no socket server, the source emits nothing.
- Events go to the owner's room only, as the code does.
- `user.name || user.email` is modelled as the e-mail. The user schema has no `name` field.
- The schema's `lowercase`/`trim` setters on the user e-mail are not modelled. The stored e-mail is the lowercased address the controller passes, and trimming is not modelled.
- `toLowerCase` is modelled for ASCII letters only.
- `parseInt` of a non-numeric limit or offset (NaN) is not modelled. The model takes integers.
- An id that is not a valid ObjectId (a cast error, 500) is not modelled.
- The `exportFormats` sub-document is never written by the core and is not modelled.
- `requestId` collisions: uuids are a parameter. A request id already in use is modelled as a save that fails on the unique index, for reports (`ReportStore.JobStore.GenerateReport`) and for legacy submissions (`Legacy.SubmissionStore.Submit`, which answers 500).
- `addCredits`: a save that fails validation leaves the in-memory balance changed in the source. The model keeps the document unchanged, which is what is stored.
- A user document that is missing when a report is generated is not modelled. The signed-in user is assumed to exist.
- The submission `formData` sub-document's field casts are not modelled. Form data is a string map.
- Status strings that name `Object.prototype` members (for example `toString`) are not modelled. Via the `??` lookup they would yield a non-number progress.
- Transactions are identified by their provider order id. The history row's document `_id` is that id.
- `Subscriptions.PaymentStore.PurchaseHistory`: its contract states the bounds and the remaining credits. The rows' selection and order are stated by `RecentPayments`, `RecentPaymentsAreNewest`, `RecentPurchases`, `RecentPurchasesAreNewest`, `PaymentRows` and `PurchaseRows`.
- `ReportContent.GenerateReportContent`: its contract states only the competitor list. The other fields are stated by the lemmas about `Render`.

Behaviour the model makes explicit:

- A PDF or e-mail failure after the fourth save marks a completed report `failed` (`ReportRun.DeliveryFailureFailsCompletedReport`).
- The 201 reply of `generateReport` always says "Report generation started". The "Report queued" wording cannot be reached, because the failing webhook path returns 500 first.
- Uploads named with an upper-case `.PDF`, or with `.docx`, pass the upload filter but make the first save fail, because their types are outside the schema's enum.
