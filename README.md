# ESummit 2026 site: a verified model of its decision logic

This project is a Dafny model of the E-Summit 2026 website's core: an Express/Prisma backend and a React front end. It covers:

- **Payment-to-pass reconciliation.** A buyer creates an order with the ticketing gateway (KonfHub). The payment is then confirmed, either by the buyer's browser through `verify-and-create-pass` or by the gateway's webhook. Confirmation turns the pending transaction into a completed one and issues exactly one pass. Payment failures and cancellations move the transaction to `failed` or `cancelled`. A buyer who already owns a pass is refused at order time, and is marked for a refund (`refund_pending`) at verification time.
- **Identity sync.** `ensureUserExists`, `/sync` and `/complete-profile` keep the user table aligned with the identity provider (Clerk). So does Clerk's lifecycle webhook. Each of them looks a user up by account id, merges by email, or creates a user.
- **The gateway client.** How each HTTP reply becomes an order, a cancellation or an error. The webhook-signature decision (HMAC-SHA256 of RFC 2104, compared as lower-case hex).
- **Request plumbing.**
  - The Zod request schemas, and the `validate` middleware that turns their issues into a field → message map.
  - The bearer-token middlewares (section 2.1 of RFC 6750).
  - The CORS origin policy.
  - The analytics middlewares, which set timing and `Cache-Control` headers and inject a script into HTML.
- **Front-end decisions.**
  - Which events each pass tier admits, and the pass display names.
  - The dashboard's pass-name normalisation, Thakur-student test, and pass and claim lists.
  - The administrator panel's role permissions, participant search and QR scan.
  - The schedule and events-page filters.
  - The application's page and sign-in state.

**How state is modelled.**

- **Route handlers.** Each handler that changes the database is modelled twice:
  - a specification function from the state (users, passes, transactions, plus the creation order of transactions) and the handler's inputs to the new state and the HTTP reply;
  - a method on the shared `Store.Database` object that performs the same updates step by step, and whose postcondition equals that function.
- **What the lemmas are about.** The properties (guards, the atomic step, idempotency, ordering of verify and webhook) are lemmas about the specification functions.
- **Inputs from outside.** Everything the handlers get from outside is a parameter: the gateway's HTTP replies, the identity provider's profile, the signature verifier's verdict, freshly generated ids, and whether an atomic `$transaction` committed.
- **Front-end state.** The React state of the dashboard and the application is a class whose methods are the handlers. The local-storage list of purchased passes is a class too.

Modules:

- Shared helpers:
  - `Wrappers`: Option/Result.
  - `Strings`: JavaScript string operations.
  - `Seqs`: filters and order-preserving subsequences.
- `Store`: tables, lookups, the `Database` class.
- `KonfHub`: the gateway client.
- `UserRoutes`, `PaymentRoutes`, `ClerkWebhook`: the backend routes.
- `AuthValidator`, `ValidateMiddleware`, `AuthMiddleware`, `Cors`, `Analytics`: request plumbing.
- `PassEvents`, `UserDashboard`, `AdminPanel`, `EventSchedule`, `EventsListing`, `App`: the front end.

## Model

| member | source | states |
|---|---|---|
| Store.UserByClerkId | backend/src/routes/user.routes.ts:19-21 | the row found is the one whose account id matches; none is found exactly when no row carries it |
| Store.UserByEmail | backend/src/routes/user.routes.ts:35-37 | the row found holds the email; none is found exactly when no row holds it |
| Store.UserByClerkIdUnique | backend/src/routes/user.routes.ts:19-21 | under the unique constraints, any row carrying the account id is the one the lookup returns |
| Store.UserByEmailUnique | backend/src/routes/user.routes.ts:35-37 | under the unique constraints, any row holding the email is the one the lookup returns |
| Store.TxUpdateConsistent | backend/src/routes/payment.routes.ts:355-365 | rewriting one existing transaction row keeps the tables consistent (unique users, creation order listing exactly the transaction rows) |
| Store.AtMostOneNewPass | backend/src/routes/payment.routes.ts:282-311 | when at most one pass row is added, and only for a user who had none, owners keep exactly their passes and anyone else gains at most that row |
| Store.Keep | backend/src/routes/payment.routes.ts:436-437 | an `undefined` value in a Prisma update leaves the column as it was; a defined one replaces it |
| Store.FirstTx | backend/src/routes/payment.routes.ts:231-234 | `findFirst` by gateway order id: the result is a matching row; nothing is found only when no row matches |
| Store.FirstTxIsFirstMatch | backend/src/routes/payment.routes.ts:231-234 | the row found is the earliest-created matching row |
| Store.FirstTxUnique | backend/src/routes/payment.routes.ts:400-403 | when exactly one row carries the order id, `findFirst` finds that row in whatever order the rows are listed |
| Store.FirstTxNone | backend/src/routes/payment.routes.ts:236-239 | nothing is found exactly when no transaction matches the order id |
| Store.FirstTxStable | backend/src/routes/payment.routes.ts:400-403 | rewriting rows without changing which ones match leaves the row found unchanged |
| Store.Database.constructor | backend/src/routes/payment.routes.ts:2 | the database starts empty and consistent |
| Store.Database.FindUserByClerkId | backend/src/routes/payment.routes.ts:19-21 | returns `UserByClerkId` of the stored users and changes nothing |
| Store.Database.FindUserByEmail | backend/src/routes/payment.routes.ts:35-37 | returns `UserByEmail` of the stored users and changes nothing |
| Store.Database.UserHasPass | backend/src/routes/payment.routes.ts:111-113 | true exactly when some stored pass belongs to the user; changes nothing |
| KonfHub.CreateOrder | backend/src/services/konfhub.service.ts:75-115 | only a 2xx reply gives an order, and a non-2xx reply gives a non-empty error with no retry. The order id is `id`, else `orderId`. Status defaults to `pending` and currency to `INR`. The amount is `amount` if truthy, else quantity × (`price` or 0). The checkout URL falls back to the payment URL. Ticket id, payment id and payment URL pass through |
| KonfHub.GetOrder | backend/src/services/konfhub.service.ts:120-152 | only a 2xx reply gives an order. The order id is `id`, else `orderId`. Ticket id, payment id, status and amount pass through with no default. Currency is the reply's when non-empty, else `INR`. No URLs are returned |
| KonfHub.CancelOrder | backend/src/services/konfhub.service.ts:184-209 | success (with `success = true`) exactly for a 2xx reply; otherwise a non-empty error |
| KonfHub.VerifyWebhookSignature | backend/src/services/konfhub.service.ts:157-179 | with no secret every webhook is accepted; with one, accepted exactly when the signature equals the hex digest; a failure computing the digest rejects |
| UserRoutes.PrimaryEmail | backend/src/routes/user.routes.ts:28 | the first email address of the profile, none when there is none |
| UserRoutes.EnsureUser | backend/src/routes/user.routes.ts:18-73 | the helper keeps the user table unique. On success, the user returned is the only row carrying the account id. On failure, nothing changes |
| UserRoutes.EnsureUserExisting | backend/src/routes/user.routes.ts:19-23 | a user already linked to the account is returned and the table is unchanged |
| UserRoutes.EnsureUserNoEmail | backend/src/routes/user.routes.ts:28-32 | with no linked user, a failed profile lookup or a profile without an email throws and changes nothing |
| UserRoutes.EnsureUserRelinks | backend/src/routes/user.routes.ts:35-51 | the stored user holding the profile's email is relinked to the account; no row is added or removed; every other row is unchanged |
| UserRoutes.EnsureUserCreates | backend/src/routes/user.routes.ts:52-64 | with neither a linked nor an email-matching user, exactly one user is created, with that account id and email |
| UserRoutes.EnsureUserIdempotent | backend/src/routes/user.routes.ts:18-73 | running the helper again after it succeeded returns the same user and changes nothing |
| UserRoutes.EnsureUserExists | backend/src/routes/user.routes.ts:18-73 | the method's result and new user table are those of `EnsureUser` |
| UserRoutes.Sync | backend/src/routes/user.routes.ts:79-161 | keeps the users unique. A missing account id or email gives 400 and leaves the table as it was. A 200/201 reply names a stored user. A 500 leaves the table as it was plus the concurrently inserted row, and names no user |
| UserRoutes.SyncInsert | backend/src/routes/user.routes.ts:129-156 | the insert path, including the retry-by-email after a unique violation: 200/201 exactly when a user is returned; never 400 |
| UserRoutes.SyncUser | backend/src/routes/user.routes.ts:79-161 | the method's reply and table are those of `Sync` |
| UserRoutes.InsertSynced | backend/src/routes/user.routes.ts:129-156 | the method's reply and table are those of `SyncInsert` |
| UserRoutes.SyncRequiresIds | backend/src/routes/user.routes.ts:91-94 | a missing account id or email gives 400 and changes nothing |
| UserRoutes.SyncExisting | backend/src/routes/user.routes.ts:97-105 | a user linked to the account is returned with 200, unchanged |
| UserRoutes.SyncRelinks | backend/src/routes/user.routes.ts:108-126 | an email match is relinked. Each name and image field takes the request's value when that is non-empty and keeps its stored value otherwise. The email is kept. No other row changes |
| UserRoutes.SyncCreates | backend/src/routes/user.routes.ts:130-142 | a new account and email with no concurrent insert create exactly one user, answered 201 |
| UserRoutes.SyncRaceFallback | backend/src/routes/user.routes.ts:144-155 | after a concurrent insert of the same email, the unique violation is answered 200 with that row, and this request adds nothing |
| UserRoutes.SyncRaceOnAccountId | backend/src/routes/user.routes.ts:144-160 | when the concurrent insert took only the account id, the re-read by email finds nothing and the reply is 500 |
| UserRoutes.ValidateProfile | backend/src/routes/user.routes.ts:184-198 | refused (400) exactly when the account id, email, phone, college or year is missing, or, for the Thakur college, branch or roll number |
| UserRoutes.CompleteProfile | backend/src/routes/user.routes.ts:167-251 | a 200 reply names a stored user whose profile is complete; any other reply changes nothing; users stay unique |
| UserRoutes.CompletedProfileIsComplete | backend/src/routes/user.routes.ts:189-198 | every profile that `/complete-profile` accepts passes the check of `/check-profile` |
| UserRoutes.CompleteProfileRejects | backend/src/routes/user.routes.ts:184-198 | a request missing a required field gets 400 and the table is unchanged |
| UserRoutes.CompleteUserProfile | backend/src/routes/user.routes.ts:167-251 | the method's reply and table are those of `CompleteProfile` |
| UserRoutes.CheckProfile | backend/src/routes/user.routes.ts:297-321 | the table is the one the find-or-create helper leaves. The reply is 200 exactly when the helper found or created a user, and `exists` is true exactly then. `isComplete` is the completeness predicate of that user and implies `exists` |
| UserRoutes.CompleteThenCheck | backend/src/routes/user.routes.ts:310-315 | after a successful `/complete-profile`, checking the same account reports complete and changes nothing |
| UserRoutes.CheckUserProfile | backend/src/routes/user.routes.ts:297-321 | the method's answer and table are those of `CheckProfile` |
| PaymentRoutes.ErrorReply | backend/src/routes/payment.routes.ts:183-186 | the catch reply is 500 with the error's message, or the fallback when it has none |
| PaymentRoutes.OrderMeta | backend/src/routes/payment.routes.ts:156-160 | the new transaction's metadata records the pass type |
| PaymentRoutes.CreateOrder | backend/src/routes/payment.routes.ts:82-187 | keeps the state consistent and never touches passes. 201 exactly when a transaction is created. Otherwise no transaction changes. A 400 reply sends no order to the gateway |
| PaymentRoutes.OrderFor | backend/src/routes/payment.routes.ts:110-182 | the same, once the buyer is known; a refusal leaves the whole state unchanged |
| PaymentRoutes.CreateOrderHandler | backend/src/routes/payment.routes.ts:82-187 | the method's state, reply, gateway request and created row are those of `CreateOrder` |
| PaymentRoutes.PlaceOrder | backend/src/routes/payment.routes.ts:110-182 | the method's outcome is that of `OrderFor` |
| PaymentRoutes.CreateOrderRejectsInvalid | backend/src/routes/payment.routes.ts:91-100 | a missing account id, pass type or price, or a price ≤ 0, gives 400, changes nothing and sends no order |
| PaymentRoutes.CreateOrderOnePassGuard | backend/src/routes/payment.routes.ts:110-122 | a buyer who owns a pass gets 400 and no gateway order; passes and transactions are unchanged |
| PaymentRoutes.CreateOrderOwnerUnchanged | backend/src/routes/payment.routes.ts:103-122 | for a buyer already linked to the account and owning a pass, the whole state is unchanged |
| PaymentRoutes.CreateOrderUnfolds | backend/src/routes/payment.routes.ts:103-108 | past validation, create-order is `ensureUserExists` followed by the order for the returned buyer |
| PaymentRoutes.OrderForAddsPending | backend/src/routes/payment.routes.ts:143-162 | success adds exactly one transaction: pending, amount = price, currency INR, gateway order id, pass type in metadata, owned by the buyer, newest |
| PaymentRoutes.CreateOrderAddsPending | backend/src/routes/payment.routes.ts:143-162 | a successful create-order adds exactly that one pending transaction and no pass |
| PaymentRoutes.FailOrderWith | backend/src/routes/payment.routes.ts:214-224 | `updateMany` sets every transaction with the order id to failed, whatever its status; the row set is unchanged and other rows are kept |
| PaymentRoutes.Verify | backend/src/routes/payment.routes.ts:193-330 | keeps the state consistent; users, creation order and transaction ids are unchanged; existing passes are kept; at most the new pass row is added, and only for a user who owned none |
| PaymentRoutes.VerifyCompleted | backend/src/routes/payment.routes.ts:230-311 | the same frame once the gateway reports the payment completed |
| PaymentRoutes.VerifyFound | backend/src/routes/payment.routes.ts:241-311 | the same frame once the order's transaction is found |
| PaymentRoutes.PassCreated | backend/src/routes/payment.routes.ts:282-311 | the atomic step adds exactly the new pass row, owned by the transaction's user, and keeps every other row |
| PaymentRoutes.VerifyHandler | backend/src/routes/payment.routes.ts:193-330 | the method's state and reply are those of `Verify` |
| PaymentRoutes.VerifyNotCompletedFailsAll | backend/src/routes/payment.routes.ts:210-228 | a status other than completed fails every transaction with the order id, leaves the others, creates no pass, and replies 400 |
| PaymentRoutes.VerifyUnknownOrder | backend/src/routes/payment.routes.ts:236-239 | no transaction with the order id: 404 and nothing changes |
| PaymentRoutes.VerifyAlreadyProcessed | backend/src/routes/payment.routes.ts:242-245 | an already completed transaction: 400 "already processed" and nothing changes |
| PaymentRoutes.VerifyRefundPending | backend/src/routes/payment.routes.ts:248-272 | a buyer who owns a pass gets no second one: the transaction becomes `refund_pending` with `needsRefund`, and passes are unchanged |
| PaymentRoutes.VerifyCreatesPass | backend/src/routes/payment.routes.ts:282-311 | a successful verify adds one Active pass (price = amount, owner = transaction's user, type from metadata); the transaction becomes completed and points to it; its owner then owns exactly that pass |
| PaymentRoutes.VerifySucceeded | backend/src/routes/payment.routes.ts:202-311 | a 201 reply means the order id was given and reported completed, and the order's earliest transaction was neither completed nor owned by a pass holder |
| PaymentRoutes.VerifyCommitFailure | backend/src/routes/payment.routes.ts:282-329 | when the atomic step does not commit, nothing changes and the reply is 500 |
| PaymentRoutes.VerifyNoSecondPass | backend/src/routes/payment.routes.ts:248-311 | verify never gives a second pass to a user who owns one, and creates at most one pass in all |
| PaymentRoutes.VerifyTwice | backend/src/routes/payment.routes.ts:242-245 | after a successful verify, verifying the same order again hits "already processed" |
| PaymentRoutes.PaymentFailed | backend/src/routes/payment.routes.ts:336-374 | only transactions change; any non-200 reply changes nothing |
| PaymentRoutes.PaymentFailedHandler | backend/src/routes/payment.routes.ts:336-374 | the method's state and reply are those of `PaymentFailed` |
| PaymentRoutes.PaymentFailedKeepsMetadata | backend/src/routes/payment.routes.ts:355-365 | the order's transaction becomes failed, even over completed. Its metadata keeps every other key and gains `error` (the request's error, or "Payment cancelled by user" when that is empty) and `failedAt`. No other field or row changes |
| PaymentRoutes.Webhook | backend/src/routes/payment.routes.ts:380-493 | keeps the state consistent. Users, creation order and transaction ids are unchanged. Every existing pass is kept unchanged, and the only pass that may be added is the new row. A non-200 reply changes nothing |
| PaymentRoutes.WebhookEvent | backend/src/routes/payment.routes.ts:412-488 | the same frame, including the pass frame, for the event switch on a found transaction |
| PaymentRoutes.WebhookHandler | backend/src/routes/payment.routes.ts:380-493 | the method's state and reply are those of `Webhook` |
| PaymentRoutes.WebhookBadSignature | backend/src/routes/payment.routes.ts:386-392 | a signature that does not verify gives 401 and nothing changes |
| PaymentRoutes.WebhookUnknownOrder | backend/src/routes/payment.routes.ts:405-409 | an order no transaction carries gives 200 and nothing changes |
| PaymentRoutes.WebhookReplayNoop | backend/src/routes/payment.routes.ts:413-414 | `order.completed` on an already completed transaction changes nothing, so a repeated delivery creates no second pass |
| PaymentRoutes.WebhookCompletes | backend/src/routes/payment.routes.ts:413-451 | on a transaction not yet completed, exactly one pass is created for its user and the transaction is completed, whether or not that user already owns a pass |
| PaymentRoutes.WebhookTwice | backend/src/routes/payment.routes.ts:413-451 | a delivery repeated after a processed one changes nothing more |
| PaymentRoutes.VerifyThenWebhook | backend/src/routes/payment.routes.ts:414 | after a successful verify, an `order.completed` webhook for that order changes nothing |
| PaymentRoutes.WebhookThenVerify | backend/src/routes/payment.routes.ts:242-245 | after the webhook completed an order, verify answers "already processed" |
| PaymentRoutes.WebhookCancelled | backend/src/routes/payment.routes.ts:453-466 | `order.cancelled` sets cancelled, even over completed. The row's metadata keeps every key and gains `cancelledAt` and `webhookProcessed: true`. No other field, row or pass changes |
| PaymentRoutes.WebhookTicketIssued | backend/src/routes/payment.routes.ts:468-482 | `ticket.issued` changes only the ticket id and metadata of the order's transaction |
| PaymentRoutes.WebhookOtherEvent | backend/src/routes/payment.routes.ts:484-488 | any other event is acknowledged and changes nothing |
| PaymentRoutes.Cancel | backend/src/routes/payment.routes.ts:539-590 | only transactions change; a non-200 reply changes nothing |
| PaymentRoutes.CancelFound | backend/src/routes/payment.routes.ts:558-585 | the same once the transaction is found |
| PaymentRoutes.CancelHandler | backend/src/routes/payment.routes.ts:539-590 | the method's state, reply and gateway call are those of `Cancel` |
| PaymentRoutes.CancelOutcomes | backend/src/routes/payment.routes.ts:548-581 | 404 for a missing transaction; 400 for a completed one or one without an order id, with no change and no gateway call; otherwise, when the gateway accepts, the row becomes cancelled with `cancelledAt` added to its metadata. No other field or row changes |
| PaymentRoutes.TransactionDetails | backend/src/routes/payment.routes.ts:499-533 | the row is returned with 200 exactly when it exists, else 404 |
| PaymentRoutes.TransactionsOf | backend/src/routes/payment.routes.ts:610-624 | every listed row is one of the user's transactions, and each entry was created after every entry that follows it (newest first) |
| PaymentRoutes.UserTransactions | backend/src/routes/payment.routes.ts:596-631 | users stay unique; a non-200 reply lists nothing |
| PaymentRoutes.TransactionsOfExact | backend/src/routes/payment.routes.ts:610-624 | the list holds exactly the user's transactions, no entry twice, newest first |
| PaymentRoutes.CreatedTransactionListedFirst | backend/src/routes/payment.routes.ts:143-162 | after a successful create-order the new transaction heads the buyer's list and can be read back by its id |
| ClerkWebhook.EventEmail | backend/src/routes/webhook.routes.ts:59 | the first email address of the event, or `""` |
| ClerkWebhook.IfNonEmpty | backend/src/routes/webhook.routes.ts:60-63 | a field is written only when its value is non-empty |
| ClerkWebhook.UpdateLinked | backend/src/routes/webhook.routes.ts:76-87 | `updateMany` rewrites exactly the rows linked to the account and keeps the others |
| ClerkWebhook.DeleteLinked | backend/src/routes/webhook.routes.ts:96-100 | `deleteMany` removes exactly the rows linked to the account and keeps the others |
| ClerkWebhook.UpdateLinkedUnique | backend/src/routes/webhook.routes.ts:76-87 | when the new email clashes with no other row, the update keeps the users unique |
| ClerkWebhook.Handle | backend/src/routes/webhook.routes.ts:16-111 | keeps the users unique; any reply but 200 leaves the table unchanged |
| ClerkWebhook.HandleClerkEvent | backend/src/routes/webhook.routes.ts:16-111 | the method's table and reply are those of `Handle` |
| ClerkWebhook.NoSecretRejects | backend/src/routes/webhook.routes.ts:18-22 | no configured secret gives 500 and no change |
| ClerkWebhook.MissingHeaderRejects | backend/src/routes/webhook.routes.ts:25-31 | a missing svix header gives 400 and no change |
| ClerkWebhook.UnverifiedRejects | backend/src/routes/webhook.routes.ts:34-46 | a failed verification gives 400 and no change |
| ClerkWebhook.CreatedInsertsOne | backend/src/routes/webhook.routes.ts:51-65 | `user.created` inserts exactly one row and keeps every other row. The new row holds the account id and the first email or `""`. Its name and image fields, including the joined full name, are set exactly when non-empty. Its profile fields are empty |
| ClerkWebhook.UpdatedTouchesLinkedOnly | backend/src/routes/webhook.routes.ts:71-87 | `user.updated` changes only the linked rows. The email is always written. First name, last name and image are written exactly when the event's value is non-empty, and kept otherwise. The full name is the trimmed display name when that is non-empty, and kept otherwise. Profile fields are kept |
| ClerkWebhook.DeletedRemovesLinked | backend/src/routes/webhook.routes.ts:93-100 | `user.deleted` removes exactly the linked rows |
| ClerkWebhook.OtherEventIgnored | backend/src/routes/webhook.routes.ts:101-105 | any other event type gives 200 and no change |
| ClerkWebhook.CreateThenDelete | backend/src/routes/webhook.routes.ts:51-100 | deleting an account right after creating it gives back the table as it was |
| PassEvents.Programme | src/utils/pass-events.ts:29-78 | a day's events carry the day's prefix, one per session, in order |
| PassEvents.Admission | src/utils/pass-events.ts:139-166 | the filter of each pass type; no admitted event is on the excluded list |
| PassEvents.EligibleEvents | src/utils/pass-events.ts:82-171 | no result contains an excluded event; an unknown pass type gets the empty list |
| PassEvents.EventScheduleWellDated | src/utils/pass-events.ts:29-78 | every day-1 id starts with "d1" and every day-2 id with "d2" |
| PassEvents.EventScheduleHasExpo | src/utils/pass-events.ts:29-78 | each day holds the start-up expo |
| PassEvents.DayPasses | src/utils/pass-events.ts:158-162 | "day1" admits exactly the registrable events whose id starts with "d1", and "day2" those starting with "d2" |
| PassEvents.EligibleIsSubseq | src/utils/pass-events.ts:83 | every result is an order-preserving subsequence of day 1 followed by day 2 |
| PassEvents.TiersNest | src/utils/pass-events.ts:98-130 | pixel ⊆ silicon ⊆ quantum, as ordered subsequences and as sets |
| PassEvents.AliasesAgree | src/utils/pass-events.ts:143-155 | "tcet_student" and "tcet student" are the quantum pass; "exhibitors" and "exhibitors pass" agree |
| PassEvents.FullPassIsBothDays | src/utils/pass-events.ts:164-166 | "full" and "group" admit every registrable event: the day-1 pass followed by the day-2 pass |
| PassEvents.DayPassWithinFull | src/utils/pass-events.ts:158-166 | each single-day pass admits a subsequence of the full pass |
| PassEvents.FullPassIsEverything | src/utils/pass-events.ts:139-169 | every pass type admits a subsequence of the full pass |
| PassEvents.GetPassName | src/utils/pass-events.ts:176-192 | the table's name for a known id, "Unknown Pass" otherwise |
| PassEvents.NamedTypesAreSwitchCases | src/utils/pass-events.ts:139-190 | the name table has an entry for exactly the pass types of the eligibility switch |
| PassEvents.DayPassAdmitsSomething | src/utils/pass-events.ts:158-162 | with the expo on both days, each single-day pass admits an event |
| PassEvents.BothDaysPassAdmitsSomething | src/utils/pass-events.ts:139-166 | with the expo on day 1, every pass type that filters both days admits an event |
| PassEvents.NamedIffEligible | src/utils/pass-events.ts:139-192 | a pass id has a name exactly when it admits at least one event |
| PassEvents.SummitNamesMatchPasses | src/utils/pass-events.ts:139-192 | at the summit's own schedule, `getPassName` knows an id exactly when `getEligibleEvents` admits something for it |
| PassEvents.FormatEventWithDate | src/utils/pass-events.ts:214-238 | the displayed fields are copied; day 1 is dated "February 2, 2026" and any other day "February 3, 2026" |
| PassEvents.FormattedEvents | src/utils/pass-events.ts:243-250 | keeps the length and ids of the eligible events; the date is February 2 exactly for ids starting "d1" |
| PassEvents.FormattedDateIsScheduleDay | src/utils/pass-events.ts:243-250 | in a well-dated schedule, each shown date is the date of the day the event is on |
| PassEvents.PurchasedPasses.constructor | src/utils/pass-events.ts:206-209 | nothing is stored at first, and the stored list reads as empty |
| PassEvents.PurchasedPasses.GetPurchasedPasses | src/utils/pass-events.ts:206-209 | the stored list, or the empty list when nothing was stored |
| PassEvents.PurchasedPasses.SavePurchasedPass | src/utils/pass-events.ts:197-201 | the stored list gains exactly the new record at its end |
| UserDashboard.GetPassTypeId | src/components/user-dashboard.tsx:337-359 | a name in the table gives its pass type, any other name "pixel". The result is always a case of the eligibility switch |
| UserDashboard.PassTypeIdIgnoresPadding | src/components/user-dashboard.tsx:339 | surrounding white space never changes the pass type |
| UserDashboard.PassTypeIdIgnoresCase | src/components/user-dashboard.tsx:339 | letter case never changes the pass type |
| UserDashboard.PassTypeAliases | src/components/user-dashboard.tsx:341-356 | the three student-pass names give "tcet_student"; gold, silver and platinum give day1, day2 and full |
| UserDashboard.EveryPassListsEvents | src/components/user-dashboard.tsx:493-496 | every pass shown lists at least one included event |
| UserDashboard.UserEmail | src/components/user-dashboard.tsx:116 | the identity provider's address, else the profile's, else the placeholder; never empty |
| UserDashboard.TcetStudentByDomain | src/components/user-dashboard.tsx:117-120 | Thakur student exactly when the lower-cased address ends with one of the four domains |
| UserDashboard.ActivePasses | src/components/user-dashboard.tsx:156-158 | exactly the passes with status "Active", in order |
| UserDashboard.PendingClaims | src/components/user-dashboard.tsx:184-186 | exactly the claims with status "pending", in order |
| UserDashboard.WithoutClaim | src/components/user-dashboard.tsx:270 | exactly the claims with another id, in order |
| UserDashboard.StatusFiltersKeepOrder | src/components/user-dashboard.tsx:156-186 | the status filters keep every matching entry, in the order fetched |
| UserDashboard.CancelRemovesExactly | src/components/user-dashboard.tsx:270 | cancelling removes exactly the claims with that id; an id not listed changes nothing |
| UserDashboard.ClaimGuard | src/components/user-dashboard.tsx:203-228 | sign-in is required without a user id or email; a missing booking id is refused; otherwise the request carries the form as an approved pass |
| UserDashboard.SignInGuardIsUserId | src/components/user-dashboard.tsx:203-211 | since the dashboard's email is never empty, sign-in is asked for exactly when the user id is missing |
| UserDashboard.Dashboard.constructor | src/components/user-dashboard.tsx:99-112 | the initial passes, claims, loading flags, modal and form |
| UserDashboard.Dashboard.FetchPasses | src/components/user-dashboard.tsx:142-166 | a successful fetch for a signed-in user sets the Active passes; loading always ends |
| UserDashboard.Dashboard.FetchPendingClaims | src/components/user-dashboard.tsx:173-192 | a successful fetch for a signed-in user sets the pending claims; otherwise they stay |
| UserDashboard.Dashboard.SubmitPassClaim | src/components/user-dashboard.tsx:202-253 | the outcome is the guard's. On approval the modal closes and the form resets; otherwise they stay |
| UserDashboard.Dashboard.CancelClaim | src/components/user-dashboard.tsx:256-277 | on approval for a signed-in user the claims lose exactly that id; otherwise they stay |
| AuthValidator.FirstLine | backend/src/validators/auth.validator.ts:12 | the text before the first line terminator: a prefix of the input, with no line terminator in it |
| AuthValidator.LookaheadSeesFirstLine | backend/src/validators/auth.validator.ts:12 | a lookahead `(?=.*[…])` succeeds exactly when the first line holds a character of the class |
| AuthValidator.StrongPatternOnOneLine | backend/src/validators/auth.validator.ts:12 | for a one-line password the pattern asks for a lower-case letter, an upper-case letter and a digit anywhere |
| AuthValidator.LookaheadIgnoresLaterLines | backend/src/validators/auth.validator.ts:12 | a lookahead stops at the first line break |
| AuthValidator.StrongPatternIgnoresLaterLines | backend/src/validators/auth.validator.ts:56 | what follows a line break does not count towards the pattern |
| AuthValidator.FirstLineOfBrokenLine | backend/src/validators/auth.validator.ts:12 | the first line of `a + [break] + b` is the first line of `a`, or `a` itself when it has no break |
| AuthValidator.PasswordChecks | backend/src/validators/auth.validator.ts:8-14 | no issue exactly when the length is ≥ 8 and the pattern holds; both messages when both fail |
| AuthValidator.NoChecks | backend/src/validators/auth.validator.ts:22 | `z.string()` with no further check reports nothing |
| AuthValidator.FieldIssues | backend/src/validators/auth.validator.ts:6-23 | a missing required field gives "Required"; a missing optional field gives nothing; a present one gives its check messages, all at the field's key |
| AuthValidator.FieldReportsEveryCheck | backend/src/validators/auth.validator.ts:6-23 | every message of a present field is reported at its key |
| AuthValidator.Parse | backend/src/validators/auth.validator.ts:6 | the body passes unchanged exactly when there are no issues; otherwise the error lists them |
| AuthValidator.RegisterAccepts | backend/src/validators/auth.validator.ts:6-23 | registration is accepted exactly when every rule holds (email, strong password, name ≥ 2, phone 10 digits starting 6–9, college ≥ 2, year in the list), and the body passes unchanged |
| AuthValidator.RegisterReportsPasswordRules | backend/src/validators/auth.validator.ts:8-14 | a rejected password reports each rule it breaks at "password" |
| AuthValidator.LoginAccepts | backend/src/validators/auth.validator.ts:28-31 | login needs an address and a non-empty password, with no strength rule |
| AuthValidator.RefreshAccepts | backend/src/validators/auth.validator.ts:36-38 | a non-empty token is accepted; an empty one gets its message; a missing one gets "Required" |
| AuthValidator.ForgotAccepts | backend/src/validators/auth.validator.ts:43-45 | accepted exactly when the address is valid |
| AuthValidator.ResetAccepts | backend/src/validators/auth.validator.ts:50-59 | a reset needs a non-empty token and a password that registration would accept |
| AuthValidator.ProfileUpdateAccepts | backend/src/validators/auth.validator.ts:64-70 | every field may be left out; a present one obeys the registration rule |
| AuthValidator.RegistrationFieldsUpdateProfile | backend/src/validators/auth.validator.ts:15-70 | a valid registration's profile fields always make a valid update |
| ValidateMiddleware.PathKey | backend/src/middleware/validate.middleware.ts:23 | the path's steps joined by "." |
| ValidateMiddleware.PathKeyAppend | backend/src/middleware/validate.middleware.ts:23 | a longer path's key is its parts' keys joined with a dot |
| ValidateMiddleware.CollectErrors | backend/src/middleware/validate.middleware.ts:21-25 | the map has a key for exactly the paths that occur, each holding the message of the last issue with that path |
| ValidateMiddleware.Exchange.constructor | backend/src/middleware/validate.middleware.ts:9 | a request with its body, nothing sent, `next` not yet called |
| ValidateMiddleware.Exchange.Validate | backend/src/middleware/validate.middleware.ts:8-35 | on success the parsed body replaces the body and `next` runs once. On failure `next` is not called and the reply is 400 "Validation failed", with the issue map or the error message |
| AuthMiddleware.BearerToken | backend/src/middleware/auth.middleware.ts:17-22 | a token exactly for a header starting with "Bearer ", and it is the rest after those seven characters |
| AuthMiddleware.BearerTokenRoundTrip | backend/src/middleware/auth.middleware.ts:22 | whatever token follows the prefix is the one extracted |
| AuthMiddleware.SchemeIsCaseSensitive | backend/src/middleware/auth.middleware.ts:17 | a lower-case "bearer" header carries no token |
| AuthMiddleware.Decide | backend/src/middleware/auth.middleware.ts:8-38 | no bearer token gives 401 "No token provided". A verified token admits its user. A failed verification gives 401 with its message, or "Authentication failed" |
| AuthMiddleware.OptionalUser | backend/src/middleware/auth.middleware.ts:43-66 | a user only when a bearer token verifies, and it is the token's user |
| AuthMiddleware.OptionalAuthAgrees | backend/src/middleware/auth.middleware.ts:43-66 | `optionalAuth` attaches a user exactly when `authenticate` would admit, and the same user |
| AuthMiddleware.Exchange.constructor | backend/src/middleware/auth.middleware.ts:8 | a request with no user, no reply, `next` not called |
| AuthMiddleware.Exchange.Authenticate | backend/src/middleware/auth.middleware.ts:8-38 | an admitted request gets its user and continues once; a refused one gets the 401 and does not continue |
| AuthMiddleware.Exchange.OptionalAuth | backend/src/middleware/auth.middleware.ts:43-66 | always continues exactly once, never replies, and attaches a user only when a bearer token verifies |
| Cors.PolicyFor | backend/src/config/index.ts:22-72 | production and development get their checking callbacks; any other environment gets the wildcard |
| Cors.ProductionVerdict | backend/src/config/index.ts:27-49 | no origin, a `.vercel.app` origin or the set FRONTEND_URL is allowed; anything else is refused with an error |
| Cors.DevelopmentVerdict | backend/src/config/index.ts:54-67 | allowed exactly for no origin, one of the four local origins, or a `.vercel.app` origin; otherwise refused without an error |
| Cors.Check | backend/src/config/index.ts:22-72 | the wildcard allows every origin; the callbacks give their verdicts |
| Cors.DevOriginsAreLocal | backend/src/config/index.ts:55-62 | no local front end is a Vercel deployment |
| Cors.ProductionRefusesLocalhost | backend/src/config/index.ts:27-49 | production refuses the local front ends unless one is FRONTEND_URL |
| Cors.DevelopmentIsLaxer | backend/src/config/index.ts:27-67 | whatever production allows, development allows too, except an origin allowed only as FRONTEND_URL |
| Cors.NoOriginAndVercelAlwaysAllowed | backend/src/config/index.ts:29-62 | in either checking mode, no origin and a Vercel deployment are allowed |
| Analytics.Inject | backend/src/middleware/analytics.middleware.ts:113-135 | only an HTML string body changes. The script goes right before the first `</body>`, or at the end when there is none |
| Analytics.InsertBeforeClose | backend/src/middleware/analytics.middleware.ts:126-127 | replacing the first `</body>` with script + `</body>` splices the script in at that position |
| Analytics.InjectionIsRemovable | backend/src/middleware/analytics.middleware.ts:126-127 | removing the script gives back the page, and `</body>` follows it |
| Analytics.InjectionOnlyAdds | backend/src/middleware/analytics.middleware.ts:113-135 | the result is the page unchanged or with the script spliced in at one position |
| Analytics.DefaultCacheControl | backend/src/middleware/analytics.middleware.ts:49-53 | GET gets "public, max-age=3600", every other method "no-cache, no-store, must-revalidate" |
| Analytics.TrackedHeaders | backend/src/middleware/analytics.middleware.ts:36-63 | the three tracking headers are set; Cache-Control only when absent; every other header is kept |
| Analytics.CacheControlSetOnce | backend/src/middleware/analytics.middleware.ts:47-85 | once set, Cache-Control is kept by every later wrapped call |
| Analytics.Response.constructor | backend/src/middleware/analytics.middleware.ts:21-25 | a response with its headers and nothing sent |
| Analytics.Response.SendTracked | backend/src/middleware/analytics.middleware.ts:36-94 | the headers become `TrackedHeaders` of the old ones, and the body is passed to the original send |
| Analytics.Response.SendWithScript | backend/src/middleware/analytics.middleware.ts:113-135 | headers are unchanged, and the original send gets `Inject` of the body |
| App.RenderPage | src/App.tsx:105-170 | "admin-dashboard" shows the panel only to a signed-in administrator, the login otherwise; unknown pages show home |
| App.ChromeHiddenExactlyForAdmin | src/App.tsx:173 | navigation and footer are hidden exactly when an administrator screen is shown |
| App.AppState.constructor | src/App.tsx:22-29 | the initial page, theme and sign-in state over the stored values |
| App.AppState.Mount | src/App.tsx:31-48 | a saved dark theme, or none saved with a dark system preference, turns dark on; a saved visitor is signed back in |
| App.AppState.ToggleDark | src/App.tsx:50-59 | flips the theme and stores the new one |
| App.AppState.Navigate | src/App.tsx:61-64 | sets the page and nothing else |
| App.AppState.AdminSignIn | src/App.tsx:66-71 | sets administrator sign-in, role and email, and opens the panel |
| App.AppState.AdminSignOut | src/App.tsx:73-78 | clears all three and goes home |
| App.AppState.AdminCancel | src/App.tsx:80-82 | goes home |
| App.AppState.UserSignIn | src/App.tsx:84-96 | signs in and stores the visitor; returns to booking (clearing the redirect) when that was asked, else opens the dashboard |
| App.AppState.UserSignOut | src/App.tsx:98-103 | clears the visitor and the stored copy, and goes home |
| App.AppState.RequestAuth | src/App.tsx:115-118 | remembers to return to booking and opens the sign-in page |
| AdminPanel.PermissionsFor | src/components/admin-panel.tsx:45-77 | a known role's permissions; any other role gets the scanner operator's |
| AdminPanel.OnlySuperAdminEdits | src/components/admin-panel.tsx:45-74 | edit is granted exactly to "Super Admin" |
| AdminPanel.EveryRoleHasAPanel | src/components/admin-panel.tsx:45-77 | every role can open a panel, so "Access Restricted" is never shown |
| AdminPanel.DefaultTab | src/components/admin-panel.tsx:291 | the scanner if allowed, else participants, else analytics |
| AdminPanel.DefaultTabIsShown | src/components/admin-panel.tsx:291-295 | the tab that opens first is one the role can see |
| AdminPanel.FilterParticipants | src/components/admin-panel.tsx:188-194 | keeps, in order, exactly the participants matching the lower-cased term (in name, email or id) and the pass-type filter |
| AdminPanel.EmptyTermMatches | src/components/admin-panel.tsx:189-191 | the empty term occurs in every string |
| AdminPanel.NoSearchShowsEveryone | src/components/admin-panel.tsx:188-194 | an empty term and "all" show everyone, in order |
| AdminPanel.SearchIgnoresTermCase | src/components/admin-panel.tsx:189-191 | the term's letter case does not matter |
| AdminPanel.PassTypeFilterNarrows | src/components/admin-panel.tsx:192 | a pass-type filter only hides participants compared with "all" |
| AdminPanel.HandleScan | src/components/admin-panel.tsx:197-212 | a check-in exactly when some participant's id equals the code |
| AdminPanel.ScanFindsFirstHolder | src/components/admin-panel.tsx:199-204 | the check-in describes the first participant with that id as "name - pass type" |
| EventSchedule.FilterEvents | src/components/event-schedule.tsx:368-374 | keeps, in order, exactly the events matching both the category and the venue selector ("all" matches everything) |
| EventSchedule.AllSelectorsShowEverything | src/components/event-schedule.tsx:370-372 | both selectors on "all" return the list unchanged |
| EventSchedule.VenueNarrows | src/components/event-schedule.tsx:371 | choosing a venue only hides events |
| EventSchedule.FilterEventsIdempotent | src/components/event-schedule.tsx:368-374 | filtering twice with the same selection changes nothing more |
| EventSchedule.CategoryColor | src/components/event-schedule.tsx:376-379 | never empty; "default" for an id no category has |
| EventSchedule.ColorOfFirstMatch | src/components/event-schedule.tsx:377-378 | the colour is that of the first category carrying the id |
| EventSchedule.UnknownCategoryIsDefault | src/components/event-schedule.tsx:376-379 | an id outside the five categories gets "default" |
| EventsListing.FilteredEvents | src/components/events-listing.tsx:295-305 | an order-preserving subsequence whose every event is in the tab and, for a non-empty query, matches it |
| EventsListing.FilteredEventsIsOneFilter | src/components/events-listing.tsx:295-305 | the result is exactly one filter by tab and query together |
| EventsListing.FilteredEventsComplete | src/components/events-listing.tsx:295-305 | no event passing both tests is left out |
| EventsListing.AllTabNoQueryShowsEverything | src/components/events-listing.tsx:296-297 | the "all" tab with an empty query lists every event |
| EventsListing.CategoryCountWithinAll | src/components/events-listing.tsx:340 | a category tab's count never exceeds the "all" tab's |
| EventsListing.QueryIgnoresCase | src/components/events-listing.tsx:298-302 | the query's letter case does not matter |

## Left out

- **Gateway I/O.** The HTTP exchange of createOrder, getOrder and cancelOrder is an input, `KonfHub.HttpReply`. `getTicket` (backend/src/services/konfhub.service.ts:214-236) only forwards a reply and is not modelled.
- **Other external computations.** Each is an input:
  - the HMAC-SHA256 digest;
  - Clerk's `users.getUser`;
  - svix `Webhook.verify`;
  - jsonwebtoken's `verifyAccessToken`.
- **Fresh values.** `generateUniqueIdentifiers` and the database's row ids are inputs. Only the row ids carry freshness preconditions: the new user, transaction and pass row ids are not already in their tables. Invoice numbers, transaction numbers and pass codes are unconstrained inputs, so the model does not promise that they are unique. The identifier utility is not part of this model.
- **Concurrency.**
  - Each handler, and each `$transaction`, is one atomic step.
  - Interleavings of verify and the webhook are modelled only as sequential orders.
  - A concurrent insert in `/sync` is the input `raced`, and a commit failure is the input `commitOk`.
  - A concurrent clash on the relink `update` of `/sync` (backend/src/routes/user.routes.ts:108-126), which the same unique-violation catch at :143-156 would handle, is not modelled; `raced` exists only on the insert path.
- **Timestamps and metadata.**
  - Timestamps (`new Date().toISOString()`, `Date.now`) are the constant `Time`.
  - The response time is a parameter.
  - Metadata keys other than those the routes write are carried through but never interpreted.
- **Logging.** Logging and the debug console output are left out. So is `trackAnalyticsEvent`, which only logs.
- **Routes not mounted.** The payment routes are modelled even though backend/src/routes/index.ts:17-18 does not mount them.
- **Status set.** The transaction statuses come from the payment routes. The types file lacks `cancelled` and `refund_pending`.
- **`GET /profile/:clerkUserId`** (backend/src/routes/user.routes.ts:257-291) is only `ensureUserExists` plus a field projection. It has no member of its own.
- **Unique constraints.** The database schema (backend/prisma) is not part of this model. Uniqueness of users' account id and email is taken from the `findUnique` lookups. A write that would break it is answered 500 and changes nothing.
- **Strings.**
  - `toLowerCase` folds ASCII letters only.
  - `trim` uses the ECMAScript white-space and line-terminator set over single code units.
  - Lengths count characters, not UTF-16 code units.
- **JavaScript semantics.**
  - Object-prototype keys (such as `"constructor"`) in the `Record` lookups of `getPassTypeId`, `getPassName` and `ROLE_PERMISSIONS` are not modelled.
  - Values other than strings where Zod expects strings are not modelled, and neither are unknown keys.
  - Zod's e-mail syntax is a parameter predicate. Zod's default messages ("Required", the enum message) follow Zod 3.
- **Headers and responses.** Header names are compared in lower case, as Express does. `res.json` calling the wrapped `res.send` is seen only through `CacheControlSetOnce`.
- **Front-end I/O.**
  - The fetch calls, `window.location.reload`, toasts and DOM class changes are left out.
  - The 30-second polling of claims is left out.
  - The JSON round trip of local storage is left out: a stored value reads back as written.
- **Front-end computations.**
  - `getHoursRemaining` (float division and the clock) is left out.
  - The `Math.random` statistics of the administrator panel are left out.
  - JSX rendering is left out.
- **Static data.** The static event catalogues of the schedule and events pages are parameters. The pass-events schedule and the category tables are modelled as constants.
- **Unused values.** `dayLabel` in `formatEventWithDate` is computed but unused, and is not modelled. `AdminPanel.SampleParticipants`, the panel's sample records, is a constant that no lemma uses.
- **The `Bearer` scheme.** The source matches it case-sensitively, although section 2.1 of RFC 6750 does not ask for that. The model follows the source, and `AuthMiddleware.SchemeIsCaseSensitive` records it.
- PaymentRoutes.CreateOrder: prices and amounts are integers. A fractional `price` from the JSON body, which passes the checks at backend/src/routes/payment.routes.ts:91-100 and is stored as the amount, is not modelled.
- PaymentRoutes.OrderFor: the same integer restriction on the price it stores and sends.
- KonfHub.CreateOrder: `amount`, `price` and the quantity × price product are integers. The product of a fractional price is not modelled.
- Store.FirstTx: `findFirst` without `orderBy` (backend/src/routes/payment.routes.ts:231-234, 400-403) has no defined row order in Prisma. The model takes the earliest-created matching row. With unique, present order ids the choice does not arise (`Store.FirstTxUnique`). When several rows share an order id, or the webhook omits `orderId` (the filter is then dropped), the database may return another row. The replay and ordering lemmas hold under the earliest-row choice: `PaymentRoutes.WebhookReplayNoop`, `WebhookTwice`, `VerifyTwice`, `VerifyThenWebhook`, `WebhookThenVerify` and `VerifySucceeded`.
- PaymentRoutes.TransactionDetails: the included `user` (email, full name) and `pass` (pass id, type, status) of the reply (backend/src/routes/payment.routes.ts:506-520) are not modelled; the reply carries the row only.
- AdminPanel.EveryRoleHasAPanel: "every role" covers strings that are not Object-prototype keys of `ROLE_PERMISSIONS`.
- ClerkWebhook.DeleteLinked: rows in passes and transactions that reference a deleted user are left in place. The schema's `onDelete` behaviour is not modelled: neither a cascade nor a foreign-key failure answered 500 by the catch at backend/src/routes/webhook.routes.ts:107-110. The handler is modelled over the user table only.
- ClerkWebhook.Handle: for the same reason, `user.deleted` always succeeds. The model can then reach states where a pass or transaction names a user that no longer exists, such as a later `PaymentRoutes.PassCreated` for that user's pending order. A database with foreign keys cannot reach those states.
- PaymentRoutes.WebhookTicketIssued: the ticket id is `Option<string>`, so an explicit JSON `null` in the webhook body (which Prisma writes as a cleared column) is not distinguished from an absent field (`undefined`, which keeps the column).
