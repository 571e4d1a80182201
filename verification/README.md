# Luminett order and quote back office: a Dafny model

This project models the core logic of Luminett, a cleaning company's booking and
back-office web application. Its parts are:

- the JSON order store (`backend/db.js`);
- the HTTP routes of `backend/server.js` that carry logic:
  - the login rate limiter;
  - the administrator and client token guards;
  - administrator login, client login and registration;
  - order submission, status change, deletion, listing and statistics;
  - quote creation with server-side totals, and the client's electronic signature;
- the front-end rules around them:
  - the administrator dashboard's status actions, relative times, filter, live-event reducers and notification badge;
  - the three-step booking wizard;
  - the client page's search guard and progress bar.

Each operation is a pure function. It takes the old state, and returns the new state together with what
the JavaScript call returns: the HTTP reply and the broadcast live event.
Several things become parameters:

- the clock;
- the token verifier;
- the password comparison;
- the client and quote store lookups.

Routes that would create or update a client or a quote return the record or update
they hand to the store, without presuming how the store applies it.

Modules, one per file:

| module | file | models |
|---|---|---|
| `Common` | common.dfy | `Option`, `Result`, HTTP error kinds |
| `Text` | text.dfy | the JavaScript string operations used (`toLowerCase` on ASCII, `trim`, `includes`, `replace`) |
| `Seqs` | seqs.dfy | `filter`, counting, subsequences |
| `OrderStatus` | status.dfy | the five statuses the server accepts |
| `OrderStore` | store.dfy | `backend/db.js` |
| `LiveEvents` | events.dfy | the socket event payloads |
| `RateLimit` | rate_limit.dfy | `checkRateLimit`, `recordFail`, `clearAttempts` |
| `Auth` | auth.dfy | `adminAuth`, `clientAuth` |
| `Accounts` | accounts.dfy | the login and registration routes |
| `OrdersApi` | orders_api.dfy | the order routes |
| `QuotesApi` | quotes_api.dfy | quote creation and signature |
| `Dashboard` | dashboard.dfy | `AdminPage.tsx` |
| `OrderWizard` | wizard.dfy | `OrderPage.tsx` and the catalogue in `types.ts` |
| `ClientSpace` | client_space.dfy | `ClientSpacePage.tsx` |
| `Sync` | sync.dfy | properties linking pages and server |

## Model

| member | source | states |
|---|---|---|
| OrderStore.Load | backend/db.js:10-17 | a missing or unreadable file gives no orders and next id 1; otherwise the file's contents |
| OrderStore.EmptyIsValid | backend/db.js:16 | the fallback state satisfies the store invariant (ids in [1, nextId), strictly decreasing along the list) |
| OrderStore.FindIndex | backend/db.js:59 | the first position holding the id, or none exactly when no order has it |
| OrderStore.Insert | backend/db.js:30-40 | the new order takes the counter as id and status `pending`, goes to the front, and the counter moves on by one |
| OrderStore.InsertKeepsValid | backend/db.js:30-40 | an insert keeps the invariant, and the new id exceeds every stored id (ids are never reused) |
| OrderStore.InsertListsNewestFirst | backend/db.js:30-44 | after an insert the list starts with the new order, and every later order is older |
| OrderStore.ValidIdsDistinct | backend/db.js:32 | under the invariant no two orders share an id |
| OrderStore.GetAll | backend/db.js:42-44 | every stored order, in stored order; on a valid store ids strictly decrease along it (newest first) |
| OrderStore.GetById | backend/db.js:46-48 | none exactly when no order has the id, otherwise the first stored order with that id |
| OrderStore.UpdateStatus | backend/db.js:50-56 | an absent id gives null and no change; otherwise the first order with that id gets the status and nothing else changes |
| OrderStore.UpdatedIsFound | backend/db.js:46-56 | after a status update, looking the id up finds exactly the order the update returned |
| OrderStore.UpdateKeepsValid | backend/db.js:50-56 | a status update keeps the invariant |
| OrderStore.Delete | backend/db.js:58-64 | an absent id gives false and no change; otherwise the first order with that id is removed and the rest keep their order |
| OrderStore.DeleteKeepsValid | backend/db.js:58-64 | a delete keeps the invariant and never moves the counter back |
| OrderStore.DeleteRemovesId | backend/db.js:58-64 | on a valid store, no order with the id is left after a delete |
| OrderStore.GetStats | backend/db.js:66-74 | total is the list length; pending, completed and today are the counts of matching orders; pending + completed <= total; today <= total |
| OrderStatus.Parse | backend/server.js:289-290 | a status string is accepted exactly when it is one of the five listed values |
| OrderStatus.ParseName | backend/server.js:289 | every status round-trips through its wire spelling |
| OrderStatus.NameInjective | backend/server.js:289 | distinct statuses have distinct spellings |
| RateLimit.Check | backend/server.js:41-49 | refuses exactly while the deadline is in the future, and the reported wait is the remaining time rounded up to whole minutes |
| RateLimit.RecordFail | backend/server.js:51-56 | one more failure for that address only; the fifth sets a 15-minute lock-out and resets the counter |
| RateLimit.Clear | backend/server.js:58 | the address is forgotten and other addresses are untouched |
| RateLimit.ClearedIsAllowed | backend/server.js:41-58 | a cleared address has a fresh record and is let through |
| RateLimit.RecordFailKeepsCountsBelowMax | backend/server.js:51-56 | counters never reach the threshold: reaching it resets them |
| RateLimit.FailuresAccumulate | backend/server.js:51-56 | below the threshold, n failures add n to the counter and keep the deadline |
| RateLimit.FiveFailuresLockOut | backend/server.js:51-56 | five failures from a clean counter lock the address out for 15 minutes from the fifth |
| RateLimit.FreshLockoutWait | backend/server.js:41-56 | during a fresh lock-out the wait is 1 to 15 minutes; after it the address is let through |
| Auth.BearerToken | backend/server.js:62 | only the first `Bearer ` is cut: a header starting with it yields the rest, one without it is taken whole as the token |
| Auth.BearerTokenOfScheme | backend/server.js:62 | a `Bearer <token>` header yields exactly the token |
| Auth.AdminGate | backend/server.js:61-69 | 401 for no token or an unverifiable one, 403 for another kind, through exactly for an administrator token |
| Auth.ClientGate | backend/server.js:71-82 | the same for client tokens, passing on the account named in the token |
| Auth.AdminTokenKinds | backend/server.js:61-82 | an administrator token opens administrator routes and gets 403 on client routes |
| Auth.ClientTokenKinds | backend/server.js:61-82 | a client token opens client routes with its identity and gets 403 on administrator routes |
| Accounts.ConfigFromEnv | backend/server.js:202-203 | an unset or empty variable falls back to the default credentials, a set one is used as it is |
| Accounts.DefaultCredentialsLogIn | backend/server.js:202-211 | without configuration, the default credentials log in, with the e-mail in any letter case |
| Accounts.AdminLogin | backend/server.js:196-212 | 429 with the record unchanged while locked out; wrong credentials (e-mail case-insensitive, password exact) are 401 and one more failure; right ones clear the address and issue an administrator token |
| Accounts.ClientLoginStart | backend/server.js:229-238 | the part before `await bcrypt.compare`: 429 while locked out, 400 without counting for missing fields, 401 with one more failure for an unknown e-mail; a known e-mail goes on to the comparison with the limiter untouched |
| Accounts.ClientLoginFinish | backend/server.js:240-245 | the part after the await, on the limiter as it is then: a wrong password is 401 and one more failure, a right one clears the address and issues a client token |
| Accounts.ClientLogin | backend/server.js:229-246 | run with nothing in between: 429 while locked out; 400 without counting for missing fields; 401 with one more failure for an unknown e-mail or a wrong password; success exactly otherwise, clearing the address |
| Accounts.ConcurrentGuessesAllCompared | backend/server.js:229-243 | wrong passwords sent together from a fresh address all pass the limiter and are all compared, however many; after six recorded failures the address is locked with one failure already counted |
| Accounts.Register | backend/server.js:215-227 | 400 for missing fields, 400 for a password under 6 characters, 409 for a known e-mail, in that order; an account is created exactly otherwise |
| Accounts.ConcurrentRegistrationsBothCreate | backend/server.js:215-224 | two registrations of a new e-mail that both look it up before either creates its account both succeed; a lookup after the first creation would get 409 |
| Accounts.AdminLoginSuccessResets | backend/server.js:209-210 | after a successful administrator login the address has no failures and is let through |
| Accounts.ClientLoginSuccessResets | backend/server.js:243-245 | the same for a client login |
| Accounts.WrongAttemptsCount | backend/server.js:196-208 | up to four wrong administrator logins are each let through and counted |
| Accounts.FiveWrongLoginsLockOut | backend/server.js:196-208 | after five wrong logins, a sixth within 15 minutes is refused with 429 even with the right credentials, and changes nothing |
| OrdersApi.OrNull | backend/server.js:281 | an empty optional field becomes null, any other is kept |
| OrdersApi.SubmitOrder | backend/server.js:276-285 | 400 and nothing stored when a required field is empty; otherwise one insert, the new pending order as reply, and a `new_order` broadcast of it |
| OrdersApi.PatchStatus | backend/server.js:287-295 | 400 for a status outside the five, 404 for an absent id; otherwise the reply is the stored order with the new status and nothing else changed, the store holds it under its id, and `order_updated` broadcasts it |
| OrdersApi.DeleteOrder | backend/server.js:297-301 | always success and an `order_deleted` broadcast; an absent id leaves the store unchanged |
| OrdersApi.PatchStatusRoute | backend/server.js:287 | without an administrator token the store is untouched and nothing is broadcast |
| OrdersApi.DeleteOrderRoute | backend/server.js:297 | the same for deletion |
| OrdersApi.ListOrdersRoute | backend/server.js:274 | the list, newest first, exactly for administrator tokens |
| OrdersApi.StatsRoute | backend/server.js:272 | the store's counters, exactly for administrator tokens |
| OrdersApi.RoutesKeepValid | backend/server.js:276-301 | every order route keeps the store invariant |
| OrdersApi.SubmissionBumpsStats | backend/server.js:276-285 | a valid submission adds one to total and pending, none to completed, and one to today when created on the counted day |
| QuotesApi.SumFromIsLineTotal | backend/server.js:311 | the reduce computes the sum of quantity x unit price over the lines |
| QuotesApi.LineTotalNonNegative | backend/server.js:311 | lines with non-negative quantity and price sum to a non-negative amount |
| QuotesApi.CreateQuote | backend/server.js:306-315 | 400 exactly when kind, e-mail, name or lines are missing; otherwise kind, client e-mail, name, phone, notes and lines pass through, subtotal is the line sum, tax = subtotal x rate / 100 with rate defaulting to 0, total = subtotal + tax, and the validity date and order id pass through except that empty and zero become null |
| QuotesApi.CreateQuoteRoute | backend/server.js:306-320 | without an administrator token nothing is created or broadcast; otherwise the creation reply, with `new_quote` broadcast exactly when a quote is created |
| QuotesApi.TotalAtLeastSubtotal | backend/server.js:311-313 | with non-negative lines and rate, 0 <= subtotal <= total |
| QuotesApi.Sign | backend/server.js:257-269 | 404 for no quote, 403 for another e-mail (case-insensitive), 400 when already `signed`; otherwise the quote is marked signed at the current time |
| QuotesApi.SignRoute | backend/server.js:257-265 | the guard's refusal, or the signature checked against the e-mail in the client token |
| QuotesApi.SecondSignatureRefused | backend/server.js:262-265 | once stored as signed, signing again is refused with 400 |
| QuotesApi.OnlySignedBlocks | backend/server.js:262 | the owner can sign a quote in any status other than `signed`, including `paid` |
| QuotesApi.OwnershipIgnoresCase | backend/server.js:260-261 | the case of the requester's e-mail does not change the outcome |
| Dashboard.NextStatus | frontend/src/pages/AdminPage.tsx:65-81 | at most two actions, none keeping the status, each targeting one of the five statuses; cancelling is offered exactly for pending and confirmed orders |
| Dashboard.NextStatusShape | frontend/src/pages/AdminPage.tsx:65-82 | no action keeps the status, completed and unknown statuses offer nothing, the others offer something, only cancelled leads back to pending, only in_progress leads to completed |
| Dashboard.CompletedIsTerminal | frontend/src/pages/AdminPage.tsx:77 | no chain of action clicks leaves `completed` |
| Dashboard.HappyPathIsUiPath | frontend/src/pages/AdminPage.tsx:65-76 | pending, confirmed, in progress, completed is a chain of action clicks |
| Dashboard.TimeAgo | frontend/src/pages/AdminPage.tsx:46-54 | under a minute or negative is "just now"; minutes, hours and days are the elapsed time rounded down to the unit, each within its band |
| Dashboard.Filtered | frontend/src/pages/AdminPage.tsx:349-356 | the listed orders keep the list order, are exactly those passing the status tab and the case-insensitive search over five fields, each as many times as in the list, and are the whole list for tab `all` with no search |
| Dashboard.OnNewOrder | frontend/src/pages/AdminPage.tsx:305-309 | the order goes in front; total, pending and today go up by one; the badge counts one more |
| Dashboard.OnOrderUpdated | frontend/src/pages/AdminPage.tsx:316-317 | every listed order with the same id is replaced in place; nothing else changes |
| Dashboard.OnOrderDeleted | frontend/src/pages/AdminPage.tsx:321-322 | exactly the orders with that id disappear, every other order keeps its multiplicity and the rest keep their order |
| Dashboard.Apply | frontend/src/pages/AdminPage.tsx:305-324 | only `new_order` changes the counters and the badge and lengthens the list; an update only brings in the updated order; `new_quote` has no listener and changes nothing |
| Dashboard.Badge | frontend/src/pages/AdminPage.tsx:384-387 | hidden at 0, the count from 1 to 9, `9+` above |
| ClientSpace.SearchEmail | frontend/src/pages/ClientSpacePage.tsx:20-30 | no request exactly when the field is all white space; otherwise the trimmed e-mail, a slice of the input with no white space at either end |
| Text.TrimCutsOnlySpace | frontend/src/pages/ClientSpacePage.tsx:22 | `trim` cuts away only white space, on either side of a slice of the input |
| ClientSpace.PositionOf | frontend/src/pages/ClientSpacePage.tsx:174 | -1 exactly when absent, otherwise the first position |
| ClientSpace.IsDone | frontend/src/pages/ClientSpacePage.tsx:173-175 | segment i is filled exactly when the order's status is step i or a later step of the bar |
| ClientSpace.DoneSteps | frontend/src/pages/ClientSpacePage.tsx:172-175 | four segments, segment i filled exactly when the status is step i or later |
| ClientSpace.DoneUpToOwnStep | frontend/src/pages/ClientSpacePage.tsx:172-175 | an order at step k of the bar has exactly segments 0 to k filled |
| ClientSpace.OffBarShowsNothing | frontend/src/pages/ClientSpacePage.tsx:174-175 | a cancelled order, or one with a status off the bar, fills no segment |
| OrderWizard.ServiceIdInjective | frontend/src/types.ts:32-73 | the catalogue ids are pairwise distinct |
| OrderWizard.FindService | frontend/src/pages/OrderPage.tsx:70-72 | finds a service exactly when one has the id, and the one found has it |
| OrderWizard.FindServiceId | frontend/src/types.ts:32-73 | looking a service up by its id finds it |
| OrderWizard.Initial | frontend/src/pages/OrderPage.tsx:63-82 | step 1, nothing chosen except the service named by the query parameter when it names one |
| OrderWizard.Back | frontend/src/pages/OrderPage.tsx:357 | one step back, or off the page from step 1 |
| OrderWizard.CanGoNext | frontend/src/pages/OrderPage.tsx:284-292 | only steps 1 to 3 go on; on step 3, with a service, date and slot chosen, exactly when the body would carry every field the server requires |
| OrderWizard.Step | frontend/src/pages/OrderPage.tsx:284-295 | the step moves by at most one, forward only when allowed and always when allowed, back from steps 2 and 3; each choice changes only on its own step and is set there; a slot is always one of the offered ones |
| OrderWizard.StepKeepsConsistent | frontend/src/pages/OrderPage.tsx:284-295 | one interaction keeps the step in 1..3, a service chosen from step 2 on, and a date and slot chosen on step 3 |
| OrderWizard.RunKeepsConsistent | frontend/src/pages/OrderPage.tsx:284-295 | any sequence of interactions keeps that consistency |
| OrderWizard.CanSubmit | frontend/src/pages/OrderPage.tsx:364-376 | enabled only on step 3 with no request in flight; in a consistent state, the body then carries every required field |
| OrderWizard.Payload | frontend/src/pages/OrderPage.tsx:301-309 | the request body carries the service id, date, slot and every form field |
| OrderWizard.SubmittedPayloadComplete | frontend/src/pages/OrderPage.tsx:364-376 | whenever the final button is enabled, the body has every field the server requires |
| Sync.UiTargetsAccepted | frontend/src/pages/AdminPage.tsx:65-82 | every action button targets a status the server accepts |
| Sync.UiActionSucceeds | backend/server.js:287-295 | past the administrator guard, every target offered for a stored order is accepted and stored |
| Sync.UiActionThroughGuard | backend/server.js:287-295 | with an administrator token, every offered target is accepted and stored under the order's id; without one, the request is refused and the store is unchanged |
| Sync.ServerAllowsReopeningCompleted | backend/server.js:287-295 | the server checks values, not transitions: a completed order, which the dashboard offers no action for, can still be set back to pending |
| Sync.ForwardActionAdvancesProgress | frontend/src/pages/ClientSpacePage.tsx:172-175 | a non-cancelling action moves the progress bar exactly one segment on |
| Sync.ProgressAlongPath | frontend/src/pages/AdminPage.tsx:65-82 | along a chain of non-cancelling clicks the bar advances one segment per click |
| Sync.NoCycleWithoutCancelling | frontend/src/pages/AdminPage.tsx:65-82 | without cancelling, an order passes through at most four statuses |
| Sync.NewOrderMirrorsStore | frontend/src/pages/AdminPage.tsx:305-306 | after a submission the dashboard's list equals the store's, if it did before |
| Sync.NewOrderMirrorsStats | frontend/src/pages/AdminPage.tsx:307 | the dashboard counters equal the store's statistics after a submission made on the counted day |
| Sync.UpdateMirrorsStore | frontend/src/pages/AdminPage.tsx:316-317 | after a status change the dashboard's list equals the store's |
| Sync.DeleteMirrorsStore | frontend/src/pages/AdminPage.tsx:321-322 | after a delete request the dashboard's list equals the store's |
| Sync.NewQuoteLeavesDashboard | backend/server.js:317 | a created quote is broadcast, and the dashboard's list, counters and badge stay as they were |
| Sync.WizardSubmissionAccepted | backend/server.js:276-285 | a request the wizard lets through always passes the order route's validation |

## Left out

- File persistence (`save`, reading `database.json`) is I/O. `load` is reduced to "a store was read, or nothing usable was".
- The e-mails sent after orders, quotes and signatures are I/O.
- The Socket.IO transport is left out. Only the event payloads and the reducers applied to them are modelled.
- JWT signing, verification and expiry are a parameter. So is the bcrypt hash and comparison.
- The client and quote store functions that `backend/server.js` calls (`findClientByEmail`, `createClient`, `createQuote`, `getQuoteById`, `updateQuoteStatus`) are not defined in `backend/db.js`. Lookups are parameters, and creations and updates are returned as records.
- The routes with no logic beyond a store call are left out: listing and deleting quotes, the quote status change, and the client's own order and quote lists.
- Quote reference numbers are generated by the quote store, which is not part of this model.
- `parseInt` on route ids is not modelled: ids are integers, and `NaN` ids are not represented.
- `Number(...)` on quote fields is not modelled. Quantities, prices and the tax rate are exact reals, not IEEE doubles, and a non-numeric quantity (`NaN`) is not represented.
- Text.ToLower: maps only ASCII capitals, whereas `toLowerCase` maps all of Unicode.
- String lengths count code points, not the UTF-16 units JavaScript counts. This matters only for the 6-character password minimum.
- Accounts.AdminLogin: one `now` serves both the lock-out check and the failure record, where the source reads the clock twice.
- Accounts.ClientLogin: describes a request with no other request for the address in between. In the source the lock-out check and the failure record are separated by `await bcrypt.compare`, so concurrent wrong guesses all pass the check before any failure is counted. The two halves are Accounts.ClientLoginStart and Accounts.ClientLoginFinish, and Accounts.ConcurrentGuessesAllCompared shows the burst. The same single `now` simplification as Accounts.AdminLogin applies.
- Accounts.Register: describes a registration with no other registration in between. In the source the 409 lookup and `createClient` are separated by `await bcrypt.hash`, so two concurrent registrations of one e-mail can both create an account (Accounts.ConcurrentRegistrationsBothCreate). The client store, which would hold both accounts, is not part of this model.
- OrderStore.GetStats: `today` is the date text the server would compute (`toLocaleDateString('fr-FR')`). It is an input, and locale and time-zone formatting are not modelled.
- Insert's creation time is likewise an input.
- Dashboard.TimeAgo: takes the elapsed milliseconds. Parsing `created_at` with `new Date(...)` depends on the engine for the `fr-FR` text the store writes, and is not modelled.
- Dashboard.NextStatus: an unknown status offers no action. In the source, a status that names an `Object.prototype` member would look up that member instead.
- Dashboard.Apply: the refetch that the `order_updated` and `order_deleted` listeners start is I/O and is left out.
- Other dashboard side effects are left out: sounds, browser notifications, toasts and the highlight timer.
- Clicking the bell resets the badge and refetches. That is I/O plus a constant assignment, and is not modelled.
- The dashboard's own login screen posts only a password, and its requests carry no `Authorization` header. It belongs to an earlier generation of the front end than `backend/server.js`, so the model follows the server.
- The `/api/orders/by-email` endpoint that `ClientSpacePage.tsx` calls is not defined in `backend/server.js`. The page is also not routed in `App.tsx`. Only its input guard and progress bar are modelled.
- OrderWizard.Step: leaving the page (the back button on step 1) is navigation and is outside the model, so the state is left as it is.
- The request error display and the `loading` flag's own transitions are I/O around `handleSubmit`. `loading` is an input of `CanSubmit`.
- Exceptions thrown by route code are not represented; no modelled route throws. Express catches a synchronous throw in a handler and answers 500, and a rejection from an `async` handler is caught by nothing, so no reply is sent.
- Request-body fields are modelled as strings, with absent as `""` (and quote lines as well-formed records). JSON values of other types are not represented, nor what they do: a non-string e-mail makes the administrator login throw after the lock-out check and before any failure is recorded (`backend/server.js:205`); a numeric password skips the length check, since its `length` is undefined (`backend/server.js:218`); a `null` quote line makes the total computation throw (`backend/server.js:311`).
- The date input's `min` attribute (tomorrow) is a browser constraint on the picker and not a check, so the model lets any date text through.
