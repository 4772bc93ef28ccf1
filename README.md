# LensCraft quota, identity and caption orchestration — a Dafny model

LensCraft is a browser app that captions an uploaded image with a remote model. Free use is
capped at five captions per calendar day; signing in upgrades the session to the unlimited PAID
plan. This project models the part of the app that holds state and makes decisions:

- `QuotaService` (`quota_service.dfy`): the stored plan and the daily counter
  `{count, lastResetDate}` in browser storage, with staleness reconciliation and the cap of 5.
- `AuthService` (`auth_service.dfy`): the mock identity service — email and password checks,
  the display name taken from the email's local part, the persisted user record.
- `GeminiService` (`gemini_service.dfy`): one caption request — API-key check, removal of the
  `data:image/<word>;base64,` header, one primary call, then at most one fallback call.
- `AppController` (`app.dfy`): the controller's state and handlers as a class `App`, whose
  invariant is "PAID only with a signed-in user, and the plan shown is the plan stored".
- `Types` (`types.dfy`) and `KeyValueStore` (`store.dfy`): the records of `types.ts`, and the
  browser storage as a `Store` object holding a `map<string, Entry>` that every service updates
  in place.

The storage keys are `lenscraft_quota`, `lenscraft_plan` and `lenscraft_user`. Pure reads
(`getStoredPlan`, `getCurrentUser`) are functions of the store's contents. Operations that write
are methods on the shared `Store`, each proved equal to a specification function of the old
contents (`Status`, `Checked`, `Incremented`). Lemmas then state what the source promises about
those functions. The current date, the `Date.now()` stamps, the file reader's result and the
remote model are parameters. The remote model is a total function from a request to a reply
(some text, possibly empty, or a thrown error). Each model is asked at most once, so this loses
nothing.

## Model

| member | source | states |
|---|---|---|
| `QuotaService.StoredPlan` | services/quotaService.ts:12-15 | with no plan stored the plan is FREE; otherwise it is the stored plan |
| `QuotaService.SetStoredPlan` | services/quotaService.ts:17-19 | overwrites only the plan key, and reading the plan afterwards gives the plan written |
| `QuotaService.PlanRoundTrip` | services/quotaService.ts:12-19 | setStoredPlan(p) then getStoredPlan() returns p, for FREE and PAID |
| `QuotaService.Reconciled` | services/quotaService.ts:27-46 | the record in force is always dated today; a stored record dated today is that record; a reset is reported exactly when a stored record from another day exists; a non-zero count can only come from today's stored record |
| `QuotaService.Status` | services/quotaService.ts:21-52 | PAID gives allowed, unbounded remaining, no reset; FREE gives remaining in 0..5, allowed exactly when remaining > 0, and the reconciliation's reset flag |
| `QuotaService.Checked` | services/quotaService.ts:21-46 | PAID leaves the store untouched; on FREE the stored quota becomes the reconciled record; no other key changes and the plan is kept |
| `QuotaService.CheckQuota` | services/quotaService.ts:21-52 | the imperative check reports Status of the old store and leaves the store as Checked of it |
| `QuotaService.CurrentQuotaKept` | services/quotaService.ts:40-49 | on FREE, a stored record dated today with count c is the one in force: allowed == (c < 5), remaining == max(0, 5 - c), no reset, and the store is not written |
| `QuotaService.StaleQuotaStartsOver` | services/quotaService.ts:35-39 | a record from another day (say count 5 yesterday) gives allowed, remaining 5, reset, and {0, today} is persisted |
| `QuotaService.AbsentQuotaInitialised` | services/quotaService.ts:43-46 | with no record, {0, today} is persisted and reported with remaining 5 and no reset |
| `QuotaService.BlockedCheckWritesNothing` | services/quotaService.ts:33-49 | when the check refuses, today's record was already current and the store is unchanged |
| `QuotaService.CheckIdempotent` | services/quotaService.ts:21-52 | a second check writes nothing and reports the same, with no reset |
| `QuotaService.Incremented` | services/quotaService.ts:54-71 | PAID leaves the store untouched; on FREE the stored quota becomes {today's count, or 0 if stale or absent, plus 1, today}; nothing else changes |
| `QuotaService.IncrementQuota` | services/quotaService.ts:54-71 | the imperative increment (plan check, checkQuota, re-read, reconcile, +1, write) leaves the store as Incremented of the old one |
| `QuotaService.IncrementAfterCheck` | services/quotaService.ts:58-68 | checkQuota's reconciliation and incrementQuota's own agree: checking first changes nothing about the increment |
| `QuotaService.DayChangeDuringRequest` | services/quotaService.ts:58-71 | when the date changes between the gate's check and the increment, the increment starts the new day over: a count of 4 on one day becomes 1 on the next, not 5 |
| `QuotaService.CheckAfterIncrement` | services/quotaService.ts:58-71 | after an increment the record is current, so the following check writes nothing |
| `QuotaService.PaidIncrementsChangeNothing` | services/quotaService.ts:55-56 | on PAID, any number of increments leave the store as it was |
| `QuotaService.SameDayIncrements` | services/quotaService.ts:58-71 | k same-day increments on FREE add exactly k to today's count, with no cap check, and keep the plan FREE |
| `QuotaService.FreshDayIncrements` | services/quotaService.ts:48-71 | from a day with no current record, after k increments remaining is max(0, 5 - k) and allowed == (k < 5) |
| `AuthService.StoredUser` | services/authService.ts:5-8 | with the user key absent there is no user; otherwise it is the stored user |
| `AuthService.LocalPart` | services/authService.ts:21 | the name is a prefix of the email without '@', followed by the first '@' when there is one, and is the whole email when there is none |
| `AuthService.LocalPartOfAddress` | services/authService.ts:21 | the name of a + "@" + domain is a when a has no '@' ("a@b.com" gives "a") |
| `AuthService.Login` | services/authService.ts:10-28 | succeeds exactly when the email has an '@', whatever the password; on failure nothing is written; on success the user (id from the stamp, name the local part, the given email) is persisted and read back by getCurrentUser |
| `AuthService.Signup` | services/authService.ts:30-46 | an email without '@' fails first, then a password under 6 characters; failures write nothing; success persists and returns the user with the given name and email |
| `AuthService.LoginWithGoogle` | services/authService.ts:48-61 | always succeeds and persists the user "Google User" / "user@gmail.com" |
| `AuthService.Logout` | services/authService.ts:63-64 | removes the user key and nothing else; no user is read afterwards |
| `AuthService.LogoutIdempotent` | services/authService.ts:63-64 | logging out twice leaves the store as logging out once |
| `GeminiService.WordRun` | services/geminiService.ts:16 | the longest run of word characters at the start: all in it match \w and the next character does not |
| `GeminiService.HeaderLength` | services/geminiService.ts:16 | a non-zero length covers exactly "data:image/" + a non-empty word + ";base64," |
| `GeminiService.StripDataImagePrefix` | services/geminiService.ts:16 | the payload is a suffix of the input; when it differs, the input is a data-image header followed by the payload, so input without a header is sent unchanged |
| `GeminiService.StripsHeader` | services/geminiService.ts:16 | whatever follows a header "data:image/" + w + ";base64," is exactly what is sent |
| `GeminiService.Orchestrate` | services/geminiService.ts:9-71 | the missing-key error occurs exactly when there is no API key, and then no call is made; otherwise the first call is the primary with the stripped payload; non-empty primary text gives that text with the primary model; the fallback is called once, with the same MIME type, data and prompt, exactly when the primary gives no usable text; non-empty fallback text gives that text with the fallback model; at most two calls; "temporarily unavailable" exactly when the fallback throws, "Unable to generate caption" exactly when it answers with empty text |
| `GeminiService.GenerateCaption` | services/geminiService.ts:9-71 | the imperative request with early returns produces the same result and the same sequence of calls as Orchestrate |
| `AppController.App.constructor` | App.tsx:40-58 | the user is the stored user; a stored PAID plan without a user is reverted to FREE in state and store; the quota display and the store follow updateQuota; the invariant holds |
| `AppController.App.UpdateQuota` | App.tsx:60-67 | PAID shows unbounded without touching the store; otherwise it shows checkQuota's remaining and leaves the store as checkQuota does |
| `AppController.App.HandlePlanChangeRequest` | App.tsx:69-82 | PAID without a user opens the sign-in dialog and changes neither plan nor store; any other request sets the plan in state and store and refreshes the quota; the invariant is kept |
| `AppController.App.HandleLoginSuccess` | App.tsx:84-91 | sets the user, PAID in state and store, unbounded quota, closes the dialog; the invariant is kept |
| `AppController.App.HandleLogout` | App.tsx:93-100 | removes the stored user, clears the user, sets FREE in state and store, refreshes the quota; the invariant is kept |
| `AppController.App.HandleImage` | App.tsx:109-127 | clears caption and error; a file over 5·1024·1024 bytes is rejected with the size message and the selection is kept; otherwise the image and its type are selected |
| `AppController.App.GenerateCaption` | App.tsx:129-175 | no image: nothing happens; FREE and refused: the quota message, no remote call, store and history unchanged; otherwise one orchestrated request; success prepends a history item with its caption and model and, on FREE only, increments the quota as of the date when the reply is handled (the same as one increment when that is still the gate's day); failure shows the error and leaves history and quota as they were; loading ends false; the invariant is kept |
| `AppController.App.Submit` | App.tsx:139-174 | once past the gate: the remote calls are exactly the orchestrated ones; success shows the caption, clears the error, prepends the history item and increments only on FREE, as of the date it is given; failure shows the error and leaves history, store and quota display as they were; loading ends false |
| `AppController.App.Record` | App.tsx:151-174 | a successful result is shown, counted on FREE only and prepended to history with its caption and model; a failure sets the error message and changes neither history nor store |
| `AppController.App.CountUsage` | App.tsx:153-157 | on FREE the stored quota is incremented and the display shows what checkQuota then reports; on PAID neither store nor display changes |

## Left out

- Stored values are typed records, not JSON strings; `JSON.parse` of malformed data (which would throw) is not modelled. A key holding the wrong kind of record reads as absent. `getStoredPlan` casts any non-empty stored string to a plan; here only FREE and PAID can be stored.
- `StoredPlan`: does not model an arbitrary string under the plan key, because the app only ever writes FREE or PAID there.
- Date computation (`getTodayString`) is left out; the current date is a parameter `today` of every operation that reads it.
- `AppController.App.GenerateCaption`: reads the date twice, as `today` at the quota gate and as `todayAfterReply` for the increment and the display refresh after the reply; `QuotaService.IncrementQuota` uses one date for its own reads, so a change of day within that one synchronous call is not modelled.
- The `Date.now()` ids and timestamps are parameters (`stamp`, `now`); the avatar URLs (including `encodeURIComponent`) are not part of `User`.
- All `setTimeout` delays (login, signup, Google sign-in) and the 800 ms minimum loading time are timing only and are left out.
- `AppController.App.GenerateCaption`: states only the final value of `loading` (false), not the intermediate `true` shown while the request is in flight.
- The Google GenAI SDK is replaced by the `remote` parameter; `process.env.API_KEY` is a string where "" stands for unset; console logging is left out.
- `AppController.App.HandleImage`: the file reader's asynchronous result is taken as the `dataUrl` parameter and applied at once.
- The sign-in dialog (components/AuthModal) is not part of this model: `HandleLoginSuccess` receives the user it would pass.
- `handleFileSelect`, `triggerFileUpload`, clipboard use and all JSX rendering, with components/PlanSelector.tsx and components/History.tsx, are display only.
- Concurrent requests and several tabs sharing storage are left out: the app assumes one sequential session.
- `AuthService.Signup`: the password length counts Dafny characters, where JavaScript counts UTF-16 code units.

## Notes on the code

Three things the code does that are easy to miss: `incrementQuota` first calls `checkQuota`
(which may write) and then re-reads and reconciles the date again; and `checkQuota` persists a
fresh record when none exists, not only when the stored one is stale. `signup` rejects an email
only when it lacks an '@'.
