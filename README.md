# promoaiapi core, modelled in Dafny

This project models the business core of the promoaiapi backend. The
backend is a serverless HTTP API: handlers read and write JSON records in
a key-value store. The model takes each handler's decision logic and its
effect on stored state. Storage, the clock, identifiers, randomness and
network outcomes are parameters or maps.

Modules, one per part of the system:

- `Base`: the shared `Option`/`Result` wrappers, JavaScript numbers (`JsNum`: an integer or NaN), and the `clamp` helper
  written the JavaScript way (`Math.max(lo, Math.min(hi, n))`, including NaN).
- `JsText`: the JavaScript string built-ins the handlers rely on:
  `trim`, `toLowerCase`, `split`, `includes`, `startsWith`, whitespace
  removal, and `Number(...)`/`parseInt` for integer strings (NaN otherwise).
- `WebhookDelivery`: the webhook engine behind `POST /webhooks/events`.
  - Subscription filtering by event type, label selectors and URL scheme.
  - The clamped delivery policy and the backoff schedule.
  - The outbound headers, including the `sha256=` signature header.
  - The retry loop of one delivery. It writes one attempt record per try
    and updates `failureCount`, `enabled` and `lastDelivery` (the
    circuit breaker).
  - The recent-event index, capped at 200.
  - The `WebhookKv` class holds the store and runs intake and delivery.
- `EventsList`: the `limit` clamp and cursor paging of the event list.
- `Vouchers`: the voucher lifecycle.
  - Computing a voucher's status, `parseIntSafe` and claim-code generation.
  - Claim, update, redeem and check, as methods of `VoucherStore`.
- `CsvLine`: the quote-aware CSV line splitter of the contacts import.
- `ContactTags`: tag normalisation, dedupe and merge.
- `ContactsList`: `toInt`, the page clamps, contact matching and the page
  computation of the contact list.
- `Contacts`: the CSV import loop, create (upsert by phone) and update
  (patch validation, and upkeep of the tag and phone indexes), as methods
  of `ContactStore`.
- `Broadcast`: the recipient-set diff of a broadcast update, in
  `BroadcastStore`.
- `Inbox`:
  - the conversation index, sorted, upserted and capped at 200;
  - the message log, keeping the last 500;
  - incoming messages;
  - the read/unread/open/close actions, in `InboxStore`.
- `WaTemplates`: WhatsApp template validation and the
  draft/rejected → submitted transition, in `TemplateStore`.
- `Stripe`: the checks on a Stripe webhook request.
  - Parsing the `Stripe-Signature` header.
  - The 300-second replay window and the signature comparison.
  - Interval normalisation and event-id dedupe (`EventLog`).
  - The constant-time comparison and verifier of the subscription webhook.
- `IntentRouter`: first-match keyword routing of chatbot intents.

Each operation has a specification function. A handler that works step by
step (loops, in-place updates) is a method proved against that function.
Lemmas then relate the functions: bounds, invariants that are kept,
round trips, and idempotence.

## Model

| member | source | states |
|---|---|---|
| Base.Clamp | src/routes/webhooks/events/ingest.ts:39-41 | `Math.max(lo, Math.min(hi, n))` stays in `[lo, hi]`, keeps values already inside, maps values below to `lo` and above to `hi`, and answers `lo` when `lo > hi` |
| Base.ClampJs | src/routes/webhooks/events/ingest.ts:39-41 | the same clamp over JavaScript numbers: NaN stays NaN, any other number lands in `[lo, hi]` |
| Base.Present | src/routes/contacts/list.ts:103-108 | the contacts kept by the load-and-skip-missing loop are at most as many as the ids, and each is stored under one of the ids |
| Base.LoadPresent | src/routes/contacts/list.ts:103-108 | the loop that reads each id and keeps the records found returns exactly `Present(ids, store)` |
| WebhookDelivery.LabelsMatch | src/routes/webhooks/events/ingest.ts:55-65 | `labelsMatch` accepts exactly when every selector holds: blank keys are skipped, a key must be present, and a non-blank value must equal the event's |
| WebhookDelivery.Matched | src/routes/webhooks/events/ingest.ts:298-305 | the matched subscriptions are at most as many as the loaded ones and are exactly those that are enabled, list the event type, accept the labels and have an http(s) URL |
| WebhookDelivery.MatchedAppend | src/routes/webhooks/events/ingest.ts:298-305 | the filter keeps catalog order: matching a concatenated catalog gives the matches of each part, one after the other |
| WebhookDelivery.MatchedSingle | src/routes/webhooks/events/ingest.ts:298-305 | a one-entry catalog gives that subscription exactly when it matches, and nothing otherwise |
| WebhookDelivery.MatchedMultiplicity | src/routes/webhooks/events/ingest.ts:298-321 | a matching subscription appears in the result as often as the catalog lists it, so the `matched` count counts repeated index entries |
| WebhookDelivery.DisabledNeverMatches | src/routes/webhooks/events/ingest.ts:299 | a disabled subscription receives nothing |
| WebhookDelivery.SelectorSemantics | src/routes/webhooks/events/ingest.ts:58-62 | a key-only selector accepts exactly the events carrying that key; a key-value selector exactly those whose label has that value |
| WebhookDelivery.RetriesAsWritten | src/routes/webhooks/events/ingest.ts:112 | `clamp(Number(policy.retries ?? 3), 0, 20)` is a number in [0, 20] or, for a non-numeric value, NaN |
| WebhookDelivery.AttemptLimitAsWritten | src/routes/webhooks/events/ingest.ts:149 | the loop `attempt <= retries` makes at most 21 attempts |
| WebhookDelivery.PolicyNumber | src/routes/webhooks/events/ingest.ts:112-115 | a policy number is clamped into its range, and the default applies when it is absent or not a number; the fallback on a non-numeric value is the correction of the NaN findings below, where the source as written carries NaN |
| WebhookDelivery.EffectivePolicy | src/routes/webhooks/events/ingest.ts:111-115 | retries in [0, 20] (3 by default), backoff fixed exactly when stored as "fixed", timeout in [1000, 60000], failure threshold in [0, 1000] (10 by default); a non-numeric stored value takes the default, which corrects the as-written NaN of `ThresholdAsWritten` and `TimeoutAsWritten` |
| WebhookDelivery.RetriesAgreeOnNumbers | src/routes/webhooks/events/ingest.ts:112-149 | for a numeric or absent `retries` the loop as written makes `retries + 1` attempts, as the corrected policy does |
| WebhookDelivery.NaNRetriesSkipDelivery | src/routes/webhooks/events/ingest.ts:112-149 | a non-numeric `retries` makes the loop as written attempt nothing, where the evident intent is the default of 3 retries |
| WebhookDelivery.ThresholdAsWritten | src/routes/webhooks/events/ingest.ts:115 | `clamp(Number(policy.disableAfterFailures ?? 10), 0, 1000)` is a number in [0, 1000], 10 when absent, and NaN for a non-numeric value |
| WebhookDelivery.ThresholdAgreesOnNumbers | src/routes/webhooks/events/ingest.ts:197-200 | for a numeric or absent threshold the disable test as written holds exactly when the one on the effective policy does |
| WebhookDelivery.NaNThresholdNeverDisables | src/routes/webhooks/events/ingest.ts:115-238 | a non-numeric threshold makes `disableAfterFailures > 0` false, so the subscription as written is never disabled, where the effective default of 10 disables it on the tenth failure in a row |
| WebhookDelivery.TimeoutAsWritten | src/routes/webhooks/events/ingest.ts:114 | `clamp(Number(policy.timeoutMs ?? 5000), 1000, 60000)` is a number in [1000, 60000], 5000 when absent, and NaN for a non-numeric value |
| WebhookDelivery.TimeoutAgreesOnNumbers | src/routes/webhooks/events/ingest.ts:83-91 | for a numeric or absent `timeoutMs` the abort timer waits the effective timeout |
| WebhookDelivery.NaNTimeoutAbortsAtOnce | src/routes/webhooks/events/ingest.ts:83-114 | a non-numeric `timeoutMs` gives the abort timer a delay of 0, so every attempt is aborted before a response can arrive, where the effective policy waits 5000 ms |
| WebhookDelivery.FailingRunFrom | src/routes/webhooks/events/ingest.ts:149-243 | with every attempt failing, the loop as written makes at most 21 attempts, sleeping while `attempt < retries` and writing the subscription back only from an attempt not below `retries` |
| WebhookDelivery.WholeRetriesStore | src/routes/webhooks/events/ingest.ts:149-243 | on a whole retry bound n, n + 1 failed attempts with n sleeps, then the failure is recorded |
| WebhookDelivery.FractionalRetriesFrom | src/routes/webhooks/events/ingest.ts:149-243 | on a fractional retry bound r, floor(r) + 1 failed attempts, a sleep after each, and no write of the subscription |
| WebhookDelivery.FractionalRetriesSkipHealth | src/routes/webhooks/events/ingest.ts:149-243 | a stored `retries` of 2.5 makes three failed attempts and three sleeps and records nothing |
| WebhookDelivery.WholeRetries | src/routes/webhooks/events/ingest.ts:112 | the retry bound read as a whole number in [0, 20] (its whole part inside the range), under which the last failure is always recorded |
| WebhookDelivery.FractionalThresholdCeiling | src/routes/webhooks/events/ingest.ts:198 | a fractional positive threshold disables exactly where its ceiling does; one at most 1 disables at the first failure |
| WebhookDelivery.BackoffMs | src/routes/webhooks/events/ingest.ts:97-100 | fixed mode always waits 1000 ms |
| WebhookDelivery.BackoffSchedule | src/routes/webhooks/events/ingest.ts:97-100 | every wait lies in [500, 15000] ms; exponential mode waits 1, 2, 4, 8 s for retries 1 to 4 and 15 s from the fifth on |
| WebhookDelivery.AppliedLookup | src/routes/webhooks/events/ingest.ts:129-133 | after the static headers are written in order, each name carries the trimmed value of the last static header of that name (blank names skipped), or its earlier value |
| WebhookDelivery.HeadersLookup | src/routes/webhooks/events/ingest.ts:121-143 | a name is in the request headers exactly when it is an engine header, a static header or the signature header; the signature wins over a static header, which wins over the engine's (later writes override earlier ones) |
| WebhookDelivery.BuildHeaders | src/routes/webhooks/events/ingest.ts:121-143 | the header loop and the signing step build exactly `RequestHeaders` of the engine's five headers, the static headers and `sha256=<hmac of the raw body>`; with signing on, the signature header carries that value |
| WebhookDelivery.StaticHeaderOverrides | src/routes/webhooks/events/ingest.ts:129-133 | a static header with a non-blank name is applied with its trimmed value |
| WebhookDelivery.Summary | src/routes/webhooks/events/ingest.ts:176-233 | `lastDelivery` is ok exactly when the attempt got a 2xx response, with that attempt's latency |
| WebhookDelivery.Record | src/routes/webhooks/events/ingest.ts:162-220 | an attempt record carries the delivery id and attempt index and is ok exactly for a 2xx response |
| WebhookDelivery.Attempts | src/routes/webhooks/events/ingest.ts:149-243 | a delivery makes between 1 and `retries + 1` attempts, every attempt before the last failed, and stopping before the limit means the last one succeeded |
| WebhookDelivery.Records | src/routes/webhooks/events/ingest.ts:162-220 | one record per attempt made, in attempt order |
| WebhookDelivery.Waits | src/routes/webhooks/events/ingest.ts:192-225 | after failed attempt i the loop sleeps `computeBackoffMs(backoff, i + 1)`, one wait per retry |
| WebhookDelivery.HealthAfter | src/routes/webhooks/events/ingest.ts:176-239 | success resets the failure count and keeps `enabled`; failure adds one and disables the subscription when the threshold is positive and reached; only those fields and `lastDelivery` change |
| WebhookDelivery.AttemptsBounded | src/routes/webhooks/events/ingest.ts:112-149 | a delivery makes between 1 and 21 attempts |
| WebhookDelivery.FirstSuccessStops | src/routes/webhooks/events/ingest.ts:184-188 | the first successful attempt ends the loop |
| WebhookDelivery.AllFailed | src/routes/webhooks/events/ingest.ts:192-239 | when every attempt fails all `retries + 1` attempts are made, the failure count grows by one and `lastDelivery` is not ok |
| WebhookDelivery.FourAttemptsOn500 | src/routes/webhooks/events/ingest.ts:149-201 | with 3 retries and fixed backoff an endpoint that always answers 500 gets 4 attempts, each recorded not ok with status 500, three waits of 1 s, and one more failure |
| WebhookDelivery.FailOnceThenSucceed | src/routes/webhooks/events/ingest.ts:149-195 | an endpoint that fails once and then succeeds gets 2 attempts, the second recorded ok, and the failure count is reset |
| WebhookDelivery.TwoFailedDeliveriesDisable | src/routes/webhooks/events/ingest.ts:197-200 | with threshold 2, the first failed delivery keeps the subscription enabled and the second disables it, after which no event matches it |
| WebhookDelivery.WaitsBounded | src/routes/webhooks/events/ingest.ts:97-100 | the total time spent waiting is at most 15 s per retry |
| WebhookDelivery.PrependCapped | src/routes/webhooks/events/ingest.ts:283-285 | the recent-events index gets the new id first, then the old ids in order, capped at 200 |
| WebhookDelivery.Loaded | src/routes/webhooks/events/ingest.ts:292-296 | the loaded subscriptions are at most as many as the indexed ids, and each is stored under one of them and has an id |
| WebhookDelivery.WebhookKv.StoreEvent | src/routes/webhooks/events/ingest.ts:277-285 | the event is stored under its id and its id goes in front of the recent-events index, which keeps the latest 200; nothing else changes |
| WebhookDelivery.WebhookKv.Ingest | src/routes/webhooks/events/ingest.ts:245-305 | unauthorized, unparsable and blank-type requests are refused and store nothing; every other request is accepted, and the accepted event is stored under `evt_<uuid>` with the trimmed type and `occurredAt` defaulting to the receive time, its id is prepended to the capped index, and the matched subscriptions are returned |
| WebhookDelivery.WebhookKv.LoadSubscriptions | src/routes/webhooks/events/ingest.ts:292-296 | the load loop returns exactly `Loaded(index, stored)` |
| WebhookDelivery.WebhookKv.Deliver | src/routes/webhooks/events/ingest.ts:102-243 | a delivery appends exactly the attempt records of the attempts made, returns the waits between them, stores the subscription as `Delivered`, and sends the request `BuildRequest` builds: the endpoint URL, the raw body, the upper-cased verb, and exactly the headers `RequestHeaders` gives (the five engine headers, the static overrides, the signature) |
| WebhookDelivery.WebhookKv.RunAttempts | src/routes/webhooks/events/ingest.ts:149-242 | the attempt loop appends the records of the attempts made, returns the waits, stores the subscription as `Delivered` and leaves the events untouched |
| WebhookDelivery.BuildRequest | src/routes/webhooks/events/ingest.ts:117-143 | the request goes to the endpoint URL with the raw body, the verb upper-cased with POST as default; its headers are exactly `RequestHeaders` of the five engine headers (`Content-Type`, `User-Agent`, event id, event type, delivery id), the static headers written over them, and `sha256=<hmac of the raw body>` when signing |
| EventsList.LimitAsWritten | src/routes/webhooks/events/list.ts:11 | `Math.max(1, Math.min(200, Number(limit or 50)))` is a number in [1, 200], 50 when the parameter is missing or empty, and NaN for a non-numeric one |
| EventsList.Limit | src/routes/webhooks/events/list.ts:11 | the corrected limit is in [1, 200], equal to the written one on numbers and 50 for a non-numeric parameter |
| EventsList.PageStart | src/routes/webhooks/events/list.ts:18-23 | a cursor found in the index starts the page right after its first occurrence; no cursor, an empty one or an unknown one starts at 0 |
| EventsList.PageOf | src/routes/webhooks/events/list.ts:25-33 | the page is the slice of at most `limit` ids from the start, and a next cursor is given exactly when ids remain, naming the page's last id |
| EventsList.ListPage | src/routes/webhooks/events/list.ts:10-33 | a page never holds more ids than the limit |
| EventsList.ListEvents | src/routes/webhooks/events/list.ts:25-37 | the handler answers the events stored under the page's ids, in page order with the missing ones skipped, at most `limit` of them, and the page's next cursor |
| EventsList.NaNLimitEmptiesPage | src/routes/webhooks/events/list.ts:11-33 | `?limit=abc` makes the limit NaN, so the page as written is empty with no cursor; the corrected page lists the event |
| EventsList.NextPageFollows | src/routes/webhooks/events/list.ts:18-33 | in an index of distinct non-empty ids, following the next cursor starts the next page exactly where this one ended |
| EventsList.LastPage | src/routes/webhooks/events/list.ts:25-33 | a page with no next cursor holds every remaining id |
| Vouchers.ComputeStatus | src/_lib/voucherUtils.ts:79-95 | `computeVoucherStatus` is disabled exactly for a disabled voucher, else expired exactly past the end date, else exhausted exactly with no stock left, else active exactly when the start date has come, and draft otherwise |
| Vouchers.DisabledStaysDisabled | src/_lib/voucherUtils.ts:84 | a disabled voucher stays disabled whatever its dates and stock |
| Vouchers.ActiveHasStock | src/_lib/voucherUtils.ts:87-94 | an active voucher has stock left |
| Vouchers.ComputeStatusIdempotent | src/routes/voucher/voucherUpdate.ts:84 | recomputing a recomputed status changes nothing |
| Vouchers.LeadingDigits | src/_lib/voucherUtils.ts:74-77 | the digits `parseInt` reads are the longest run of digits at the front |
| Vouchers.ParseIntSafe | src/_lib/voucherUtils.ts:74-77 | `parseIntSafe` returns the parsed integer, or the fallback when `parseInt` gives NaN |
| Vouchers.ParseIntRoundTrip | src/_lib/voucherUtils.ts:74-77 | an integer written in decimal parses back to itself, so the fallback is not used |
| Vouchers.ParseIntStopsAtGarbage | src/_lib/voucherUtils.ts:75 | `parseInt` stops at the first character that is not a digit |
| Vouchers.ParseIntUnsigned | src/_lib/voucherUtils.ts:75 | a string starting with a digit parses to the value of its leading digits |
| Vouchers.CodeChar | src/_lib/voucherUtils.ts:63-66 | each drawn character comes from the 31-letter alphabet without ambiguous characters |
| Vouchers.CodeBody | src/_lib/voucherUtils.ts:65-66 | one alphabet character per random draw, in order |
| Vouchers.CodeInAlphabet | src/_lib/voucherUtils.ts:62-68 | every character of a code after the prefix and the underscore is drawn from the unambiguous alphabet |
| Vouchers.GenerateCode | src/_lib/voucherUtils.ts:62-68 | the code is the prefix, an underscore and `length` characters from the alphabet, one per draw |
| Vouchers.ClaimsBy | src/routes/voucher/voucherClaim.ts:52-55 | a user's claim count is at most the number of claims |
| Vouchers.ClaimsByAppend | src/routes/voucher/voucherClaim.ts:52-73 | a new claim adds one to its own identity's count and nothing to the others |
| Vouchers.AfterClaim | src/routes/voucher/voucherClaim.ts:76-78 | a claim takes one from the remaining stock (not below 0), adds one to the claimed count, and changes no other field than status and `updatedAt` |
| Vouchers.ClaimKeepsStock | src/routes/voucher/voucherClaim.ts:40-78 | claiming an active voucher whose stock is consistent keeps claimed plus remaining equal to the total, and never claims beyond the total |
| Vouchers.PatchTotal | src/routes/voucher/voucherUpdate.ts:66-71 | the corrected total patch sets the total to at least 1 and the remaining stock to what the total leaves after the claims, changing nothing else |
| Vouchers.PatchTotalAsWritten | src/routes/voucher/voucherUpdate.ts:66-71 | the total patch as written shifts the remaining stock by the change of the total, clipped at 0 |
| Vouchers.PatchTotalAgrees | src/routes/voucher/voucherUpdate.ts:66-71 | on a consistent voucher the written and the corrected patch agree |
| Vouchers.PatchTotalKeepsStock | src/routes/voucher/voucherUpdate.ts:66-71 | the corrected patch always leaves the stock consistent |
| Vouchers.PatchTotalOverclaims | src/routes/voucher/voucherUpdate.ts:66-71 | a sold-out 5-unit voucher patched to 3 and then to 10 gets 7 units of stock as written, so 12 claims are possible against a total of 10; the corrected patch gives 5 |
| Vouchers.PatchTerms | src/routes/voucher/voucherUpdate.ts:51-64 | title, description, discount type, discount value, minimum spend and maximum discount change only when given, and no other field changes |
| Vouchers.PatchLimits | src/routes/voucher/voucherUpdate.ts:66-74 | a given total becomes at least 1, with the remaining stock set by the corrected rule `PatchTotal` (total minus claimed, floored at 0) where the source shifts it by the change in the total (`PatchTotalAsWritten`, see Findings); a given per-user limit becomes at least 1; absent ones stay |
| Vouchers.PatchSchedule | src/routes/voucher/voucherUpdate.ts:76-81 | validity dates change only when given, a given status is taken, and `updatedAt` is set |
| Vouchers.Patched | src/routes/voucher/voucherUpdate.ts:51-84 | an update changes exactly the given fields as above, with the corrected stock rule, and then recomputes the status, which is `Disabled` exactly when the given (or else the stored) status is |
| Vouchers.ApplyPatch | src/routes/voucher/voucherUpdate.ts:51-84 | the update steps, in order, produce `Patched` |
| Vouchers.ApplyTerms | src/routes/voucher/voucherUpdate.ts:51-64 | the term-field steps produce `PatchTerms` |
| Vouchers.ApplyLimits | src/routes/voucher/voucherUpdate.ts:66-74 | the quantity steps produce `PatchLimits`, with the corrected stock rule |
| Vouchers.ApplySchedule | src/routes/voucher/voucherUpdate.ts:76-81 | the date and status steps produce `PatchSchedule` |
| Vouchers.PatchDisable | src/routes/voucher/voucherUpdate.ts:79-84 | an update that sets status disabled leaves the voucher disabled after the recompute |
| Vouchers.PatchedKeepsStock | src/routes/voucher/voucherUpdate.ts:51-84 | an update keeps a consistent voucher consistent |
| Vouchers.FindClaim | src/routes/voucher/voucherRedeem.ts:32 | `findIndex` gives the first claim with that id, or -1 exactly when there is none |
| Vouchers.RedeemClaims | src/routes/voucher/voucherRedeem.ts:32-43 | an unknown claim and an already redeemed one are refused; otherwise only that claim gets the redemption time |
| Vouchers.RedeemOnce | src/routes/voucher/voucherRedeem.ts:38-42 | a claim redeemed once is refused the second time |
| Vouchers.ApplyClaim | src/routes/voucher/voucherClaim.ts:38-78 | the claim's voucher update is `AfterClaim` |
| Vouchers.VoucherStore.CountClaims | src/routes/voucher/voucherClaim.ts:52-55 | the counting loop returns the number of claims by that identity, phone before user id |
| Vouchers.ClaimRefusal | src/routes/voucher/voucherClaim.ts:18-59 | a request is refused, in the handler's order, for a blank promo id, no phone and no user id, an unknown voucher, a stored voucher whose computed status is not active (reported with that status), or an active voucher whose identity has used up its per-user limit; it is refused exactly when it is not well formed or the voucher is not claimable for that identity |
| Vouchers.VoucherStore.ClaimVoucher | src/routes/voucher/voucherClaim.ts:18-78 | the handler fails exactly when `ClaimRefusal` gives a reason, and with that reason, changing nothing; a success appends one claim `CLM_<10 chars>` with the caller's ids and source ("web" when none is given) to the voucher's claims and stores `AfterClaim` of the voucher |
| Vouchers.VoucherStore.UpdateVoucher | src/routes/voucher/voucherUpdate.ts:25-89 | a blank or unknown promo id is refused and changes nothing; any other id is accepted, the voucher is replaced by `Patched` (with the corrected stock rule) and the claims are untouched |
| Vouchers.VoucherStore.Redeem | src/routes/voucher/voucherRedeem.ts:22-45 | blank ids are refused, errors change nothing, and a redemption stores `RedeemClaims` and returns the redeemed claim |
| Vouchers.CheckOf | src/routes/voucher/voucherCheck.ts:35-62 | the report carries the computed status and `max(0, total - claimed)`; it says claimable exactly when active, in stock and the identity (if any) is under its limit, and otherwise gives exactly one reason, "not active" first and "fully claimed" next |
| Vouchers.VoucherStore.Check | src/routes/voucher/voucherCheck.ts:13-62 | a blank or unknown promo id is refused; otherwise the handler's report is `CheckOf` the stored voucher and its claims for `phone`, else `userId` |
| Vouchers.CheckAgreesWithClaim | src/routes/voucher/voucherCheck.ts:35-62 | on a consistent voucher the check's remaining count is the stored one and, for a caller with an identity, the check says claimable exactly when a claim would succeed |
| ContactsList.ToInt | src/routes/contacts/list.ts:5-10 | `toInt`: a missing or non-numeric parameter gives the default, a positive whole number is kept, and the result is always the default or at least 1 |
| ContactsList.PageSize | src/routes/contacts/list.ts:62 | the page size lies in [1, 200] and is 10 when the parameter is absent |
| ContactsList.Norm | src/routes/contacts/list.ts:16-18 | `norm` yields trimmed text with no upper-case letter |
| ContactsList.NormOpt | src/routes/contacts/list.ts:16-18 | an absent value normalizes to "" |
| ContactsList.NormAll | src/routes/contacts/list.ts:24 | every tag is normalized in place, position by position |
| ContactsList.TagFilter | src/routes/contacts/list.ts:20-36 | with no query, a contact passes the tag filter exactly when one of its normalized tags equals the tag |
| ContactsList.FoundInPart | src/routes/contacts/list.ts:21-32 | a search found in the normalized name or phone is found in the lower-cased haystack |
| ContactsList.NameOrPhoneFound | src/routes/contacts/list.ts:30-33 | a query found in the normalized name or phone is found in the haystack, so the contact passes |
| ContactsList.SourceIds | src/routes/contacts/list.ts:71-85 | the tag index is used exactly when a tag is given and its index exists; otherwise the full index is the source |
| ContactsList.MatchingSpec | src/routes/contacts/list.ts:124-130 | a contact is in the scan result exactly when it matches the filters and is stored under one of the source ids |
| ContactsList.TotalPagesLeast | src/routes/contacts/list.ts:97 | `max(1, ceil(total / pageSize))` pages hold every item, the last page is not empty, and an empty list still has one page |
| ContactsList.PageWindow | src/routes/contacts/list.ts:97-101 | the clamped page lies in [1, totalPages] and its window holds at most `pageSize` items inside the list |
| ContactsList.PagesTile | src/routes/contacts/list.ts:99-101 | page 1 starts at 0, each full page ends where the next begins, and a page past the end is clamped to the last page, which ends at the total |
| ContactsList.FastListing | src/routes/contacts/list.ts:95-117 | the fast-path listing holds at most `pageSize` contacts, its page is within [1, totalPages], and `total` counts the source ids and fits in the pages |
| ContactsList.ScanListing | src/routes/contacts/list.ts:132-144 | the scan listing holds at most `pageSize` contacts, its page is within [1, totalPages], and `total` counts the matches and fits in the pages |
| ContactsList.Listed | src/routes/contacts/list.ts:95-144 | a listing holds at most `pageSize` (at most 200) contacts, its page is within [1, totalPages] and the total fits in the pages |
| ContactsList.ScanListsMatches | src/routes/contacts/list.ts:124-144 | on the scan path the total is the number of matching contacts and every listed contact matches |
| ContactsList.PlainListing | src/routes/contacts/list.ts:95-118 | with no query and no tag the total is the index length and the page is the stored contacts of the index window |
| ContactsList.Scan | src/routes/contacts/list.ts:124-130 | the scan loop returns exactly `Matching(ids, contacts, q, tag)` |
| ContactsList.List | src/routes/contacts/list.ts:38-144 | the handler returns exactly the listing `Listed` specifies from the stored index, tag index, contacts and query |
| CsvLine.CsvFields | src/routes/contacts/contactsImport.ts:44-74 | a line always yields at least one field and every field is trimmed |
| CsvLine.ParseCsvLine | src/routes/contacts/contactsImport.ts:44-74 | the character loop with its current field and in-quotes flag returns exactly `CsvFields(line)`, the trimmed fields of the quote-aware reading |
| CsvLine.FieldsWithoutQuotes | src/routes/contacts/contactsImport.ts:63-67 | on a line without quotes the reading splits at every comma |
| CsvLine.FieldCountWithoutQuotes | src/routes/contacts/contactsImport.ts:63-72 | without quotes a line has one field more than it has commas, and the fields are the trimmed comma-separated pieces |
| CsvLine.FieldCount | src/routes/contacts/contactsImport.ts:49-73 | from either quoting state, the rest of any line reads as one field more than `UnquotedCommas`, the commas met outside quotes when quotes toggle and a doubled quote inside quotes is one character |
| CsvLine.CsvFieldCount | src/routes/contacts/contactsImport.ts:44-74 | `parseCsvLine` returns the unquoted commas plus one fields for every line, quotes inside fields included; on a line without quotes every comma counts |
| CsvLine.ReadEscaped | src/routes/contacts/contactsImport.ts:52-61 | inside quotes every doubled quote reads back as one quote, and the closing quote ends quoting |
| CsvLine.ReadQuoted | src/routes/contacts/contactsImport.ts:52-67 | a quoted field followed by nothing or a comma reads back as the field |
| CsvLine.QuotedLineRoundTrip | src/routes/contacts/contactsImport.ts:44-74 | a row written with every field quoted and inner quotes doubled reads back as the row: commas inside quotes do not split |
| CsvLine.ParseQuotedLine | src/routes/contacts/contactsImport.ts:44-74 | `parseCsvLine` of such a quoted row returns the row's fields trimmed |
| ContactTags.NormTagShape | src/routes/contacts/contactsImport.ts:15-20 | `normTag` yields text with no white space and no upper-case letter |
| ContactTags.NormTagFixed | src/routes/contacts/create.ts:9-14 | a tag already without white space and upper case is left as it is |
| ContactTags.NormTagIdempotent | src/routes/contacts/create.ts:9-14 | normalizing a tag twice is normalizing it once |
| ContactTags.NormTags | src/routes/contacts/contactsImport.ts:25-26 | every tag is normalized position by position |
| ContactTags.NormTagsNormalized | src/routes/contacts/contactsImport.ts:25-26 | every normalized tag is a fixed point of `normTag`, with no white space and no upper-case letter |
| ContactTags.UniqTags | src/routes/contacts/contactsImport.ts:22-33 | `uniqTags` returns no duplicates, exactly the non-blank normalized tags, each already normalized |
| ContactTags.UniqTagsOrder | src/routes/contacts/contactsImport.ts:22-33 | the tags come out in the order of their first occurrence among the normalized input |
| ContactTags.UniqTagsOfTags | src/routes/contacts/create.ts:16-28 | a list of distinct normalized tags is returned unchanged |
| ContactTags.UniqTagsLoop | src/routes/contacts/contactsImport.ts:22-33 | the loop with its `seen` set returns exactly `UniqTags(tags)` |
| ContactTags.MergeTags | src/routes/contacts/create.ts:30-32 | the merge has no duplicates and holds exactly the tags of either list |
| ContactTags.MergeKeepsExistingFirst | src/routes/contacts/create.ts:30-32 | the existing tags, deduplicated, stay first and in order in the merge |
| ContactTags.SplitTagSeps | src/routes/contacts/contactsImport.ts:39 | the pieces of a split on runs of vertical bars and semicolons contain no separator |
| ContactTags.ParseTagsField | src/routes/contacts/contactsImport.ts:35-41 | the tags field parses to distinct normalized tags |
| ContactTags.ParseTagsFieldRoundTrip | src/routes/contacts/contactsImport.ts:35-41 | distinct normalized tags written joined by vertical bars parse back to the same list |
| ContactTags.JoinSplitTagSeps | src/routes/contacts/contactsImport.ts:39 | splitting a list joined by vertical bars of separator-free pieces gives back the pieces |
| ContactTags.NormalizePhone | src/routes/contacts/create.ts:5-7 | `normalizePhone` leaves no white space |
| ContactTags.NormalizePhoneFixed | src/routes/contacts/update.ts:5-7 | a phone number without white space is left as it is |
| ContactTags.NormalizeTags | src/routes/contacts/update.ts:9-15 | the update's `normalizeTags` has no duplicates, holds exactly the non-blank trimmed lower-cased tags, each trimmed and lower-case (inner spaces are kept, unlike `normalizeTag`) |
| ContactTags.Cleaned | src/routes/contacts/update.ts:11-12 | each tag trimmed and lower-cased, position by position |
| Contacts.NameOrNull | src/routes/contacts/contactsImport.ts:129 | `name or null`: no name exactly when the trimmed name is blank, otherwise that name |
| Contacts.AppendNew | src/routes/contacts/create.ts:168-173 | `if (!ids.includes(id)) ids.push(id)`: the id is present afterwards, nothing else is added, a present id leaves the list unchanged, and a duplicate-free list stays duplicate-free |
| Contacts.AddTagId | src/routes/contacts/contactsImport.ts:76-85 | `upsertTagIndex`: the tag's list holds the id afterwards and the lists stay duplicate-free |
| Contacts.AddTagIdOthers | src/routes/contacts/contactsImport.ts:76-85 | the other tags' lists are untouched and the tag's old list is a prefix of its new one |
| Contacts.AddTagIds | src/routes/contacts/contactsImport.ts:139-141 | adding an id under each tag keeps every list duplicate-free |
| Contacts.AddTagIdsSpec | src/routes/contacts/contactsImport.ts:139-141 | each of the tags lists the id afterwards, tags not named are untouched, and no id is lost from a named tag |
| Contacts.Imported | src/routes/contacts/contactsImport.ts:119-142 | one contact is created per row with a non-blank phone; rows without a phone are skipped |
| Contacts.ImportedFacts | src/routes/contacts/contactsImport.ts:120-133 | every imported contact has a phone, a fresh id drawn for its row, the import's timestamp and no update time |
| Contacts.Ids | src/routes/contacts/contactsImport.ts:136 | the ids pushed are the created contacts' ids, in order |
| Contacts.StoredSpec | src/routes/contacts/contactsImport.ts:135 | after the import the store holds the old contacts and the new ones, each new contact under its id, old ones not overwritten |
| Contacts.TagIndexWith | src/routes/contacts/contactsImport.ts:139-141 | the tag index after the imports stays duplicate-free |
| Contacts.ImportKeepsIndexDistinct | src/routes/contacts/contactsImport.ts:136 | with fresh distinct ids the contact index stays duplicate-free after an import |
| Contacts.ImportedIdsDistinct | src/routes/contacts/contactsImport.ts:123 | distinct draws give distinct contact ids |
| Contacts.BatchRows | src/routes/contacts/contactsImport.ts:120-124 | a JSON batch entry becomes a row of its trimmed name, trimmed phone and unique normalized tags |
| Contacts.CsvLines | src/routes/contacts/contactsImport.ts:165-168 | the non-blank trimmed lines are at most as many as the newline-separated pieces |
| Contacts.StripBom | src/routes/contacts/contactsImport.ts:174 | a leading byte-order mark is removed and nothing else |
| Contacts.LowerAll | src/routes/contacts/contactsImport.ts:175 | each header cell is lower-cased, position by position |
| Contacts.CsvRowCells | src/routes/contacts/contactsImport.ts:191-196 | a data line gives a row of the trimmed name cell (or "" without a name column), the trimmed phone cell and the parsed tags cell (or none) |
| Contacts.CsvRows | src/routes/contacts/contactsImport.ts:190-196 | one row per data line |
| Contacts.CsvRowReadsPhone | src/routes/contacts/contactsImport.ts:177-192 | a quoted data line under a header with a phone column reads back that column's value as the phone |
| Contacts.BatchRowsTagged | src/routes/contacts/contactsImport.ts:124 | every batch row carries only normalized tags |
| Contacts.CsvRowsTagged | src/routes/contacts/contactsImport.ts:196 | every CSV row carries only normalized tags |
| Contacts.Merged | src/routes/contacts/create.ts:112-121 | an upsert keeps the id and creation time, sets the normalized phone, keeps the old name unless a new one is given, and merges the tags without duplicates into exactly the old and new ones |
| Contacts.MergedKeepsTagOrder | src/routes/contacts/create.ts:112 | the existing tags keep their place at the front of the merged tags |
| Contacts.DecodedPath | src/routes/contacts/update.ts:43-47 | a non-empty path segment is replaced by its `decodeURIComponent` result, or kept raw when decoding throws; an absent or empty segment reads as "" |
| Contacts.ResolveId | src/routes/contacts/update.ts:43-59 | the decoded path segment wins when it is not blank (so `%20` gives way to the query); otherwise the trimmed query id when it is not blank; no id exactly when both are blank or missing |
| Contacts.Without | src/routes/contacts/update.ts:132 | `ids.filter(x => x !== id)` drops exactly the id and keeps lists duplicate-free |
| Contacts.RemoveTagIds | src/routes/contacts/update.ts:129-134 | removing the id under each old tag keeps every list duplicate-free |
| Contacts.RemoveTagIdsSpec | src/routes/contacts/update.ts:129-134 | no old tag lists the id afterwards, the other ids stay, and tags not named are untouched |
| Contacts.RetagSpec | src/routes/contacts/update.ts:121-145 | after a retag each new tag lists the id exactly once, old tags that were dropped no longer list it, other tags are untouched, and the index stays duplicate-free |
| Contacts.MovePhone | src/routes/contacts/update.ts:150-153 | an unchanged phone leaves the phone index alone; a changed one maps the new phone to the id, drops the old phone and touches no other key |
| Contacts.Updated | src/routes/contacts/update.ts:79-116 | an update with no field fails with "no fields", a given phone that normalizes to blank fails with "phone is required", a changed phone owned by another contact fails with 409, and no other patch fails; the phone is the new normalized one or the old one, a changed phone is never owned by another contact, a 409 means another contact owns it, and the tags are the normalized new tags or the old ones |
| Contacts.CsvTextAsWritten | src/routes/contacts/contactsImport.ts:105-163 | as written, a JSON body reaching the CSV mode reads as empty text (the body was already consumed), raw text as sent |
| Contacts.CsvText | src/routes/contacts/contactsImport.ts:153-161 | the text read from a body parsed once: raw text, a JSON string, or the `csv` string of a JSON object, otherwise empty |
| Contacts.JsonWrappedCsvReadsEmpty | src/routes/contacts/contactsImport.ts:105-163 | the two readings agree exactly on raw text and on bodies carrying no text; every JSON body reads as empty, hence `Empty CSV`, as written |
| Contacts.ReadCsv | src/routes/contacts/contactsImport.ts:163-196 | empty text, fewer than two non-blank lines, and a header without a phone column fail with their errors; otherwise the rows are those of the data lines under the header |
| Contacts.ReadRows | src/routes/contacts/contactsImport.ts:190-196 | the row loop returns exactly one row per line, in order |
| Contacts.ContactStore.AddToTagIndex | src/routes/contacts/contactsImport.ts:139-141 | the tag loop sets the tag index to `AddTagIds` of the old one and changes nothing else |
| Contacts.ContactStore.AddRows | src/routes/contacts/contactsImport.ts:119-142 | the import loop counts the rows with a phone, appends their ids to the index, stores them and indexes their tags, leaving the phone index alone |
| Contacts.ContactStore.UpsertTags | src/routes/contacts/create.ts:176-183 | the tag loop of create sets the tag index to `AddTagIds` of the old one and changes nothing else |
| Contacts.ContactStore.ImportBatch | src/routes/contacts/contactsImport.ts:105-146 | an empty batch is refused and changes nothing; otherwise the batch's rows are imported and their count returned |
| Contacts.ContactStore.ImportCsv | src/routes/contacts/contactsImport.ts:153-220 | the CSV errors (empty text, no data line, no phone column) are answered in that order and change nothing; a CSV passing the three checks is accepted, its data rows imported and their count returned |
| Contacts.ContactStore.Create | src/routes/contacts/create.ts:53-185 | a blank phone is refused and changes nothing, and any phone that is not blank after normalizing is accepted; a phone already indexed to a stored contact merges into it and is written and indexed under the id the phone index holds, a dangling phone index entry is recreated under a fresh id, and a new phone creates a contact, with the index, phone index and tag index updated |
| Contacts.ContactStore.Update | src/routes/contacts/update.ts:43-166 | the id is `ResolveId` of the decoded path segment and the query; a missing id and an unknown contact are refused, any error changes nothing, and a success stores `Updated`, moves the phone index and retags when tags were given |
| Contacts.ContactStore.Store | src/routes/contacts/update.ts:127-166 | the contact is stored, the phone index moved and the tag index retagged when tags were patched, and the contact index is untouched |
| Contacts.ContactStore.RemoveFromTagIndex | src/routes/contacts/update.ts:129-134 | the removal loop sets the tag index to `RemoveTagIds` of the old one and changes nothing else |
| Contacts.CreateKeepsDistinct | src/routes/contacts/create.ts:168-183 | create keeps the contact index and every tag list duplicate-free |
| Broadcast.OrElse | src/routes/broadcast/update.ts:105-117 | `a ?? b`: the first value when present, else the second |
| Broadcast.NormalizeChannel | src/routes/broadcast/update.ts:22-31 | a channel object in the body wins; else a truthy `channelId` gives a channel labelled by `channelLabel` or, failing that, by the id; else there is none |
| Broadcast.NormalizePhones | src/routes/broadcast/update.ts:76 | each raw recipient is normalized position by position |
| Broadcast.NextRecipientsSpec | src/routes/broadcast/update.ts:75-77 | the next recipients are exactly the non-blank normalized phones of the body, none containing white space |
| Broadcast.RecipientsOnlyKeepsFields | src/routes/broadcast/update.ts:103-120 | a body carrying only recipients changes nothing but the recipient count and the update time |
| Broadcast.AbsentFieldsKept | src/routes/broadcast/update.ts:105-117 | every field the body leaves out keeps its stored value |
| Broadcast.PatchedIdempotent | src/routes/broadcast/update.ts:103-120 | applying the same update twice gives the same broadcast as applying it once |
| Broadcast.ExistingPhones | src/routes/broadcast/update.ts:135-140 | the phones read back from the recipient keys are non-blank and contain no white space |
| Broadcast.DiffedSpec | src/routes/broadcast/update.ts:144-168 | after the diff the recipients are exactly the next set; kept ones keep their record and new ones get a fresh record |
| Broadcast.ExistingIsKeys | src/routes/broadcast/update.ts:135-140 | on normalized keys, reading the phones back from the keys gives the keys themselves |
| Broadcast.RecipientsAfterSpec | src/routes/broadcast/update.ts:144-168 | the recipient records afterwards are keyed exactly by the next set; existing ones are kept and new ones are pending with the update time |
| Broadcast.RecipientsAfterNormalized | src/routes/broadcast/update.ts:142-168 | the recipient keys stay normalized |
| Broadcast.DropRemoved | src/routes/broadcast/update.ts:147-153 | the delete loop removes exactly the existing phones not in the next set, keeps the other records, and counts the removals |
| Broadcast.AddPending | src/routes/broadcast/update.ts:155-168 | the add loop writes a pending record for exactly the next phones not already there, keeps the other records, and counts the additions |
| Broadcast.DiffComposes | src/routes/broadcast/update.ts:144-168 | the delete loop followed by the add loop yields the specified diff |
| Broadcast.BroadcastStore.Update | src/routes/broadcast/update.ts:46-174 | a missing id, an unknown broadcast, a missing body and a body with no recipients are refused and change nothing; every other request is accepted, the broadcast is patched with the count of normalized recipients (duplicates counted) and the recipient records become the next set; the store invariant is kept |
| Broadcast.BroadcastStore.DiffRecipients | src/routes/broadcast/update.ts:131-168 | the diff replaces the broadcast's recipients by `RecipientsAfter`, leaves the broadcasts alone, and counts exactly the removed and the added phones |
| Inbox.ConvKeyInjective | src/routes/inbox/ingest.ts:18 | two conversation keys are equal exactly when channel and external id are both equal, so each contact of each channel has its own conversation |
| Inbox.InsertByRecencySorted | src/routes/inbox/kv.ts:39 | inserting into a newest-first list keeps it newest-first |
| Inbox.InsertByRecencyPerm | src/routes/inbox/kv.ts:39 | inserting adds exactly the new conversation: the result is a permutation of the list plus it |
| Inbox.ByRecencySorted | src/routes/inbox/kv.ts:36-40 | the sorted list is newest-first and is a permutation of the stored one |
| Inbox.InsertByRecencyStable | src/routes/inbox/kv.ts:39 | among conversations with the same `lastAt` the insertion keeps the stored order and puts the new one last |
| Inbox.ByRecencyStable | src/routes/inbox/kv.ts:39 | the sort is stable: conversations with equal `lastAt` keep their stored order |
| Inbox.Without | src/routes/inbox/kv.ts:48 | the filter drops exactly the conversations with that key |
| Inbox.UpsertIndexSpec | src/routes/inbox/kv.ts:43-51 | the upserted index has the conversation first, no other entry with its key, the rest newest-first, at most 200 entries, and, when there was room, every other stored conversation |
| Inbox.WithoutSorted | src/routes/inbox/kv.ts:48 | filtering a newest-first list keeps it newest-first |
| Inbox.KeepTail | src/routes/inbox/kv.ts:72 | the log keeps its last `min(length, 500)` messages |
| Inbox.AppendKeepsNewest | src/routes/inbox/kv.ts:61-74 | after an append the log holds between 1 and 500 messages and ends with the new one; a short log just grows, a full one drops its oldest message |
| Inbox.IngestedSpec | src/routes/inbox/ingest.ts:20-50 | an incoming message opens the conversation, sets its last message and time, and adds one unread; a new conversation starts with one unread and its key, company, channel and external id; an existing one changes nothing else |
| Inbox.ActedSpec | src/routes/inbox/update.ts:26-40 | `mark_read`, `open` and `close` always apply, zeroing the unread count or setting the status; `set_unread` applies exactly for a finite number in [0, 9999] and stores its floor; any other action is refused |
| Inbox.ActedIdempotent | src/routes/inbox/update.ts:26-40 | applying the same action twice is applying it once |
| Inbox.InboxStore.ListConversations | src/routes/inbox/kv.ts:32-41 | the list is the stored index sorted newest-first |
| Inbox.InboxStore.UpsertConversationIndex | src/routes/inbox/kv.ts:43-51 | the company's index becomes `UpsertIndex` of the sorted stored one, nothing else changes |
| Inbox.InboxStore.UpsertConversation | src/routes/inbox/kv.ts:53-59 | the conversation is stored under its company and key and the index is upserted; the store invariant is kept |
| Inbox.InboxStore.AppendMessage | src/routes/inbox/kv.ts:61-74 | the conversation's log becomes the tail of the old log plus the message, nothing else changes |
| Inbox.InboxStore.Ingest | src/routes/inbox/ingest.ts:10-55 | the key is `channel:externalId`; the conversation is stored as `Ingested`, the index upserted, and an incoming message appended to the log |
| Inbox.InboxStore.Update | src/routes/inbox/update.ts:13-43 | a blank key or action is refused, an unknown conversation is not found, errors change nothing, an unknown action or bad unread count is refused, and otherwise the acted conversation is upserted |
| WaTemplates.FirstOfKind | src/routes/watemplates/templateCreate.ts:73-90 | `find` returns the first component of the kind, with none before it, and nothing exactly when no component has that kind |
| WaTemplates.DigitRun | src/routes/watemplates/templateCreate.ts:79 | `\d+` takes the whole run of digits at the front |
| WaTemplates.PlaceholderFirst | src/routes/watemplates/templateCreate.ts:79 | a text starting with `{{d}}` yields the number `d` first, then the placeholders of the rest |
| WaTemplates.PlaceholdersRendered | src/routes/watemplates/templateCreate.ts:79 | the placeholders found in a text `{{v1}}{{v2}}...` are exactly `v1, v2, ...` in order |
| WaTemplates.MaxOf | src/routes/watemplates/templateCreate.ts:81 | `Math.max(...vars)` is at least every variable and is one of them |
| WaTemplates.CheckSequential | src/routes/watemplates/templateCreate.ts:80-87 | the loop from 1 to the largest variable accepts exactly when every number in that range is used |
| WaTemplates.ButtonError | src/routes/watemplates/templateCreate.ts:96-101 | a button fails exactly when it lacks a type or text, has an unknown type, or is a URL button without a url or a phone button without a phone |
| WaTemplates.FirstButtonError | src/routes/watemplates/templateCreate.ts:95-102 | the buttons pass exactly when every button is valid |
| WaTemplates.CheckButtons | src/routes/watemplates/templateCreate.ts:95-102 | the button loop returns the error of the first failing button |
| WaTemplates.ComponentsErrorSpec | src/routes/watemplates/templateCreate.ts:73-103 | the component checks pass exactly when the first BODY component has non-blank text with sequential placeholders and the buttons of the first BUTTONS component, if any, are an array of at most three valid buttons |
| WaTemplates.ValidationAccepts | src/routes/watemplates/templateCreate.ts:55-114 | a body is accepted exactly when its trimmed name is snake_case, its category is one of the three, it has a language and acceptable components; the cleaned data is the trimmed name, category, language and components |
| WaTemplates.ValidateTemplateInput | src/routes/watemplates/templateCreate.ts:55-114 | the validator, returning at the first failed check, gives exactly `Validation(body)` |
| WaTemplates.CheckComponents | src/routes/watemplates/templateCreate.ts:69-103 | the component checks in the handler's order give exactly `ComponentsError` |
| WaTemplates.SubmitSpec | src/routes/watemplates/submit.ts:16-52 | a submission succeeds exactly for a given id of a stored template in status draft or rejected, and then only the status (now "submitted"), `submittedAt` and `updatedAt` change |
| WaTemplates.SubmitOnce | src/routes/watemplates/submit.ts:32-40 | a template submitted once cannot be submitted again |
| WaTemplates.DraftSubmittable | src/routes/watemplates/templateCreate.ts:29-36 | a freshly created template is a draft and can be submitted |
| WaTemplates.TemplateStore.Create | src/routes/watemplates/templateCreate.ts:15-43 | a missing body and an invalid one are refused and change nothing; a body is accepted exactly when it validates, and is then stored as a draft under its new id, which is put at the front of the company's index |
| WaTemplates.TemplateStore.Submit | src/routes/watemplates/submit.ts:16-52 | the handler returns `SubmitResult`, stores the updated template on success, changes nothing on error and leaves the index alone |
| Stripe.Fields | src/routes/api/stripe/stripeWebhook.ts:13-15 | each trimmed part of the header becomes one key/value field, position by position |
| Stripe.V1ValuesSpec | src/routes/api/stripe/stripeWebhook.ts:17 | a value is collected as a signature exactly when it is non-empty and some field is `v1` with that value |
| Stripe.ParseStripeSig | src/routes/api/stripe/stripeWebhook.ts:11-20 | `parseStripeSig` returns the value of the last `t` field and the non-empty `v1` values in order |
| Stripe.ReadFields | src/routes/api/stripe/stripeWebhook.ts:14-18 | the loop over the parts returns the last `t` and the `v1` values of the parts' fields |
| Stripe.V1Parts | src/routes/api/stripe/stripeWebhook.ts:10 | each signature is written as `v1=<sig>` |
| Stripe.KeyValue | src/routes/api/stripe/stripeWebhook.ts:15 | `key=value` with no `=` in the key and no `=`, comma or blank in the value splits back into that key and value |
| Stripe.LastTSkipsV1 | src/routes/api/stripe/stripeWebhook.ts:14-18 | in the fields of a header `t=..,v1=..` the last `t` is the header's and the `v1` values are its signatures |
| Stripe.HeaderParts | src/routes/api/stripe/stripeWebhook.ts:13 | a written header splits back into its `t=` part and its `v1=` parts |
| Stripe.HeaderFieldsOf | src/routes/api/stripe/stripeWebhook.ts:13-15 | the fields of a written header are its `t` field followed by its `v1` fields |
| Stripe.ParseHeader | src/routes/api/stripe/stripeWebhook.ts:11-20 | parsing a written header `t=<t>,v1=<s1>,...` gives back `t` and the signatures |
| Stripe.CheckedSpec | src/routes/api/stripe/stripeWebhook.ts:84-102 | a missing or empty `t` or no signature is an invalid header; a parsed header passes exactly when `t` is a number within 300 s of now and the HMAC of `t.payload` is among the signatures |
| Stripe.VerdictSpec | src/routes/api/stripe/stripeWebhook.ts:74-102 | an empty header is a missing signature, a header without `t` or signatures is invalid, and a request is accepted exactly when its last `t` is a number within 300 s of now and the HMAC of `t.payload` is among its `v1` values |
| Stripe.SignedAccepted | src/routes/api/stripe/stripeWebhook.ts:74-102 | a header written with a fresh timestamp and the correct signature is accepted |
| Stripe.TimestampText | src/routes/api/stripe/stripeWebhook.ts:90 | a timestamp written in decimal is a header token and `Number` reads it back as itself |
| Stripe.Authenticate | src/routes/api/stripe/stripeWebhook.ts:74-102 | the handler's checks, in order, give exactly `Verdict` |
| Stripe.CheckParsed | src/routes/api/stripe/stripeWebhook.ts:83-102 | the checks after parsing give exactly `Checked` |
| Stripe.NormalizeInterval | src/routes/api/stripe/stripeWebhook.ts:49-52 | the interval is yearly exactly when the trimmed, lower-cased value is "yearly", and monthly otherwise |
| Stripe.IntervalNameRoundTrip | src/routes/api/stripe/stripeWebhook.ts:49-52 | an interval's own name normalizes back to it |
| Stripe.EventLog.Dedupe | src/routes/api/stripe/stripeWebhook.ts:55-61 | an event is reported as a repeat exactly when it was seen before, and it is recorded as seen either way |
| Stripe.V1sOfParts | src/routes/subscription/stripe-webhook.ts:79 | the `v1=` parts give back their signatures in order |
| Stripe.ParsersAgree | src/routes/subscription/stripe-webhook.ts:77-79 | on a written header the subscription webhook's first `t=` part and the other webhook's last `t` field are the same timestamp, and both read the same signatures |
| Stripe.SubscriptionParts | src/routes/subscription/stripe-webhook.ts:78-79 | on the parts of a written header the first `t=` value is `t` and the `v1=` values are the signatures |
| Stripe.BitOrZero | src/routes/subscription/stripe-webhook.ts:68-69 | an OR of differences is zero exactly when both are zero |
| Stripe.BitXorZero | src/routes/subscription/stripe-webhook.ts:68 | `x ^ y` is zero exactly when the codes are equal |
| Stripe.TimingSafeEqual | src/routes/subscription/stripe-webhook.ts:65-70 | the constant-time comparison is true exactly when the strings are equal |
| Stripe.VerifyStripeSignature | src/routes/subscription/stripe-webhook.ts:75-87 | the verifier returns exactly `Verified`: a non-empty first `t`, some `v1`, and a `v1` equal to the HMAC of `t.rawBody` |
| Stripe.SomeEqual | src/routes/subscription/stripe-webhook.ts:86 | `some` over the signatures with the constant-time comparison is true exactly when the expected digest is among them |
| IntentRouter.Text | src/routes/chatbot/intentRouter.ts:2 | the searched text is the intent, a space and the message, lower-cased, with no upper-case letter left |
| IntentRouter.FirstMatch | src/routes/chatbot/intentRouter.ts:21-23 | the loop stops at a rule with a keyword in the text and no matching rule before it, and finds none exactly when no rule matches |
| IntentRouter.Categories | src/routes/chatbot/intentRouter.ts:4-19 | the categories of the rules, in rule order |
| IntentRouter.RouteInRange | src/routes/chatbot/intentRouter.ts:4-25 | the answer is one of the thirteen categories or "unknown" |
| IntentRouter.RouteSpec | src/routes/chatbot/intentRouter.ts:21-25 | the answer is "unknown" exactly when no rule has a keyword in the text, and otherwise the category of the first rule that does |
| IntentRouter.BookingFirst | src/routes/chatbot/intentRouter.ts:5-22 | any text mentioning "book" is routed to booking, whatever else it mentions |
| IntentRouter.VoucherKeywordShadowed | src/routes/chatbot/intentRouter.ts:7-14 | a text containing 优惠券 is never routed to voucher: the promotions keyword 优惠 is a prefix of it and is tried first |
| IntentRouter.RouteIgnoresCase | src/routes/chatbot/intentRouter.ts:2 | lower-casing intent and message beforehand does not change the answer |
| JsText.TrimTrims | src/routes/contacts/contactsImport.ts:11-13 | `trim()` yields text without leading or trailing white space |
| JsText.TrimStart | src/routes/contacts/contactsImport.ts:11-13 | the leading white space, and only it, is dropped |
| JsText.TrimEnd | src/routes/contacts/contactsImport.ts:11-13 | the trailing white space, and only it, is dropped |
| JsText.TrimTrimmed | src/routes/contacts/contactsImport.ts:11-13 | trimming trimmed text changes nothing |
| JsText.Lower | src/routes/contacts/list.ts:17 | `toLowerCase()` on ASCII letters: keeps the length, maps each character, and leaves no upper-case letter |
| JsText.LowerIdempotent | src/routes/contacts/list.ts:17-31 | lower-casing twice is lower-casing once |
| JsText.Upper | src/routes/webhooks/events/ingest.ts:117 | `toUpperCase()` on ASCII letters: keeps the length and maps each character |
| JsText.RemoveSpaces | src/routes/contacts/create.ts:6 | `replace(/\s+/g, "")` leaves no white space and never lengthens the text |
| JsText.RemoveSpacesKeeps | src/routes/contacts/create.ts:6 | a character survives the removal exactly when it was in the text and is not white space |
| JsText.Split | src/routes/api/stripe/stripeWebhook.ts:13 | `split(c)` always gives at least one piece |
| JsText.SplitJoin | src/routes/api/stripe/stripeWebhook.ts:13 | joining the pieces with the separator gives back the text |
| JsText.JoinSplit | src/routes/api/stripe/stripeWebhook.ts:13 | pieces without the separator, joined by it, split back into the same pieces |
| JsText.SplitCount | src/routes/contacts/contactsImport.ts:63-72 | a text splits into one more piece than it has separators |
| JsText.IndexOf | src/routes/contacts/contactsImport.ts:177-179 | `indexOf` gives the first position of the value, or -1 exactly when it is absent |
| JsText.DedupeSpec | src/routes/contacts/update.ts:14 | `Array.from(new Set(xs))` has no duplicates and the same members |
| JsText.DedupeFirstOccurrenceOrder | src/routes/contacts/update.ts:14 | the members come out in the order of their first occurrence |
| JsText.NonEmpty | src/routes/contacts/update.ts:13 | `filter(Boolean)` keeps exactly the non-empty strings |
| JsText.TrimAll | src/routes/api/stripe/stripeWebhook.ts:13 | `map(s => s.trim())` trims each piece, position by position |
| JsText.ParseNumber | src/routes/contacts/list.ts:6 | `Number(s)` of blank text is 0, of a run of digits is its value, and a negative result comes from a leading minus |
| JsText.IntStringRoundTrip | src/routes/contacts/list.ts:6 | an integer written in decimal converts back to itself |

## Left out

- HTTP plumbing is not modelled: routing, CORS, the 405 method check, authentication and the `companyId`/401 checks. Each handler starts from a parsed body and a tenant.
- JSON: `request.json()` and the coercions of `any`-typed fields are not modelled. Bodies are datatypes whose absent fields are `None`, or parameters that are "" when absent. The broadcast update, template create and event intake handlers take an `Option` body, and `None` stands for the unparsable body they answer with `Invalid JSON`. The six handlers below take the parsed fields instead, so their `Invalid JSON` answer is not modelled.
- Vouchers.VoucherStore.ClaimVoucher: does not model the `Invalid JSON` 400 of an unparsable body, because it starts from the parsed fields. The optional `meta` object stored with a claim is not modelled either; nothing in the core reads it.
- Vouchers.VoucherStore.UpdateVoucher: does not model the `Invalid JSON` 400 of an unparsable body, because it starts from the parsed patch. It stores `Patched`, so it carries the corrected stock rule of `PatchLimits`.
- Vouchers.VoucherStore.Redeem: does not model the `Invalid JSON` 400 of an unparsable body, because it starts from the parsed ids.
- Vouchers.VoucherStore.Check: does not model the `Invalid JSON` 400 of an unparsable body, because it starts from the parsed fields.
- Contacts.ContactStore.Create: does not model the `Invalid JSON` 400 of an unparsable body, because it starts from the parsed fields.
- Contacts.ContactStore.Update: does not model the `Invalid JSON` 400 of an unparsable body, because it starts from the parsed patch.
- Key-value store: keys are not built as strings. Each store is a map keyed by the fields the key string is made of. Expiry (TTL) is not modelled, including the 48-hour dedupe TTL of Stripe event ids.
- `decodeURIComponent` is a supplied function: `None` stands for the `URIError` it throws on a malformed escape, on which the contact update keeps the raw path segment.
- The clock, `crypto.randomUUID()` and `Math.random()` are parameters. The `at: nowIso()` stamps of the webhook attempt records and of `lastDelivery` are not modelled: `AttemptRecord` and `DeliverySummary` have no time field. Timestamps are integers (milliseconds or seconds, as in the source). Random draws are a supplied sequence of reals in [0, 1).
- Date parsing and ISO formatting (`Date.parse`, `toISOString`) are not modelled. Dates reach the model already parsed as integers.
- Numbers: `Number(...)` and `parseInt` are modelled on integer strings only. Decimal, exponent and hexadecimal forms give NaN in the model.
- Strings are sequences of characters. `length` and the comparison in `timingSafeEqual` work on UTF-16 code units in JavaScript. The model treats every character as one unit and compares character codes.
- `toLowerCase` and `toUpperCase` are modelled on ASCII letters only, which keeps the length. JavaScript maps other letters too, sometimes to more than one character (`"ß".toUpperCase()` is `"SS"`, `"İ".toLowerCase()` has length 2). `trim` and `\s` use the full JavaScript set of white space and line terminators, including the Unicode space separators and U+FEFF.
- HMAC-SHA256 (RFC 2104) and SHA-256 are an uninterpreted function passed in. Only the hex framing, `sha256=<hex>` and the `t.body` message are modelled.
- Network: `fetch` to subscribers is a supplied sequence of outcomes, one per attempt. Timeouts and `AbortController` are part of those outcomes. `sleep` is not run: the delivery returns the waits it would sleep.
- WebhookDelivery.WebhookKv.Deliver: runs the attempt loop and stores the subscription's health under the corrected policy (`EffectivePolicy`). A stored non-numeric `retries` therefore gives 4 attempts, 4 attempt records and a health update, where the source as written makes no attempt and writes nothing (see Findings and `NaNRetriesSkipDelivery`). A stored non-numeric `disableAfterFailures` therefore disables the subscription after 10 failures in a row, where the source as written never disables it (see Findings and `NaNThresholdNeverDisables`). The abort timeout does not shape the outcomes, which are supplied, so the immediate abort of a non-numeric `timeoutMs` (`NaNTimeoutAbortsAtOnce`) is not reflected in them. Policy numbers are integers or NaN here. A fractional value, which the subscription update handler stores unchecked, is not modelled: a fractional `retries` r makes floor(r) + 1 attempts, sleeps after the last one too, and leaves without writing the subscription back (see Findings and `FractionalRetriesFrom`). A fractional `disableAfterFailures` t disables at ceil(t) failures, so 0.5 disables at the first failure (`FractionalThresholdCeiling`).
- WebhookDelivery.WebhookKv.RunAttempts: the same as `Deliver`: the loop runs the corrected number of attempts (4 for a non-numeric `retries`, where the source makes none), the health update uses the corrected failure threshold, and the timeout is not reflected in the supplied outcomes. A fractional `retries` or `disableAfterFailures` cannot be stored in the model; the source's behaviour on them is stated by `FractionalRetriesFrom` and `FractionalThresholdCeiling`.
- EventsList.ListPage: uses the corrected page size `Limit`. A non-numeric `limit` therefore gives a page of up to 50 ids and a next cursor when more remain, where the source as written answers an empty page with a null cursor (see Findings and `NaNLimitEmptiesPage`).
- EventsList.ListEvents: built on `ListPage`, so it uses the corrected page size in the same way: a non-numeric `limit` lists up to 50 events where the source lists none.
- Vouchers.PatchLimits: uses the corrected stock rule `PatchTotal` (remaining is total minus claimed, floored at 0). The source shifts the remaining stock by the change in the total (`PatchTotalAsWritten`), so after a total was lowered below the claims and raised again the two differ (see Findings and `PatchTotalOverclaims`).
- Vouchers.Patched: composed from `PatchLimits`, so it carries the corrected stock rule.
- Vouchers.ApplyLimits: proved equal to `PatchLimits`, so it carries the corrected stock rule.
- Vouchers.ApplyPatch: proved equal to `Patched`, so it carries the corrected stock rule.
- WebhookDelivery.LabelsMatch: a selector key is looked up among the event's own labels only. JavaScript's `k in eventLabels` also finds keys inherited from `Object.prototype` (`toString`, `constructor` and the like), so the source accepts such a key on an event that lacks it; the model does not.
- Concurrency is not modelled: `ctx.waitUntil`, `Promise.allSettled` and `Promise.all`. Each delivery is modelled on its own by `WebhookKv.Deliver`, for one subscription; the fan-out over the matched list is not modelled, and neither are concurrent writers to the same key.
- Logging is not modelled: `console.log`, `truncate` and `safeJson`.
- The recent-event index stores events as a map from id to the stored value, not as serialized JSON.
- Stripe: what `stripeWebhook` does with a checkout event after dedupe is not modelled. What the subscription webhook does after the signature is verified (subscription and plan updates) is not modelled either. Both are storage writes of parsed Stripe objects.
- Contacts import: content-type sniffing between a raw CSV body and a JSON body carrying the CSV is not modelled. `CsvText` gives the text of each kind of body (corrected: the JSON body parsed once), and the CSV import starts from that text.
- Inbox: a stored conversation's `lastAt` is always an integer and its `unreadCount` a natural number. A missing or non-numeric stored value (which `(unreadCount || 0) + 1` and the sort would coerce) is not modelled.
- Inbox: the optional `meta` object of an incoming message is not modelled. It is stored with the message and read by nothing in the core.
- Inbox: the fallback message id built from `Date.now()` and `Math.random()` is not modelled. The message id is a parameter.
- The template validator in `templateUpdate.ts` duplicates the one in `templateCreate.ts` and is not modelled separately. Neither is the second copy of the intent router in `chatbot/services/intentRouter.ts`.
- IntentRouter.RouteIntent: its properties are stated as lemmas about it (`RouteSpec`, `RouteInRange`, `BookingFirst`, `VoucherKeywordShadowed`, `RouteIgnoresCase`). It carries no `ensures` of its own.

## Findings

| source | as written | input that shows it | evidently intended | confidence | as-written member | corrected member |
|---|---|---|---|---|---|---|
| src/routes/webhooks/events/ingest.ts:112,149 | `retries` is `clamp(Number(policy.retries ?? 3), 0, 20)`. A stored non-numeric value makes it NaN. The loop `attempt <= retries` then never runs, so nothing is delivered, no attempt record is written and the health update never happens. | a subscription whose stored `delivery.retries` is a non-numeric string | an unreadable policy value falls back to the default of 3 retries (4 attempts) | not executed | WebhookDelivery.NaNRetriesSkipDelivery | WebhookDelivery.EffectivePolicy |
| src/routes/webhooks/events/ingest.ts:115,198,236 | `disableAfterFailures` is `clamp(Number(policy.disableAfterFailures ?? 10), 0, 1000)`. A stored non-numeric value makes it NaN. `NaN > 0` is false, so the subscription is never disabled, however many deliveries fail. | a subscription whose stored `delivery.disableAfterFailures` is a non-numeric string, with a subscriber that always fails | an unreadable threshold falls back to the default of 10 | not executed | WebhookDelivery.NaNThresholdNeverDisables | WebhookDelivery.EffectivePolicy |
| src/routes/webhooks/events/ingest.ts:85,114 | `timeoutMs` is `clamp(Number(policy.timeoutMs ?? 5000), 1000, 60000)`. A stored non-numeric value makes it NaN. `setTimeout` takes a NaN delay as 0, so the abort fires before any response arrives and every attempt ends as a timeout. | a subscription whose stored `delivery.timeoutMs` is a non-numeric string | an unreadable timeout falls back to the default of 5000 ms | not executed | WebhookDelivery.NaNTimeoutAbortsAtOnce | WebhookDelivery.EffectivePolicy |
| src/routes/webhooks/events/ingest.ts:112,149,192,221 | The subscription update handler stores a policy unchecked, so `retries` can be fractional. With `retries` 2.5 the loop makes attempts 0, 1 and 2. After attempt 2 it still sleeps, because `2 < 2.5`, and then leaves the loop without writing the subscription: no `lastDelivery`, no `failureCount` increment, never disabled. | a subscription whose stored `delivery.retries` is 2.5, with a subscriber that always fails | the retry bound is a whole number, so the failure of the last attempt is recorded | not executed | WebhookDelivery.FractionalRetriesFrom | WebhookDelivery.WholeRetries |
| src/routes/contacts/contactsImport.ts:105,155,163 | A JSON body that is not a batch falls through to the CSV mode, which calls `req.json()` again. The body was already read, so that call rejects, its `catch` yields null and the text is empty. Every JSON-wrapped CSV is refused with `Empty CSV`. | `POST` with `content-type: application/json` and body `{"csv": "phone\n+6012"}` | the JSON body is parsed once and its string or `csv` field is imported | not executed | Contacts.CsvTextAsWritten | Contacts.CsvText |
| src/routes/webhooks/events/list.ts:11,25,33 | `limit` is `clamp(Number(limit or 50), 1, 200)`. A non-numeric `limit` is NaN. `slice(start, start + NaN)` is empty and `nextCursor` is null, so the caller sees an empty, final page. | `GET /webhooks/events?limit=abc` | a non-numeric limit falls back to 50 | not executed | EventsList.NaNLimitEmptiesPage | EventsList.Limit |
| src/routes/voucher/voucherUpdate.ts:66-71 | A new total shifts `remainingQuantity` by the delta and floors it at 0, which forgets claims the floor hid. Lowering the total below the number claimed and then raising it again hands out more than the total allows. | total 5, all 5 claimed: set the total to 3 (remaining 0), then to 10 (remaining 7), so 12 claims are possible against a total of 10 | remaining stays `total − claimed`, floored at 0 (as `voucherCheck.ts:35` reports it) | not executed | Vouchers.PatchTotalOverclaims | Vouchers.PatchTotalKeepsStock |
