# SociaLynx entitlement and quota logic, modelled in Dafny

This project models the part of SociaLynx that decides who may generate
content and how often. It covers:

- the server's three HTTPS functions: `generateContent` (request validation
  and the length → `max_tokens` table), `createPayment` (payment-session
  creation with the YooKassa provider) and `paymentCallback` (the
  provider's webhook, which updates the payment session and grants `pro`);
- the client's entitlement resolver with read-time expiry
  (`getSubscriptionStatus`) and its merge writer (`updateSubscriptionStatus`);
- the daily free quota (`useDailyLimit`: `todayKey`, `hydrate`, `consume`);
- the plan catalog with its built-in fallback (`fetchPaymentPlans`);
- the main screen's gating: the checks behind the generate button and their
  order, and the `pro`-only tone and length locks.

Everything is pure functions over immutable values. The two Firestore
collections are maps (`Firestore.Store`) and device storage is one value
(`DailyLimit.Stored`). Time is a parameter: `now` in milliseconds and
today's day key as a string. The outside services are oracle parameters:
the OpenAI completion, the YooKassa session creation, the Firestore write
outcome, the catalog query and the generation hook's result.

Modules, one per source concern:

| file | module | models |
|---|---|---|
| wrappers.dfy | `Wrappers` | optional values (`undefined`), map lookup |
| js_text.dfy | `JsText` | truthiness of optional strings, `String.prototype.trim` |
| firestore.dfy | `Firestore` | session and subscription documents, merge writes |
| server_plans.dfy | `ServerPlans` | `PLAN_PRICES`, the webhook's day counts, the plan-key test |
| amount_format.dfy | `AmountFormat` | `(amount / 100).toFixed(2)` as integer div/mod, with a parser |
| generate_content.dfy | `GenerateContent` | `generateContent` |
| create_payment.dfy | `CreatePayment` | `createPayment` |
| payment_callback.dfy | `PaymentCallback` | `paymentCallback` |
| subscription_service.dfy | `SubscriptionService` | `getSubscriptionStatus`, `updateSubscriptionStatus` |
| daily_limit.dfy | `DailyLimit` | `useDailyLimit` |
| plans_service.dfy | `PlansService` | `fetchPaymentPlans`, `getDefaultPlans` |
| main_screen.dfy | `MainScreen` | `onGeneratePress`, tone and length locks |
| scenarios.dfy | `Scenarios` | purchase → webhook → resolver → gating, end to end |

Modelling choices that go beyond what the source text says:

- A Firestore write that throws is an oracle flag: `sessionWriteOk` and
  `subscriptionWriteOk`. The admin SDK also throws on two payload shapes,
  and the model treats both as the session write failing (reply 500,
  nothing written). These are a missing or empty document id
  (`doc(undefined)`, `doc("")`) and an undefined field value (a
  notification without `status`).
- `serverTimestamp()` and `Timestamp.now()` are both the parameter `now`.
- The device-storage value is one of five cases: absent (or the empty
  string), a read that throws, text that is not JSON, a JSON primitive,
  or a `{date, count}` record. On a primitive, `consume` throws a
  TypeError: reading a property of `null` throws, and so does assigning a
  property on any other primitive in (strict) module code. `hydrate`
  reads a primitive as a full quota.
- `handleGenerate` is an oracle that resolves or rejects. It rejects when
  either the gateway call or saving the history entry throws; in both
  cases `consume` is not reached.
- The plan catalog code spreads the document's data after `id`. So a
  document that carries its own `id` field gets that value as the plan id,
  not the document id. The model does what the code does
  (`PlansService.PlanFromDoc`).
- The client fallback prices (39900/79900/199900) differ from the server
  table (19900/49900/149900). Both are modelled as written, and
  `PlansService.DefaultsAgainstServerTable` states the mismatch.

## Model

| member | source | states |
|---|---|---|
| `JsText.Trim` | src/screens/MainScreen.tsx:28 | the trimmed prompt is the input minus leading and trailing JavaScript whitespace; it is empty exactly when the prompt is all whitespace |
| `Firestore.MergeSessionStatus` | functions/src/index.ts:186-192 | a merge of `status` and `updatedAt` keeps the session's `userId`, `plan` and `createdAt`; on a missing session it creates one with only those two fields |
| `Firestore.MergeSubscription` | src/services/subscriptionService.ts:34 | a merge write sets `status` and `updatedAt`, sets `planId`/`expiresAt` only when the patch carries them, and otherwise keeps the stored values |
| `Firestore.FullPatchIgnoresPrior` | functions/src/index.ts:206-214 | a merge naming all four subscription fields gives the same document whatever was stored before |
| `ServerPlans.GrantDays` | functions/src/index.ts:197-204 | the grant lasts 30 days exactly for `plan_monthly`, 90 exactly for `plan_quarterly`, and 365 for every other plan string |
| `ServerPlans.KnownPlansArePositive` | functions/src/index.ts:11-15 | every server plan has a positive price and a positive grant duration; only the yearly plan gets 365 days |
| `ServerPlans.InheritedNamePassesLookupAsWritten` | functions/src/index.ts:196 | the truthiness check on `PLAN_PRICES[plan]` accepts `"toString"`, which is not a plan, and accepts every real plan |
| `AmountFormat.FormatAmount` | functions/src/index.ts:131 | the amount string is digits, a point and exactly two digits, with no leading zero in the rouble part |
| `AmountFormat.AmountRoundTrip` | functions/src/index.ts:131 | the amount string reads back as exactly the kopeck amount it was made from |
| `AmountFormat.FormatAmountInjective` | functions/src/index.ts:131 | different kopeck amounts never produce the same amount string |
| `CreatePayment.Handle` | functions/src/index.ts:96-168 | the provider is called exactly for a POST with a truthy user, a known plan and both credentials. It is sent the formatted price, `RUB`, the plan description, `{userId, plan}` metadata and the idempotence key. A session is written, keyed by the provider id, only on provider success; every other outcome leaves the store unchanged. Subscriptions are never touched |
| `CreatePayment.RejectionsHaveNoEffect` | functions/src/index.ts:109-121 | a bad payload gets 400 and missing credentials get 500; both write nothing and do not call the provider |
| `CreatePayment.OtherSessionsUnchanged` | functions/src/index.ts:157-162 | no session other than the provider's new id is added, removed or changed |
| `CreatePayment.PlanAmountStrings` | functions/src/index.ts:124-133 | the three server plans are charged `"199.00"`, `"499.00"` and `"1499.00"` |
| `CreatePayment.InheritedPlanNameAcceptedAsWritten` | functions/src/index.ts:110 | the guard as written accepts plan `"toString"`, which the own-key guard refuses; every payload the own-key guard accepts is accepted as written |
| `GenerateContent.MaxTokens` | functions/src/index.ts:24-28 | a size is defined exactly for `short`, `medium` and `long` |
| `GenerateContent.MaxTokensIncreasing` | functions/src/index.ts:24-28 | the sizes are 200, 350 and 600, increasing with the length |
| `GenerateContent.Handle` | functions/src/index.ts:48-89 | OPTIONS → 204 and any other non-POST method → 405. A POST with a falsy field → 400. Otherwise the provider gets the prompt and the table size; its failure gives 500, and its answer gives the trimmed text (empty when absent) with the token total (0 when absent) |
| `GenerateContent.StatusCodes` | functions/src/index.ts:51-88 | 405, 400, 200 and 500 each happen exactly under their documented condition |
| `GenerateContent.GeneratedTextIsTrimmed` | functions/src/index.ts:81-84 | a returned text never starts or ends with whitespace |
| `GenerateContent.UnknownValuesForwarded` | functions/src/index.ts:61-78 | values outside the enums pass validation and reach the provider, and an unknown length sends no `max_tokens`; an empty field is refused |
| `PaymentCallback.GrantPatch` | functions/src/index.ts:197-214 | a grant writes `pro`, the plan, `updatedAt = now` and `expiresAt = now + days·86 400 000`, so the expiry lies after `updatedAt` |
| `PaymentCallback.Grant` | functions/src/index.ts:194-196 | a grant happens exactly when the metadata has a truthy `userId` and a truthy `plan` that is a key of `PLAN_PRICES`; it is for that user |
| `PaymentCallback.GrantAsWritten` | functions/src/index.ts:194-196 | the grant as written: it also fires for plan names inherited from `Object.prototype`, and agrees with the corrected grant wherever that one fires |
| `PaymentCallback.InheritedPlanNameGrantsAsWritten` | functions/src/index.ts:196-204 | as written, a `succeeded` payment for plan `"toString"` grants 365 days of `pro`; the corrected grant gives nothing |
| `PaymentCallback.Handle` | functions/src/index.ts:176-224 | 400 exactly for a body without a truthy `event` or without `object`, leaving the store unchanged. A failed session write gives 500 with nothing written. Otherwise the session is merge-updated with the notified status. After that write the reply is 500 exactly when a grant is due and its subscription write throws, with the session update kept; in every other case it is 200 |
| `PaymentCallback.SubscriptionWrittenOnlyOnGrant` | functions/src/index.ts:194-223 | subscriptions change only when the payment `succeeded`, the metadata qualifies and both writes succeed, and then only that user's record changes; a succeeded payment without a qualifying grant is still answered 200 |
| `PaymentCallback.MalformedWritesNothing` | functions/src/index.ts:177-183 | a body missing `event` or `object` is answered 400 and writes nothing to either collection |
| `PaymentCallback.SessionMergeFrame` | functions/src/index.ts:186-192 | an accepted notification sets only `status` and `updatedAt` on its session; `userId`, `plan`, `createdAt` and all other sessions are unchanged |
| `PaymentCallback.RedeliveryIdempotent` | functions/src/index.ts:186-214 | delivering the same notification again at the same `now` gives the identical store and reply |
| `PaymentCallback.RedeliveryLaterResets` | functions/src/index.ts:197-214 | a redelivery at a later time sets the expiry to that time plus the plan's days, instead of adding to the stored expiry |
| `PaymentCallback.GrantIgnoresPriorSubscription` | functions/src/index.ts:206-214 | the granted subscription depends only on `now` and the plan, not on the user's previous record |
| `PaymentCallback.LastStatusWins` | functions/src/index.ts:186-192 | after two notifications for one payment, the session holds the status and time of the last one |
| `PaymentCallback.LaterMonthlyShortensYearly` | functions/src/index.ts:197-214 | a monthly grant processed after a yearly one replaces the 365-day expiry with a 30-day one |
| `SubscriptionService.GetSubscriptionStatus` | src/services/subscriptionService.ts:13-27 | a missing record reads as bare `free`, and so does a `pro` record whose `expiresAt` is strictly before `now`; any other record is returned verbatim |
| `SubscriptionService.EffectivelyProIff` | src/services/subscriptionService.ts:17-26 | the effective tier is `pro` exactly when a `pro` record exists whose expiry is absent or not before `now` |
| `SubscriptionService.ExpiryIsStrict` | src/services/subscriptionService.ts:22-24 | a `pro` record is still `pro` at its expiry instant and `free` one millisecond later |
| `SubscriptionService.FreeRecordVerbatim` | src/services/subscriptionService.ts:22-26 | a stored `free` record is returned as stored, whatever its `expiresAt` |
| `SubscriptionService.ExpiryIsMonotone` | src/services/subscriptionService.ts:22-24 | once a user reads as `free`, a later clock still reads `free` for the same store |
| `SubscriptionService.UpdateSubscriptionStatus` | src/services/subscriptionService.ts:29-35 | the update touches only that user's record; the fields it omits keep their stored values and the fields it names take the new ones |
| `SubscriptionService.ProUpdateKeepsStoredExpiry` | src/services/subscriptionService.ts:29-35 | writing `pro` without an `expiresAt` over a past expiry leaves the user reading as `free` |
| `DailyLimit.TodayKey` | src/hooks/useDailyLimit.ts:12-14 | the day key is the first ten characters of the timestamp (all of it if shorter) |
| `DailyLimit.SameDatePrefixSameKey` | src/hooks/useDailyLimit.ts:12-14 | timestamps with the same `YYYY-MM-DD` prefix give the same key |
| `DailyLimit.Hydrate` | src/hooks/useDailyLimit.ts:20-57 | `pro` gets unlimited. A free user gets 3 unless the record counts for today; then the remaining count plus the used count is 3, and it is zero exactly when 3 are used. The result is never negative, and at most 3 for a non-negative count |
| `DailyLimit.Consume` | src/hooks/useDailyLimit.ts:63-85 | `pro` does nothing and a stored JSON primitive throws. Otherwise today's record is written: the count goes up by exactly one on a same-day record and restarts at 1 on any other. The new `remaining` is what `hydrate` would read back |
| `DailyLimit.ProBypass` | src/hooks/useDailyLimit.ts:20-66 | for `pro`, remaining is unlimited and `consume` leaves storage as it was |
| `DailyLimit.ConsumeNSameDay` | src/hooks/useDailyLimit.ts:76-84 | n consumes on today's record add exactly n to its count and keep its date |
| `DailyLimit.ConsumeNFromFreshDay` | src/hooks/useDailyLimit.ts:63-85 | from an absent, unreadable or stale record, n ≥ 1 consumes leave `{today, n}` and remaining `max(3 − n, 0)` |
| `DailyLimit.StaleRecordResets` | src/hooks/useDailyLimit.ts:51-52 | a record from another day reads as a full quota whatever its count, and consuming on it restarts at `{today, 1}` |
| `PlansService.PlanFromDoc` | src/services/plansService.ts:27-30 | the plan carries the document's fields (title, price, period label, description, duration, popularity, order); its id is the document id unless the data has its own `id` field, which then wins |
| `PlansService.StoredPlanReadsBack` | src/services/plansService.ts:27-30 | a plan stored under its own id reads back unchanged; an `id` field in the data overrides a different document id |
| `PlansService.FetchPaymentPlans` | src/services/plansService.ts:17-35 | a throwing read or an empty result gives the defaults; otherwise each document maps in query order. The list is never empty |
| `PlansService.DefaultPlansShape` | src/services/plansService.ts:37-69 | the defaults are exactly monthly, quarterly and yearly: 30/90/365 days, prices 39900/79900/199900, order 1, 2, 3 (so sorted) |
| `PlansService.FetchSortedByOrder` | src/services/plansService.ts:20-30 | when the query returns documents in ascending `order`, the list shown is sorted by `order`, on every path |
| `PlansService.DefaultsAgainstServerTable` | src/services/plansService.ts:42-65 | each default plan is a server plan with the same duration as the webhook grants, but a different price from `PLAN_PRICES` |
| `MainScreen.TapTone` | src/screens/MainScreen.tsx:95-106 | tapping a locked tone keeps the current selection and opens the paywall; an unlocked tone is selected |
| `MainScreen.TapLength` | src/screens/MainScreen.tsx:123-134 | tapping a locked length keeps the current selection and opens the paywall; an unlocked length is selected |
| `MainScreen.LocksOpenPaywall` | src/screens/MainScreen.tsx:95-133 | a tone is locked exactly for a free user and a tone other than `friendly`; a length exactly for a free user and `long`; `pro` selects anything |
| `MainScreen.FreeTapsStayUnlocked` | src/screens/MainScreen.tsx:95-133 | a free user on an unlocked selection stays on one, whatever they tap |
| `MainScreen.OnGeneratePress` | src/screens/MainScreen.tsx:27-47 | a request goes out exactly for a non-blank prompt and no exhausted free quota; it carries the untrimmed prompt and the selection. Storage changes only through one `consume` after a resolved generation by a free user; a rejected generation changes nothing |
| `MainScreen.ProBypassesQuota` | src/screens/MainScreen.tsx:33 | a `pro` press does not depend on the remaining count and never touches storage |
| `MainScreen.ScreenRequestsAreValid` | src/screens/MainScreen.tsx:41-43 | every request the screen sends passes the gateway's field checks and has a `max_tokens` entry |
| `MainScreen.PressKeepsQuota` | src/screens/MainScreen.tsx:33-46 | a free press keeps the shown counter equal to what storage implies, keeps today's count within 0..3, and adds exactly its successful generation to that count |
| `MainScreen.FreeUserWithinDailyLimit` | src/screens/MainScreen.tsx:27-47 | over any run of free presses on one day, today's count grows by exactly the resolved generations, which never exceed the quota left at the start |
| `MainScreen.PrimitiveRecordNeverRunsDown` | src/hooks/useDailyLimit.ts:68-81 | if storage holds a JSON primitive, `consume` always rejects, so a resolved generation leaves the counter at 3 |
| `Scenarios.PurchaseThenConfirm` | functions/src/index.ts:157-214 | a monthly purchase records `pay_1` as pending. Its `succeeded` notification marks it succeeded, keeping user, plan and creation time, and grants `pro` for 30 days. The client reads `pro` up to the expiry instant and `free` after it |
| `Scenarios.CancellationGrantsNothing` | functions/src/index.ts:186-194 | a `canceled` notification without metadata sets the session status and leaves subscriptions unchanged |
| `Scenarios.EntitledUserBypassesQuota` | src/screens/MainScreen.tsx:33 | until the granted expiry, the buyer's non-blank presses are sent even with nothing left, and storage is untouched |

## Findings

| source | as written | input that shows it | evidently intended | confidence | as-written member | corrected member |
|---|---|---|---|---|---|---|
| functions/src/index.ts:196 | `PLAN_PRICES[plan]` is checked only for truthiness, and a plain object inherits `toString`, `constructor`, `valueOf` and the like from `Object.prototype`; the ternary then falls through to 365 days | webhook `{event:"payment.succeeded", object:{id:"p", status:"succeeded", metadata:{userId:"u1", plan:"toString"}}}` grants `u1` a year of `pro` with `planId:"toString"` | grant only for the table's own keys | high; not executed | `PaymentCallback.GrantAsWritten` (shown by `PaymentCallback.InheritedPlanNameGrantsAsWritten`) | `PaymentCallback.Grant` |
| functions/src/index.ts:110 | the same truthiness check lets `createPayment` past validation with an inherited name, and it goes on to format an undefined price | body `{userId:"u1", plan:"toString"}` is not refused with 400 | refuse with 400 any plan that is not an own key of `PLAN_PRICES` | high; not executed | `CreatePayment.PayloadAcceptedAsWritten` (shown by `CreatePayment.InheritedPlanNameAcceptedAsWritten`) | `CreatePayment.PayloadAccepted` |

The rest of the model (`PaymentCallback.Handle`, `CreatePayment.Handle`)
uses the corrected own-key test. The webhook is unauthenticated in any case,
so anyone can forge a `plan_yearly` grant too; the finding is only that the
guard lets through names that are not plans.

## Left out

- CreatePayment.Handle: uses the corrected own-key plan guard (`CreatePayment.PayloadAccepted`). As written (functions/src/index.ts:110-131), a plan name inherited from `Object.prototype` such as `"toString"` passes validation, and the provider is called with amount `"NaN"` and no description. The model answers 400 and calls no one. `CreatePayment.PayloadAcceptedAsWritten` and `CreatePayment.InheritedPlanNameAcceptedAsWritten` state the as-written guard (see Findings).
- PaymentCallback.Handle: grants through the corrected `PaymentCallback.Grant`. As written (functions/src/index.ts:196-214), a `succeeded` payment whose plan is an inherited name such as `"toString"` grants 365 days of `pro`. The model leaves subscriptions unchanged in that case. `PaymentCallback.GrantAsWritten` and `PaymentCallback.InheritedPlanNameGrantsAsWritten` state the as-written grant (see Findings).
- HTTP transport, CORS headers, the secrets plumbing and logging: not part of the decision logic.
- The OpenAI, YooKassa, Firestore and AsyncStorage calls themselves are oracle parameters; their internal behaviour is not modelled.
- The system prompt text built from `TONE_LABEL`/`TYPE_LABEL`: only its existence matters, and it does not affect any status code or quota.
- Request bodies whose fields are JSON values other than strings (numbers, objects): fields are modelled as absent-or-string.
- A length equal to `__proto__` in the `LENGTH_TO_TOKENS` lookup (it indexes to an object rather than `undefined`) and document ids containing `/`: JavaScript and Firestore path corner cases outside the entitlement logic.
- Stored usage objects whose `date`/`count` fields are missing or of another type (e.g. `{}` or an array): the model covers the record the hook itself writes and the failure cases named above.
- A failing `AsyncStorage.setItem` in `consume`: storage writes are assumed to succeed.
- `toFixed` for amounts of 10^21 and more (exponent notation) and float rounding: the prices are small integers, for which integer div/mod is exact.
- Conversion from the clock to the ISO day string (calendar and timezone): the ISO timestamp is a parameter.
- Concurrent or interleaved webhook deliveries and client eventual consistency: deliveries are modelled as a sequence of single transitions.
- React state, hook lifecycles, the AppState listener, the auth context and the post-payment refresh timer: UI plumbing.
- Screens other than the main screen's gating, navigation, theming, clipboard, ad banner and the history feature: UI.
- The thin service wrappers (`firestoreService`, `contentService`, `yookassaService`, `firebase`, `config`): library glue.
- Webhook signature verification: the source has none, so the model has none.
- The spread of unknown extra fields in Firestore documents beyond the ones the code writes: documents are modelled with exactly the written fields.
