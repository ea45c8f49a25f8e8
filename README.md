# Contactful billing bridge: a verified model

This project models the billing core of the Contactful web app. That core connects the app's users (Supabase) with Stripe. It covers:

- the entitlements route, which turns a user's `subscriptions` rows into three capability flags (talent, networking, bundle) under the rule that a bundle grants everything;
- the two Stripe webhook handlers, which reconcile the `subscriptions` table with Stripe events: webhook-v2 keys its upserts on the subscription or checkout-session id, and the older handler keys them on `(user_id, plan)`;
- the two checkout routes, which validate the requested option, find its price and build the Checkout Session request;
- the price-list route, which enumerates the nine plan × billing options;
- the billing-portal route, which finds the user's Stripe customer;
- the client side: `hasPlan`, the `useEntitlements` hook's state machine, the `RequirePlan` gate, and the upgrade page's derivations and state.

## How the model is built

Foreign services become inputs:

- The identity provider's verdict is an `AuthResult`.
- A database query's outcome is a `QueryResult`.
- Stripe's signature check, `subscriptions.retrieve`, `prices.retrieve` and the two `sessions.create` calls are `Try` values: a result, or an exception with its message.
- `process.env` is a `map<string, string>`.
- Whether the store can be reached is a boolean.
- The clock is an integer instant.

Route handlers with early returns are either total functions from these inputs to an outcome, or methods that take the same steps as the code. The webhook, checkout and price-list methods are proved to agree with a decision function (`DecideV1`, `DecideV2`, `Decide`, `Catalogue`). The entitlements and portal methods and the client classes state their outcomes directly in their contracts.

The `subscriptions` table is a `Table` object whose row sequence the webhook methods update. Its upsert semantics are those of Postgres `INSERT ... ON CONFLICT ... DO UPDATE` over the columns sent:

- a NULL key never conflicts;
- a conflict target needs a unique constraint;
- a statement that would break a unique constraint fails as a whole.

Stateful client code (the entitlements hook, the upgrade page, the entitlements route's response headers) is modelled as classes whose methods update fields in place.

## Where the routes disagree with each other

- **Lifetime purchases.** The older webhook records a one-time purchase with status `"lifetime"` (`app/api/stripe/webhook/route.ts:125-136`). The entitlements route counts only rows whose status is exactly `"active"` (`app/api/me/entitlements/route.ts:157-159`). So a lifetime purchase recorded by the older webhook grants nothing, while webhook-v2 records the same purchase as `"active"` and it grants the plan (`BillingConsistency.LifetimePurchaseDiverges`).
- **Period ends.** The webhooks store `current_period_end`, but the entitlements route never reads it: an active row grants its plan whatever its period end (`BillingConsistency.ExpiredSubscriptionStillGrants`).
- **Missing price.** The `checkout` route answers an unset price variable with 500 (`app/api/stripe/checkout/route.ts:62-71`). `create-checkout-session` has a 400 "Price not configured" branch (`app/api/stripe/create-checkout-session/route.ts:128-131`), but its price table is total, so that branch can never be taken (`CreateCheckoutSession.PriceNotConfiguredUnreachable`).
- **Query errors.** The portal route turns any error of its customer query into "no customer" and answers 400 (`app/api/stripe/portal/route.ts:53-80`). The entitlements route answers 500 for the same errors (`app/api/me/entitlements/route.ts:139-153`).
- **Portal ordering.** The portal reads the customer from the first row under `ORDER BY current_period_end DESC`. Postgres sorts NULLs first in a descending order, so a row without a period end (a lifetime purchase) wins over any dated subscription (`PortalRoute.UndatedRowWins`).
- **Legacy `plans` field.** `hasPlan` falls back to the legacy `plans` field when `entitlements` is absent. The upgrade page's `planDisabled` reads only `entitlements`. So on a legacy-only response the page offers a plan that `hasPlan` grants (`UpgradeClient.PlanDisabledIsHasPlan`).
- **Missing Stripe key.** The checkout, create-checkout-session and portal routes build their Stripe client inside their handlers and answer a missing `STRIPE_SECRET_KEY` with their own JSON 500. The price-list route imports the shared client of `app/lib/stripe.ts`, which is built when that module loads (`app/lib/stripe.ts:11`), outside the handler's try/catch. Without the key that route gives no JSON answer of its own (`PricesRoute.Serve`).
- **Space-only bearer token.** `getBearerToken` uses `/^Bearer\s+(.+)$/i`, and JavaScript's `\s` includes the no-break space U+00A0, which HTTP does not strip from header values. On `"Bearer "` followed by one U+00A0 the regex backtracks and yields a token consisting of that U+00A0 alone (`Bearer.SpaceOnlyToken`). The model follows the regex.

## Model

| member | source | states |
|---|---|---|
| Common.ParsePlan | app/api/stripe/webhook-v2/route.ts:21-24 | `normalizePlan` yields plan `p` exactly when the input is `p`'s literal, otherwise null |
| Common.ParseBilling | app/api/stripe/webhook-v2/route.ts:26-29 | `normalizeBilling` yields billing `b` exactly when the input is `b`'s literal, otherwise null |
| Common.OrElse | app/api/me/entitlements/route.ts:110 | `a \|\| b` on an optional string: `a` when it is a non-empty string, `b` otherwise |
| Common.NullIfFalsy | app/api/stripe/webhook/route.ts:120-123 | `v \|\| null`: null exactly when `v` is missing or empty, `v` otherwise |
| Json.ErrorObject | app/api/me/entitlements/route.ts:140-150 | the `{ error, details }` body: `error` is the given text, `details` is present exactly when given, and no other key |
| Bearer.GetBearerToken | app/api/me/entitlements/route.ts:17-21 | a token, when found, is a non-empty suffix of the header after the six scheme characters and at least one space, with no line terminator |
| Bearer.GetBearerTokenMatchesRegex | app/api/me/entitlements/route.ts:17-21 | `getBearerToken` finds a token exactly when `^Bearer\s+(.+)$` (case-insensitive) matches; the token is the capture of the match with the longest space run, so it is never empty |
| Bearer.SpaceOnlyToken | app/api/me/entitlements/route.ts:17-21 | on `Bearer`, one space and one U+00A0 the token is the U+00A0 alone, since `\s+` gives back its last character to `(.+)` |
| EntitlementsRoute.IsMissingColumnError | app/api/me/entitlements/route.ts:23-26 | holds exactly when the error message (empty when absent) contains `column "<col>" does not exist` |
| EntitlementsRoute.ActiveRows | app/api/me/entitlements/route.ts:157-159 | the rows kept are exactly those whose status is exactly "active", and no more than the input |
| EntitlementsRoute.SomePlanMeaning | app/api/me/entitlements/route.ts:161-165 | `rows.some(r => r.plan === plan)` (`SomePlan`) holds iff some row has that plan |
| EntitlementsRoute.Reduce | app/api/me/entitlements/route.ts:157-165 | the bundle flag implies the networking and talent flags |
| EntitlementsRoute.ReduceMeaning | app/api/me/entitlements/route.ts:157-165 | bundle holds iff some row is an active bundle; each single pack holds iff bundle holds or some row of that pack is active |
| EntitlementsRoute.ReduceIgnoresOrderAndDuplicates | app/api/me/entitlements/route.ts:157-165 | row sets with the same members give the same flags |
| EntitlementsRoute.ReduceMonotone | app/api/me/entitlements/route.ts:157-165 | adding rows never clears a flag |
| EntitlementsRoute.InactiveRowsGrantNothing | app/api/me/entitlements/route.ts:157-159 | rows whose status is not exactly "active" (such as "lifetime") grant nothing |
| EntitlementsRoute.ReduceIgnoresBillingAndPeriodEnd | app/api/me/entitlements/route.ts:157-165 | rows that agree on plan and status give the same flags, whatever their billing and period end |
| EntitlementsRoute.CorsHeaders | app/api/me/entitlements/route.ts:36-51 | exactly five headers; the allowed origin is the request's Origin or `https://app.contactful.app` and is never `*` unless the caller sent `*`; credentials "true"; `Vary: Origin` |
| EntitlementsRoute.WithCors | app/api/me/entitlements/route.ts:36-51 | adds the CORS headers to the response in place and keeps its status and body |
| EntitlementsRoute.CorsMerge | app/api/me/entitlements/route.ts:36-51 | setting the five headers one by one equals merging the CORS headers into the existing ones |
| EntitlementsRoute.Options | app/api/me/entitlements/route.ts:53-55 | the preflight, built with `new NextResponse(null)`, answers 204 with no body and exactly the CORS headers |
| EntitlementsRoute.Respond | app/api/me/entitlements/route.ts:105-177 | every JSON answer of the route carries its status and body, the `content-type: application/json` that `NextResponse.json` sets, the CORS headers for the request origin, and no other header |
| EntitlementsRoute.Get | app/api/me/entitlements/route.ts:11-189 | env 500 first (`Server error`, `Missing env: <first missing variable>`), then 401 (error text by bearer presence) before any query; the `user_id` query runs only after the missing-`supabase_user_id` error; any other error is 500; 200 carries the reduced flags and the unfiltered rows; every answer has the JSON content type and the CORS headers |
| SubscriptionStore.Upserted | app/api/stripe/webhook-v2/route.ts:66-94 | an upsert keeps every row with another key; rows sharing the key take the payload; a row is appended exactly when none shares the key (or the key is NULL) |
| SubscriptionStore.Updated | app/api/stripe/webhook-v2/route.ts:96-106 | an update by subscription id changes only status, period end and customer of the matching rows; no match means no change |
| SubscriptionStore.Applied | app/api/stripe/webhook-v2/route.ts:66-106 | a write is applied as its upsert or update; what that does to the rows is stated by `Upserted` and `Updated` |
| SubscriptionStore.UpsertLeavesOneCarryingRow | app/api/stripe/webhook-v2/route.ts:66-94 | after an upsert with a non-NULL key on a uniquely keyed table, exactly one row has the key, it carries the payload, and the key stays unique |
| SubscriptionStore.AppliedTwice | app/api/stripe/webhook-v2/route.ts:66-106 | applying a keyed write twice equals applying it once at the later time: only `updated_at` differs |
| SubscriptionStore.Table.Execute | app/api/stripe/webhook-v2/route.ts:66-106 | a statement succeeds iff the store is reachable and the write keeps every unique constraint; success applies it, failure leaves the rows as they were |
| StripeEvents.IdOrNull | app/api/stripe/webhook-v2/route.ts:145-160 | `typeof x === "string" ? x : x?.id ?? null` on an expandable reference |
| StripeEvents.IdOrNullIfFalsy | app/api/stripe/webhook/route.ts:120-123 | the same with `\|\| null`: an expanded object's empty id becomes null |
| StripeEvents.ToIso | app/api/stripe/webhook-v2/route.ts:16-19 | null exactly for a missing or zero instant, the instant otherwise |
| StripeEvents.FinalStatus | app/api/stripe/webhook-v2/route.ts:236-241 | a reply keeps its status; a statement answers 200 when stored and 500 otherwise |
| WebhookV2.HandleV2 | app/api/stripe/webhook-v2/route.ts:42-242 | the handler answers `FinalStatus` of what `DecideV2` decides: a reply keeps its status and leaves the table unchanged; a statement that the store refuses or cannot run answers 500 and leaves the table unchanged; one that succeeds answers 200 and applies the write |
| WebhookV2.DecideV2 | app/api/stripe/webhook-v2/route.ts:42-236 | every reply is 200, 400 or 500; the branches are stated by `BadSignatureWritesNothing`, `IncompleteCheckoutWritesNothing`, `CheckoutPayload`, `SubscriptionPatchKeepsIdentity`, `DeletionCancelsExactlyItsRows` and `OtherEventsWriteNothing` |
| WebhookV2.CheckoutCompleted | app/api/stripe/webhook-v2/route.ts:112-173 | a reply is 200 or 500; a write is issued iff the metadata is complete and no needed subscription retrieval threw; it is an upsert recording the checkout session id |
| WebhookV2.SubscriptionChanged | app/api/stripe/webhook-v2/route.ts:176-212 | an upsert on the subscription id iff the metadata is complete, else an update of the rows with that id |
| WebhookV2.SubscriptionDeleted | app/api/stripe/webhook-v2/route.ts:215-224 | its effect is stated by `DeletionCancelsExactlyItsRows` |
| WebhookV2.BadSignatureWritesNothing | app/api/stripe/webhook-v2/route.ts:54-64 | a missing signature header or a failed verification is answered 400 (500 if the env check, done first, fails) and writes nothing |
| WebhookV2.IncompleteCheckoutWritesNothing | app/api/stripe/webhook-v2/route.ts:120-130 | a checkout without a valid plan, billing and user id answers 200 and writes nothing |
| WebhookV2.CheckoutPayload | app/api/stripe/webhook-v2/route.ts:136-171 | status "active" and a null period end unless a subscription checkout has a subscription id, when both come from the retrieved subscription (retrieval failure: 500); conflict key is the subscription id when truthy, else the session id |
| WebhookV2.WritesAreKeyed | app/api/stripe/webhook-v2/route.ts:166-171 | no upsert the handler issues has a NULL conflict key |
| WebhookV2.CheckoutLeavesOneRow | app/api/stripe/webhook-v2/route.ts:166-171 | after the checkout upsert exactly one row has the conflict key and it carries the payload |
| WebhookV2.ReplayIsIdempotent | app/api/stripe/webhook-v2/route.ts:112-225 | redelivering any event leaves the table as one delivery at the later time would |
| WebhookV2.SubscriptionPatchKeepsIdentity | app/api/stripe/webhook-v2/route.ts:193-210 | created/updated without complete metadata patches only status (default "active"), period end and customer of the rows with its id |
| WebhookV2.DeletionCancelsExactlyItsRows | app/api/stripe/webhook-v2/route.ts:215-225 | deletion sets "canceled" on exactly the rows with its id; others unchanged; no match, no change |
| WebhookV2.OtherEventsWriteNothing | app/api/stripe/webhook-v2/route.ts:228-235 | `invoice.payment_succeeded` and unknown events answer 200 and write nothing |
| WebhookV1.HandleV1 | app/api/stripe/webhook/route.ts:30-206 | the handler answers `FinalStatus` of what `DecideV1` decides: a reply keeps its status and leaves the table unchanged; a refused or failing statement answers 500 and leaves the table unchanged; a stored one answers 200 and applies the write |
| WebhookV1.DecideV1 | app/api/stripe/webhook/route.ts:30-201 | every reply is 200, 400 or 500; the branches are stated by `BadSignatureWritesNothing`, `IncompleteCheckoutWritesNothing`, `PaymentCheckoutIsLifetime`, `SubscriptionCheckoutIsActive`, `UpdateKeepsIdentity`, `DeletionCancelsItsRows` and `CreatedIsIgnored` |
| WebhookV1.CheckoutCompleted | app/api/stripe/webhook/route.ts:101-163 | a reply is 200 or 500; a write needs complete metadata and is an upsert on `(user_id, plan)` |
| WebhookV1.SubscriptionUpdated | app/api/stripe/webhook/route.ts:166-181 | its effect is stated by `UpdateKeepsIdentity` |
| WebhookV1.SubscriptionDeleted | app/api/stripe/webhook/route.ts:184-193 | its effect is stated by `DeletionCancelsItsRows` |
| WebhookV1.BadSignatureWritesNothing | app/api/stripe/webhook/route.ts:41-53 | a missing signature or a failed verification is answered 400 (500 if the env check fails) and writes nothing |
| WebhookV1.IncompleteCheckoutWritesNothing | app/api/stripe/webhook/route.ts:108-117 | missing or invalid metadata writes nothing and answers 200 |
| WebhookV1.PaymentCheckoutIsLifetime | app/api/stripe/webhook/route.ts:125-136 | payment mode writes billing "lifetime", status "lifetime", no subscription id and no period end, keyed on (user, plan), whatever billing the metadata named |
| WebhookV1.SubscriptionCheckoutIsActive | app/api/stripe/webhook/route.ts:139-161 | any other checkout writes status "active" with the metadata's billing; period end only when there is a subscription id (retrieval failure: 500) |
| WebhookV1.OneRowPerUserAndPlan | app/api/stripe/webhook/route.ts:60-87 | after a checkout upsert exactly one row exists for the user and plan and it carries the payload |
| WebhookV1.ReplayIsIdempotent | app/api/stripe/webhook/route.ts:99-198 | redelivering any event leaves the table as one delivery at the later time would |
| WebhookV1.UpdateKeepsIdentity | app/api/stripe/webhook/route.ts:166-182 | `subscription.updated` changes only status (when reported), period end and customer of the rows with its id |
| WebhookV1.DeletionCancelsItsRows | app/api/stripe/webhook/route.ts:184-193 | `subscription.deleted` keeps the row count; the rows with its id become "canceled" with the event's period end and keep customer, owner, plan and billing; every other row is unchanged |
| WebhookV1.CreatedIsIgnored | app/api/stripe/webhook/route.ts:196-198 | `customer.subscription.created` falls to the default branch: 200, no write |
| Pricing.GetPriceId | app/lib/pricing.ts:23-26 | the configured value of the pair's variable, unchanged, or null when unset |
| Pricing.PriceKeyIsTemplate | app/lib/pricing.ts:24 | the key is `STRIPE_PRICE_` + upper(plan) + `_` + upper(billing) |
| Pricing.PriceKeyInjective | app/lib/pricing.ts:24 | equal keys come from equal (plan, billing) pairs |
| Pricing.DistinctPairsDistinctKeys | app/lib/pricing.ts:24 | distinct pairs read distinct variables |
| Pricing.LabelsDistinct | app/lib/pricing.ts:6-16 | the plan labels are pairwise distinct, and so are the billing labels |
| CheckoutSession.ModeFor | app/api/stripe/checkout/route.ts:102 | "payment" iff lifetime, "subscription" otherwise |
| CheckoutSession.SessionMetadata | app/api/stripe/checkout/route.ts:110-112 | exactly the keys supabase_user_id, plan, billing with the user id and the literals |
| CheckoutSession.Finish | app/api/stripe/checkout/route.ts:124-133 | an early answer is kept; a created session answers 200 with its url; a throwing create answers 500 "Server error" with the message |
| CheckoutRoute.CheckoutOrigin | app/api/stripe/checkout/route.ts:94-97 | the Origin header, else `NEXT_PUBLIC_APP_URL`, else `http://localhost:3000` |
| CheckoutRoute.Decide | app/api/stripe/checkout/route.ts:36-122 | every early answer is 400, 401 or 500; the order of the checks is stated by `MissingTokenFirst`, `InvalidPayloadBeforePriceAndAuth`, `MissingPriceNamesVariable` and `AuthCheckedAfterValidation`, the session by `SessionShape` |
| CheckoutRoute.Post | app/api/stripe/checkout/route.ts:36-134 | the route, with the parameters built and then adjusted (`customer_creation`), sends exactly the session `Decide` describes and answers what `Decide` and `Finish` give |
| CheckoutRoute.MissingTokenFirst | app/api/stripe/checkout/route.ts:40-46 | without a bearer token the answer is 401 whatever else holds |
| CheckoutRoute.InvalidPayloadBeforePriceAndAuth | app/api/stripe/checkout/route.ts:48-60 | an invalid plan or billing answers 400 with the expected values, independently of env and auth |
| CheckoutRoute.MissingPriceNamesVariable | app/api/stripe/checkout/route.ts:62-71 | an unset or empty price variable answers 500 naming `STRIPE_PRICE_<PLAN>_<BILLING>` |
| CheckoutRoute.AuthCheckedAfterValidation | app/api/stripe/checkout/route.ts:82-88 | the "Invalid access token" 401 is the answer iff token, option, price and Supabase env all passed and auth failed |
| CheckoutRoute.SessionShape | app/api/stripe/checkout/route.ts:99-122 | one line item of quantity 1 with the configured price, client reference and metadata from the user, payment mode iff lifetime with `customer_creation: "always"` exactly then, the success and cancel URLs on the resolved origin |
| CreateCheckoutSession.GetOrigin | app/api/stripe/create-checkout-session/route.ts:9-15 | the Origin header, else `https://<host>`, else `https://app.contactful.app` |
| CreateCheckoutSession.DecodeJwtIss | app/api/stripe/create-checkout-session/route.ts:25-35 | null unless the token has exactly three dot-separated parts and the decoded `iss` is truthy |
| CreateCheckoutSession.IssNeedsTwoDots | app/api/stripe/create-checkout-session/route.ts:25-35 | the issuer is read iff the token holds exactly two dots and the decoded claim is truthy |
| CreateCheckoutSession.EnvHost | app/api/stripe/create-checkout-session/route.ts:17-23 | `getHostFromUrl` of the Supabase URL: null when the variable is unset or empty, the parsed host otherwise |
| CreateCheckoutSession.PriceTableTotalAndDistinct | app/api/stripe/create-checkout-session/route.ts:46-62 | every option has a non-empty price and the nine prices are pairwise distinct |
| CreateCheckoutSession.Price | app/api/stripe/create-checkout-session/route.ts:46-62 | every price id starts with `price_`; totality and distinctness are stated by `PriceTableTotalAndDistinct` |
| CreateCheckoutSession.Decide | app/api/stripe/create-checkout-session/route.ts:64-159 | every early answer is 400, 401 or 500; the order of the checks is stated by `CheckOrder`, the session by `SessionShape` |
| CreateCheckoutSession.CheckOrder | app/api/stripe/create-checkout-session/route.ts:66-126 | bearer 401, project-mismatch 401, env 500, auth 401, plan 400, billing 400, each firing exactly when every earlier check passed |
| CreateCheckoutSession.MismatchNeedsBothSides | app/api/stripe/create-checkout-session/route.ts:74-88 | the mismatch answer (`ProjectMismatch`) needs a three-part token, a set Supabase URL, a known issuer and a known host, with the issuer not containing the host |
| CreateCheckoutSession.PriceNotConfiguredUnreachable | app/api/stripe/create-checkout-session/route.ts:128-131 | the "Price not configured" answer is never given |
| CreateCheckoutSession.SessionShape | app/api/stripe/create-checkout-session/route.ts:143-159 | payment iff lifetime, quantity 1 with the table price, metadata and client reference from the user, cancel URL `/upgrade?plan=<plan>`, `customer_email` the user's email or null when it is falsy |
| CreateCheckoutSession.Route | app/api/stripe/create-checkout-session/route.ts:64-168 | early answers pass through; a created session answers 200 with `url` holding the session's URL (null when it has none); a throwing create answers 500 `{ error: "Server error", details }` with the exception's message |
| PricesRoute.EnvKey | app/api/stripe/prices/route.ts:26-28 | `envKey` spells `STRIPE_PRICE_` + upper(plan) + `_` + upper(billing), the key `getPriceId` reads |
| PricesRoute.RowFor | app/api/stripe/prices/route.ts:45-55 | amount defaults to 0, currency to "usd", price id from the retrieved price, label `<plan label> — <billing label>` |
| PricesRoute.Step | app/api/stripe/prices/route.ts:36-55 | one option either leaves the listing as it was or appends one row to it, and a failure is never followed by a listing |
| PricesRoute.Catalogue | app/api/stripe/prices/route.ts:34-57 | a listing never has more rows than options; its order, coverage and failure behaviour are stated by `ListingOrderAndCoverage`, `ListedIffConfigured` and `FailurePersists` |
| PricesRoute.Visit | app/api/stripe/prices/route.ts:36-55 | one inner iteration extends the listing of the options before it to the listing including this option |
| PricesRoute.ListPlan | app/api/stripe/prices/route.ts:35-56 | the inner loop over one plan's three billings extends the listing by that plan's options, or yields the whole listing's failure |
| PricesRoute.Get | app/api/stripe/prices/route.ts:30-57 | once the modules have loaded, the loop over plans produces exactly `Catalogue` over the nine options: unset options skipped, a row per configured one, the first failed retrieval ends the listing |
| PricesRoute.Serve | app/lib/stripe.ts:4-11 | without a truthy `STRIPE_SECRET_KEY` the shared client's module fails to load and no JSON answer of the route is given (`Missing env: STRIPE_SECRET_KEY`); otherwise the answer is `Respond` of the listing |
| PricesRoute.FailurePersists | app/api/stripe/prices/route.ts:43-65 | once a retrieval fails, the whole listing is that failure: no partial list |
| PricesRoute.ListingOrderAndCoverage | app/api/stripe/prices/route.ts:34-57 | after any prefix of the options the pushed rows are in option order, cover exactly the configured options of the prefix, and each is built from its retrieved price |
| PricesRoute.RowsJson | app/api/stripe/prices/route.ts:48-59 | one JSON row per listed price, in order |
| PricesRoute.ListingProperties | app/api/stripe/prices/route.ts:23-57 | at most 9 rows, no repeated option, plan-major order; an option is listed iff its variable is set and non-empty; each row built from its retrieved price with the defaults and label |
| PricesRoute.ListedIffConfigured | app/api/stripe/prices/route.ts:34-57 | an option appears in the listing exactly when its price variable is set and non-empty |
| PricesRoute.Respond | app/api/stripe/prices/route.ts:59-65 | 200 `{prices}` with the rows, or 500 with the failure's message and no list |
| PortalRoute.Latest | app/api/stripe/portal/route.ts:55-60 | the row `ORDER BY current_period_end DESC LIMIT 1` returns: a member that sorts no later than any other (NULLs first); none iff no rows |
| PortalRoute.CustomerOf | app/api/stripe/portal/route.ts:53-72 | an error or an empty result reads as null; otherwise the latest row's customer id |
| PortalRoute.Post | app/api/stripe/portal/route.ts:8-94 | env 500 first (`Server error`, `Missing env: <first missing variable>`, the Stripe key before the Supabase variables), then 401 before any query; `user_id` queried only after the missing-column error; no customer (including any query error) answers 400 with no portal request; otherwise the portal returns to `<origin>/` |
| PortalRoute.UndatedRowWins | app/api/stripe/portal/route.ts:59 | a row without a period end is the one read whenever the user has one |
| PortalRoute.LatestDatedRow | app/api/stripe/portal/route.ts:59-60 | among dated rows the row with the greatest period end is read |
| PortalRoute.OlderCustomerIgnored | app/api/stripe/portal/route.ts:55-79 | an older row's customer id is not used when the latest row has none |
| PortalRoute.LatestIsMaximal | app/api/stripe/portal/route.ts:59-60 | the row order does not change the period end that is read |
| EntitlementCheck.ChosenFlags | app/lib/has-plan.ts:29 | `entitlements` whenever present, else the legacy `plans` |
| EntitlementCheck.HasPlan | app/lib/has-plan.ts:22-36 | false for no response or no flags; otherwise true iff the bundle flag or the plan's flag is true (missing flags read false) |
| EntitlementCheck.BundleDominates | app/lib/has-plan.ts:33 | a bundle grants every plan |
| EntitlementCheck.CurrentFieldShadowsLegacy | app/lib/has-plan.ts:29 | an empty `entitlements` hides a legacy `plans` that grants everything |
| EntitlementCheck.HasPlanMonotone | app/lib/has-plan.ts:33-35 | turning flags on never takes a plan away |
| EntitlementCheck.HasPlanOfRoute | app/lib/has-plan.ts:22-36 | on the entitlements route's answer, a plan is granted iff some active row is a bundle or that plan |
| UseEntitlements.Hook.constructor | app/lib/use-entitlements.ts:16-20 | the initial state is idle with no entitlements and no error |
| UseEntitlements.Hook.Begin | app/lib/use-entitlements.ts:23 | `refresh` first moves to loading |
| UseEntitlements.Hook.Complete | app/lib/use-entitlements.ts:25-40 | no token: error "Not logged in (no access token)" and no fetch; fetched: ready with exactly the response; exception: error with its message or the default |
| UseEntitlements.Hook.SetFailed | app/lib/use-entitlements.ts:34-40 | the error state with no entitlements and the message, or "Failed to load entitlements" when the message is empty |
| UseEntitlements.Hook.Refresh | app/lib/use-entitlements.ts:22-41 | ready iff a token was found and the fetch returned, with exactly the fetched entitlements; otherwise error: "Not logged in (no access token)" without a token, the exception's message (or "Failed to load entitlements" when it is empty) when reading the session or fetching throws; the tagged-union invariant is kept |
| RequirePlan.HookGrants | app/components/RequirePlan.tsx:11-14 | the `hasPlan` prop, taken to be `hasPlan` over the hook's entitlements: nothing is granted unless the state is ready |
| RequirePlan.Render | app/components/RequirePlan.tsx:18-35 | placeholder iff idle or loading; error view iff error; redirect to `/upgrade?plan=<required>` iff ready without the plan; children iff ready with it |
| RequirePlan.GateOnHook | app/components/RequirePlan.tsx:18-35 | with the hook's state and `HookGrants`, children are shown iff ready and the plan or a bundle is granted; a failed load never redirects |
| RequirePlan.RedirectsNamePlan | app/components/RequirePlan.tsx:30 | distinct plans redirect to distinct URLs |
| UpgradeClient.PlanFromQuery | app/upgrade/upgrade-client.tsx:19-22 | a valid plan literal is kept, anything else gives talent |
| UpgradeClient.BillingFromQuery | app/upgrade/upgrade-client.tsx:24-27 | a valid billing literal is kept, anything else gives monthly |
| UpgradeClient.QueryRoundTrip | app/upgrade/upgrade-client.tsx:19-27 | a plan's or billing's own literal reads back as itself |
| UpgradeClient.IsPriceRow | app/upgrade/upgrade-client.tsx:38-47 | accepts exactly objects with valid plan and billing literals, a numeric amount, and string currency and price_id |
| UpgradeClient.FilterRows | app/upgrade/upgrade-client.tsx:52 | no longer than the input, and every accepted element is kept |
| UpgradeClient.FilterAppend | app/upgrade/upgrade-client.tsx:52 | the filter preserves order: filtering a concatenation concatenates the parts |
| UpgradeClient.FilterSound | app/upgrade/upgrade-client.tsx:52 | every kept row comes from an accepted element |
| UpgradeClient.NormalizePrices | app/upgrade/upgrade-client.tsx:49-53 | a bare array or an object's `prices` array is filtered; anything else gives no rows |
| UpgradeClient.RowsJsonAccepted | app/upgrade/upgrade-client.tsx:38-52 | every row the price route serialises passes `isPriceRow` and reads back as the same option, amount, currency and price id |
| UpgradeClient.FilterAllAccepted | app/upgrade/upgrade-client.tsx:52 | a list whose every element passes `isPriceRow` is kept whole, in order |
| UpgradeClient.PriceListRoundTrip | app/upgrade/upgrade-client.tsx:49-53 | the page reads back exactly the rows the price route sends, in order |
| UpgradeClient.CurrentPrice | app/upgrade/upgrade-client.tsx:138-141 | the first row matching plan and billing, or null iff none matches |
| UpgradeClient.CurrentPriceIffListed | app/upgrade/upgrade-client.tsx:138-141 | on any route list, a price is found for an option exactly when the route listed it, and it is that option's |
| UpgradeClient.CurrentPriceOfRoute | app/upgrade/upgrade-client.tsx:138-141 | on the route's list, a price is found for an option iff its price variable is set |
| UpgradeClient.PlanDisabled | app/upgrade/upgrade-client.tsx:66-76 | a bundle disables every plan, a single pack only itself; the legacy `plans` field is not read |
| UpgradeClient.PlanDisabledIsHasPlan | app/upgrade/upgrade-client.tsx:66-76 | agrees with `hasPlan` when `entitlements` is present, and can disagree on a legacy-only response |
| UpgradeClient.ShowNoPrice | app/upgrade/upgrade-client.tsx:143 | holds iff prices loaded, no error, and no row matches the option |
| UpgradeClient.CheckoutDisabled | app/upgrade/upgrade-client.tsx:227 | enabled iff not loading, a row matches the option, and the plan is not already entitled |
| UpgradeClient.FailureText | app/upgrade/upgrade-client.tsx:103-127 | the body's `details`, else its `error`, else the fallback |
| UpgradeClient.BearerHeaderRoundTrip | app/upgrade/upgrade-client.tsx:96-99 | the checkout routes' `getBearerToken` reads the token back from `Bearer ${token}` if and only if it is non-empty, free of line terminators, and does not start with a space character unless it is that single character; a JWT-shaped token is always read back |
| UpgradeClient.CheckoutRequestRoundTrip | app/upgrade/upgrade-client.tsx:100 | the checkout route parses the posted body back into the selected plan and billing |
| UpgradeClient.Page.constructor | app/upgrade/upgrade-client.tsx:57-63 | the option comes from the query string; not loading, no message, no prices, not loaded |
| UpgradeClient.Page.LoadPrices | app/upgrade/upgrade-client.tsx:121-136 | ok: the normalised rows with no error; not ok: no rows and the body's details/error or "Failed to load prices"; exception: its message or the default; always marks prices loaded |
| UpgradeClient.Page.SelectPlan | app/upgrade/upgrade-client.tsx:156-179 | a click selects the plan unless that option is disabled |
| UpgradeClient.Page.SelectBilling | app/upgrade/upgrade-client.tsx:186-194 | a billing button selects that billing and changes nothing else |
| UpgradeClient.Page.StartCheckout | app/upgrade/upgrade-client.tsx:78-114 | a throwing session read: its message (or "Checkout failed"), no post and no redirect; no token: message and login redirect naming the plan; otherwise posts the option with `authorization: Bearer <token>`; failure texts from the body or status; a missing url is an error; success navigates to the url and stays loading |
| BillingConsistency.V1LifetimeGrantsNothing | app/api/stripe/webhook/route.ts:125-136 | the older handler's row for a one-time purchase (status "lifetime") grants no flag |
| BillingConsistency.V2PurchaseGrantsPlan | app/api/stripe/webhook-v2/route.ts:143-171 | webhook-v2's row for the same purchase (status "active") grants the plan bought |
| BillingConsistency.LifetimePurchaseDiverges | app/api/stripe/webhook/route.ts:125-136 | a one-time purchase recorded by the older webhook grants nothing; the same checkout recorded by webhook-v2 grants the plan |
| BillingConsistency.ExpiredSubscriptionStillGrants | app/api/me/entitlements/route.ts:157-165 | a subscription recorded by the older webhook grants its plan whatever its period end |

## Left out

- `Bearer.GetBearerToken` takes the `Authorization` header as an arbitrary string. The Fetch `Headers` normalisation, which strips leading and trailing tabs, spaces, CR and LF from header values, is not modelled; a header that normalisation would change never reaches the route.
- `WebhookV1.HandleV1` and `WebhookV2.HandleV2` return only the response status. The text bodies (`ok`, `Missing stripe-signature`, `Webhook signature verification failed: …`, `Webhook handler error: …`) are not modelled, since Stripe reads only the status.
- `PricesRoute.Serve`: when the shared Stripe module fails to load, the answer the framework then gives (its status and error page) is not modelled; the model records only that the route's handler did not run.
- `RequirePlan.HookGrants`: no file in the model connects `useEntitlements` to `RequirePlan`. The hook returns its state and `refresh`, and no `hasPlan`. The model assumes the caller passes `p => hasPlan(state.entitlements, p)` as the `entitlements.hasPlan` prop.
- Signature verification (`webhooks.constructEvent`) is an input. Only its outcome (an event, or an exception) is modelled.
- The Stripe and Supabase SDK calls are inputs: `auth.getUser` and `getSession`, the query builder, `subscriptions.retrieve`, `prices.retrieve`, `checkout.sessions.create` and `billingPortal.sessions.create`.
- `toIsoFromUnixSeconds` is modelled only for its null case. A non-zero instant stands for its ISO-8601 text, and `updated_at` is an integer instant.
- Concurrent webhook deliveries against the real database are not modelled. Each delivery runs as one step.
- `formatMoney` (in `app/lib/pricing.ts` and in the upgrade page) is not modelled: it uses floating-point division and `Intl.NumberFormat`.
- JSON numbers are integers, so `typeof amount === "number"` accepts exactly integer amounts. NaN and fractions are not represented.
- `decodeJwtIss` is modelled only by its part count. The base64 and JSON decoding of the payload and `new URL(...)` in `getHostFromUrl` are inputs, and the issuer and host are opaque options.
- Only string members of a response body are read as messages (`details`, `error`, `url`). A non-string truthy value, which the routes never send, would be converted to a string by the code.
- An exception's message is used as `e?.message || String(e)` yields it: an empty message is kept as an empty string in the routes' 500 bodies, and not replaced by `String(e)`.
- `PortalRoute.Latest`: Postgres leaves the order of tied rows unspecified. The model picks the first tied row in table order, and its contract states only what every tie-break satisfies.
- `UseEntitlements.Hook.Refresh`: the React effect that calls `refresh` on mount, and the interleaving of two overlapping refreshes, are not modelled. Each refresh runs to completion.
- React rendering, `window.location` navigation and the page's markup are not modelled. Navigation is an output value; the rendered view is a `View` value.
- `app/lib/entitlements-client.ts`, the fetch wrapper that turns a failed response into an exception, is not part of this model. Its outcome is the hook's input.
- The entitlements route's cookie and bearer client construction is not part of this model. Only the identity verdict is modelled.
