# Entitlement and usage metering of the content-tool dashboard, in Dafny

This project models the subscription layer of a subscription-gated dashboard of
SEO content tools. Users hold one of three plans (solo, discovery, escala). Each
plan gives a quota for each of eight metered tools. A per-session cache holds the
user's subscription, the plan's limits and the usage counters. An entitlement
check gates every tool. A metered increment records each use.

It also models three small pieces of logic next to that layer:

- the registration form's validator and its gate on sign-up;
- the checkout form's plan name and price table and its redirect decision;
- the usage meter's percentage, its thresholds and its colours.

Files:

- `wrappers.dfy`: `Option`, the stand-in for `null`/`undefined`.
- `catalog.dfy`: plans, resources, `Limit` (`Unlimited` replaces JavaScript's
  `Infinity`), the per-resource record, `PLAN_LIMITS`, `dbColumnMap` and `planPrices`.
- `subscription.dfy`: the `SubscriptionContext` class (the provider's state and
  its operations), storage rows, and the link between the local increment and
  the stored row.
- `register.dfy`: `trim`, the email pattern `\S+@\S+\.\S+`, `validateForm` and `handleSubmit`.
- `checkout.dfy`: `getPlanDetails` and `handleCheckout`.
- `usage_meter.dfy`: the `UsageLimit` component's derived values.

Each remote call is replaced by its outcome, passed in as a parameter. This covers
the subscription query, the usage query, the `increment_usage` procedure and the
checkout endpoint. The clock is the parameter `now`, an integer timestamp. The
class methods run to completion, one at a time. Outgoing calls are recorded in
sequence fields: `incrementRequests`, `checkoutRequests` and `signUpRequests`.

Three behaviours of the code are easy to misread. The model follows the code:

- The subscription query's "no rows" error (`PGRST116`) is not treated as an
  absent subscription. Like every other error of that query, it aborts the
  refresh before usage is read.
- Sign-out clears the subscription and zeroes the counters. It does not reset
  the plan limits to the solo tier.
- A refresh that finds no usage row keeps the previous counters. It does not zero them.

## Model

| member | source | states |
|---|---|---|
| Catalog.PlanLimits | src/contexts/SubscriptionContext.tsx:86-117 | every plan gives each of the eight resources a quota; escala is unlimited for all of them; solo and discovery quotas are finite and positive |
| Catalog.TiersAreOrdered | src/contexts/SubscriptionContext.tsx:86-117 | for every resource, solo ≤ discovery ≤ escala, with solo strictly below discovery |
| Catalog.ZeroUsage | src/contexts/SubscriptionContext.tsx:130-139 | the initial usage record has every counter at 0 |
| Catalog.PerResource.With | src/contexts/SubscriptionContext.tsx:291-294 | `{ ...prev, [resource]: v }` sets that resource's value and leaves the other seven unchanged |
| Catalog.UsageColumn | src/contexts/SubscriptionContext.tsx:271-280 | every resource maps to a non-empty storage column name |
| Catalog.UsageColumnInjective | src/contexts/SubscriptionContext.tsx:271-280 | distinct resources map to distinct columns |
| Catalog.PlanPrice | src/contexts/SubscriptionContext.tsx:318-322 | every plan has a positive price |
| Catalog.PricesIncrease | src/contexts/SubscriptionContext.tsx:318-322 | prices rise strictly: solo < discovery < escala |
| Catalog.PlanKey | src/contexts/SubscriptionContext.tsx:14 | every plan has a non-empty string form |
| Subscriptions.RowToUsage | src/contexts/SubscriptionContext.tsx:189-199 | each counter is the row's value in that resource's column, or 0 when that value is falsy; the column names the refresh spells out are the ones `dbColumnMap` gives the increment |
| Subscriptions.ServerIncrement | src/contexts/SubscriptionContext.tsx:283-286 | the assumed effect of `increment_usage`: the named column goes up by one and every other column is unchanged |
| Subscriptions.IncrementThenRefresh | src/contexts/SubscriptionContext.tsx:189-199 | the optimistic local increment equals what a refresh reads after the server increments the mapped column |
| Subscriptions.SubscriptionContext.constructor | src/contexts/SubscriptionContext.tsx:127-141 | initial state: no subscription, loading, no error, zero usage, solo limits |
| Subscriptions.SubscriptionContext.CheckUsageAvailability | src/contexts/SubscriptionContext.tsx:244-256 | false with no subscription, with a status other than active, or when `now` is strictly after the period end; otherwise true iff usage is below the limit (always for unlimited); when true, a finite quota leaves room for one more |
| Subscriptions.SubscriptionContext.IncrementUsage | src/contexts/SubscriptionContext.tsx:259-302 | without a user or subscription, or when the check denies: false, no remote call, nothing changes; on a remote error: false, counters unchanged, error recorded; on success: true, exactly the resource's counter goes up by one and stays within a finite limit |
| Subscriptions.SubscriptionContext.FetchSubscriptionStatus | src/contexts/SubscriptionContext.tsx:144-207 | without a user nothing changes; any subscription-query error (including "no rows") keeps subscription, limits and usage and records the error; a row sets the subscription and its plan's limits, no row clears the subscription; a usage error other than "no rows" keeps usage and records it; a usage row replaces every counter, no row keeps them; loading ends false |
| Subscriptions.SubscriptionContext.OnUserChange | src/contexts/SubscriptionContext.tsx:354-370 | sign-out clears the subscription and zeroes all counters, leaving limits, error and loading as they were; sign-in runs the refresh with the outcomes stated for it |
| Subscriptions.SubscriptionContext.InitiateCheckout | src/contexts/SubscriptionContext.tsx:305-351 | without a user: no request, no URL; otherwise posts the plan with its price, returns the URL of an ok response, records "Failed to create checkout session" or the thrown error otherwise, and ends not loading |
| Register.TrimStartShape | src/pages/Register.tsx:40 | stripping leading white space leaves nothing exactly for blank strings, and otherwise leaves a string that starts with a non-space character |
| Register.TrimEndKeepsHead | src/pages/Register.tsx:40 | stripping trailing white space never empties a string that starts with a non-space character |
| Register.TrimEmptyIffBlank | src/pages/Register.tsx:40-44 | `s.trim()` is empty iff every character of `s` is white space |
| Register.DotFromCorrect | src/pages/Register.tsx:46 | the scan for the domain's dot succeeds iff a non-space run from the start position reaches a `.` followed by a non-space character |
| Register.AtFromCorrect | src/pages/Register.tsx:46 | the scan for the `@` succeeds iff some later `@` has non-space characters on both sides and a domain dot after it |
| Register.EmailPatternDecided | src/pages/Register.tsx:46 | the executable test is true iff some substring of the email matches `\S+@\S+\.\S+` |
| Register.MatchIsNotBlank | src/pages/Register.tsx:44-48 | an email that matches the pattern is not blank, so "required" and a match never coincide |
| Register.CollectErrors | src/pages/Register.tsx:40-58 | name error iff the name is blank; email "required" iff blank, otherwise "invalid" iff no substring matches; password "required" iff empty, otherwise "too short" iff under 6 characters; mismatch error iff the passwords differ; at most one message per field; no errors iff every field is acceptable |
| Register.RegisterForm.constructor | src/pages/Register.tsx:18-28 | the form starts with no errors shown and no sign-up call |
| Register.RegisterForm.ValidateForm | src/pages/Register.tsx:32-62 | the shown errors are exactly the per-field messages `CollectErrors` states, for all four fields; returns true iff there are none, that is iff every field is acceptable |
| Register.RegisterForm.HandleSubmit | src/pages/Register.tsx:64-75 | shows the per-field messages of validation; `signUp(name, email, password)` is called once exactly when validation passes, and not at all otherwise |
| Checkout.GetPlanDetails | src/components/Checkout/CheckoutForm.tsx:20-43 | solo is ("Solo", 97), discovery is ("Discovery", 297), escala is ("Escala", 997); any other string is ("Desconhecido", 0); the price is positive iff the plan is known |
| Checkout.DisplayedPriceIsCharged | src/components/Checkout/CheckoutForm.tsx:20-43 | for every well-typed plan the default branch is not taken, and the displayed price equals the amount the checkout request sends |
| Checkout.CheckoutForm.constructor | src/components/Checkout/CheckoutForm.tsx:45-48 | the form starts not loading, with no redirect and no toast |
| Checkout.CheckoutForm.HandleCheckout | src/components/Checkout/CheckoutForm.tsx:50-70 | redirects to the returned URL only when it is present and non-empty; otherwise shows the error toast and keeps the location; loading is false afterwards; with a signed-in user the context has posted the plan's request, records the error as the checkout call does and stops loading, and without one the context is unchanged |
| UsageMeter.Percentage | src/components/Subscription/UsageLimit.tsx:12-13 | 0 for an unlimited limit; within [0, 100] for a positive finite limit, and below 100 while usage is below the limit; NaN exactly for 0 of a zero limit |
| UsageMeter.Scale | src/components/Subscription/UsageLimit.tsx:13-15 | comparing `used / limit * 100` with a threshold is the same as comparing `used * 100` with threshold × limit |
| UsageMeter.Thresholds | src/components/Subscription/UsageLimit.tsx:13-15 | with a positive finite limit: near-limit iff 100·used > 80·limit; exceeded iff used ≥ limit |
| UsageMeter.UnlimitedNeverFlagged | src/components/Subscription/UsageLimit.tsx:12-15 | an unlimited resource is neither near its limit nor exceeded |
| UsageMeter.ExceededIsNearLimit | src/components/Subscription/UsageLimit.tsx:14-15 | exceeded implies near-limit |
| UsageMeter.View | src/components/Subscription/UsageLimit.tsx:22-47 | no bar and the "Ilimitado" label iff unlimited; otherwise the count and the bar are red iff exceeded and the bar is amber iff near the limit but not exceeded; with a positive limit, red iff used ≥ limit, amber iff 80% < used < limit, purple iff used ≤ 80% of the limit; with a zero limit, red iff used > 0, else purple (0 of 0 is NaN) |

## Left out

- Payment history (`fetchPayments`, src/contexts/SubscriptionContext.tsx:210-241): a remote query whose only logic is a field-rename map.
- Remote calls are outcomes given as parameters. This covers the storage queries, the `increment_usage` procedure, `fetch` to the checkout endpoint, the tool webhooks and the calls in src/utils/api.ts. The procedure's body, and with it the atomicity of the stored increment, is not part of this model. `ServerIncrement` states what the client assumes it does.
- Concurrency: overlapping asynchronous increments or refreshes, React's batched state updates and stale closures are not modelled. Each method runs to completion, and each reads the state the previous one left.
- Notifications and logging (`toast` in the subscription context, `console.error`). The checkout form's own error toast is kept.
- Authentication (src/contexts/AuthContext.tsx and src/contexts/auth/) is not part of this model. The signed-in user is a parameter, and `signUp` is recorded as a request.
- Rendering-only pages and components, and their one-line label lookups, are not part of this model.
- Dates: `new Date()` is the parameter `now`, and timestamps are integers. Date formatting is not modelled.
- The `plan_type` column is taken to hold one of the three plan names. An unknown string, which would give undefined limits, is not modelled.
- Floating point: the meter's percentage is an exact real. Rounding of `used / limit * 100` at the 80 and 100 thresholds is not modelled.
- Register.CollectErrors: the length check counts Unicode characters. JavaScript's `length` counts UTF-16 code units, so a password with characters outside the Basic Multilingual Plane can differ at the 6-character boundary.
- The `catch` branch of `handleCheckout` is not modelled. `initiateMercadoPagoCheckout` catches its own errors, so the branch cannot be reached.
- `useSubscription` throwing outside its provider is not modelled. It is a React wiring check.
