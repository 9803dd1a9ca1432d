# ResumidorPDF subscription and account routes, in Dafny

This project models the server side of a small subscription web application:
the user document and its schema, the user collection with its unique email
index, and the API routes that act on it. The routes are registration, login,
"current user", the dashboard middleware, checkout (creating a payment
preference at the MercadoPago gateway), and the manual subscription
confirmation. The confirmation is the core: a fixed chain of guards, then one
in-place update of the caller's embedded `subscription`.

Conventions of the model:

- Time is an integer count of milliseconds (`Schema.Millis`). Prices are integer cents.
- The store is the class `Store.UserStore`. It holds a map from id to record and a map from email to id.
  `TableValid` ties the two together and says that every stored record passes the schema.
- Outside libraries are parameters of the members that call them:
  - `jwt.verify` is `verify: string -> Option<string>`; `jwt.sign` is `sign`.
  - `bcrypt.compare` is `matches`; `bcrypt.hash` is `hash`.
  - the gateway's payment lookup is `getPayment`; its preference creation is `create`.
  - a failing database write is `storeError`; the clock is `now`; the environment variables are `nodeEnv` and `baseUrl`.
- The ORM's own rules are modelled where the routes depend on them:
  - `create` and `save` validate the record before it reaches the database. Required strings must be non-empty, and the plan must be in its enum. A valid record can still fail in the database (`storeError`).
  - A lookup by `_id` throws a cast error when its key is not a 24-digit hex ObjectId.
- Each route's answer is a datatype holding the HTTP status and the JSON body it builds.

The modules follow the source files: `Schema` (models/User.ts), `Store` (the
collection), `Cookie` (the cookie split the routes share), `ManualUpdate`,
`Register`, `Login`, `Me`, `Middleware`, `Checkout`, and `PlanIds`, which
relates the plan keys the parts use.

## Model

| member | source | states |
|---|---|---|
| Schema.StatusName | models/User.ts:24-28 | each status is stored as its own one of the four enum strings: `free` exactly for free, `active` exactly for active, `canceled` exactly for canceled, `pending` exactly for pending |
| Schema.DefaultSubscription | models/User.ts:23-37 | a new subscription is `free` on plan `free`, which the plan enum admits; it has no gateway ids and no period end |
| Schema.NewUser | models/User.ts:4-49 | a new record keeps the given email, name, password and token fields; it is unverified, on the default subscription, with 0 summaries used; it validates exactly when email, name and password are non-empty |
| Schema.CanonicalId | app/api/update-subscription-manual/route.ts:46 | an ObjectId cast of a 24-digit hex string gives the same string with each of `A`-`F` lower-cased, which is a canonical id; a string already in that form is its own canonical id |
| Store.EmailIsUnique | models/User.ts:5-9 | under the table invariant, two records with the same email are the same record |
| Store.FindById | app/api/update-subscription-manual/route.ts:46 | a key that is not an ObjectId throws the cast error; otherwise the result is the record under the key's canonical form, present exactly when that id is stored |
| Store.FindByEmail | app/api/login/route.ts:14 | the record found has the requested email and is stored under its id; nothing is found exactly when no record has that email |
| Store.UserStore.Create | app/api/register/route.ts:27-33 | the insert succeeds exactly when the record validates, the store is up and the email is new; it then adds that one record and its index entry. On failure nothing changes, and the error is the validation error first, then the store's own error, then the duplicate key |
| Store.UserStore.Save | app/api/update-subscription-manual/route.ts:111-119 | the save succeeds exactly when the record validates and the store is up; only then is the record replaced. A failure reports the validation error before the store's own; the email index never changes |
| Cookie.FindFrom | app/api/update-subscription-manual/route.ts:17 | the result is the first occurrence of the separator at or after the start, or none when the text has no occurrence |
| Cookie.FirstField | app/api/update-subscription-manual/route.ts:17 | `split(sep)[0]` is the prefix of the text up to the first occurrence of the separator, or the whole text when the separator does not occur |
| Cookie.SecondField | app/api/update-subscription-manual/route.ts:17 | `split(sep)[1]` is undefined exactly when the separator is absent; otherwise it starts right after the first separator and runs to the next separator or to the end |
| Cookie.TokenFromCookie | app/api/user/me/route.ts:9 | the token is undefined exactly when there is no header or no `token=` in it; a token never contains `;` or `token=` |
| Cookie.ExtractsPairValue | app/api/create-payment/route.ts:16 | a header with `token=v` (nothing like it earlier, and `v` ending at `;` or at the end) yields exactly `v`, if `v` holds neither `;` nor `token=` |
| Cookie.CsrfCookieIsTakenForToken | app/api/user/me/route.ts:9 | the header `csrftoken=abc` yields the token `abc` |
| Cookie.CsrfCookieShadowsSessionToken | app/api/user/me/route.ts:9 | `csrftoken=abc; token=xyz` also yields `abc`: the earlier cookie hides the real `token` |
| ManualUpdate.PlanOf | app/api/update-subscription-manual/route.ts:93 | the plan is the payment's metadata plan when it is non-empty, and `mensual` otherwise |
| ManualUpdate.PeriodMillis | app/api/update-subscription-manual/route.ts:92-97 | the period is 365 days of milliseconds exactly when the plan is `anual`, and 30 days for every other plan string |
| ManualUpdate.PeriodBase | app/api/update-subscription-manual/route.ts:101-104 | the base is the existing period end or now, whichever is later |
| ManualUpdate.Decimal | app/api/update-subscription-manual/route.ts:108 | `toString()` of a payment id is a non-empty string of decimal digits, with no leading zero unless the id is 0 |
| ManualUpdate.DecimalRoundTrip | app/api/update-subscription-manual/route.ts:108 | the stored subscription id reads back as the payment's numeric id |
| ManualUpdate.Activate | app/api/update-subscription-manual/route.ts:89-109 | the subscription becomes active on the payment's plan. The new end is the base plus the plan's period, so it is at least now plus the period and at least the old end plus the period: no paid time is lost. The customer id is kept. The subscription id becomes the payment id only when the payment has a truthy id |
| ManualUpdate.Checks | app/api/update-subscription-manual/route.ts:17-85 | the request proceeds only when every guard passes. A missing or empty token gives 401, a token that does not verify gives 401, and a missing payment id gives 400, whatever the store and the gateway hold |
| ManualUpdate.LaterGuardsAnswer | app/api/update-subscription-manual/route.ts:43-85 | after those three guards, the answers come in this order: cast error 500, no user 404, gateway error 500, no payment 200, not approved 200, someone else's payment 403 |
| ManualUpdate.AuthorizedRequestProceeds | app/api/update-subscription-manual/route.ts:17-86 | a request that passes every guard proceeds with the caller's record and the payment |
| ManualUpdate.Confirm | app/api/update-subscription-manual/route.ts:88-123 | every guard answers with the table unchanged, and an already-active caller gets the success answer with the table unchanged. Otherwise the caller's record gets the activated subscription: if it validates and the store is up, the answer is "updated" with only that record replaced; if not, the answer is 500 with the table unchanged. The table changes exactly when the answer is "updated", and no record is ever added or removed |
| ManualUpdate.ConfirmWritesOnlyThePayer | app/api/update-subscription-manual/route.ts:79-109 | the only record that can change belongs to the caller, whom the approved payment references. It changes only from a non-active status, and only to the activated subscription |
| ManualUpdate.ConfirmIsIdempotent | app/api/update-subscription-manual/route.ts:89-122 | after a confirmation that updated the subscription, confirming the same payment again answers "already active" and changes nothing, whatever the clock or the store say |
| ManualUpdate.UpdateSubscriptionManual | app/api/update-subscription-manual/route.ts:11-132 | the route run against the store gives the answer and the new table that `Confirm` gives, keeps the store invariant, and leaves the email index alone |
| Register.Record | app/api/register/route.ts:20-33 | the new record holds the hashed password, the verification token and an expiry one hour (3,600,000 ms) after now; it is unverified and on the free plan |
| Register.Outcome | app/api/register/route.ts:13-48 | a known email gives 400. Otherwise the answer is 201 exactly when the record validates and the store is up, with only name, email and `isVerified = false` in the body. Any other failure gives 500 with the validation error, or else with the store's message (the fixed server-error text when that message is empty) |
| Register.Register | app/api/register/route.ts:7-50 | the route against the store answers as `Outcome`, whatever the mailer does. On 201 the table gains exactly the new record and its index entry; otherwise nothing changes |
| Login.StatusText | app/api/login/route.ts:55 | the reported status is the stored status's name (`active` exactly for an active subscription), so the `inactive` fallback never shows |
| Login.Cookie | app/api/login/route.ts:60-67 | the cookie is `token`, httpOnly, sameSite `strict`, with a max age of 86,400 s; it is secure exactly when `NODE_ENV` is `production` |
| Login.Login | app/api/login/route.ts:7-78 | login succeeds exactly when a verified record has the email and its hash matches. An unknown email gives 401 and an unverified account gives the verify-email 401. On success the body holds id, name, email and status, and the cookie carries a token signed over `{userId}` that expires after 24 h |
| Login.UnverifiedAnswerIgnoresPassword | app/api/login/route.ts:24-32 | verification is checked before the password: an unverified account gets the same answer for every password |
| Login.WrongPasswordLooksLikeUnknownEmail | app/api/login/route.ts:16-39 | a wrong password and an unknown email give the same 401 answer |
| Me.PublicForgetsOnlySecrets | app/api/user/me/route.ts:34 | two records look the same after the projection exactly when they differ at most in password, verification token and expiry |
| Me.Me | app/api/user/me/route.ts:7-51 | a missing or empty token gives 401 and a token that does not verify gives 401. A decoded id that is not an ObjectId gives 500, and one that finds no record gives 404. The profile is returned exactly when the id finds a record, and it is that record without its secrets |
| Me.JwtTextHasNoSeparators | app/api/user/me/route.ts:9 | a JSON Web Token contains neither `;` nor `token=`, so the cookie split cannot cut it short |
| Me.LoginSessionReachesProfile | app/api/login/route.ts:60-67 | the cookie a successful login sets, sent back after any cookies free of `token=`, brings this route to the account's public profile |
| Middleware.Decide | middleware.ts:4-14 | there is a redirect to `/login` exactly when the token is missing or empty and the path starts with `/dashboard`; every other request passes |
| Middleware.Run | middleware.ts:16-19 | with the matcher applied, a request is redirected exactly when it has no token and its path is `/dashboard` or below; other paths always pass |
| Middleware.OnlyPresenceIsChecked | middleware.ts:6-13 | any two non-empty tokens are treated alike: the token's validity is never checked |
| Middleware.PrefixTestIsRedundantUnderMatcher | middleware.ts:9-18 | every path the matcher selects starts with `/dashboard`; `/dashboardx` passes the prefix test but is not selected |
| Checkout.SelectPlan | app/api/create-payment/route.ts:37-71 | only `pro` and `enterprise` select a plan. A name inherited from `Object.prototype` selects an inherited member, and every other value selects nothing |
| Checkout.SplitJoinLines | app/api/create-payment/route.ts:78 | the description is the features joined by line breaks; splitting it at line breaks gives the features back |
| Checkout.BuildPreference | app/api/create-payment/route.ts:74-96 | there is exactly one item, with quantity 1, currency `PEN`, the plan's name, price and joined features. The external reference and `metadata.userId` are the user's id, and `metadata.plan` is the key. The back URLs and the notification URL are the base URL (or `undefined`) plus fixed suffixes |
| Checkout.CreatePayment | app/api/create-payment/route.ts:11-111 | a missing token gives 401. A token that is not an ObjectId gives 500, and one that finds no record gives 404. For a found user, an unknown plan gives 400, an inherited `prices` member gives 500, and an own plan sends the preference to the gateway: its answer is returned on success, and a gateway failure gives 500 |
| Checkout.MissingTokenIgnoresStore | app/api/create-payment/route.ts:16-23 | with no token the answer does not depend on the store |
| Checkout.SessionTokenNeverFindsUser | app/api/create-payment/route.ts:28 | a token holding a `.`, as every JSON Web Token from login does, fails the `_id` cast, and the route answers 500 |
| Checkout.InheritedKeyIsServerError | app/api/create-payment/route.ts:64-71 | for a known user, plan `toString` gives 500 while an unknown key such as `plus` gives 400 |
| PlanIds.PricingKeysNeverReachGateway | app/pricing/page.tsx:135 | the keys the pricing page sends, `mensual` and `anual`, select no plan, so checkout never reaches the gateway with them |
| PlanIds.CheckoutKeysBuyThirtyDays | app/api/create-payment/route.ts:38-62 | every key checkout accepts is admitted by the schema and buys 30 days, never 365 |
| PlanIds.ManualPlansFailValidation | models/User.ts:29-33 | for a caller not yet active, an authorized confirmation of a payment whose plan is `mensual` (the default) or `anual` fails validation when saved. The answer is 500 and the table is unchanged |
| PlanIds.AllowedPlanActivates | app/api/update-subscription-manual/route.ts:88-115 | an authorized confirmation for a caller who is not yet active, whose record validates and whose payment plan passes the enum, with the store up, answers "updated" and stores the activated subscription |
| PlanIds.CheckoutPaymentActivates | app/api/update-subscription-manual/route.ts:89-115 | a payment built from this user's checkout preference, once approved and confirmed, activates the subscription on the checkout key for 30 days from the period base |

## Divergences between the parts

These are stated as lemmas about the code as written. The model does not repair them.

- The pricing page sends `mensual` or `anual`, and checkout accepts only `pro` or `enterprise` (`PlanIds.PricingKeysNeverReachGateway`).
- The confirmation writes the payment's plan and falls back to `mensual`. The schema's plan enum rejects `mensual` and `anual` at `save()`, so such confirmations answer 500 for a caller not yet active (`PlanIds.ManualPlansFailValidation`). An already-active caller gets the 200 "already active" answer without a save.
- Only keys that checkout produces reach the subscription, and none of them is `anual`, so the 365-day branch is never taken on that path (`PlanIds.CheckoutKeysBuyThirtyDays`).
- Checkout uses the raw cookie value as `_id`, where the other routes decode the JSON Web Token first. A session cookie set by login therefore fails the ObjectId cast (`Checkout.SessionTokenNeverFindsUser`).
- The shared cookie split also matches cookies such as `csrftoken=` (`Cookie.CsrfCookieIsTakenForToken`, `Cookie.CsrfCookieShadowsSessionToken`).
- `prices[plan]` also finds `Object.prototype` members. Those end in a thrown `TypeError` and a 500 instead of the 400 for an unknown plan (`Checkout.InheritedKeyIsServerError`).

## Left out

- The webhook route (app/api/webhooks/mercadopago/route.ts): it answers 200 to every request; there is no signature check and no status mapping to model.
- The React pages and components: presentation and `fetch` calls. Only the plan keys of app/pricing/page.tsx:135 appear, as constants.
- app/api/users/route.ts passes its body straight to `User.create`; app/api/verify-email/[token]/route.ts is not part of this model.
- lib/mailer.ts: delivery is I/O. Its only effect on the model is that it swallows its own errors, so `Register.Register` takes the delivery outcome as an ignored parameter.
- bcrypt, jsonwebtoken, the MercadoPago SDK and the database connection are parameters. A failing `connectMongoDB`, and the exact text of the ORM's validation and duplicate-key messages, are not modelled.
- Request bodies are modelled as already parsed. Register, login and checkout read the body first, so a malformed body answers 500 before any other check. The manual confirmation reads it only after the token guards (app/api/update-subscription-manual/route.ts:35), where a malformed body would also end in 500. None of these 500s is modelled.
- Login.Login: takes `email` and `password` as strings. A body without `password` makes `bcrypt.compare` throw, and the route answers 500 (app/api/login/route.ts:32, 71-77); the model has no such answer. A failing database is not modelled either.
- Register.Register: takes `name`, `email` and `password` as strings. A missing field (`undefined`) is not modelled. Neither is the ORM dropping `email: undefined` from the duplicate-email query.
- Register.Record: the random base-36 verification token is an opaque parameter. The password hash is `hash(password)` for an opaque `hash`, so "never the plaintext" holds only as far as bcrypt's output differs from its input.
- Store.FindById: takes a cast to succeed only for 24 hex digits. The ORM's acceptance of other forms, such as 12-byte strings, is not modelled.
- ManualUpdate.Checks: `paymentId` is an optional string, and a number in the body is not modelled. The gateway's `id` is a natural number; 0 counts as absent because it is falsy.
- Login.StatusText: a record read from the database without any `subscription` (the `inactive` case) is not modelled, because the schema's default always supplies one.
- Middleware.Run: `/dashboard/:path*` is taken as `/dashboard` and every path below it. The matcher library's finer rules are not modelled.
- Date arithmetic beyond the range of JavaScript dates, concurrent confirmations racing on `currentPeriodEnd`, and all console logging.
- Prices: 9.99 and 29.99 are integer cents 999 and 2999.
