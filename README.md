# Billing glue of the Payload 3.0 starter, in Dafny

This project models the part of the Payload 3.0 starter that ties the Payload
CMS collections to the Stripe billing provider, and proves properties of that
model. It covers:

- **Price mirroring.** The product collection's `populatePrices` hook works out
  which provider prices have no local document, has them created, and rewrites
  the product's `prices`.
- **The price collection's hooks.** The create-only hook builds the
  `prices.create` request and records the new Stripe id. The back-link hook
  fills `product` from the `prod_` id.
- **The enum tables** and the select options built from them.
- **`payloadUpsert`.** It finds a document with `limit: 1`, then updates it by
  id or creates a new one. Errors of the store's `find`, `update` and
  `create` come back as one collection-qualified error.
- **`GET /api/payments`.** The route chooses the customer ids: a `uid`
  metadata search takes precedence over the user's own customer id. It then
  fetches every customer's charges and invoices, normalises both into one
  record shape, concatenates them and stably sorts them newest first.
- **`createCheckoutSession`** (redirect URLs, request shape, tagged result) and
  the `POST /api/create-checkout-session` validation chain.
- **The users collection.** The `afterChange` hook decides between creating and
  updating a customer, maps the profile fields, and writes `stripeCustomerId`
  back. The `/refresh-token` endpoint is modelled as its response chain.
- **The product card.** It chooses which price to show and builds the price
  label.

Stripe, the Payload store's `find` in the collection hooks, and `ensurePriceExist` are
function-valued parameters (oracles). The store behind `payloadUpsert` is the class
`Upsert.DocumentStore`. The answers of the auth helpers (`auth`, `getCurrentUser`,
the auth-cookie search) are plain input values.
A call that throws is `None` or an error constructor. Values that JavaScript
tests for truthiness are `Option`s, and `Base.Truthy` says when they count as
set. Document ids are natural numbers, and 0 is the only falsy id. Money is in
integer cents.

Where the code does something step by step, the model is imperative:

- The hook `data` objects of the price and product collections
  (`StripeCollections.PriceData`, `StripeCollections.ProductData`) are classes
  whose fields the hooks assign.
- The Payload store behind `payloadUpsert` is the class
  `Upsert.DocumentStore`, a map from ids to documents plus the order that
  `find` lists them in. Its `Upsert` method is proved equal to the pure step
  `UpsertStep`, and the upsert lemmas are stated about `UpsertStep`.
- The user collection is the class `Users.UserStore`.
- The payments route's customer-id selection and its per-customer fetches are
  a method with loops, proved against `Gather` and `MergePayments`.

Where one might expect otherwise, the model follows the code:

- A customer is created whenever the written user has a `uid` and no customer
  id, on updates as well as on creates.
- `createCheckoutSession` itself does not check for an empty `priceId`, and it
  calls the provider anyway. Only the route refuses a falsy `priceId` before
  any call.
- A `redirects: null` in the checkout request body makes
  `createCheckoutSession` throw before its `try`, so the route answers 500.
- In `/refresh-token`, a request URL that is present but does not parse
  makes `new URL` throw before the `try`, so the exception leaves the
  handler instead of becoming a 401.
- The users `afterChange` hook awaits `revalidateUser` outside any `try`. If
  it throws, the hook fails before any provider call.

## Model

| member | source | states |
|---|---|---|
| StripeCollections.FormatOptions | src/payload/collections/stripe/index.ts:96 | one option per table entry, same count and order, value = key and label = display text |
| StripeCollections.PriceSelectOptionsMatchEnums | src/payload/collections/stripe/index.ts:73-96 | distinct interval and pricing-type values have distinct keys; the select options list exactly the enum keys in declaration order; the status select has eight options |
| StripeCollections.PriceCreateRequest | src/payload/collections/stripe/index.ts:156-167 | the request carries product, amount and currency; `recurring` is present iff the type is recurring; `interval_count` is the given count when truthy, else 1, never 0 |
| StripeCollections.CreatePriceInProvider | src/payload/collections/stripe/index.ts:146-176 | no-op unless create; without a `prod_` product id it throws 'Invalid Stripe Product ID' and sends nothing; otherwise it sends the request, and on success sets `stripeID` to the new id; a provider error is rethrown with `stripeID` untouched |
| StripeCollections.PopulateProductLink | src/payload/collections/stripe/index.ts:10-26 | without a `prod_` id no lookup happens and `product` is unchanged; otherwise it looks up that id and links the first product if its id is truthy, leaving `product` unchanged when none is found |
| StripeCollections.PriceBeforeChange | src/payload/collections/stripe/index.ts:145-178 | the create hook runs before the back-link hook; on a create with a `prod_` product id it sends the request built from the price, and on success records the new id in `stripeID` and goes on to link the product, while a provider error is rethrown with `stripeID` untouched; once it throws, no lookup happens and neither `stripeID` nor `product` changes; a product id without `prod_` throws 'Invalid Stripe Product ID'; an update never contacts the provider; when the chain goes on without a `prod_` id, `product` is unchanged |
| StripeCollections.PopulatePrices | src/payload/collections/stripe/index.ts:28-62 | without a `prod_` Stripe id nothing is requested and `prices` is unchanged; otherwise the local lookup is made with the listed ids in provider order, exactly the missing prices are passed to `ensurePriceExist`, once each and in provider order, and `prices` becomes one `{price: id}` row per found document followed by one per non-null new document, in that order |
| StripeCollections.MissingPricesAreTheAbsentOnes | src/payload/collections/stripe/index.ts:45-47 | a listed price is requested as often as the provider lists it if its id has no local document, and never if it has one |
| StripeCollections.MissingPricesRequestedOnce | src/payload/collections/stripe/index.ts:45-55 | with distinct provider ids, each price without a local document is requested exactly once and every other price zero times |
| StripeCollections.PresentKeepsExactlyTheDocuments | src/payload/collections/stripe/index.ts:56 | dropping null results keeps every returned document with its multiplicity, and adds nothing |
| StripeCollections.PresentDropsOnlyNulls | src/payload/collections/stripe/index.ts:56 | the filter never lengthens the list, and with no null results it keeps every one |
| StripeCollections.NothingMissingKeepsFoundDocs | src/payload/collections/stripe/index.ts:49-59 | when every listed price has a local document, nothing is requested and `prices` are exactly the found documents' rows |
| Payments.SearchQueryRoundTrip | src/app/api/payments/route.ts:37-39 | the search query embeds the uid verbatim (it reads back exactly) and is 18 characters longer than the uid |
| Payments.IdSourceOf | src/app/api/payments/route.ts:35-47 | the uid search is used iff the uid is truthy, and then its query carries that uid; the direct customer id is used iff the uid is falsy and the customer id truthy |
| Payments.Gather | src/app/api/payments/route.ts:57-60 | `Promise.all`: succeeds iff every call succeeds, and then holds every answer in id order |
| Payments.FetchEach | src/app/api/payments/route.ts:57-60 | the fetch loop issues one call per id in order and its result is exactly the `Promise.all` result |
| Payments.FromCharge | src/app/api/payments/route.ts:74-82 | a charge keeps its id, amount, currency, description, created and status, and `receipt_url` becomes `receiptUrl` |
| Payments.FromInvoice | src/app/api/payments/route.ts:85-93 | an invoice's `amount_paid` becomes `amount` and `hosted_invoice_url` becomes `invoiceUrl`; id, currency, description, created and status are kept |
| Payments.ChargePaymentsLength | src/app/api/payments/route.ts:73-83 | the flattened charges are as many as all customers' charges together |
| Payments.InvoicePaymentsLength | src/app/api/payments/route.ts:84-94 | the flattened invoices are as many as all customers' invoices together |
| Payments.SortByCreatedDescFacts | src/app/api/payments/route.ts:95 | the sort output is non-increasing in `created`, a permutation of its input, and stable: the records of each instant keep their input order |
| Payments.MergePaymentsFacts | src/app/api/payments/route.ts:72-95 | the history holds every charge and invoice exactly once and is newest first; among records with equal `created`, charges come before invoices and each keeps its customer order |
| Payments.NewerInvoiceFirst | src/app/api/payments/route.ts:95 | a charge at 100 and an invoice at 200 come out invoice first |
| Payments.Get | src/app/api/payments/route.ts:13-103 | no session gives 401 with no provider call; no customer ids give an empty history with no charge or invoice call; a failed call gives 500 'Failed to fetch payment history'; otherwise 200 with the merged history, after the search call (if any), then one charges call per customer id in id order, then one invoices call per customer id in id order |
| Upsert.FirstMatch | src/payload/utils/upsert.ts:18-25 | `find` with `limit: 1`: the first listed document matching the filter, and no match exists before it; none iff nothing matches |
| Upsert.DocumentStore.Upsert | src/payload/utils/upsert.ts:11-46 | the store's new state and the result are exactly one upsert step on the old state, and the store stays well formed |
| Upsert.UpsertKeepsWellFormed | src/payload/utils/upsert.ts:25-41 | after an upsert every stored id is listed once and stays below the next id |
| Upsert.UpsertUpdatesFirstMatch | src/payload/utils/upsert.ts:25-33 | when the first match has a truthy id, exactly that document is replaced by `data` and returned; no document is created and no other changes |
| Upsert.UpsertCreatesWithoutTruthyMatch | src/payload/utils/upsert.ts:25-41 | with no match or a falsy first id, exactly one new document holding `data` is created under a fresh truthy id and returned; existing documents are untouched |
| Upsert.UpsertCount | src/payload/utils/upsert.ts:25-41 | the document count grows by one iff the upsert creates, which happens iff the store works and there is no truthy first match; otherwise it is unchanged |
| Upsert.UpsertCreatesIffNoMatch | src/payload/utils/upsert.ts:18-41 | in a well-formed store a working upsert creates iff no stored document matches the filter, and then the document count grows by one; otherwise it is unchanged |
| Upsert.UpsertFailureWritesNothing | src/payload/utils/upsert.ts:42-45 | a store error writes nothing and yields 'Failed to upsert document in collection ' followed by the collection |
| Upsert.MatchMeansUpdate | src/payload/utils/upsert.ts:25-26 | a well-formed store holds no falsy id, so any document matching the filter makes the upsert an update |
| Upsert.UpsertTwiceCreatesAtMostOnce | src/payload/utils/upsert.ts:18-41 | a second upsert of the same data under a filter it satisfies updates instead of creating, so two upserts add at most one document |
| Checkout.RedirectUrls | src/payload/stripe/actions/createPaymentIntent.ts:14-15 | the success URL is the caller's URL, or the site URL plus '/subscription-success', always followed by the session-id query; the cancel URL is the caller's or the site URL with no suffix; an unset site URL prints as 'undefined' |
| Checkout.SessionRequest | src/payload/stripe/actions/createPaymentIntent.ts:18-30 | subscription mode, card only, exactly one line item of quantity 1 for the price, the given customer; the success URL is the caller's or the site's confirmation page followed by the session-id query, and the cancel URL is the caller's or the site URL |
| Checkout.CreateCheckoutSession | src/payload/stripe/actions/createPaymentIntent.ts:9-41 | success iff the provider returns a truthy session id, and then that id; a falsy id gives 'Checkout session creation failed'; a thrown Error gives its message and anything else 'Unknown error' |
| CheckoutRoute.Post | src/app/api/create-checkout-session/route.ts:5-32 | 401 iff no user; the body is read only for a user with a customer id (else 400); the session is issued iff the body has a truthy priceId (else 400), and when the redirects can be read the request sent is the one built from that price, the user's customer id and the body's redirects (`{}` when left out); in the model, 500 'Internal server error' iff the body or the redirects cannot be read; the provider's answer to that request alone decides the reply: 200 with a truthy session id, 400 'Checkout session creation failed' for a falsy one, 400 with the thrown Error's message or 'Unknown error'; statuses are only 200, 400, 401, 500 |
| Users.AddressParamsOf | src/payload/collections/users.ts:97-106 | each address field is sent unchanged when truthy and left out when falsy, with `postalCode` sent as `postal_code` |
| Users.CustomerParamsOf | src/payload/collections/users.ts:93-111 | each truthy profile field is sent unchanged and each falsy one left out; the address is sent iff the profile has one; the metadata carries the uid as it is and the company name |
| Users.ShouldUpdateCustomer | src/payload/collections/users.ts:127 | an update is sent only on an update operation and never for a user the hook would create a customer for |
| Users.UserStore.AfterChange | src/payload/collections/users.ts:86-152 | a failing `revalidateUser` throws out of the hook before any provider call, with nothing written; otherwise a uid without a customer id gives exactly one create call, on any operation; an update with a customer id gives exactly one update call with the same mapping; otherwise no call; a created id is written back to that user and nothing else changes; provider errors never fail the hook |
| Users.ExpirySeconds | src/payload/collections/users.ts:54 | the expiry in whole seconds, rounded down: exp·1000 ≤ ms < exp·1000 + 1000 |
| Users.RefreshToken | src/payload/collections/users.ts:26-66 | 400 iff the request has no URL; a URL that does not parse throws out of the handler; a thrown fetch, a body that is not JSON or a not-ok answer gives 401 'Token refresh failed'; no user and no cookie give their 401 texts; the handler succeeds iff every check passes, and success carries the message 'Token refresh successful', the upstream status and user, the cookie's token, and an `exp` present iff the cookie has an expiry |
| Base.Find | src/components/ProductCard.tsx:16-19 | `find`: the first entry satisfying the predicate, with none before it; none iff no entry satisfies it |
| ProductCard.DisplayPrice | src/components/ProductCard.tsx:15-27 | a price is shown iff some entry is an active expanded monthly-recurring or one-time price; the shown price is active and one of those two kinds |
| ProductCard.FirstMonthlyIsShown | src/components/ProductCard.tsx:16-19 | the first active expanded monthly price is shown, even when one-time prices precede it |
| ProductCard.FirstOneTimeIsShown | src/components/ProductCard.tsx:21-27 | with no qualifying monthly price, the first active expanded one-time price is shown |
| ProductCard.OtherIntervalsShowNothing | src/components/ProductCard.tsx:16-27 | unexpanded, null and inactive prices are never shown, so a product whose usable prices recur only daily, weekly or yearly shows no price |
| ProductCard.NatToDecimal | src/components/ProductCard.tsx:62 | decimal digits only, at least one, and no leading zero |
| ProductCard.DecimalRoundTrip | src/components/ProductCard.tsx:62 | the decimal text of a number reads back as that number |
| ProductCard.TwoDigits | src/components/ProductCard.tsx:62 | the cents are always two digits, zero-padded, and read back exactly |
| ProductCard.AmountRoundTrip | src/components/ProductCard.tsx:62 | the amount text is '$', whole dollars, '.', two digits, and reads back as exactly the cents it came from |
| ProductCard.Label | src/components/ProductCard.tsx:62-63 | the amount reads back as `unitAmount`, or 0 when it is missing; the '/interval' suffix is present iff the price is recurring and has an interval, and then it names that interval |

## Left out

- Authentication and session lookup (`auth`, `getCurrentUser`), cookie parsing and the auth-cookie search (`parseCookieString`, `findAuthJsCookie`) are foreign helpers. Their answers are inputs: the session user, the route user, and the auth cookie found.
- A throw from those helpers, or from `getPayload`, is not modelled. In the source, `auth()` throwing gives 500 'Failed to fetch payment history'; `getCurrentUser()` throwing gives 500 'Internal server error'; `parseCookieString` or `findAuthJsCookie` throwing gives 401 'Token refresh failed'; and `getPayload()` runs before the `try` of `payloadUpsert`, so its error escapes without the collection-qualified message.
- Logging (`console.log` and `console.error`) has no effect on results, so it is not modelled.
- Users.UserStore.AfterChange: what `revalidateUser` does to the cache is not modelled; only whether it throws is, as the input `revalidated`.
- Users.UserStore.AfterChange: the `payload.update` write-back runs the users hooks again. That nested run, which sends an update for the new customer, is not modelled. The nested run is Payload's behaviour, not this hook's.
- Users.RefreshToken: the forwarded response headers and `Set-Cookie` are not modelled. An expiry date whose time is not a number (JSON `null`) is not modelled either; expiries are integers.
- Upsert.DocumentStore.Upsert: Payload's partial-update merge is modelled as replacing the document with `data`. Store calls are modelled as a single possible failure (`storeFails`): whichever call throws, nothing is written and the same error comes back.
- Upsert.FirstMatch: `find` lists documents in the store's insertion order; the store's default sort is not modelled.
- StripeCollections.PopulatePrices: a throw from `prices.list`, `payload.find` or `ensurePriceExist` propagates out of the hook. The model takes their answers as given and does not model those failures.
- Pagination is not modelled. This covers the provider's 100-price page, Payload's default page size, and the first-page-only charge and invoice lists; their results are given sequences.
- Concurrency is not modelled. The `Promise.all` fan-outs are sequential, in list order, and fail as a whole when one call fails. The find-or-create race in `payloadUpsert` and the duplicate-customer race in the users hook are out of scope.
- ProductCard.Label: `toFixed(2)` on the floating-point dollar amount is modelled as the exact decimal value of the integer cents. Float rounding is not modelled.
- The access-control predicates (`isAdmin`, `isAdminOrStripeActive`, …) are not part of this model, and neither are the collections' field layout beyond the fields the hooks read.
- The subscription reconciler and the status-to-colour mapping are not part of this model; their source is not among the files modelled.
- `CheckoutButton` posts `items` and tests `data.success`, which the route neither reads nor returns. The route is modelled as written, and the button is not part of this model.
- React rendering, UI state, and date and currency display formatting are not modelled.
