# Inventory app core: request gateway, retry policy, uninstall cascade

A Dafny model of the decision logic of a merchant inventory app built on an
e-commerce platform's admin API:

- **Errors** (`app/lib/error/errors.ts`): the two error classes
  `ShopifyApiError` (message, optional code, optional user errors) and
  `RateLimitError` (message, defaulting to "Rate limit exceeded") as one closed
  datatype `AppError`.
- **Gateway** (`graphqlQuery` in `app/lib/api/graphql.ts`): one transport
  outcome (a parsed body, or a thrown value) is classified into a payload, a
  `RateLimitError` or a `ShopifyApiError`. The code reads the body's `data`
  field as the envelope: `data.errors` (a truthiness test, so an empty array
  also fails), then `data.extensions.cost.throttleStatus.currentlyAvailable === 0`,
  then returns `data.data`. A missing `data` makes the rate-limit check read
  from `undefined`; the resulting TypeError is wrapped as "API request failed: …".
  An empty `errors` array is truthy, so it fails the call before the quota is
  read (`EmptyErrorsStillFail`).
- **Operations**: `findProductByBarcode`, `adjustInventory`, `getLocations`
  and `getInventoryLevel`. Each takes the admin client as a function from the
  request sent to the transport outcome and projects the gateway's payload. A
  missing payload (`data.data` undefined) makes each of them throw a raw
  TypeError, outside the gateway's `catch`, exactly as the code does.
- **Retry** (`retryWithBackoff`): an imperative loop over attempts. `fn` is
  given as the outcome of its k-th call; the sleeps are returned as the list of
  requested delays `initialDelay * 2^attempt`. With `maxRetries <= 0` the loop
  never runs and the helper throws the never-assigned `lastError`
  (`UnassignedLastError`).
- **Uninstall** (`action` in `app/routes/webhooks.app.uninstalled.tsx`): a
  class `Store` whose fields are the shop, settings, product-history,
  product-cache, location-cache, job and session tables. `Action` has the
  handler's three exits (no session, no shop row, full delete) and its error
  path. The foreign-key cascade of the shop delete, which the code relies on
  but does not perform, is part of `DeleteShop`'s contract (`CascadeDelete`).
  Store failures are injected by a `Fault` parameter naming the statement that
  throws; a failing statement changes nothing.

## Model

| member | source | states |
|---|---|---|
| `Errors.NewShopifyApiError` | app/lib/error/errors.ts:1-9 | the error keeps the message, code and user errors exactly as passed and is named "ShopifyApiError" |
| `Errors.NewRateLimitError` | app/lib/error/errors.ts:12-17 | the error is named "RateLimitError"; without an argument its message is "Rate limit exceeded", otherwise the given one |
| `Errors.NameDeterminesKind` | app/lib/error/errors.ts:8-15 | two errors have the same name exactly when they are of the same kind |
| `Gateway.GraphqlQuery` | app/lib/api/graphql.ts:6-37 | thrown values go through the catch block; a body without `data` fails as "API request failed: Cannot read properties of undefined (reading 'extensions')"; present `errors` always give "GraphQL error: …" whatever the throttle status; success exactly when there are no errors and the available quota is not 0, returning `data.data` unchanged; a rate limit arises exactly from a thrown one or an error-free envelope with quota 0 |
| `Gateway.Wrap` | app/lib/api/graphql.ts:29-35 | application errors pass through unchanged; a result is a rate limit exactly when the thrown value was one; any other `Error` becomes a `ShopifyApiError` without code or user errors whose message is "API request failed: " followed by its message, and a value that is not an `Error` gives "API request failed: Unknown error" |
| `Gateway.EmptyErrorsStillFail` | app/lib/api/graphql.ts:16-21 | an empty `errors` array still fails, with the bare "GraphQL error: " message, whatever the throttle status or payload |
| `Gateway.ErrorsJoinedInOrder` | app/lib/api/graphql.ts:16-20 | the "GraphQL error: " message splits, after any prefix of the error list, into the joined messages of that prefix, ", ", and the joined rest: the messages appear in their original order |
| `Gateway.JoinSplit` | app/lib/api/graphql.ts:17-19 | `join` of a list is the join of any non-empty prefix, the separator, and the join of the rest |
| `Gateway.JoinSnoc` | app/lib/api/graphql.ts:17-19 | appending one part to a joined list adds the separator and that part at the end |
| `Gateway.ErrorAppendedLast` | app/lib/api/graphql.ts:16-20 | one more error in the list appends ", " and its message (or nothing for a missing message) at the end of the "GraphQL error: " message |
| `Gateway.Messages` | app/lib/api/graphql.ts:17-18 | one message per error, in order; a missing message renders as the empty string |
| `Gateway.CurrentlyAvailable` | app/lib/api/graphql.ts:24 | the optional chain yields a value exactly when every link is present, and that value is the leaf `currentlyAvailable` |
| `Operations.SearchQuery` | app/lib/api/graphql.ts:87 | the search string is "barcode:", the barcode, " OR sku:", the barcode, at those positions |
| `Operations.FirstNode` | app/lib/api/graphql.ts:125-126 | null exactly when there are no edges, otherwise the first edge's node |
| `Operations.FindProductByBarcode` | app/lib/api/graphql.ts:48-127 | sends the barcode-or-SKU search; gateway errors propagate; a missing payload throws the TypeError of reading `products`; otherwise null exactly for no edges, else the first edge's node |
| `Operations.AdjustInventory` | app/lib/api/graphql.ts:141-210 | sends one change with the given delta, item, location and reason; non-empty user errors throw a `ShopifyApiError` with the first one's message, code "USER_ERROR" and the full list; none give `success: true` with the adjustment group |
| `Operations.Nodes` | app/lib/api/graphql.ts:261 | one node per edge, in edge order |
| `Operations.GetLocations` | app/lib/api/graphql.ts:220-262 | gateway errors propagate; a missing payload throws; otherwise the location nodes in edge order |
| `Operations.FirstNamed` | app/lib/api/graphql.ts:306-308 | the index found names the entry, and no earlier entry has that name; none found means no entry has it |
| `Operations.AvailableQuantity` | app/lib/api/graphql.ts:306-310 | a quantity exactly when item, level and an "available" entry all exist; it is the quantity of the first such entry |
| `Operations.GetInventoryLevel` | app/lib/api/graphql.ts:272-311 | gateway errors propagate; a missing payload throws; otherwise the first "available" quantity or null |
| `Retry.RetryWithBackoff` | app/lib/api/graphql.ts:316-340 | no call and an unassigned `lastError` exactly when `maxRetries <= 0`; otherwise at most `maxRetries` calls, every call but the last rate limited, the last not rate limited unless it was the final attempt, a success of the last call returned as-is and a failure rethrown as the same value; one delay `initialDelay * 2^a` before retry a+1 |
| `Retry.TotalDelay` | app/lib/api/graphql.ts:330 | n doubling delays add up to `initialDelay * (2^n - 1)` |
| `Retry.TwoRateLimitsThenSuccess` | app/lib/api/graphql.ts:316-340 | with the defaults, two rate limits then a success give three calls, delays 1000 and 2000 (3000 in all) and the success value |
| `Retry.NonRateLimitNotRetried` | app/lib/api/graphql.ts:326-335 | for any `fn` and any delay, a first call that fails with anything but a rate limit is rethrown unchanged after exactly one call and no delay |
| `Uninstall.CascadeComplete` | app/routes/webhooks.app.uninstalled.tsx:71-76 | deleting a shop with the declared cascade keeps the store's constraints and leaves no settings, history, cache, location-cache or job row with its id; sessions are untouched |
| `Uninstall.UninstallEmptiesDomain` | app/routes/webhooks.app.unistalled.test.ts:38-108 | after the shop delete and the session delete nothing of the domain remains |
| `Uninstall.CascadeKeepsDistinct` | app/routes/webhooks.app.uninstalled.tsx:71-76 | the cascade of one shop leaves the shop row, settings and dependents of every shop with another id as they were |
| `Uninstall.UninstallKeepsDistinct` | app/routes/webhooks.app.uninstalled.tsx:74-81 | a domain whose shop id differs keeps its shop row, dependents and sessions |
| `Uninstall.UninstallScope` | app/routes/webhooks.app.uninstalled.tsx:74-81 | the full delete empties the domain and leaves every other domain's slice of the store exactly as it was |
| `Uninstall.RemoveSessionsScope` | app/routes/webhooks.app.uninstalled.tsx:52-58 | on the no-shop branch the domain is left with nothing and every other domain is unchanged |
| `Uninstall.RemoveSessionsIdempotent` | app/routes/webhooks.app.uninstalled.tsx:57 | deleting the sessions of an uninstalled domain changes nothing |
| `Uninstall.UninstallLeavesNothing` | app/routes/webhooks.app.uninstalled.tsx:52-81 | both delete paths leave the domain uninstalled (no shop row, no session) |
| `Uninstall.Store.FindShop` | app/routes/webhooks.app.uninstalled.tsx:41-50 | finds the shop row of the domain exactly when there is one, unless the lookup throws |
| `Uninstall.Store.DeleteShop` | app/routes/webhooks.app.uninstalled.tsx:74-76 | succeeds exactly when the statement does not fail and the row exists; then the store is the cascade of the old store, otherwise unchanged; constraints kept |
| `Uninstall.Store.DeleteSessions` | app/routes/webhooks.app.uninstalled.tsx:79-81 | removes exactly the sessions of the domain, unless the statement fails, in which case nothing changes |
| `Uninstall.Store.Action` | app/routes/webhooks.app.uninstalled.tsx:23-93 | rejected authentication: error response, no change; no session: 200, no change; lookup failure: error response, no change; no shop row: the domain's sessions go and 200, or no change and error if that delete fails; shop found: audit counts are the sizes of its four 1:N collections, then shop delete failure leaves all unchanged, session delete failure leaves the shop deleted but its sessions present, and otherwise cascade plus session delete and 200 |
| `Uninstall.Store.Redeliver` | app/routes/webhooks.app.uninstalled.tsx:31-58 | a delivery for an already uninstalled domain answers 200 and changes nothing, with or without a session |

## Left out

- The GraphQL documents, the admin client transport and `response.json()`: the client is a function parameter from the request (operation and variables) to a parsed body or a thrown value.
- `setTimeout` and promise scheduling: the retry helper reports the delays it would sleep instead of sleeping; `Math.pow` floats are replaced by natural powers of two and numbers by unbounded integers.
- `maxRetries` and `initialDelay` are modelled as an integer and a natural; fractional or negative delays are not modelled.
- `authenticate.webhook` and the HMAC-SHA256 signature check: authentication is an input, either rejected or a shop domain with an optional session and a topic.
- `boundary.error` and the console logging: the error path is a single `ErrorBoundary` response; the logged audit counts are returned as an output.
- Database atomicity and Prisma's cascade implementation: each store statement either fully happens or, when it fails, changes nothing; the cascade is part of `DeleteShop`'s contract. Concurrent deliveries and the crash window between the two deletes are not modelled beyond the injected session-delete failure.
- Operations.AdjustInventory: the default reason "correction" is the constant `DefaultReason`; a call that leaves the reason out is modelled as one that passes it explicitly.
- Gateway.GraphqlQuery: an `errors` field that is present but not an array, error entries that are not objects, `data` that is `null` rather than missing, and a non-number `currentlyAvailable` are not modelled; `null` and missing are one case.
- Operations.FindProductByBarcode, Operations.AdjustInventory, Operations.GetLocations, Operations.GetInventoryLevel: a `null` payload and a missing one are one case, so the model always gives the TypeError message "Cannot read properties of undefined (reading '…')", where JavaScript says "of null" for a `null` payload.
- The store's other columns (tiers, product fields, job state) are opaque; the fixtures that fill them, the test database container and the commit/lint tooling have no behaviour to model.
