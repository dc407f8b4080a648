# Payouts queue model

A Dafny model of the payouts component of the labrinth backend
(`src/queue/payouts.rs`). It covers five parts:

- **Gateway classification** (`gateway.dfy`): how a PayPal or Tremendous
  HTTP response becomes a decoded JSON body or an `ApiError`. Responses are
  abstract JSON values.
- **Payout-method catalog** (`catalog.dfy`): how Tremendous products are
  turned into payout methods. Each product is filtered by category,
  deny-list and USD support. The methods are ranked by up-rank and
  down-rank ids and then by name. Finally PayPal US, Venmo and PayPal
  international are put in front. `BuildCatalog` is the imperative loop,
  proved equal to the function `CatalogOf`.
- **The queue** (`queue.dfy`): the class `PayoutsQueue` with its cached
  PayPal credential, its cached catalog (valid for six hours) and its
  per-user lock registry.
- **The daily distribution** (`distribution.dfy`): the computational body
  of `process_payout`. It merges view and download counts into project
  weights and groups team members by project. It splits the monthly budget
  into weekday and weekend amounts. It pays each member
  `day amount * weight / total * split / sum of splits`, records every
  positive payout and credits it to the user's balance. The ledger table
  and the balances form the class `Store`.
- **Sorting** (`sorting.dfy`): a generic stable insertion sort that stands
  for Rust's `sort_by`, proved to return a sorted permutation.

Decimals (`rust_decimal`) are exact `real`s, so every equality about
amounts holds exactly in the model. Timestamps are integer seconds. The
clock, the network responses, the product decoder, the ISO 3166 code list
and the query results are all parameters.

## Model

| member | source | states |
|---|---|---|
| Sorting.SortBySorted | src/queue/payouts.rs:374 | For a total preorder, the stable sort yields a sequence sorted by it. |
| Sorting.SortBy | src/queue/payouts.rs:416-431 | The sorted sequence is a permutation of the input (same multiset, same length). |
| Sorting.SortByStable | src/queue/payouts.rs:416-431 | `sort_by` is stable: for any element, the elements tied with it come out in the order they went in. |
| Gateway.PayPalDecodesOnlySuccess | src/queue/payouts.rs:156-199 | `ClassifyPayPal` hands a body to the decoder iff the response arrived, has a success status and has a JSON body, and passes it on unchanged. A send failure gives "could not communicate with PayPal"; an unreadable body gives "could not retrieve PayPal response body". |
| Gateway.PayPalNameMessageFirst | src/queue/payouts.rs:166-184 | When an error body parses as `{name, message}`, that shape wins, and both strings go into the error verbatim. |
| Gateway.PayPalIdentityFallback | src/queue/payouts.rs:179-191 | `{error, error_description}` is used only when `{name, message}` does not parse. |
| Gateway.PayPalGenericErrorExactly | src/queue/payouts.rs:167-199 | The generic "could not retrieve PayPal error body" error occurs iff a non-success JSON body matches neither shape. |
| Gateway.NamedErrorIsNotGeneric | src/queue/payouts.rs:179-195 | A named PayPal error never equals the generic one. |
| Gateway.TremendousDecodesExactly | src/queue/payouts.rs:223-258 | `ClassifyTremendous` hands a body to the decoder iff the response arrived with a JSON body that has a success status or is not an object, and passes it on unchanged. A send failure gives "could not communicate with Tremendous"; an unreadable body gives "could not retrieve Tremendous response body". |
| Gateway.TremendousNonObjectFallsThrough | src/queue/payouts.rs:234-258 | A Tremendous body that is not a JSON object reaches the decoder even with a failure status. |
| Gateway.TremendousObjectErrors | src/queue/payouts.rs:234-258 | A non-success Tremendous object is always an error: the parsed `errors` message, the "error json" error when `errors` does not parse, or the "error body" error when `errors` is absent. |
| Catalog.CardImage | src/queue/payouts.rs:363-367 | The image URL is `None` iff no image has type Card; otherwise it is the source of the first Card image. |
| Catalog.IntervalOfSpec | src/queue/payouts.rs:369-386 | For `IntervalOf`: more than one sku gives `Fixed` with the sku minimums sorted ascending and as a permutation. One sku gives `Standard` of its range. No skus give `Standard{0, 5000}`. |
| Catalog.FeeOfSpec | src/queue/payouts.rs:388-400 | For `FeeOf`: category "ach" gives fee 4/100 with min 1/4 and no max; every other category gives 0/0/None. The percentage is positive iff the category is "ach". |
| Catalog.WithoutUs | src/queue/payouts.rs:466-470 | A code is kept iff it is in the ISO list and is not "US". |
| Catalog.AdmittedMembers | src/queue/payouts.rs:314-411 | The pushed methods are exactly the images of the kept products, and there are no more of them than products. |
| Catalog.KeptMeans | src/queue/payouts.rs:349-410 | A kept product has a supported category and an id off the deny-list. If its method's interval is `Fixed`, its currency codes contain "USD". |
| Catalog.RankCompareIsKeyOrder | src/queue/payouts.rs:416-431 | The comparator `RankCompare` orders methods by (tier, name): up-ranked, then the rest, then down-ranked. |
| Catalog.RankLeTotalPreorder | src/queue/payouts.rs:416-431 | The comparator is total and transitive, so sorting by it is well defined. |
| Catalog.SortByRankOrdering | src/queue/payouts.rs:413-431 | The ranked list is a permutation of its input. Every up-ranked method precedes every other; every down-ranked method follows every other. Names are non-decreasing within a tier. Methods that compare equal keep their input order. |
| Catalog.CatalogShape | src/queue/payouts.rs:433-482 | The catalog `CatalogOf` is `[paypal_us, venmo, paypal_in]` followed by the ranked products, so its length is the kept count + 3. Venmo equals PayPal US except for id, name and type. PayPal US serves only "US"; PayPal international serves every ISO code but "US". |
| Catalog.CatalogEligibility | src/queue/payouts.rs:349-482 | Every entry after the first three is a Tremendous method built from a supported, non-denied product (one listing USD if `Fixed`). Every kept product appears there. |
| Catalog.BuildCatalog | src/queue/payouts.rs:314-482 | The push loop, the sort and the three inserts produce exactly `CatalogOf(products, isoCodes)`. |
| Queue.PayoutsQueue.constructor | src/queue/payouts.rs:48-54 | Both caches and the lock registry start empty. |
| Queue.PayoutsQueue.RefreshToken | src/queue/payouts.rs:56-106 | A granted token is stored and returned with expiry `now + expires_in`. A transport failure or a malformed body gives the matching authentication error and leaves the cache alone. The lock registry's invariant `Valid` is kept. |
| Queue.PayoutsQueue.ValidCredential | src/queue/payouts.rs:116-131 | An unexpired cached credential (`expires >= now`) is returned and nothing changes. Otherwise the refreshed credential is stored and returned, or "Error while authenticating with PayPal" is returned. The lock registry's invariant `Valid` is kept. |
| Queue.PayoutsQueue.MakePayPalRequest | src/queue/payouts.rs:108-199 | Without a valid credential the request fails with the authentication error; otherwise the result is the classification of the response. The lock registry's invariant `Valid` is kept. |
| Queue.PayoutsQueue.RefreshPayoutMethods | src/queue/payouts.rs:262-492 | A failed request or an undecodable body is returned as the error and leaves the cache unchanged. Otherwise the built catalog is stored with expiry now + 6 hours and returned. The lock registry's invariant `Valid` is kept. |
| Queue.PayoutsQueue.GetPayoutMethods | src/queue/payouts.rs:494-507 | An unexpired cached catalog is returned unchanged. Otherwise the result is exactly what the refresh stored, or the refresh error. The lock registry's invariant `Valid` is kept. |
| Queue.PayoutsQueue.LockUserPayouts | src/queue/payouts.rs:510-515 | The user's existing handle is returned unchanged; otherwise a new handle, distinct from all others, is registered. Distinct users never share a handle. |
| Distribution.ToCountMap | src/queue/payouts.rs:596-603 | The map's keys are exactly the project ids of the query rows, and each project maps to the count of its last row (a later row replaces an earlier one). |
| Distribution.MergeCounts | src/queue/payouts.rs:605-608 | After the `entry().or_insert(0)` loop the map is `Weights`: each project's weight is views + downloads (a missing count is 0), over the union of the keys. |
| Distribution.GroupTeams | src/queue/payouts.rs:624-655 | The grouping loop produces, for each project, its members in row order, and no project with an empty team. |
| Distribution.BudgetSplit | src/queue/payouts.rs:657-664 | For `DayAmount`'s two amounts: `weekend_amount = 5/4 * weekday_amount`, and `20 * weekday_amount + 8 * weekend_amount == amount` exactly. |
| Distribution.FourWeeksPayBudget | src/queue/payouts.rs:657-669 | Any 28 consecutive daily runs, each picking the weekend amount on Saturday and Sunday, pay out exactly the budget. |
| Distribution.ProjectConservation | src/queue/payouts.rs:674-708 | For `Expected`: with non-negative splits and a positive split sum, a project's recorded payouts add up to `day_amount * weight / total`. |
| Distribution.PayoutProportionalToSplit | src/queue/payouts.rs:685 | Members' payouts stand in the ratio of their splits. |
| Distribution.CreditAddsSums | src/queue/payouts.rs:691-701 | Under `Credit`, each user's balance rises by exactly the sum of that user's recorded rows; no balance appears or disappears. |
| Distribution.PayMembers | src/queue/payouts.rs:684-705 | The member loop appends exactly the project's positive payouts, dated `start`, to the four vectors, which stay equal in length, and credits each of them to the balances. |
| Distribution.PayProject | src/queue/payouts.rs:675-707 | A project without a weight or with a non-positive split sum adds nothing; otherwise its expected rows are appended and credited. |
| Distribution.DistributeDay | src/queue/payouts.rs:671-708 | In any iteration order, the four vectors stay equal in length and every row is dated `start`. For each project, its rows are exactly its expected payouts. The balances are those rows credited in order. |
| Distribution.Store.ProcessPayout | src/queue/payouts.rs:518-737 | A day that already has ledger rows is a no-op. A positive view-plus-download total is needed only when the day is still unrecorded and some team project has a weight. Otherwise the ledger gains exactly the day's rows, each project's rows are its expected payouts, the balances are credited with them, and the cache-clear list names the paid users in row order. |

## Left out

- Network I/O: reqwest request building and sending, headers, URLs, the `dotenvy` environment reads and the base64 basic-auth encoding (RFC 4648 section 4). The token response, the HTTP responses and the budget are inputs.
- JSON decoding: serde is not modelled. Success bodies are decoded by a caller-supplied function (`decodeProducts`). Error-body probing uses an abstract JSON value and accepts the two forms serde accepts for a struct: an object with the fields, or an array of the field values in order.
- Storage I/O: SQL and ClickHouse queries, the transaction begin/commit and the Redis `clear_caches` call. The query results are inputs; the ledger and the balances are fields of `Store`, updated together as the transaction commits them; the users whose caches are cleared are returned.
- Concurrency: `RwLock`, `Mutex`, `DashMap` and `try_join4` are modelled sequentially. A lock is a handle number, so mutual exclusion itself is not modelled.
- `Utc::now()` and the derivation of yesterday's midnight and its weekday: `now`, `day` and the weekday are inputs.
- `rust_iso3166::ALL` is the input `isoCodes`.
- Decimal precision: `rust_decimal` rounds division to 28 digits; the model uses exact reals.
- Distribution.ProjectShare: requires a positive total whenever a project has a weight. The source divides by `multipliers.sum` without checking, which panics when it is zero.
- Distribution.Weights: u64 wrap-around of `views + downloads` and of `downloads_sum + views_sum` is not modelled; counts are unbounded.
- The `as i64` / `as u64` casts between project ids are not modelled; project ids are natural numbers.
- `insert_payouts` (src/queue/payouts.rs:740-759) is a test helper wrapping the same INSERT and is not modelled separately.
- A run that records no payout inserts no ledger row, so the day stays unmarked and a later run computes it again. This matches the source.
- Sorting: `Decimal` values that compare equal but differ in scale (1.0 and 1.00) are a single `real` in the model.
