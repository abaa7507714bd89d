# Admin orders controller: a Dafny model

This project models the decision and arithmetic logic of the admin orders
controller of an e-commerce back office (`controllers/admin/orders.controller.js`).
The database, flash notices, redirects and page rendering are left out.
What remains is:

- the fixed table of five order statuses, the lookup map built from it, and the
  total status-metadata lookup, where any status outside the table falls back to
  `pending` (see the prototype-lookup difference below);
- the permission gate: the caller's role must have a `permissions` array
  that contains `orders_view`;
- line-item pricing. Numeric fields go through `Number(x) || 0`. The discounted
  unit price is rounded by `Math.round`. Line totals are that price times the
  quantity, and order totals are sums over the lines;
- the order code: the last six characters of the id, upper-cased;
- the list page (`index`). Its find query is a datatype, read as a predicate
  on order documents under the document store's matching rules (`{status: null}`
  also matches a missing field). The page shows the matching documents as
  enriched rows;
- the detail page (`detail`). It is built line by line with a product lookup.
  Its figures are proved equal to the list row's;
- the status change (`changeStatus`). It is a step on an abstract store: a map
  from order id to order document.

Modules: `Wrappers` (Option, map lookup), `OrderStatus` (status table and
lookup), `Pricing` (coercion, rounding, sums), `OrderModel` (order document,
role, permission gate, order code), `OrderViews` (list-row summary, detail
page), `OrderListing` (find query, `index`), `StatusChange` (`updateOne` and
`changeStatus`).

Outside interactions are parameters:
- the order collection is a `seq<Order>` for listing, in the order the store's
  sort returns it;
- it is a `map<string, Order>` keyed by id for detail and status change;
- the product collection is a `map<string, ProductInfo>`;
- the caller's role is a `Role` value.

`Math.round` is modelled on exact reals as `floor(x + 0.5)`. The lemma
`Pricing.MathRoundHundredths` proves it equal to the integer formula
`(n + 50) div 100`.

Two facts about the code that the model keeps:

- The list page does not validate its status filter. Any non-empty value other
  than `pending` is matched exactly, so an unknown value lists only orders stored
  with exactly that status.
- The order code is the last six characters of the id string, whatever that
  string is. It is not checked to be hexadecimal.

A deliberate difference from the code concerns prototype lookups. In JavaScript,
`ORDER_STATUS_MAP[status]` is a lookup on a plain object, both in `getStatusMeta`
(line 30) and in the validation of `changeStatus` (line 186). Inherited names
such as `"toString"`, `"constructor"` or `"__proto__"` give truthy non-table
objects there:
- at line 186 such a name passes validation;
- at line 30 a stored status with such a name yields that object as the status
  metadata instead of the `pending` entry.
The model counts a status as recognised only when it is one of the five table
values, in both places. A stored status with an inherited name therefore gets
the `pending` entry in the model.

## Model

| member | source | states |
|---|---|---|
| `OrderStatus.BuildStatusMap` | controllers/admin/orders.controller.js:15-18 | The map built by the `reduce` has as keys exactly the values in the table. Each key maps to a table entry whose value is that key. |
| `OrderStatus.BuildStatusMapDistinct` | controllers/admin/orders.controller.js:15-18 | When the values in the table are distinct, each value maps to its own entry. |
| `OrderStatus.StatusMapFaithful` | controllers/admin/orders.controller.js:7-18 | The lookup map's keys are exactly `pending`, `packed`, `shipping`, `completed` and `failed`. Each maps to its row of the table. |
| `OrderStatus.IsStatusValueIsTable` | controllers/admin/orders.controller.js:186-189 | A requested status passes validation exactly when it is one of the five values. |
| `OrderStatus.GetStatusMeta` | controllers/admin/orders.controller.js:28-33 | The lookup is total and always returns a table entry. It returns the entry whose value is the status when the status is one of the five values. For a missing, null, empty or unknown status it returns the `pending` entry. |
| `Pricing.Coerce` | controllers/admin/orders.controller.js:41-43 | A field that is missing or not a number counts as 0. A numeric field keeps its value. |
| `Pricing.MathRound` | controllers/admin/orders.controller.js:44-46 | `Math.round` returns the integer within half a unit of x. On an exact half it returns the upper one. |
| `Pricing.RoundedHundredths` | controllers/admin/orders.controller.js:44-46 | `(n + 50) div 100` is within half a unit of n/100, with halves rounded up. |
| `Pricing.MathRoundHundredths` | controllers/admin/orders.controller.js:44-46 | `Math.round(n / 100)` equals `(n + 50) div 100` for every integer n. |
| `Pricing.FinalUnitPriceIdentity` | controllers/admin/orders.controller.js:41-46 | The discounted unit price is `(p*(100-d) + 50) div 100`. It is the half-up rounding of `p*(100-d)/100`. |
| `Pricing.NoDiscountKeepsPrice` | controllers/admin/orders.controller.js:44-46 | With a zero discount the unit price is the base price. |
| `Pricing.ZeroLineAddsNothing` | controllers/admin/orders.controller.js:41-50 | A line whose price or quantity is 0 or non-numeric has total 0. It leaves the order's total price unchanged, while its quantity is still added to the total quantity. |
| `Pricing.WorkedExample` | controllers/admin/orders.controller.js:41-47 | Price 100000 with a 10% discount gives unit price 90000. With quantity 2 the line total is 180000. |
| `Pricing.SumOfAppend` | controllers/admin/orders.controller.js:49-50 | Adding one line to the accumulation adds that line's value to the sum. |
| `OrderModel.HasOrderPermissionMonotone` | controllers/admin/orders.controller.js:20-26 | The gate depends only on which permissions a role holds. A role holding at least the permissions of an admitted role is admitted too. No role, or a role whose `permissions` is not an array, is never admitted. |
| `OrderModel.OrderCode` | controllers/admin/orders.controller.js:57 | With no id the code is empty. Otherwise it has `min(6, len)` characters: the id's suffix of that length, upper-cased. It never contains a lower-case ASCII letter. |
| `OrderModel.OrderCodeExample` | controllers/admin/orders.controller.js:57 | The code of id `60f1a2b3c4d5e6f7a8b9c0d1` is `B9C0D1`. |
| `OrderViews.Summarize` | controllers/admin/orders.controller.js:35-61 | A list row belongs to its order. A missing or empty `products` gives zero totals. The row's status metadata is always a table entry. |
| `OrderViews.AccumulateTotals` | controllers/admin/orders.controller.js:36-52 | The line-by-line loop gives the total quantity and total price as sums over all lines. |
| `OrderViews.EnrichOrderSummary` | controllers/admin/orders.controller.js:35-61 | A list row has the sums over the order's lines, the order code and the status metadata. A missing `products` array counts as no lines. |
| `OrderViews.DetailLines` | controllers/admin/orders.controller.js:124-156 | The detail loop yields one detail line per stored line, in the same order. Each has the product lookup, unit price and line total of its line. The accumulated totals are the sums over all lines, and the shown line totals add up to the total price. |
| `OrderViews.Detail` | controllers/admin/orders.controller.js:107-163 | Without permission the result is denied. A missing or deleted order is not found. Otherwise there is one detail line per stored line, in the same order. Each detail line has the line's product lookup, unit price and line total. The totals, code and status metadata equal the list row's. The shown line totals add up to the order total. In a store where every document sits under its own id, the found order carries the requested id and its code is the id's last six characters. |
| `OrderListing.BuildQuery` | controllers/admin/orders.controller.js:70-87 | Deleted orders never match. The empty filter matches every live order. `pending` matches exactly the statuses `"pending"`, missing, null and `""`. Any other filter matches exactly that status. |
| `OrderListing.PendingClauseMatches` | controllers/admin/orders.controller.js:77-83 | The four-way `$or` of the pending filter admits exactly the statuses `"pending"`, missing, null and `""`. |
| `OrderListing.Select` | controllers/admin/orders.controller.js:89 | The query's result holds exactly the documents that match it. It contains no document more often than the collection does. |
| `OrderListing.SelectMultiplicity` | controllers/admin/orders.controller.js:89 | A matching document occurs in the result exactly as often as in the collection, so no duplicate is dropped. A document that does not match never occurs. |
| `OrderListing.SelectConcat` | controllers/admin/orders.controller.js:89 | Selection distributes over concatenation, so the store's order is kept. |
| `OrderListing.SummarizeAll` | controllers/admin/orders.controller.js:91 | Mapping `enrichOrderSummary` gives one row per document, in order. Each row is that document's full summary: totals, code and status metadata. The rows name exactly the documents. |
| `OrderListing.Index` | controllers/admin/orders.controller.js:63-99 | The page is denied exactly when the gate fails. A missing status parameter is the empty filter. The rows are the summaries of the matching documents, in order. Every matching document has a row, and every row's order matches. |
| `OrderListing.ListedUnderOwnBadge` | controllers/admin/orders.controller.js:76-87 | A live order whose status is a table value, missing, null or empty is listed under the filter its badge names. |
| `OrderListing.UnknownStatusBadgeNotFiltered` | controllers/admin/orders.controller.js:76-86 | Any non-empty status outside the table shows the `pending` badge but is not listed under the `pending` filter. (The empty status is both shown and listed as `pending`.) |
| `StatusChange.UpdateOne` | controllers/admin/orders.controller.js:191-199 | Only the live order with the given id gets the new status. Every other entry, and every other field, is unchanged. The modified count is 1 exactly when the store changed. A store where every document sits under its own id stays so. |
| `StatusChange.ChangeStatus` | controllers/admin/orders.controller.js:177-205 | The outcome is denied exactly when the gate fails. It is invalid exactly when the gate passes and the status is outside the five values. In both cases the store is unchanged. Otherwise only the live order with that id gets the status. The outcome is success exactly when that order existed, was live and had a different status, which is exactly when the store changed. In every other case it is "not modified". A store where every document sits under its own id stays so. |
| `StatusChange.ChangeStatusIdempotent` | controllers/admin/orders.controller.js:191-205 | Repeating an accepted status change writes nothing and reports failure. |

## Left out

- The keyword filter (lines 73-75) builds a case-insensitive regular expression
  from user input. Regular-expression semantics are not modelled, so the query
  has no keyword condition.
- Sorting by `createdAt` descending (line 89) is the store's job. `Index` takes
  the documents in the order the sort returns them.
- The `Intl.NumberFormat("vi-VN")` display strings (lines 5, 56, 148, 150, 161)
  are locale formatting from the runtime and are not modelled.
- Price, discount and quantity are integers only, and arithmetic on them is exact.
  In JavaScript every number is an IEEE double. Fractional values, the rounding
  error of the division before `Math.round`, and the loss of precision above 2^53
  are not modelled. That loss can hit `basePrice * (100 - discount)`,
  `priceAfterDiscount * quantity` and the running sums (lines 45, 47, 49-50,
  134-136, 153-154).
- Flash notices, redirects, rendering, page titles and console logging are not
  modelled. Outcomes are small result datatypes instead.
- Exceptions thrown by the store are not modelled. This includes a cast error for
  a malformed id or product id, which in the source ends in a generic failure
  notice.
- `deleted` is a boolean. A document without a `deleted` field is not modelled.
  The store's `{deleted: false}` would not match such a document.
- A stored `status` that is neither a string, null nor missing is not modelled.
- Request values that are not plain strings are not modelled. The query and body
  parsers can deliver an object or an array, and the model takes
  `Option<string>`. Such values behave differently in the source:
  - `?status[$ne]=x` becomes a store operator at line 85 rather than an exact
    match;
  - a body `status[]=packed` passes the check at line 186, because the array
    converts to the property key `"packed"`;
  - a query parameter given several times arrives as an array.
- `StatusChange.UpdateOne` assumes the update writes only `status`. The
  order schema is not part of this model. If it enables automatic timestamps,
  every matched `updateOne` also sets `updatedAt` and reports a modified count
  of 1. Re-sending the current status would then be reported as success. The
  claims of `StatusChange.ChangeStatus` ("success exactly when the status
  differed") and `StatusChange.ChangeStatusIdempotent` hold only under this
  assumption.
- `StatusChange.UpdateOne` and `OrderViews.Detail` find an order by exact string
  equality of its id with a store key. The store instead casts `{_id: id}`
  (lines 114-116, 192-193) to an ObjectId first, so for example an upper-case
  hexadecimal id finds the same order. That normalisation of ids is not
  modelled.
- `OrderModel.OrderCode` upper-cases only ASCII letters, not full Unicode case
  mapping, and counts the last six characters where `slice(-6)` counts UTF-16
  code units. The two agree on ObjectId strings, which are 24 hexadecimal
  digits, but not on arbitrary id strings with non-ASCII characters.
- The store maps are not required to be keyed by each document's own id,
  since the store's `_id` is not part of this model. A document under key `k`
  may carry another id or none, so `OrderViews.Detail` can in general return an
  order with no id and an empty code; the source cannot, because a document
  found by `{_id: id}` has that `_id`. `OrderModel.WellKeyed` states the keying;
  `OrderViews.Detail` states the found order's id and code under it, and
  `StatusChange.UpdateOne` and `StatusChange.ChangeStatus` keep it.
- `OrderViews.Detail` keeps the stored order and its detail lines side by side.
  The source instead overwrites `order.products` with the detail lines. Each
  detail line keeps the stored line whole, which stands for the source's
  `...item` spread.
- `OrderListing.Select` states membership and an upper bound on multiplicity,
  but not order, in its own contract. Exact multiplicity is stated by
  `OrderListing.SelectMultiplicity`. Order is stated by
  `OrderListing.SelectConcat`.
- `OrderStatus.GetStatusMeta` returns the `pending` entry for inherited object
  property names, where the source returns a non-table object (line 30).
