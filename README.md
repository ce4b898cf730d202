# Storefront checkout core in Dafny

A model of the checkout core of a Next.js storefront backed by Prisma and a payment
provider, with proofs of what its code promises. The core has five parts:

- **Order creation** (`app/api/orders/route.ts`). The route:
  - validates the requested lines against the stored variants;
  - prices them from stored prices;
  - looks up the discount code and applies it when eligible;
  - adds shipping and tax;
  - persists the order;
  - asks the payment provider for an intent of `round(total × 100)` cents.
- **Payment settlement** (`app/api/webhooks/stripe/route.ts`). A signed "succeeded" event:
  - marks the order PROCESSING / SUCCEEDED;
  - takes its lines out of stock;
  - deletes the buyer's cart rows;
  - counts one more use of the order's discount.

  A "failed" event cancels the order.
- **Client cart store** (`lib/store.ts`). This is a list of cart lines keyed by variant id, supporting merge-on-add, remove, set-quantity, clear and a running total.
- **Server cart table** (`app/api/cart/route.ts`). Rows are keyed by (user, variant). Adding is a stock-gated upsert that increments; deleting removes one keyed row.
- **Catalog listing** (`app/api/products/route.ts`). It covers:
  - query defaults, the category and featured filters, and the sort key;
  - page slicing `skip = (page − 1) × limit`, `take = limit`, and the page count `ceil(total / limit)`;
  - the approved-review rating summary;
  - the admin-only product creation.

## Layout

| file | module | contents |
|---|---|---|
| `schema.dfy` | `Wrappers`, `Schema` | `Option`. The entities (orders, variants, discounts, products, cart keys). The `Database` class holding one field per table, and the key set of the stored shipping addresses. The key invariant `WellKeyed`: every row sits under its own id, and discount codes are unique. |
| `pricing.dfy` | `Pricing` | Line validation, subtotal, discount eligibility and amount, shipping, tax, total, cents. |
| `orders.dfy` | `Orders` | The order route: discount lookup, pricing, the order row, the writes and the charge request. |
| `webhook.dfy` | `Webhook` | The settlement state machine `Handle` over a snapshot of the tables. The imperative handler `HandleEvent`, proved equal to it. |
| `cart_api.dfy` | `CartApi` | The server cart handlers. |
| `cart_store.dfy` | `CartStore` | The client store as a class with one `items` field. Pure functions give each new list. |
| `catalog.dfy` | `Catalog` | Query planning, filtering, ordering, pages, ratings and product creation. |

### Modelling choices

- **Money.** Money is an exact `real`. `Math.round(x)` is `(x + 0.5).Floor`, which is JavaScript's halves-up rounding.
- **Database.** Prisma tables are maps in one `Database` object. An `update` or `delete` of a missing row throws, and the handler answers 500. Writes made before the throw stay, because nothing is transactional.
- **Inputs from outside.** The session is an `Option<Session>`. The webhook signature check is a boolean input. The payment provider's answer is an `Option<Intent>` input, with `None` meaning the call failed. The fresh order id, the order number and the clock are inputs too.
- **Catalog ordering.** The database's ordering of the filtered catalog is an input to `ListProducts`. The contract requires it to be a permutation of the filtered products, sorted by the chosen key. The model then proves what the route does with it.

### Safeguards the code does not have

The model states what the code does in each case:

- **No discount clamp.** Nothing limits a discount to the subtotal, so a fixed discount can make the total negative (`Pricing.FixedDiscountIsNotClamped`).
- **No idempotency guard.** Settlement reads no prior payment status, so a redelivered success event decrements stock and counts the discount again (`Webhook.RedeliverySettlesTwice`).
- **No stock floor.** The decrement subtracts the ordered quantity whatever the stock, so stock can go below zero (`Webhook.SucceededEffects` states the exact new stock, whatever its sign).
- **No tiebreaker on the sort.** Each page is a query of its own, and price, name and creation time can all tie, so separate page requests may order tied products differently: a product can appear on two pages while another appears on none (`Catalog.TiedPagesMayRepeat`).
- **No compensation after a gateway failure.** When the payment provider call fails after the order is written, the order stays in place, pending, with no payment intent (`Orders.GatewayFailureLeavesOrphan`).

## Model

| member | source | states |
|---|---|---|
| Pricing.LineFor | app/api/orders/route.ts:66-70 | A recorded line takes the variant id and quantity from the request. Its price is the stored variant's price, never a client value. |
| Pricing.Lines | app/api/orders/route.ts:60-71 | There is one recorded line per requested line, in request order, each as `LineFor`. |
| Pricing.SubtotalAppend | app/api/orders/route.ts:59-65 | The accumulated subtotal of two runs of lines is the sum of their subtotals. |
| Pricing.SubtotalNonNegative | app/api/orders/route.ts:59-65 | With non-negative prices and quantities, the subtotal is non-negative. |
| Pricing.ValidateItems | app/api/orders/route.ts:54-71 | Validation succeeds iff every requested variant exists with stock ≥ quantity. On success the lines are `Lines(...)` and the accumulated subtotal is `Subtotal(lines)`, the sum of stored price × quantity. |
| Pricing.Eligible | app/api/orders/route.ts:82-86 | A code is turned away when it starts later than now, has ended before now, has a non-zero minimum above the subtotal, or has a non-zero usage cap already reached. A record with none of the four conditions set is always eligible. Minimum and cap are falsiness tests, so 0 is no condition. |
| Pricing.DiscountAmount | app/api/orders/route.ts:90-94 | A percentage discount satisfies amount × 100 = subtotal × value. A fixed discount is its flat value. |
| Pricing.ApplyDiscount | app/api/orders/route.ts:73-97 | A discount id is recorded iff an active record was found and is eligible by dates, minimum and usage. Its amount is then `DiscountAmount`; otherwise the amount is 0 and no error is raised. |
| Pricing.Charges | app/api/orders/route.ts:99-101 | Shipping is 0 iff subtotal > 100 (strictly), else 10. Ten times the tax is the subtotal. The total is subtotal + shipping + tax − discount. |
| Pricing.PaymentAmount | app/api/orders/route.ts:127 | The charged cents are the nearest integer to total × 100, with halves rounding up. |
| Pricing.TotalNonNegative | app/api/orders/route.ts:99-101 | A discount no larger than a non-negative subtotal leaves the total ≥ 0. |
| Pricing.PercentageWithinSubtotal | app/api/orders/route.ts:90-91 | A percentage in [0, 100] on a non-negative subtotal gives an amount in [0, subtotal]. |
| Pricing.FixedDiscountIsNotClamped | app/api/orders/route.ts:92-101 | A fixed 50 off a subtotal of 20 yields total −18: nothing clamps the discount. |
| Pricing.ExhaustedCodeIsRejected | app/api/orders/route.ts:86-95 | A non-zero usage cap that has been reached gives no discount and no discount id. |
| Pricing.ZeroMaxUsesIsUnlimited | app/api/orders/route.ts:86 | With a usage cap of 0, which is falsy, the usage count never affects eligibility. |
| Pricing.ZeroMinAmountIsNoMinimum | app/api/orders/route.ts:85 | With a minimum amount of 0, which is falsy, the subtotal never affects eligibility. |
| Pricing.Welcome10Example | prisma/seed.ts:141-153 | Two units at 40 with the seeded WELCOME10 code give subtotal 80, discount 8, shipping 10, tax 8, total 90, and a charge of 9000 cents. |
| Pricing.NoDiscountExample | app/api/orders/route.ts:99-101 | A subtotal of 120 with no code gives free shipping, tax 12 and total 132. |
| Pricing.CartSummaryMatchesCheckout | app/cart/page.tsx:117-121 | The cart page's estimated total equals the route's total for the same subtotal with no discount. |
| Orders.ActiveByCode | app/api/orders/route.ts:76-78 | The lookup finds a record iff some active discount has that code, and what it finds is such a record. |
| Orders.FindDiscount | app/api/orders/route.ts:76-80 | With unique codes, the lookup returns exactly `ActiveByCode`: the stored, active record carrying the code. |
| Orders.NewOrder | app/api/orders/route.ts:105-123 | The written row stores exactly the validated lines and the computed subtotal, tax, shipping, discount, total and discount id. It has no payment intent and is PENDING / PENDING. |
| Orders.ListOrders | app/api/orders/route.ts:7-33 | Without a session the answer is 401. Otherwise it holds exactly the caller's orders, unchanged. |
| Orders.PriceOrder | app/api/orders/route.ts:53-101 | It succeeds iff every line is available. The lines and quote then equal the specification `QuoteFor`: discount looked up only for a truthy code, plus shipping, tax and total. |
| Orders.CreateOrder | app/api/orders/route.ts:43-151 | 401 writes nothing. An unavailable line, an id / order-number clash, or a shipping address id naming no stored address gives 500 with nothing written. Otherwise the order is written and a charge of `PaymentAmount(total)` cents in usd is requested, tagged with the order's id and number. On success the intent id is attached and the reply carries the order and client secret. On gateway failure the reply is 500 and the order stays. |
| Orders.GatewayFailureLeavesOrphan | app/api/orders/route.ts:105-138 | After a failed provider call, the new order is in the table, pending, with no payment intent. |
| Webhook.DecrementStockShape | app/api/webhooks/stripe/route.ts:44-49 | The decrement loop keeps the same variants and changes only stock. It runs to the end iff every line's variant exists. |
| Webhook.DecrementStockStep | app/api/webhooks/stripe/route.ts:44-49 | One iteration: a missing variant stops the loop; otherwise the line's quantity is subtracted and the loop continues with the rest. |
| Webhook.OrderedQuantityOfAbsent | app/api/webhooks/stripe/route.ts:44-49 | A variant no line mentions is ordered in quantity 0. |
| Webhook.DecrementStockExact | app/api/webhooks/stripe/route.ts:44-49 | When the loop completes, each variant's stock drops by exactly the total quantity the lines order of it, with no floor. |
| Webhook.WithoutUser | app/api/webhooks/stripe/route.ts:52-54 | Exactly the given user's cart rows are deleted. Every other row keeps its quantity. |
| Webhook.Succeed | app/api/webhooks/stripe/route.ts:25-66 | A missing order gives 500 with nothing changed. Otherwise the order is PROCESSING / SUCCEEDED even when a later step throws. The reply is `received` iff every line's variant and the order's discount exist, and 500 otherwise. |
| Webhook.Fail | app/api/webhooks/stripe/route.ts:68-81 | A missing order gives 500 with nothing changed. Otherwise the order becomes CANCELLED / FAILED with its lines kept, every other order is unchanged, and stock, cart and discounts are untouched. The reply is `received`. |
| Webhook.Handle | app/api/webhooks/stripe/route.ts:6-95 | A bad signature gives 400 with nothing changed. An unhandled event type gives `received` with nothing changed. |
| Webhook.UnknownOrderChangesNothing | app/api/webhooks/stripe/route.ts:23-94 | A handled event for a missing order answers 500 and changes no table. |
| Webhook.SucceededEffects | app/api/webhooks/stripe/route.ts:25-66 | For an order whose variants and discount exist: the order becomes PROCESSING / SUCCEEDED; each variant loses exactly the ordered quantity and other variants are unchanged; exactly the buyer's cart rows go; exactly the order's discount gains one use. |
| Webhook.FailedEffects | app/api/webhooks/stripe/route.ts:68-81 | A failed payment makes the order CANCELLED / FAILED and touches no stock, cart or discount. |
| Webhook.SucceedKeepsKeys | app/api/webhooks/stripe/route.ts:25-66 | The succeeded branch keeps every row under its own key and discount codes unique. |
| Webhook.HandleKeepsKeys | app/api/webhooks/stripe/route.ts:23-85 | Every event keeps every row under its own key and discount codes unique. |
| Webhook.RedeliverySettlesTwice | app/api/webhooks/stripe/route.ts:29-62 | Delivering the same success event twice decrements stock by twice the ordered quantity and adds two uses to the discount. |
| Webhook.HandleEvent | app/api/webhooks/stripe/route.ts:6-95 | The handler's new tables and reply are exactly `Handle` of the old tables. It keeps the tables well keyed and leaves products alone. |
| Webhook.SettleSucceeded | app/api/webhooks/stripe/route.ts:25-66 | The succeeded branch's writes, in the handler's order, equal `Succeed` of the old tables. |
| Webhook.DecrementEach | app/api/webhooks/stripe/route.ts:44-49 | The loop leaves exactly the stock table `DecrementStock` describes, and reports whether it ran to the end. |
| CartApi.Upserted | app/api/cart/route.ts:59-74 | An existing (user, variant) row grows by the quantity; an absent one is created with it. No other row changes. |
| CartApi.GetCart | app/api/cart/route.ts:6-28 | Without a session the answer is 401. Otherwise it holds exactly the caller's rows with their quantities. |
| CartApi.AddToCart | app/api/cart/route.ts:38-76 | Without a session: 401, cart unchanged. A missing variant or stock below the requested quantity gives 400, cart unchanged. Otherwise the cart is `Upserted` and the reply is the row. The database invariant is kept. |
| CartApi.RemoveFromCart | app/api/cart/route.ts:86-112 | Without a session: 401. A missing or empty variant id gives 400. A missing row gives 500. Each leaves the cart unchanged. Otherwise exactly the caller's row for that variant is deleted. The database invariant is kept. |
| CartApi.RemoveTouchesOnlyThatRow | app/api/cart/route.ts:103-110 | Deleting a row removes that key only: one row fewer, every other row of any user intact. |
| CartApi.CartCanExceedStock | app/api/cart/route.ts:52-67 | Only the new quantity is checked against stock: with 5 in stock and 4 in the cart, adding 3 passes and leaves 7. |
| CartApi.UpsertsAccumulate | app/api/cart/route.ts:59-74 | Two adds of one variant leave a single row holding the sum. |
| CartStore.Merged | lib/store.ts:33-37 | Merging keeps the length, adds the quantity to the lines of that variant, and leaves the other lines unchanged. |
| CartStore.WithQuantity | lib/store.ts:46-51 | Setting a quantity keeps the length and order. It changes only the quantity of the matching lines. |
| CartStore.AddMergesPresent | lib/store.ts:26-39 | Adding a present variant keeps the length, grows only that variant's line, and leaves all others unchanged. |
| CartStore.AddAppendsNew | lib/store.ts:40 | Adding a new variant appends the item at the end. |
| CartStore.AddKeepsKeysUnique | lib/store.ts:26-40 | Unique variant ids before `addItem` stay unique after it. |
| CartStore.RemovedLines | lib/store.ts:42-45 | The remaining lines are exactly the old lines of other variants. |
| CartStore.RemovedAppend | lib/store.ts:44 | Removal distributes over concatenation, so kept lines stay in their original order. |
| CartStore.RemovedKeepsKeysUnique | lib/store.ts:42-45 | Removal keeps unique variant ids unique. |
| CartStore.UpdateAbsentIsNoOp | lib/store.ts:46-51 | Setting the quantity of an absent variant leaves the list unchanged. |
| CartStore.UpdateKeepsKeysUnique | lib/store.ts:46-51 | Setting a quantity keeps variant ids unique. |
| CartStore.TotalAppend | lib/store.ts:53-59 | The total of two runs of lines is the sum of their totals. |
| CartStore.TotalIsSumOfLines | lib/store.ts:53-59 | The left-to-right reduce starting at 0 equals the plain sum of price × quantity over the lines. |
| CartStore.TotalAfterRemove | lib/store.ts:42-59 | The total is the total of the kept lines plus the total of the removed lines. |
| CartStore.DroppedUniqueLine | lib/store.ts:42-45 | With unique ids, removal drops exactly the one line holding the variant. |
| CartStore.NoneDropped | lib/store.ts:42-45 | Removing an absent variant drops nothing. |
| CartStore.TotalDropsByRemovedLine | lib/store.ts:42-59 | With unique ids, removing a line lowers the total by exactly its price × quantity. |
| CartStore.Store.constructor | lib/store.ts:25 | The store starts empty, which satisfies its invariant `Valid` (one line per variant). |
| CartStore.Store.AddItem | lib/store.ts:26-41 | The new list is `Added` of the old one, and the invariant `Valid` (unique ids) is kept. |
| CartStore.Store.RemoveItem | lib/store.ts:42-45 | The new list is the old one without that variant's lines, and holds exactly the other lines. The invariant `Valid` (unique ids) is kept. When it held and a line carried the variant, `getTotal` drops by exactly that line's price × quantity. |
| CartStore.Store.UpdateQuantity | lib/store.ts:46-51 | The new list is `WithQuantity` of the old one, and the invariant `Valid` (unique ids) is kept. |
| CartStore.Store.ClearCart | lib/store.ts:52 | The list is empty, the invariant holds and the total is 0. |
| CartStore.Store.GetTotal | lib/store.ts:53-59 | The total is the sum of price × quantity over the lines, and 0 for an empty cart. |
| Catalog.SortKeyFor | app/api/products/route.ts:19-22 | `price-asc` gives price ascending, `price-desc` price descending and `name` name ascending. Any other name sorts newest first. |
| Catalog.Plan | app/api/products/route.ts:8-22 | Page and limit default to 1 and 12. The sort defaults to `newest`. The category filter applies only for a non-empty slug. The featured filter applies only for exactly `"true"`. |
| Catalog.BuildQuery | app/api/products/route.ts:15-22 | The successive assignments of the filter and the sort key build exactly the query `Plan` describes. |
| Catalog.PlanDefaults | app/api/products/route.ts:11-13 | Without parameters: page 1, limit 12, newest first, no filter. |
| Catalog.FilterKeepsMatches | app/api/products/route.ts:15-17 | The filter keeps exactly the products in the category with that slug, and featured when asked, and no more. |
| Catalog.NoFilterKeepsAll | app/api/products/route.ts:15-17 | Without a category or the featured flag, every product is listed. |
| Catalog.Offset | app/api/products/route.ts:34 | The skip of a page from 1 on is non-negative. |
| Catalog.OffsetStep | app/api/products/route.ts:34 | Each page starts `limit` products after the previous one. |
| Catalog.PageOf | app/api/products/route.ts:34-35 | A page holds at most `limit` products: the consecutive ones starting at `(page − 1) × limit`. It is short only at the end of the list. |
| Catalog.PageCount | app/api/products/route.ts:56 | The page count is the least number of pages of `limit` that cover the total, i.e. `ceil(total / limit)`. |
| Catalog.PagesArePrefix | app/api/products/route.ts:34-35 | Pages 1..n, concatenated, are the first n × limit products (or all of them). |
| Catalog.FilterAppend | app/api/products/route.ts:15-17 | Filtering distributes over concatenation, so the kept products keep their catalog order. |
| Catalog.PagesPartition | app/api/products/route.ts:34-56 | For limit > 0 and one order of the listed products shared by every page, pages 1..pages concatenate to exactly that order. |
| Catalog.TiedPagesMayRepeat | app/api/products/route.ts:19-36 | With two equally priced products, limit 1 and `price-asc`, page 1 and page 2 can both list the same product when the two queries order the tie differently; the other product is never listed. |
| Catalog.PageBeyondCountIsEmpty | app/api/products/route.ts:34-56 | A page number past the page count returns nothing. |
| Catalog.SumBounds | app/api/products/route.ts:44 | With every rating in [lo, hi], n × lo ≤ sum ≤ n × hi. |
| Catalog.ApprovedRatingsFrom | app/api/products/route.ts:31 | The approved ratings are drawn from the product's reviews, so bounds on those carry over. |
| Catalog.MeanWithinBounds | app/api/products/route.ts:43-45 | The mean of ratings in [lo, hi] lies in [lo, hi]. |
| Catalog.AverageWithinBounds | app/api/products/route.ts:31-46 | A product's average approved rating lies within the bounds of its ratings. |
| Catalog.NoApprovedReviewMeansZero | app/api/products/route.ts:42-47 | Without approved reviews, the count is 0 and the average is 0. |
| Catalog.View | app/api/products/route.ts:40-48 | The review count is the number of approved reviews, and a product with none averages 0. |
| Catalog.PageViews | app/api/products/route.ts:34-48 | The listed views are those of the page's products, in order. |
| Catalog.ListProducts | app/api/products/route.ts:6-66 | A negative skip (page < 1 with limit > 0) answers 500. Otherwise the reply echoes page and limit, with total = the number of matching products. For limit > 0 the products are the page's views and pages = `ceil(total / limit)`. For limit 0 nothing is listed and the page count is null. |
| Catalog.CreateProduct | app/api/products/route.ts:68-88 | Without an admin session: 401, nothing written. Otherwise the body's fields are stored as a new product, with `featured` true only when given as true, and it is appended to the catalog. The database invariant is kept. |

## Left out

- Networking, JSON parsing, logging and the HTTP framework. A handler is a method from its parsed inputs to a reply kind.
- Session lookup. It is an `Option<Session>` input.
- Webhook signature verification. It is the boolean input `signatureValid`; the cryptography is not modelled.
- The payment provider call. Its answer is an input; the provider's own behaviour is not modelled.
- Order number generation from the clock and a random string, and database-generated ids and timestamps. These are inputs.
- IEEE floating point. Money and averages are exact reals; `toFixed` display rounding is not modelled.
- Concurrency and atomicity. Handlers run one at a time; interleavings of concurrent requests are not modelled.
- Relation includes: first image, first variant, category object, shipping address. They shape the JSON only.
- Orders.ListOrders: returns the caller's orders as a map, without the newest-first ordering the query asks for.
- CartApi.GetCart: returns the caller's rows as a map from variant to quantity, without row order or the included variant details.
- Catalog.ListProducts: the database's sort is an input assumed to be a sorted permutation of the matching products; ties among equal sort keys may be in any order.
- Catalog.PagesPartition: the partition is proved for one order of tied products shared by all page requests; separate requests under a non-unique sort key may repeat or skip tied products (see `Catalog.TiedPagesMayRepeat`).
- Catalog.ListProducts: `name` ascending is modelled as character-code order; a database whose collation orders names otherwise (for example case-insensitively) is not covered.
- Catalog.ListProducts: a negative `limit` is not modelled, and `page` and `limit` are assumed to be numbers (no `parseInt` NaN).
- Catalog.CreateProduct: `featured` is modelled as an optional boolean; other truthy JSON values are not. Failures of the insert itself (missing required fields, a slug clash) are not modelled, because the database schema is not part of this model.
- Orders.CreateOrder: request bodies whose `items` is not a list are not modelled.
- Orders.CreateOrder: a body without `shippingAddressId` is not modelled, because whether the address relation is required is set by the database schema, which is not part of this model. Other insert failures the schema may impose are not modelled either; the route answers 500 for them.
- The `persist` middleware that mirrors the client store into browser storage.
- The cart page's "−" button that stops at quantity 1, and all other UI rendering.
- Database seeding, except the WELCOME10 record used as a worked example.
