# E-commerce storefront: order ledger, cart and listing rules in Dafny

This project models the parts of the storefront that hold real rules, and proves
properties about them:

- **The order ledger** (`ledger.dfy`, `order_service.dfy`, `legacy_order_service.dfy`).
  The `Database` class holds a product table (`map` from product id to product)
  and an order table (a `seq` in creation order; an order's id is its position).
  Placing an order walks the requested lines. For each line it re-reads the
  product, rejects a missing product or too little stock, and decrements the
  stock. The current service also raises `salesCount`. It snapshots the price
  and adds price × quantity to the total. The method works on the
  transaction's copy of the product table and commits only when all lines
  pass, so a failure changes nothing. The current service creates the order
  as PAID; the earlier one as PENDING. Cancellation checks its guard, then
  returns each item's quantity to stock and sets CANCELLED. Status updates
  and the two order listings are modelled as well. The pure function
  `Checkout` specifies the line loop, and `Restock` the stock return. The
  lemmas about them give the ledger's guarantees: no overselling, all or
  nothing, total = Σ price·quantity, and each cancellation returns exactly the
  order's quantities. The cancel guard reads only the status, and the admin
  status update has no transition check. So an order set back to PAID after
  cancelling can be cancelled again, and its stock returned again.
- **The order request validator** (`order_schema.dfy`): a non-empty list of
  lines, each with a UUID product id and a positive whole quantity.
- **The client stores** (`cart_store.dfy`): the cart as a class whose methods
  replace its `items` sequence, and the signed-in user and token.
- **Product listing** (`listing.dfy`, `product_service.dfy`,
  `legacy_product_service.dfy`): page and limit defaults, the offset, which
  filters and which ordering are chosen, `totalPages = ceil(total / limit)`,
  and, in the current version, the cache-aside lookup.
- **Product validators** (`product_schema.dfy`, `legacy_product_schema.dfy`,
  with `json.dfy` for raw values and numeral parsing).
- **The route guard** (`route_guard.dfy`): the middleware's decision on a path
  and the presence of a token.

Money in the ledger and the cart is counted in integer cents. The validators
and the listing deal with JavaScript numbers; there they are exact reals. The
database seen by the listing, the cache store and the browser's storage are
parameters or plain maps.

## Model

| member | source | states |
|---|---|---|
| `Ledger.Take` | backend/src/modules/orders/order.service.ts:10-41 | one line: a missing product gives "product not found" with its id; too little stock gives "insufficient stock" with the product's name; otherwise the product's stock drops by the quantity (never below 0), the table keeps its products, and the item records the line and the current price |
| `Ledger.Checkout` | backend/src/modules/orders/order.service.ts:9-42 | the line loop, first line first: on success the table keeps its products and there is one item per line |
| `Ledger.CheckoutFailure` | backend/src/modules/orders/order.service.ts:14-20 | a failed placement fails at some line k whose earlier lines all pass: either k's product is missing and the error is "not found" with its id, or lines 0..k ask more of k's product than its stock and the error is "insufficient stock" with its name |
| `Ledger.CheckoutSucceedsIff` | backend/src/modules/orders/order.service.ts:9-20 | with positive quantities, placement succeeds iff every named product exists and its stock covers the total quantity requested for it over all lines (repeated lines are checked against already reduced stock) |
| `Ledger.CheckoutEffect` | backend/src/modules/orders/order.service.ts:22-32 | after success each product's stock is lower and (when sales are counted) its salesCount higher by exactly the total quantity requested for it; names, prices and the set of products are unchanged |
| `Ledger.UnnamedProductsUnchanged` | src/modules/orders/order.service.ts:9-31 | a product no line names is left exactly as it was |
| `Ledger.CheckoutItems` | backend/src/modules/orders/order.service.ts:34-41 | one item per line, in input order, with the line's productId and quantity and the product's price at that moment as priceAtPurchase |
| `Ledger.CheckoutKeepsStockNonNegative` | backend/src/modules/orders/order.service.ts:10-20 | a successful placement never makes a stock negative |
| `Ledger.CheckoutTotal` | backend/src/modules/orders/order.service.ts:34-35 | the accumulated total equals Σ price·quantity of the lines at the table's prices |
| `Ledger.PlacementKeepsConsistent` | backend/src/modules/orders/order.service.ts:44-52 | committing a placement with its new order keeps the database invariant (stocks ≥ 0, every order's total is Σ priceAtPurchase·quantity of its items, every item names an existing product and has a positive quantity) |
| `Ledger.Restock` | backend/src/modules/orders/order.service.ts:85-89 | the stock return adds each item's quantity to its product, and the table keeps its products |
| `Ledger.RestockEffect` | backend/src/modules/orders/order.service.ts:85-89 | returning an order's stock adds, per product, the total quantity of its items and changes nothing else (salesCount untouched) |
| `Ledger.CancelUndoesPlacement` | backend/src/modules/orders/order.service.ts:80-94 | cancelling right after placing restores every stock exactly; salesCount keeps the sale |
| `Ledger.RestockTwice` | backend/src/modules/orders/order.service.ts:62-94 | returning an order's stock a second time adds its quantities again: nothing in the stock return stops a repeat |
| `OrderService.RunLines` | backend/src/modules/orders/order.service.ts:9-42 | the loop over the transaction's copy of the table gives exactly `Checkout`'s outcome with sales counted, and on success the accumulated total is Σ priceAtPurchase·quantity of the created items |
| `OrderService.CreateOrder` | backend/src/modules/orders/order.service.ts:4-60 | fails with the first failing line's error (product not found / insufficient stock) and changes nothing, or commits the checked table and appends a PAID order of the caller with the items and their total; keeps the invariant |
| `OrderService.CancelCheck` | backend/src/modules/orders/order.service.ts:74-78 | passes iff the order exists, belongs to the caller and is PAID or PENDING; "order not found" iff the id is unknown; "unauthorized" iff the order belongs to someone else; "cannot be cancelled" iff it is the caller's own order in another status |
| `OrderService.CancelOrder` | backend/src/modules/orders/order.service.ts:69-97 | a rejected cancel returns the guard's error and changes nothing; a successful one restocks every item and sets CANCELLED, after which the guard refuses the order until its status is overwritten |
| `OrderService.UpdateOrderStatus` | backend/src/modules/orders/order.service.ts:62-67 | overwrites only the status of an existing order, with no transition check; a missing order is an error |
| `OrderService.ReopenedOrderCancelsAgain` | backend/src/modules/orders/order.service.ts:62-76 | a cancelled order fails the cancel guard, but once its status is overwritten with PAID the guard lets its owner cancel it again |
| `OrderService.NewestFirst` | backend/src/modules/orders/order.service.ts:109 | returns exactly the kept orders, each with its id, ids strictly decreasing |
| `OrderService.GetUserOrders` | backend/src/modules/orders/order.service.ts:99-111 | exactly the caller's orders, each once, newest first |
| `OrderService.GetAllOrders` | backend/src/modules/orders/order.service.ts:113-123 | all orders, or with activeOnly exactly those not DELIVERED, newest first |
| `LegacyOrderService.RunLines` | src/modules/orders/order.service.ts:9-41 | the loop gives exactly `Checkout`'s outcome without counting sales, and on success the total is Σ priceAtPurchase·quantity of the created items |
| `LegacyOrderService.CreateOrder` | src/modules/orders/order.service.ts:4-60 | as the current placement, but salesCount stays as it was and the order is PENDING; a failure discards the earlier lines' decrements |
| `OrderSchema.LineIssues` | src/modules/orders/order.schema.ts:5-8 | a line has no issue iff its productId is a UUID string and its quantity a positive whole number |
| `OrderSchema.LinesIssues` | src/modules/orders/order.schema.ts:4-8 | no issue in a list iff every line is valid |
| `OrderSchema.ValidateOrder` | src/modules/orders/order.schema.ts:3-10 | accepts iff items is a non-empty array of valid lines; an empty list gives exactly "Order must have at least one item"; accepted lines keep productId and quantity, each quantity > 0 |
| `OrderSchema.AcceptedLinesArePositive` | src/modules/orders/order.schema.ts:7 | every accepted line has a positive quantity, which placement relies on |
| `OrderSchema.DuplicateLinesAccepted` | src/modules/orders/order.schema.ts:3-10 | the same valid line twice is accepted: no uniqueness on productIds |
| `Json.NumeralValue` | backend/src/modules/products/product.schema.ts:12-13 | the value of an n-digit numeral is below 10^n |
| `Json.DecimalValue` | backend/src/modules/products/product.schema.ts:16-17 | a plain decimal string denotes a non-negative number |
| `Json.NumeralIsDecimal` | backend/src/modules/products/product.schema.ts:16-17 | a numeral read as a decimal has the numeral's value |
| `Json.ToNumber` | backend/src/modules/products/product.schema.ts:6-7 | coercion keeps numbers, reads decimal strings, and gives NaN for an absent value |
| `ClientStore.Find` | frontend/src/lib/store.ts:60 | finds the first entry with the id, or reports that none has it |
| `ClientStore.Bumped` | frontend/src/lib/store.ts:64-68 | same length; exactly the entries with the id change, by the given delta in quantity |
| `ClientStore.Without` | frontend/src/lib/store.ts:78 | keeps only entries with other ids, drawn from the original list |
| `ClientStore.Cart.constructor` | frontend/src/lib/store.ts:57 | the cart starts empty and well formed |
| `ClientStore.Cart.AddItem` | frontend/src/lib/store.ts:58-75 | a new id is appended with quantity 1; an existing id has only its entry raised by 1, length unchanged; the item count grows by 1; the result is `Apply` of the add |
| `ClientStore.Cart.RemoveItem` | frontend/src/lib/store.ts:76-80 | the entries without that id remain (`Apply` of the removal); the cart stays well formed |
| `ClientStore.Cart.Increment` | frontend/src/lib/store.ts:81-87 | only the matching entry rises by 1 (`Apply` of the increment); the cart stays well formed |
| `ClientStore.Cart.Decrement` | frontend/src/lib/store.ts:88-102 | lowers by 1 above 1, removes the entry at 1 (`Apply` of the decrement); the cart stays well formed |
| `ClientStore.Cart.ClearCart` | frontend/src/lib/store.ts:103 | the cart is empty and both total and count are 0 |
| `ClientStore.Cart.GetTotal` | frontend/src/lib/store.ts:104-109 | the total is non-negative when no price is negative |
| `ClientStore.Cart.GetItemCount` | frontend/src/lib/store.ts:110-112 | the count is at least the number of entries |
| `ClientStore.ItemCountAtLeastLength` | frontend/src/lib/store.ts:110-112 | with every quantity ≥ 1 the sum of quantities is at least the number of entries |
| `ClientStore.TotalNonNegative` | frontend/src/lib/store.ts:104-109 | Σ price·quantity ≥ 0 when prices are ≥ 0 and quantities ≥ 1 |
| `ClientStore.ItemCountAppend` | frontend/src/lib/store.ts:70-73 | appending an entry adds its quantity to the count and price·quantity to the total |
| `ClientStore.ItemCountBumped` | frontend/src/lib/store.ts:62-69 | raising a present entry by d adds d to the count and that entry's stored price·d to the total |
| `ClientStore.BumpedAbsent` | frontend/src/lib/store.ts:81-87 | incrementing an absent id leaves the cart unchanged |
| `ClientStore.WithoutAbsent` | frontend/src/lib/store.ts:97-100 | removing or decrementing an absent id leaves the cart unchanged |
| `ClientStore.WithoutPresent` | frontend/src/lib/store.ts:76-80 | removing the one entry with the id yields the list without that entry, others in order |
| `ClientStore.WithoutSums` | frontend/src/lib/store.ts:76-80 | removing that entry lowers the count by its quantity and the total by its price·quantity |
| `ClientStore.BumpedKeepsWellFormed` | frontend/src/lib/store.ts:81-96 | raising, or lowering an entry that stays ≥ 1, keeps ids unique and quantities ≥ 1 |
| `ClientStore.WithoutKeepsWellFormed` | frontend/src/lib/store.ts:76-80 | removal keeps ids unique and quantities ≥ 1 |
| `ClientStore.ReplayWellFormed` | frontend/src/lib/store.ts:57-103 | from an empty cart, any sequence of add, remove, increment, decrement and clear (each method's result is `Apply` of its operation) keeps ids unique and quantities ≥ 1 |
| `ClientStore.Auth.constructor` | frontend/src/lib/store.ts:21-22 | no user and no token at first |
| `ClientStore.Auth.SetAuth` | frontend/src/lib/store.ts:23 | stores user and token; admin iff the user's role is ADMIN |
| `ClientStore.Auth.Logout` | frontend/src/lib/store.ts:24-27 | clears user and token; no longer admin |
| `ClientStore.Auth.IsAdmin` | frontend/src/lib/store.ts:28 | true iff a user is present with role ADMIN |
| `Listing.Query` | backend/src/modules/products/product.service.ts:76-84 | findMany and count refuse a plan with a negative skip and answer any other plan from the database |
| `Listing.TotalPages` | backend/src/modules/products/product.service.ts:92 | ceil(total / limit): the fewest pages holding all rows; undefined (null) iff limit is 0 |
| `Listing.Skip` | backend/src/modules/products/product.service.ts:40 | the offset is non-negative from page 1 on and −limit for page 0; it is negative iff the page is 0 and the limit positive |
| `Listing.LastPageStartsBeforeTotal` | backend/src/modules/products/product.service.ts:92 | page totalPages starts before the last row and the page after it does not |
| `Listing.Folded` | backend/src/modules/products/product.service.ts:47 | case folding keeps length and folds each character |
| `Listing.NoFilterMatchesAll` | backend/src/modules/products/product.service.ts:42 | an empty filter keeps every row |
| `Listing.NameFilterFindsInfix` | backend/src/modules/products/product.service.ts:44-49 | the name filter finds its text at any position of the name |
| `ProductSchema.OptionalString` | backend/src/modules/products/product.schema.ts:5 | accepts exactly an absent value or a string |
| `ProductSchema.ValidateCreateProduct` | backend/src/modules/products/product.schema.ts:3-9 | accepts iff name is a non-empty string, description and category are absent or strings, price coerces to a number ≥ 0 and stock to a whole number ≥ 0; the accepted input carries the name, the coerced price and stock, and description and category when given |
| `ProductSchema.OptionalFieldsMayBeOmitted` | backend/src/modules/products/product.schema.ts:5-8 | a body without description and category is accepted |
| `ProductSchema.PriceStringIsCoerced` | backend/src/modules/products/product.schema.ts:6-7 | "12.50" and "3" are accepted as 12.5 and 3 |
| `ProductSchema.TwelveFifty` | backend/src/modules/products/product.schema.ts:6 | the decimal string "12.50" reads as 12.5 |
| `ProductSchema.IntOr` | backend/src/modules/products/product.schema.ts:12-13 | an absent or empty string gives the default, a numeral its value |
| `ProductSchema.DecimalOrNone` | backend/src/modules/products/product.schema.ts:16-17 | undefined iff absent or empty, the parsed value otherwise |
| `ProductSchema.ParseSortBy` | backend/src/modules/products/product.schema.ts:19 | "newest" by default; accepted iff absent or one of the four values, and then yields the ordering with that spelling |
| `ProductSchema.ParseQuery` | backend/src/modules/products/product.schema.ts:11-20 | page 1 and limit 10 by default, bounds undefined when absent or empty, featured iff exactly "true", sortBy validated with default |
| `ProductSchema.EmptyQueryDefaults` | backend/src/modules/products/product.schema.ts:11-20 | an empty query is page 1 of 10, unfiltered, not featured, newest first |
| `LegacyProductSchema.ValidateCreateProduct` | src/modules/products/product.schema.ts:3-8 | accepts iff name is a non-empty string, description absent or a string, price a number ≥ 0 and stock a whole number ≥ 0, without coercion |
| `LegacyProductSchema.PriceStringRefused` | src/modules/products/product.schema.ts:6 | a price sent as a string is refused |
| `LegacyProductSchema.ParseQuery` | src/modules/products/product.schema.ts:10-16 | page 1 and limit 10 when absent or empty, price bounds undefined when absent or empty and parsed otherwise |
| `ProductService.WhereFor` | backend/src/modules/products/product.service.ts:42-63 | name filter iff a non-empty name, category filter iff a non-empty category, price range iff either bound is given, with those bounds |
| `ProductService.OrderByFor` | backend/src/modules/products/product.service.ts:65-74 | featured always orders by salesCount descending; otherwise each sortBy picks its ordering, createdAt descending by default |
| `ProductService.PlanFor` | backend/src/modules/products/product.service.ts:39-40 | takes `limit` rows after skipping `(page − 1) · limit`; 10 rows from offset 0 by default |
| `ProductService.WhereForMeaning` | backend/src/modules/products/product.service.ts:44-63 | a row passes iff it meets each condition the query sets: name contains (case-insensitive), category equals (case-insensitive), price within inclusive bounds |
| `QueryKey.CacheKey` | backend/src/modules/products/product.service.ts:32 | the key is "products:" followed by the query as a JSON object: members in the schema's order, undefined members left out, strings quoted, numbers in decimal |
| `QueryKey.ShowNumberInjective` | backend/src/modules/products/product.service.ts:32 | two numbers with at most 17 fractional digits that print alike are equal |
| `QueryKey.MembersInjective` | backend/src/modules/products/product.service.ts:32 | two member lists with the same distinct keys and values of the same kind that serialise alike are equal |
| `QueryKey.SerializedInjective` | backend/src/modules/products/product.service.ts:32 | equal keys come from equal member lists |
| `QueryKey.SortByNameParses` | backend/src/modules/products/product.schema.ts:19 | each ordering's spelling parses back to that ordering |
| `QueryKey.CacheKeyInjective` | backend/src/modules/products/product.service.ts:32-37 | two queries (prices with at most 17 fractional digits) share a cache key iff they are equal, so a hit returns the page stored for the same query |
| `ProductService.FetchPage` | backend/src/modules/products/product.service.ts:39-94 | issues the planned query; fails iff the page is 0 with a positive limit (negative skip), otherwise returns its rows with total, page, limit and ceil(total / limit) |
| `ProductService.GetProducts` | backend/src/modules/products/product.service.ts:31-99 | a hit returns the cached page without querying; a miss fetches the page and stores it under the key with a 30-second lifetime, or, for page 0, fails and caches nothing |
| `LegacyProductService.WhereFor` | src/modules/products/product.service.ts:15-29 | no category filter; name filter iff a non-empty name; price range iff either bound is given |
| `LegacyProductService.GetProducts` | src/modules/products/product.service.ts:11-50 | page 1 and limit 10 by default, skip (page − 1) · limit, always createdAt descending, meta with ceil(total / limit); fails iff the page is 0 with a positive limit |
| `LegacyProductService.WhereForMeaning` | src/modules/products/product.service.ts:17-29 | a row passes iff its name contains the non-empty name (case-insensitive) and its price is within the inclusive bounds |
| `RouteGuard.Decide` | frontend/src/middleware.ts:4-30 | redirects to /login iff no token on an /admin… or /checkout… path; to / iff a token on exactly /login or /register; passes otherwise |
| `RouteGuard.Route` | frontend/src/middleware.ts:32-34 | only /admin, /checkout (with sub-paths), /login and /register reach the guard; everything else passes |
| `RouteGuard.NoRedirectLoop` | frontend/src/middleware.ts:25-29 | the redirect target lets the same visitor through |
| `RouteGuard.AdminNeedsOnlyAToken` | frontend/src/middleware.ts:9-15 | any non-empty token opens every /admin path; the role is not checked |
| `RouteGuard.PrefixMatching` | frontend/src/middleware.ts:9 | the decision guards /administrator by prefix, yet the installed patterns never route it to the guard |

## Left out

- Concurrency and isolation: every service call is one sequential, atomic step. `cancelOrder` reads the order outside its transaction, and interleavings with other requests are not modelled.
- Order and product ids are not UUIDs generated by the database: an order's id is its position in the order table. Timestamps are not modelled; "newest first" is descending position.
- `getUserOrders` and `getAllOrders` also join product rows and the user's e-mail into their results. That join is not modelled.
- `getAdminAnalytics`: it runs parallel aggregates and formats a floating-point percentage. It is not modelled.
- Product create, update, delete and get-by-id are single ORM calls and are not modelled. The database invariant assumes referential integrity: no product named by an order is deleted.
- `updateOrderStatus` accepts any value from the request body. The model takes an `OrderStatus`, so the database's rejection of an unknown status is not modelled.
- `OrderService.CreateOrder`: requires positive quantities, which its callers guarantee by validating with the order schema first.
- `LegacyOrderService.CreateOrder`: requires positive quantities, for the same reason.
- `OrderSchema.IsUuid` checks the 8-4-4-4-12 hexadecimal shape. Any version or variant digit rules of the validation library are not modelled.
- `ProductSchema.ParseQuery`: requires page and limit to be empty or plain numerals, and price bounds to be empty or plain decimals. JavaScript's reading of other strings (a numeric prefix, NaN, signs, exponents, hexadecimal, whitespace) is not modelled.
- `LegacyProductSchema.ParseQuery`: has the same restriction to plain numerals and decimals.
- `Json.ToNumber`: any string other than "" and a plain decimal becomes NaN, and so do arrays and objects. JavaScript's `Number()` also reads other strings, for example "12.", ".5", "Infinity", "0x1F", "0b1", "0o7", surrounding whitespace, signs and exponents, and it reads some arrays as numbers.
- Money: the ledger and the cart use integer cents. The validators and the listing use exact reals for JavaScript numbers. Floating-point rounding, the conversion of database decimals with `Number(...)` and `toFixed` display are not modelled.
- The listing's database is a parameter that answers a plan with rows and a count. Ordering and paging of the rows are the database's job and are not modelled; `Listing.Matches` gives the meaning of the filter. Case-insensitive matching folds ASCII letters only.
- `QueryKey.CacheKey`: strings are escaped only for `"` and `\`. Numbers are printed in plain decimal, cut after 17 fractional digits. JavaScript's shortest round-trip formatting, exponent notation and control-character escapes are not modelled.
- `QueryKey.CacheKeyInjective`: holds for prices with at most 17 fractional digits. Past that the printed text cuts digits off; JavaScript's own printing of doubles is not modelled.
- The listing's database refuses only a negative skip. Its other failures (connection loss, timeouts) are not modelled.
- The cache is a map. Expiry after 30 seconds needs a clock and is not modelled, so the model records the lifetime but never removes entries. The JSON round trip of a cached page (for example, dates becoming strings) is not modelled.
- The cart and auth stores persist to browser storage, and `logout` also removes the stored auth entry. That storage is not modelled, so a reloaded store is assumed to start from the state the model describes.
- The route guard reads the token from the `ecommerce_token` cookie; the model receives the cookie's value. Next.js's matcher conventions beyond the four patterns (such as trailing slashes) are not modelled.
- Payments, authentication (password hashing, JWT), controllers, routers, the e-mail queue and all UI components are not part of this model.
