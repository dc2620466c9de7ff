# A verified model of the ecommerce-platform storefront core

This project models, in Dafny, the core of a React and TypeScript storefront:
a product catalogue served by a headless CMS (Contentful), a shopping cart,
a checkout that writes the order to a Firestore `orders` collection and
decrements the CMS stock, three serverless Stripe handlers, the pages that
come back from Stripe, and an admin dashboard (stock table, product panel,
orders and users panels, sales metrics), together with the storefront's
"top selling" and "trending" sections, its filters and its pagination.

The model follows the source file by file, one module per file:

- Pure computations (prices, filters, pagination, tallies, request
  handlers) are functions over datatypes, with lemmas for what they promise.
- Loops that build a value step by step (the top-selling and trending
  tallies, the dashboard's month buckets, the stock handlers, the
  checkout's stock check and submit sequence, the CMS retry loop) are
  methods with loop invariants. Each is proved against a specification
  function, and that function's properties are proved as lemmas.
- React state (the cart store, the auth provider, the hooks and panels
  that keep a list, a loading flag and an error) is a class whose fields
  the methods update. Each method states the whole new state.

Everything outside the program is a parameter:

- the Firebase, Contentful and Stripe SDK calls;
- the clock and the calendar.

A call's outcome is an oracle argument: a success flag, an optional
snapshot, or a function saying which calls of a retry attempt succeed.
No network, storage or time is modelled beyond these arguments.

Conventions:

- Money held by the storefront (catalogue prices, cart and order lines) is
  an integer number of minor units (cents).
- The price range of the filters is in major units, so a bound `b` is
  compared with `100 * b`.
- Prices sent to the Stripe handlers are JavaScript numbers in major
  units, modelled as `real`. `Math.round(x * 100)` is written out as
  rounding half up.
- JavaScript's falsy tests, `??`, `slice` with negative bounds and
  `toFixed(2)` are written out explicitly.

Some of the results below are about the code as it stands:

- The trending section reads a line's `price`, which the checkout never
  writes, so checkout orders never trend
  (`TrendingProducts.CheckoutOrdersNeverTrend`).
- An order listing uses a stored `id` field in place of the document id,
  so deleting such an order clears it from the list but not from the
  collection (`UseOrders.ListedIdSource`).
- `create-payment-intent` sends `amount` unscaled
  (`CreatePaymentIntent.AmountVerbatim`).
- The catalogue page runs its filter hook with the fixed category "all",
  so the sidebar's filters have no effect there
  (`ProductFilterPage.FiltersHaveNoEffect`).
- The Stripe return page and the success page mark any existing order
  paid without checking a payment (`SuccessPage.ReturnPathMarksPaid`).
- The CMS stock update retries after linearly growing waits of 300 ms,
  600 ms, and so on.

## Model

| member | source | states |
|---|---|---|
| ProductsAndOrders.DayStart | src/hooks/useProductsAndOrders.tsx:42-43 | the window opens at local midnight of the start date's day: at most `t` and less than a day before it |
| ProductsAndOrders.DayEnd | src/hooks/useProductsAndOrders.tsx:44-45 | the window closes at the last millisecond of the end date's day: at least `t`, less than a day after it, and one millisecond before the next local midnight |
| ProductsAndOrders.OrderInstant | src/hooks/useProductsAndOrders.tsx:28-40 | an order has no date exactly when `createdAt` is missing, unrecognised, or a plain object whose `seconds` is 0 |
| ProductsAndOrders.FilterOrdersSpec | src/hooks/useProductsAndOrders.tsx:27-48 | an order is kept iff it has a date between the start day's midnight and the end day's last millisecond, both inclusive; kept orders stay in order |
| ProductsAndOrders.WindowIsWholeDays | src/hooks/useProductsAndOrders.tsx:42-47 | any instant of the start day or of the end day falls inside the window, whatever the time of day of the picked dates |
| ProductsAndOrders.GetUpdatedStock | src/hooks/useProductsAndOrders.tsx:66-82 | the loop's result equals `Reconciled`: the initial stock unchanged when there are no orders, else the initial stock less the units sold, clamped at 0 |
| ProductsAndOrders.ReconciledNonNegative | src/hooks/useProductsAndOrders.tsx:80-81 | with at least one order the result is defined and never negative |
| ProductsAndOrders.TotalSoldNonNegative | src/hooks/useProductsAndOrders.tsx:71-78 | with non-negative line quantities the units sold are non-negative |
| ProductsAndOrders.ReconciledAtMostInitial | src/hooks/useProductsAndOrders.tsx:71-81 | with non-negative quantities, a non-negative stock only goes down and stays in [0, initial] |
| ProductsAndOrders.UnsoldProduct | src/hooks/useProductsAndOrders.tsx:73-81 | a product on no order line gets back max(initial, 0) |
| ProductsAndOrders.NoItemsSellsNothing | src/hooks/useProductsAndOrders.tsx:73 | an order without an `items` array sells nothing |
| ProductsAndOrders.TotalSoldAppend | src/hooks/useProductsAndOrders.tsx:72-78 | the units sold over two lists of orders add up |
| ProductsAndOrders.TotalSoldFlat | src/hooks/useProductsAndOrders.tsx:72-78 | summing per order equals summing over all lines in one list, repeats within an order included |
| ProductsAndOrders.MoreOrdersLessStock | src/hooks/useProductsAndOrders.tsx:66-82 | adding orders with non-negative quantities never raises the reconciled stock |
| ProductsAndOrders.ProductsHook.constructor | src/hooks/useProductsAndOrders.tsx:7-9 | starts with no products, no orders, and loading |
| ProductsAndOrders.ProductsHook.LoadData | src/hooks/useProductsAndOrders.tsx:12-60 | with both reads successful, products are the whole listing (never filtered by orders) and orders the windowed ones; on a failed read both stay as they were; loading ends either way |
| CheckoutPage.ValidateStock | src/components/CheckoutPage.tsx:83-95 | the stock check passes iff no cart line is out of stock (`inStock === 0`) or over its stock; when it fails, the alert names the first such line in cart order and says which of the two it is |
| CheckoutPage.OrderItems | src/components/CheckoutPage.tsx:109-118 | the stored items are the cart's lines, one for one and in cart order, each projected to id, name, quantity, discounted price, image and cost price |
| CheckoutPage.FirstFailingSpec | src/components/CheckoutPage.tsx:84-94 | the loop stops at a line iff some line fails, and the line it stops at is the first failing one |
| CheckoutPage.OnSubmit | src/components/CheckoutPage.tsx:97-132 | the submission's outcome, the stock figures written, the orders collection and the cart are exactly those of the specification of the submit sequence, and the drawer's open flag is untouched |
| CheckoutPage.InvalidWritesNothing | src/components/CheckoutPage.tsx:98 | a failed stock check writes no stock, writes no order and keeps the cart |
| CheckoutPage.PassedWritesNonNegative | src/components/CheckoutPage.tsx:102-104 | once the stock check passed, every stock figure `inStock - quantity` to be written is a number no smaller than zero, or NaN when the line has no stock figure |
| CheckoutPage.OrderOnlyAfterStock | src/components/CheckoutPage.tsx:102-125 | an order document is written, and the cart cleared, only when every stock write succeeded, a user is signed in and the order write succeeded; the placed order lives under `uid_now` and the page goes to /success; otherwise the orders and cart are as before and there is no navigation; a submission that fails after the stock check leaves the space exactly as the stock writes left it, with nothing undone |
| CheckoutPage.OrderMirrorsCart | src/components/CheckoutPage.tsx:107-122 | the order stores the form data, the user id, the cart's total and one item per cart line in cart order |
| CheckoutPage.DocIdParts | src/components/CheckoutPage.tsx:107 | for a uid without `_`, the document id splits at `_` into the uid and the decimal clock reading, which reads back as the clock reading |
| CheckoutPage.HappyPath | src/components/CheckoutPage.tsx:97-125 | with every remote call succeeding and every product present, a cart that passes the stock check is placed under `uid_now` and the cart emptied; no entry no line names changes, and with one line per product each line's entry ends holding `inStock - quantity`, published, under its own name |
| CheckoutPage.HappyWrites | src/components/CheckoutPage.tsx:102-105 | with every product present and every write succeeding, the stock writes from any line onward raise no failure |
| CheckoutPage.PlusClick | src/components/CheckoutPage.tsx:291-294 | the "+" control raises the line's quantity through the store only when the quantity is below the stock figure, and otherwise leaves the cart as it was |
| CheckoutPage.PlusKeepsWithinStock | src/components/CheckoutPage.tsx:291-294 | a permitted "+" click leaves that line at or below its stock and every other line unchanged |
| CheckoutPage.ValidPhoneShape | src/components/CheckoutPage.tsx:26-29 | a phone number is accepted iff it is "+92" followed by exactly ten decimal digits |
| CheckoutPage.PhoneExamples | src/components/CheckoutPage.tsx:29 | a twelve-digit "+92" number is accepted; one digit short, or a local "03…" number, is refused |
| CheckoutPage.WriteStock | src/components/CheckoutPage.tsx:102-105 | the loop of stock writes leaves the figures written so far and the first failure exactly as the specification of the write sequence does |
| CheckoutPage.FirstFailingIs | src/components/CheckoutPage.tsx:84-94 | when line i fails the stock check and no earlier line does, the check stops at line i |
| CheckoutPage.LineWrite | src/components/CheckoutPage.tsx:102-104 | one line's stock write keeps every entry's name, touches no other entry, and unless it fails leaves the line's entry at `inStock - quantity`, published |
| CheckoutPage.WritesFrame | src/components/CheckoutPage.tsx:102-105 | the stock writes keep the space's entries and names, and leave the entries no line names as they were |
| CheckoutPage.CleanWritesLand | src/components/CheckoutPage.tsx:102-105 | with one line per product, writes that report no failure leave every line's entry at `inStock - quantity`, published |
| CheckoutPage.WritesSplit | src/components/CheckoutPage.tsx:102-105 | the writes of the whole cart are those of its first lines followed by those of the rest, the first failure coming from the first lines when they have one |
| CheckoutPage.NoRollback | src/components/CheckoutPage.tsx:102-105 | when the first lines' writes all go through, their entries keep the new stock, published, whatever the later writes do |
| CheckoutPage.FailedSubmitKeepsWrites | src/components/CheckoutPage.tsx:97-128 | a submission that fails after the stock check writes no order and keeps the cart, yet the lines whose writes went through keep their new stock, published |
| CartStore.AddNew | src/store/useCartStore.ts:34-45 | a product not in the cart becomes the last line, with quantity 1 and every field of the product copied |
| CartStore.AddExisting | src/store/useCartStore.ts:36-42 | a product already in the cart gets one more unit on its own line, keeping that line's stored fields; no other line changes and no line is added |
| CartStore.RemoveSpec | src/store/useCartStore.ts:48-51 | removal leaves no line with the id, keeps exactly the lines with other ids, in order |
| CartStore.DecreaseSpec | src/store/useCartStore.ts:60-67 | decreasing never removes a line and never takes a quantity below 1; a line at quantity 1 is left as it is |
| CartStore.FilterWellFormed | src/store/useCartStore.ts:48-51 | filtering a cart with one line per product and positive quantities keeps both properties |
| CartStore.AddedWellFormed | src/store/useCartStore.ts:34-45 | `addToCart` keeps one line per product, each with at least one unit |
| CartStore.AddedUniqueIds | src/store/useCartStore.ts:34-45 | `addToCart` never creates a second line for a product |
| CartStore.RemovedWellFormed | src/store/useCartStore.ts:48-51 | `removeFromCart` keeps one line per product, each with at least one unit |
| CartStore.IncreasedWellFormed | src/store/useCartStore.ts:53-58 | `increaseQty` keeps one line per product, each with at least one unit |
| CartStore.DecreasedWellFormed | src/store/useCartStore.ts:60-67 | `decreaseQty` keeps one line per product, each with at least one unit |
| CartStore.IncreaseThenDecrease | src/store/useCartStore.ts:53-67 | on a well-formed cart, `decreaseQty` after `increaseQty` of the same id gives back the cart |
| CartStore.AddNewThenRemove | src/store/useCartStore.ts:34-51 | removing a product just added as new gives back the cart |
| CartStore.TotalEmpty | src/store/useCartStore.ts:71-75 | the empty cart totals 0 |
| CartStore.TotalAddedNew | src/store/useCartStore.ts:34-75 | adding a new product raises the total by its list price |
| CartStore.TotalAddedExisting | src/store/useCartStore.ts:36-75 | adding a product already in the cart raises the total by the price stored on its line |
| CartStore.RemovedOneLine | src/store/useCartStore.ts:48-51 | with unique ids, removing line k's product drops exactly line k |
| CartStore.TotalRemoved | src/store/useCartStore.ts:48-75 | removing a product lowers the total by exactly its line's quantity times price |
| CartStore.Store.constructor | src/store/useCartStore.ts:28-29 | the store starts with an empty cart and the drawer closed |
| CartStore.Store.ToggleCart | src/store/useCartStore.ts:31-32 | the drawer flag flips and the cart is untouched |
| CartStore.Store.AddToCart | src/store/useCartStore.ts:34-46 | the cart becomes the `addToCart` result and stays well-formed |
| CartStore.Store.RemoveFromCart | src/store/useCartStore.ts:48-51 | the cart becomes the `removeFromCart` result and stays well-formed |
| CartStore.Store.IncreaseQty | src/store/useCartStore.ts:53-58 | the cart becomes the `increaseQty` result and stays well-formed |
| CartStore.Store.DecreaseQty | src/store/useCartStore.ts:60-67 | the cart becomes the `decreaseQty` result and stays well-formed |
| CartStore.Store.ClearCart | src/store/useCartStore.ts:69 | the cart is emptied and the drawer flag kept |
| CartIcon.BadgeIffLines | src/components/CartIcon.tsx:6-11 | on a well-formed cart the unit count is at least the number of lines, so the badge shows exactly when the cart has a line |
| CartIcon.CountAdded | src/components/CartIcon.tsx:6 | every `addToCart` raises the badge count by exactly one |
| CartIcon.Click | src/components/CartIcon.tsx:9 | a click toggles the drawer and leaves the cart alone |
| CartStore.RemovedNone | src/store/useCartStore.ts:48-51 | removing a product no line holds leaves the cart unchanged |
| ProductPage.QuantityInCart | src/pages/ProductPage.tsx:53 | a product with no cart line counts 0 units |
| ProductPage.QuantityOfLine | src/pages/ProductPage.tsx:53 | on a cart with one line per product, the count is that product's line quantity |
| ProductPage.AddButtonFor | src/pages/ProductPage.tsx:124-130 | the button is disabled exactly when the product has a stock figure and the cart already holds at least that many units, and then reads "Out of Stock", otherwise "Add to Cart" |
| ProductPage.BuyNowMerch | src/pages/ProductPage.tsx:59 | "Buy Now" hands over the product with its own id and price, and a discounted price that falls back to the list price |
| ProductPage.BuyNow | src/pages/ProductPage.tsx:55-64 | "Buy Now" always goes to /checkout; the cart is unchanged when the product shows out of stock and otherwise gets the product added |
| ProductPage.AddToCartClick | src/pages/ProductPage.tsx:124-130 | a disabled button leaves the cart alone; an enabled one adds the product as it is |
| ProductPage.AddRaisesQuantity | src/pages/ProductPage.tsx:53-125 | each add raises the product's cart count by exactly one |
| ProductPage.GateKeepsWithinStock | src/pages/ProductPage.tsx:54-126 | starting at or below the stock figure, an add the button allows keeps the cart count at or below it |
| AdminProducts.CountsPartition | src/components/AdminDashboardLayout/Products.tsx:78-80 | the in-stock and out-of-stock counts never overlap; they add up to the total exactly when every product's reconciled stock is a number, which holds whenever an order is loaded |
| AdminProducts.BadgesAgreeWithCounts | src/components/AdminDashboardLayout/Products.tsx:79-117 | no row shows both badges; "Out of Stock!" marks exactly the rows the out-of-stock count counts; a "Low in Stock!" row is counted in stock, and an in-stock row without the badge has more than 5 units |
| AdminProducts.GateAsWrittenIgnoresUser | src/components/AdminDashboardLayout/Products.tsx:12-22 | as written, the gate tests an always-undefined e-mail: it lets everyone in when the admin e-mail is unset and nobody, not even the admin, when it is set |
| AdminProducts.GateAdmitsOnlyAdmin | src/services/authService.ts:64-66 | reading the signed-in user's e-mail, the gate admits exactly the user whose e-mail is the configured admin e-mail |
| AdminProducts.Page | src/components/AdminDashboardLayout/Products.tsx:22-117 | the page is the refusal exactly when the gate's answer is no; otherwise it shows the total and the two reconciled-stock counts over every product, then "Loading..." exactly while loading, and after that one row per product the name search keeps, in order, with its reconciled stock and the two badges |
| AdminProducts.DefaultWindow | src/components/AdminDashboardLayout/Products.tsx:14-17 | the default range covers eight whole local days, so every order dated within the last seven days is in the window |
| AdminProducts.UpdateDiscount | src/components/AdminDashboardLayout/Products.tsx:44-53 | a successful remote write sets the discount on the products with that id; a failed one changes nothing; orders and loading are untouched |
| AdminProducts.DiscountKeepsCounts | src/components/AdminDashboardLayout/Products.tsx:44-80 | a discount change moves no product between the stock counts |
| AdminProducts.AsWrittenPageRefusesAdmin | src/components/AdminDashboardLayout/Products.tsx:12-24 | gated as written, with the admin e-mail configured, the admin signed in with it gets the refusal |
| AdminProducts.CorrectedPageAdmitsAdmin | src/components/AdminDashboardLayout/Products.tsx:12-24 | gated by the corrected check, the same admin gets the counts, then the table exactly when loading has ended |
| DashboardProducts.CountsMissNegativeStock | src/components/dashboardLayout/Products.tsx:82-84 | the counts never overlap, and they add up to the total exactly when every product's stock figure is a number no smaller than zero; negative or missing stock is in neither |
| DashboardProducts.ListingCountsNothing | src/components/dashboardLayout/Products.tsx:14-84 | on the list the catalogue listing returns, which carries no stock figures, both counts are zero |
| DashboardProducts.ProductsPanel.constructor | src/components/dashboardLayout/Products.tsx:10-11 | the panel starts with no products, loading |
| DashboardProducts.ProductsPanel.Load | src/components/dashboardLayout/Products.tsx:14-24 | a successful listing replaces the products, a failed one keeps them; loading ends either way |
| DashboardProducts.ProductsPanel.UpdateStock | src/components/dashboardLayout/Products.tsx:42-49 | the products with that id take the new stock figure only after the remote write succeeded |
| DashboardProducts.ProductsPanel.UpdateDiscount | src/components/dashboardLayout/Products.tsx:51-58 | the products with that id take the new discount only after the remote write succeeded |
| DashboardProducts.Page | src/components/dashboardLayout/Products.tsx:60-102 | the refusal exactly when the gate's answer is no; otherwise the total and the two raw-stock counts over every product, then "Loading..." exactly while loading, and after that the rows the name search keeps |
| DashboardProducts.StockEditTouchesOnlyTarget | src/components/dashboardLayout/Products.tsx:45 | a stock edit sets the stock of the products with that id and changes nothing else of any product |
| DashboardProducts.AsWrittenPageRefusesAdmin | src/components/dashboardLayout/Products.tsx:9-66 | gated as written, with the admin e-mail configured, the admin signed in with it gets the refusal |
| DashboardProducts.CorrectedPageAdmitsAdmin | src/components/dashboardLayout/Products.tsx:9-66 | gated by the corrected check, the same admin gets the counts, then the table exactly when loading has ended |
| StockCheckHandler.Handle | src/api/updateStock.ts:9-36 | the handler's response and the entries it leaves are those of the item-by-item specification: 405 for a non-POST, 500 for a failed environment, a missing item list or any thrown call, a rejected `getEntry` included whatever the stock, 400 at the first short item that was read, 200 when every item went through |
| StockCheckHandler.NotPost | src/api/updateStock.ts:10 | a request that is not a POST gets 405 "Method Not Allowed" and touches no entry |
| StockCheckHandler.RunWritesNonNegative | src/api/updateStock.ts:18-29 | whatever the calls do, no entry appears or disappears and every stock figure the loop changes is a number no smaller than zero |
| StockCheckHandler.RunThrough | src/api/updateStock.ts:18-31 | with distinct item ids, when items before j pass and item j is short, or its `getEntry` rejects, or the list ends, the response is 400 naming item j's entry, 500, or 200 respectively; every passing item's entry is decremented by its quantity and published, and every other entry is unchanged |
| StockCheckHandler.ShortItemAfterWrites | src/api/updateStock.ts:22-28 | the first short item answers 400 with its entry's name after every earlier item's decrement has already been written and published; nothing is rolled back |
| StockCheckHandler.AllPass | src/api/updateStock.ts:18-31 | when every item passes, the answer is 200 and each item's stock went down by exactly its quantity |
| StockCheckHandler.ReadFailureAfterWrites | src/api/updateStock.ts:18-35 | a `getEntry` that rejects for an item, after every earlier item passed, answers 500 "Stock update failed" whatever that item's stock, with the earlier decrements written and not undone |
| StockClampHandler.Clamped | api/updatestock.ts:33-36 | the written figure is the old figure (missing counting as 0) minus the quantity, floored at zero: a number no smaller than zero and no smaller than the difference; name and publication are kept |
| StockClampHandler.Handle | api/updatestock.ts:11-49 | the response and the entries left are those of the specification: 405 for a non-POST, 400 for a missing or non-array item list, 500 for a failed environment or any rejected item, a rejected `getEntry` included, 200 otherwise, with every item processed whatever happened to the others |
| StockClampHandler.NoShortStockRejection | api/updatestock.ts:22-48 | a POST with an item list never gets 400 for short stock: the answer is 200 or 500 |
| StockClampHandler.ApplyAllNonNegative | api/updatestock.ts:26-40 | no entry appears or disappears and every stock figure changed is a number no smaller than zero |
| StockClampHandler.ItemsIndependent | api/updatestock.ts:26-42 | with distinct ids each item's entry ends as its own step alone would leave it, the whole succeeds exactly when every item does, and entries no item names are untouched |
| StockClampHandler.AllItemsWritten | api/updatestock.ts:26-44 | when every item's entry exists with an `inStock` field and every SDK call succeeds, the answer is 200 and each entry holds its clamped figure, published |
| ContentfulManagement.RetryLoop | src/hooks/contentfulManagement.ts:13-40 | the loop's result, the entries it leaves, the number of attempts and the waits are those of the attempt-by-attempt specification: the first clean attempt returns, each failed attempt but the last (a rejected first `getEntry` included) waits and retries, the last failure is rethrown wrapped, and a loop that runs no attempt resolves to undefined |
| ContentfulManagement.ThrownStep | src/hooks/contentfulManagement.ts:33-38 | a failed attempt that is not the last is followed by the rest of the loop, after a wait of 300 ms times the attempt number |
| ContentfulManagement.UpdateProductStock | src/hooks/contentfulManagement.ts:8-46 | a failing space or environment lookup is wrapped at once and never retried; otherwise the call is the retry loop, in which any rejected call of an attempt, the first `getEntry` included, is retried, and the last failure is wrapped as "Failed to update product stock: " and the message |
| ContentfulManagement.AttemptsBounded | src/hooks/contentfulManagement.ts:13-38 | at most `retries` attempts run, there is one wait fewer than attempts, and the wait after attempt k is 300 ms times k+1, growing linearly |
| ContentfulManagement.TryOnceConverges | src/hooks/contentfulManagement.ts:16-31 | an attempt that succeeds leaves the entry published with `'en-US': newStock` and its name kept, whether or not it was published before |
| ContentfulManagement.TryOnceFrame | src/hooks/contentfulManagement.ts:16-31 | an attempt, successful or not, touches no entry but the target |
| ContentfulManagement.AttemptsOutcome | src/hooks/contentfulManagement.ts:13-44 | a published result is the entry as it now stands, holding the new figure; undefined means no attempt ran and nothing changed; a failure ran at least one attempt and its message starts with "Failed to update product stock: "; no other entry changes |
| ContentfulManagement.NoRetriesNoAttempt | src/hooks/contentfulManagement.ts:13 | with `retries` of zero or less, nothing is attempted and the call resolves to undefined |
| ContentfulManagement.FirstSuccessStops | src/hooks/contentfulManagement.ts:25-31 | a clean first attempt ends the loop: one attempt, no wait |
| ContentfulManagement.AllAttemptsFail | src/hooks/contentfulManagement.ts:13-44 | for a missing entry and the default three retries, exactly three attempts run, the waits are 300 and 600 ms, and the not-found message comes back wrapped |
| ContentfulManagement.AttemptsKeepName | src/hooks/contentfulManagement.ts:13-40 | no attempt, failed or not, renames an entry of the space |
| ContentfulManagement.AttemptsDefined | src/hooks/contentfulManagement.ts:13-40 | while attempts remain, the loop ends in a published entry or a failure, never in `undefined` |
| ContentfulManagement.TransientReadRetried | src/hooks/contentfulManagement.ts:13-38 | with the default three retries, a first `getEntry` that rejects is retried after 300 ms, and a clean second attempt publishes the new figure under the entry's name |
| TopSelling.ItemPrice | src/components/TopSelling.tsx:52 | the price is the discounted price when that is non-zero, else the cost price; it is zero only when both are |
| TopSelling.HttpImage | src/components/TopSelling.tsx:61 | the stored image starts with "http" and ends with the original; it is the original exactly when that already starts with "http" |
| TopSelling.AddItemOk | src/components/TopSelling.tsx:54-69 | one line keeps the two dictionaries consistent: distinct keys in insertion order, the same ids in both, each record under its own id |
| TopSelling.AddItemsOk | src/components/TopSelling.tsx:41-70 | the inner loop keeps the dictionaries consistent |
| TopSelling.TalliedOk | src/components/TopSelling.tsx:35-75 | the whole pass keeps the dictionaries consistent |
| TopSelling.Aggregate | src/components/TopSelling.tsx:35-75 | the two nested loops leave the insertion order, the records and the order sets of the pass over all orders |
| TopSelling.SeenInLast | src/components/TopSelling.tsx:37-69 | the ids seen in an order grow by the id of each accepted line and by nothing else |
| TopSelling.FirstWithSpec | src/components/TopSelling.tsx:54-66 | a product's record is created from the first accepted line with its id, if there is one |
| TopSelling.FirstInSpec | src/components/TopSelling.tsx:35-66 | over the orders in order, the creating line is the first accepted line of the first order that holds one |
| TopSelling.AddItemStep | src/components/TopSelling.tsx:54-68 | one line adds its quantity to its product's record, creating the record with zero units and an empty order set on first sight; a skipped line or another id leaves the record alone |
| TopSelling.AddItemsSpec | src/components/TopSelling.tsx:41-70 | the inner loop adds to a known product the units of its accepted lines; a new product's record comes from its first accepted line; a product without an accepted line is untouched |
| TopSelling.SeenInSpec | src/components/TopSelling.tsx:69-74 | an order is added to a product's order set exactly when it holds an accepted line of that product |
| TopSelling.OrdersWithLast | src/components/TopSelling.tsx:72-74 | the orders holding a product grow by the last order exactly when it holds an accepted line of it |
| TopSelling.TalliedSpec | src/components/TopSelling.tsx:35-75 | a product has a record exactly when some order holds an accepted line of it; name, image and price come from the first such line, the units are the sum over all such lines, and the order set is the set of orders holding one |
| TopSelling.OrderCountBounds | src/components/TopSelling.tsx:72-79 | a product's order count is at least 1 and at most the number of orders |
| TopSelling.CountedSpec | src/components/TopSelling.tsx:77-81 | after the order counts are written in, the values ranked are exactly the intended records, one per product with an accepted line |
| TopSelling.TopSpec | src/components/TopSelling.tsx:81-84 | the ranking keeps at most six records with two or more orders, most units first; a qualifying record left out means six were shown, none with fewer units |
| TopSelling.TopSellingSpec | src/components/TopSelling.tsx:20-86 | the section shows at most six products, most units first, each in at least two orders and with its true totals; a product in two or more orders that is left out sold no more than each of the six shown |
| TopSelling.ProductLinkShape | src/components/TopSelling.tsx:131 | every product link starts with "/product/" and has no whitespace and no upper-case ASCII letter after it |
| TopSelling.TopSellingSection.constructor | src/components/TopSelling.tsx:17-18 | the section starts with no products, loading |
| TopSelling.TopSellingSection.FetchTopSelling | src/components/TopSelling.tsx:21-92 | a failed read keeps the list; an empty collection shows nothing; otherwise the list becomes the ranked tally of every order; loading ends either way |
| TrendingProducts.RecentOrders | src/components/TrendingProducts.tsx:22-34 | the query keeps, in stored order, exactly the orders with a stored timestamp no earlier than thirty days before now |
| TrendingProducts.Aggregate | src/components/TrendingProducts.tsx:39-60 | the loops succeed exactly when every order has an items array, and then leave the tally of all the orders' lines in order |
| TrendingProducts.FirstWithSpec | src/components/TrendingProducts.tsx:44-57 | a product's record is created from the first accepted line with its id, if there is one |
| TrendingProducts.TallyItem | src/components/TrendingProducts.tsx:44-58 | one pass of the inner loop, on the key order and the dictionary it updates, is the tally's step for that line |
| TrendingProducts.AddItemOk | src/components/TrendingProducts.tsx:44-58 | one line keeps the dictionary and its insertion order consistent |
| TrendingProducts.AddItemsOk | src/components/TrendingProducts.tsx:39-60 | the loops keep the dictionary and its insertion order consistent |
| TrendingProducts.AddItemsSpec | src/components/TrendingProducts.tsx:39-60 | a product has a record exactly when it has an accepted line; name, price and image come from the first such line and the units are the sum over all of them |
| TrendingProducts.ValuesSpec | src/components/TrendingProducts.tsx:63 | the values ranked are exactly the intended records, one per product with an accepted line |
| TrendingProducts.TopSpec | src/components/TrendingProducts.tsx:63-65 | the ranking keeps at most six records, most units first; a record left out means six were shown, none with fewer units |
| TrendingProducts.TrendingSpec | src/components/TrendingProducts.tsx:36-65 | the section shows at most six products, most units first, each with its true totals; a product with an accepted line that is left out sold no more than each of the six shown |
| TrendingProducts.CheckoutOrdersNeverTrend | src/components/TrendingProducts.tsx:41-44 | orders whose lines are written by the checkout page carry no `price`, so every line is skipped and nothing trends |
| TrendingProducts.NoAcceptedLine | src/components/TrendingProducts.tsx:44 | with no line priced, no line of any order is accepted |
| TrendingProducts.NothingTallied | src/components/TrendingProducts.tsx:44-58 | with no accepted line, the tally stays empty |
| TrendingProducts.ShownImage | src/components/TrendingProducts.tsx:97 | the shown image starts with "http" and ends with the stored one; it is the stored one exactly when that starts with "http" |
| TrendingProducts.TrendingSection.constructor | src/components/TrendingProducts.tsx:16-17 | the section starts with no products, loading |
| TrendingProducts.TrendingSection.FetchTrending | src/components/TrendingProducts.tsx:20-73 | a failed read, or a recent order without an items array, keeps the list; otherwise the list becomes the ranked tally of the recent orders; loading ends either way |
| TrendingProducts.TallyOrder | src/components/TrendingProducts.tsx:44-58 | the inner loop over one order's lines leaves the tally of those lines added in order |
| TrendingProducts.AddItemsAppend | src/components/TrendingProducts.tsx:39-60 | tallying two runs of lines is tallying the first and then the second, so the order-by-order loop builds the tally of all lines |
| Auth.EmailIsAdminCases | src/services/authService.ts:64-66 | with the admin e-mail configured, exactly that e-mail is admin; with it unset, exactly an absent e-mail is |
| Auth.AuthProvider.Value | src/context/AuthContext.tsx:42 | the context value carries the provider's user, admin flag and loading flag, and nothing named `user` |
| Auth.AuthProvider.constructor | src/context/AuthContext.tsx:13-24 | the provider starts with no user, not admin, loading, which is also the value outside any provider; the admin flag agrees with the user |
| Auth.AuthProvider.OnAuthStateChanged | src/context/AuthContext.tsx:27-36 | a sign-in sets the user, raises the admin flag exactly when the uid is the admin uid, and ends loading; a sign-out clears user and flag but leaves loading as it was; the flag always agrees with the user |
| ProtectedRoute.Decide | src/components/ProtectedRoute.tsx:14-22 | the cascade sends no user to /login, an unverified user to /verify-email, a non-admin on an admin page to /user, an admin on a user page to /admin, and renders exactly for a verified user whose admin flag matches the page |
| ProtectedRoute.AsWrittenAlwaysLogin | src/components/ProtectedRoute.tsx:12-14 | as written, the guard reads a `user` the context lacks, so every guarded visit goes to /login, signed in or not |
| ProtectedRoute.CorrectedRendersForMatchingRole | src/components/ProtectedRoute.tsx:14-22 | reading `currentUser`, a page renders exactly for a verified signed-in user whose uid is the admin uid iff the page is admin-only; no user goes to /login |
| Contentful.ImageUrl | src/services/contentful.ts:17 | the image URL is present exactly when every link of the chain from the entry's image field down to the file URL is present |
| Contentful.FetchProducts | src/services/contentful.ts:9-22 | one product per returned entry, and never more than the delivery API's default page of 100 entries |
| Contentful.FetchProductsSpec | src/services/contentful.ts:9-22 | only entries of content type "ecommerce" come back, the first of them in space order up to the default page of 100: all of them when there are at most 100, exactly 100 when there are more; each product is built from its own entry's id, name, slug, price, image URL, category, description and featured flag, and carries no stock or discount figure and no sizes, colours or tags array |
| Catalog.SearchByName | src/components/AdminDashboardLayout/Products.tsx:26-28 | the search keeps exactly the products whose lower-cased name contains the lower-cased query |
| Catalog.SearchKeepsOrder | src/components/AdminDashboardLayout/Products.tsx:26-28 | the kept products stay in list order, and an empty query keeps the whole list |
| Catalog.WithStock | src/components/dashboardLayout/Products.tsx:45 | the list keeps its length; the products with that id take the new stock figure and every other product is unchanged |
| Catalog.WithDiscount | src/components/dashboardLayout/Products.tsx:54 | the list keeps its length; the products with that id take the new discount and every other product is unchanged |
| Catalog.WithStockIdempotent | src/components/dashboardLayout/Products.tsx:45 | writing the same stock figure twice is writing it once, and products with other ids are untouched |
| Text.NameMatchesItself | src/components/AdminDashboardLayout/Products.tsx:26-28 | typing a product's own name, in any capitalisation, always finds it |
| Text.EmptyQueryMatches | src/components/AdminDashboardLayout/Products.tsx:26-28 | an empty search matches every name |
| Text.SlugIsNormal | src/components/TopSelling.tsx:131 | a product link slug has no whitespace and no upper-case ASCII letter, and slugging a slug changes nothing |
| Text.HyphenateRun | src/components/TopSelling.tsx:131 | a whitespace run of any length becomes a single hyphen |
| Text.DecimalRoundTrip | src/components/CheckoutPage.tsx:107 | the decimal digits of the clock reading in an order id read back as the clock reading |
| Text.JoinSplit | src/components/StripeCheckout.tsx:10 | splitting a path at `/` and joining the pieces with `/` gives back the path |
| Cms.StockOrZero | src/api/updateStock.ts:20 | a missing `'en-US'` stock value reads as 0 and a present one as itself |
| Ledger.StampAt | src/components/CheckoutPage.tsx:121 | the stored timestamp denotes exactly the clock reading it was made from |
| DashboardMetrics.Query | src/hooks/useDashboardMetrics.ts:36-40 | the range query keeps, in stored order, exactly the orders with a stored timestamp between the range's ends, both inclusive |
| DashboardMetrics.BucketedStep | src/hooks/useDashboardMetrics.ts:55-77 | one more order with items and a month label keeps the loop running and adds that order's total and profit to its month's bucket |
| DashboardMetrics.ItemsProfit | src/hooks/useDashboardMetrics.ts:58-63 | an order's profit is the sum over its lines of discounted price times quantity minus cost price times quantity, missing prices counting as 0 |
| DashboardMetrics.Accumulate | src/hooks/useDashboardMetrics.ts:50-77 | the loop runs to its end exactly when every order has an items array and a month label; then revenue is the sum of the totals, profit the sum of the order profits, and the buckets are those of the month-by-month specification |
| DashboardMetrics.PreviousTotals | src/hooks/useDashboardMetrics.ts:118-128 | the loop runs to its end exactly when every previous order has an items array; then the previous revenue and profit are the sums over those orders |
| DashboardMetrics.BucketSpec | src/hooks/useDashboardMetrics.ts:67-76 | a month has a bucket exactly when some order falls in it, and the bucket holds the sum of that month's totals, the sum of its profits and its order count |
| DashboardMetrics.Entries | src/hooks/useDashboardMetrics.ts:80-88 | there is one entry per month bucket, in the order the months were first met |
| DashboardMetrics.AddToMonthOk | src/hooks/useDashboardMetrics.ts:70-76 | adding an order keeps the month keys distinct and in step with the buckets |
| DashboardMetrics.AddToMonthSums | src/hooks/useDashboardMetrics.ts:70-76 | adding an order adds its total, its profit and one order to the sums over the month entries |
| DashboardMetrics.BucketsConserve | src/hooks/useDashboardMetrics.ts:55-98 | the month buckets partition the orders: their sales add up to the revenue, their profits to the profit and their counts to the order count |
| DashboardMetrics.SalesData | src/hooks/useDashboardMetrics.ts:79-85 | one sales point per month entry, in order, carrying the month's label, sales and profit |
| DashboardMetrics.OrdersData | src/hooks/useDashboardMetrics.ts:87-92 | one orders point per month entry, in order, carrying the month's label and order count |
| DashboardMetrics.PrevEndMissesLastDay | src/hooks/useDashboardMetrics.ts:107-108 | as written, the previous period ends on the last day of the previous month at the start date's time of day, so the last millisecond of that month, which belongs to it, falls outside the window |
| DashboardMetrics.PrevWindowIsPreviousMonth | src/hooks/useDashboardMetrics.ts:102-108 | with the corrected end, an instant is in the previous window exactly when it lies in the month before the start date's month |
| DashboardMetrics.TrendSigns | src/hooks/useDashboardMetrics.ts:130-133 | no change gives 0; against a positive base the trend is positive exactly when the figure grew, against a negative base exactly when it fell; doubling gives 100; against a zero base the trend is 0 exactly when the figure is 0 |
| DashboardMetrics.DashboardState.constructor | src/hooks/useDashboardMetrics.ts:16-29 | every metric and trend starts at zero and both charts empty |
| DashboardMetrics.DashboardState.FetchData | src/hooks/useDashboardMetrics.ts:31-141 | a failed read or an order without items or a month label leaves everything as it was; otherwise the metrics, the sales chart and the orders chart come from the orders in range and the user count; the trends change only when the previous month's read succeeds and all its orders have items, and then compare orders, revenue and profit with the previous period as the code computes it, from the first of the previous month to its last day at the start date's time of day, the users trend staying 0 |
| DashboardMetrics.ChartsAgree | src/hooks/useDashboardMetrics.ts:79-98 | the two charts list the same months in the same order, and their sales and order counts add up to the headline revenue and order count |
| DashboardMetrics.Counted | src/hooks/useDashboardMetrics.ts:70-76 | one bucket update, on the month key order and the bucket dictionary it changes, is the month-by-month specification's step for that order |
| DashboardMetrics.BucketMembership | src/hooks/useDashboardMetrics.ts:67-76 | a month has a bucket exactly when some order's month label is that month |
| DashboardMetrics.BucketContents | src/hooks/useDashboardMetrics.ts:67-76 | a month's bucket holds the sum of the totals, the sum of the profits and the number of the orders labelled with that month |
| DashboardMetrics.AddToExistingMonthSums | src/hooks/useDashboardMetrics.ts:70-76 | an order for a month that already has a bucket keeps the keys consistent and adds its total, its profit and one order to the sums over the entries |
| DashboardMetrics.AddToNewMonthSums | src/hooks/useDashboardMetrics.ts:70-76 | an order for a month without a bucket appends one entry and adds its total, its profit and one order to the sums over the entries |
| AdvancedProductFilter.Initial | src/hooks/useAdvancedProductFilter.ts:13-21 | the hook starts on the given category, no brand, no search, no sizes, colours or tags, and the price range 0 to 1000 |
| AdvancedProductFilter.FilteredSpec | src/hooks/useAdvancedProductFilter.ts:24-49 | with the default category "all", or with a category and every other filter at its initial value, the products come back unfiltered, even by category; otherwise the computation throws exactly when some product lacks the sizes, colours or tags array of a list that has a choice (`p.sizes.includes` on undefined), and else keeps, in order, exactly the products passing every test |
| AdvancedProductFilter.MissingSizesThrow | src/hooks/useAdvancedProductFilter.ts:38-47 | outside the short-circuit, one product without a sizes array makes the whole computation throw once a size is chosen |
| AdvancedProductFilter.ListingThrowsOnSizeChoice | src/hooks/useAdvancedProductFilter.ts:38-47 | the content listing's products have no sizes array, so a size choice under a default category other than "all" throws on any non-empty listing |
| AdvancedProductFilter.EmptyFiltersOnlyPrice | src/hooks/useAdvancedProductFilter.ts:39-47 | with no category, brand, search or list chosen, only the price range decides |
| AdvancedProductFilter.KeptProductMatches | src/hooks/useAdvancedProductFilter.ts:39-47 | a kept product has the chosen category and brand, has the array of each chosen list of sizes, colours and tags and shares a value with it, and is priced within the range, both ends inclusive |
| AdvancedProductFilter.WiderSelectionKeepsMore | src/hooks/useAdvancedProductFilter.ts:41 | choosing one more size never drops a product a non-empty size choice already kept |
| AdvancedProductFilter.InitialFilters | src/hooks/useAdvancedProductFilter.ts:13-35 | on the initial filters, a non-empty default category returns every product; an empty one keeps exactly the products priced from 0 to 1000 |
| FilterComponents.SelectOptions | src/components/filters/FilterComponents.tsx:32-38 | the select lists the empty value labelled "All" first, then one option per given value, labelled with itself, in order |
| FilterComponents.ToggleSpec | src/components/filters/FilterComponents.tsx:51-56 | a toggle flips the value's membership and no other value's; an unselected value is appended at the end, and removing a selected one keeps the rest in order |
| FilterComponents.ToggleTwice | src/components/filters/FilterComponents.tsx:51-56 | toggling an unselected value twice restores the selection |
| FilterComponents.Checkboxes | src/components/filters/FilterComponents.tsx:61-71 | one checkbox per option, in order, checked exactly when the option is selected |
| FilterComponents.ClickFlipsOneBox | src/components/filters/FilterComponents.tsx:51-66 | with distinct options, clicking a box flips that box and leaves every other box as it was |
| FilterSidebar.ActiveFiltersSpec | src/components/filters/FilterSidebar.tsx:20-36 | an empty or unknown category shows every filter, as do clothes; shoes drop only colours; watches drop only sizes and tags; every row starts with category, search and price |
| FilterSidebar.SizeOptionsSpec | src/components/filters/FilterSidebar.tsx:64-82 | an empty category offers the shoe sizes, though its row is the full one; an unknown category offers the clothing, shoe and watch sizes one after the other |
| FilterSidebar.Render | src/components/filters/FilterSidebar.tsx:39-123 | one widget per active filter, in row order, each the one its field calls for; the first, the category, renders nothing |
| FilterSidebar.EditsTouchOneField | src/components/filters/FilterSidebar.tsx:44-109 | each setter replaces one field and never the category: edits of different fields commute and a later edit of the same field wins |
| FilterSidebar.AllBrandWidens | src/components/filters/FilterComponents.tsx:31-33 | picking "All" (the empty value) in the brand select, whose setter is FilterSidebar.tsx line 59, clears the brand, which never drops a product the filter kept |
| Pagination.Run | src/components/Pagination.tsx:21-39 | a run of n consecutive page numbers starting at the given page |
| Pagination.WellFormedIncreasing | src/components/Pagination.tsx:16-44 | in a well-formed bar the page numbers rise strictly from left to right |
| Pagination.RunWellFormed | src/components/Pagination.tsx:20-22 | listing every page in order gives a well-formed bar |
| Pagination.LeftBranchWellFormed | src/components/Pagination.tsx:32-34 | the first pages, "..." and the last page form a well-formed bar when the dots hide at least one page |
| Pagination.RightBranchWellFormed | src/components/Pagination.tsx:35-37 | page 1, "..." and the last pages form a well-formed bar when the dots hide at least one page |
| Pagination.MiddleBranchWellFormed | src/components/Pagination.tsx:38-41 | page 1, "...", a run of middle pages, "..." and the last page form a well-formed bar when each "..." hides at least one page |
| Pagination.PageNumbersSpec | src/components/Pagination.tsx:16-44 | up to 2 * siblingCount + 7 pages every page is listed in order; beyond that the bar has 2 * siblingCount + 5 entries; with at least one page the bar starts at page 1, ends at the last page, has consecutive neighbours and puts each "..." between numbers it actually skips |
| Pagination.CurrentPageShown | src/components/Pagination.tsx:16-44 | a current page within 1..totalPages is always among the numbers shown |
| Pagination.NavButtons | src/components/Pagination.tsx:52-84 | Prev is disabled exactly on page 1 and Next exactly on the last page; they ask for the page one below and one above |
| Pagination.NextPastTheEnd | src/components/Pagination.tsx:79-80 | past the last page, or with no pages at all, Next stays enabled and leads further past the end |
| ProductFilterPage.TotalPages | src/components/ProductFilterPage.tsx:15 | the page count is the least number of eight-product pages that holds the list |
| ProductFilterPage.SliceIndex | src/components/ProductFilterPage.tsx:26 | a slice bound, negative ones counting from the end, lands within the list |
| ProductFilterPage.PageOfSpec | src/components/ProductFilterPage.tsx:26 | page p shows at most eight products, those at positions (p-1)*8 up to p*8 clipped to the list, and nothing past the last page |
| ProductFilterPage.PagesPrefix | src/components/ProductFilterPage.tsx:15-26 | the first n pages, read in order, are the first n*8 products (or the whole list) |
| ProductFilterPage.PagesCoverList | src/components/ProductFilterPage.tsx:15-26 | read in order, all the pages give back the whole list, each product once |
| ProductFilterPage.FiltersHaveNoEffect | src/components/ProductFilterPage.tsx:10-31 | the filter hook is called with "all", so whatever the sidebar sets, the page is the same: the count is every product and the grid a page of the unfiltered list |
| ProductFilterPage.PastLastPageIsEmpty | src/components/ProductFilterPage.tsx:12-52 | nothing keeps the current page within range; past the last page the grid is empty |
| Price.RoundDiv | src/utils/price.ts:6 | the quotient rounded to the nearest integer: within half of the exact value, with the sign of the dividend |
| Price.DiscountedPriceSpec | src/utils/price.ts:2-7 | a missing, zero or negative discount leaves the price alone; 100 percent gives 0; up to 100 percent the result lies between 0 and the price; above 100 it is 0 or below; and it is always within half a cent of the exact discounted price |
| Price.DiscountMonotone | src/utils/price.ts:6 | a larger discount never gives a higher price |
| Price.RoundDivMonotone | src/utils/price.ts:6 | rounding to the cent preserves order |
| Payments.Cents | api/checkout-session.ts:29 | `Math.round(x * 100)`: the result is within half a cent of the exact amount, halves rounding up |
| Payments.CentsExact | api/create-checkout-session.ts:22 | a price with a whole number of cents is charged as exactly that many cents |
| Payments.CentsMonotone | api/checkout-session.ts:29 | a dearer item is never charged less |
| CheckoutSession.LineItems | api/checkout-session.ts:22-32 | one USD line per item, in order, with the item's name, its image when it has one, its price in cents and its quantity |
| CheckoutSession.HandleSpec | api/checkout-session.ts:8-47 | 405 exactly for a method other than POST; 400 exactly when `items` is not an array; Stripe is asked only once the items and the order data are there, with the line items, the success URL plus the session placeholder, the cancel URL as sent and the order and user ids as metadata; 200 with Stripe's URL exactly when the session is created, otherwise 500 |
| CreateCheckoutSession.LineItems | api/create-checkout-session.ts:16-25 | one PKR line per item, in order, with the name, no image, the price in cents and the quantity |
| CreateCheckoutSession.HandleSpec | api/create-checkout-session.ts:8-36 | 405 exactly for a method other than POST; never 400, so items that are not an array give 500; Stripe gets the line items and the caller's URLs unchanged; 200 with Stripe's URL exactly when the session is created, otherwise 500 |
| CreatePaymentIntent.LineItems | api/create-payment-intent.js:16-23 | one USD line per item, in order, with the name, the item's own `amount` and its quantity |
| CreatePaymentIntent.HandleSpec | api/create-payment-intent.js:5-32 | 405 with "Method Not Allowed" exactly for a method other than POST; the return URLs are the site's /success and /checkout whatever the request says; 200 with Stripe's URL exactly when the session is created, otherwise 500 |
| CreatePaymentIntent.AmountVerbatim | api/create-payment-intent.js:20 | `amount` is charged as sent, not rescaled, and the item's discounted price plays no part |
| UseUsers.Listed | src/hooks/useUsers.ts:28-34 | a listed user is the stored data with its uid replaced by the document id |
| UseUsers.ListUsers | src/hooks/useUsers.ts:28-34 | one listed user per document, in order |
| UseUsers.RoleSet | src/hooks/useUsers.ts:57-59 | the role change keeps the list's length |
| UseUsers.RemovedSpec | src/hooks/useUsers.ts:47 | removal keeps exactly the users with another uid, in their order, and changes nothing when no user has that uid |
| UseUsers.RoleSetSpec | src/hooks/useUsers.ts:57-59 | users with that uid get the new role and nothing else changes about them; the other users stay as they were; a second identical change does nothing |
| UseUsers.ListedUidIsDocId | src/hooks/useUsers.ts:30-33 | the listed uid is the document id even when the document stores another uid |
| UseUsers.UsersHook.constructor | src/hooks/useUsers.ts:17-19 | the hook starts with no users, loading, and no error |
| UseUsers.UsersHook.FetchUsers | src/hooks/useUsers.ts:25-42 | a successful read replaces the list with the listed documents; a failed one keeps the list and sets "Failed to fetch users."; loading ends either way |
| UseUsers.UsersHook.DeleteUser | src/hooks/useUsers.ts:44-52 | the list loses the uid only after the remote delete succeeds; a failed delete keeps it and sets "Failed to delete user." |
| UseUsers.UsersHook.UpdateUserRole | src/hooks/useUsers.ts:54-64 | the list gets the new role only after the remote write succeeds; a failed write keeps it and sets "Failed to update user role." |
| UsersPanel.Panel.constructor | src/components/dashboardLayout/users.tsx:17-20 | the panel starts with no users, loading, no dialog and an empty role |
| UsersPanel.Panel.FetchUsers | src/components/dashboardLayout/users.tsx:26-42 | a successful read replaces the list; a failed one keeps it; loading ends; the dialog is untouched |
| UsersPanel.Panel.HandleDelete | src/components/dashboardLayout/users.tsx:44-51 | the list loses the uid only when the remote delete succeeds |
| UsersPanel.Panel.HandleEdit | src/components/dashboardLayout/users.tsx:53-56 | the dialog opens on the user, with that user's role selected, and nothing else changes |
| UsersPanel.Panel.SetEditRole | src/components/dashboardLayout/users.tsx:134-135 | the role picker changes only the selected role |
| UsersPanel.Panel.SaveEdit | src/components/dashboardLayout/users.tsx:58-74 | with no dialog open, or when the write fails, nothing changes; otherwise the edited uid gets the chosen role and the dialog closes |
| UsersPanel.EditUnchangedIsNoOp | src/components/dashboardLayout/users.tsx:53-69 | saving a listed user's own role leaves the list as it was |
| UseOrders.Listed | src/hooks/useOrders.ts:38-41 | a listed order keeps the stored data; its id is the stored `id` field when there is one, the document id otherwise |
| UseOrders.ListOrders | src/hooks/useOrders.ts:37-41 | one listed order per document, in order |
| UseOrders.RemovedSpec | src/hooks/useOrders.ts:57 | removal keeps exactly the orders with another id, in their order, and drops as many as carry the id |
| UseOrders.ListedIdSource | src/hooks/useOrders.ts:38-57 | an order listed under a stored `id` that names no document is dropped from the list by a delete, yet the remote delete of that id leaves its document in the collection, and the next fetch lists it again |
| UseOrders.OrdersHook.constructor | src/hooks/useOrders.ts:30-32 | the hook starts with no orders, loading, and no error |
| UseOrders.OrdersHook.FetchOrders | src/hooks/useOrders.ts:35-49 | a successful read replaces the list; a failed one keeps it and sets "Failed to fetch orders."; loading ends either way |
| UseOrders.OrdersHook.DeleteOrder | src/hooks/useOrders.ts:54-62 | the list loses the id only after the remote delete succeeds; a failed delete keeps it and sets "Failed to delete order." |
| OrdersPanel.Panel.constructor | src/components/dashboardLayout/orders.tsx:28-30 | the panel starts with no orders, loading, and no order selected |
| OrdersPanel.Panel.FetchOrders | src/components/dashboardLayout/orders.tsx:33-49 | a successful read replaces the list; a failed one keeps it; loading ends; the selection is untouched |
| OrdersPanel.Panel.HandleDelete | src/components/dashboardLayout/orders.tsx:51-58 | the list loses the id only when the remote delete succeeds, and the dialog stays as it was |
| OrdersPanel.Panel.View | src/components/dashboardLayout/orders.tsx:92 | View selects the order and changes nothing else |
| OrdersPanel.Panel.Close | src/components/dashboardLayout/orders.tsx:141 | Close clears the selection and changes nothing else |
| OrdersPanel.DeletedOrderStaysSelected | src/components/dashboardLayout/orders.tsx:54-92 | deleting the order on show removes it from the list, while the dialog keeps showing it |
| StripeCheckout.SplitPath | src/components/StripeCheckout.tsx:10 | splitting "/a/b/rest" on "/" gives "", a, b and then the pieces of rest |
| StripeCheckout.OrderIdOfSpec | src/components/StripeCheckout.tsx:10 | on a path "/a/b/id", with or without more segments after it, the order id is the third segment |
| StripeCheckout.NoOrderIdOnShortPath | src/components/StripeCheckout.tsx:10 | a path with only two segments has no order id |
| StripeCheckout.VerifyPaymentSpec | src/components/StripeCheckout.tsx:12-38 | signed out goes to /login with no lookup; signed in goes to /success with the path's order id exactly when that order exists and the read succeeds, and to /checkout/failed otherwise; what the order holds makes no difference |
| SuccessPage.Paid | src/components/SuccessPage.tsx:26-30 | the update sets status "completed", payment status "paid" and the update time, and changes nothing else |
| SuccessPage.PaidTwice | src/components/SuccessPage.tsx:26-30 | marking an order twice is marking it once, at the later time |
| SuccessPage.OrdersStore.constructor | src/components/SuccessPage.tsx:25 | the store holds the given orders |
| SuccessPage.UpdateOrderStatus | src/components/SuccessPage.tsx:15-35 | signed out navigates to /login and writes nothing; signed in never navigates; the named order is marked paid exactly when the id is present, the order exists and the write gets through, and otherwise nothing changes |
| SuccessPage.ScreenFor | src/components/SuccessPage.tsx:43-49 | the heading is always "Order Confirmed!", and the order id is shown exactly when there is one |
| SuccessPage.ReturnPathMarksPaid | src/components/SuccessPage.tsx:24-30 | a signed-in user opening the return path of any existing order is sent on to this page, which marks that order paid with no payment checked |

## Left out

- SDK behaviour: Firestore, Contentful (delivery and management) and Stripe calls are outcome parameters; for the CMS writes each call of an item or attempt, the first `getEntry` included, has its own success flag, and `getEntry` of an id the space lacks always rejects. What they store, beyond the collection snapshots and entry maps the model passes around, is not modelled.
- `Promise.all` fan-out (the checkout's stock writes, the clamping stock handler, the dashboard's reads) is modelled as a sequential pass. Two items with the same id in one request race in the source; the model gives them a fixed order.
- Real time: the retry sleep is modelled only as its delay value; effect cleanup, unmounting and re-rendering are not modelled.
- Floating point: `Math.round` and `toFixed(2)` are exact rounding on rationals. Discount percentages and filter price bounds are whole numbers. `calculateTrend` is a `real` quotient.
- Calendar: local midnight is UTC plus a fixed offset, with no daylight-saving changes. The dashboard's month numbering, month starts and `format(date, "MMM yyyy")` are a calendar parameter, constrained only to consecutive months of 28 days or more. Trending's "30 days before" is a fixed thirty days of milliseconds. Sub-millisecond nanoseconds in a stored timestamp are ignored.
- `toLowerCase` is modelled on ASCII letters only; there is no Unicode case mapping.
- Firestore's ordering of query results is a parameter (the snapshot's order). A field stored as `undefined` or missing is modelled as `None` wherever the source tells the two apart from a value.
- JavaScript values of the wrong type are not modelled: quantities are integers (no `NaN`, strings or fractions), images are strings. `Object.values` is taken in insertion order, which differs from JavaScript's for integer-like product ids.
- Trending adds a line's `quantity` without validating it, as the source does; the model only admits integer quantities.
- The exact text of a `TypeError` raised by the JavaScript engine is a single constant.
- The dashboard's users trend is fixed at 0 as in the source, and the users count is a parameter. A rejected read of the previous period is an unhandled rejection in the source; the model leaves the metrics as they were.
- `filterConfig` lookups with keys such as "toString", which an object literal inherits, are not modelled; any category outside the table falls back to "all".
- The text-search filter widget passes its input straight through and has no logic of its own.
- The displayed rank in the trending list (index plus one) and other rendering (JSX, CSS, charts, the product gallery and zoom, the checkout form's country, state and city selects) are presentation and are not modelled.
- The cart store's persistence of `cart` to local storage is not modelled.
- `fetchProductBySlug` and `saveToFirestore` are not part of this model.
- The catalogue page's load effect is modelled as a plain replacement of the product list.

## Findings

| source | as written | input that shows it | evidently intended | confidence | as-written member | corrected member |
|---|---|---|---|---|---|---|
| src/components/ProtectedRoute.tsx:12 | the guard destructures `user` from the auth context, whose value has only `currentUser`, `isAdmin` and `loading` | any signed-in, verified user opening a guarded page is sent to /login | the guard tests the context's `currentUser` | not executed | ProtectedRoute.AsWrittenAlwaysLogin | ProtectedRoute.CorrectedRendersForMatchingRole |
| src/components/AdminDashboardLayout/Products.tsx:22 | the admin gate tests `isAdmin(user?.email)` with `user` read from the same context, so the e-mail is always undefined | with the admin e-mail configured, the admin signed in with that e-mail gets the unauthorised message | the gate tests the signed-in user's e-mail | not executed | AdminProducts.AsWrittenPageRefusesAdmin | AdminProducts.CorrectedPageAdmitsAdmin |
| src/components/dashboardLayout/Products.tsx:64 | the dashboard panel repeats the gate `isAdmin(user?.email)` on the `user` the context does not provide | with the admin e-mail configured, the admin signed in with that e-mail gets the unauthorised message | the gate tests the signed-in user's e-mail | not executed | DashboardProducts.AsWrittenPageRefusesAdmin | DashboardProducts.CorrectedPageAdmitsAdmin |
| src/hooks/useDashboardMetrics.ts:108 | `prevEnd.setDate(0)` on a copy of the start date keeps the start date's time of day | a start date at local midnight: an order placed at noon on the last day of the previous month is outside the previous period | the previous period ends at the last millisecond of the previous month; `DashboardState.FetchData` keeps the window as written | not executed | DashboardMetrics.PrevEndMissesLastDay | DashboardMetrics.PrevWindowIsPreviousMonth |
