# Wholesale market front end: ledger and carts, in Dafny

This project models the logic of a single-shopkeeper retail front end:

- the **purchase page**, which is a working list of purchase lines. Confirming it records a `Purchase` in the ledger.
- the **billing page**, which is a sales cart with subtotal, 18% tax and total. It only prints and records nothing.
- the **ledger store**, which holds two record collections (orders and purchases), most recent first, in the browser's key-value storage.
- the **statistics** over those collections and the profit/loss report over an optional date range.
- the **catalog search** on the products page.

Layout, one module per file:

| file | module | models |
|---|---|---|
| `wrappers.dfy` | `Wrappers` | `Option` for blank form fields, missing products and absent patch fields |
| `seqs.dfy` | `Seqs` | `filter`, `map`, `reduce` and `findIndex` as functions on sequences, with their laws; the `findIndex` loop as a method |
| `text.dfy` | `Text` | `toLowerCase`, `includes`, `trim`, string `<=`, decimal rendering of a number |
| `catalog.dfy` | `Catalog` | `Product`, the ten-product fixture, `products.find` |
| `records.dfy` | `Records` | `Order`, `Purchase` and their items, `Partial<…>` patches and the `{...record, ...patch}` merge |
| `storage.dfy` | `Storage` | the stored value per key, the `LedgerStore` class (load, save, update), `generateId` |
| `statistics.dfy` | `Statistics` | order and purchase statistics, profit/loss |
| `purchases.dfy` | `Purchases` | purchase cart functions, the confirm step, the `PurchasesPage` class |
| `billing.dfy` | `Billing` | sales cart functions, totals, the `BillingPage` class |
| `products.dfy` | `ProductSearch` | `filteredProducts` |

Design of the model:

- **Money** is `real`. Quantities are `int`. Form inputs arrive already parsed:
  - a cost field is `Option<real>`, where `None` is the empty field;
  - the paid field is `Option<real>`, where `None` is a blank or unreadable entry. Such an entry counts as 0, as `parseFloat(x) || 0` does.
- **Storage.** Each storage key holds a `Blob`: `Absent`, `Malformed` or `Parsed(records)`.
  - Reading never fails: `Load` gives `[]` unless the blob is `Parsed`.
  - Saving writes `Parsed([record] + loaded)`. Stored text that does not parse reads as `[]`, so it is replaced by the one-record list, as the code's write of the reloaded list does.
  - An update with no matching id writes nothing, so a malformed value stays malformed.
- **Pages.** Each page is a class. Its fields are the React state of that page, and each handler is a method that reassigns them. A method's `ensures` gives the new state as a function of the old one. The page invariant `Valid()` is a pure predicate on the cart:
  - at most one line per product;
  - every quantity ≥ 1;
  - every purchase cost > 0;
  - every product is in the catalog. Purchase lines also carry the catalog name.

  Every handler keeps `Valid()`. The pure lemmas beside the methods prove that.
- **Clock and randomness.** The clock, `Math.random()` and today's date are parameters. For example, `ConfirmPurchase(timestamp, draw, today)` takes `draw` in [0, 1).

Details of the code that are easy to misread:

- **Tax.** The tax is `subtotal * 0.18` with no rounding. The cents appear only when the page formats the number. In the invoice example the exact value is already 845.91.
- **Margin.** The margin is 0 unless `totalSales > 0`. So negative sales also give 0, not only zero sales.
- **Date filter.** The filter applies only when both bounds are present and non-empty. An empty string is falsy in the code's `startDate && endDate`. With one bound, or an empty one, every record counts.
- **Order commit.** There is no order-commit flow. Nothing in the pages calls `saveOrder` or `updateOrder`. Their behaviour here is only what `storage.ts` does.
- **Clearing the purchase form.** `handleClearForm` resets the cart, the supplier name and the paid amount. It does not reset the selected product or the cost field.

## Model

| member | source | states |
|---|---|---|
| `Storage.Load` | src/app/utils/storage.ts:49-57 | reading a key gives the stored list, and the empty list when the value is absent or unreadable; the same holds for `getPurchases` (lines 83-91) |
| `Storage.LedgerStore.constructor` | src/app/utils/storage.ts:45-46 | the store starts with the two given stored values, one per key |
| `Storage.LedgerStore.GetOrders` | src/app/utils/storage.ts:49-57 | `getOrders()` gives the stored list when the value parses, and `[]` otherwise |
| `Storage.LedgerStore.GetPurchases` | src/app/utils/storage.ts:83-91 | `getPurchases()` gives the stored list when the value parses, and `[]` otherwise |
| `Storage.LedgerStore.OrderStatistics` | src/app/utils/storage.ts:124-134 | over the loaded orders: `total` is their number and the completed and pending counts add up to it |
| `Storage.LedgerStore.PurchaseStatistics` | src/app/utils/storage.ts:136-146 | over the loaded purchases: `total` is their number and the paid and pending counts add up to it |
| `Storage.LedgerStore.ProfitLoss` | src/app/utils/storage.ts:149-171 | over the loaded records: `profitLoss == totalSales - totalPurchases`, the margin is 0 without positive sales, and without two non-empty bounds the totals are the sums over every loaded record |
| `Storage.LedgerStore.SaveOrder` | src/app/utils/storage.ts:59-67 | the order list becomes `[order] + old list`. The length grows by one and the old orders follow in their order. Purchases are untouched. The count, revenue and collected statistics rise by one, by the order's total and by its paid amount |
| `Storage.LedgerStore.SavePurchase` | src/app/utils/storage.ts:93-101 | the purchase list becomes `[purchase] + old list`. Orders are untouched. `total` rises by 1, `totalExpense` by the purchase's cost and `totalPaid` by its paid amount |
| `Storage.LedgerStore.UpdateOrder` | src/app/utils/storage.ts:69-80 | with no order of that id the stored value is unchanged. Otherwise the list is written back with its first match merged with the patch |
| `Storage.LedgerStore.UpdatePurchase` | src/app/utils/storage.ts:103-114 | the same for purchases |
| `Storage.UpdateOrdersEffect` | src/app/utils/storage.ts:69-80 | an update keeps the length. An absent id changes nothing. Otherwise only the first order with that id becomes its merge with the patch, and every other position is unchanged |
| `Storage.UpdatePurchasesEffect` | src/app/utils/storage.ts:103-114 | the same for purchases |
| `Records.MergeOrderFields` | src/app/utils/storage.ts:74 | in `{...order, ...updates}` each of the eleven fields (id, date, customer name, items, subtotal, tax, total, payment method, paid and remaining amounts, status) takes the patch's value when the patch gives it, and keeps the order's value otherwise |
| `Records.MergeOrder` | src/app/utils/storage.ts:74 | `{...order, ...updates}` leaves the order as it is exactly when every field the patch gives already has that value in the order |
| `Records.MergeOrderLaws` | src/app/utils/storage.ts:74 | an empty patch changes nothing, and applying a patch twice is the same as applying it once |
| `Records.MergePurchaseFields` | src/app/utils/storage.ts:108 | in `{...purchase, ...updates}` each of the eight fields (id, date, supplier name, items, total cost, paid and remaining amounts, status) takes the patch's value when the patch gives it, and keeps the purchase's value otherwise |
| `Records.MergePurchase` | src/app/utils/storage.ts:108 | `{...purchase, ...updates}` leaves the purchase as it is exactly when every field the patch gives already has that value in the purchase |
| `Records.MergePurchaseLaws` | src/app/utils/storage.ts:108 | an empty purchase patch changes nothing, and applying a patch twice is the same as once |
| `Seqs.FirstIndex` | src/app/utils/storage.ts:72 | `findIndex` gives -1 exactly when nothing matches. Otherwise it gives a matching position with no match before it |
| `Seqs.FindIndex` | src/app/utils/storage.ts:72 | the `findIndex` loop returns what `FirstIndex` specifies |
| `Seqs.ReplaceFirstAt` | src/app/utils/storage.ts:72-74 | replacing the first match equals assigning at the index `findIndex` returned |
| `Seqs.ReplaceFirstAbsent` | src/app/utils/storage.ts:73 | with no match, the list is unchanged |
| `Seqs.ReplaceFirst` | src/app/utils/storage.ts:72-74 | replacing the first match keeps the length; `ReplaceFirstAt` and `ReplaceFirstAbsent` say which position changes |
| `Storage.RandomPart` | src/app/utils/storage.ts:119 | `Math.floor(Math.random() * 1000)` lies in 0..999 and is the floor of the scaled draw |
| `Storage.GenerateId` | src/app/utils/storage.ts:117-121 | the id starts with `prefix-`, everything after that is digits and dashes, and it ends with a digit |
| `Storage.GenerateIdInjective` | src/app/utils/storage.ts:117-121 | for one prefix, the id `prefix-timestamp-random` determines both the timestamp and the random part |
| `Storage.GenerateIdCollision` | src/app/utils/storage.ts:117-121 | any two draws whose scaled values lie in the same unit interval `[k, k + 1)`, in the same millisecond, give the same id. The id is not unique by construction |
| `Text.Decimal` | src/app/utils/storage.ts:120 | a number in a template literal is rendered as a non-empty string of decimal digits with no leading zero |
| `Text.DecimalRoundTrip` | src/app/utils/storage.ts:120 | reading the rendered digits back gives the number |
| `Text.DecimalInjective` | src/app/utils/storage.ts:120 | different numbers render differently |
| `Statistics.OrderStatisticsOf` | src/app/utils/storage.ts:124-134 | `total` is the number of orders, and `completed + pending == total` |
| `Statistics.PurchaseStatisticsOf` | src/app/utils/storage.ts:136-146 | `total` is the number of purchases, and `paid + pending == total` |
| `Statistics.OrderStatisticsPrepend` | src/app/utils/storage.ts:124-134 | a new order at the head raises `total` by 1. It raises the count of its own status by 1 and the other count by 0. Each sum rises by the order's own amount |
| `Statistics.PurchaseStatisticsPrepend` | src/app/utils/storage.ts:136-146 | the same for a new purchase |
| `Statistics.OrderPendingBalance` | src/app/utils/storage.ts:130-132 | when every order's remaining amount is its total less its paid amount, `totalPending == totalRevenue - totalCollected` |
| `Statistics.PurchasePendingBalance` | src/app/utils/storage.ts:142-144 | when every purchase has remaining = cost − paid, `totalPending == totalExpense - totalPaid` |
| `Statistics.PurchaseStatisticsExample` | src/app/utils/storage.ts:136-146 | purchases paying 100 of 100 and 50 of 200 give total 2, paid 1, pending 1, expense 300, paid 150, pending 150 |
| `Statistics.Report` | src/app/utils/storage.ts:161-170 | the report carries the two totals. `profitLoss` is their difference. With positive sales, `margin × totalSales == profitLoss × 100`; otherwise the margin is 0 |
| `Statistics.ProfitLossOf` | src/app/utils/storage.ts:149-171 | `profitLoss == totalSales - totalPurchases`. With positive sales, `margin × totalSales == profitLoss × 100`; otherwise the margin is 0. Without two non-empty bounds the sums run over all records; with them, over the records dated in range |
| `Statistics.ProfitLossCoveringRange` | src/app/utils/storage.ts:153-162 | a range that covers every record's date reports the same as no range |
| `Statistics.ProfitLossOneBound` | src/app/utils/storage.ts:156 | with either bound missing, or either bound the empty string, the report is the unfiltered one |
| `Statistics.ProfitLossPrependPurchase` | src/app/utils/storage.ts:93-101 | with two non-empty bounds, a purchase saved at the head raises the ranged purchase total by its cost exactly when its date is in range, and leaves the sales total alone |
| `Statistics.ProfitLossPrependOrder` | src/app/utils/storage.ts:59-67 | with two non-empty bounds, an order saved at the head raises the ranged sales total by its total exactly when its date is in range, and leaves the purchase total alone |
| `Statistics.BoundsInRange` | src/app/utils/storage.ts:157-158 | the filter is inclusive: both bounds of an ordered range lie in it |
| `Statistics.Given` | src/app/utils/storage.ts:156 | a bound is truthy exactly when it is present and not the empty string |
| `Statistics.InRange` | src/app/utils/storage.ts:157-158 | `date >= startDate && date <= endDate`: only an ordered range holds any date, a one-day range holds exactly that day, and a date outside lies strictly before the start or strictly after the end |
| `Statistics.OrdersInRange` | src/app/utils/storage.ts:157 | the orders dated in range, in their stored order |
| `Statistics.PurchasesInRange` | src/app/utils/storage.ts:158 | the purchases dated in range, in their stored order |
| `Text.LexLeReflexive` | src/app/utils/storage.ts:157 | every date string is ≤ itself under string comparison |
| `Text.LexLeAntisymmetric` | src/app/utils/storage.ts:157 | two strings each ≤ the other are equal |
| `Text.LexLeTransitive` | src/app/utils/storage.ts:157 | string ≤ is transitive |
| `Text.LexLeTotal` | src/app/utils/storage.ts:157 | any two strings are comparable |
| `Text.LexLe` | src/app/utils/storage.ts:157 | string `<=`: a prefix is ordered first, and a string ordered before a non-empty one starts with a character no greater than that one's first |
| `Seqs.Filter` | src/app/utils/storage.ts:128 | `filter` yields no more elements than it is given, and exactly the elements that satisfy the predicate |
| `Seqs.FilterIsSubsequence` | src/app/pages/Products.tsx:13-17 | `filter` keeps the order of what it keeps |
| `Seqs.FilterAll` | src/app/pages/Products.tsx:13-17 | a predicate true of every element keeps the whole list |
| `Seqs.FilterConcat` | src/app/utils/storage.ts:93-101 | filtering a concatenation is concatenating the filtered parts; it carries a ranged report across the prepend of `savePurchase` and `saveOrder` |
| `Seqs.FilterPartition` | src/app/utils/storage.ts:128-129 | two complementary status filters split the list: their counts add up to its length |
| `Seqs.MapWhere` | src/app/pages/Purchases.tsx:98-100 | `map(item => match ? change(item) : item)` keeps the length. It changes exactly the matching positions |
| `Seqs.MapWhereSingle` | src/app/pages/Purchases.tsx:98-100 | when exactly one element matches, the conditional `map` is an update at that one position |
| `Seqs.SumConcat` | src/app/utils/storage.ts:130 | `reduce` summing over a concatenation is the sum of the parts |
| `Seqs.SumUpdate` | src/app/pages/Billing.tsx:59 | changing one element changes the sum by the difference of its before and after terms |
| `Seqs.SumDifference` | src/app/utils/storage.ts:142-144 | the sums inherit a per-element difference relation |
| `Seqs.SumOf` | src/app/utils/storage.ts:130 | `reduce((sum, x) => sum + f(x), 0)` over one element is that element's term |
| `Seqs.SumNonNegative` | src/app/pages/Billing.tsx:59 | a sum of terms that are all ≥ 0 is ≥ 0 |
| `Seqs.FilterKeepsDistinct` | src/app/pages/Purchases.tsx:104 | filtering keeps product ids distinct |
| `Seqs.MapWhereKeepsDistinct` | src/app/pages/Purchases.tsx:75-79 | a map that leaves ids alone keeps them distinct |
| `Catalog.FindProduct` | src/app/pages/Purchases.tsx:64 | `products.find` gives nothing exactly when no product has the id. Otherwise it gives the first product with that id (the same lookup as src/app/pages/Billing.tsx:33) |
| `Catalog.ProductsFixture` | src/app/data/mockData.ts:25-116 | the shipped catalog has ten products with distinct ids, positive prices and positive stock |
| `Catalog.FindOwnId` | src/app/pages/Billing.tsx:33 | in a catalog with distinct ids, looking up a product's own id finds that product |
| `Text.LowerChar` | src/app/pages/Products.tsx:14 | `toLowerCase` maps A–Z to a–z and keeps every other character |
| `Text.Lower` | src/app/pages/Products.tsx:14 | lowering keeps the length and lowers each character |
| `Text.LowerIdempotent` | src/app/pages/Products.tsx:14-15 | lowering twice is lowering once |
| `Text.ContainsAt` | src/app/pages/Products.tsx:14-16 | `includes` holds exactly when the term occurs at some offset |
| `Text.ContainsEmpty` | src/app/pages/Products.tsx:16 | every string includes the empty string |
| `Text.Contains` | src/app/pages/Products.tsx:14-16 | `includes` fails when the term is longer than the text, and holds when the term is a prefix of it |
| `Text.TrimStart` | src/app/pages/Purchases.tsx:121 | trimming the front keeps a suffix of the input that is empty or starts with a character that is not white space |
| `Text.IsWhitespace` | src/app/pages/Purchases.tsx:121 | the characters `trim()` strips include space, tab, line feed and carriage return, and never a digit or an ASCII letter |
| `Text.TrimStartDropsWhitespace` | src/app/pages/Purchases.tsx:121 | every character trimming the front removes is white space |
| `Text.TrimEnd` | src/app/pages/Purchases.tsx:121 | trimming the back keeps a prefix of the input that is empty or ends with a character that is not white space |
| `Text.TrimEndDropsWhitespace` | src/app/pages/Purchases.tsx:121 | every character trimming the back removes is white space |
| `Text.TrimSlice` | src/app/pages/Purchases.tsx:136 | the trimmed supplier name is a contiguous piece of the input that neither starts nor ends with white space |
| `Text.TrimEmptyIff` | src/app/pages/Purchases.tsx:121 | `trim()` gives the empty string exactly when every character is white space |
| `Text.Trim` | src/app/pages/Purchases.tsx:121 | `trim()` is never longer than its input, and leaves a non-empty string whose ends are not white space as it is |
| `Text.TrimIdempotent` | src/app/pages/Purchases.tsx:136 | trimming the trimmed name again changes nothing |
| `ProductSearch.FilteredProducts` | src/app/pages/Products.tsx:13-17 | the result is a subsequence of the catalog in catalog order. It holds exactly the products that match. An empty term returns every product |
| `ProductSearch.NameOrCategoryIgnoresCase` | src/app/pages/Products.tsx:14-15 | name and category matching gives the same answer for any two terms that lower-case alike |
| `ProductSearch.BarcodeCaseSensitive` | src/app/pages/Products.tsx:16 | the barcode is matched as typed: "AB" finds barcode "AB1" and "ab" does not |
| `ProductSearch.CategorySearchExample` | src/app/pages/Products.tsx:13-17 | on the shipped catalog, "OIL" and "Oil" each match both products in category Oils (Cooking Oil and Sunflower Oil) |
| `Purchases.AddedLine` | src/app/pages/Purchases.tsx:73-87 | adding a product already in the cart keeps the length: that line's quantity rises by 1 and its cost becomes the new cost, and other lines are unchanged. Adding a new product appends one line with quantity 1, the cost and the catalog name |
| `Purchases.InCart` | src/app/pages/Purchases.tsx:73-74 | `cart.find(item => item.productId === product.id)` is truthy exactly when `findIndex` of the same test is not -1 |
| `Purchases.Bumped` | src/app/pages/Purchases.tsx:77 | `{...item, quantity: item.quantity + 1, costPricePerUnit: cost}` raises the quantity by one, sets the cost, and keeps the product id and name |
| `Purchases.WithoutProduct` | src/app/pages/Purchases.tsx:103-105 | removal keeps exactly the lines of other products, in their order |
| `Purchases.WithQuantity` | src/app/pages/Purchases.tsx:93-101 | a quantity ≤ 0 removes the line. Otherwise that line's quantity becomes exactly the new value and the other lines are unchanged |
| `Purchases.AddKeepsValid` | src/app/pages/Purchases.tsx:58-91 | adding a catalog product at a positive cost keeps one line per product, quantities ≥ 1 and costs > 0. The product is then in the cart. The cart grows by one line only when the product was new |
| `Purchases.WithoutKeepsValid` | src/app/pages/Purchases.tsx:103-105 | removal keeps the invariant, and no line of that product remains |
| `Purchases.WithQuantityKeepsValid` | src/app/pages/Purchases.tsx:93-101 | setting any quantity keeps the invariant |
| `Purchases.AbsentLineUnchanged` | src/app/pages/Purchases.tsx:93-105 | updating or removing a product with no line leaves the cart as it is |
| `Purchases.CartTotalPositive` | src/app/pages/Purchases.tsx:107 | `totalCost` of a valid cart is 0 when the cart is empty and positive otherwise |
| `Purchases.CartTotal` | src/app/pages/Purchases.tsx:107 | `totalCost` of an empty cart is 0, and of a one-line cart is that line's unit cost times its quantity |
| `Purchases.PurchasesPage.TotalCost` | src/app/pages/Purchases.tsx:107 | the page's `totalCost` over a valid cart is ≥ 0, and 0 exactly when the cart is empty |
| `Purchases.PaidValue` | src/app/pages/Purchases.tsx:126 | the paid amount with the `0` fallback: a blank entry counts as 0, a non-zero value is the entered one, and the value is ≥ 0 exactly when the entry is blank or ≥ 0 |
| `Purchases.ToItems` | src/app/pages/Purchases.tsx:137-143 | one item per line, with the same product, name, quantity and unit cost, and with `totalCost == costPricePerUnit * quantity` |
| `Purchases.ItemsTotal` | src/app/pages/Purchases.tsx:137-144 | the record's `totalCost` (the cart's total) equals the sum of its items' totals |
| `Purchases.BuildPurchase` | src/app/pages/Purchases.tsx:133-148 | the record has the given id, date, supplier and paid amount. Its items are the cart lines. Its `totalCost` is the sum of the item totals. `remainingAmount == totalCost - paidAmount`, and the status is paid exactly when `paid >= totalCost` |
| `Purchases.CheckForm` | src/app/pages/Purchases.tsx:115-131 | confirm passes exactly when the cart is not empty, the supplier name has a character that is not white space, and the paid amount is ≥ 0. An empty cart is reported first, then a blank supplier name |
| `Purchases.RecordedPurchaseFacts` | src/app/pages/Purchases.tsx:144-147 | for a valid non-empty cart: the total is positive. Paying it exactly gives status paid with nothing remaining. Paying less gives status pending with a positive remainder |
| `Purchases.PurchasesPage.constructor` | src/app/pages/Purchases.tsx:41-56 | the page mounts with an empty form and the purchases and statistics loaded from the store |
| `Purchases.PurchasesPage.LoadPurchases` | src/app/pages/Purchases.tsx:51-56 | the list and statistics are refreshed from the store. The form is untouched |
| `Purchases.PurchasesPage.SetSupplierName` | src/app/pages/Purchases.tsx:276 | the supplier field takes the typed value |
| `Purchases.PurchasesPage.SetSelectedProduct` | src/app/pages/Purchases.tsx:284 | the product selection takes the chosen id |
| `Purchases.PurchasesPage.SetCostPrice` | src/app/pages/Purchases.tsx:302 | the cost field takes the typed value |
| `Purchases.PurchasesPage.SetPaidAmount` | src/app/pages/Purchases.tsx:408 | the paid field takes the typed value |
| `Purchases.PurchasesPage.AddToCart` | src/app/pages/Purchases.tsx:58-91 | the cart and fields are unchanged when there is no product or no cost, when the product is unknown, or when the cost is ≤ 0. Otherwise the cart becomes `AddedLine` and both fields are cleared. The invariant holds |
| `Purchases.PurchasesPage.UpdateQuantity` | src/app/pages/Purchases.tsx:93-101 | the cart becomes `WithQuantity(cart, id, q)`. The invariant holds |
| `Purchases.PurchasesPage.RemoveFromCart` | src/app/pages/Purchases.tsx:103-105 | the cart becomes `WithoutProduct(cart, id)`. The invariant holds |
| `Purchases.PurchasesPage.ClearForm` | src/app/pages/Purchases.tsx:109-113 | the cart, supplier name and paid amount are reset; the selected product and the cost field are kept |
| `Purchases.PurchasesPage.ConfirmPurchase` | src/app/pages/Purchases.tsx:115-160 | a rejected form returns its reason and leaves the cart, the fields, the page's purchase list and statistics, and the store unchanged. An accepted form saves `BuildPurchase` at the head of the purchases. The record has id `PUR-…`, the trimmed supplier name, blank-as-0 payment and today's date. Then the form is cleared and the list and statistics reloaded |
| `Billing.WithoutProduct` | src/app/pages/Billing.tsx:55-57 | removal keeps exactly the lines of other products, in their order |
| `Billing.WithQuantity` | src/app/pages/Billing.tsx:45-53 | a quantity ≤ 0 removes the line. Otherwise that line's quantity becomes exactly the new value and the other lines are unchanged |
| `Billing.AddedItem` | src/app/pages/Billing.tsx:36-41 | a product not yet in the cart is appended as `{product, quantity: 1}` |
| `Billing.InCart` | src/app/pages/Billing.tsx:36-37 | `cart.find(item => item.product.id === product.id)` is truthy exactly when `findIndex` of the same test is not -1 |
| `Billing.LineIndex` | src/app/pages/Billing.tsx:36-38 | the position of the line `cart.find` returns: -1 exactly when the product has no line, otherwise a line of that product with none before it |
| `Billing.WithQuantityOnlyLine` | src/app/pages/Billing.tsx:45-53 | when a product has a single line, a positive quantity update changes that line's quantity and nothing else |
| `Billing.AddBumpsOnlyItsLine` | src/app/pages/Billing.tsx:36-38 | in a valid cart, adding a present product raises only its own line by one. The length is unchanged and there is no duplicate |
| `Billing.AddKeepsValid` | src/app/pages/Billing.tsx:30-43 | adding a catalog product keeps one line per product and quantities ≥ 1. The product is then in the cart. The cart grows only for a new product |
| `Billing.WithoutKeepsValid` | src/app/pages/Billing.tsx:55-57 | removal keeps the invariant, and no line of that product remains |
| `Billing.WithQuantityKeepsValid` | src/app/pages/Billing.tsx:45-53 | setting any quantity keeps the invariant |
| `Billing.AbsentLineUnchanged` | src/app/pages/Billing.tsx:45-57 | updating or removing a product with no line leaves the cart as it is |
| `Billing.Total` | src/app/pages/Billing.tsx:59-61 | the total is the subtotal times 1.18 |
| `Billing.Subtotal` | src/app/pages/Billing.tsx:59 | the subtotal of an empty cart is 0, and with non-negative prices and quantities it is ≥ 0 |
| `Billing.Tax` | src/app/pages/Billing.tsx:60 | with a non-negative subtotal the tax lies between 0 and the subtotal, and it is 0 exactly when the subtotal is 0 |
| `Billing.BumpedAmount` | src/app/pages/Billing.tsx:59 | one more unit on a line adds one unit price to that line's amount |
| `Billing.SubtotalBump` | src/app/pages/Billing.tsx:59 | one more unit on any line raises the subtotal by that line's unit price |
| `Billing.SubtotalAppend` | src/app/pages/Billing.tsx:59 | a new line raises the subtotal by its own amount |
| `Billing.AddRaisesSubtotal` | src/app/pages/Billing.tsx:30-59 | adding one unit of a catalog product raises the subtotal by exactly its price |
| `Billing.InvoiceExample` | src/app/pages/Billing.tsx:59-61 | Premium Rice ×50 and Cooking Oil ×20 give subtotal 4699.50, tax 845.91 and total 5545.41 |
| `Billing.BillingPage.constructor` | src/app/pages/Billing.tsx:25-27 | the page starts with an empty cart, customer name and selection |
| `Billing.BillingPage.SetCustomerName` | src/app/pages/Billing.tsx:130 | the customer field takes the typed value |
| `Billing.BillingPage.SetSelectedProduct` | src/app/pages/Billing.tsx:138 | the product selection takes the chosen id |
| `Billing.BillingPage.AddToCart` | src/app/pages/Billing.tsx:30-43 | the cart and selection are unchanged without a selection or for an unknown product. Otherwise the cart becomes `AddedItem` and the selection is cleared. The invariant holds |
| `Billing.BillingPage.UpdateQuantity` | src/app/pages/Billing.tsx:45-53 | the cart becomes `WithQuantity(cart, id, q)`. The invariant holds |
| `Billing.BillingPage.RemoveFromCart` | src/app/pages/Billing.tsx:55-57 | the cart becomes `WithoutProduct(cart, id)`. The invariant holds |
| `Billing.BillingPage.ClearCart` | src/app/pages/Billing.tsx:91-94 | the cart becomes empty and the customer name becomes "" |

## Left out

- Rendering is not modelled: JSX, animations, toast messages, status badge colours and the expanded/collapsed state of the purchase list are presentation.
- Printing is not modelled: `handlePrint` and the invoice template write to a new browser window, which is window I/O.
- Serialisation is not modelled: the model has no JSON encoding or decoding of the stored lists.
  - A stored value that parses but is not a list (`{}`, `null`, `0`, `"x"`) is treated as `Malformed`. The code would return that value as it is.
  - A write that throws (a full quota) is not modelled: every write succeeds.
  - Two tabs racing on the same key are not modelled; that is concurrency.
- `Storage.LedgerStore.SaveOrder`: for a stored order value that parses but is not a list, the code writes nothing, because `unshift` throws and the catch swallows it; the model reads that value as `[]` and replaces it with the one-order list.
- `Storage.LedgerStore.SavePurchase`: the same for a stored purchase value that parses but is not a list.
- `Storage.LedgerStore.OrderStatistics`, `PurchaseStatistics` and `ProfitLoss` report on an empty list for such a value, where `getOrderStatistics`, `getPurchaseStatistics` and `calculateProfitLoss` throw.
- Number parsing and formatting are not modelled: `parseFloat`, NaN and `toFixed` are left out.
  - Inputs are already-parsed reals, so a non-numeric cost entry, which the source would add as NaN, has no counterpart.
  - `margin` is the unformatted real, not the two-decimal string.
  - JavaScript numbers are doubles. The model's reals are exact.
- The model's inputs are records of the types shown. `Merge*` treats a patch field as either given or absent; a field given as `undefined` is not modelled.
- Text handling is simplified:
  - `toLowerCase` is modelled for ASCII letters only; other Unicode case mappings are left out. The catalog and ISO dates are ASCII.
  - String `<=` compares Unicode code points, while JavaScript compares UTF-16 code units. The two orders differ only above U+FFFF.
- `Storage.GenerateId`: the clock is a `nat` parameter, so timestamps before 1970 are not modelled.
- `src/app/pages/Orders.tsx` is not part of this model. It shows fixed sample orders that are not connected to the ledger.
- `src/app/components/Layout.tsx` and `src/app/routes.ts` are not part of this model. They are navigation.
- `src/app/data/mockData.ts` is used only as the catalog fixture (`Catalog.Products`, described by `Catalog.ProductsFixture`). Its sample orders and shop details are not modelled.
