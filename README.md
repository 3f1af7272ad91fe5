# Restaurant billing core, modelled in Dafny

This project models the billing and catalog core of a restaurant point-of-sale backend. Dishes
are sold by weight: a menu item carries a price per gram, and a cart is a list of
(menu item, grams) entries.

The core has two billing services over the same bill records:

- the **in-memory service** keeps a module-level bill history;
- the **persistent service** also checks and deducts per-item stock, validates bills against
  the database schema and answers its queries with database aggregations.

Both services price a cart into bill lines, compute subtotal and amount due, and filter and
summarise bills. The summaries are a revenue breakdown per payment method and a most-sold-items
list. The in-memory menu catalog supports filter, distinct categories, find, append, update and
delete. The records serialise to JSON and back. The schema constraints (enums, bounds, length
limits, defaults, trimming) are validity predicates and default-filling functions.

Modules, one per file:

| file | module | models |
|---|---|---|
| wrappers.dfy | `Wrappers` | `Option`, `Result` |
| seqs.dfy | `Seqs` | the array methods the code uses: `filter`, `findIndex`, `splice`, an insertion-ordered `Set`, a stable descending `sort`, `slice(0, n)`, `reduce` with `+` |
| json.dfy | `Json` | JSON values and property access |
| bill.dfy | `Bill` | models/bill.js |
| menu.dfy | `Menu` | models/menu.js |
| schemas.dfy | `Schemas` | models/schemas.js |
| pricing.dfy | `Pricing` | cart pricing and `calculateBillTotal`, shared by both billing services |
| sales.dfy | `Sales` | filters, sales summary and most-sold items over a sequence of bills |
| billing_service.dfy | `BillingService` | services/billingService.js, a class over `billHistory` |
| mongo_billing_service.dfy | `MongoBillingService` | services/mongoBillingService.js, a class over the stock map and the bill collection |
| menu_service.dfy | `MenuService` | services/menuService.js, a class over `menuItems` |

Modelling choices:

- Money, prices, grams and stock are `real`, so sums are exact.
- Timestamps are integer milliseconds since the epoch.
- Bill and item ids and "now" are parameters. The code derives them from `Date.now()`.
- Date-to-string conversion is a function parameter (`toIso`), and so is string-to-date parsing
  (`parseDate`).
- The persistent service's menu collection is reduced to the part `createBill` reads and writes:
  a stock level per menu item id.
- Each service is a class whose fields its methods update. Pure queries are functions that read
  the object.

## Model

| member | source | states |
|---|---|---|
| Bill.Defaults | backend/src/models/bill.js:3 | a bill built without notes has notes `""`; the bill history starts empty (line 77) |
| Bill.QuantityInKg | backend/src/models/bill.js:51-53 | the kilogram figure times 1000 is the gram quantity; it never exceeds the grams for a non-negative quantity |
| Bill.ItemToJson | backend/src/models/bill.js:55-63 | the encoding is an object whose keys are exactly itemName, icon, quantityInGrams, pricePerGram, totalPrice, in that order |
| Bill.ItemRoundTrip | backend/src/models/bill.js:55-73 | decoding an encoded bill item gives back all five fields |
| Bill.ItemsToJson | backend/src/models/bill.js:18 | the items are encoded one by one, in order, preserving length |
| Bill.ItemsRoundTrip | backend/src/models/bill.js:18 | decoding the encoded list of items gives the list back |
| Bill.RecordToJson | backend/src/models/bill.js:14-25 | the encoding has exactly the eight bill keys, and its `items` is the in-order encoding of the bill's items |
| Bill.RecordRoundTrip | backend/src/models/bill.js:14-38 | decoding an encoded bill restores every field, provided that parsing the ISO form of the timestamp gives the timestamp back |
| Menu.ToJsonKeys | backend/src/models/menu.js:12-21 | the encoding has exactly the six keys id, name, category, price, description, icon, with no repeats |
| Menu.RoundTrip | backend/src/models/menu.js:12-32 | decoding an encoded menu item gives back all six fields |
| Menu.SeedMenuWellFormed | backend/src/models/menu.js:36-51 | the seed list has 14 items with pairwise different ids; each is in Main Dish, Beverages, Desserts or Snacks and has a positive price |
| Schemas.Trim | backend/src/models/schemas.js:17 | the `trim` setter keeps an infix that neither starts nor ends with white space; everything removed is white space |
| Schemas.TrimIdempotent | backend/src/models/schemas.js:17 | trimming twice is trimming once |
| Schemas.NewMenuDoc | backend/src/models/schemas.js:4-55 | creating a menu document either fails with a non-empty set of failing paths, or yields the defaulted document, which is valid |
| Schemas.NewMenuDocAcceptsValid | backend/src/models/schemas.js:14-36 | creation succeeds iff a price is given and the defaulted document has a non-empty name of at most 100 characters, a category among the five, a price in [0, 99999] and a description of at most 500 characters |
| Schemas.MenuDefaults | backend/src/models/schemas.js:31-44 | an omitted description is `""`, an omitted icon is the plate emoji, and `available` defaults to true |
| Schemas.NewBillDoc | backend/src/models/schemas.js:58-143 | creating a bill document either fails with a non-empty set of failing paths, or yields the defaulted document, which is valid |
| Schemas.NewBillDocAcceptsValid | backend/src/models/schemas.js:58-132 | creation succeeds iff subtotal and totalAmount are given and the defaulted bill is valid: every line has quantity at least 1 and non-negative price and total; subtotal, discount and totalAmount are non-negative; the payment method and status are in their enums; the notes are at most 500 characters |
| Schemas.BillDefaults | backend/src/models/schemas.js:95-132 | omitted discount, payment method, notes and status become 0, cash, `""` and completed; the creation time stamps the bill |
| Pricing.CalculateBillTotal | backend/src/services/billingService.js:8-12 | the discount defaults to 0; the subtotal is the sum of the lines' totals, and the amount due plus the discount equals the subtotal |
| Pricing.DiscountIsNotClamped | backend/src/services/billingService.js:10 | a discount above the subtotal gives a negative amount due |
| Pricing.PriceEntry | backend/src/services/billingService.js:18-31 | a line takes name, icon and price per gram from the cart entry's own menu item, and its total is grams times price |
| Pricing.PriceCart | backend/src/services/billingService.js:18 | there is one line per cart entry, in cart order |
| Pricing.SubtotalOfCart | backend/src/services/mongoBillingService.js:42-57 | the subtotal of a priced cart is the sum over its entries of grams times the entry's price |
| Pricing.FiveHundredGramsScenario | backend/src/services/billingService.js:17-33 | 500 g at 0.025 per gram with no discount gives a line of 12.5 and totals (12.5, 12.5) |
| Seqs.FilterAppend | backend/src/services/billingService.js:69-78 | filtering commutes with concatenation, so the bills kept by a filter stay in history order |
| Seqs.SortDesc | backend/src/services/billingService.js:129 | the sort is non-increasing by its key and is a permutation of its input |
| Seqs.SliceEnd | backend/src/services/billingService.js:130 | `slice(0, limit)` keeps min(limit, n) elements for a non-negative limit; a negative limit counts back from the end |
| Sales.BillsInRange | backend/src/services/billingService.js:68-72 | a bill is kept iff start ≤ timestamp ≤ end, with its multiplicity |
| Sales.BillsByMethod | backend/src/services/billingService.js:77-79 | a bill is kept iff its payment method equals the argument, with its multiplicity |
| Sales.PaymentMethodBreakdown | backend/src/services/billingService.js:90-96 | the loop computes the breakdown; its keys are exactly the methods present, and each value is the revenue of that method's bills |
| Sales.BreakdownKeys | backend/src/services/billingService.js:90-96 | the breakdown has an entry for exactly the payment methods that occur |
| Sales.BreakdownValues | backend/src/services/billingService.js:90-96 | each breakdown value is the total amount due of the bills paid with that method |
| Sales.BreakdownSumsToRevenue | backend/src/services/billingService.js:84-105 | the breakdown's values, one per distinct method, add up to the total revenue |
| Sales.Summary | backend/src/services/billingService.js:84-105 | totalBills is the number of bills, and the average times the count is the revenue when there are bills |
| Sales.EmptySummary | backend/src/services/billingService.js:88 | with no bills every figure is 0 and the breakdown is empty |
| Sales.AccumulateItemSales | backend/src/services/billingService.js:111-126 | the nested loops build the grouping function's result, one entry per distinct item name in first-occurrence order |
| Sales.GroupNamesOfGroupSales | backend/src/services/billingService.js:113-126 | the accumulator's names are the distinct item names, in first-occurrence order |
| Sales.GroupSalesEntries | backend/src/services/billingService.js:113-126 | each entry's quantitySold and revenue are the sums over the lines of its name, and its icon is the first such line's icon |
| Sales.TopItems | backend/src/services/billingService.js:128-130 | the list is non-increasing by quantitySold, has min(limit, number of distinct names) entries for limit ≥ 0, every entry is an accumulated group, and no name appears twice |
| Sales.TopItemsSummarise | backend/src/services/billingService.js:110-131 | every listed entry sums the lines of its own name and carries its first icon |
| Sales.TopItemsKeepsTheLargest | backend/src/services/billingService.js:128-130 | a group left out of the list sold no more than any group kept |
| BillingService.FalsyValuesAreIgnored | backend/src/services/billingService.js:141-150 | a supplied 0 or `""` does not replace the stored discount, subtotal, amount, notes or method |
| BillingService.EmptyUpdateKeepsBill | backend/src/services/billingService.js:141-150 | an update that supplies nothing truthy leaves the bill as it was |
| BillingService.MergeIdempotent | backend/src/services/billingService.js:141-150 | applying the same update twice is applying it once |
| BillingService.TotalsAreNotRecomputed | backend/src/services/billingService.js:141-150 | new items with no new totals keep the old subtotal, which then no longer matches the items |
| BillingService.BillingService.constructor | backend/src/models/bill.js:77 | the history starts empty |
| BillingService.BillingService.CreateBill | backend/src/services/billingService.js:17-49 | one line per cart entry in order, priced from the entry; subtotal is the sum of grams times price; amount due is subtotal minus discount; exactly this bill is appended and earlier bills are unchanged; a fresh id is then found |
| BillingService.BillingService.GetBillById | backend/src/services/billingService.js:61-63 | null iff no bill has the id; otherwise the first bill with that id |
| BillingService.BillingService.GetBillsByDateRange | backend/src/services/billingService.js:68-72 | exactly the bills with start ≤ timestamp ≤ end, each as often as in the history |
| BillingService.BillingService.GetBillsByPaymentMethod | backend/src/services/billingService.js:77-79 | exactly the bills paid with the method, each as often as in the history |
| BillingService.BillingService.GetSalesSummary | backend/src/services/billingService.js:84-105 | count, revenue and discount sums, average (0 when empty), breakdown keys equal to the methods present, values per method, values summing to the revenue |
| BillingService.BillingService.GetMostSoldItems | backend/src/services/billingService.js:110-131 | sorted non-increasing by grams sold, min(limit, distinct names) long for limit ≥ 0, at most `limit` entries, one entry per name, each the sums and first icon of its name |
| BillingService.BillingService.UpdateBill | backend/src/services/billingService.js:136-154 | an unknown id gives null and no change; otherwise the first bill with that id is replaced, in place, by its truthy merge, keeping the id, and every other bill is unchanged |
| BillingService.BillingService.DeleteBill | backend/src/services/billingService.js:159-164 | false and no change iff the id is absent; otherwise exactly the first bill with the id is removed, the length drops by one and the rest keep their order |
| MongoBillingService.ScanRejectionsAt | backend/src/services/mongoBillingService.js:16-28 | the validation pass reports the first entry whose item is missing or short of stock |
| MongoBillingService.CartPassesIff | backend/src/services/mongoBillingService.js:11-28 | a cart passes iff it is non-empty and every entry, on its own, names a stocked item holding at least its grams |
| MongoBillingService.DeductSumsQuantities | backend/src/services/mongoBillingService.js:31-40 | after deduction, each item's stock is lower by the total grams of all entries naming it, and no item is added or removed |
| MongoBillingService.DuplicateEntriesOverdraw | backend/src/services/mongoBillingService.js:16-40 | two 60 g entries against 100 g of stock both pass the check, and the stock ends at -20 g |
| MongoBillingService.OverDiscountKeepsDeduction | backend/src/services/mongoBillingService.js:37-69 | a discount above the subtotal passes the stock check and deducts stock, and the save is then refused on totalAmount |
| MongoBillingService.GroupedBreakdownIsBreakdown | backend/src/services/mongoBillingService.js:156-168 | the `$group` by payment method equals the in-memory breakdown |
| MongoBillingService.DayWindows | backend/src/services/mongoBillingService.js:245-248 | a time is in a day's window iff it is less than 86,400,000 ms past the day's start; consecutive windows do not overlap |
| MongoBillingService.SpreadStoresFalsyValues | backend/src/services/mongoBillingService.js:217 | unlike the in-memory merge, a supplied 0 discount or `""` notes is stored |
| MongoBillingService.ApplyUpdateKeepsValid | backend/src/services/mongoBillingService.js:215-219 | on a valid bill, the update validators accept an update iff the updated bill is valid |
| MongoBillingService.MongoBillingService.constructor | backend/src/services/mongoBillingService.js:4 | the service starts with the given stock and no bills, and its invariant holds |
| MongoBillingService.MongoBillingService.CreateBill | backend/src/services/mongoBillingService.js:8-76 | a rejected cart (empty, missing item, short stock) fails with the first reason and changes nothing; otherwise stock is deducted even if the save then fails; after a passing cart the result is the validation error when the schema refuses the bill, a duplicate-key error when a stored bill already has the fresh id, and otherwise success; on success the saved bill has the cart's lines, sum and amount due and is appended; unique ids and valid bills are preserved |
| MongoBillingService.MongoBillingService.CheckStock | backend/src/services/mongoBillingService.js:16-28 | the loop returns the scan's first rejection and changes nothing |
| MongoBillingService.MongoBillingService.DeductStock | backend/src/services/mongoBillingService.js:31-53 | the loop leaves the stock deducted by every entry and returns the priced lines in cart order |
| MongoBillingService.MongoBillingService.GetAllBills | backend/src/services/mongoBillingService.js:81-89 | every stored bill, sorted by timestamp, newest first |
| MongoBillingService.MongoBillingService.GetBillById | backend/src/services/mongoBillingService.js:94-102 | null iff no bill has the id; otherwise a stored bill with that id, and the only one while ids are unique |
| MongoBillingService.MongoBillingService.GetBillsByDateRange | backend/src/services/mongoBillingService.js:107-120 | exactly the bills with start ≤ timestamp ≤ end, newest first |
| MongoBillingService.MongoBillingService.GetBillsByPaymentMethod | backend/src/services/mongoBillingService.js:125-133 | exactly the bills paid with the method, newest first |
| MongoBillingService.MongoBillingService.GetSalesSummary | backend/src/services/mongoBillingService.js:138-181 | the same summary as the in-memory service over the stored bills, and all zeros with an empty breakdown when there are none |
| MongoBillingService.MongoBillingService.GetMostSoldItems | backend/src/services/mongoBillingService.js:186-208 | fails iff limit ≤ 0; otherwise sorted non-increasing by grams sold, at most `limit` entries, min(limit, distinct names) long, one entry per name, each the sums and first icon of its name |
| MongoBillingService.MongoBillingService.GetDailySalesSummary | backend/src/services/mongoBillingService.js:243-274 | count, revenue and discount of the bills within [day start, day start + 86,399,999 ms], and {0, 0, 0} when none match |
| MongoBillingService.MongoBillingService.UpdateBill | backend/src/services/mongoBillingService.js:213-225 | failing validators give an error and no change; an unknown id gives null and no change; otherwise a duplicate-key error when another bill already has the updated id, and success in every other case, with the first bill with the id taking every supplied value and `updatedAt = now`, in place; stock is untouched and unique ids and valid bills are preserved |
| MongoBillingService.MongoBillingService.DeleteBill | backend/src/services/mongoBillingService.js:230-238 | true iff a bill with the id existed; then the first such bill is removed, the rest keep their order, and under unique ids none with that id remains |
| MenuService.PriceZeroCannotBeSet | backend/src/services/menuService.js:56 | an update with price 0 keeps the stored price |
| MenuService.MergeMenuFields | backend/src/services/menuService.js:52-59 | the id is kept; a truthy supplied name or price is stored and a falsy one is ignored; an empty update changes nothing |
| MenuService.MergeMenuIdempotent | backend/src/services/menuService.js:52-59 | applying the same update twice is applying it once |
| MenuService.MenuService.constructor | backend/src/models/menu.js:36-51 | the catalog starts as the seed list |
| MenuService.MenuService.GetItemsByCategory | backend/src/services/menuService.js:14-16 | exactly the items of that category, each as often as in the catalog |
| MenuService.MenuService.GetCategories | backend/src/services/menuService.js:21-25 | each category present appears exactly once, nothing else appears, and the order is first occurrence |
| MenuService.MenuService.GetMenuItemById | backend/src/services/menuService.js:30-32 | null iff no item has the id; otherwise the first item with that id |
| MenuService.MenuService.AddMenuItem | backend/src/services/menuService.js:37-42 | exactly one item carrying the given fields is appended, and existing items are unchanged |
| MenuService.MenuService.UpdateMenuItem | backend/src/services/menuService.js:47-62 | an unknown id gives null and no change; otherwise the first item with the id is replaced, in place, by its truthy merge, keeping the id |
| MenuService.MenuService.DeleteMenuItem | backend/src/services/menuService.js:67-72 | false and no change iff the id is absent; otherwise exactly the first match is removed and the rest keep their order |

## Left out

- HTTP routing and response shaping are not modelled. This covers the route input checks: the
  non-empty-cart check in backend/src/api/billingRoutes.js:14 and the `!name \|\| !category \|\|
  !price` check in backend/src/api/menuRoutes.js:96. The services accept such inputs themselves,
  and the model states what the services do.
- services/mongoMenuService.js, models/settings.js, server start-up, configuration, middleware,
  logging and the seed and test scripts are not part of this model.
- The persistent `createBill` awaits the database between its two passes. Interleaving with
  other requests is not modelled: each call is one atomic step.
- Floating-point rounding and NaN: numbers are exact reals.
- Dates are simplified:
  - `Date.now()` and `new Date()` are parameters.
  - `toISOString` and date-string parsing are function parameters.
  - An unparsable date bound (every comparison with NaN is false) is not modelled; range bounds
    are integers.
  - The daily window starts at a given local midnight and is always 86,400,000 ms long, so days
    of 23 or 25 hours at daylight-saving changes are not modelled.
- String lengths count characters, while the schema's `maxlength` counts UTF-16 code units; they
  differ for characters outside the Basic Multilingual Plane.
- JavaScript's dynamic typing is not modelled: missing properties, values of the wrong type and
  implicit coercions.
- Bill.RecordFromJson: returns `None` where `fromJSON` would build a record holding `undefined`
  or a non-array `items` would throw; the round trip is stated for well-formed input only.
- Menu.FromJson: returns `None` where `fromJSON` would build an item holding `undefined`.
- Prototype keys are not modelled. The accumulators of `getSalesSummary` and `getMostSoldItems`
  are plain objects, so a name such as `constructor` or `__proto__` would meet an inherited
  property.
- Sales.PaymentMethodBreakdown: the breakdown is a `map`, so the order in which the JavaScript
  object lists its keys (first appearance of each method) is not modelled; the same holds for
  the `$group` breakdown of the persistent service.
- `Object.values` lists integer-like keys first, in numeric order. The model keeps every key in
  insertion order.
- Sort ties: MongoDB's `$sort` does not fix the order of equal keys or of `$group` output. The
  model uses a stable sort over insertion order, and `$first` takes the icon of the earliest
  stored line.
- `stockQuantity` is not a declared field of the menu schema. Under Mongoose's strict mode the
  real read would see `undefined` and the `$inc` would be dropped. The model keeps an abstract
  stock level per item id, as the service evidently intends. The billing lookup has no
  `available` filter, and neither does the model.
- Automatic `createdAt` and `timestamps` fields, unknown update fields (dropped by strict mode)
  and casting of string timestamps in updates are not modelled.
- Error messages and the generic rethrow in the catch blocks: errors are `BillError` values, and
  database connection failures are not modelled.
- `getAllItems` and the in-memory `getAllBills` return the array itself; the model reads the
  field.
- BillingService.BillingService.GetBillsByDateRange: the contract gives exact membership and
  multiplicity; history order is stated separately by Seqs.FilterAppend.
- BillingService.BillingService.GetBillsByPaymentMethod: the contract gives exact membership and
  multiplicity; history order is stated separately by Seqs.FilterAppend.
- MenuService.MenuService.GetItemsByCategory: the contract gives exact membership and
  multiplicity; catalog order is stated separately by Seqs.FilterAppend.
- BillingService.MergeTruthy: a supplied timestamp is always treated as a truthy `Date`. A
  numeric 0 would be ignored in JavaScript.
