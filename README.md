# Inventory valuation core of an inventory and sales tracker

This project models, in Dafny, the parts of a small-business inventory and
sales tracker (a Next.js application over a hosted database) that carry
logic of their own:

- `valuation.dfy` (module `Valuation`): the valuation calculator. The
  weighted-average cost (WAC) update blends the on-hand stock value with a
  purchase and returns 0 instead of dividing by a combined stock of zero or
  less. The first-in-first-out (FIFO) cost of goods sold walks the stock
  batches oldest first, takes `min(still to sell, quantity_remaining)` from
  each, adds up the cost, and emits one remaining-quantity update per batch it
  touches. A short supply is drained, not reported. The FIFO calculation is
  modelled twice: as the loop the source runs (`CalculateFIFOCOGS`) and as a
  recursive reference function (`Fifo`). The loop is proved equal to the
  function, and the function's properties are proved as lemmas.
- `validations.dfy` (module `Validations`): the item, sale and purchase form
  schemas. Each schema has three forms that are proved to agree: the set of
  fields that fail, a validity predicate, and a parse to a typed record. The
  typed record keeps every whole count at its proper sign, and a round trip
  from the typed record back through the form is proved.
- `middleware.dfy` (module `RouteGuard`): the route guard's redirect
  decision. It is a pure function of whether a user is signed in and of the
  request path.
- `export_sales.dfy` (module `SalesExport`): the per-sale rows of the
  profit-and-loss export. Each row holds the revenue before 7.5% VAT, the VAT,
  the cost of goods sold, the gross profit and the valuation method, with
  "FIFO" as the default.
- `wrappers.dfy` (module `Wrappers`): `Option` and `Result`.

Modelling choices:

- Quantities are `int`. Money is `real`, with no floating-point rounding.
- Form numbers are `real`, as entered. A schema's `.int()` check is the test
  that the number has no fractional part.
- Whether a string is a UUID is a parameter (`isUuid`) of the sale and purchase
  schemas. The exact UUID pattern depends on the version of the validation
  library, which is not part of this model.
- Whether a user is signed in is an input of the route guard. The session
  lookup that produces it is left out.
- Batches are passed as a `seq`, which is a value. So the FIFO calculation
  cannot change its input, matching the source, which reads the batches only.
- The model does not forbid negative batch quantities, and neither does the
  source. Only `FifoUpdatesInRange`, `FifoConsumesMinOfRequestAndSupply` and
  `FifoShortSupplyDrainsAll` require `NonNegative(batches)`, as do their helpers
  `SupplyNonNegative` and `NonNegativeSlice`. The other FIFO property lemmas
  hold for batches of any sign.

## Model

| member | source | states |
|---|---|---|
| Valuation.NewWeightedAverage | src/lib/valuation.ts:18-31 | a combined stock of 0 or less gives 0; otherwise the result times the combined stock equals the old stock value plus the purchase cost |
| Valuation.WacFromEmptyStock | src/lib/valuation.ts:24-30 | from empty stock, a positive purchase sets the average to the purchase's unit cost, whatever the old average was |
| Valuation.WacBetween | src/lib/valuation.ts:24-30 | with non-negative stock and a positive purchase, the new average lies between the old average and the purchase's unit cost |
| Valuation.WacSameCostUnchanged | src/lib/valuation.ts:24-30 | buying at exactly the current average leaves the average unchanged |
| Valuation.WacTwoPurchases | src/lib/valuation.ts:24-30 | 10 units for 100 from empty stock give an average of 10; 10 more for 300 give 20 |
| Valuation.Min | src/lib/valuation.ts:54 | `Math.min` on whole numbers: the result is no larger than either argument and is one of them |
| Valuation.Fifo | src/lib/valuation.ts:43-65 | the FIFO calculation as a recursion over the batches: nothing is taken when no batch is left or nothing more than 0 is left to sell; otherwise the oldest batch gives up min(still to sell, quantity_remaining), its cost and update come first, and the rest follows; there are never more updates than batches |
| Valuation.CalculateFIFOCOGS | src/lib/valuation.ts:43-65 | the source's loop, with its early break and appended updates, returns exactly `Fifo(quantityToSell, batches)`; its updates name a prefix of the batches in order, and its total cost is the sum of units taken times unit cost |
| Valuation.FifoOldestFirst | src/lib/valuation.ts:51-62 | the updated batch ids are a prefix of the input batch ids, in the same order |
| Valuation.FifoCostIsSumOfTakes | src/lib/valuation.ts:51-62 | the total cost is the sum over touched batches of (original less updated quantity) times unit cost |
| Valuation.FifoTakes | src/lib/valuation.ts:51-62 | for batches of any sign, update k is batch k's quantity less min(request less all older batches' quantity, batch k's quantity); a batch is touched only while something is still to sell; iteration stops right after the batch that meets the request |
| Valuation.FifoUpdateAt | src/lib/valuation.ts:51-61 | for batches of any sign, update k belongs to a batch reached while the older batches had not yet met the request, and is batch k's quantity less min(request less the older batches' quantity, batch k's quantity) |
| Valuation.FifoStopsWhenMet | src/lib/valuation.ts:51-52 | there are no more updates than batches, and when fewer batches are updated than exist, the updated ones already cover the request |
| Valuation.FifoStep | src/lib/valuation.ts:54-61 | one pass of the loop, taking min(still to sell, quantity_remaining) from the next batch and moving its cost and update into the running result, leaves the overall FIFO result unchanged |
| Valuation.FifoUpdatesInRange | src/lib/valuation.ts:54-61 | for non-negative batches every update lies between 0 and the batch's original quantity |
| Valuation.FifoConsumesMinOfRequestAndSupply | src/lib/valuation.ts:51-64 | for a non-negative request over non-negative batches, the units consumed equal min(request, total supply) |
| Valuation.FifoShortSupplyDrainsAll | src/lib/valuation.ts:51-64 | for non-negative batches, when the request exceeds the supply, every batch is updated, each to 0, and no failure is signalled |
| Valuation.FifoNothingToSell | src/lib/valuation.ts:47-52 | a request of 0 or less costs 0 and produces no update |
| Valuation.FifoTwoBatches | src/lib/valuation.ts:43-65 | batches (5 at 10, 5 at 20): a sale of 7 costs 90 with updates 0 and 3; a sale of 20 costs 150 and drains both |
| Validations.IsInteger | src/lib/validations.ts:9 | a form number passes `.int()` exactly when it has no fractional part |
| Validations.ParseUnitType | src/lib/validations.ts:20 | the unit-type enum accepts exactly "base" and "package" |
| Validations.UnitTypeRoundTrip | src/lib/validations.ts:20 | each unit type's name parses back to it |
| Validations.ItemIssues | src/lib/validations.ts:3-13 | only name, price, category, quantity, base_unit and units_per_package can fail |
| Validations.ValidItem | src/lib/validations.ts:3-13 | the item schema accepts a form exactly when no field fails; `ValidItemExactly` spells this out field by field |
| Validations.ValidItemExactly | src/lib/validations.ts:3-13 | an item is valid iff name, category and base_unit are non-empty, price >= 0, quantity is a whole number >= 0 and units_per_package is a whole number >= 1 |
| Validations.ItemFreeTextUnconstrained | src/lib/validations.ts:5-11 | description, barcode and packaging_unit never affect validity |
| Validations.ParseItem | src/lib/validations.ts:3-13 | parsing succeeds iff the form is valid, and the typed item maps back to the same form; a failure lists exactly the failing fields, and there is at least one |
| Validations.ItemRoundTrip | src/lib/validations.ts:3-13 | every typed item with non-empty required strings and a non-negative price parses back from its form unchanged |
| Validations.SaleIssues | src/lib/validations.ts:17-23 | only item_id, quantity_sold, unit_type and unit_quantity can fail |
| Validations.ValidSale | src/lib/validations.ts:17-23 | the sale schema accepts a form exactly when no field fails; `ValidSaleExactly` spells this out field by field |
| Validations.ValidSaleExactly | src/lib/validations.ts:17-23 | a sale is valid iff item_id passes the UUID check, quantity_sold and unit_quantity are whole numbers > 0, and unit_type is "base" or "package" |
| Validations.SaleAnyCustomerName | src/lib/validations.ts:22 | any customer name, the empty one included, leaves validity unchanged |
| Validations.ParseSale | src/lib/validations.ts:17-23 | parsing succeeds iff the form is valid, and the typed sale maps back to the same form; a failure lists exactly the failing fields |
| Validations.SaleRoundTrip | src/lib/validations.ts:17-23 | every typed sale of a UUID item parses back from its form unchanged |
| Validations.PurchaseIssues | src/lib/validations.ts:27-35 | only item_id, quantity_purchased, unit_type, unit_quantity, cost and new_selling_price can fail |
| Validations.ValidPurchase | src/lib/validations.ts:27-35 | the purchase schema accepts a form exactly when no field fails; `ValidPurchaseExactly` spells this out field by field |
| Validations.ValidPurchaseExactly | src/lib/validations.ts:27-35 | a purchase is valid iff item_id passes the UUID check, quantity_purchased and unit_quantity are whole numbers > 0, unit_type is "base" or "package", cost >= 0, and new_selling_price is absent or >= 0 |
| Validations.PurchaseSellingPriceOptional | src/lib/validations.ts:33 | dropping the new selling price keeps a valid purchase valid; a present price is valid iff the purchase without it is valid and the price is >= 0 |
| Validations.PurchaseAnySupplierName | src/lib/validations.ts:34 | any supplier name, the empty one included, leaves validity unchanged |
| Validations.ParsePurchase | src/lib/validations.ts:27-35 | parsing succeeds iff the form is valid, and the typed purchase maps back to the same form; a failure lists exactly the failing fields |
| Validations.PurchaseRoundTrip | src/lib/validations.ts:27-35 | every typed purchase of a UUID item with a non-negative cost and selling price parses back from its form unchanged |
| RouteGuard.StartsWith | src/middleware.ts:35-39 | `startsWith`: the prefix is an initial segment of the path |
| RouteGuard.LoginRedirectApplies | src/middleware.ts:34-40 | the first guard: no user, and the path starts with "/dashboard", "/inventory", "/sales", "/purchases" or "/reports" |
| RouteGuard.DashboardRedirectApplies | src/middleware.ts:45-49 | the second guard: a user, and the path is exactly "/login", "/signup" or "/" |
| RouteGuard.Target | src/middleware.ts:41-50 | a login redirect goes to "/login" and a dashboard redirect to "/dashboard" |
| RouteGuard.Decide | src/middleware.ts:33-53 | a visitor without a session is never sent to the dashboard, and a signed-in user is never sent to the login page |
| RouteGuard.DecideExactly | src/middleware.ts:33-53 | login redirect iff there is no user and some protected prefix begins the path; dashboard redirect iff there is a user and the path is exactly "/login", "/signup" or "/"; otherwise the request goes through |
| RouteGuard.GuardsExclusive | src/middleware.ts:34-48 | the two redirect conditions never hold together |
| RouteGuard.ProtectedPathIsNoGuestPage | src/middleware.ts:35-48 | no path starting with a protected prefix equals a guest page |
| RouteGuard.ProtectedPrefixRedirects | src/middleware.ts:34-42 | without a session, a protected prefix followed by anything redirects to "/login" |
| RouteGuard.SalesFooRedirects | src/middleware.ts:37 | matching is by plain prefix: "/salesfoo" without a session redirects to "/login" |
| RouteGuard.SignedInProtectedPassesThrough | src/middleware.ts:45-53 | a signed-in user on any protected path goes through |
| RouteGuard.SignedInBelowGuestPagePassesThrough | src/middleware.ts:45-53 | a signed-in user on "/login" or "/signup" followed by a non-empty suffix (such as "/login/x") goes through, because the comparison is exact |
| RouteGuard.GuestPagesOpenWithoutSession | src/middleware.ts:34-53 | without a session, "/", "/login" and "/signup" go through |
| RouteGuard.NoRedirectLoop | src/middleware.ts:33-53 | the target of every redirect goes through for the same visitor |
| SalesExport.CostPrice | src/app/api/export-sales/route.ts:23 | a missing cost at sale counts as 0; a recorded one is used as it is |
| SalesExport.MethodOrDefault | src/app/api/export-sales/route.ts:38 | a recorded non-empty method is kept; a missing or empty one becomes "FIFO"; the result is never empty |
| SalesExport.ToRow | src/app/api/export-sales/route.ts:22-39 | revenue before VAT times 1.075 is the revenue; that plus the VAT is the revenue; the VAT is 7.5% of the revenue before VAT; gross profit plus cost of goods sold plus VAT is the revenue; with no recorded cost, gross profit is the revenue before VAT; date, item and quantity are copied |
| SalesExport.ExportSales | src/app/api/export-sales/route.ts:22-40 | one row per sale, the same length, row i made from sale i |
| SalesExport.ExportSalesAppend | src/app/api/export-sales/route.ts:22 | exporting a concatenation gives the concatenation of the exports, so order is preserved |
| SalesExport.CogsIsUnitCostTimesQuantity | src/app/api/export-sales/route.ts:23-26 | cost of goods sold is the cost at sale (0 if missing) times the quantity sold |
| SalesExport.VatBounds | src/app/api/export-sales/route.ts:24-35 | for revenue >= 0, the VAT and the revenue before VAT both lie between 0 and the revenue |
| SalesExport.DivisorIsOnePlusRate | src/lib/utils.ts:1 | the export's divisor 1.075 is one plus the application's VAT rate 0.075 |
| SalesExport.CheckoutTotalSplitsBack | src/components/SaleDialog.tsx:62-64 | a sale whose total is subtotal plus VAT at the flat rate, as the checkout computes it, exports exactly that subtotal as revenue before VAT and that VAT as the VAT |

## Left out

- Stock-transaction coordination and batch-ledger persistence: recording a purchase, appending a batch, applying batch updates and decrementing stock. The code that does this runs in the database and is not part of this model. The model covers only what the calculator returns.
- Unit conversion from packaging units to base units: the code that does it is not part of this model.
- All database, authentication and cookie handling in the route guard and the export route. This includes the session lookup, the 401 and 500 responses and the route matcher pattern. They are calls into libraries and the framework.
- The UUID format of `item_id` is the caller-supplied `isUuid`, not the validation library's own pattern, because that pattern depends on the library version.
- The schemas' error messages, how many issues a field with several failing checks reports, and inputs of the wrong type (a missing field, text where a number is expected). The model reports the set of failing fields of a well-typed form.
- Floating-point rounding, NaN and infinities of JavaScript numbers. Money is an exact `real`, so `cost_at_sale || 0` treats only a missing cost specially. A recorded 0 gives the same value either way.
- The `Number(...)` coercions in the calculator and the export. Inputs are already numbers of the modelled types.
- PDF invoices, e-mail stock alerts, the user interface and locale formatting. They are presentation and I/O.
