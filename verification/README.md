# B-Look order pricing, modelled in Dafny

B-Look is an order system for custom apparel: shirts priced by neck style,
quantity tier and add-ons, and sold with Thai VAT. This project models its
pricing core and proves properties of that model:

- the quote engine `calculate_price` (backend/app/api/pricing.py):
  - the shipping scale;
  - the neck-name normalization and the tolerant three-pass catalog match;
  - the round/V versus collared tier tables;
  - the add-on rules (forced tongue, forced slope, oversize slope);
  - the accumulation loop that builds `details` and the running totals.
- `create_order` (backend/app/api/orders.py), as a `Store` object holding
  three tables:
  - customer lookup and creation;
  - item totals, VAT, profit and balance;
  - the order header row and one stored row per item.
- `PricingService.calculate_order_total` (backend/app/services/pricing.py).
- The public payment endpoints (backend/app/api/public.py):
  - the amount due, chosen by status;
  - the slip upload, with its checks in source order and the one slip field
    it sets on the matched `Order` object.
- The customer payment page (frontend/src/publicPages/CustomerPayment.jsx):
  which installment it uploads for, and the amount it shows.
- The order form and dashboard of frontend/src/App.jsx:
  - the live totals;
  - the deadline urgency class;
  - the calendar filter and the grouping by day.

The three copies of the order totals are related by lemmas in
`TotalsAgreement`:

- The form shows exactly what `create_order` stores for the same one-item
  order.
- The service's amount before VAT is `create_order`'s less shipping and the
  manual add-on cost.

Money is an exact `real`. `price * qty` is written as `Money.Times`
(repeated addition), which `Money.TimesIsProduct` proves is the product.
I/O, the clock, `uuid4` and `imghdr` become inputs.

The code behaves as follows, and the model with it:

- A line of 20 pieces of "คอปกคางหมู (มีลิ้น) (บังคับไหล่สโลป+40 บาท/ตัว)" costs 6800, not 7000.
  The name contains "มีลิ้น", but the special necks never receive the forced
  collar tongue (pricing.py 178-183), so the line is 300 base plus a 40
  slope for each of the 20 pieces (`Quote.TrapezoidCollarLine`).
- Customers are found by their exact, untrimmed name (orders.py:16).
- `product_type` is accepted by the quote engine and never read.
- The code has no deposit split, no oversize allow-list, no sizing
  surcharge and no reconciliation step, so none is modelled.

## Model

| member | source | states |
|---|---|---|
| Rates.ShippingMonotone | backend/app/api/pricing.py:25-42 | the shipping fee is never negative and never drops as the quantity grows |
| Rates.ShippingPerPieceAbove100 | backend/app/api/pricing.py:40-42 | above 100 pieces every extra piece adds exactly 50 |
| Text.Strip | backend/app/api/pricing.py:114 | `.strip()` yields the input with its leading and trailing whitespace runs removed and no whitespace at either end |
| Names.NoAltSpellingLeft | backend/app/api/pricing.py:49 | after the re-encoding of "นํ้า" no occurrence of it remains, including one formed across a replacement |
| Names.ReplaceAllKeepsPrefix | backend/app/api/pricing.py:49 | text before the first occurrence of the pattern is copied unchanged by `str.replace` |
| Names.StripParensComplete | backend/app/api/pricing.py:53 | after the non-greedy parenthesis removal no `(`…`)` span without a line break is left |
| Names.StripParensNoOpen | backend/app/api/pricing.py:53 | a name without '(' is left as it is by the parenthesis removal |
| Names.CollapsedShape | backend/app/api/pricing.py:54 | after whitespace collapsing there are no two adjacent whitespace characters and no whitespace other than ' ' |
| Names.CollapseKeepsNonSpace | backend/app/api/pricing.py:54 | collapsing whitespace keeps every visible character in order |
| Names.StripCollapsedIsJoin | backend/app/api/pricing.py:54 | collapsing whitespace and trimming leaves the maximal non-whitespace runs of the input joined by single spaces |
| Names.NormalizeName | backend/app/api/pricing.py:45-55 | an empty name normalizes to ""; the result is the words (maximal non-whitespace runs) of the re-encoded, parenthesis-free input joined by single spaces, so it is trimmed, single-spaced and keeps every visible character |
| Catalog.Longest | backend/app/api/pricing.py:144-146 | `max(matches, key=len)` picks a longest candidate, the earliest among equals, and finds none exactly when no row fits |
| Catalog.MatchIn | backend/app/api/pricing.py:130-156 | an exact normalized match wins, else the longest row contained in the request, else the longest row containing it; no row is matched exactly when all three passes are empty; an empty row name never matches |
| Catalog.MatchPrefersExactName | backend/app/api/pricing.py:117-134 | when some row's normalized name equals the request's, the matched row is the first such row |
| Catalog.ExactMatchIsFirst | backend/app/api/pricing.py:131-134 | the exact pass stops at the first row whose normalized name equals the request |
| Catalog.BestAtUnique | backend/app/api/pricing.py:139-156 | each pass's pick is unique, so ties never leave a choice |
| Catalog.EmptyNameTakesLongestRow | backend/app/api/pricing.py:148-156 | a neck name that normalizes to "" matches the catalog row with the longest non-empty normalized name |
| Rates.RoundVByTwoMarkers | backend/app/api/pricing.py:159-161 | the round/V table applies exactly when the name lacks "ปก" and contains "คอกลม" or "คอวี" (the other three markers contain "คอวี") |
| Rates.FirstBand | backend/app/api/pricing.py:169-171 | the band found contains the quantity; when none is found no band of the table contains it |
| Rates.UnitPrice | backend/app/api/pricing.py:166-172 | below 10 pieces the first band's price applies, inside a band that band's price, above 99999 the last band's price |
| Rates.UnitPriceIsBandPrice | backend/app/api/pricing.py:63-78 | the table lookup equals the tiers written as one piecewise rule at every quantity, band edges included |
| Rates.UnitPriceNonIncreasing | backend/app/api/pricing.py:63-78 | ordering more pieces never raises the unit price |
| Rates.CollarCostsMore | backend/app/api/pricing.py:63-78 | at every quantity the collared table charges more per piece than the round/V table |
| Addons.ResolveAddons | backend/app/api/pricing.py:178-205 | the step-by-step `add`/`discard` sequence ends with the final add-on set |
| Addons.FinalAddonsMembers | backend/app/api/pricing.py:178-205 | an id is in the final set exactly when it was requested or forced, with the plain slope dropped on oversize lines unless the neck forces it |
| Addons.ForcedOversizeHasBothSlopes | backend/app/api/pricing.py:184-205 | an oversize line whose neck forces the slope carries both slope add-ons |
| Addons.OversizeReplacesRequestedSlope | backend/app/api/pricing.py:184-205 | on an oversize line the plain slope survives exactly when the neck forces it |
| Addons.AddonUnitTotalInsert | backend/app/api/pricing.py:207-211 | adding one new id to the set adds that id's price to the per-piece add-on total |
| Addons.SumAddonPrices | backend/app/api/pricing.py:207-211 | the loop over the set, in any iteration order, returns the per-piece add-on total |
| Quote.PriceLine | backend/app/api/pricing.py:102-228 | an item is skipped exactly when its quantity is not positive; a kept line has that quantity, the stripped neck name and `line_total = unit×qty + addon_unit×qty` |
| Quote.PriceItem | backend/app/api/pricing.py:114-228 | the loop body's strip, match, tier, add-on and total steps produce the line the item prices to |
| Quote.AddLine | backend/app/api/pricing.py:212-228 | appending a line adds its quantity, add-on total and line total to the three running sums, which stay the sums of `details` |
| Quote.CalculatePrice | backend/app/api/pricing.py:58-239 | an empty request fails; otherwise `details` is one line per positive-quantity item in order, the totals are the sums over `details`, shipping is the scale on the total quantity, and the price per unit is the first item's unit price or 0 when the first item is skipped |
| Quote.FirstDetailIsFirstItem | backend/app/api/pricing.py:174-175 | when the first item has a positive quantity, the first line of `details` is that item's line |
| Quote.NonPositiveItemChangesNothing | backend/app/api/pricing.py:108-110 | inserting an item with no positive quantity anywhere in a request leaves `details` unchanged |
| Quote.TotalQtyOfDetails | backend/app/api/pricing.py:108-112 | the total quantity is the sum of the positive item quantities and is never negative |
| Quote.DetailsLineFormula | backend/app/api/pricing.py:213-216 | every line of `details` has a positive quantity and `line_total = unit×qty + addon_unit×qty` |
| Quote.QuoteTotalSplits | backend/app/api/pricing.py:213-217 | the total price is the base part plus the add-on part, summed over `details` |
| Quote.TrapezoidCollarLine | backend/app/api/pricing.py:178-211 | 20 pieces of the trapezoid collar with forced slope and an empty catalog price to 300 per piece, a 40 slope add-on, and 6800 in total |
| Money.TimesIsProduct | backend/app/api/orders.py:33-34 | the repeated-addition product equals `price × qty` for every integer quantity |
| Vat.Split | backend/app/api/orders.py:42-47 | with VAT included the total is the amount and the VAT is 7/107 of it; with VAT excluded the VAT is 7% of the amount, added on top |
| Vat.VatIsSevenPercentOfNet | backend/app/api/orders.py:42-47 | in both modes the VAT is 7% of the total net of VAT |
| Vat.NetRevenue | backend/app/api/orders.py:49-51 | revenue net of VAT is the whole amount when VAT is added on top, and 100/107 of it when VAT is included |
| Vat.ExcludedChargesMore | backend/app/api/orders.py:42-47 | on a positive amount, adding VAT on top yields a higher total and a higher VAT than VAT included |
| Vat.ZeroAmount | backend/app/services/pricing.py:13-22 | nothing before VAT means no VAT and nothing to pay, in both modes |
| Orders.AccumulateItems | backend/app/api/orders.py:28-34 | the first loop returns the items' total price and total cost |
| Orders.TotalsFor | backend/app/api/orders.py:36-56 | the amount before VAT is items plus add-on plus shipping less discount; VAT follows the mode; profit plus cost plus VAT is the grand total; the balance plus the deposit is the grand total |
| Orders.ProfitWhenVatExcluded | backend/app/api/orders.py:49-53 | with VAT on top, the profit is the amount before VAT less the items' cost |
| Orders.ProfitWhenVatIncluded | backend/app/api/orders.py:49-53 | with VAT included, profit plus cost is 100/107 of the amount before VAT |
| Orders.StoredItemsAddUp | backend/app/api/orders.py:84-104 | the stored rows' prices add up to the items' price and their costs to the order's total cost |
| Orders.FirstNamed | backend/app/api/orders.py:16 | the lookup returns the first customer with exactly this name, or none when no customer has it |
| Orders.Prefix | backend/app/api/orders.py:60 | `hex[:6]` is a prefix of at most 6 characters, exactly 6 when the string is long enough |
| Orders.OrderNo | backend/app/api/orders.py:60 | the order number is "PO-" followed by the first six characters of the hex (fewer if it is shorter), each upper-cased, so 9 characters for a full hex |
| Orders.Store.FindOrCreateCustomer | backend/app/api/orders.py:15-25 | an existing customer with the exact name is reused and nothing changes; otherwise exactly one customer with the order's contact fields is appended; ids stay positions |
| Orders.Store.StoreItems | backend/app/api/orders.py:83-105 | the item table grows by exactly the rows of the order's items, all pointing at the order |
| Orders.Store.CreateOrder | backend/app/api/orders.py:13-112 | exactly one order row is appended, with the totals of `TotalsFor`; its customer is the first with the exact name, or else a new customer appended with the order's contact fields; the item rows follow it; the reply carries the number, total and profit |
| PricingService.CalculateOrderTotal | backend/app/services/pricing.py:3-29 | the subtotal and piece count are the sums over the items; VAT and total follow the VAT rule on the subtotal less the discount; with no items and no discount every figure is 0 |
| PricingService.DiscountEffect | backend/app/services/pricing.py:13-22 | a discount lowers the total one for one with VAT included, and by 1.07 times with VAT on top |
| TotalsAgreement.ServiceSubtotalIsItemsPrice | backend/app/services/pricing.py:7-11 | the service's subtotal equals `create_order`'s items total for the same items |
| TotalsAgreement.ServiceAgreesWithCreateOrder | backend/app/services/pricing.py:14-22 | the service's amount before VAT is `create_order`'s less add-on and shipping, and the two VAT splits agree exactly when those two charges sum to 0 |
| TotalsAgreement.SplitInjective | backend/app/api/orders.py:42-47 | two amounts before VAT give the same VAT and total exactly when they are equal |
| TotalsAgreement.FormAgreesWithCreateOrder | frontend/src/App.jsx:660-678 | the form's amount before VAT, VAT, total, balance, cost and profit equal what `create_order` stores for the same one-item order |
| PublicApi.ParseInstallment | backend/app/api/public.py:61-63 | an installment is accepted exactly when its lower-cased form is one of the three names, and then it is that name |
| PublicApi.ParseInstallmentName | backend/app/api/public.py:61-63 | each installment's own name is accepted as that installment |
| PublicApi.AmountDueIsStored | backend/app/api/public.py:15-25 | the amount due is 0 or one of the order's stored amounts |
| PublicApi.AmountDueIgnoresCase | backend/app/api/public.py:16 | the status is compared in upper case, and a missing status counts as "" |
| PublicApi.FindOrder | backend/app/api/public.py:56 | the lookup returns the first order with this uuid, or none when no order has it |
| PublicApi.CheckUpload | backend/app/api/public.py:56-90 | an upload is accepted exactly when the order exists, the installment is valid, the content type is JPEG/PNG, the size is 1 byte to 5 MiB and the bytes are a JPEG or PNG; a refused one reports the first failing check in that order; the extension follows the detected kind |
| PublicApi.UnknownOrderFirst | backend/app/api/public.py:56-58 | an unknown order is reported before any check of the request |
| PublicApi.SlipUrlInjective | backend/app/api/public.py:91-98 | for one order, the URL determines the installment, the random hex and the extension, so uploads with distinct ones never share a file |
| PublicApi.Order.SetSlip | backend/app/api/public.py:100-105 | the installment's slip field holds the URL and the other two slip fields are unchanged |
| PublicApi.UploadSlip | backend/app/api/public.py:49-124 | the reply is the first failing check or the slip URL; a refused upload changes nothing; an accepted one sets only the matched order's slip field for the installment, appends one audit entry unless the audit write fails, and leaves every status and stored amount alone |
| CustomerPayment.DisplayedAmount | frontend/src/publicPages/CustomerPayment.jsx:33 | the page shows the server's amount, or 0 when it is absent |
| CustomerPayment.PageInstallmentAccepted | frontend/src/publicPages/CustomerPayment.jsx:25-34 | whatever the status, the installment the page sends passes the server's installment check as itself |
| CustomerPayment.PageMatchesServer | frontend/src/publicPages/CustomerPayment.jsx:25-34 | the shown amount is the server's, and for each waiting status the page uploads for the installment whose stored amount the server reports as due |
| OrderForm.LiveTotals | frontend/src/App.jsx:660-678 | the piece count sums every size; the amount before VAT adds add-on and shipping and takes off the discount; VAT follows the shared rule and is 7% of the net; the balance plus the deposit is the total; profit plus cost plus VAT is the total |
| OrderForm.FormProductsAndCost | frontend/src/App.jsx:661-677 | the products subtotal and the cost are the per-piece figures times the piece count |
| OrderForm.DiffDays | frontend/src/App.jsx:710-711 | the day count is the fewest whole days that cover the distance |
| OrderForm.UrgencyByDistance | frontend/src/App.jsx:706-715 | critical exactly within 5 days, warning exactly beyond 5 and within 10, normal exactly beyond 10 |
| OrderForm.UrgencyMonotone | frontend/src/App.jsx:706-715 | a deadline further away, past or future, is never more urgent |
| OrderForm.PastAndFutureAlike | frontend/src/App.jsx:710 | a deadline the same distance in the past is classified like one in the future |
| OrderForm.BlankDeadlineIsNormal | frontend/src/App.jsx:707 | a blank deadline is normal whatever the clock and the parser say |
| Dashboard.FilterEvents | frontend/src/App.jsx:127-131 | the filter keeps no more events than it is given, and each one it keeps came from the list and passes the filter |
| Dashboard.FilterExact | frontend/src/App.jsx:127-131 | an event is kept exactly when it is in the list and passes the filter |
| Dashboard.FilterAllKeepsEverything | frontend/src/App.jsx:128 | the "all" filter returns the list unchanged |
| Dashboard.FilterIsSubseq | frontend/src/App.jsx:127-131 | the kept events keep their original order |
| Dashboard.GroupByDateBuckets | frontend/src/App.jsx:134-137 | the buckets are exactly the days that have events, and each bucket lists that day's events in list order |
| Dashboard.EventInOneBucket | frontend/src/App.jsx:134-137 | every event sits in the bucket of its own day and in no other |
| Dashboard.CalendarCell | frontend/src/App.jsx:127-137 | a day has a calendar cell exactly when some event of that day passes the filter, and the cell holds those events in order |

## Left out

- Database access, HTTP handling, the file write and the creation of the slip directory are left out; the catalog, the store and the orders are in-memory values or objects.
- Floating point is left out: Python `Decimal`/`float` and JavaScript numbers are exact reals, so rounding in `0.07`, `7/107` and `float(...)` is not modelled.
- `str.upper`, `str.lower` and `toUpperCase` are modelled for ASCII letters only; every other character is left unchanged.
- `int(v)` in the quantity sum is the identity: matrix values are integers, and a value that would make `int` raise is not modelled.
- A `neck_type` of None is modelled as "".
- The add-on ids are a set, as in the code, so their order in the `addons` list of a detail line is not modelled.
- The `Decimal(additional_cost)` conversion never fails in the model, so the fallback to 40 inside its `except` is not reachable.
- `uuid4`, the clock, `imghdr` detection and the uploaded bytes are inputs: the random hex, the parsed deadline, the detected kind and the size.
- The audit log entry keeps its fields separately, instead of the formatted `details` string and the string form of the order id.
- `public_get_order` is modelled only through the amount due it reports (`PublicApi.AmountDueFor`); its other response fields copy stored values.
- `create_order` takes an order's database id to be its position in the order table.
- The rest of the React pages (rendering, state hooks, fetch calls and the clipboard text) is not part of this model.
- PublicApi.FindOrder: models `.first()` as the earliest order in the sequence; the database's own row order is not modelled.
