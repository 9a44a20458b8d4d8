# Monthly revenue graph of the e-commerce admin dashboard

This project models `getGraphRevenue`, the routine behind the admin
dashboard's revenue chart. The routine takes the paid orders of one store.
For each order it sums the prices of the products on its line items. It adds
that revenue into an accumulator keyed by the order's creation month (0 to
11). Last it fills a fixed table of twelve points, "Jan" to "Dec", each with
total 0, and overwrites the total of every month that has an accumulator
entry.

The model is one Dafny module, `GraphRevenue` (`graph_revenue.dfy`):

- Data: `Product` (price in exact integer cents), `OrderItem` (one unit of
  one product), `Order` (store, paid flag, creation month, line items),
  `GraphPoint` (name and total). `Month` is the integers 0 to 11, the range
  of a timestamp's month accessor.
- The order query is the function `PaidOrders`, a filter over every stored
  order (`db`) on store identifier and paid flag. The query sets no sort
  order, so `OrderIndependence` shows that the order of the fetched orders
  does not matter.
- `GetGraphRevenue` is the routine itself, in the source's imperative form:
  an outer loop over orders, an inner loop accumulating `revenueForOrder`,
  a `map<Month, int>` accumulator read with a default of 0, a 12-point
  table `graphData` that starts as the zero table, and an update pass over
  the accumulator's keys. The update pass picks keys in an arbitrary order.
- `RevenueGraph` is the specification the method is proved equal to. Its
  total for month `i` is `MonthTotal(orders, i)`, the revenue of the orders
  created in month `i`. `TotalRevenue` sums every order's revenue and
  `SumTotals` sums a chart's totals.

The totals are non-negative only when prices are. The source does not
enforce that: the product API routes check only that a price is present.
So non-negativity is proved under a precondition on prices
(`TotalsNonNegative`).

## Model

| member | source | states |
|---|---|---|
| `GraphRevenue.GetGraphRevenue` | actions/get-graph-revenue.ts:8-65 | The loops, the month-keyed accumulator and the update pass produce exactly `RevenueGraph` of the store's paid orders. Accumulator keys have type `Month`, so every table write is in 0..11, and the result does not depend on the order the keys are visited. |
| `GraphRevenue.PaidOrders` | actions/get-graph-revenue.ts:10-22 | An order is fetched if and only if it is stored, belongs to the store and is paid. |
| `GraphRevenue.PaidOrdersCount` | actions/get-graph-revenue.ts:10-22 | The query returns each paid order of the store exactly as often as it is stored, and never an unpaid order or another store's order. |
| `GraphRevenue.PaidOrdersAppend` | actions/get-graph-revenue.ts:10-22 | Fetching from two batches of stored orders gives the paid orders of the first batch, then those of the second. |
| `GraphRevenue.RevenueGraph` | actions/get-graph-revenue.ts:43-64 | The chart always has exactly 12 points, named "Jan" to "Dec" in calendar order, whatever the orders. |
| `GraphRevenue.OrderRevenueAppend` | actions/get-graph-revenue.ts:31-36 | An order's revenue over two item lists put together is the sum of their revenues, so each line item counts exactly once. |
| `GraphRevenue.OrderRevenueRepeatedItem` | actions/get-graph-revenue.ts:34-36 | A product on `n` line items contributes `n` times its price: repeated products are summed independently. |
| `GraphRevenue.OrderRevenueNonNegative` | actions/get-graph-revenue.ts:31-36 | With non-negative prices, an order's revenue is non-negative. |
| `GraphRevenue.MonthTotalAppend` | actions/get-graph-revenue.ts:28-40 | Month totals of two batches of orders add up month by month. |
| `GraphRevenue.OrderLandsInItsMonth` | actions/get-graph-revenue.ts:28-40 | One more order adds its revenue to the bucket of its creation month and changes none of the other eleven. |
| `GraphRevenue.MonthWithoutOrdersIsZero` | actions/get-graph-revenue.ts:43-61 | A month in which no order was created keeps total 0. |
| `GraphRevenue.NoOrdersGiveZeroGraph` | actions/get-graph-revenue.ts:25-61 | With no orders the chart is the zero table. |
| `GraphRevenue.TotalsNonNegative` | actions/get-graph-revenue.ts:28-61 | With non-negative prices, every monthly total is non-negative. |
| `GraphRevenue.Conservation` | actions/get-graph-revenue.ts:28-61 | The twelve totals add up to the revenue of all the orders. |
| `GraphRevenue.MonthTotalPermutation` | actions/get-graph-revenue.ts:28-40 | A month's total is the same for any reordering of the orders. |
| `GraphRevenue.OrderIndependence` | actions/get-graph-revenue.ts:28-61 | The whole chart is the same for any order in which the orders are processed. |
| `GraphRevenue.OtherOrdersIgnored` | actions/get-graph-revenue.ts:10-22 | An unpaid order, or another store's order, is never fetched wherever it is stored, so it changes no total. |
| `GraphRevenue.MarchOrderExample` | actions/get-graph-revenue.ts:8-65 | One paid March order with items at 10.00 and 15.00 gives March 25.00 and every other month 0. |
| `GraphRevenue.TwoJanuaryOrdersExample` | actions/get-graph-revenue.ts:8-65 | Two paid January orders worth 5.00 and 7.50 give January 12.50. |
| `GraphRevenue.UnpaidOrderExample` | actions/get-graph-revenue.ts:8-65 | A single unpaid order gives the zero table. |
| `GraphRevenue.PaidOrdersKeepsAll` | actions/get-graph-revenue.ts:10-22 | When every stored order is a paid order of the store, the query returns them all, in stored order. |
| `GraphRevenue.EveryMonthPrefix` | actions/get-graph-revenue.ts:28-40 | Over the first `n` of twelve orders, one per month worth `100 * (i + 1)` cents, each month seen holds its own order's revenue, each later month 0, and all of them `50 * n * (n + 1)` cents. |
| `GraphRevenue.EveryMonthExample` | actions/get-graph-revenue.ts:8-65 | With one paid order per month worth 1.00 .. 12.00, month `i` shows `i + 1` whole units and the twelve totals add up to 78.00. |

## Left out

- The database query (`prismadb.order.findMany`) is I/O. Its result is modelled by `PaidOrders` over a sequence of every stored order. A failing fetch, which the routine only propagates, is not modelled, and neither is the `async` suspension.
- `Date.getMonth()` and time zones: an order carries its creation month as a `Month` value.
- `Decimal.toNumber()` and floating-point accumulation: prices and totals are exact integer cents, so rounding drift is not modelled.
- The accumulator's string keys and the `parseInt` round trip are not modelled: the accumulator is a `map<Month, int>`. The update pass visits the keys in any order, which covers the order `for…in` uses.
- `GraphRevenue.GetGraphRevenue`: the chart points are objects whose `total` field is written in place. The model holds the table as a local sequence of values and replaces the point at the written index, so object identity and aliasing are not modelled.
- `(monthlyRevenue[month] || 0)` also turns a stored total of 0 into 0. `Lookup` reads a missing key as 0, which yields the same value.
- Checkout is not part of this model: neither its conversion of prices to cents for the payment provider nor its creation of the unpaid order with one line item per requested product. The model takes the stored orders and line items as given.
- Products, categories, billboards, sizes, colours, image upload, the navbar, layouts, the origin hook and the payment client are not part of this model either. They lie outside the revenue computation.
