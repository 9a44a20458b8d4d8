/** Monthly revenue series of one store's paid orders, as drawn by the
    dashboard's revenue chart: twelve points "Jan" .. "Dec", each carrying the
    summed item prices of the orders created in that calendar month. */
module GraphRevenue {

  /** A calendar month index as a timestamp's month accessor yields it:
      0 is January and 11 is December. */
  type Month = m: int | 0 <= m < 12

  /** Prices are exact amounts in cents. */
  datatype Product = Product(id: string, price: int)

  /** A line item references one product and stands for one unit of it. */
  datatype OrderItem = OrderItem(product: Product)

  /** An order as the store keeps it; `month` is the month of its creation
      timestamp. */
  datatype Order = Order(storeId: string, isPaid: bool, month: Month, orderItems: seq<OrderItem>)

  /** One point of the chart. */
  datatype GraphPoint = GraphPoint(name: string, total: int)

  const MonthNames: seq<string> :=
    ["Jan", "Feb", "Mar", "Apr", "May", "Jun", "Jul", "Aug", "Sep", "Oct", "Nov", "Dec"]

  /** The chart before any revenue is written into it: every month at 0. */
  const InitialGraph: seq<GraphPoint> :=
    seq(12, i requires 0 <= i < 12 => GraphPoint(MonthNames[i], 0))

  // ---------------------------------------------------------------------
  // Specification
  // ---------------------------------------------------------------------

  predicate IsPaidOrderOf(o: Order, storeId: string)
  {
    o.storeId == storeId && o.isPaid
  }

  /** What the order query returns: the stored orders that are paid orders
      of the store, and only those. */
  function PaidOrders(db: seq<Order>, storeId: string): (r: seq<Order>)
    ensures forall o :: o in r <==> o in db && IsPaidOrderOf(o, storeId)
  {
    if db == [] then []
    else
      var rest := PaidOrders(db[..|db| - 1], storeId);
      var o := db[|db| - 1];
      assert db == db[..|db| - 1] + [o];
      if IsPaidOrderOf(o, storeId) then rest + [o] else rest
  }

  /** The query returns each paid order of the store as often as it is
      stored, and no other order at all. */
  lemma {:induction false} PaidOrdersCount(db: seq<Order>, storeId: string, o: Order)
    ensures multiset(PaidOrders(db, storeId))[o] == if IsPaidOrderOf(o, storeId) then multiset(db)[o] else 0
  {
    if db != [] {
      var last := db[|db| - 1];
      assert db == db[..|db| - 1] + [last];
      PaidOrdersCount(db[..|db| - 1], storeId, o);
    }
  }

  /** The revenue of an order: one unit of each line item's product price,
      summed in item order. */
  function OrderRevenue(items: seq<OrderItem>): (r: int)
  {
    if items == [] then 0
    else OrderRevenue(items[..|items| - 1]) + items[|items| - 1].product.price
  }

  /** The revenue of the orders created in month `m`. */
  function MonthTotal(orders: seq<Order>, m: Month): (r: int)
  {
    if orders == [] then 0
    else
      var o := orders[|orders| - 1];
      MonthTotal(orders[..|orders| - 1], m) + (if o.month == m then OrderRevenue(o.orderItems) else 0)
  }

  /** The revenue of all the orders, whatever their month. */
  function TotalRevenue(orders: seq<Order>): (r: int)
  {
    if orders == [] then 0
    else TotalRevenue(orders[..|orders| - 1]) + OrderRevenue(orders[|orders| - 1].orderItems)
  }

  /** The chart the orders should produce. */
  function RevenueGraph(orders: seq<Order>): (r: seq<GraphPoint>)
    ensures |r| == 12 && Names(r) == MonthNames
  {
    var r := seq(12, i requires 0 <= i < 12 => GraphPoint(MonthNames[i], MonthTotal(orders, i)));
    assert Names(r) == MonthNames;
    r
  }

  function Names(g: seq<GraphPoint>): (r: seq<string>)
  {
    seq(|g|, i requires 0 <= i < |g| => g[i].name)
  }

  function SumTotals(g: seq<GraphPoint>): (r: int)
  {
    if g == [] then 0 else SumTotals(g[..|g| - 1]) + g[|g| - 1].total
  }

  /** The accumulator read with a default of 0 for a month that has no entry. */
  function Lookup(acc: map<Month, int>, m: Month): (r: int)
  {
    if m in acc then acc[m] else 0
  }

  // ---------------------------------------------------------------------
  // The computation
  // ---------------------------------------------------------------------

  /** The revenue chart of store `storeId`, where `db` holds every stored
      order. Orders are summed into a month-keyed accumulator, then the
      accumulated months overwrite the totals of a zeroed 12-point table. */
  method GetGraphRevenue(db: seq<Order>, storeId: string) returns (graph: seq<GraphPoint>)
    ensures graph == RevenueGraph(PaidOrders(db, storeId))
  {
    var paidOrders := PaidOrders(db, storeId);

    var monthlyRevenue: map<Month, int> := map[];
    for k := 0 to |paidOrders|
      invariant forall m: Month :: Lookup(monthlyRevenue, m) == MonthTotal(paidOrders[..k], m)
    {
      var order := paidOrders[k];
      var month := order.month;
      var revenueForOrder := 0;
      for j := 0 to |order.orderItems|
        invariant revenueForOrder == OrderRevenue(order.orderItems[..j])
      {
        assert order.orderItems[..j + 1][..j] == order.orderItems[..j];
        revenueForOrder := revenueForOrder + order.orderItems[j].product.price;
      }
      assert order.orderItems[..|order.orderItems|] == order.orderItems;
      assert paidOrders[..k + 1][..k] == paidOrders[..k];
      monthlyRevenue := monthlyRevenue[month := Lookup(monthlyRevenue, month) + revenueForOrder];
    }
    assert paidOrders[..|paidOrders|] == paidOrders;

    var graphData := InitialGraph;
    var pending := monthlyRevenue.Keys;
    while pending != {}
      invariant pending <= monthlyRevenue.Keys && |graphData| == 12
      invariant forall i: Month ::
        graphData[i] == GraphPoint(MonthNames[i], if i in monthlyRevenue && i !in pending then monthlyRevenue[i] else 0)
      decreases pending
    {
      var month :| month in pending;
      graphData := graphData[month := graphData[month].(total := monthlyRevenue[month])];
      pending := pending - {month};
    }
    graph := graphData;
  }

  // ---------------------------------------------------------------------
  // Order revenue
  // ---------------------------------------------------------------------

  /** Every line item is counted once: the revenue of two item lists put
      together is the sum of their revenues. */
  lemma {:induction false} OrderRevenueAppend(a: seq<OrderItem>, b: seq<OrderItem>)
    ensures OrderRevenue(a + b) == OrderRevenue(a) + OrderRevenue(b)
    decreases |b|
  {
    if b == [] {
      assert a + b == a;
    } else {
      var b' := b[..|b| - 1];
      assert (a + b)[..|a + b| - 1] == a + b';
      OrderRevenueAppend(a, b');
    }
  }

  /** A product ordered in `n` line items is paid `n` times over. */
  lemma {:induction false} OrderRevenueRepeatedItem(item: OrderItem, n: nat)
    ensures OrderRevenue(seq(n, _ => item)) == n * item.product.price
  {
    if n > 0 {
      assert seq(n, _ => item)[..n - 1] == seq(n - 1, _ => item);
      OrderRevenueRepeatedItem(item, n - 1);
    }
  }

  /** No price is negative, so no order revenue is. */
  lemma {:induction false} OrderRevenueNonNegative(items: seq<OrderItem>)
    requires forall i :: 0 <= i < |items| ==> items[i].product.price >= 0
    ensures OrderRevenue(items) >= 0
  {
    if items != [] {
      OrderRevenueNonNegative(items[..|items| - 1]);
    }
  }

  // ---------------------------------------------------------------------
  // Month buckets
  // ---------------------------------------------------------------------

  /** Totals of two batches of orders add up month by month. */
  lemma {:induction false} MonthTotalAppend(a: seq<Order>, b: seq<Order>, m: Month)
    ensures MonthTotal(a + b, m) == MonthTotal(a, m) + MonthTotal(b, m)
    decreases |b|
  {
    if b == [] {
      assert a + b == a;
    } else {
      var b' := b[..|b| - 1];
      assert (a + b)[..|a + b| - 1] == a + b';
      MonthTotalAppend(a, b', m);
    }
  }

  /** One more order adds its revenue to the bucket of its own month and
      leaves the other eleven buckets as they were. */
  lemma OrderLandsInItsMonth(orders: seq<Order>, o: Order, i: Month)
    ensures RevenueGraph(orders + [o])[i].total ==
            RevenueGraph(orders)[i].total + (if i == o.month then OrderRevenue(o.orderItems) else 0)
  {
  }

  /** A month in which no order was created keeps a total of 0. */
  lemma {:induction false} MonthWithoutOrdersIsZero(orders: seq<Order>, m: Month)
    requires forall j :: 0 <= j < |orders| ==> orders[j].month != m
    ensures RevenueGraph(orders)[m].total == 0
  {
    if orders != [] {
      MonthWithoutOrdersIsZero(orders[..|orders| - 1], m);
    }
  }

  /** With no orders the chart is the zeroed table. */
  lemma NoOrdersGiveZeroGraph()
    ensures RevenueGraph([]) == InitialGraph
  {
  }

  /** With non-negative prices every total is non-negative. */
  lemma {:induction false} TotalsNonNegative(orders: seq<Order>, m: Month)
    requires forall j, i :: 0 <= j < |orders| && 0 <= i < |orders[j].orderItems| ==>
               orders[j].orderItems[i].product.price >= 0
    ensures RevenueGraph(orders)[m].total >= 0
  {
    if orders != [] {
      var o := orders[|orders| - 1];
      OrderRevenueNonNegative(o.orderItems);
      TotalsNonNegative(orders[..|orders| - 1], m);
    }
  }

  // ---------------------------------------------------------------------
  // Conservation
  // ---------------------------------------------------------------------

  /** Adding `d` to one point's total adds `d` to the sum of all totals. */
  lemma {:induction false} SumTotalsAdd(g: seq<GraphPoint>, k: nat, d: int)
    requires k < |g|
    ensures SumTotals(g[k := g[k].(total := g[k].total + d)]) == SumTotals(g) + d
    decreases |g|
  {
    var g' := g[k := g[k].(total := g[k].total + d)];
    var n := |g| - 1;
    assert g'[..n] == if k == n then g[..n] else g[..n][k := g[k].(total := g[k].total + d)];
    if k < n {
      SumTotalsAdd(g[..n], k, d);
    }
  }

  lemma {:induction false} SumTotalsOfZeros(g: seq<GraphPoint>)
    requires forall i :: 0 <= i < |g| ==> g[i].total == 0
    ensures SumTotals(g) == 0
  {
    if g != [] {
      SumTotalsOfZeros(g[..|g| - 1]);
    }
  }

  /** The twelve totals add up to the revenue of all the orders: no revenue
      is lost and none is counted twice. */
  lemma {:induction false} Conservation(orders: seq<Order>)
    ensures SumTotals(RevenueGraph(orders)) == TotalRevenue(orders)
  {
    if orders == [] {
      SumTotalsOfZeros(RevenueGraph(orders));
    } else {
      var rest := orders[..|orders| - 1];
      var o := orders[|orders| - 1];
      var before := RevenueGraph(rest);
      var d := OrderRevenue(o.orderItems);
      assert rest + [o] == orders;
      forall i: Month
        ensures RevenueGraph(orders)[i] == before[o.month := before[o.month].(total := before[o.month].total + d)][i]
      {
        OrderLandsInItsMonth(rest, o, i);
      }
      assert RevenueGraph(orders) == before[o.month := before[o.month].(total := before[o.month].total + d)];
      SumTotalsAdd(before, o.month, d);
      Conservation(rest);
    }
  }

  // ---------------------------------------------------------------------
  // Independence of processing order
  // ---------------------------------------------------------------------

  /** A month's total depends only on which orders there are, not on the
      order in which they are summed. */
  lemma {:induction false} MonthTotalPermutation(a: seq<Order>, b: seq<Order>, m: Month)
    requires multiset(a) == multiset(b)
    ensures MonthTotal(a, m) == MonthTotal(b, m)
    decreases |b|
  {
    if b == [] {
      assert |a| == |multiset(a)| == 0;
    } else {
      var b' := b[..|b| - 1];
      var x := b[|b| - 1];
      assert b == b' + [x];
      assert x in multiset(a);
      var k :| 0 <= k < |a| && a[k] == x;
      var a' := a[..k] + a[k + 1..];
      assert a == a[..k] + [x] + a[k + 1..];
      assert multiset(a) == multiset(a') + multiset{x};
      assert multiset(a') == multiset(a) - multiset{x};
      assert multiset(b') == multiset(b) - multiset{x};
      MonthTotalPermutation(a', b', m);
      MonthTotalAppend(a[..k] + [x], a[k + 1..], m);
      MonthTotalAppend(a[..k], [x], m);
      MonthTotalAppend(a[..k], a[k + 1..], m);
      MonthTotalAppend(b', [x], m);
    }
  }

  /** The chart is the same whatever order the query returns the orders in. */
  lemma OrderIndependence(a: seq<Order>, b: seq<Order>)
    requires multiset(a) == multiset(b)
    ensures RevenueGraph(a) == RevenueGraph(b)
  {
    forall i: Month ensures RevenueGraph(a)[i] == RevenueGraph(b)[i] {
      MonthTotalPermutation(a, b, i);
    }
  }

  // ---------------------------------------------------------------------
  // Only paid orders of the store count
  // ---------------------------------------------------------------------

  /** Fetching from two batches of stored orders fetches from each in turn. */
  lemma {:induction false} PaidOrdersAppend(a: seq<Order>, b: seq<Order>, storeId: string)
    ensures PaidOrders(a + b, storeId) == PaidOrders(a, storeId) + PaidOrders(b, storeId)
    decreases |b|
  {
    if b == [] {
      assert a + b == a;
    } else {
      var b' := b[..|b| - 1];
      assert (a + b)[..|a + b| - 1] == a + b';
      PaidOrdersAppend(a, b', storeId);
    }
  }

  /** An unpaid order, or an order of another store, is never fetched, so it
      changes no total, wherever it is stored. */
  lemma OtherOrdersIgnored(before: seq<Order>, o: Order, after: seq<Order>, storeId: string)
    requires !IsPaidOrderOf(o, storeId)
    ensures PaidOrders(before + [o] + after, storeId) == PaidOrders(before + after, storeId)
    ensures RevenueGraph(PaidOrders(before + [o] + after, storeId)) ==
            RevenueGraph(PaidOrders(before + after, storeId))
  {
    PaidOrdersAppend(before + [o], after, storeId);
    PaidOrdersAppend(before, [o], storeId);
    PaidOrdersAppend(before, after, storeId);
    assert [o][..0] == [];
  }

  // ---------------------------------------------------------------------
  // Worked examples
  // ---------------------------------------------------------------------

  /** One paid March order with items at 10.00 and 15.00: March shows 25.00
      and every other month 0. */
  lemma MarchOrderExample(storeId: string, i: Month)
    ensures var march := Order(storeId, true, 2, [OrderItem(Product("p1", 1000)), OrderItem(Product("p2", 1500))]);
            RevenueGraph(PaidOrders([march], storeId))[i].total == if i == 2 then 2500 else 0
  {
    var items := [OrderItem(Product("p1", 1000)), OrderItem(Product("p2", 1500))];
    var march := Order(storeId, true, 2, items);
    assert [march][..0] == [];
    assert PaidOrders([march], storeId) == [] + [march];
    assert items[..1][..0] == [];
    NoOrdersGiveZeroGraph();
    OrderLandsInItsMonth([], march, i);
  }

  /** Two paid January orders worth 5.00 and 7.50 make January 12.50. */
  lemma TwoJanuaryOrdersExample(storeId: string)
    ensures var first := Order(storeId, true, 0, [OrderItem(Product("p1", 500))]);
            var second := Order(storeId, true, 0, [OrderItem(Product("p2", 750))]);
            RevenueGraph(PaidOrders([first, second], storeId))[0].total == 1250
  {
    var first := Order(storeId, true, 0, [OrderItem(Product("p1", 500))]);
    var second := Order(storeId, true, 0, [OrderItem(Product("p2", 750))]);
    assert [first][..0] == [] && [second][..0] == [];
    assert [first, second] == [first] + [second];
    PaidOrdersAppend([first], [second], storeId);
    assert PaidOrders([first, second], storeId) == [] + [first] + [second];
    assert [OrderItem(Product("p1", 500))][..0] == [];
    assert [OrderItem(Product("p2", 750))][..0] == [];
    NoOrdersGiveZeroGraph();
    OrderLandsInItsMonth([], first, 0);
    OrderLandsInItsMonth([first], second, 0);
  }

  /** An unpaid order worth 100.00 leaves the chart at zero. */
  lemma UnpaidOrderExample(storeId: string)
    ensures var unpaid := Order(storeId, false, 5, [OrderItem(Product("p1", 10000))]);
            RevenueGraph(PaidOrders([unpaid], storeId)) == InitialGraph
  {
  }

  /** One paid order in every month, month `i` holding one product priced
      `100 * (i + 1)` cents. */
  function EveryMonthOrders(storeId: string): (r: seq<Order>)
    ensures |r| == 12
    ensures forall i :: 0 <= i < 12 ==> r[i].month == i && IsPaidOrderOf(r[i], storeId)
  {
    seq(12, i requires 0 <= i < 12 => Order(storeId, true, i, [OrderItem(Product("p", 100 * (i + 1)))]))
  }

  /** Fetching never drops a stored order that is a paid order of the store. */
  lemma {:induction false} PaidOrdersKeepsAll(db: seq<Order>, storeId: string)
    requires forall j :: 0 <= j < |db| ==> IsPaidOrderOf(db[j], storeId)
    ensures PaidOrders(db, storeId) == db
  {
    if db != [] {
      PaidOrdersKeepsAll(db[..|db| - 1], storeId);
      assert db == db[..|db| - 1] + [db[|db| - 1]];
    }
  }

  /** The first `n` months of `EveryMonthOrders`: each month seen so far holds
      its own order's revenue, the later ones 0, and together they hold
      `50 * n * (n + 1)` cents. */
  lemma {:induction false} EveryMonthPrefix(storeId: string, n: nat, m: Month)
    requires n <= 12
    ensures MonthTotal(EveryMonthOrders(storeId)[..n], m) == if m < n then 100 * (m + 1) else 0
    ensures TotalRevenue(EveryMonthOrders(storeId)[..n]) == 50 * n * (n + 1)
  {
    if n > 0 {
      var orders := EveryMonthOrders(storeId);
      var o := orders[n - 1];
      assert orders[..n][..n - 1] == orders[..n - 1];
      assert o.orderItems[..0] == [];
      assert OrderRevenue(o.orderItems) == 100 * n;
      EveryMonthPrefix(storeId, n - 1, m);
    }
  }

  /** Orders in every month worth 1.00, 2.00, .., 12.00: month `i` shows
      `i + 1` whole units and the year adds up to 78.00. */
  lemma EveryMonthExample(storeId: string, i: Month)
    ensures RevenueGraph(PaidOrders(EveryMonthOrders(storeId), storeId))[i].total == 100 * (i + 1)
    ensures SumTotals(RevenueGraph(PaidOrders(EveryMonthOrders(storeId), storeId))) == 7800
  {
    var orders := EveryMonthOrders(storeId);
    PaidOrdersKeepsAll(orders, storeId);
    assert orders[..12] == orders;
    EveryMonthPrefix(storeId, 12, i);
    Conservation(orders);
  }
}
