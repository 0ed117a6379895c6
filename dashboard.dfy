/** The dashboard tiles: stock buckets and totals over the product list, and order
    counts and revenue for today and for the current month. */
module Dashboard {
  import opened Common
  import opened Catalog

  // ------------------------------------------------------------------ stock

  datatype StockStats = StockStats(
    totalProducts: int,
    inStock: int,
    outStock: int,
    lowStock: int,
    totalQty: int,
    totalValue: real)

  /** `Number(p.stock || 0)`. */
  function Qty(p: Product): int {
    StockCount(p.stock)
  }

  /** `qty === 0`. */
  predicate IsOut(p: Product) {
    Qty(p) == 0
  }

  /** Every non-zero stock, negative ones included, counts as in stock. */
  predicate IsIn(p: Product) {
    Qty(p) != 0
  }

  /** In stock and below 5. */
  predicate IsLow(p: Product) {
    Qty(p) != 0 && Qty(p) < 5
  }

  /** The sum of the stock of `ps`. */
  function SumQty(ps: seq<Product>): int
    decreases |ps|
  {
    if ps == [] then 0 else SumQty(ps[..|ps| - 1]) + Qty(ps[|ps| - 1])
  }

  /** `qty * price`, a missing price counting as 0. */
  function Value(p: Product): real {
    Qty(p) as real * PriceOrZero(p.price)
  }

  /** The sum of stock times price over `ps`. */
  function SumValue(ps: seq<Product>): real
    decreases |ps|
  {
    if ps == [] then 0.0
    else SumValue(ps[..|ps| - 1]) + Value(ps[|ps| - 1])
  }

  /** Every product is either in or out of stock, and the low ones are among the in. */
  lemma {:induction false} StockBuckets(ps: seq<Product>)
    ensures |Filter(ps, IsIn)| + |Filter(ps, IsOut)| == |ps|
    ensures |Filter(ps, IsLow)| <= |Filter(ps, IsIn)|
  {
    if ps != [] {
      StockBuckets(ps[1..]);
    }
  }

  /** What one more product adds to each bucket and total. */
  lemma StockStep(ps: seq<Product>, p: Product)
    ensures |Filter(ps + [p], IsIn)| == |Filter(ps, IsIn)| + (if IsIn(p) then 1 else 0)
    ensures |Filter(ps + [p], IsOut)| == |Filter(ps, IsOut)| + (if IsOut(p) then 1 else 0)
    ensures |Filter(ps + [p], IsLow)| == |Filter(ps, IsLow)| + (if IsLow(p) then 1 else 0)
    ensures SumQty(ps + [p]) == SumQty(ps) + Qty(p)
    ensures SumValue(ps + [p]) == SumValue(ps) + Value(p)
  {
    FilterAppend(ps, [p], IsIn);
    FilterAppend(ps, [p], IsOut);
    FilterAppend(ps, [p], IsLow);
    assert (ps + [p])[..|ps|] == ps;
  }

  /** `StockStep`'s counts for the product after the first `i`. */
  lemma StockPrefixStep(ps: seq<Product>, i: nat)
    requires i < |ps|
    ensures |Filter(ps[..i + 1], IsIn)| == |Filter(ps[..i], IsIn)| + (if IsIn(ps[i]) then 1 else 0)
    ensures |Filter(ps[..i + 1], IsOut)| == |Filter(ps[..i], IsOut)| + (if IsOut(ps[i]) then 1 else 0)
    ensures |Filter(ps[..i + 1], IsLow)| == |Filter(ps[..i], IsLow)| + (if IsLow(ps[i]) then 1 else 0)
    ensures SumQty(ps[..i + 1]) == SumQty(ps[..i]) + Qty(ps[i])
  {
    assert ps[..i + 1] == ps[..i] + [ps[i]];
    StockStep(ps[..i], ps[i]);
  }

  /** `totalValue += qty * price` for the product after the first `i`. */
  method AddValue(total: real, ps: seq<Product>, i: nat) returns (t: real)
    requires i < |ps| && total == SumValue(ps[..i])
    ensures t == SumValue(ps[..i + 1])
  {
    assert ps[..i + 1] == ps[..i] + [ps[i]];
    StockStep(ps[..i], ps[i]);
    t := total + Qty(ps[i]) as real * PriceOrZero(ps[i].price);
  }

  /** The `stockStats` loop. */
  method ComputeStockStats(products: seq<Product>) returns (s: StockStats)
    ensures s.totalProducts == |products|
    ensures s.inStock == |Filter(products, IsIn)|
    ensures s.outStock == |Filter(products, IsOut)|
    ensures s.lowStock == |Filter(products, IsLow)|
    ensures s.totalQty == SumQty(products)
    ensures s.totalValue == SumValue(products)
    ensures s.inStock + s.outStock == s.totalProducts
    ensures s.lowStock <= s.inStock
  {
    var inStock, outStock, lowStock, totalQty, totalValue := 0, 0, 0, 0, 0.0;
    var i := 0;
    while i < |products|
      invariant 0 <= i <= |products|
      invariant inStock == |Filter(products[..i], IsIn)|
      invariant outStock == |Filter(products[..i], IsOut)|
      invariant lowStock == |Filter(products[..i], IsLow)|
      invariant totalQty == SumQty(products[..i])
      invariant totalValue == SumValue(products[..i])
    {
      var p := products[i];
      var qty := Qty(p);
      StockPrefixStep(products, i);
      totalQty := totalQty + qty;
      totalValue := AddValue(totalValue, products, i);
      if qty == 0 {
        outStock := outStock + 1;
      } else {
        inStock := inStock + 1;
        if qty < 5 {
          lowStock := lowStock + 1;
        }
      }
      i := i + 1;
    }
    assert products[..i] == products;
    assert inStock == |Filter(products, IsIn)| && outStock == |Filter(products, IsOut)|;
    assert lowStock == |Filter(products, IsLow)|;
    assert totalQty == SumQty(products) && totalValue == SumValue(products);
    StockBuckets(products);
    s := StockStats(|products|, inStock, outStock, lowStock, totalQty, totalValue);
  }

  // ----------------------------------------------------------------- orders

  datatype OrderStats = OrderStats(
    totalOrders: int,
    todayOrders: int,
    todayRevenue: real,
    monthOrders: int,
    monthRevenue: real)

  /** Same day, month and year as `today`; an unparsable date matches nothing. */
  predicate IsToday(o: Order, today: Date) {
    o.createdAt.Some? && o.createdAt.value.day == today.day
    && o.createdAt.value.month == today.month && o.createdAt.value.year == today.year
  }

  /** Same month and year as `today`. */
  predicate InMonth(o: Order, today: Date) {
    o.createdAt.Some? && o.createdAt.value.month == today.month && o.createdAt.value.year == today.year
  }

  /** `Number(o.total || 0)`. */
  function Amount(o: Order): real {
    PriceOrZero(o.total)
  }

  function TodayCount(os: seq<Order>, today: Date): int
    decreases |os|
  {
    if os == [] then 0
    else TodayCount(os[..|os| - 1], today) + (if IsToday(os[|os| - 1], today) then 1 else 0)
  }

  function TodayRevenue(os: seq<Order>, today: Date): real
    decreases |os|
  {
    if os == [] then 0.0
    else TodayRevenue(os[..|os| - 1], today) + (if IsToday(os[|os| - 1], today) then Amount(os[|os| - 1]) else 0.0)
  }

  function MonthCount(os: seq<Order>, today: Date): int
    decreases |os|
  {
    if os == [] then 0
    else MonthCount(os[..|os| - 1], today) + (if InMonth(os[|os| - 1], today) then 1 else 0)
  }

  function MonthRevenue(os: seq<Order>, today: Date): real
    decreases |os|
  {
    if os == [] then 0.0
    else MonthRevenue(os[..|os| - 1], today) + (if InMonth(os[|os| - 1], today) then Amount(os[|os| - 1]) else 0.0)
  }

  /** Every order of today is an order of this month, and neither count exceeds the
      number of orders. */
  lemma {:induction false} TodayWithinMonth(os: seq<Order>, today: Date)
    ensures 0 <= TodayCount(os, today) <= MonthCount(os, today) <= |os|
    decreases |os|
  {
    if os != [] {
      TodayWithinMonth(os[..|os| - 1], today);
    }
  }

  /** The buckets of two order lists add up. */
  lemma {:induction false} BucketsAppend(a: seq<Order>, b: seq<Order>, today: Date)
    ensures TodayCount(a + b, today) == TodayCount(a, today) + TodayCount(b, today)
    ensures TodayRevenue(a + b, today) == TodayRevenue(a, today) + TodayRevenue(b, today)
    ensures MonthCount(a + b, today) == MonthCount(a, today) + MonthCount(b, today)
    ensures MonthRevenue(a + b, today) == MonthRevenue(a, today) + MonthRevenue(b, today)
    decreases |b|
  {
    if b == [] {
      assert a + b == a;
    } else {
      var b' := b[..|b| - 1];
      BucketsAppend(a, b', today);
      assert (a + b)[..|a + b| - 1] == a + b';
    }
  }

  /** An order whose date does not parse adds to neither bucket, wherever it stands
      in the list, although it still counts among all orders. */
  lemma UnparsableOrder(a: seq<Order>, o: Order, b: seq<Order>, today: Date)
    requires o.createdAt.None?
    ensures TodayCount(a + [o] + b, today) == TodayCount(a + b, today)
    ensures TodayRevenue(a + [o] + b, today) == TodayRevenue(a + b, today)
    ensures MonthCount(a + [o] + b, today) == MonthCount(a + b, today)
    ensures MonthRevenue(a + [o] + b, today) == MonthRevenue(a + b, today)
    ensures |a + [o] + b| == |a + b| + 1
  {
    BucketsAppend(a + [o], b, today);
    BucketsAppend(a, [o], today);
    BucketsAppend(a, b, today);
    assert [o][..0] == [];
  }

  /** The `orderStats` loop. */
  method ComputeOrderStats(orders: seq<Order>, today: Date) returns (s: OrderStats)
    ensures s.totalOrders == |orders|
    ensures s.todayOrders == TodayCount(orders, today)
    ensures s.todayRevenue == TodayRevenue(orders, today)
    ensures s.monthOrders == MonthCount(orders, today)
    ensures s.monthRevenue == MonthRevenue(orders, today)
    ensures 0 <= s.todayOrders <= s.monthOrders <= s.totalOrders
  {
    var todayOrders, todayRevenue, monthOrders, monthRevenue := 0, 0.0, 0, 0.0;
    var i := 0;
    while i < |orders|
      invariant 0 <= i <= |orders|
      invariant todayOrders == TodayCount(orders[..i], today)
      invariant todayRevenue == TodayRevenue(orders[..i], today)
      invariant monthOrders == MonthCount(orders[..i], today)
      invariant monthRevenue == MonthRevenue(orders[..i], today)
    {
      var o := orders[i];
      var amount := Amount(o);
      assert orders[..i + 1][..i] == orders[..i];
      if o.createdAt.Some? && o.createdAt.value.day == today.day
         && o.createdAt.value.month == today.month && o.createdAt.value.year == today.year {
        todayOrders := todayOrders + 1;
        todayRevenue := todayRevenue + amount;
      }
      if o.createdAt.Some? && o.createdAt.value.month == today.month && o.createdAt.value.year == today.year {
        monthOrders := monthOrders + 1;
        monthRevenue := monthRevenue + amount;
      }
      i := i + 1;
    }
    assert orders[..i] == orders;
    TodayWithinMonth(orders, today);
    s := OrderStats(|orders|, todayOrders, todayRevenue, monthOrders, monthRevenue);
  }

  /** `orders.slice(0, 5)`: the first five orders, or all of them when there are fewer. */
  function RecentOrders(orders: seq<Order>): (r: seq<Order>)
    ensures |r| == if |orders| < 5 then |orders| else 5
    ensures forall i :: 0 <= i < |r| ==> r[i] == orders[i]
  {
    if |orders| < 5 then orders else orders[..5]
  }
}
