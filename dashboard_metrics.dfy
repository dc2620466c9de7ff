/** The dashboard metrics hook: the orders in the picked range give the order
    count, revenue and profit, and monthly buckets for the charts; the orders
    of the calendar month before the range's start give the trends. The
    calendar is a parameter: `monthOf` numbers the local month holding an
    instant, `monthStart` gives the instant a month starts (local midnight of
    its first day), and `monthLabel` is `format(date, "MMM yyyy")`. */
module DashboardMetrics {
  import opened Base
  import opened Ledger
  import opened ProductsAndOrders

  datatype Calendar = Calendar(monthOf: int -> int, monthStart: int -> int, monthLabel: int -> string)

  /** The calendar is consistent: months follow each other, each at least
      28 days long, and `monthOf` names the month an instant falls in. */
  ghost predicate CalendarOk(c: Calendar)
  {
    (forall m :: c.monthStart(m) + 28 * DAY_MS <= c.monthStart(m + 1)) &&
    (forall t :: c.monthStart(c.monthOf(t)) <= t < c.monthStart(c.monthOf(t) + 1))
  }

  /** `t` lies in month `m`. */
  predicate InMonth(c: Calendar, t: int, m: int)
  {
    c.monthStart(m) <= t < c.monthStart(m + 1)
  }

  // ---------------------------------------------------------------------
  // the range queries

  /** `where("createdAt", ">=", lo), where("createdAt", "<=", hi)`: only
      stored timestamps can satisfy a range condition. */
  predicate InRange(o: Order, lo: int, hi: int)
  {
    QueryMillis(o.createdAt).Some? && lo <= QueryMillis(o.createdAt).value <= hi
  }

  function RangeTest(lo: int, hi: int): Order -> bool
  {
    (o: Order) => InRange(o, lo, hi)
  }

  function Query(orders: seq<Order>, lo: int, hi: int): (r: seq<Order>)
    ensures Subsequence(r, orders)
    ensures forall o :: o in r <==> o in orders && InRange(o, lo, hi)
  {
    FilterIsSubsequence(orders, RangeTest(lo, hi));
    Filter(orders, RangeTest(lo, hi))
  }

  // ---------------------------------------------------------------------
  // revenue and profit

  function Total(): Order -> int
  {
    (o: Order) => o.total
  }

  /** `(discountedPrice || 0) * quantity - (costPrice || 0) * quantity`. */
  function LineProfit(): Item -> int
  {
    (it: Item) => it.discountedPrice * it.quantity - it.costPrice * it.quantity
  }

  function OrderProfit(o: Order): int
  {
    Sum(ItemsOf(o), LineProfit())
  }

  function Profit(): Order -> int
  {
    (o: Order) => OrderProfit(o)
  }

  /** The month label of an order: `format(new Date(createdAt.seconds * 1000), "MMM yyyy")`;
      `None` when the stamp has no `seconds`, where formatting throws. */
  function MonthLabel(o: Order, c: Calendar): Option<string>
  {
    match o.createdAt
    case FirestoreTimestamp(sec, _) => Some(c.monthLabel(c.monthOf(sec * MS_PER_SECOND)))
    case SecondsOnly(sec) => Some(c.monthLabel(c.monthOf(sec * MS_PER_SECOND)))
    case _ => None
  }

  /** The loop over the current orders runs to its end: every order has an
      items array and a stamp with seconds. */
  predicate Processable(orders: seq<Order>, c: Calendar)
  {
    forall k :: 0 <= k < |orders| ==> orders[k].items.Some? && MonthLabel(orders[k], c).Some?
  }

  // ---------------------------------------------------------------------
  // monthly buckets

  datatype Bucket = Bucket(sales: int, profit: int, orders: nat)

  /** `monthlySales` with `keys`, its insertion order. */
  datatype Months = Months(keys: seq<string>, buckets: map<string, Bucket>)

  ghost predicate MonthsOk(t: Months)
  {
    (forall i, j :: 0 <= i < j < |t.keys| ==> t.keys[i] != t.keys[j]) &&
    (forall m :: m in t.buckets <==> m in t.keys)
  }

  /** One order into its month's bucket, the bucket made on first sight. */
  function AddToMonth(t: Months, month: string, total: int, profit: int): Months
  {
    var t1 := if month in t.buckets then t else Months(t.keys + [month], t.buckets[month := Bucket(0, 0, 0)]);
    var b := t1.buckets[month];
    t1.(buckets := t1.buckets[month := Bucket(b.sales + total, b.profit + profit, b.orders + 1)])
  }

  function Bucketed(orders: seq<Order>, c: Calendar): Months
    requires Processable(orders, c)
    decreases |orders|
  {
    if |orders| == 0 then Months([], map[])
    else
      var init := orders[..|orders| - 1];
      var o := orders[|orders| - 1];
      assert Processable(init, c) by {
        assert forall k :: 0 <= k < |init| ==> init[k] == orders[k];
      }
      AddToMonth(Bucketed(init, c), MonthLabel(o, c).value, o.total, OrderProfit(o))
  }

  /** One more processable order extends the buckets by that order. */
  lemma BucketedStep(orders: seq<Order>, k: nat, c: Calendar)
    requires k < |orders| && Processable(orders[..k], c)
    requires orders[k].items.Some? && MonthLabel(orders[k], c).Some?
    ensures Processable(orders[..k + 1], c)
    ensures Bucketed(orders[..k + 1], c) ==
      AddToMonth(Bucketed(orders[..k], c), MonthLabel(orders[k], c).value, orders[k].total, OrderProfit(orders[k]))
  {
    assert orders[..k + 1][..k] == orders[..k];
  }

  /** The profit of one order's items, the inner loop. */
  method ItemsProfit(items: seq<Item>) returns (orderProfit: int)
    ensures orderProfit == Sum(items, LineProfit())
  {
    orderProfit := 0;
    for j := 0 to |items|
      invariant orderProfit == Sum(items[..j], LineProfit())
    {
      assert items[..j + 1][..j] == items[..j];
      var sale := items[j].discountedPrice * items[j].quantity;
      var cost := items[j].costPrice * items[j].quantity;
      orderProfit := orderProfit + (sale - cost);
    }
    assert items[..|items|] == items;
  }

  /** The bucket update of one order, on the two variables it changes. */
  method Counted(keys: seq<string>, buckets: map<string, Bucket>, month: string, total: int, profit: int)
    returns (keys': seq<string>, buckets': map<string, Bucket>)
    ensures Months(keys', buckets') == AddToMonth(Months(keys, buckets), month, total, profit)
  {
    keys', buckets' := keys, buckets;
    if month !in buckets' {
      keys' := keys' + [month];
      buckets' := buckets'[month := Bucket(0, 0, 0)];
    }
    var b := buckets'[month];
    buckets' := buckets'[month := Bucket(b.sales + total, b.profit + profit, b.orders + 1)];
  }

  /** The loop over the current orders. `ok` is false when it throws. */
  method Accumulate(orders: seq<Order>, c: Calendar)
    returns (ok: bool, revenue: int, profit: int, keys: seq<string>, buckets: map<string, Bucket>)
    ensures ok <==> Processable(orders, c)
    ensures ok ==> revenue == Sum(orders, Total()) && profit == Sum(orders, Profit()) &&
                   Months(keys, buckets) == Bucketed(orders, c)
  {
    revenue, profit := 0, 0;
    keys, buckets := [], map[];
    for k := 0 to |orders|
      invariant Processable(orders[..k], c)
      invariant revenue == Sum(orders[..k], Total()) && profit == Sum(orders[..k], Profit())
      invariant Months(keys, buckets) == Bucketed(orders[..k], c)
    {
      var order := orders[k];
      assert orders[..k + 1][..k] == orders[..k];
      revenue := revenue + order.total;
      if order.items.None? {
        assert orders[k].items.None?;
        return false, revenue, profit, keys, buckets;
      }
      var orderProfit := ItemsProfit(order.items.value);
      profit := profit + orderProfit;
      var monthName := MonthLabel(order, c);
      if monthName.None? {
        assert MonthLabel(orders[k], c).None?;
        return false, revenue, profit, keys, buckets;
      }
      keys, buckets := Counted(keys, buckets, monthName.value, order.total, orderProfit);
      BucketedStep(orders, k, c);
    }
    assert orders[..|orders|] == orders;
    ok := true;
  }

  /** The loop over the previous month's orders. */
  method PreviousTotals(orders: seq<Order>) returns (ok: bool, prevRevenue: int, prevProfit: int)
    ensures ok <==> forall k :: 0 <= k < |orders| ==> orders[k].items.Some?
    ensures ok ==> prevRevenue == Sum(orders, Total()) && prevProfit == Sum(orders, Profit())
  {
    prevRevenue, prevProfit := 0, 0;
    for k := 0 to |orders|
      invariant forall i :: 0 <= i < k ==> orders[i].items.Some?
      invariant prevRevenue == Sum(orders[..k], Total()) && prevProfit == Sum(orders[..k], Profit())
    {
      var order := orders[k];
      assert orders[..k + 1][..k] == orders[..k];
      prevRevenue := prevRevenue + order.total;
      if order.items.None? {
        return false, prevRevenue, prevProfit;
      }
      var items := order.items.value;
      ghost var base := prevProfit;
      for j := 0 to |items|
        invariant prevProfit == base + Sum(items[..j], LineProfit())
      {
        assert items[..j + 1][..j] == items[..j];
        var sale := items[j].discountedPrice * items[j].quantity;
        var cost := items[j].costPrice * items[j].quantity;
        prevProfit := prevProfit + (sale - cost);
      }
      assert items[..|items|] == items;
    }
    assert orders[..|orders|] == orders;
    return true, prevRevenue, prevProfit;
  }

  // ---------------------------------------------------------------------
  // what the buckets hold

  function SalesIf(month: string, c: Calendar): Order -> int
  {
    (o: Order) => if MonthLabel(o, c) == Some(month) then o.total else 0
  }

  function ProfitIf(month: string, c: Calendar): Order -> int
  {
    (o: Order) => if MonthLabel(o, c) == Some(month) then OrderProfit(o) else 0
  }

  function CountIf(month: string, c: Calendar): Order -> int
  {
    (o: Order) => if MonthLabel(o, c) == Some(month) then 1 else 0
  }

  /** A month has a bucket exactly when some order falls in it. */
  lemma {:induction false} BucketMembership(orders: seq<Order>, c: Calendar, month: string)
    requires Processable(orders, c)
    ensures month in Bucketed(orders, c).buckets <==>
      exists k :: 0 <= k < |orders| && MonthLabel(orders[k], c) == Some(month)
    decreases |orders|
  {
    if |orders| > 0 {
      var init := orders[..|orders| - 1];
      assert forall k :: 0 <= k < |init| ==> init[k] == orders[k];
      BucketMembership(init, c, month);
    }
  }

  /** A month's bucket holds that month's sales, profit and order count, and
      a month without a bucket has none. */
  lemma {:induction false} BucketContents(orders: seq<Order>, c: Calendar, month: string)
    requires Processable(orders, c)
    ensures var t := Bucketed(orders, c);
      (month in t.buckets ==> t.buckets[month].sales == Sum(orders, SalesIf(month, c)) &&
                              t.buckets[month].profit == Sum(orders, ProfitIf(month, c)) &&
                              t.buckets[month].orders == Sum(orders, CountIf(month, c))) &&
      (month !in t.buckets ==> Sum(orders, SalesIf(month, c)) == 0 && Sum(orders, ProfitIf(month, c)) == 0 &&
                               Sum(orders, CountIf(month, c)) == 0)
    decreases |orders|
  {
    if |orders| > 0 {
      var init := orders[..|orders| - 1];
      assert forall k :: 0 <= k < |init| ==> init[k] == orders[k];
      BucketContents(init, c, month);
    }
  }

  /** A month has a bucket exactly when some order falls in it, and the
      bucket holds that month's sales, profit and order count. */
  lemma BucketSpec(orders: seq<Order>, c: Calendar, month: string)
    requires Processable(orders, c)
    ensures var t := Bucketed(orders, c);
      (month in t.buckets <==> exists k :: 0 <= k < |orders| && MonthLabel(orders[k], c) == Some(month)) &&
      (month in t.buckets ==> t.buckets[month].sales == Sum(orders, SalesIf(month, c)) &&
                              t.buckets[month].profit == Sum(orders, ProfitIf(month, c)) &&
                              t.buckets[month].orders == Sum(orders, CountIf(month, c))) &&
      (month !in t.buckets ==> Sum(orders, SalesIf(month, c)) == 0 && Sum(orders, ProfitIf(month, c)) == 0 &&
                               Sum(orders, CountIf(month, c)) == 0)
  {
    BucketMembership(orders, c, month);
    BucketContents(orders, c, month);
  }

  /** `Object.entries(monthlySales)`. */
  function Entries(t: Months): (r: seq<(string, Bucket)>)
    requires MonthsOk(t)
    ensures |r| == |t.keys|
  {
    seq(|t.keys|, i requires 0 <= i < |t.keys| => (t.keys[i], t.buckets[t.keys[i]]))
  }

  function EntrySales(): ((string, Bucket)) -> int
  {
    (e: (string, Bucket)) => e.1.sales
  }

  function EntryProfit(): ((string, Bucket)) -> int
  {
    (e: (string, Bucket)) => e.1.profit
  }

  function EntryOrders(): ((string, Bucket)) -> int
  {
    (e: (string, Bucket)) => e.1.orders
  }

  lemma AddToMonthOk(t: Months, month: string, total: int, profit: int)
    requires MonthsOk(t)
    ensures MonthsOk(AddToMonth(t, month, total, profit))
  {
  }

  /** An order for a month that has a bucket changes only that entry. */
  lemma AddToExistingMonthSums(t: Months, month: string, total: int, profit: int)
    requires MonthsOk(t) && month in t.buckets
    ensures MonthsOk(AddToMonth(t, month, total, profit))
    ensures var e := Entries(t); var e' := Entries(AddToMonth(t, month, total, profit));
      Sum(e', EntrySales()) == Sum(e, EntrySales()) + total &&
      Sum(e', EntryProfit()) == Sum(e, EntryProfit()) + profit &&
      Sum(e', EntryOrders()) == Sum(e, EntryOrders()) + 1
  {
    AddToMonthOk(t, month, total, profit);
    var u := AddToMonth(t, month, total, profit);
    var e := Entries(t);
    var e' := Entries(u);
    var k :| 0 <= k < |t.keys| && t.keys[k] == month;
    assert u.keys == t.keys;
    SumUpdateOne(e, e', k, EntrySales());
    SumUpdateOne(e, e', k, EntryProfit());
    SumUpdateOne(e, e', k, EntryOrders());
  }

  /** An order for a new month appends one entry holding just that order. */
  lemma AddToNewMonthSums(t: Months, month: string, total: int, profit: int)
    requires MonthsOk(t) && month !in t.buckets
    ensures MonthsOk(AddToMonth(t, month, total, profit))
    ensures var e := Entries(t); var e' := Entries(AddToMonth(t, month, total, profit));
      Sum(e', EntrySales()) == Sum(e, EntrySales()) + total &&
      Sum(e', EntryProfit()) == Sum(e, EntryProfit()) + profit &&
      Sum(e', EntryOrders()) == Sum(e, EntryOrders()) + 1
  {
    AddToMonthOk(t, month, total, profit);
    var e := Entries(t);
    var e' := Entries(AddToMonth(t, month, total, profit));
    assert e'[..|e|] == e;
    assert e'[|e|] == (month, Bucket(total, profit, 1));
  }

  /** Adding one order adds its total, profit and one order to the sums over
      the entries. */
  lemma AddToMonthSums(t: Months, month: string, total: int, profit: int)
    requires MonthsOk(t)
    ensures MonthsOk(AddToMonth(t, month, total, profit))
    ensures var e := Entries(t); var e' := Entries(AddToMonth(t, month, total, profit));
      Sum(e', EntrySales()) == Sum(e, EntrySales()) + total &&
      Sum(e', EntryProfit()) == Sum(e, EntryProfit()) + profit &&
      Sum(e', EntryOrders()) == Sum(e, EntryOrders()) + 1
  {
    if month in t.buckets {
      AddToExistingMonthSums(t, month, total, profit);
    } else {
      AddToNewMonthSums(t, month, total, profit);
    }
  }

  /** The buckets partition the orders: their sales add up to the revenue,
      their profits to the profit, and their counts to the order count. */
  lemma {:induction false} BucketsConserve(orders: seq<Order>, c: Calendar)
    requires Processable(orders, c)
    ensures MonthsOk(Bucketed(orders, c))
    ensures var e := Entries(Bucketed(orders, c));
      Sum(e, EntrySales()) == Sum(orders, Total()) &&
      Sum(e, EntryProfit()) == Sum(orders, Profit()) &&
      Sum(e, EntryOrders()) == |orders|
    decreases |orders|
  {
    if |orders| > 0 {
      var init := orders[..|orders| - 1];
      var o := orders[|orders| - 1];
      assert forall k :: 0 <= k < |init| ==> init[k] == orders[k];
      BucketsConserve(init, c);
      AddToMonthSums(Bucketed(init, c), MonthLabel(o, c).value, o.total, OrderProfit(o));
    }
  }

  // ---------------------------------------------------------------------
  // the charts

  datatype SalesPoint = SalesPoint(date: string, sales: int, profit: int)
  datatype OrdersPoint = OrdersPoint(date: string, orders: nat)

  function SalesData(e: seq<(string, Bucket)>): (r: seq<SalesPoint>)
    ensures |r| == |e|
    ensures forall i :: 0 <= i < |e| ==> r[i].date == e[i].0 && r[i].sales == e[i].1.sales && r[i].profit == e[i].1.profit
  {
    seq(|e|, i requires 0 <= i < |e| => SalesPoint(e[i].0, e[i].1.sales, e[i].1.profit))
  }

  function OrdersData(e: seq<(string, Bucket)>): (r: seq<OrdersPoint>)
    ensures |r| == |e|
    ensures forall i :: 0 <= i < |e| ==> r[i].date == e[i].0 && r[i].orders == e[i].1.orders
  {
    seq(|e|, i requires 0 <= i < |e| => OrdersPoint(e[i].0, e[i].1.orders))
  }

  // ---------------------------------------------------------------------
  // the previous period and the trends

  /** `new Date(start.getFullYear(), start.getMonth() - 1, 1)`. */
  function PrevStart(startDate: int, c: Calendar): int
  {
    c.monthStart(c.monthOf(startDate) - 1)
  }

  /** `prevEnd.setDate(0)` on a copy of the start date: the last day of the
      previous month, at the start date's time of day. */
  function PrevEndAsWritten(startDate: int, c: Calendar): int
  {
    var first := c.monthStart(c.monthOf(startDate));
    first - DAY_MS + (startDate - first) % DAY_MS
  }

  /** The last millisecond of the previous month. */
  function PrevEnd(startDate: int, c: Calendar): int
  {
    c.monthStart(c.monthOf(startDate)) - 1
  }

  /** As written, the previous period ends on the last day of the previous
      month at the start date's time of day, so whatever falls later that
      day (for a start at midnight, the whole last day but its first
      millisecond) is missed, though it belongs to the previous month. */
  lemma PrevEndMissesLastDay(startDate: int, c: Calendar)
    requires CalendarOk(c)
    requires (startDate - c.monthStart(c.monthOf(startDate))) % DAY_MS < DAY_MS - 1
    ensures var t := c.monthStart(c.monthOf(startDate)) - 1;
      InMonth(c, t, c.monthOf(startDate) - 1) && t > PrevEndAsWritten(startDate, c)
  {
    var m := c.monthOf(startDate);
    assert c.monthStart(m - 1) + 28 * DAY_MS <= c.monthStart(m - 1 + 1);
  }

  /** The corrected window holds exactly the instants of the month before
      the start date's month. */
  lemma PrevWindowIsPreviousMonth(startDate: int, c: Calendar, t: int)
    requires CalendarOk(c)
    ensures PrevStart(startDate, c) <= t <= PrevEnd(startDate, c) <==> InMonth(c, t, c.monthOf(startDate) - 1)
  {
    var m := c.monthOf(startDate);
    assert m - 1 + 1 == m;
  }

  /** `calculateTrend`. */
  function CalculateTrend(current: int, previous: int): real
  {
    if previous == 0 then (if current == 0 then 0.0 else 100.0)
    else ((current - previous) as real / previous as real) * 100.0
  }

  /** No change gives 0; against a positive base the sign follows the
      change, doubling gives 100; against a negative base (a loss) the sign
      is reversed, so a smaller loss shows as a fall. */
  lemma TrendSigns(current: int, previous: int)
    ensures current == previous ==> CalculateTrend(current, previous) == 0.0
    ensures previous > 0 ==> (CalculateTrend(current, previous) > 0.0 <==> current > previous)
    ensures previous != 0 ==> CalculateTrend(2 * previous, previous) == 100.0
    ensures previous < 0 ==> (CalculateTrend(current, previous) > 0.0 <==> current < previous)
    ensures previous == 0 ==> (CalculateTrend(current, previous) == 0.0 <==> current == 0)
  {
    if previous != 0 {
      var p := previous as real;
      QuotientPositive((current - previous) as real, p);
      assert (2 * previous - previous) as real == p;
      assert p / p == 1.0;
    }
  }

  /** A quotient is positive exactly when both sides have the same sign. */
  lemma QuotientPositive(d: real, p: real)
    requires p != 0.0
    ensures d / p > 0.0 <==> (d > 0.0 && p > 0.0) || (d < 0.0 && p < 0.0)
  {
    var q := d / p;
    assert q * p == d;
    if p > 0.0 {
      if q > 0.0 { assert q * p > 0.0; } else { assert q * p <= 0.0; }
    } else {
      if q > 0.0 { assert q * p < 0.0; } else { assert q * p >= 0.0; }
    }
  }

  // ---------------------------------------------------------------------
  // the hook

  datatype Metrics = Metrics(orders: nat, users: nat, revenue: int, profit: int)
  datatype Trends = Trends(orders: real, users: real, revenue: real, profit: real)

  datatype DateRange = DateRange(startDate: int, endDate: int)

  class DashboardState {
    var metrics: Metrics
    var trend: Trends
    var salesData: seq<SalesPoint>
    var ordersData: seq<OrdersPoint>

    constructor()
      ensures metrics == Metrics(0, 0, 0, 0) && trend == Trends(0.0, 0.0, 0.0, 0.0)
      ensures salesData == [] && ordersData == []
    {
      metrics := Metrics(0, 0, 0, 0);
      trend := Trends(0.0, 0.0, 0.0, 0.0);
      salesData := [];
      ordersData := [];
    }

    /** `fetchData`. `collection` is the orders collection and `users` the
        size of the users collection, `None` when that read fails;
        `prevReadOk` says whether the second orders read succeeds. Nothing
        catches a failure: it stops the effect where it happens. The
        previous period starts on the first of the month before the start
        date's month and, as the code computes it, ends at `PrevEndAsWritten`,
        the last day of that month at the start date's time of day. */
    method FetchData(collection: Option<seq<Order>>, users: Option<nat>, prevReadOk: bool,
                     range: DateRange, c: Calendar)
      modifies this
      ensures var current := if collection.Some? then Query(collection.value, range.startDate, range.endDate) else [];
        if collection.None? || users.None? || !Processable(current, c) then
          metrics == old(metrics) && trend == old(trend) && salesData == old(salesData) && ordersData == old(ordersData)
        else
          MonthsOk(Bucketed(current, c)) &&
          metrics == Metrics(|current|, users.value, Sum(current, Total()), Sum(current, Profit())) &&
          salesData == SalesData(Entries(Bucketed(current, c))) &&
          ordersData == OrdersData(Entries(Bucketed(current, c))) &&
          var prev := Query(collection.value, PrevStart(range.startDate, c), PrevEndAsWritten(range.startDate, c));
          if !prevReadOk || exists k :: 0 <= k < |prev| && prev[k].items.None? then trend == old(trend)
          else trend == Trends(CalculateTrend(|current|, |prev|), 0.0,
                               CalculateTrend(Sum(current, Total()), Sum(prev, Total())),
                               CalculateTrend(Sum(current, Profit()), Sum(prev, Profit())))
    {
      if collection.None? || users.None? {
        return;
      }
      var current := Query(collection.value, range.startDate, range.endDate);
      var ok, revenue, profit, keys, buckets := Accumulate(current, c);
      if !ok {
        return;
      }
      BucketsConserve(current, c);
      var entries := Entries(Months(keys, buckets));
      salesData := SalesData(entries);
      ordersData := OrdersData(entries);
      metrics := Metrics(|current|, users.value, revenue, profit);
      if !prevReadOk {
        return;
      }
      var prev := Query(collection.value, PrevStart(range.startDate, c), PrevEndAsWritten(range.startDate, c));
      var prevOk, prevRevenue, prevProfit := PreviousTotals(prev);
      if !prevOk {
        return;
      }
      trend := Trends(CalculateTrend(|current|, |prev|), 0.0,
                      CalculateTrend(revenue, prevRevenue), CalculateTrend(profit, prevProfit));
    }
  }

  /** The two charts list the same months in the same order, and their
      figures add up to the headline metrics. */
  lemma ChartsAgree(orders: seq<Order>, c: Calendar)
    requires Processable(orders, c)
    ensures MonthsOk(Bucketed(orders, c))
    ensures var e := Entries(Bucketed(orders, c)); var s := SalesData(e); var d := OrdersData(e);
      |s| == |d| && (forall i :: 0 <= i < |s| ==> s[i].date == d[i].date) &&
      Sum(e, EntrySales()) == Sum(orders, Total()) && Sum(e, EntryOrders()) == |orders|
  {
    BucketsConserve(orders, c);
  }
}
