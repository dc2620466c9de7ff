/** The products-and-orders hook behind the admin stock table: it keeps the
    orders whose `createdAt` falls inside a day-granular date window, and
    reconciles a product's catalogue stock against the quantities those
    orders sold. Local time is UTC plus a fixed offset `tz` (in ms). */
module ProductsAndOrders {
  import opened Base
  import opened Ledger
  import opened Catalog

  const DAY_MS := 86400000

  /** `setHours(0, 0, 0, 0)`: local midnight of the day holding `t`. */
  function DayStart(t: int, tz: int): (r: int)
    ensures r <= t < r + DAY_MS
    ensures (r + tz) % DAY_MS == 0
  {
    t - (t + tz) % DAY_MS
  }

  /** `setHours(23, 59, 59, 999)`: the last millisecond of the day holding `t`. */
  function DayEnd(t: int, tz: int): (r: int)
    ensures t <= r < t + DAY_MS
    ensures (r + 1 + tz) % DAY_MS == 0
  {
    DayStart(t, tz) + DAY_MS - 1
  }

  /** How the filter reads `createdAt`: `toDate()`, a `Date` as is, or
      `seconds * 1000` when `seconds` is truthy; anything else has no date. */
  function OrderInstant(s: Stamp): (r: Option<int>)
    ensures r.None? <==> s.Missing? || s.Unrecognised? || (s.SecondsOnly? && s.seconds == 0)
  {
    match s
    case Missing => None
    case FirestoreTimestamp(sec, ns) => Some(TimestampMillis(sec, ns))
    case JsDate(ms) => Some(ms)
    case SecondsOnly(sec) => if sec != 0 then Some(sec * MS_PER_SECOND) else None
    case Unrecognised => None
  }

  /** The `filteredOrders` predicate for one order. */
  predicate InWindow(o: Order, startDate: int, endDate: int, tz: int)
  {
    match OrderInstant(o.createdAt)
    case None => false
    case Some(t) => DayStart(startDate, tz) <= t && t <= DayEnd(endDate, tz)
  }

  function Window(startDate: int, endDate: int, tz: int): Order -> bool
  {
    (o: Order) => InWindow(o, startDate, endDate, tz)
  }

  /** `allOrders.filter(...)` with the window above. */
  function FilterOrders(orders: seq<Order>, startDate: int, endDate: int, tz: int): seq<Order>
  {
    Filter(orders, Window(startDate, endDate, tz))
  }

  /** An order is kept iff it has a date, the date is not before midnight of
      the start day and not after the last millisecond of the end day; the
      kept orders stay in their original order. */
  lemma FilterOrdersSpec(orders: seq<Order>, startDate: int, endDate: int, tz: int)
    ensures forall o :: o in FilterOrders(orders, startDate, endDate, tz) <==>
      o in orders && OrderInstant(o.createdAt).Some? &&
      DayStart(startDate, tz) <= OrderInstant(o.createdAt).value <= DayEnd(endDate, tz)
    ensures Subsequence(FilterOrders(orders, startDate, endDate, tz), orders)
  {
    FilterIsSubsequence(orders, Window(startDate, endDate, tz));
  }

  /** Any instant of the start day or of the end day is inside the window,
      so the window is whole days wide at both ends. */
  lemma WindowIsWholeDays(o: Order, startDate: int, endDate: int, tz: int, t: int)
    requires OrderInstant(o.createdAt) == Some(t)
    requires DayStart(startDate, tz) <= DayStart(endDate, tz)
    requires DayStart(t, tz) == DayStart(startDate, tz) || DayStart(t, tz) == DayStart(endDate, tz)
    ensures InWindow(o, startDate, endDate, tz)
  {
  }

  // ---------------------------------------------------------------------
  // getUpdatedStock

  function QuantityIf(productId: string): Item -> int
  {
    (it: Item) => if it.id == productId then it.quantity else 0
  }

  /** The units of `productId` on one order's lines (every matching line, repeats included). */
  function SoldIn(o: Order, productId: string): int
  {
    Sum(ItemsOf(o), QuantityIf(productId))
  }

  function OrderSold(productId: string): Order -> int
  {
    (o: Order) => SoldIn(o, productId)
  }

  /** `totalSold` of the source: units of `productId` across all orders. */
  function TotalSold(orders: seq<Order>, productId: string): int
  {
    Sum(orders, OrderSold(productId))
  }

  /** What `getUpdatedStock` returns. `None` stands for `undefined` (a product
      with no `inStock`); `undefined - n` is `NaN`, which fails `>= 0` and so
      gives 0. */
  function Reconciled(orders: seq<Order>, productId: string, initialStock: Option<int>): Option<int>
  {
    if |orders| == 0 then initialStock
    else match initialStock
      case None => Some(0)
      case Some(b) => var u := b - TotalSold(orders, productId); Some(if u >= 0 then u else 0)
  }

  method GetUpdatedStock(orders: seq<Order>, productId: string, initialStock: Option<int>)
    returns (r: Option<int>)
    ensures r == Reconciled(orders, productId, initialStock)
  {
    if |orders| == 0 {
      return initialStock;
    }
    var totalSold := 0;
    for i := 0 to |orders|
      invariant totalSold == TotalSold(orders[..i], productId)
    {
      var items := ItemsOf(orders[i]);
      for j := 0 to |items|
        invariant totalSold == TotalSold(orders[..i], productId) + Sum(items[..j], QuantityIf(productId))
      {
        if items[j].id == productId {
          totalSold := totalSold + items[j].quantity;
        }
        assert items[..j + 1][..j] == items[..j];
      }
      assert items[..|items|] == items;
      assert orders[..i + 1][..i] == orders[..i];
    }
    assert orders[..|orders|] == orders;
    match initialStock {
      case None =>
        r := Some(0);
      case Some(b) =>
        var updated := b - totalSold;
        r := Some(if updated >= 0 then updated else 0);
    }
  }

  /** With at least one order the result is defined and never negative. */
  lemma ReconciledNonNegative(orders: seq<Order>, productId: string, initialStock: Option<int>)
    requires |orders| > 0
    ensures Reconciled(orders, productId, initialStock).Some?
    ensures Reconciled(orders, productId, initialStock).value >= 0
  {
  }

  predicate NonNegativeQuantities(orders: seq<Order>)
  {
    forall i, j :: 0 <= i < |orders| && 0 <= j < |ItemsOf(orders[i])| ==> ItemsOf(orders[i])[j].quantity >= 0
  }

  lemma {:induction false} TotalSoldNonNegative(orders: seq<Order>, productId: string)
    requires NonNegativeQuantities(orders)
    ensures TotalSold(orders, productId) >= 0
  {
    forall i | 0 <= i < |orders| ensures OrderSold(productId)(orders[i]) >= 0 {
      SumNonNegative(ItemsOf(orders[i]), QuantityIf(productId));
    }
    SumNonNegative(orders, OrderSold(productId));
  }

  /** With non-negative quantities a non-negative stock only goes down. */
  lemma ReconciledAtMostInitial(orders: seq<Order>, productId: string, b: int)
    requires b >= 0 && NonNegativeQuantities(orders)
    ensures Reconciled(orders, productId, Some(b)).Some?
    ensures 0 <= Reconciled(orders, productId, Some(b)).value <= b
  {
    TotalSoldNonNegative(orders, productId);
  }

  /** A product no order mentions keeps its stock (clamped at 0). */
  lemma {:induction false} UnsoldProduct(orders: seq<Order>, productId: string, b: int)
    requires |orders| > 0
    requires forall i, j :: 0 <= i < |orders| && 0 <= j < |ItemsOf(orders[i])| ==> ItemsOf(orders[i])[j].id != productId
    ensures Reconciled(orders, productId, Some(b)) == Some(Max(b, 0))
  {
    forall i | 0 <= i < |orders| ensures OrderSold(productId)(orders[i]) == 0 {
      SumZero(ItemsOf(orders[i]), QuantityIf(productId));
    }
    SumZero(orders, OrderSold(productId));
  }

  /** Orders without an `items` array sell nothing. */
  lemma NoItemsSellsNothing(o: Order, productId: string)
    requires o.items.None?
    ensures SoldIn(o, productId) == 0
  {
  }

  /** The sold total splits over a split of the order list. */
  lemma TotalSoldAppend(a: seq<Order>, b: seq<Order>, productId: string)
    ensures TotalSold(a + b, productId) == TotalSold(a, productId) + TotalSold(b, productId)
  {
    SumAppend(a, b, OrderSold(productId));
  }

  /** All the order lines, one order after another. */
  function AllItems(orders: seq<Order>): seq<Item>
  {
    if |orders| == 0 then [] else AllItems(orders[..|orders| - 1]) + ItemsOf(orders[|orders| - 1])
  }

  /** The sold total is the sum over the flattened line list: grouping by
      order changes nothing, and each matching line counts once. */
  lemma {:induction false} TotalSoldFlat(orders: seq<Order>, productId: string)
    ensures TotalSold(orders, productId) == Sum(AllItems(orders), QuantityIf(productId))
  {
    if |orders| > 0 {
      var init := orders[..|orders| - 1];
      TotalSoldFlat(init, productId);
      SumAppend(AllItems(init), ItemsOf(orders[|orders| - 1]), QuantityIf(productId));
    }
  }

  /** More orders in the window never raise the reconciled stock. */
  lemma MoreOrdersLessStock(a: seq<Order>, b: seq<Order>, productId: string, s: int)
    requires |a| > 0 && NonNegativeQuantities(b)
    ensures Reconciled(a + b, productId, Some(s)).value <= Reconciled(a, productId, Some(s)).value
  {
    TotalSoldAppend(a, b, productId);
    TotalSoldNonNegative(b, productId);
  }

  // ---------------------------------------------------------------------
  // loadData

  /** The hook's state: the product list, the windowed orders and the flag. */
  class ProductsHook {
    var products: seq<Product>
    var orders: seq<Order>
    var loading: bool

    constructor()
      ensures products == [] && orders == [] && loading
    {
      products := [];
      orders := [];
      loading := true;
    }

    /** `loadData`: `fetched` and `snapshot` are the CMS listing and the
        `orders` collection, `None` when the call throws. The products are
        stored as fetched, never narrowed by the orders. */
    method LoadData(fetched: Option<seq<Product>>, snapshot: Option<seq<Order>>,
                    startDate: int, endDate: int, tz: int)
      modifies this
      ensures !loading
      ensures fetched.Some? && snapshot.Some? ==>
        orders == FilterOrders(snapshot.value, startDate, endDate, tz) && products == fetched.value
      ensures fetched.None? || snapshot.None? ==> orders == old(orders) && products == old(products)
    {
      loading := true;
      if fetched.Some? && snapshot.Some? {
        orders := FilterOrders(snapshot.value, startDate, endDate, tz);
        products := fetched.value;
      }
      loading := false;
    }
  }
}
