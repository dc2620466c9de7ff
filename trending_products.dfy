/** The "trending" section: the orders of the last thirty days, a tally of
    units per product over their lines, then the six products with the most
    units. Unlike the top-selling tally it reads the line's `price` field,
    does not look at the quantity, and stops altogether at an order without
    an items array. */
module TrendingProducts {
  import opened Base
  import opened Text
  import opened Ledger
  import opened ProductsAndOrders
  import CartStore
  import CheckoutPage

  const TRENDING_DAYS := 30
  const SHOWN := 6

  datatype Trend = Trend(id: string, name: string, quantitySold: int, price: int, image: string)

  // ---------------------------------------------------------------------
  // the query

  /** `pastDate`: the same local time thirty days before `now`. */
  function Since(now: int): int
  {
    now - TRENDING_DAYS * DAY_MS
  }

  /** `where("createdAt", ">=", Timestamp.fromDate(pastDate))`: only stored
      timestamps can satisfy the range condition. */
  predicate Recent(o: Order, now: int)
  {
    QueryMillis(o.createdAt).Some? && QueryMillis(o.createdAt).value >= Since(now)
  }

  function RecentTest(now: int): Order -> bool
  {
    (o: Order) => Recent(o, now)
  }

  function RecentOrders(orders: seq<Order>, now: int): (r: seq<Order>)
    ensures Subsequence(r, orders)
    ensures forall o :: o in r <==> o in orders && Recent(o, now)
  {
    FilterIsSubsequence(orders, RecentTest(now));
    Filter(orders, RecentTest(now))
  }

  // ---------------------------------------------------------------------
  // the tally

  /** `!id || !name || !price || !image` skips the line. */
  predicate Accepted(it: Item)
  {
    it.id != "" && it.name != "" && it.price != 0 && it.image != ""
  }

  predicate Matches(it: Item, id: string)
  {
    Accepted(it) && it.id == id
  }

  function Created(it: Item): Trend
  {
    Trend(it.id, it.name, 0, it.price, it.image)
  }

  /** `stats` and `keys`, its insertion order. */
  datatype Tally = Tally(keys: seq<string>, stats: map<string, Trend>)

  ghost predicate TallyOk(t: Tally)
  {
    (forall i, j :: 0 <= i < j < |t.keys| ==> t.keys[i] != t.keys[j]) &&
    (forall id :: id in t.stats <==> id in t.keys) &&
    (forall id :: id in t.stats ==> t.stats[id].id == id)
  }

  /** The inner loop body. */
  function AddItem(t: Tally, it: Item): Tally
  {
    if !Accepted(it) then t
    else
      var t1 := if it.id in t.stats then t else Tally(t.keys + [it.id], t.stats[it.id := Created(it)]);
      var s := t1.stats[it.id];
      t1.(stats := t1.stats[it.id := s.(quantitySold := s.quantitySold + it.quantity)])
  }

  function AddItems(t: Tally, items: seq<Item>): Tally
    decreases |items|
  {
    if |items| == 0 then t else AddItem(AddItems(t, items[..|items| - 1]), items[|items| - 1])
  }

  const EMPTY := Tally([], map[])

  /** Every order carries an items array (otherwise the loop throws). */
  predicate AllHaveItems(orders: seq<Order>)
  {
    forall k :: 0 <= k < |orders| ==> orders[k].items.Some?
  }

  /** The inner loop body on the two variables it updates. */
  method TallyItem(keys: seq<string>, stats: map<string, Trend>, it: Item)
    returns (keys': seq<string>, stats': map<string, Trend>)
    ensures Tally(keys', stats') == AddItem(Tally(keys, stats), it)
  {
    keys', stats' := keys, stats;
    if Accepted(it) {
      if it.id !in stats' {
        keys' := keys' + [it.id];
        stats' := stats'[it.id := Created(it)];
      }
      var s := stats'[it.id];
      stats' := stats'[it.id := s.(quantitySold := s.quantitySold + it.quantity)];
    }
  }

  /** Tallying two runs of lines is tallying the first, then the second. */
  lemma {:induction false} AddItemsAppend(t: Tally, a: seq<Item>, b: seq<Item>)
    ensures AddItems(t, a + b) == AddItems(AddItems(t, a), b)
    decreases |b|
  {
    if |b| == 0 {
      assert a + b == a;
    } else {
      var b' := b[..|b| - 1];
      assert (a + b)[..|a + b| - 1] == a + b';
      AddItemsAppend(t, a, b');
    }
  }

  /** The inner loop over one order's items. */
  method TallyOrder(keys: seq<string>, stats: map<string, Trend>, items: seq<Item>)
    returns (keys': seq<string>, stats': map<string, Trend>)
    ensures Tally(keys', stats') == AddItems(Tally(keys, stats), items)
  {
    keys', stats' := keys, stats;
    for j := 0 to |items|
      invariant Tally(keys', stats') == AddItems(Tally(keys, stats), items[..j])
    {
      assert items[..j + 1][..j] == items[..j];
      keys', stats' := TallyItem(keys', stats', items[j]);
    }
    assert items[..|items|] == items;
  }

  /** The nested loops; `ok` is false when an order without an items array
      makes the pass throw. */
  method Aggregate(orders: seq<Order>) returns (ok: bool, keys: seq<string>, stats: map<string, Trend>)
    ensures ok <==> AllHaveItems(orders)
    ensures ok ==> Tally(keys, stats) == AddItems(EMPTY, AllItems(orders))
  {
    keys, stats := [], map[];
    for k := 0 to |orders|
      invariant AllHaveItems(orders[..k])
      invariant Tally(keys, stats) == AddItems(EMPTY, AllItems(orders[..k]))
    {
      assert orders[..k + 1][..k] == orders[..k];
      if orders[k].items.None? {
        assert !AllHaveItems(orders);
        return false, keys, stats;
      }
      var items := orders[k].items.value;
      AddItemsAppend(EMPTY, AllItems(orders[..k]), items);
      keys, stats := TallyOrder(keys, stats, items);
    }
    assert orders[..|orders|] == orders;
    return true, keys, stats;
  }

  function Values(t: Tally): (r: seq<Trend>)
    requires TallyOk(t)
    ensures |r| == |t.keys|
  {
    seq(|t.keys|, i requires 0 <= i < |t.keys| => t.stats[t.keys[i]])
  }

  function SoldKey(): Trend -> int
  {
    (s: Trend) => s.quantitySold
  }

  /** `.sort((a, b) => b.quantitySold - a.quantitySold).slice(0, 6)`. */
  function Top(values: seq<Trend>): seq<Trend>
  {
    Take(SortDesc(values, SoldKey()), SHOWN)
  }

  /** What the section shows when every recent order has an items array. */
  function TrendingOf(orders: seq<Order>): seq<Trend>
  {
    AddItemsOk(EMPTY, AllItems(orders));
    Top(Values(AddItems(EMPTY, AllItems(orders))))
  }

  // ---------------------------------------------------------------------
  // reference definitions

  function FirstWith(items: seq<Item>, id: string): Option<Item>
    decreases |items|
  {
    if |items| == 0 then None
    else
      var p := FirstWith(items[..|items| - 1], id);
      if p.Some? then p
      else if Matches(items[|items| - 1], id) then Some(items[|items| - 1])
      else None
  }

  function AcceptedQty(id: string): Item -> int
  {
    (it: Item) => if Matches(it, id) then it.quantity else 0
  }

  /** The record the tally is meant to hold for `id`. */
  function TrendFor(items: seq<Item>, id: string): Trend
    requires FirstWith(items, id).Some?
  {
    Created(FirstWith(items, id).value).(quantitySold := Sum(items, AcceptedQty(id)))
  }

  lemma {:induction false} FirstWithSpec(items: seq<Item>, id: string)
    ensures FirstWith(items, id).Some? <==> exists i :: 0 <= i < |items| && Matches(items[i], id)
    ensures FirstWith(items, id).Some? ==>
      exists i :: 0 <= i < |items| && items[i] == FirstWith(items, id).value && Matches(items[i], id) &&
                  forall j :: 0 <= j < i ==> !Matches(items[j], id)
    decreases |items|
  {
    if |items| > 0 {
      var init := items[..|items| - 1];
      FirstWithSpec(init, id);
      assert forall i :: 0 <= i < |init| ==> init[i] == items[i];
    }
  }

  lemma AddItemOk(t: Tally, it: Item)
    requires TallyOk(t)
    ensures TallyOk(AddItem(t, it))
  {
  }

  lemma {:induction false} AddItemsOk(t: Tally, items: seq<Item>)
    requires TallyOk(t)
    ensures TallyOk(AddItems(t, items))
    decreases |items|
  {
    if |items| > 0 {
      AddItemsOk(t, items[..|items| - 1]);
      AddItemOk(AddItems(t, items[..|items| - 1]), items[|items| - 1]);
    }
  }

  /** From an empty tally: a product has a record exactly when it has an
      accepted line; the record's name, price and image come from the first
      such line and its units are the sum over all of them. */
  lemma {:induction false} AddItemsSpec(items: seq<Item>, id: string)
    ensures var u := AddItems(EMPTY, items);
      (id in u.stats <==> FirstWith(items, id).Some?) &&
      (FirstWith(items, id).None? ==> Sum(items, AcceptedQty(id)) == 0) &&
      (id in u.stats ==> u.stats[id] == TrendFor(items, id))
    decreases |items|
  {
    if |items| > 0 {
      AddItemsSpec(items[..|items| - 1], id);
    }
  }

  /** The values ranked are exactly the intended records, one per product. */
  lemma ValuesSpec(items: seq<Item>)
    ensures TallyOk(AddItems(EMPTY, items))
    ensures var v := Values(AddItems(EMPTY, items));
      (forall x :: x in v ==> FirstWith(items, x.id).Some? && x == TrendFor(items, x.id)) &&
      (forall id :: FirstWith(items, id).Some? ==> TrendFor(items, id) in v)
  {
    AddItemsOk(EMPTY, items);
    var t := AddItems(EMPTY, items);
    var v := Values(t);
    forall x | x in v ensures FirstWith(items, x.id).Some? && x == TrendFor(items, x.id) {
      var i :| 0 <= i < |v| && v[i] == x;
      AddItemsSpec(items, t.keys[i]);
    }
    forall id | FirstWith(items, id).Some? ensures TrendFor(items, id) in v {
      AddItemsSpec(items, id);
      var i :| 0 <= i < |t.keys| && t.keys[i] == id;
      assert v[i] == TrendFor(items, id);
    }
  }

  lemma TopSpec(values: seq<Trend>)
    ensures var r := Top(values);
      |r| <= SHOWN && SortedDesc(r, SoldKey()) &&
      (forall x :: x in r ==> x in values) &&
      (forall y :: y in values && y !in r ==> |r| == SHOWN && forall x :: x in r ==> x.quantitySold >= y.quantitySold)
  {
    var s := SortDesc(values, SoldKey());
    SortDescSorted(values, SoldKey());
    var r := Take(s, SHOWN);
    forall x | x in r ensures x in values {
      assert x in multiset(s);
    }
    forall y | y in values && y !in r
      ensures |r| == SHOWN && forall x :: x in r ==> x.quantitySold >= y.quantitySold
    {
      assert y in multiset(s);
      var p :| 0 <= p < |s| && s[p] == y;
      forall x | x in r ensures x.quantitySold >= y.quantitySold {
        var i :| 0 <= i < |r| && r[i] == x;
        assert s[i] == x;
      }
    }
  }

  /** At most six products, most units first, each with its true totals over
      the accepted lines; a product with an accepted line left out sold no
      more than any of the six shown. */
  lemma TrendingSpec(orders: seq<Order>)
    ensures var items := AllItems(orders); var r := TrendingOf(orders);
      |r| <= SHOWN && SortedDesc(r, SoldKey()) &&
      (forall x :: x in r ==> FirstWith(items, x.id).Some? && x == TrendFor(items, x.id)) &&
      (forall id :: FirstWith(items, id).Some? && TrendFor(items, id) !in r ==>
         |r| == SHOWN && forall x :: x in r ==> x.quantitySold >= Sum(items, AcceptedQty(id)))
  {
    ValuesSpec(AllItems(orders));
    TopSpec(Values(AddItems(EMPTY, AllItems(orders))));
  }

  /** The lines the checkout page writes carry no `price` field, so orders
      placed through the storefront never make a product trend. */
  lemma CheckoutOrdersNeverTrend(carts: seq<seq<CartStore.Line>>, orders: seq<Order>)
    requires |orders| == |carts|
    requires forall k :: 0 <= k < |orders| ==> orders[k].items == Some(CheckoutPage.OrderItems(carts[k]))
    ensures TrendingOf(orders) == []
  {
    forall k, it | 0 <= k < |orders| && it in ItemsOf(orders[k]) ensures it.price == 0 {
      var items := CheckoutPage.OrderItems(carts[k]);
      var i :| 0 <= i < |items| && items[i] == it;
    }
    NoAcceptedLine(orders);
    NothingTallied(AllItems(orders));
  }

  lemma {:induction false} NoAcceptedLine(orders: seq<Order>)
    requires forall k :: 0 <= k < |orders| ==> forall it :: it in ItemsOf(orders[k]) ==> it.price == 0
    ensures forall it :: it in AllItems(orders) ==> !Accepted(it)
    decreases |orders|
  {
    if |orders| > 0 {
      NoAcceptedLine(orders[..|orders| - 1]);
    }
  }

  lemma {:induction false} NothingTallied(items: seq<Item>)
    requires forall it :: it in items ==> !Accepted(it)
    ensures AddItems(EMPTY, items) == EMPTY
    decreases |items|
  {
    if |items| > 0 {
      NothingTallied(items[..|items| - 1]);
    }
  }

  // ---------------------------------------------------------------------
  // display

  /** The shown image: `https:` is put in front unless it starts with "http". */
  function ShownImage(image: string): (r: string)
    ensures StartsWith(r, "http")
    ensures |image| <= |r| && r[|r| - |image|..] == image
    ensures StartsWith(image, "http") <==> r == image
  {
    if StartsWith(image, "http") then image else "https:" + image
  }

  /** The component's state. */
  class TrendingSection {
    var trending: seq<Trend>
    var loading: bool

    constructor()
      ensures trending == [] && loading
    {
      trending := [];
      loading := true;
    }

    /** `fetchTrending`. `collection` is the orders collection, `None` when
        the read throws; the query keeps the last thirty days. A throw,
        including one from an order without items, leaves the list as it was. */
    method FetchTrending(collection: Option<seq<Order>>, now: int)
      modifies this
      ensures collection.None? ==> trending == old(trending)
      ensures collection.Some? && !AllHaveItems(RecentOrders(collection.value, now)) ==> trending == old(trending)
      ensures collection.Some? && AllHaveItems(RecentOrders(collection.value, now)) ==>
        trending == TrendingOf(RecentOrders(collection.value, now))
      ensures !loading
    {
      if collection.None? {
        loading := false;
        return;
      }
      var orders := RecentOrders(collection.value, now);
      var ok, keys, stats := Aggregate(orders);
      if ok {
        AddItemsOk(EMPTY, AllItems(orders));
        var values := seq(|keys|, i requires 0 <= i < |keys| && keys[i] in stats => stats[keys[i]]);
        assert values == Values(AddItems(EMPTY, AllItems(orders)));
        trending := Top(values);
      }
      loading := false;
    }
  }
}
