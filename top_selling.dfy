/** The "top selling" section of the storefront: a pass over every stored
    order that tallies, per product id, the units sold and the set of orders
    the product appears in, followed by a filter (at least two orders), a
    sort (most units first) and a cut to six entries. */
module TopSelling {
  import opened Base
  import opened Text
  import opened Ledger

  const MIN_ORDERS := 2
  const SHOWN := 6

  /** `ProductStats`. */
  datatype Stat = Stat(id: string, name: string, quantitySold: int, image: string, price: int, orderCount: int)

  /** `discountedPrice || costPrice || 0`. */
  function ItemPrice(it: Item): (r: int)
    ensures r != 0 <==> it.discountedPrice != 0 || it.costPrice != 0
    ensures r == it.discountedPrice || r == it.costPrice
  {
    if it.discountedPrice != 0 then it.discountedPrice else it.costPrice
  }

  /** The line is counted only when id, name and image are non-empty and the
      quantity and the price are non-zero. */
  predicate Accepted(it: Item)
  {
    it.id != "" && it.name != "" && it.quantity != 0 && ItemPrice(it) != 0 && it.image != ""
  }

  /** `image.startsWith("http") ? image : "http:" + image`. */
  function HttpImage(image: string): (r: string)
    ensures StartsWith(r, "http")
    ensures |image| <= |r| && r[|r| - |image|..] == image
    ensures StartsWith(image, "http") <==> r == image
  {
    if StartsWith(image, "http") then image else "http:" + image
  }

  /** The record made at the first accepted line of a product. */
  function Created(it: Item): Stat
  {
    Stat(it.id, it.name, 0, HttpImage(it.image), ItemPrice(it), 0)
  }

  /** The two dictionaries of the pass: `stats` (with `keys`, its insertion
      order, which `Object.values` follows) and `orderMap`. */
  datatype Tally = Tally(keys: seq<string>, stats: map<string, Stat>, orderSets: map<string, set<nat>>)

  const EMPTY := Tally([], map[], map[])

  /** The keys are distinct and are exactly the ids of both dictionaries,
      and each record carries its own id. */
  ghost predicate TallyOk(t: Tally)
  {
    (forall i, j :: 0 <= i < j < |t.keys| ==> t.keys[i] != t.keys[j]) &&
    (forall id :: id in t.stats <==> id in t.keys) &&
    t.orderSets.Keys == t.stats.Keys &&
    (forall id :: id in t.stats ==> t.stats[id].id == id)
  }

  /** The inner loop body: an accepted line creates its product's record
      (and empty order set) on first sight, then adds its quantity. */
  function AddItem(t: Tally, it: Item): Tally
  {
    if !Accepted(it) then t
    else
      var t1 := if it.id in t.stats then t
                else Tally(t.keys + [it.id], t.stats[it.id := Created(it)], t.orderSets[it.id := {}]);
      var s := t1.stats[it.id];
      t1.(stats := t1.stats[it.id := s.(quantitySold := s.quantitySold + it.quantity)])
  }

  function AddItems(t: Tally, items: seq<Item>): Tally
    decreases |items|
  {
    if |items| == 0 then t else AddItem(AddItems(t, items[..|items| - 1]), items[|items| - 1])
  }

  /** `seenInThisOrder` after the inner loop. */
  function SeenIn(items: seq<Item>): set<string>
  {
    set i | 0 <= i < |items| && Accepted(items[i]) :: items[i].id
  }

  /** `orderMap[pid].add(orderId)` for every id seen in order `k`. */
  function Mark(orderSets: map<string, set<nat>>, seen: set<string>, k: nat): map<string, set<nat>>
  {
    map pid | pid in orderSets :: if pid in seen then orderSets[pid] + {k} else orderSets[pid]
  }

  /** The outer loop body for order number `k`; an order without an items
      array is skipped. */
  function AddOrder(t: Tally, o: Order, k: nat): Tally
  {
    match o.items
    case None => t
    case Some(items) =>
      var t1 := AddItems(t, items);
      t1.(orderSets := Mark(t1.orderSets, SeenIn(items), k))
  }

  function Tallied(orders: seq<Order>): Tally
    decreases |orders|
  {
    if |orders| == 0 then EMPTY
    else AddOrder(Tallied(orders[..|orders| - 1]), orders[|orders| - 1], |orders| - 1)
  }

  lemma AddItemOk(t: Tally, it: Item)
    requires TallyOk(t)
    ensures TallyOk(AddItem(t, it))
  {
  }

  lemma {:induction false} AddItemsOk(t: Tally, items: seq<Item>)
    requires TallyOk(t)
    ensures TallyOk(AddItems(t, items))
    decreases |items|
  {
    if |items| > 0 {
      AddItemsOk(t, items[..|items| - 1]);
      AddItemOk(AddItems(t, items[..|items| - 1]), items[|items| - 1]);
    }
  }

  /** The pass keeps the dictionaries consistent. */
  lemma {:induction false} TalliedOk(orders: seq<Order>)
    ensures TallyOk(Tallied(orders))
    decreases |orders|
  {
    if |orders| > 0 {
      var init := orders[..|orders| - 1];
      TalliedOk(init);
      AddItemsOk(Tallied(init), ItemsOf(orders[|orders| - 1]));
    }
  }

  /** The two nested `forEach` loops. */
  method Aggregate(orders: seq<Order>)
    returns (keys: seq<string>, stats: map<string, Stat>, orderSets: map<string, set<nat>>)
    ensures Tally(keys, stats, orderSets) == Tallied(orders)
  {
    keys, stats, orderSets := [], map[], map[];
    for k := 0 to |orders|
      invariant Tally(keys, stats, orderSets) == Tallied(orders[..k])
    {
      assert orders[..k + 1][..k] == orders[..k];
      ghost var before := Tallied(orders[..k]);
      var seen: set<string> := {};
      if orders[k].items.Some? {
        var items := orders[k].items.value;
        for j := 0 to |items|
          invariant Tally(keys, stats, orderSets) == AddItems(before, items[..j])
          invariant seen == SeenIn(items[..j])
        {
          assert items[..j + 1][..j] == items[..j];
          ghost var prev := Tally(keys, stats, orderSets);
          var it := items[j];
          if Accepted(it) {
            if it.id !in stats {
              keys := keys + [it.id];
              stats := stats[it.id := Created(it)];
              orderSets := orderSets[it.id := {}];
            }
            ghost var created := Tally(keys, stats, orderSets);
            var s := stats[it.id];
            stats := stats[it.id := s.(quantitySold := s.quantitySold + it.quantity)];
            seen := seen + {it.id};
            assert Tally(keys, stats, orderSets) == created.(stats := created.stats[it.id := s.(quantitySold := s.quantitySold + it.quantity)]);
          }
          assert Tally(keys, stats, orderSets) == AddItem(prev, it);
          SeenInLast(items[..j + 1]);
        }
        assert items[..|items|] == items;
        orderSets := Mark(orderSets, seen, k);
      }
    }
    assert orders[..|orders|] == orders;
  }

  lemma SeenInLast(items: seq<Item>)
    requires |items| > 0
    ensures SeenIn(items) == SeenIn(items[..|items| - 1]) +
      (if Accepted(items[|items| - 1]) then {items[|items| - 1].id} else {})
  {
    var init := items[..|items| - 1];
    forall id | id in SeenIn(init) ensures id in SeenIn(items) {
      var i :| 0 <= i < |init| && Accepted(init[i]) && init[i].id == id;
      assert items[i] == init[i];
    }
    forall id | id in SeenIn(items)
      ensures id in SeenIn(init) || (Accepted(items[|items| - 1]) && id == items[|items| - 1].id)
    {
      var i :| 0 <= i < |items| && Accepted(items[i]) && items[i].id == id;
      if i < |init| {
        assert init[i] == items[i];
      }
    }
  }

  /** `Object.keys(orderMap).forEach(pid => stats[pid].orderCount = orderMap[pid].size)`
      followed by `Object.values(stats)`. */
  function Counted(t: Tally): (r: seq<Stat>)
    requires TallyOk(t)
    ensures |r| == |t.keys|
  {
    seq(|t.keys|, i requires 0 <= i < |t.keys| =>
      t.stats[t.keys[i]].(orderCount := |t.orderSets[t.keys[i]]|))
  }

  function Repeat(): Stat -> bool
  {
    (s: Stat) => s.orderCount >= MIN_ORDERS
  }

  function SoldKey(): Stat -> int
  {
    (s: Stat) => s.quantitySold
  }

  /** `.filter(p => p.orderCount >= 2).sort((a, b) => b.quantitySold - a.quantitySold).slice(0, 6)`. */
  function Top(values: seq<Stat>): seq<Stat>
  {
    Take(SortDesc(Filter(values, Repeat()), SoldKey()), SHOWN)
  }

  /** What the section shows for a successful read of the orders collection. */
  function TopSellingOf(orders: seq<Order>): seq<Stat>
  {
    if |orders| == 0 then []
    else
      TalliedOk(orders);
      Top(Counted(Tallied(orders)))
  }

  // ---------------------------------------------------------------------
  // reference definitions: first accepted line, units, orders

  /** An accepted line of product `id`. */
  predicate Matches(it: Item, id: string)
  {
    Accepted(it) && it.id == id
  }

  /** The first accepted line with this id. */
  function FirstWith(items: seq<Item>, id: string): Option<Item>
    decreases |items|
  {
    if |items| == 0 then None
    else
      var p := FirstWith(items[..|items| - 1], id);
      if p.Some? then p
      else if Matches(items[|items| - 1], id) then Some(items[|items| - 1])
      else None
  }

  /** The order holds an accepted line of product `id`. */
  predicate Sells(o: Order, id: string)
  {
    FirstWith(ItemsOf(o), id).Some?
  }

  /** The first accepted line with this id, over the orders in order. */
  function FirstIn(orders: seq<Order>, id: string): Option<Item>
    decreases |orders|
  {
    if |orders| == 0 then None
    else
      var p := FirstIn(orders[..|orders| - 1], id);
      if p.Some? then p else FirstWith(ItemsOf(orders[|orders| - 1]), id)
  }

  /** `FirstWith` finds a line exactly when one matches, and what it finds
      is a matching line with no matching line before it. */
  lemma {:induction false} FirstWithSpec(items: seq<Item>, id: string)
    ensures FirstWith(items, id).Some? <==> exists i :: 0 <= i < |items| && Matches(items[i], id)
    ensures FirstWith(items, id).Some? ==>
      exists i :: 0 <= i < |items| && items[i] == FirstWith(items, id).value && Matches(items[i], id) &&
                  forall j :: 0 <= j < i ==> !Matches(items[j], id)
    decreases |items|
  {
    if |items| > 0 {
      var init := items[..|items| - 1];
      FirstWithSpec(init, id);
      assert forall i :: 0 <= i < |init| ==> init[i] == items[i];
    }
  }

  /** `FirstIn` finds a line exactly when some order sells the product, and
      it is the first line of the first such order. */
  lemma {:induction false} FirstInSpec(orders: seq<Order>, id: string)
    ensures FirstIn(orders, id).Some? <==> exists k :: 0 <= k < |orders| && Sells(orders[k], id)
    ensures FirstIn(orders, id).Some? ==>
      exists k :: 0 <= k < |orders| && FirstWith(ItemsOf(orders[k]), id) == FirstIn(orders, id) &&
                  forall j :: 0 <= j < k ==> !Sells(orders[j], id)
    decreases |orders|
  {
    if |orders| > 0 {
      var init := orders[..|orders| - 1];
      FirstInSpec(init, id);
      assert forall k :: 0 <= k < |init| ==> init[k] == orders[k];
    }
  }

  function AcceptedQty(id: string): Item -> int
  {
    (it: Item) => if Matches(it, id) then it.quantity else 0
  }

  function OrderQty(id: string): Order -> int
  {
    (o: Order) => Sum(ItemsOf(o), AcceptedQty(id))
  }

  /** Units of `id` over its accepted lines, in every order. */
  function SoldOf(orders: seq<Order>, id: string): int
  {
    Sum(orders, OrderQty(id))
  }

  /** The positions of the orders holding an accepted line with this id. */
  function OrdersWith(orders: seq<Order>, id: string): set<nat>
  {
    set k: nat | k < |orders| && Sells(orders[k], id)
  }

  /** The record the pass is meant to hold for `id`. */
  function StatFor(orders: seq<Order>, id: string): Stat
    requires FirstIn(orders, id).Some?
  {
    Created(FirstIn(orders, id).value).(quantitySold := SoldOf(orders, id), orderCount := |OrdersWith(orders, id)|)
  }

  // ---------------------------------------------------------------------
  // the pass against the reference definitions

  lemma AddItemStep(t: Tally, it: Item, id: string)
    requires TallyOk(t)
    ensures var u := AddItem(t, it);
      (id in u.stats <==> id in t.stats || (Accepted(it) && it.id == id)) &&
      (id in t.stats ==> u.stats[id] == t.stats[id].(quantitySold := t.stats[id].quantitySold + AcceptedQty(id)(it)) &&
                         u.orderSets[id] == t.orderSets[id]) &&
      (id !in t.stats && Accepted(it) && it.id == id ==>
         u.stats[id] == Created(it).(quantitySold := it.quantity) && u.orderSets[id] == {})
  {
  }

  /** The inner loop: a product already known gains the units of its
      accepted lines; a new product's record comes from its first accepted
      line; a product without an accepted line is untouched. */
  lemma {:induction false} AddItemsSpec(t: Tally, items: seq<Item>, id: string)
    requires TallyOk(t)
    ensures var u := AddItems(t, items);
      (id in u.stats <==> id in t.stats || FirstWith(items, id).Some?) &&
      (FirstWith(items, id).None? ==> Sum(items, AcceptedQty(id)) == 0) &&
      (id in t.stats ==> u.stats[id] == t.stats[id].(quantitySold := t.stats[id].quantitySold + Sum(items, AcceptedQty(id))) &&
                         id in u.orderSets && u.orderSets[id] == t.orderSets[id]) &&
      (id !in t.stats && FirstWith(items, id).Some? ==>
         u.stats[id] == Created(FirstWith(items, id).value).(quantitySold := Sum(items, AcceptedQty(id))) &&
         id in u.orderSets && u.orderSets[id] == {})
    decreases |items|
  {
    if |items| > 0 {
      var init := items[..|items| - 1];
      AddItemsSpec(t, init, id);
      AddItemsOk(t, init);
      AddItemStep(AddItems(t, init), items[|items| - 1], id);
    }
  }

  lemma SeenInSpec(items: seq<Item>, id: string)
    ensures id in SeenIn(items) <==> FirstWith(items, id).Some?
  {
    FirstWithSpec(items, id);
    if FirstWith(items, id).Some? {
      var i :| 0 <= i < |items| && Matches(items[i], id);
      assert items[i].id in SeenIn(items);
    }
  }

  lemma OrdersWithLast(orders: seq<Order>, id: string)
    requires |orders| > 0
    ensures OrdersWith(orders, id) == OrdersWith(orders[..|orders| - 1], id) +
      (if Sells(orders[|orders| - 1], id) then {|orders| - 1} else {})
  {
    var init := orders[..|orders| - 1];
    assert forall k :: 0 <= k < |init| ==> init[k] == orders[k];
  }

  /** The whole pass: a product has a record exactly when some order holds
      an accepted line for it; the record's name, image and price come from
      the first such line, its units are the sum over all such lines, and its
      order set is the set of orders holding one. */
  lemma {:induction false} TalliedSpec(orders: seq<Order>, id: string)
    ensures var t := Tallied(orders);
      (id in t.stats <==> FirstIn(orders, id).Some?) &&
      (FirstIn(orders, id).None? ==> SoldOf(orders, id) == 0 && OrdersWith(orders, id) == {}) &&
      (id in t.stats ==> t.stats[id] == Created(FirstIn(orders, id).value).(quantitySold := SoldOf(orders, id)) &&
                         id in t.orderSets && t.orderSets[id] == OrdersWith(orders, id))
    decreases |orders|
  {
    if |orders| > 0 {
      var init := orders[..|orders| - 1];
      var o := orders[|orders| - 1];
      var k := |orders| - 1;
      TalliedSpec(init, id);
      TalliedOk(init);
      OrdersWithLast(orders, id);
      assert SoldOf(orders, id) == SoldOf(init, id) + Sum(ItemsOf(o), AcceptedQty(id));
      var t := Tallied(init);
      AddItemsSpec(t, ItemsOf(o), id);
      SeenInSpec(ItemsOf(o), id);
    }
  }

  /** Every product of the tally is counted in at least one and at most all
      of the orders. */
  lemma {:induction false} OrderCountBounds(orders: seq<Order>, id: string)
    ensures |OrdersWith(orders, id)| <= |orders|
    ensures FirstIn(orders, id).Some? ==> 1 <= |OrdersWith(orders, id)|
    decreases |orders|
  {
    if |orders| > 0 {
      OrdersWithLast(orders, id);
      OrderCountBounds(orders[..|orders| - 1], id);
    }
    FirstInSpec(orders, id);
    if FirstIn(orders, id).Some? {
      var k :| 0 <= k < |orders| && Sells(orders[k], id);
      assert k in OrdersWith(orders, id);
    }
  }

  /** The values the section ranks are exactly the intended records, one
      per product. */
  lemma CountedSpec(orders: seq<Order>)
    ensures TallyOk(Tallied(orders))
    ensures var c := Counted(Tallied(orders));
      (forall x :: x in c ==> FirstIn(orders, x.id).Some? && x == StatFor(orders, x.id)) &&
      (forall id :: FirstIn(orders, id).Some? ==> StatFor(orders, id) in c)
  {
    TalliedOk(orders);
    var t := Tallied(orders);
    var c := Counted(t);
    forall x | x in c ensures FirstIn(orders, x.id).Some? && x == StatFor(orders, x.id) {
      var i :| 0 <= i < |c| && c[i] == x;
      TalliedSpec(orders, t.keys[i]);
    }
    forall id | FirstIn(orders, id).Some? ensures StatFor(orders, id) in c {
      TalliedSpec(orders, id);
      var i :| 0 <= i < |t.keys| && t.keys[i] == id;
      assert c[i] == StatFor(orders, id);
    }
  }

  /** The ranking step alone: at most six records, most units first, each
      from the list and in two orders or more; a qualifying record left out
      means six were shown, none of them with fewer units. */
  lemma TopSpec(values: seq<Stat>)
    ensures var r := Top(values);
      |r| <= SHOWN && SortedDesc(r, SoldKey()) &&
      (forall x :: x in r ==> x in values && x.orderCount >= MIN_ORDERS) &&
      (forall y :: y in values && y.orderCount >= MIN_ORDERS && y !in r ==>
         |r| == SHOWN && forall x :: x in r ==> x.quantitySold >= y.quantitySold)
  {
    var f := Filter(values, Repeat());
    var s := SortDesc(f, SoldKey());
    SortDescSorted(f, SoldKey());
    var r := Take(s, SHOWN);
    forall x | x in r ensures x in values && x.orderCount >= MIN_ORDERS {
      assert x in multiset(s);
    }
    forall y | y in values && y.orderCount >= MIN_ORDERS && y !in r
      ensures |r| == SHOWN && forall x :: x in r ==> x.quantitySold >= y.quantitySold
    {
      assert y in multiset(s);
      var p :| 0 <= p < |s| && s[p] == y;
      forall x | x in r ensures x.quantitySold >= y.quantitySold {
        var i :| 0 <= i < |r| && r[i] == x;
        assert s[i] == x;
      }
    }
  }

  /** The section shows at most six products, most units first; each has an
      accepted line in at least two orders and shows its true totals; and a
      product in at least two orders that is left out sold no more than every
      product shown, of which there are six. */
  lemma TopSellingSpec(orders: seq<Order>)
    ensures var r := TopSellingOf(orders);
      |r| <= SHOWN && SortedDesc(r, SoldKey()) &&
      (forall x :: x in r ==> x.orderCount >= MIN_ORDERS && FirstIn(orders, x.id).Some? && x == StatFor(orders, x.id)) &&
      (forall id :: FirstIn(orders, id).Some? && |OrdersWith(orders, id)| >= MIN_ORDERS && StatFor(orders, id) !in r ==>
         |r| == SHOWN && forall x :: x in r ==> x.quantitySold >= SoldOf(orders, id))
  {
    if |orders| > 0 {
      CountedSpec(orders);
      TopSpec(Counted(Tallied(orders)));
    }
  }

  // ---------------------------------------------------------------------
  // the component

  /** The product link: `/product/` and the slug of the name. */
  function ProductLink(s: Stat): string
  {
    "/product/" + Slug(s.name)
  }

  /** A link path holds no whitespace after its prefix and no upper-case letter. */
  lemma ProductLinkShape(s: Stat)
    ensures var l := ProductLink(s);
      StartsWith(l, "/product/") &&
      forall i :: 9 <= i < |l| ==> !IsSpace(l[i]) && !('A' <= l[i] <= 'Z')
  {
    SlugIsNormal(s.name);
    var l := ProductLink(s);
    forall i | 9 <= i < |l| ensures !IsSpace(l[i]) && !('A' <= l[i] <= 'Z') {
      assert l[i] == Slug(s.name)[i - 9];
    }
  }

  /** The component's state. */
  class TopSellingSection {
    var topProducts: seq<Stat>
    var loading: bool

    constructor()
      ensures topProducts == [] && loading
    {
      topProducts := [];
      loading := true;
    }

    /** `fetchTopSelling`. `snapshot` is the orders collection, `None` when
        the read throws; a failure leaves the list as it was. */
    method FetchTopSelling(snapshot: Option<seq<Order>>)
      modifies this
      ensures topProducts == if snapshot.None? then old(topProducts) else TopSellingOf(snapshot.value)
      ensures !loading
    {
      loading := true;
      if snapshot.None? {
        loading := false;
        return;
      }
      var orders := snapshot.value;
      if |orders| == 0 {
        topProducts := [];
        loading := false;
        return;
      }
      var keys, stats, orderSets := Aggregate(orders);
      TalliedOk(orders);
      stats := map pid | pid in orderSets :: stats[pid].(orderCount := |orderSets[pid]|);
      var values := seq(|keys|, i requires 0 <= i < |keys| && keys[i] in stats => stats[keys[i]]);
      assert values == Counted(Tallied(orders));
      topProducts := Top(values);
      loading := false;
    }
  }
}
