/** The admin stock table: the name search, the in/out-of-stock counts over
    reconciled stock, the per-row badges, the default seven-day window, the
    discount update after a remote write, and the admin gate, which reads a
    `user` field the context does not provide: `GateAsWritten` as the code
    has it, which the page receives, and `Gate`, the corrected check. */
module AdminProducts {
  import opened Base
  import opened Text
  import opened Catalog
  import opened Ledger
  import opened Auth
  import opened ProductsAndOrders

  const LOW_STOCK_THRESHOLD := 5

  /** The stock figure a row shows: the reconciled stock of the product. */
  function RowStock(orders: seq<Order>, p: Product): Option<int>
  {
    Reconciled(orders, p.id, p.inStock)
  }

  /** `getUpdatedStock(p.id, p.inStock) > 0`; `undefined > 0` is false. */
  function InStockTest(orders: seq<Order>): Product -> bool
  {
    (p: Product) => RowStock(orders, p).Some? && RowStock(orders, p).value > 0
  }

  /** `getUpdatedStock(p.id, p.inStock) <= 0`; `undefined <= 0` is false too. */
  function OutOfStockTest(orders: seq<Order>): Product -> bool
  {
    (p: Product) => RowStock(orders, p).Some? && RowStock(orders, p).value <= 0
  }

  function InStockCount(products: seq<Product>, orders: seq<Order>): nat
  {
    |Filter(products, InStockTest(orders))|
  }

  function OutOfStockCount(products: seq<Product>, orders: seq<Order>): nat
  {
    |Filter(products, OutOfStockTest(orders))|
  }

  /** The two counts never overlap. They add up to the total whenever some
      order is loaded (reconciled stock is then always a number), and in
      general exactly when no product's figure is `undefined`. */
  lemma CountsPartition(products: seq<Product>, orders: seq<Order>)
    ensures InStockCount(products, orders) + OutOfStockCount(products, orders) <= |products|
    ensures InStockCount(products, orders) + OutOfStockCount(products, orders) == |products| <==>
      forall p :: p in products ==> RowStock(orders, p).Some?
    ensures |orders| > 0 ==> InStockCount(products, orders) + OutOfStockCount(products, orders) == |products|
  {
    FilterDisjoint(products, InStockTest(orders), OutOfStockTest(orders));
  }

  /** "Low in Stock!": `updatedStock <= 5 && updatedStock > 0`. */
  predicate LowBadge(v: Option<int>)
  {
    v.Some? && v.value <= LOW_STOCK_THRESHOLD && v.value > 0
  }

  /** "Out of Stock!": `updatedStock <= 0`. */
  predicate OutBadge(v: Option<int>)
  {
    v.Some? && v.value <= 0
  }

  /** A row never shows both badges; "Out of Stock!" marks exactly the rows
      the out-of-stock count counts, and a low row is counted as in stock. */
  lemma BadgesAgreeWithCounts(orders: seq<Order>, p: Product)
    ensures !(LowBadge(RowStock(orders, p)) && OutBadge(RowStock(orders, p)))
    ensures OutBadge(RowStock(orders, p)) <==> OutOfStockTest(orders)(p)
    ensures LowBadge(RowStock(orders, p)) ==> InStockTest(orders)(p)
    ensures InStockTest(orders)(p) && !LowBadge(RowStock(orders, p)) ==> RowStock(orders, p).value > LOW_STOCK_THRESHOLD
  {
  }

  datatype Row = Row(product: Product, stock: Option<int>, low: bool, out: bool)

  /** The refusal; the counts line above "Loading..."; or the counts line
      above the table. */
  datatype View =
    | NotAuthorised
    | Loading(total: nat, inStock: nat, outOfStock: nat)
    | Table(total: nat, inStock: nat, outOfStock: nat, rows: seq<Row>)

  // ---------------------------------------------------------------------
  // the admin gate

  /** `isAdmin(user?.email)` as written: the context value has no `user`,
      so the e-mail compared is always `undefined`. */
  predicate GateAsWritten(ctx: ContextValue, adminEmail: Option<string>)
  {
    EmailIsAdmin(None, adminEmail)
  }

  /** Who is let in does not depend on who is signed in: everybody when the
      admin e-mail variable is unset, nobody when it is set. */
  lemma GateAsWrittenIgnoresUser(ctx: ContextValue, adminEmail: Option<string>)
    ensures GateAsWritten(ctx, adminEmail) <==> adminEmail.None?
    ensures adminEmail.Some? && ctx.currentUser.Some? && ctx.currentUser.value.email == adminEmail ==>
      !GateAsWritten(ctx, adminEmail)
  {
  }

  function EmailOf(u: Option<User>): Option<string>
  {
    if u.Some? then u.value.email else None
  }

  /** The gate reading the signed-in user's e-mail. */
  predicate Gate(ctx: ContextValue, adminEmail: Option<string>)
  {
    EmailIsAdmin(EmailOf(ctx.currentUser), adminEmail)
  }

  /** With the admin e-mail configured, exactly the user signed in with it
      is let in. */
  lemma GateAdmitsOnlyAdmin(ctx: ContextValue, a: string)
    ensures Gate(ctx, Some(a)) <==> ctx.currentUser.Some? && ctx.currentUser.value.email == Some(a)
  {
  }

  /** The page once the gate has answered `admitted`, with the hook's
      `loading` flag: the unauthorised message; or the counts over every
      product, followed by "Loading..." while loading and otherwise by one
      row per product the search keeps. The component passes `GateAsWritten`. */
  function Page(admitted: bool, loading: bool, products: seq<Product>, orders: seq<Order>, search: string): (v: View)
    ensures !admitted <==> v.NotAuthorised?
    ensures v.Loading? <==> admitted && loading
    ensures !v.NotAuthorised? ==>
      v.total == |products| && v.inStock == InStockCount(products, orders) &&
      v.outOfStock == OutOfStockCount(products, orders)
    ensures v.Table? ==> |v.rows| == |SearchByName(products, search)|
    ensures v.Table? ==> forall i :: 0 <= i < |v.rows| ==>
      var p := SearchByName(products, search)[i];
      v.rows[i].product == p && v.rows[i].stock == RowStock(orders, p) &&
      (v.rows[i].low <==> LowBadge(RowStock(orders, p))) && (v.rows[i].out <==> OutBadge(RowStock(orders, p)))
  {
    if !admitted then NotAuthorised
    else if loading then Loading(|products|, InStockCount(products, orders), OutOfStockCount(products, orders))
    else
      var shown := SearchByName(products, search);
      Table(|products|, InStockCount(products, orders), OutOfStockCount(products, orders),
            seq(|shown|, i requires 0 <= i < |shown| =>
              var s := RowStock(orders, shown[i]);
              Row(shown[i], s, LowBadge(s), OutBadge(s))))
  }

  /** As written, with the admin e-mail configured, the page refuses the
      admin signed in with that very e-mail, loaded or not. */
  lemma AsWrittenPageRefusesAdmin(ctx: ContextValue, a: string, loading: bool, products: seq<Product>,
                                  orders: seq<Order>, search: string)
    requires ctx.currentUser.Some? && ctx.currentUser.value.email == Some(a)
    ensures Page(GateAsWritten(ctx, Some(a)), loading, products, orders, search) == NotAuthorised
  {
    GateAsWrittenIgnoresUser(ctx, Some(a));
  }

  /** Gated by `Gate`, the same admin sees the counts, then the table once
      loading has ended. */
  lemma CorrectedPageAdmitsAdmin(ctx: ContextValue, a: string, loading: bool, products: seq<Product>,
                                 orders: seq<Order>, search: string)
    requires ctx.currentUser.Some? && ctx.currentUser.value.email == Some(a)
    ensures var v := Page(Gate(ctx, Some(a)), loading, products, orders, search);
      !v.NotAuthorised? && (v.Table? <==> !loading)
  {
    GateAdmitsOnlyAdmin(ctx, a);
  }

  // ---------------------------------------------------------------------
  // the date window

  datatype DateRange = DateRange(startDate: int, endDate: int)

  /** The initial range: the same local time seven days ago, to now. */
  function DefaultRange(now: int): DateRange
  {
    DateRange(now - 7 * DAY_MS, now)
  }

  /** The default window runs from midnight seven days ago to the end of
      today: eight whole local days, so every order placed in the last
      seven days counts. */
  lemma DefaultWindow(now: int, tz: int, o: Order, t: int)
    ensures DayEnd(now, tz) + 1 - DayStart(now - 7 * DAY_MS, tz) == 8 * DAY_MS
    ensures OrderInstant(o.createdAt) == Some(t) && now - 7 * DAY_MS <= t <= now ==>
      InWindow(o, DefaultRange(now).startDate, DefaultRange(now).endDate, tz)
  {
    assert (now - 7 * DAY_MS + tz) % DAY_MS == (now + tz) % DAY_MS;
  }

  // ---------------------------------------------------------------------
  // updateDiscount

  /** `updateDiscount`: a successful remote write sets the discount of the
      products with that id; a failed one changes nothing. */
  method UpdateDiscount(hook: ProductsHook, id: string, d: int, writeOk: bool)
    modifies hook
    ensures hook.products == if writeOk then WithDiscount(old(hook.products), id, d) else old(hook.products)
    ensures hook.orders == old(hook.orders) && hook.loading == old(hook.loading)
  {
    if writeOk {
      hook.products := WithDiscount(hook.products, id, d);
    }
  }

  /** A discount change moves no product between the stock counts. */
  lemma DiscountKeepsCounts(products: seq<Product>, orders: seq<Order>, id: string, d: int)
    ensures InStockCount(WithDiscount(products, id, d), orders) == InStockCount(products, orders)
    ensures OutOfStockCount(WithDiscount(products, id, d), orders) == OutOfStockCount(products, orders)
  {
    var t := WithDiscount(products, id, d);
    FilterSameCount(products, t, InStockTest(orders));
    FilterSameCount(products, t, OutOfStockTest(orders));
  }
}
