/** The cart icon in the navigation bar: a unit count, a badge shown while
    the count is positive, and a click that opens or closes the drawer. */
module CartIcon {
  import opened Base
  import opened CartStore

  function LineQuantity(): Line -> int
  {
    (l: Line) => l.quantity
  }

  /** `cart.reduce((sum, item) => sum + item.quantity, 0)`. */
  function Count(cart: seq<Line>): int
  {
    Sum(cart, LineQuantity())
  }

  predicate BadgeShown(cart: seq<Line>)
  {
    Count(cart) > 0
  }

  /** On a cart the store can hold, the badge shows exactly when the cart has
      a line, and the count is at least the number of lines. */
  lemma BadgeIffLines(cart: seq<Line>)
    requires WellFormed(cart)
    ensures Count(cart) >= |cart|
    ensures BadgeShown(cart) <==> |cart| > 0
    ensures |cart| == 0 ==> Count(cart) == 0
  {
    forall i | 0 <= i < |cart| ensures LineQuantity()(cart[i]) >= 1 {
    }
    SumAtLeastLength(cart, LineQuantity());
  }

  /** Every `addToCart` adds one unit to the count. */
  lemma CountAdded(cart: seq<Line>, m: Merch)
    requires UniqueIds(cart)
    ensures Count(Added(cart, m)) == Count(cart) + 1
  {
    var r := Added(cart, m);
    if HasLine(cart, m.id) {
      var k :| 0 <= k < |cart| && cart[k].item.id == m.id;
      forall i | 0 <= i < |cart| && i != k ensures r[i] == cart[i] {
        assert cart[i].item.id != m.id;
      }
      SumUpdateOne(cart, r, k, LineQuantity());
    } else {
      SumAppend(cart, [Line(m, 1)], LineQuantity());
      assert Sum([Line(m, 1)], LineQuantity()) == 1;
    }
  }

  /** A click toggles the drawer and leaves the cart alone. */
  method Click(store: Store)
    modifies store
    ensures store.isOpen == !old(store.isOpen) && store.cart == old(store.cart)
  {
    store.ToggleCart();
  }
}
