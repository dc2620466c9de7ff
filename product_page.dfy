/** The product page: how many units of the product are already in the cart,
    the out-of-stock gate on "Add to Cart", the discount flag and "Buy Now". */
module ProductPage {
  import opened Base
  import opened Catalog
  import opened CartStore

  /** `cartItems.find(item => item.id === id)?.quantity || 0`. */
  function QuantityInCart(cart: seq<Line>, id: string): (q: int)
    ensures !HasLine(cart, id) ==> q == 0
    decreases |cart|
  {
    if |cart| == 0 then 0
    else if cart[0].item.id == id then cart[0].quantity
    else QuantityInCart(cart[1..], id)
  }

  /** On a cart with one line per product the quantity is that line's. */
  lemma {:induction false} QuantityOfLine(cart: seq<Line>, k: int)
    requires UniqueIds(cart) && 0 <= k < |cart|
    ensures QuantityInCart(cart, cart[k].item.id) == cart[k].quantity
    decreases |cart|
  {
    if k > 0 {
      assert cart[0].item.id != cart[k].item.id;
      assert cart[1..][k - 1] == cart[k];
      QuantityOfLine(cart[1..], k - 1);
    }
  }

  /** `product.inStock !== undefined && quantityInCart >= product.inStock`. */
  predicate IsOutOfStock(p: Product, cart: seq<Line>)
  {
    p.inStock.Some? && QuantityInCart(cart, p.id) >= p.inStock.value
  }

  /** `product.price && product.discountPercent > 0`. */
  predicate HasDiscount(p: Product)
  {
    p.price != 0 && p.discountPercent.Some? && p.discountPercent.value > 0
  }

  datatype AddButton = AddButton(disabled: bool, caption: string)

  function AddButtonFor(p: Product, cart: seq<Line>): (b: AddButton)
    ensures b.disabled <==> IsOutOfStock(p, cart)
    ensures b.caption == (if b.disabled then "Out of Stock" else "Add to Cart")
  {
    var out := IsOutOfStock(p, cart);
    AddButton(out, if out then "Out of Stock" else "Add to Cart")
  }

  /** The cart line fields a product page hands to `addToCart`. */
  function AsMerch(p: Product, discountedPrice: Option<int>): Merch
  {
    Merch(p.id, p.name, p.image.GetOr(""), p.price, discountedPrice, p.costPrice, p.inStock)
  }

  /** `{ ...product, discountedPrice: product.discountedPrice ?? product.price }`. */
  function BuyNowMerch(p: Product): (m: Merch)
    ensures m.id == p.id && m.price == p.price
    ensures m.discountedPrice == Some(if p.discountedPrice.Some? then p.discountedPrice.value else p.price)
  {
    AsMerch(p, Some(p.discountedPrice.GetOr(p.price)))
  }

  /** "Buy Now": always goes to `/checkout`; adds the product first unless
      the page shows it out of stock. */
  method BuyNow(store: Store, p: Product) returns (target: string)
    requires store.Valid()
    modifies store
    ensures store.Valid() && target == "/checkout"
    ensures IsOutOfStock(p, old(store.cart)) ==> store.cart == old(store.cart)
    ensures !IsOutOfStock(p, old(store.cart)) ==> store.cart == Added(old(store.cart), BuyNowMerch(p))
  {
    if IsOutOfStock(p, store.cart) {
      target := "/checkout";
    } else {
      store.AddToCart(BuyNowMerch(p));
      target := "/checkout";
    }
  }

  /** "Add to Cart": a disabled button does nothing; otherwise the product is
      added as it is. */
  method AddToCartClick(store: Store, p: Product)
    requires store.Valid()
    modifies store
    ensures store.Valid()
    ensures AddButtonFor(p, old(store.cart)).disabled ==> store.cart == old(store.cart)
    ensures !AddButtonFor(p, old(store.cart)).disabled ==> store.cart == Added(old(store.cart), AsMerch(p, p.discountedPrice))
  {
    if !IsOutOfStock(p, store.cart) {
      store.AddToCart(AsMerch(p, p.discountedPrice));
    }
  }

  /** Adding through the page raises the product's cart quantity by one. */
  lemma {:induction false} AddRaisesQuantity(cart: seq<Line>, m: Merch)
    requires UniqueIds(cart)
    ensures QuantityInCart(Added(cart, m), m.id) == QuantityInCart(cart, m.id) + 1
  {
    if HasLine(cart, m.id) {
      var k :| 0 <= k < |cart| && cart[k].item.id == m.id;
      AddExisting(cart, m, k);
      QuantityOfLine(cart, k);
      AddedUniqueIds(cart, m);
      QuantityOfLine(Added(cart, m), k);
    } else {
      var r := Added(cart, m);
      AddedUniqueIds(cart, m);
      QuantityOfLine(r, |cart|);
    }
  }

  /** The gate holds the line: starting at or below the stock figure, any
      number of page adds keeps the cart quantity at or below it. */
  lemma GateKeepsWithinStock(p: Product, cart: seq<Line>, m: Merch)
    requires UniqueIds(cart) && m.id == p.id
    requires p.inStock.Some? && QuantityInCart(cart, p.id) <= p.inStock.value
    requires !IsOutOfStock(p, cart)
    ensures QuantityInCart(Added(cart, m), p.id) <= p.inStock.value
  {
    AddRaisesQuantity(cart, m);
  }
}
