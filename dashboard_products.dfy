/** The dashboard's product panel: it loads the catalogue listing, counts
    products by their raw stock figure, and edits stock or discount in the
    local list after a successful remote write. Its gate reads the same
    missing `user` as the admin table's. */
module DashboardProducts {
  import opened Base
  import opened Catalog
  import opened Auth
  import opened Contentful
  import AdminProducts

  /** `p.inStock > 0`. */
  function PositiveStock(): Product -> bool
  {
    (p: Product) => p.inStock.Some? && p.inStock.value > 0
  }

  /** `p.inStock === 0`. */
  function ZeroStock(): Product -> bool
  {
    (p: Product) => p.inStock == Some(0)
  }

  function InStockCount(products: seq<Product>): nat
  {
    |Filter(products, PositiveStock())|
  }

  function OutOfStockCount(products: seq<Product>): nat
  {
    |Filter(products, ZeroStock())|
  }

  /** A product with negative or missing stock is in neither count, so the
      counts add up to the total exactly when every figure is a number no
      smaller than zero. */
  lemma CountsMissNegativeStock(products: seq<Product>)
    ensures InStockCount(products) + OutOfStockCount(products) <= |products|
    ensures InStockCount(products) + OutOfStockCount(products) == |products| <==>
      forall p :: p in products ==> p.inStock.Some? && p.inStock.value >= 0
  {
    FilterDisjoint(products, PositiveStock(), ZeroStock());
  }

  /** On a list straight from the catalogue listing, which carries no stock
      figures, both counts are zero. */
  lemma ListingCountsNothing(space: seq<DeliveryEntry>)
    ensures InStockCount(FetchProducts(space)) == 0 && OutOfStockCount(FetchProducts(space)) == 0
  {
    var r := FetchProducts(space);
    FetchProductsSpec(space);
    FilterNone(r, PositiveStock());
    FilterNone(r, ZeroStock());
  }

  class ProductsPanel {
    var products: seq<Product>
    var loading: bool

    constructor()
      ensures products == [] && loading
    {
      products := [];
      loading := true;
    }

    /** The mount effect: `listing` is the listing, `None` when it throws. */
    method Load(listing: Option<seq<Product>>)
      modifies this
      ensures products == (if listing.Some? then listing.value else old(products))
      ensures !loading
    {
      if listing.Some? {
        products := listing.value;
      }
      loading := false;
    }

    /** `updateStock`: the products with that id take the new figure, only
        after the remote write succeeded. */
    method UpdateStock(id: string, newStock: int, writeOk: bool)
      modifies this
      ensures products == if writeOk then WithStock(old(products), id, newStock) else old(products)
      ensures loading == old(loading)
    {
      if writeOk {
        products := WithStock(products, id, newStock);
      }
    }

    /** `updateDiscount`: the same for the discount percentage. */
    method UpdateDiscount(id: string, d: int, writeOk: bool)
      modifies this
      ensures products == if writeOk then WithDiscount(old(products), id, d) else old(products)
      ensures loading == old(loading)
    {
      if writeOk {
        products := WithDiscount(products, id, d);
      }
    }
  }

  /** The refusal; the counts line above "Loading..."; or the counts line
      above the table. */
  datatype View =
    | NotAuthorised
    | Loading(total: nat, inStock: nat, outOfStock: nat)
    | Table(total: nat, inStock: nat, outOfStock: nat, rows: seq<Product>)

  /** The page once the gate has answered `admitted`, with the panel's
      `loading` flag; the component passes `AdminProducts.GateAsWritten`,
      the same check on the missing `user`. */
  function Page(admitted: bool, loading: bool, products: seq<Product>, search: string): (v: View)
    ensures !admitted <==> v.NotAuthorised?
    ensures v.Loading? <==> admitted && loading
    ensures !v.NotAuthorised? ==>
      v.total == |products| && v.inStock == InStockCount(products) && v.outOfStock == OutOfStockCount(products)
    ensures v.Table? ==> v.rows == SearchByName(products, search)
  {
    if !admitted then NotAuthorised
    else if loading then Loading(|products|, InStockCount(products), OutOfStockCount(products))
    else Table(|products|, InStockCount(products), OutOfStockCount(products), SearchByName(products, search))
  }

  /** As written, with the admin e-mail configured, the panel refuses the
      admin signed in with that very e-mail, loaded or not. */
  lemma AsWrittenPageRefusesAdmin(ctx: ContextValue, a: string, loading: bool, products: seq<Product>, search: string)
    requires ctx.currentUser.Some? && ctx.currentUser.value.email == Some(a)
    ensures Page(AdminProducts.GateAsWritten(ctx, Some(a)), loading, products, search) == NotAuthorised
  {
    AdminProducts.GateAsWrittenIgnoresUser(ctx, Some(a));
  }

  /** Gated by the corrected `AdminProducts.Gate`, the same admin sees the
      counts, then the panel's table once loading has ended. */
  lemma CorrectedPageAdmitsAdmin(ctx: ContextValue, a: string, loading: bool, products: seq<Product>, search: string)
    requires ctx.currentUser.Some? && ctx.currentUser.value.email == Some(a)
    ensures var v := Page(AdminProducts.Gate(ctx, Some(a)), loading, products, search);
      !v.NotAuthorised? && (v.Table? <==> !loading)
  {
    AdminProducts.GateAdmitsOnlyAdmin(ctx, a);
  }

  /** A stock edit changes the stock figure of the products with that id
      and nothing else of any product. */
  lemma StockEditTouchesOnlyTarget(products: seq<Product>, id: string, v: int)
    ensures var t := WithStock(products, id, v);
      |t| == |products| &&
      (forall i :: 0 <= i < |products| ==>
        (t[i].id == id ==> t[i].inStock == Some(v)) &&
        (t[i].id != id ==> t[i] == products[i]) &&
        t[i].(inStock := products[i].inStock) == products[i])
  {
  }
}
