/** The product record the storefront passes around, and the list
    operations the admin tables apply to it. */
module Catalog {
  import opened Base
  import opened Text

  /** A catalogue product. Money is in minor units; `inStock`,
      `discountPercent` and `discountedPrice` are `None` when the record
      carries no such field (the CMS listing never does). */
  datatype Product = Product(
    id: string,
    name: string,
    slug: string,
    price: int,
    image: Option<string>,
    category: string,
    description: string,
    isFeatured: bool,
    inStock: Option<int>,
    discountPercent: Option<int>,
    discountedPrice: Option<int>,
    costPrice: int,
    brand: string,
    sizes: Option<seq<string>>,
    colors: Option<seq<string>>,
    tags: Option<seq<string>>)

  function NameMatches(query: string): Product -> bool
  {
    (p: Product) => MatchesQuery(p.name, query)
  }

  /** `products.filter(p => p.name.toLowerCase().includes(search.toLowerCase()))`. */
  function SearchByName(products: seq<Product>, query: string): (r: seq<Product>)
    ensures forall p :: p in r <==> p in products && MatchesQuery(p.name, query)
  {
    Filter(products, NameMatches(query))
  }

  /** The search keeps the relative order of the products it keeps, and an
      empty query keeps every product. */
  lemma SearchKeepsOrder(products: seq<Product>, query: string)
    ensures Subsequence(SearchByName(products, query), products)
    ensures query == "" ==> SearchByName(products, query) == products
  {
    FilterIsSubsequence(products, NameMatches(query));
    if query == "" {
      forall i | 0 <= i < |products| ensures NameMatches(query)(products[i]) {
        EmptyQueryMatches(products[i].name);
      }
      FilterAll(products, NameMatches(query));
    }
  }

  function HasId(id: string): Product -> bool
  {
    (p: Product) => p.id == id
  }

  function SetStock(v: int): Product -> Product
  {
    (p: Product) => p.(inStock := Some(v))
  }

  function SetDiscount(d: int): Product -> Product
  {
    (p: Product) => p.(discountPercent := Some(d))
  }

  /** `prev.map(p => p.id === id ? { ...p, inStock: v } : p)`. */
  function WithStock(products: seq<Product>, id: string, v: int): (r: seq<Product>)
    ensures |r| == |products|
    ensures forall i :: 0 <= i < |products| ==>
      r[i] == (if products[i].id == id then products[i].(inStock := Some(v)) else products[i])
  {
    MapWhere(products, HasId(id), SetStock(v))
  }

  /** `prev.map(p => p.id === id ? { ...p, discountPercent: d } : p)`. */
  function WithDiscount(products: seq<Product>, id: string, d: int): (r: seq<Product>)
    ensures |r| == |products|
    ensures forall i :: 0 <= i < |products| ==>
      r[i] == (if products[i].id == id then products[i].(discountPercent := Some(d)) else products[i])
  {
    MapWhere(products, HasId(id), SetDiscount(d))
  }

  /** Writing the same value twice is the same as writing it once, and a
      product with another id is untouched. */
  lemma {:induction false} WithStockIdempotent(products: seq<Product>, id: string, v: int)
    ensures WithStock(WithStock(products, id, v), id, v) == WithStock(products, id, v)
    ensures forall i :: 0 <= i < |products| && products[i].id != id ==> WithStock(products, id, v)[i] == products[i]
  {
    var once := WithStock(products, id, v);
    var twice := WithStock(once, id, v);
    forall i | 0 <= i < |products| ensures twice[i] == once[i] {
      if products[i].id == id {
        assert once[i].id == id;
      }
    }
  }
}
