/** The catalogue filter hook: a filters record, its initial value, and the
    memoised list it derives from the products. Prices are in minor units
    while the price range is in major units, so a bound `b` stands for
    `100 * b` minor units. */
module AdvancedProductFilter {
  import opened Base
  import opened Text
  import opened Catalog
  import Contentful

  const DEFAULT_MAX := 1000
  const MINOR_PER_MAJOR := 100

  datatype Filters = Filters(
    category: string,
    brand: string,
    search: string,
    sizes: seq<string>,
    colors: seq<string>,
    tags: seq<string>,
    priceRange: (int, int))

  /** The hook's initial filters. */
  function Initial(defaultCategory: string): (f: Filters)
    ensures f.category == defaultCategory && f.brand == "" && f.search == ""
    ensures f.sizes == [] && f.colors == [] && f.tags == [] && f.priceRange == (0, DEFAULT_MAX)
  {
    Filters(defaultCategory, "", "", [], [], [], (0, DEFAULT_MAX))
  }

  /** The first disjunct of the short-circuit: a category is set and every
      other filter is at its initial value. */
  predicate OnlyCategory(f: Filters)
  {
    f.category != "" && f.brand == "" && f.search == "" &&
    |f.sizes| == 0 && |f.colors| == 0 && |f.tags| == 0 &&
    f.priceRange.0 == 0 && f.priceRange.1 == DEFAULT_MAX
  }

  /** `selected.length === 0 || selected.some(s => have.includes(s))`, on a
      product array that is present. */
  predicate Overlaps(selected: seq<string>, have: Option<seq<string>>)
  {
    |selected| == 0 || (have.Some? && exists i :: 0 <= i < |selected| && selected[i] in have.value)
  }

  /** `have.includes` on a missing array throws a TypeError; the callback
      computes every test before combining them, so a product without one of
      the arrays throws as soon as that list has a choice, whatever its other
      tests give. */
  predicate Throws(f: Filters, p: Product)
  {
    (|f.sizes| > 0 && p.sizes.None?) ||
    (|f.colors| > 0 && p.colors.None?) ||
    (|f.tags| > 0 && p.tags.None?)
  }

  predicate InPriceRange(p: Product, range: (int, int))
  {
    range.0 * MINOR_PER_MAJOR <= p.price && p.price <= range.1 * MINOR_PER_MAJOR
  }

  /** The per-product test of the `filter` branch. */
  predicate Keeps(f: Filters, p: Product)
  {
    (f.category == "" || p.category == f.category) &&
    (f.brand == "" || p.brand == f.brand) &&
    Overlaps(f.sizes, p.sizes) &&
    Overlaps(f.colors, p.colors) &&
    Overlaps(f.tags, p.tags) &&
    InPriceRange(p, f.priceRange) &&
    (f.search == "" || MatchesQuery(p.name, f.search))
  }

  function KeepTest(f: Filters): Product -> bool
  {
    (p: Product) => Keeps(f, p)
  }

  /** What the memoised computation yields: a list, or the TypeError that
      escapes `useMemo`. */
  datatype Listing = Shown(products: seq<Product>) | Threw

  /** `filtered`. */
  function Filtered(products: seq<Product>, f: Filters, defaultCategory: string): Listing
  {
    if OnlyCategory(f) || defaultCategory == "all" then Shown(products)
    else if exists k :: 0 <= k < |products| && Throws(f, products[k]) then Threw
    else Shown(Filter(products, KeepTest(f)))
  }

  /** With the default category "all", or with a category and nothing else
      chosen, the products come back unfiltered, even by category. Otherwise
      the computation throws exactly when some product lacks an array whose
      list has a choice, and else keeps, in order, exactly the products
      passing every test. */
  lemma FilteredSpec(products: seq<Product>, f: Filters, defaultCategory: string)
    ensures defaultCategory == "all" ==> Filtered(products, f, defaultCategory) == Shown(products)
    ensures OnlyCategory(f) ==> Filtered(products, f, defaultCategory) == Shown(products)
    ensures Filtered(products, f, defaultCategory).Threw? <==>
      !OnlyCategory(f) && defaultCategory != "all" && exists p :: p in products && Throws(f, p)
    ensures Filtered(products, f, defaultCategory).Shown? ==>
      Subsequence(Filtered(products, f, defaultCategory).products, products)
    ensures !OnlyCategory(f) && defaultCategory != "all" && Filtered(products, f, defaultCategory).Shown? ==>
      forall p :: p in Filtered(products, f, defaultCategory).products <==> p in products && Keeps(f, p)
  {
    FilterIsSubsequence(products, KeepTest(f));
    SubsequenceRefl(products);
    if exists p :: p in products && Throws(f, p) {
      var p :| p in products && Throws(f, p);
      var k :| 0 <= k < |products| && products[k] == p;
    }
  }

  /** A product read from the content listing carries no sizes, so choosing
      a size with any default category other than "all" makes the filter
      throw. */
  lemma MissingSizesThrow(products: seq<Product>, f: Filters, defaultCategory: string, k: int)
    requires defaultCategory != "all" && |f.sizes| > 0
    requires 0 <= k < |products| && products[k].sizes.None?
    ensures Filtered(products, f, defaultCategory) == Threw
  {
    assert Throws(f, products[k]);
  }

  /** On the content listing, which carries no sizes, choosing a size with a
      default category other than "all" throws as soon as the listing holds a
      product. */
  lemma ListingThrowsOnSizeChoice(space: seq<Contentful.DeliveryEntry>, f: Filters, defaultCategory: string)
    requires defaultCategory != "all" && |f.sizes| > 0
    requires |Contentful.FetchProducts(space)| > 0
    ensures Filtered(Contentful.FetchProducts(space), f, defaultCategory) == Threw
  {
    Contentful.FetchProductsSpec(space);
    MissingSizesThrow(Contentful.FetchProducts(space), f, defaultCategory, 0);
  }

  /** Filters left empty impose nothing: with no category, brand, search or
      list chosen, only the price range decides. */
  lemma EmptyFiltersOnlyPrice(f: Filters, p: Product)
    requires f.category == "" && f.brand == "" && f.search == ""
    requires |f.sizes| == 0 && |f.colors| == 0 && |f.tags| == 0
    ensures Keeps(f, p) <==> InPriceRange(p, f.priceRange)
  {
  }

  /** A chosen category, brand, or list of sizes, colours or tags each
      narrows the result: a kept product has that category and brand and
      shares at least one value with each chosen list. */
  lemma KeptProductMatches(f: Filters, p: Product)
    requires Keeps(f, p)
    ensures f.category != "" ==> p.category == f.category
    ensures f.brand != "" ==> p.brand == f.brand
    ensures |f.sizes| > 0 ==> p.sizes.Some? && exists s :: s in f.sizes && s in p.sizes.value
    ensures |f.colors| > 0 ==> p.colors.Some? && exists c :: c in f.colors && c in p.colors.value
    ensures |f.tags| > 0 ==> p.tags.Some? && exists t :: t in f.tags && t in p.tags.value
    ensures f.priceRange.0 * MINOR_PER_MAJOR <= p.price <= f.priceRange.1 * MINOR_PER_MAJOR
  {
    if |f.sizes| > 0 {
      var i :| 0 <= i < |f.sizes| && f.sizes[i] in p.sizes.value;
      assert f.sizes[i] in f.sizes;
    }
    if |f.colors| > 0 {
      var i :| 0 <= i < |f.colors| && f.colors[i] in p.colors.value;
      assert f.colors[i] in f.colors;
    }
    if |f.tags| > 0 {
      var i :| 0 <= i < |f.tags| && f.tags[i] in p.tags.value;
      assert f.tags[i] in f.tags;
    }
  }

  /** The lists match on any overlap: choosing one more size, colour or tag
      never drops a product a non-empty choice already kept. */
  lemma WiderSelectionKeepsMore(f: Filters, p: Product, s: string)
    requires Keeps(f, p) && |f.sizes| > 0
    ensures Keeps(f.(sizes := f.sizes + [s]), p)
  {
    var i :| 0 <= i < |f.sizes| && f.sizes[i] in p.sizes.value;
    assert (f.sizes + [s])[i] == f.sizes[i];
  }

  /** On the initial filters, a non-empty default category returns every
      product; an empty one keeps the products priced from 0 to 1000. */
  lemma InitialFilters(products: seq<Product>, defaultCategory: string)
    ensures defaultCategory != "" ==> Filtered(products, Initial(defaultCategory), defaultCategory) == Shown(products)
    ensures defaultCategory == "" ==> Filtered(products, Initial(defaultCategory), defaultCategory).Shown?
    ensures defaultCategory == "" ==>
      forall p :: p in Filtered(products, Initial(defaultCategory), defaultCategory).products <==>
        p in products && 0 <= p.price <= DEFAULT_MAX * MINOR_PER_MAJOR
  {
  }
}
