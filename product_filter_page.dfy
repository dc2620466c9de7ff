/** The catalogue page: the filter hook run with the default category
    "all", a grid of eight products per page, and the pagination bar. */
module ProductFilterPage {
  import opened Base
  import opened Catalog
  import opened AdvancedProductFilter
  import opened Pagination

  const ITEMS_PER_PAGE := 8
  const DEFAULT_CATEGORY := "all"

  /** `Math.ceil(n / itemsPerPage)`. */
  function TotalPages(n: nat): (r: nat)
    ensures r * ITEMS_PER_PAGE >= n
    ensures r > 0 ==> (r - 1) * ITEMS_PER_PAGE < n
  {
    (n + ITEMS_PER_PAGE - 1) / ITEMS_PER_PAGE
  }

  /** A `slice` bound: a negative index counts from the end. */
  function SliceIndex(len: nat, i: int): (r: nat)
    ensures r <= len
  {
    if i < 0 then (if len + i > 0 then len + i else 0)
    else if i < len then i else len
  }

  /** `s.slice(start, end)`. */
  function Slice<T>(s: seq<T>, start: int, end: int): seq<T>
  {
    var a := SliceIndex(|s|, start);
    var b := SliceIndex(|s|, end);
    if a < b then s[a..b] else []
  }

  /** `paginatedProducts`. */
  function PageOf<T>(filtered: seq<T>, currentPage: int): seq<T>
  {
    Slice(filtered, (currentPage - 1) * ITEMS_PER_PAGE, currentPage * ITEMS_PER_PAGE)
  }

  /** Page p (from 1) shows positions (p - 1) * 8 up to p * 8, clipped to the
      list, so at most eight products, and nothing past the last page. */
  lemma PageOfSpec<T>(filtered: seq<T>, p: nat)
    requires p >= 1
    ensures |PageOf(filtered, p)| <= ITEMS_PER_PAGE
    ensures p <= TotalPages(|filtered|) ==>
      PageOf(filtered, p) == filtered[(p - 1) * ITEMS_PER_PAGE .. if p * ITEMS_PER_PAGE < |filtered| then p * ITEMS_PER_PAGE else |filtered|]
    ensures p > TotalPages(|filtered|) ==> PageOf(filtered, p) == []
  {
  }

  /** Pages 1 to n, one after the other. */
  function Pages<T>(filtered: seq<T>, n: nat): seq<T>
  {
    if n == 0 then [] else Pages(filtered, n - 1) + PageOf(filtered, n)
  }

  lemma {:induction false} PagesPrefix<T>(filtered: seq<T>, n: nat)
    requires n <= TotalPages(|filtered|)
    ensures Pages(filtered, n) == filtered[..if n * ITEMS_PER_PAGE < |filtered| then n * ITEMS_PER_PAGE else |filtered|]
  {
    if n > 0 {
      PagesPrefix(filtered, n - 1);
      PageOfSpec(filtered, n);
      var a := (n - 1) * ITEMS_PER_PAGE;
      var b := if n * ITEMS_PER_PAGE < |filtered| then n * ITEMS_PER_PAGE else |filtered|;
      assert filtered[..a] + filtered[a..b] == filtered[..b];
    }
  }

  /** Read in order, the pages give back the whole list. */
  lemma PagesCoverList<T>(filtered: seq<T>)
    ensures Pages(filtered, TotalPages(|filtered|)) == filtered
  {
    PagesPrefix(filtered, TotalPages(|filtered|));
  }

  datatype View = View(count: nat, loading: bool, grid: seq<Product>, bar: seq<PageEntry>, buttons: Buttons)

  /** The page for the loaded products, whatever filters the sidebar has
      set, and the current page number. */
  function Page(allProducts: seq<Product>, f: Filters, loading: bool, currentPage: int): View
  {
    var filtered := Filtered(allProducts, f, DEFAULT_CATEGORY).products;
    var totalPages := TotalPages(|filtered|);
    View(|filtered|, loading, if loading then [] else PageOf(filtered, currentPage),
         PageNumbers(currentPage, totalPages, 1), NavButtons(currentPage, totalPages))
  }

  /** The hook is called with "all", so the sidebar's filters never change
      what the page lists: the count is every product, and the grid is the
      current page of the unfiltered list. */
  lemma FiltersHaveNoEffect(allProducts: seq<Product>, f: Filters, g: Filters, loading: bool, currentPage: int)
    ensures Page(allProducts, f, loading, currentPage) == Page(allProducts, g, loading, currentPage)
    ensures Page(allProducts, f, loading, currentPage).count == |allProducts|
  {
    FilteredSpec(allProducts, f, DEFAULT_CATEGORY);
    FilteredSpec(allProducts, g, DEFAULT_CATEGORY);
  }

  /** Nothing resets the current page: once past the last page (after the
      list shrinks, or by Next on an empty list) the grid is empty. */
  lemma PastLastPageIsEmpty(allProducts: seq<Product>, f: Filters, currentPage: nat)
    requires currentPage > TotalPages(|allProducts|)
    ensures Page(allProducts, f, false, currentPage).grid == []
  {
    FilteredSpec(allProducts, f, DEFAULT_CATEGORY);
    PageOfSpec(allProducts, currentPage);
  }
}
