/** The filter sidebar: which filters a category shows, the widgets it
    renders, and the edits it makes to the filters record. */
module FilterSidebar {
  import opened Base
  import opened Catalog
  import opened AdvancedProductFilter
  import opened FilterComponents

  datatype Field = CategoryField | SearchField | PriceRangeField | BrandField | SizesField | ColorsField | TagsField

  const ALL_ROW := [CategoryField, SearchField, PriceRangeField, BrandField, SizesField, ColorsField, TagsField]

  /** `filterConfig[key]`. */
  function Config(key: string): Option<seq<Field>>
  {
    if key == "all" then Some(ALL_ROW)
    else if key == "clothes" then Some(ALL_ROW)
    else if key == "shoes" then Some([CategoryField, SearchField, PriceRangeField, BrandField, SizesField, TagsField])
    else if key == "watches" then Some([CategoryField, SearchField, PriceRangeField, BrandField, ColorsField])
    else None
  }

  /** `filterConfig[filters.category || "all"] || filterConfig.all`. */
  function ActiveFilters(f: Filters): seq<Field>
  {
    var category := if f.category == "" then "all" else f.category;
    Config(category).GetOr(ALL_ROW)
  }

  /** An empty or unknown category shows every filter; shoes drop colours,
      watches drop sizes and tags, clothes show everything; every row
      starts with the category, search and price filters. */
  lemma ActiveFiltersSpec(f: Filters)
    ensures Config(f.category).None? ==> ActiveFilters(f) == ALL_ROW
    ensures f.category == "clothes" ==> ActiveFilters(f) == ALL_ROW
    ensures f.category == "shoes" ==>
      (ColorsField !in ActiveFilters(f) &&
       forall x :: x in ALL_ROW && x != ColorsField ==> x in ActiveFilters(f))
    ensures f.category == "watches" ==>
      (SizesField !in ActiveFilters(f) && TagsField !in ActiveFilters(f) &&
       forall x :: x in ALL_ROW && x != SizesField && x != TagsField ==> x in ActiveFilters(f))
    ensures ActiveFilters(f)[..3] == [CategoryField, SearchField, PriceRangeField]
  {
  }

  const BRAND_OPTIONS := ["Nike", "Apple", "Zara"]
  const SHOE_SIZES := ["6", "7", "8", "9", "10"]
  const WATCH_SIZES := ["38mm", "40mm", "42mm"]
  const CLOTHING_SIZES := ["XS", "S", "M", "L", "XL", "XXL"]
  const COLOR_OPTIONS := ["red", "blue", "black", "green"]
  const TAG_OPTIONS := ["bestseller", "new", "trending"]

  /** The size checkboxes' options: `switch (filters.category || 'shoes')`. */
  function SizeOptions(category: string): seq<string>
  {
    var key := if category == "" then "shoes" else category;
    if key == "clothes" then CLOTHING_SIZES
    else if key == "shoes" then SHOE_SIZES
    else if key == "watches" then WATCH_SIZES
    else CLOTHING_SIZES + SHOE_SIZES + WATCH_SIZES
  }

  /** An empty category offers shoe sizes (while its row is the "all" row),
      and an unknown category offers every size list in turn. */
  lemma SizeOptionsSpec(category: string)
    ensures category == "" ==> SizeOptions(category) == SHOE_SIZES
    ensures category !in {"", "clothes", "shoes", "watches"} ==>
      (|SizeOptions(category)| == |CLOTHING_SIZES| + |SHOE_SIZES| + |WATCH_SIZES| &&
       forall s :: s in SizeOptions(category) <==> s in CLOTHING_SIZES || s in SHOE_SIZES || s in WATCH_SIZES)
  {
  }

  datatype Widget =
    | NoWidget
    | TextBox(caption: string, text: string)
    | PriceInputs(range: (int, int))
    | Select(caption: string, chosen: string, options: seq<SelectOption>)
    | CheckboxList(caption: string, boxes: seq<Checkbox>)

  function WidgetFor(f: Filters, field: Field): Widget
  {
    match field
    case CategoryField => NoWidget
    case SearchField => TextBox("Search", f.search)
    case PriceRangeField => PriceInputs(f.priceRange)
    case BrandField => Select("Brand", f.brand, SelectOptions(BRAND_OPTIONS))
    case SizesField => CheckboxList("Sizes", Checkboxes(SizeOptions(f.category), f.sizes))
    case ColorsField => CheckboxList("Colors", Checkboxes(COLOR_OPTIONS, f.colors))
    case TagsField => CheckboxList("Tags", Checkboxes(TAG_OPTIONS, f.tags))
  }

  /** The sidebar: one widget per active filter, in row order. */
  function Render(f: Filters): (r: seq<Widget>)
    ensures |r| == |ActiveFilters(f)|
    ensures forall i :: 0 <= i < |r| ==> r[i] == WidgetFor(f, ActiveFilters(f)[i])
    ensures r[0] == NoWidget
  {
    var row := ActiveFilters(f);
    seq(|row|, i requires 0 <= i < |row| => WidgetFor(f, row[i]))
  }

  // ---------------------------------------------------------------------
  // the setters

  datatype Edit =
    | SetSearch(search: string)
    | SetPriceRange(min: int, max: int)
    | SetBrand(brand: string)
    | SetSizes(sizes: seq<string>)
    | SetColors(colors: seq<string>)
    | SetTags(tags: seq<string>)

  /** `setFilters(f => ({ ...f, field: value }))`. */
  function Apply(f: Filters, e: Edit): Filters
  {
    match e
    case SetSearch(v) => f.(search := v)
    case SetPriceRange(min, max) => f.(priceRange := (min, max))
    case SetBrand(v) => f.(brand := v)
    case SetSizes(v) => f.(sizes := v)
    case SetColors(v) => f.(colors := v)
    case SetTags(v) => f.(tags := v)
  }

  function Target(e: Edit): Field
  {
    match e
    case SetSearch(_) => SearchField
    case SetPriceRange(_, _) => PriceRangeField
    case SetBrand(_) => BrandField
    case SetSizes(_) => SizesField
    case SetColors(_) => ColorsField
    case SetTags(_) => TagsField
  }

  /** Each setter replaces one field: edits of different fields commute, a
      later edit of the same field overwrites an earlier one, and the
      sidebar never changes the category. */
  lemma EditsTouchOneField(f: Filters, e1: Edit, e2: Edit)
    ensures Apply(f, e1).category == f.category
    ensures Target(e1) != Target(e2) ==> Apply(Apply(f, e1), e2) == Apply(Apply(f, e2), e1)
    ensures Target(e1) == Target(e2) ==> Apply(Apply(f, e1), e2) == Apply(f, e2)
  {
  }

  /** Picking "All" in the brand select clears the brand, which never drops
      a product the hook kept. */
  lemma AllBrandWidens(f: Filters, p: Product)
    requires Keeps(f, p)
    ensures Keeps(Apply(f, SetBrand(SelectOptions(BRAND_OPTIONS)[0].value)), p)
  {
  }
}
