/** Entries of the headless CMS as its management API hands them out: the
    localised `inStock` field and the published flag. */
module Cms {
  import opened Base

  /** `fields.inStock`: absent, or a locale object whose `'en-US'` value may
      be missing (or not a number, which the storefront reads the same way). */
  datatype StockField = NoStockField | Stock(enUS: Option<int>)

  /** `name` is the `'en-US'` name; `published` is `isPublished()`. */
  datatype Entry = Entry(name: string, inStock: StockField, published: bool)

  /** The entries of the space, by entry id. `getEntry` fails for an id not in it. */
  type Space = map<string, Entry>

  /** `fields.inStock['en-US'] || 0` on an entry that has the field. */
  function StockOrZero(f: StockField): (v: int)
    requires f.Stock?
    ensures f.enUS.None? ==> v == 0
    ensures f.enUS.Some? ==> v == f.enUS.value
  {
    f.enUS.GetOr(0)
  }
}
