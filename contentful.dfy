/** The catalogue listing: `fetchProducts` asks the delivery API for the
    entries of content type "ecommerce" and maps each one to a product. */
module Contentful {
  import opened Base
  import opened Catalog

  const CONTENT_TYPE := "ecommerce"

  /** `fields.image` down to the file URL; any link of the chain may be missing. */
  datatype FileInfo = FileInfo(url: Option<string>)
  datatype AssetFields = AssetFields(file: Option<FileInfo>)
  datatype ImageLink = ImageLink(fields: Option<AssetFields>)

  datatype EntryFields = EntryFields(
    name: string,
    slug: string,
    price: int,
    image: Option<ImageLink>,
    category: string,
    description: string,
    isFeatured: bool)

  /** A delivery-API entry: `sys.id`, `sys.contentType.sys.id` and its fields. */
  datatype DeliveryEntry = DeliveryEntry(sysId: string, contentType: string, fields: EntryFields)

  /** `item.fields.image?.fields?.file?.url`. */
  function ImageUrl(f: EntryFields): (r: Option<string>)
    ensures r.Some? <==> (f.image.Some? && f.image.value.fields.Some? &&
                          f.image.value.fields.value.file.Some? && f.image.value.fields.value.file.value.url.Some?)
  {
    match f.image
    case None => None
    case Some(link) =>
      match link.fields
      case None => None
      case Some(af) =>
        match af.file
        case None => None
        case Some(fi) => fi.url
  }

  /** One entry to one product; the listing carries no stock, discount or
      cost figure and no brand; its sizes, colours and tags arrays are
      missing altogether. */
  function ToProduct(e: DeliveryEntry): Product
  {
    Product(e.sysId, e.fields.name, e.fields.slug, e.fields.price, ImageUrl(e.fields),
            e.fields.category, e.fields.description, e.fields.isFeatured,
            None, None, None, 0, "", None, None, None)
  }

  predicate IsProductEntry(e: DeliveryEntry)
  {
    e.contentType == CONTENT_TYPE
  }

  function OfContentType(): DeliveryEntry -> bool
  {
    (e: DeliveryEntry) => IsProductEntry(e)
  }

  /** Every entry of content type "ecommerce", in space order. */
  function Requested(space: seq<DeliveryEntry>): seq<DeliveryEntry>
  {
    Filter(space, OfContentType())
  }

  /** The delivery API's default page size: `getEntries` without `limit`
      or `skip` answers with one page of at most this many entries. */
  const PAGE_LIMIT: nat := 100

  /** `getEntries({ content_type: "ecommerce" })`: the first page of the
      requested entries, no further page being asked for. */
  function Returned(space: seq<DeliveryEntry>): seq<DeliveryEntry>
  {
    Take(Requested(space), PAGE_LIMIT)
  }

  /** `res.items.map(...)`. */
  function FetchProducts(space: seq<DeliveryEntry>): (r: seq<Product>)
    ensures |r| == |Returned(space)| <= PAGE_LIMIT
  {
    var items := Returned(space);
    seq(|items|, i requires 0 <= i < |items| => ToProduct(items[i]))
  }

  /** One product per returned entry, in the same order, built from that
      entry alone; only "ecommerce" entries are returned, the first hundred
      of them in space order, all of them only when there are no more than
      a hundred; no product carries a stock or discount figure. */
  lemma FetchProductsSpec(space: seq<DeliveryEntry>)
    ensures var items := Returned(space); var r := FetchProducts(space);
      forall i :: 0 <= i < |r| ==>
        items[i].contentType == CONTENT_TYPE && items[i] in space &&
        r[i].id == items[i].sysId && r[i].name == items[i].fields.name &&
        r[i].slug == items[i].fields.slug && r[i].price == items[i].fields.price &&
        r[i].image == ImageUrl(items[i].fields) && r[i].category == items[i].fields.category &&
        r[i].description == items[i].fields.description && r[i].isFeatured == items[i].fields.isFeatured &&
        r[i].inStock.None? && r[i].discountPercent.None? &&
        r[i].sizes.None? && r[i].colors.None? && r[i].tags.None?
    ensures Returned(space) == Requested(space)[..|Returned(space)|]
    ensures Subsequence(Requested(space), space)
    ensures |Requested(space)| <= PAGE_LIMIT ==>
      forall e :: e in space && IsProductEntry(e) ==> e in Returned(space)
    ensures |Requested(space)| > PAGE_LIMIT ==>
      |FetchProducts(space)| == PAGE_LIMIT < |Requested(space)|
  {
    var all := Requested(space);
    var items := Returned(space);
    forall i | 0 <= i < |items| ensures items[i].contentType == CONTENT_TYPE && items[i] in space {
      assert items[i] == all[i];
      assert all[i] in all;
    }
    FilterIsSubsequence(space, OfContentType());
  }
}
