/** The records kept in the `orders` collection: line items, the `createdAt`
    stamp in the shapes the storefront meets it in, and whole orders. */
module Ledger {
  import opened Base

  /** One line item of a stored order. A missing string field is `""` and a
      missing money field is 0 (every reader treats both as falsy). Money is
      in minor units (paisa). */
  datatype Item = Item(
    id: string,
    name: string,
    quantity: int,
    discountedPrice: int,
    costPrice: int,
    price: int,
    image: string)

  /** What `createdAt` can hold. */
  datatype Stamp =
    | Missing                                  // absent, null or otherwise falsy
    | FirestoreTimestamp(seconds: int, nanos: nat) // has `toDate()`
    | JsDate(millis: int)                      // a `Date` object
    | SecondsOnly(seconds: int)                // a plain object carrying `seconds`
    | Unrecognised                             // any other truthy value

  const MS_PER_SECOND := 1000
  const NS_PER_MS := 1000000

  /** `Timestamp.toMillis()`: whole milliseconds of a Firestore timestamp. */
  function TimestampMillis(seconds: int, nanos: nat): int
  {
    seconds * MS_PER_SECOND + nanos / NS_PER_MS
  }

  /** `Timestamp.now()` / `Timestamp.fromDate(d)` for a clock reading in milliseconds. */
  function StampAt(millis: int): (s: Stamp)
    ensures s.FirestoreTimestamp? && TimestampMillis(s.seconds, s.nanos) == millis
  {
    FirestoreTimestamp(millis / MS_PER_SECOND, (millis % MS_PER_SECOND) * NS_PER_MS)
  }

  /** The instant a stamp denotes, when it is a Firestore timestamp (the only
      kind a server-side range query on `createdAt` can match). */
  function QueryMillis(s: Stamp): Option<int>
  {
    match s
    case FirestoreTimestamp(sec, ns) => Some(TimestampMillis(sec, ns))
    case _ => None
  }

  /** The form fields of the checkout page, copied into the order. */
  datatype Customer = Customer(
    name: string,
    email: string,
    phone: string,
    country: string,
    state: string,
    city: string,
    address1: string,
    zip: string)

  /** A stored order. `items` is `None` when the document has no array there;
      `storedId` is an `id` field written into the document itself. */
  datatype Order = Order(
    storedId: Option<string>,
    customer: Customer,
    items: Option<seq<Item>>,
    total: int,
    userId: string,
    createdAt: Stamp,
    status: Option<string>,
    paymentStatus: Option<string>,
    updatedAt: Stamp)

  /** A document of the `orders` collection: its id and its data. */
  datatype OrderDoc = OrderDoc(docId: string, data: Order)

  /** The line items of an order, with a missing array read as none. */
  function ItemsOf(o: Order): seq<Item>
  {
    match o.items
    case Some(s) => s
    case None => []
  }
}
