/** What the payment handlers receive and what they ask Stripe for. Request
    prices are JavaScript numbers in major units, so they are `real`;
    Stripe amounts are whole minor units. */
module Payments {
  import opened Base

  /** One element of the request's `items`. A falsy `image` is `""`. */
  datatype RequestItem = RequestItem(name: string, image: string, discountedPrice: real, quantity: int, amount: int)

  /** What the body's `items` holds. */
  datatype ItemsField = MissingItems | NotAnArray | ItemArray(items: seq<RequestItem>)

  datatype LineItem = LineItem(currency: string, name: string, images: seq<string>, unitAmount: int, quantity: int)

  datatype Metadata = Metadata(orderId: string, userId: string)

  /** The arguments of `stripe.checkout.sessions.create`; every call asks
      for card payment in payment mode. */
  datatype SessionParams = SessionParams(
    lineItems: seq<LineItem>,
    successUrl: string,
    cancelUrl: string,
    metadata: Metadata)

  /** What Stripe answers: a session with its URL, or an error. */
  datatype StripeReply = Session(url: string) | StripeError(message: string)

  /** What a handler did: the status, the JSON body, and the session it
      asked for, if it got that far. */
  datatype JsonBody = EmptyBody | ErrorBody(error: string) | MessageBody(message: string) | UrlBody(url: string)
  datatype Handled = Handled(status: int, body: JsonBody, requested: Option<SessionParams>)

  /** The error text of the `TypeError` thrown when a handler reads a
      property of `undefined`. */
  const TYPE_ERROR := "Cannot read properties of undefined"

  const NO_METADATA := Metadata("", "")

  /** `Math.round(x * 100)`: halves round up. */
  function Cents(x: real): (r: int)
    ensures (r as real) - 0.5 <= x * 100.0 < (r as real) + 0.5
  {
    (x * 100.0 + 0.5).Floor
  }

  /** A price with a whole number of cents is sent as exactly that many. */
  lemma CentsExact(c: int)
    ensures Cents((c as real) / 100.0) == c
  {
    var x := (c as real) / 100.0;
    assert x * 100.0 == c as real;
  }

  /** `Math.round` is monotone: a dearer item is never sent for less. */
  lemma CentsMonotone(x: real, y: real)
    requires x <= y
    ensures Cents(x) <= Cents(y)
  {
  }
}
