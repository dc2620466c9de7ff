/** The second checkout-session handler: PKR line items with names only,
    the caller's URLs passed straight through, and no validation. */
module CreateCheckoutSession {
  import opened Base
  import opened Payments

  const CURRENCY := "pkr"

  datatype Request = Request(httpMethod: string, items: ItemsField, successUrl: string, cancelUrl: string)

  function LineFor(item: RequestItem): LineItem
  {
    LineItem(CURRENCY, item.name, [], Cents(item.discountedPrice), item.quantity)
  }

  /** One PKR line per item, in order, with no image. */
  function LineItems(items: seq<RequestItem>): (r: seq<LineItem>)
    ensures |r| == |items|
    ensures forall i :: 0 <= i < |items| ==>
      r[i] == LineItem(CURRENCY, items[i].name, [], Cents(items[i].discountedPrice), items[i].quantity)
  {
    seq(|items|, i requires 0 <= i < |items| => LineFor(items[i]))
  }

  function Handle(req: Request, stripe: SessionParams -> StripeReply): Handled
  {
    if req.httpMethod != "POST" then Handled(405, EmptyBody, None)
    else if !req.items.ItemArray? then Handled(500, ErrorBody(TYPE_ERROR), None)
    else
      var params := SessionParams(LineItems(req.items.items), req.successUrl, req.cancelUrl, NO_METADATA);
      match stripe(params)
      case Session(url) => Handled(200, UrlBody(url), Some(params))
      case StripeError(message) => Handled(500, ErrorBody(message), Some(params))
  }

  /** 405 exactly for a method other than POST; with no validation, items
      that are not an array fail with 500 rather than 400; Stripe is asked
      for exactly the line items and the URLs the caller sent; 200 exactly
      when it creates the session, carrying its URL. */
  lemma HandleSpec(req: Request, stripe: SessionParams -> StripeReply)
    ensures var h := Handle(req, stripe);
      (h.status == 405 <==> req.httpMethod != "POST") &&
      h.status != 400 &&
      (h.requested.Some? <==> req.httpMethod == "POST" && req.items.ItemArray?) &&
      (h.requested.Some? ==> h.requested.value == SessionParams(LineItems(req.items.items), req.successUrl, req.cancelUrl, NO_METADATA)) &&
      (h.status == 200 <==> h.requested.Some? && stripe(h.requested.value).Session?) &&
      (h.status == 200 ==> h.body == UrlBody(stripe(h.requested.value).url)) &&
      (h.status != 200 && h.status != 405 ==> h.status == 500)
  {
  }
}
