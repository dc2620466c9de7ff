/** The checkout-session handler: validates the items, builds USD line items
    with images, tags the session with the order and user ids, and answers
    with the session URL. */
module CheckoutSession {
  import opened Base
  import opened Text
  import opened Payments

  const CURRENCY := "usd"
  const SESSION_SUFFIX := "?session_id={CHECKOUT_SESSION_ID}"

  datatype OrderData = OrderData(orderId: string, userId: string)

  datatype Request = Request(
    httpMethod: string,
    items: ItemsField,
    successUrl: string,
    cancelUrl: string,
    orderData: Option<OrderData>)

  function LineFor(item: RequestItem): LineItem
  {
    LineItem(CURRENCY, item.name, if item.image != "" then [item.image] else [], Cents(item.discountedPrice), item.quantity)
  }

  /** `items.map(...)`: one USD line per item, in order, with the name, the
      image when there is one, the price in cents and the quantity. */
  function LineItems(items: seq<RequestItem>): (r: seq<LineItem>)
    ensures |r| == |items|
    ensures forall i :: 0 <= i < |items| ==>
      r[i].currency == CURRENCY && r[i].name == items[i].name && r[i].quantity == items[i].quantity &&
      r[i].unitAmount == Cents(items[i].discountedPrice) &&
      (items[i].image == "" ==> r[i].images == []) &&
      (items[i].image != "" ==> r[i].images == [items[i].image])
  {
    seq(|items|, i requires 0 <= i < |items| => LineFor(items[i]))
  }

  function Handle(req: Request, stripe: SessionParams -> StripeReply): Handled
  {
    if req.httpMethod != "POST" then Handled(405, EmptyBody, None)
    else if !req.items.ItemArray? then Handled(400, ErrorBody("Invalid items data"), None)
    else if req.orderData.None? then Handled(500, ErrorBody(TYPE_ERROR), None)
    else
      var params := SessionParams(LineItems(req.items.items), req.successUrl + SESSION_SUFFIX, req.cancelUrl,
                                  Metadata(req.orderData.value.orderId, req.orderData.value.userId));
      match stripe(params)
      case Session(url) => Handled(200, UrlBody(url), Some(params))
      case StripeError(message) => Handled(500, ErrorBody(message), Some(params))
  }

  /** 405 exactly for a method other than POST, 400 exactly for a POST whose
      items are not an array, 200 exactly when Stripe creates the session,
      500 otherwise (no order data, or a Stripe error). Stripe is only asked
      once the items and order data are there, and then with one line per
      item, the success URL with the session placeholder, the cancel URL
      unchanged and the order and user ids as metadata; the answer carries
      Stripe's URL. */
  lemma HandleSpec(req: Request, stripe: SessionParams -> StripeReply)
    ensures var h := Handle(req, stripe);
      (h.status == 405 <==> req.httpMethod != "POST") &&
      (h.status == 400 <==> req.httpMethod == "POST" && !req.items.ItemArray?) &&
      (h.requested.Some? <==> req.httpMethod == "POST" && req.items.ItemArray? && req.orderData.Some?) &&
      (h.requested.Some? ==>
        h.requested.value.lineItems == LineItems(req.items.items) &&
        StartsWith(h.requested.value.successUrl, req.successUrl) &&
        h.requested.value.successUrl[|req.successUrl|..] == SESSION_SUFFIX &&
        h.requested.value.cancelUrl == req.cancelUrl &&
        h.requested.value.metadata == Metadata(req.orderData.value.orderId, req.orderData.value.userId)) &&
      (h.status == 200 <==> h.requested.Some? && stripe(h.requested.value).Session?) &&
      (h.status == 200 ==> h.body == UrlBody(stripe(h.requested.value).url)) &&
      (h.status in {200, 400, 405, 500})
  {
    var h := Handle(req, stripe);
    if h.requested.Some? {
      var u := h.requested.value.successUrl;
      assert u[..|req.successUrl|] == req.successUrl;
    }
  }
}
