/** The payment-intent handler: despite its name it also creates a checkout
    session, with each item's `amount` sent as is and fixed site URLs. */
module CreatePaymentIntent {
  import opened Base
  import opened Payments

  const CURRENCY := "usd"
  const METHOD_NOT_ALLOWED := "Method Not Allowed"

  datatype Request = Request(httpMethod: string, items: ItemsField)

  function LineFor(item: RequestItem): LineItem
  {
    LineItem(CURRENCY, item.name, [], item.amount, item.quantity)
  }

  /** One USD line per item, in order, with the name and the item's own
      amount and quantity. */
  function LineItems(items: seq<RequestItem>): (r: seq<LineItem>)
    ensures |r| == |items|
    ensures forall i :: 0 <= i < |items| ==>
      r[i] == LineItem(CURRENCY, items[i].name, [], items[i].amount, items[i].quantity)
  {
    seq(|items|, i requires 0 <= i < |items| => LineFor(items[i]))
  }

  /** `site` is the configured site URL. */
  function Handle(req: Request, site: string, stripe: SessionParams -> StripeReply): Handled
  {
    if req.httpMethod != "POST" then Handled(405, MessageBody(METHOD_NOT_ALLOWED), None)
    else if !req.items.ItemArray? then Handled(500, ErrorBody(TYPE_ERROR), None)
    else
      var params := SessionParams(LineItems(req.items.items), site + "/success", site + "/checkout", NO_METADATA);
      match stripe(params)
      case Session(url) => Handled(200, UrlBody(url), Some(params))
      case StripeError(message) => Handled(500, ErrorBody(message), Some(params))
  }

  /** 405 with "Method Not Allowed" exactly for a method other than POST;
      the return URLs depend only on the site, never on the request; 200
      exactly when Stripe creates the session, carrying its URL; every other
      outcome is 500. */
  lemma HandleSpec(req: Request, site: string, stripe: SessionParams -> StripeReply)
    ensures var h := Handle(req, site, stripe);
      (h.status == 405 <==> req.httpMethod != "POST") &&
      (h.status == 405 ==> h.body == MessageBody(METHOD_NOT_ALLOWED)) &&
      (h.requested.Some? <==> req.httpMethod == "POST" && req.items.ItemArray?) &&
      (h.requested.Some? ==> h.requested.value.lineItems == LineItems(req.items.items) &&
                             h.requested.value.successUrl == site + "/success" &&
                             h.requested.value.cancelUrl == site + "/checkout") &&
      (h.status == 200 <==> h.requested.Some? && stripe(h.requested.value).Session?) &&
      (h.status == 200 ==> h.body == UrlBody(stripe(h.requested.value).url)) &&
      (h.status != 200 && h.status != 405 ==> h.status == 500)
  {
  }

  /** The amount is sent as is, not rescaled from a price: the item's
      `discountedPrice`, which the other handlers charge, plays no part. */
  lemma AmountVerbatim(item: RequestItem, otherPrice: real)
    ensures LineFor(item).unitAmount == item.amount
    ensures LineFor(item.(discountedPrice := otherPrice)) == LineFor(item)
  {
  }
}
