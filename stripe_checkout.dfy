/** The return page after Stripe: it takes the order id from the path,
    checks that a user is signed in and that the order exists, and moves
    on. No payment is verified. */
module StripeCheckout {
  import opened Base
  import opened Text
  import opened Ledger

  /** `location.pathname.split('/')[3]`. */
  function OrderIdOf(path: string): Option<string>
  {
    var parts := Split(path, '/');
    if |parts| > 3 then Some(parts[3]) else None
  }

  /** The pieces of "/" + a + "/" + b + "/" + tail are "", a, b and the pieces of tail. */
  lemma SplitPath(a: string, b: string, tail: string)
    requires '/' !in a && '/' !in b
    ensures Split("/" + a + "/" + b + "/" + tail, '/') == ["", a, b] + Split(tail, '/')
  {
    var t := b + ['/'] + tail;
    var u := a + ['/'] + t;
    assert "/" + a + "/" + b + "/" + tail == [] + ['/'] + u;
    SplitCons([], '/', u);
    SplitCons(a, '/', t);
    SplitCons(b, '/', tail);
  }

  /** On "/checkout/success/abc"-shaped paths the id is the third segment,
      whatever follows it. */
  lemma OrderIdOfSpec(a: string, b: string, id: string, rest: string)
    requires '/' !in a && '/' !in b && '/' !in id
    ensures OrderIdOf("/" + a + "/" + b + "/" + id) == Some(id)
    ensures OrderIdOf("/" + a + "/" + b + "/" + id + "/" + rest) == Some(id)
  {
    SplitPath(a, b, id);
    SplitNoSep(id, '/');
    SplitPath(a, b, id + "/" + rest);
    SplitCons(id, '/', rest);
    assert "/" + a + "/" + b + "/" + id + "/" + rest == "/" + a + "/" + b + "/" + (id + "/" + rest);
  }

  /** With only two segments there is no id. */
  lemma NoOrderIdOnShortPath(a: string, b: string)
    requires '/' !in a && '/' !in b
    ensures OrderIdOf("/" + a + "/" + b) == None
  {
    var u := a + ['/'] + b;
    assert "/" + a + "/" + b == [] + ['/'] + u;
    SplitCons([], '/', u);
    SplitCons(a, '/', b);
    SplitNoSep(b, '/');
  }

  datatype Nav = NavLogin | NavSuccess(orderId: string) | NavFailed

  function NavPath(n: Nav): string
  {
    match n
    case NavLogin => "/login"
    case NavSuccess(_) => "/success"
    case NavFailed => "/checkout/failed"
  }

  /** What `verifyPayment` does: where it navigates, and which order it
      looked up, if any. */
  datatype Visit = Visit(nav: Nav, lookedUp: Option<string>)

  /** `doc(db, "orders", id)` accepts a defined, non-empty id. */
  predicate ValidDocId(orderId: Option<string>)
  {
    orderId.Some? && orderId.value != ""
  }

  /** `verifyPayment`: `orders` is the collection and `readOk` whether the
      read succeeds. */
  function VerifyPayment(signedIn: bool, path: string, orders: map<string, Order>, readOk: bool): Visit
  {
    var orderId := OrderIdOf(path);
    if !signedIn then Visit(NavLogin, None)
    else if !ValidDocId(orderId) then Visit(NavFailed, None)
    else if !readOk || orderId.value !in orders then Visit(NavFailed, orderId)
    else Visit(NavSuccess(orderId.value), orderId)
  }

  /** Signed out goes to /login without a lookup; signed in, the page goes
      to /success, carrying the path's order id, exactly when that order
      exists and the read succeeds, and to /checkout/failed otherwise. The
      order's contents play no part: any existing order passes. */
  lemma VerifyPaymentSpec(signedIn: bool, path: string, orders: map<string, Order>, readOk: bool)
    ensures var v := VerifyPayment(signedIn, path, orders, readOk);
      (v.nav == NavLogin <==> !signedIn) &&
      (!signedIn ==> v.lookedUp.None?) &&
      (v.nav.NavSuccess? <==> signedIn && ValidDocId(OrderIdOf(path)) && readOk && OrderIdOf(path).value in orders) &&
      (v.nav.NavSuccess? ==> v.nav.orderId == OrderIdOf(path).value && v.lookedUp == OrderIdOf(path)) &&
      (v.nav == NavFailed <==> signedIn && !v.nav.NavSuccess?)
    ensures forall o :: VerifyPayment(signedIn, path, orders, readOk) ==
                        VerifyPayment(signedIn, path, Overwritten(orders, o), readOk)
  {
  }

  /** Replaces every stored order's data, keeping the ids. */
  function Overwritten(orders: map<string, Order>, o: Order): (r: map<string, Order>)
    ensures r.Keys == orders.Keys
  {
    map id | id in orders :: o
  }
}
