/** The success page: for a signed-in user it marks the order named in the
    navigation state as completed and paid, and it confirms the order
    whatever happened to that write. */
module SuccessPage {
  import opened Base
  import opened Ledger
  import StripeCheckout

  const COMPLETED := "completed"
  const PAID := "paid"
  const HEADING := "Order Confirmed!"

  /** The update `updateDoc` applies: status, payment status and the time. */
  function Paid(o: Order, now: int): (r: Order)
    ensures r.status == Some(COMPLETED) && r.paymentStatus == Some(PAID) && r.updatedAt == StampAt(now)
    ensures r.(status := o.status, paymentStatus := o.paymentStatus, updatedAt := o.updatedAt) == o
  {
    o.(status := Some(COMPLETED), paymentStatus := Some(PAID), updatedAt := StampAt(now))
  }

  /** Marking twice is marking once, at the later time. */
  lemma PaidTwice(o: Order, t1: int, t2: int)
    ensures Paid(Paid(o, t1), t2) == Paid(o, t2)
  {
  }

  /** The `orders` collection. */
  class OrdersStore {
    var docs: map<string, Order>

    constructor(docs: map<string, Order>)
      ensures this.docs == docs
    {
      this.docs := docs;
    }
  }

  /** `updateOrderStatus`. `orderId` is the navigation state's; `networkOk`
      says whether the write reaches the store. An update of a missing
      document fails; every failure is swallowed. Returns the navigation it
      makes, if any. */
  method UpdateOrderStatus(store: OrdersStore, signedIn: bool, orderId: Option<string>, now: int, networkOk: bool)
    returns (nav: Option<string>)
    modifies store
    ensures !signedIn ==> nav == Some("/login") && store.docs == old(store.docs)
    ensures signedIn ==> nav.None?
    ensures signedIn && orderId.Some? && orderId.value != "" && orderId.value in old(store.docs) && networkOk ==>
      store.docs == old(store.docs)[orderId.value := Paid(old(store.docs)[orderId.value], now)]
    ensures !(signedIn && orderId.Some? && orderId.value != "" && orderId.value in old(store.docs) && networkOk) ==>
      store.docs == old(store.docs)
  {
    if !signedIn {
      return Some("/login");
    }
    if orderId.Some? && orderId.value != "" {
      var id := orderId.value;
      if networkOk && id in store.docs {
        store.docs := store.docs[id := Paid(store.docs[id], now)];
      }
    }
    return None;
  }

  /** What the page shows: the heading, and the order id when there is one. */
  datatype Screen = Screen(heading: string, shownId: Option<string>)

  function ScreenFor(orderId: Option<string>): (s: Screen)
    ensures s.heading == HEADING
    ensures s.shownId.Some? <==> orderId.Some? && orderId.value != ""
  {
    Screen(HEADING, if orderId.Some? && orderId.value != "" then orderId else None)
  }

  /** The Stripe return page hands any existing order on to this page, so
      a signed-in user who opens the return path of an existing order gets
      it marked paid, with no payment checked anywhere. */
  lemma ReturnPathMarksPaid(path: string, docs: map<string, Order>, now: int)
    requires StripeCheckout.OrderIdOf(path).Some? && StripeCheckout.OrderIdOf(path).value in docs
    requires StripeCheckout.OrderIdOf(path).value != ""
    ensures var v := StripeCheckout.VerifyPayment(true, path, docs, true);
      v.nav.NavSuccess? && v.nav.orderId in docs &&
      Paid(docs[v.nav.orderId], now).paymentStatus == Some(PAID)
  {
  }
}
