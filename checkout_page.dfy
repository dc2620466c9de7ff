/** The checkout page: the stock check over the cart, the submit sequence
    (one stock write per line, then the order document, then an empty cart),
    the "+" control and the phone format. Each stock write is
    `updateProductStock` with its own oracles; the order write is an oracle. */
module CheckoutPage {
  import opened Base
  import opened Text
  import opened Cms
  import opened Ledger
  import opened CartStore
  import CM = ContentfulManagement

  // ---------------------------------------------------------------------
  // validateStock

  /** A line the stock check stops at: `inStock === 0`, or `quantity > inStock`
      (an undefined `inStock` fails neither test). */
  predicate Fails(l: Line)
  {
    l.item.inStock == Some(0) || (l.item.inStock.Some? && l.quantity > l.item.inStock.value)
  }

  /** The alert shown for the line the stock check stops at. */
  function AlertFor(l: Line): string
  {
    if l.item.inStock == Some(0) then "\"" + l.item.name + "\" is out of stock."
    else "\"" + l.item.name + "\" quantity exceeds stock."
  }

  /** `validateStock`: true when no line fails; otherwise false with the alert
      for the first failing line in cart order. */
  method ValidateStock(cart: seq<Line>) returns (ok: bool, alert: Option<string>)
    ensures ok <==> alert.None?
    ensures ok <==> forall i :: 0 <= i < |cart| ==> !Fails(cart[i])
    ensures !ok ==> exists i :: (0 <= i < |cart| && Fails(cart[i]) &&
      (forall j :: 0 <= j < i ==> !Fails(cart[j])) && alert == Some(AlertFor(cart[i])))
  {
    for i := 0 to |cart|
      invariant forall j :: 0 <= j < i ==> !Fails(cart[j])
    {
      var item := cart[i];
      if item.item.inStock == Some(0) {
        return false, Some("\"" + item.item.name + "\" is out of stock.");
      }
      if item.item.inStock.Some? && item.quantity > item.item.inStock.value {
        return false, Some("\"" + item.item.name + "\" quantity exceeds stock.");
      }
    }
    return true, None;
  }

  // ---------------------------------------------------------------------
  // the submit sequence

  const RETRIES := CM.DEFAULT_RETRIES
  const ORDER_ALERT := "Failed to place order. "
  /** The message of the `TypeError` thrown by `user.uid` before sign-in resolves. */
  const NO_USER_MESSAGE := "Cannot read properties of null (reading 'uid')"

  /** `item.inStock - item.quantity`; `undefined - q` is `NaN`. */
  function NewStock(l: Line): Option<int>
  {
    match l.item.inStock
    case Some(s) => Some(s - l.quantity)
    case None => None
  }

  /** The stock writes still to run from line `k`, every one of them (a
      rejected write does not stop the others), and the first failure. */
  datatype Writes = Writes(space: Space, failure: Option<string>)

  function StockWrites(cart: seq<Line>, space: Space, k: nat, envError: nat -> Option<string>,
                       fates: nat -> nat -> CM.Attempt, notFound: string): Writes
    decreases |cart| - k
  {
    if k >= |cart| then Writes(space, None)
    else
      var t := CM.UpdateSpec(space, cart[k].item.id, NewStock(cart[k]), RETRIES, envError(k), fates(k), notFound);
      var rest := StockWrites(cart, t.space, k + 1, envError, fates, notFound);
      Writes(rest.space, if t.result.Failed? then Some(t.result.message) else rest.failure)
  }

  /** The entry a line's stock write leaves once it has gone through: its new
      stock, published, under the entry's name. */
  function Written(space: Space, l: Line): Entry
    requires l.item.id in space
  {
    Entry(space[l.item.id].name, Stock(NewStock(l)), true)
  }

  /** No line from `k` on names `id`. */
  predicate Unnamed(cart: seq<Line>, k: nat, id: string)
  {
    forall i :: k <= i < |cart| ==> cart[i].item.id != id
  }

  /** One line's write keeps the keys and every name, touches no other
      entry, and, unless it fails, leaves the line's entry `Written`. */
  lemma LineWrite(space: Space, l: Line, envError: Option<string>, fate: nat -> CM.Attempt, notFound: string)
    ensures var t := CM.UpdateSpec(space, l.item.id, NewStock(l), RETRIES, envError, fate, notFound);
      t.space.Keys == space.Keys &&
      (forall id :: id in space && id != l.item.id ==> t.space[id] == space[id]) &&
      (forall id :: id in space ==> t.space[id].name == space[id].name) &&
      (!t.result.Failed? ==> l.item.id in space && t.space[l.item.id] == Written(space, l))
  {
    if envError.None? {
      var t := CM.Attempts(space, l.item.id, NewStock(l), RETRIES, 0, fate, notFound);
      CM.AttemptsOutcome(space, l.item.id, NewStock(l), RETRIES, 0, fate, notFound);
      CM.AttemptsDefined(space, l.item.id, NewStock(l), RETRIES, 0, fate, notFound);
      forall id | id in space ensures t.space[id].name == space[id].name {
        CM.AttemptsKeepName(space, l.item.id, NewStock(l), RETRIES, 0, fate, notFound, id);
      }
    }
  }

  /** The writes from line `k` keep the keys and every name, and leave the
      entries no line names as they were. */
  lemma {:induction false} WritesFrame(cart: seq<Line>, space: Space, k: nat, envError: nat -> Option<string>,
                                      fates: nat -> nat -> CM.Attempt, notFound: string)
    ensures var w := StockWrites(cart, space, k, envError, fates, notFound);
      w.space.Keys == space.Keys &&
      (forall id :: id in space && Unnamed(cart, k, id) ==> w.space[id] == space[id]) &&
      (forall id :: id in space ==> w.space[id].name == space[id].name)
    decreases |cart| - k
  {
    if k < |cart| {
      var t := CM.UpdateSpec(space, cart[k].item.id, NewStock(cart[k]), RETRIES, envError(k), fates(k), notFound);
      LineWrite(space, cart[k], envError(k), fates(k), notFound);
      WritesFrame(cart, t.space, k + 1, envError, fates, notFound);
    }
  }

  /** With one line per product, writes from line `k` that report no failure
      leave every such line's entry `Written`. */
  lemma {:induction false} CleanWritesLand(cart: seq<Line>, space: Space, k: nat, envError: nat -> Option<string>,
                                          fates: nat -> nat -> CM.Attempt, notFound: string)
    requires UniqueIds(cart)
    requires StockWrites(cart, space, k, envError, fates, notFound).failure.None?
    ensures var w := StockWrites(cart, space, k, envError, fates, notFound);
      w.space.Keys == space.Keys &&
      forall i :: k <= i < |cart| ==> cart[i].item.id in space && w.space[cart[i].item.id] == Written(space, cart[i])
    decreases |cart| - k
  {
    WritesFrame(cart, space, k, envError, fates, notFound);
    if k < |cart| {
      var t := CM.UpdateSpec(space, cart[k].item.id, NewStock(cart[k]), RETRIES, envError(k), fates(k), notFound);
      var w := StockWrites(cart, space, k, envError, fates, notFound);
      LineWrite(space, cart[k], envError(k), fates(k), notFound);
      WritesFrame(cart, t.space, k + 1, envError, fates, notFound);
      CleanWritesLand(cart, t.space, k + 1, envError, fates, notFound);
      assert Unnamed(cart, k + 1, cart[k].item.id);
      forall i | k < i < |cart| ensures w.space[cart[i].item.id] == Written(space, cart[i]) {
        assert cart[i].item.id != cart[k].item.id;
      }
    }
  }

  /** The writes of the first `j` lines, then those of the rest. */
  lemma {:induction false} WritesSplit(cart: seq<Line>, prefix: seq<Line>, space: Space, k: nat,
                                      envError: nat -> Option<string>, fates: nat -> nat -> CM.Attempt, notFound: string)
    requires k <= |prefix| <= |cart|
    requires forall i :: k <= i < |prefix| ==> prefix[i] == cart[i]
    ensures var p := StockWrites(prefix, space, k, envError, fates, notFound);
      var r := StockWrites(cart, p.space, |prefix|, envError, fates, notFound);
      StockWrites(cart, space, k, envError, fates, notFound) ==
        Writes(r.space, if p.failure.Some? then p.failure else r.failure)
    decreases |prefix| - k
  {
    if k < |prefix| {
      var t := CM.UpdateSpec(space, cart[k].item.id, NewStock(cart[k]), RETRIES, envError(k), fates(k), notFound);
      WritesSplit(cart, prefix, t.space, k + 1, envError, fates, notFound);
    }
  }

  /** Nothing is rolled back: when the writes of the first `j` lines all go
      through, those lines' entries stay `Written` whatever the later writes
      do. */
  lemma NoRollback(cart: seq<Line>, space: Space, j: nat, envError: nat -> Option<string>,
                   fates: nat -> nat -> CM.Attempt, notFound: string)
    requires UniqueIds(cart) && j <= |cart|
    requires StockWrites(cart[..j], space, 0, envError, fates, notFound).failure.None?
    ensures var w := StockWrites(cart, space, 0, envError, fates, notFound);
      w.space.Keys == space.Keys &&
      forall i :: 0 <= i < j ==> cart[i].item.id in space && w.space[cart[i].item.id] == Written(space, cart[i])
  {
    var prefix := cart[..j];
    var p := StockWrites(prefix, space, 0, envError, fates, notFound);
    var r := StockWrites(cart, p.space, j, envError, fates, notFound);
    PrefixUniqueIds(cart, j);
    CleanWritesLand(prefix, space, 0, envError, fates, notFound);
    WritesSplit(cart, prefix, space, 0, envError, fates, notFound);
    WritesFrame(cart, p.space, j, envError, fates, notFound);
    forall i | 0 <= i < j
      ensures cart[i].item.id in space && r.space[cart[i].item.id] == Written(space, cart[i])
    {
      assert prefix[i] == cart[i];
      assert Unnamed(cart, j, cart[i].item.id);
    }
  }

  lemma PrefixUniqueIds(cart: seq<Line>, j: nat)
    requires UniqueIds(cart) && j <= |cart|
    ensures UniqueIds(cart[..j])
  {
    forall a, b | 0 <= a < b < j ensures cart[..j][a].item.id != cart[..j][b].item.id {
      assert cart[..j][a] == cart[a] && cart[..j][b] == cart[b];
    }
  }

  /** One stored line item: `{ id, name, quantity, discountedPrice, image, costPrice }`. */
  function OrderItem(l: Line): Item
  {
    Item(l.item.id, l.item.name, l.quantity, l.item.discountedPrice.GetOr(0), l.item.costPrice, 0, l.item.image)
  }

  function OrderItems(cart: seq<Line>): (r: seq<Item>)
    ensures |r| == |cart| && forall i :: 0 <= i < |cart| ==> r[i] == OrderItem(cart[i])
  {
    seq(|cart|, i requires 0 <= i < |cart| => OrderItem(cart[i]))
  }

  /** `user.uid + "_" + Date.now()`. */
  function DocId(uid: string, now: nat): string
  {
    uid + "_" + Decimal(now)
  }

  /** The order document: the form data, the projected items, the cart total,
      the user and the clock. */
  function OrderFor(cart: seq<Line>, data: Customer, uid: string, now: nat): Order
  {
    Order(None, data, Some(OrderItems(cart)), Total(cart), uid, StampAt(now), None, None, Missing)
  }

  datatype Submit = Invalid(alert: string) | Failed(alert: string) | Placed(docId: string)

  /** Everything `onSubmit` leaves behind: its outcome, the CMS space, the
      orders collection and the cart. */
  datatype Submission = Submission(result: Submit, space: Space, orders: map<string, Order>, cart: seq<Line>)

  function FirstFailing(cart: seq<Line>): Option<Line>
    decreases |cart|
  {
    if |cart| == 0 then None
    else if Fails(cart[0]) then Some(cart[0])
    else FirstFailing(cart[1..])
  }

  function SubmitSpec(cart: seq<Line>, data: Customer, user: Option<string>, space: Space,
                      orders: map<string, Order>, now: nat, envError: nat -> Option<string>,
                      fates: nat -> nat -> CM.Attempt, notFound: string, writeError: Option<string>): Submission
  {
    match FirstFailing(cart)
    case Some(l) => Submission(Invalid(AlertFor(l)), space, orders, cart)
    case None =>
      var w := StockWrites(cart, space, 0, envError, fates, notFound);
      if w.failure.Some? then Submission(Failed(ORDER_ALERT + w.failure.value), w.space, orders, cart)
      else if user.None? then Submission(Failed(ORDER_ALERT + NO_USER_MESSAGE), w.space, orders, cart)
      else if writeError.Some? then Submission(Failed(ORDER_ALERT + writeError.value), w.space, orders, cart)
      else
        var id := DocId(user.value, now);
        Submission(Placed(id), w.space, orders[id := OrderFor(cart, data, user.value, now)], [])
  }

  /** The navigation a submission ends with. */
  function Target(s: Submit): Option<string>
  {
    if s.Placed? then Some("/success") else None
  }

  lemma {:induction false} FirstFailingSpec(cart: seq<Line>)
    ensures FirstFailing(cart).None? <==> forall i :: 0 <= i < |cart| ==> !Fails(cart[i])
    ensures FirstFailing(cart).Some? ==> exists i :: (0 <= i < |cart| && Fails(cart[i]) &&
      (forall j :: 0 <= j < i ==> !Fails(cart[j])) && FirstFailing(cart).value == cart[i])
    decreases |cart|
  {
    if |cart| > 0 && !Fails(cart[0]) {
      FirstFailingSpec(cart[1..]);
      if FirstFailing(cart[1..]).Some? {
        var i :| 0 <= i < |cart[1..]| && Fails(cart[1..][i]) &&
          (forall j :: 0 <= j < i ==> !Fails(cart[1..][j])) && FirstFailing(cart[1..]).value == cart[1..][i];
        assert cart[i + 1] == cart[1..][i];
        forall j | 0 <= j < i + 1 ensures !Fails(cart[j]) {
          if j > 0 { assert cart[j] == cart[1..][j - 1]; }
        }
      } else {
        forall i | 0 <= i < |cart| ensures !Fails(cart[i]) {
          if i > 0 { assert cart[i] == cart[1..][i - 1]; }
        }
      }
    }
  }

  /** The first failing line is the one every earlier line passes. */
  lemma {:induction false} FirstFailingIs(cart: seq<Line>, i: nat)
    requires i < |cart| && Fails(cart[i]) && forall j :: 0 <= j < i ==> !Fails(cart[j])
    ensures FirstFailing(cart) == Some(cart[i])
    decreases i
  {
    if i > 0 {
      assert !Fails(cart[0]);
      forall j | 0 <= j < i - 1 ensures !Fails(cart[1..][j]) {
        assert cart[1..][j] == cart[j + 1];
      }
      FirstFailingIs(cart[1..], i - 1);
    }
  }

  /** The stock writes of `onSubmit`, one line after another: the space they
      leave and the first failure, if any. */
  method WriteStock(cart: seq<Line>, space: Space, envError: nat -> Option<string>,
                    fates: nat -> nat -> CM.Attempt, notFound: string)
    returns (cur: Space, failure: Option<string>)
    ensures Writes(cur, failure) == StockWrites(cart, space, 0, envError, fates, notFound)
  {
    cur, failure := space, None;
    for i := 0 to |cart|
      invariant var whole := StockWrites(cart, space, 0, envError, fates, notFound);
        var rest := StockWrites(cart, cur, i, envError, fates, notFound);
        whole == Writes(rest.space, if failure.Some? then failure else rest.failure)
    {
      var t := CM.UpdateProductStock(cur, cart[i].item.id, NewStock(cart[i]), RETRIES, envError(i), fates(i), notFound);
      if t.result.Failed? && failure.None? {
        failure := Some(t.result.message);
      }
      cur := t.space;
    }
  }

  /** `onSubmit`: validate, write every line's stock, write the order, clear
      the cart. */
  method OnSubmit(store: Store, data: Customer, user: Option<string>, space: Space,
                  orders: map<string, Order>, now: nat, envError: nat -> Option<string>,
                  fates: nat -> nat -> CM.Attempt, notFound: string, writeError: Option<string>)
    returns (result: Submit, space': Space, orders': map<string, Order>)
    requires store.Valid()
    modifies store
    ensures store.Valid() && store.isOpen == old(store.isOpen)
    ensures Submission(result, space', orders', store.cart) ==
      SubmitSpec(old(store.cart), data, user, space, orders, now, envError, fates, notFound, writeError)
  {
    var cart := store.cart;
    var ok, alert := ValidateStock(cart);
    if !ok {
      var i :| 0 <= i < |cart| && Fails(cart[i]) &&
        (forall j :: 0 <= j < i ==> !Fails(cart[j])) && alert == Some(AlertFor(cart[i]));
      FirstFailingIs(cart, i);
      return Invalid(alert.value), space, orders;
    }
    FirstFailingSpec(cart);
    var cur, failure := WriteStock(cart, space, envError, fates, notFound);
    if failure.Some? {
      return Failed(ORDER_ALERT + failure.value), cur, orders;
    }
    if user.None? {
      return Failed(ORDER_ALERT + NO_USER_MESSAGE), cur, orders;
    }
    if writeError.Some? {
      return Failed(ORDER_ALERT + writeError.value), cur, orders;
    }
    var id := DocId(user.value, now);
    orders' := orders[id := OrderFor(cart, data, user.value, now)];
    store.ClearCart();
    return Placed(id), cur, orders';
  }

  // ---------------------------------------------------------------------
  // properties of the submit sequence

  /** A failed stock check writes nothing anywhere and keeps the cart. */
  lemma InvalidWritesNothing(cart: seq<Line>, data: Customer, user: Option<string>, space: Space,
                             orders: map<string, Order>, now: nat, envError: nat -> Option<string>,
                             fates: nat -> nat -> CM.Attempt, notFound: string, writeError: Option<string>)
    requires exists i :: 0 <= i < |cart| && Fails(cart[i])
    ensures var s := SubmitSpec(cart, data, user, space, orders, now, envError, fates, notFound, writeError);
      s.result.Invalid? && s.space == space && s.orders == orders && s.cart == cart
  {
    FirstFailingSpec(cart);
  }

  /** After the stock check passes, every stock figure written is a number no
      smaller than zero, or `NaN` when the cart line carries no stock. */
  lemma PassedWritesNonNegative(cart: seq<Line>)
    requires forall i :: 0 <= i < |cart| ==> !Fails(cart[i])
    ensures forall i :: 0 <= i < |cart| ==>
      (cart[i].item.inStock.Some? <==> NewStock(cart[i]).Some?) &&
      (NewStock(cart[i]).Some? ==> NewStock(cart[i]).value >= 0)
  {
  }

  /** The order is written only after every stock write succeeded; then the
      cart is empty and the page goes to /success. Otherwise the orders are
      as they were and the cart is kept, whatever the stock writes did. */
  lemma OrderOnlyAfterStock(cart: seq<Line>, data: Customer, user: Option<string>, space: Space,
                            orders: map<string, Order>, now: nat, envError: nat -> Option<string>,
                            fates: nat -> nat -> CM.Attempt, notFound: string, writeError: Option<string>)
    ensures var s := SubmitSpec(cart, data, user, space, orders, now, envError, fates, notFound, writeError);
      var w := StockWrites(cart, space, 0, envError, fates, notFound);
      (s.result.Placed? <==>
        (forall i :: 0 <= i < |cart| ==> !Fails(cart[i])) && w.failure.None? && user.Some? && writeError.None?) &&
      (s.result.Placed? ==>
        s.result.docId == DocId(user.value, now) && s.cart == [] && Target(s.result) == Some("/success") &&
        s.orders == orders[s.result.docId := OrderFor(cart, data, user.value, now)] && s.space == w.space) &&
      (!s.result.Placed? ==> s.orders == orders && s.cart == cart && Target(s.result).None?) &&
      (s.result.Failed? ==> s.space == w.space)
  {
    FirstFailingSpec(cart);
  }

  /** A submission that fails after the stock check keeps the stock writes
      that went through: when the first `j` lines' writes succeeded, their
      entries hold the new stock, published, though no order is written. */
  lemma FailedSubmitKeepsWrites(cart: seq<Line>, data: Customer, user: Option<string>, space: Space,
                                orders: map<string, Order>, now: nat, envError: nat -> Option<string>,
                                fates: nat -> nat -> CM.Attempt, notFound: string, writeError: Option<string>, j: nat)
    requires UniqueIds(cart) && j <= |cart|
    requires StockWrites(cart[..j], space, 0, envError, fates, notFound).failure.None?
    requires SubmitSpec(cart, data, user, space, orders, now, envError, fates, notFound, writeError).result.Failed?
    ensures var s := SubmitSpec(cart, data, user, space, orders, now, envError, fates, notFound, writeError);
      s.orders == orders && s.cart == cart && s.space.Keys == space.Keys &&
      forall i :: 0 <= i < j ==> cart[i].item.id in space && s.space[cart[i].item.id] == Written(space, cart[i])
  {
    OrderOnlyAfterStock(cart, data, user, space, orders, now, envError, fates, notFound, writeError);
    NoRollback(cart, space, j, envError, fates, notFound);
  }

  /** The stored order lists the cart's lines in cart order, projected to the
      six fields, and its total is the cart total. */
  lemma OrderMirrorsCart(cart: seq<Line>, data: Customer, uid: string, now: nat)
    ensures var o := OrderFor(cart, data, uid, now);
      o.items.Some? && |o.items.value| == |cart| && o.total == Total(cart) && o.userId == uid &&
      o.customer == data && QueryMillis(o.createdAt) == Some(now) &&
      forall i :: 0 <= i < |cart| ==>
        o.items.value[i].id == cart[i].item.id && o.items.value[i].name == cart[i].item.name &&
        o.items.value[i].quantity == cart[i].quantity && o.items.value[i].image == cart[i].item.image &&
        o.items.value[i].costPrice == cart[i].item.costPrice &&
        o.items.value[i].discountedPrice == cart[i].item.discountedPrice.GetOr(0)
  {
  }

  /** The document id splits back into the user id and the clock reading,
      for a user id without `_`. */
  lemma DocIdParts(uid: string, now: nat)
    requires '_' !in uid
    ensures Split(DocId(uid, now), '_') == [uid, Decimal(now)]
    ensures DigitsValue(Split(DocId(uid, now), '_')[1]) == now
  {
    var digits := Decimal(now);
    assert forall i :: 0 <= i < |digits| ==> digits[i] != '_';
    assert DocId(uid, now) == uid + ['_'] + digits;
    SplitCons(uid, '_', digits);
    SplitNoSep(digits, '_');
    DecimalRoundTrip(now);
  }

  /** With every remote call succeeding, a cart that passes the stock check is
      placed; with one line per product, every line's CMS entry then holds
      its new stock, published, and no other entry changes. */
  lemma HappyPath(cart: seq<Line>, data: Customer, uid: string, space: Space,
                  orders: map<string, Order>, now: nat, envError: nat -> Option<string>,
                  fates: nat -> nat -> CM.Attempt, notFound: string)
    requires forall i :: 0 <= i < |cart| ==> !Fails(cart[i])
    requires forall i :: 0 <= i < |cart| ==> envError(i).None?
    requires forall i :: 0 <= i < |cart| ==> cart[i].item.id in space
    requires forall i, a: nat :: 0 <= i < |cart| ==>
      fates(i)(a).getOk && fates(i)(a).unpublishOk && fates(i)(a).refetchOk && fates(i)(a).updateOk && fates(i)(a).publishOk
    ensures var s := SubmitSpec(cart, data, Some(uid), space, orders, now, envError, fates, notFound, None);
      s.result == Placed(DocId(uid, now)) && s.cart == [] && s.space.Keys == space.Keys &&
      (forall id :: id in space && Unnamed(cart, 0, id) ==> s.space[id] == space[id]) &&
      (UniqueIds(cart) ==> forall i :: 0 <= i < |cart| ==> s.space[cart[i].item.id] == Written(space, cart[i]))
  {
    HappyWrites(cart, space, 0, envError, fates, notFound);
    FirstFailingSpec(cart);
    WritesFrame(cart, space, 0, envError, fates, notFound);
    if UniqueIds(cart) {
      CleanWritesLand(cart, space, 0, envError, fates, notFound);
    }
  }

  lemma {:induction false} HappyWrites(cart: seq<Line>, space: Space, k: nat, envError: nat -> Option<string>,
                                      fates: nat -> nat -> CM.Attempt, notFound: string)
    requires forall i :: k <= i < |cart| ==> envError(i).None?
    requires forall i :: k <= i < |cart| ==> cart[i].item.id in space
    requires forall i, a: nat :: k <= i < |cart| ==>
      fates(i)(a).getOk && fates(i)(a).unpublishOk && fates(i)(a).refetchOk && fates(i)(a).updateOk && fates(i)(a).publishOk
    ensures StockWrites(cart, space, k, envError, fates, notFound).failure.None?
    decreases |cart| - k
  {
    if k < |cart| {
      var t := CM.UpdateSpec(space, cart[k].item.id, NewStock(cart[k]), RETRIES, envError(k), fates(k), notFound);
      CM.TryOnceFrame(space, cart[k].item.id, NewStock(cart[k]), fates(k)(0), notFound);
      assert t.result.Published?;
      CM.AttemptsOutcome(space, cart[k].item.id, NewStock(cart[k]), RETRIES, 0, fates(k), notFound);
      HappyWrites(cart, t.space, k + 1, envError, fates, notFound);
    }
  }

  // ---------------------------------------------------------------------
  // the "+" control and the phone rule

  /** `item.quantity < item.inStock && increaseQty(item.id)`; with no stock
      figure the comparison is false. */
  predicate PlusAllowed(l: Line)
  {
    l.item.inStock.Some? && l.quantity < l.item.inStock.value
  }

  method PlusClick(store: Store, k: int)
    requires store.Valid() && 0 <= k < |store.cart|
    modifies store
    ensures store.Valid() && store.isOpen == old(store.isOpen)
    ensures store.cart == if PlusAllowed(old(store.cart)[k]) then Increased(old(store.cart), old(store.cart)[k].item.id)
                          else old(store.cart)
  {
    if PlusAllowed(store.cart[k]) {
      store.IncreaseQty(store.cart[k].item.id);
    }
  }

  /** The "+" control never takes a line past its stock figure. */
  lemma PlusKeepsWithinStock(cart: seq<Line>, k: int)
    requires UniqueIds(cart) && 0 <= k < |cart| && PlusAllowed(cart[k])
    ensures Increased(cart, cart[k].item.id)[k].quantity <= cart[k].item.inStock.value
    ensures forall i :: 0 <= i < |cart| && i != k ==> Increased(cart, cart[k].item.id)[i] == cart[i]
  {
  }

  /** `/^\+92[0-9]{10}$/`. */
  predicate ValidPhone(s: string)
  {
    |s| == 13 && s[..3] == "+92" && forall i :: 3 <= i < 13 ==> IsDigit(s[i])
  }

  /** A valid phone is exactly "+92" followed by ten digits. */
  lemma ValidPhoneShape(digits: string)
    ensures ValidPhone("+92" + digits) <==> |digits| == 10 && forall i :: 0 <= i < |digits| ==> IsDigit(digits[i])
  {
    var s := "+92" + digits;
    assert s[..3] == "+92";
    assert forall i :: 0 <= i < |digits| ==> s[i + 3] == digits[i];
  }

  lemma PhoneExamples()
    ensures ValidPhone("+923001234567")
    ensures !ValidPhone("+92300123456")
    ensures !ValidPhone("03001234567")
  {
    assert "+923001234567"[..3] == "+92";
  }
}
