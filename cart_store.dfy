/** The shopping-cart store: an ordered list of lines keyed by product id and
    a drawer flag. Every action replaces the list with a new one; the list
    operations are the functions below and the store is the class `Store`. */
module CartStore {
  import opened Base

  /** The product fields a cart line carries (the store copies every field
      it is given). Money is in minor units. */
  datatype Merch = Merch(
    id: string,
    name: string,
    image: string,
    price: int,
    discountedPrice: Option<int>,
    costPrice: int,
    inStock: Option<int>)

  datatype Line = Line(item: Merch, quantity: int)

  predicate HasLine(cart: seq<Line>, id: string)
  {
    exists i :: 0 <= i < |cart| && cart[i].item.id == id
  }

  predicate UniqueIds(cart: seq<Line>)
  {
    forall i, j :: 0 <= i < j < |cart| ==> cart[i].item.id != cart[j].item.id
  }

  /** The store invariant: one line per product, each with at least one unit. */
  predicate WellFormed(cart: seq<Line>)
  {
    UniqueIds(cart) && forall i :: 0 <= i < |cart| ==> cart[i].quantity >= 1
  }

  function IdIs(id: string): Line -> bool
  {
    (l: Line) => l.item.id == id
  }

  function IdIsNot(id: string): Line -> bool
  {
    (l: Line) => l.item.id != id
  }

  function Bump(): Line -> Line
  {
    (l: Line) => l.(quantity := l.quantity + 1)
  }

  function Shrinkable(id: string): Line -> bool
  {
    (l: Line) => l.item.id == id && l.quantity > 1
  }

  function Unbump(): Line -> Line
  {
    (l: Line) => l.(quantity := l.quantity - 1)
  }

  /** `addToCart`: one more unit of an existing line, or a new last line of one unit. */
  function Added(cart: seq<Line>, m: Merch): seq<Line>
  {
    if HasLine(cart, m.id) then MapWhere(cart, IdIs(m.id), Bump()) else cart + [Line(m, 1)]
  }

  /** `removeFromCart`. */
  function Removed(cart: seq<Line>, id: string): seq<Line>
  {
    Filter(cart, IdIsNot(id))
  }

  /** `increaseQty`. */
  function Increased(cart: seq<Line>, id: string): seq<Line>
  {
    MapWhere(cart, IdIs(id), Bump())
  }

  /** `decreaseQty`: only a line with more than one unit goes down. */
  function Decreased(cart: seq<Line>, id: string): seq<Line>
  {
    MapWhere(cart, Shrinkable(id), Unbump())
  }

  function LineAmount(): Line -> int
  {
    (l: Line) => l.quantity * l.item.price
  }

  /** `total()`: the sum of quantity times list price over the lines. */
  function Total(cart: seq<Line>): int
  {
    Sum(cart, LineAmount())
  }

  // ---------------------------------------------------------------------
  // what each action does to the list

  /** A new product becomes the last line, with quantity 1 and every field copied. */
  lemma AddNew(cart: seq<Line>, m: Merch)
    requires !HasLine(cart, m.id)
    ensures Added(cart, m) == cart + [Line(m, 1)]
    ensures Added(cart, m)[|cart|].item == m
  {
  }

  /** A product already in the cart gets one more unit on its own line; the
      line keeps its old fields and no line is added. */
  lemma AddExisting(cart: seq<Line>, m: Merch, k: int)
    requires UniqueIds(cart) && 0 <= k < |cart| && cart[k].item.id == m.id
    ensures |Added(cart, m)| == |cart|
    ensures Added(cart, m)[k] == Line(cart[k].item, cart[k].quantity + 1)
    ensures forall i :: 0 <= i < |cart| && i != k ==> Added(cart, m)[i] == cart[i]
  {
  }

  /** Removing deletes every line with the id and keeps the others in order. */
  lemma RemoveSpec(cart: seq<Line>, id: string)
    ensures !HasLine(Removed(cart, id), id)
    ensures forall l :: l in Removed(cart, id) <==> l in cart && l.item.id != id
    ensures Subsequence(Removed(cart, id), cart)
  {
    FilterIsSubsequence(cart, IdIsNot(id));
    var r := Removed(cart, id);
    forall i | 0 <= i < |r| ensures r[i].item.id != id {
      assert r[i] in r;
    }
  }

  /** Decreasing never removes a line and never takes a quantity below 1
      (nor changes a line that is already at 1). */
  lemma DecreaseSpec(cart: seq<Line>, id: string)
    requires WellFormed(cart)
    ensures |Decreased(cart, id)| == |cart|
    ensures forall i :: 0 <= i < |cart| ==> Decreased(cart, id)[i].quantity >= 1
    ensures forall i :: 0 <= i < |cart| && cart[i].quantity == 1 ==> Decreased(cart, id)[i] == cart[i]
  {
  }

  // ---------------------------------------------------------------------
  // the invariant

  lemma {:induction false} FilterWellFormed(cart: seq<Line>, keep: Line -> bool)
    requires WellFormed(cart)
    ensures WellFormed(Filter(cart, keep))
    decreases |cart|
  {
    if |cart| > 0 {
      var tail := cart[1..];
      FilterWellFormed(tail, keep);
      var ft := Filter(tail, keep);
      forall i | 0 <= i < |ft| ensures ft[i].item.id != cart[0].item.id {
        assert ft[i] in ft;
        var j :| 0 <= j < |tail| && tail[j] == ft[i];
        assert cart[j + 1] == ft[i];
      }
    }
  }

  lemma AddedWellFormed(cart: seq<Line>, m: Merch)
    requires WellFormed(cart)
    ensures WellFormed(Added(cart, m))
  {
  }

  lemma AddedUniqueIds(cart: seq<Line>, m: Merch)
    requires UniqueIds(cart)
    ensures UniqueIds(Added(cart, m))
  {
  }

  lemma RemovedWellFormed(cart: seq<Line>, id: string)
    requires WellFormed(cart)
    ensures WellFormed(Removed(cart, id))
  {
    FilterWellFormed(cart, IdIsNot(id));
  }

  lemma IncreasedWellFormed(cart: seq<Line>, id: string)
    requires WellFormed(cart)
    ensures WellFormed(Increased(cart, id))
  {
  }

  lemma DecreasedWellFormed(cart: seq<Line>, id: string)
    requires WellFormed(cart)
    ensures WellFormed(Decreased(cart, id))
  {
  }

  // ---------------------------------------------------------------------
  // inverses

  /** `decreaseQty` undoes `increaseQty` on a well-formed cart. */
  lemma IncreaseThenDecrease(cart: seq<Line>, id: string)
    requires WellFormed(cart)
    ensures Decreased(Increased(cart, id), id) == cart
  {
    var up := Increased(cart, id);
    var down := Decreased(up, id);
    forall i | 0 <= i < |cart| ensures down[i] == cart[i] {
      if cart[i].item.id == id {
        assert up[i].quantity == cart[i].quantity + 1 > 1;
      }
    }
  }

  /** Removing a product that was just added as new gives back the cart. */
  lemma AddNewThenRemove(cart: seq<Line>, m: Merch)
    requires !HasLine(cart, m.id)
    ensures Removed(Added(cart, m), m.id) == cart
  {
    FilterAppend(cart, [Line(m, 1)], IdIsNot(m.id));
    forall i | 0 <= i < |cart| ensures IdIsNot(m.id)(cart[i]) {
    }
    FilterAll(cart, IdIsNot(m.id));
    assert Filter([Line(m, 1)], IdIsNot(m.id)) == [];
  }

  // ---------------------------------------------------------------------
  // totals

  lemma TotalEmpty()
    ensures Total([]) == 0
  {
  }

  /** Adding a new product raises the total by its list price. */
  lemma TotalAddedNew(cart: seq<Line>, m: Merch)
    requires !HasLine(cart, m.id)
    ensures Total(Added(cart, m)) == Total(cart) + m.price
  {
    SumAppend(cart, [Line(m, 1)], LineAmount());
    assert Sum([Line(m, 1)], LineAmount()) == m.price;
  }

  /** Adding a product already in the cart raises the total by the price the
      cart line already carries (the line keeps its old fields). */
  lemma TotalAddedExisting(cart: seq<Line>, m: Merch, k: int)
    requires UniqueIds(cart) && 0 <= k < |cart| && cart[k].item.id == m.id
    ensures Total(Added(cart, m)) == Total(cart) + cart[k].item.price
  {
    var r := Added(cart, m);
    forall i | 0 <= i < |cart| && i != k ensures r[i] == cart[i] {
      assert cart[i].item.id != m.id;
    }
    SumUpdateOne(cart, r, k, LineAmount());
    assert r[k] == Line(cart[k].item, cart[k].quantity + 1);
    assert r[k].quantity * r[k].item.price == cart[k].quantity * cart[k].item.price + cart[k].item.price;
  }

  /** Removal keeps a list none of whose lines has the id. */
  lemma RemovedNone(s: seq<Line>, id: string)
    requires forall i :: 0 <= i < |s| ==> s[i].item.id != id
    ensures Removed(s, id) == s
  {
    FilterAll(s, IdIsNot(id));
  }

  /** Removal drops a line with the id from between two lists without it. */
  lemma RemovedMiddle(before: seq<Line>, l: Line, after: seq<Line>)
    requires Removed(before, l.item.id) == before && Removed(after, l.item.id) == after
    ensures Removed(before + [l] + after, l.item.id) == before + after
  {
    var keep := IdIsNot(l.item.id);
    var tail := [l] + after;
    assert !keep(l);
    assert tail[0] == l && tail[1..] == after;
    assert Filter(tail, keep) == Filter(after, keep);
    assert before + [l] + after == before + tail;
    FilterAppend(before, tail, keep);
  }

  /** With unique ids, removing the product of line `k` drops exactly that line. */
  lemma RemovedOneLine(cart: seq<Line>, k: int)
    requires UniqueIds(cart) && 0 <= k < |cart|
    ensures Removed(cart, cart[k].item.id) == cart[..k] + cart[k + 1..]
  {
    var id := cart[k].item.id;
    var before, after := cart[..k], cart[k + 1..];
    forall i | 0 <= i < |before| ensures before[i].item.id != id {
      assert before[i] == cart[i];
    }
    RemovedNone(before, id);
    forall i | 0 <= i < |after| ensures after[i].item.id != id {
      assert after[i] == cart[k + 1 + i];
    }
    RemovedNone(after, id);
    assert cart == before + [cart[k]] + after;
    RemovedMiddle(before, cart[k], after);
  }

  /** Removing a product lowers the total by exactly that line's amount. */
  lemma TotalRemoved(cart: seq<Line>, k: int)
    requires UniqueIds(cart) && 0 <= k < |cart|
    ensures Total(Removed(cart, cart[k].item.id)) == Total(cart) - cart[k].quantity * cart[k].item.price
  {
    RemovedOneLine(cart, k);
    assert cart == cart[..k] + ([cart[k]] + cart[k + 1..]);
    SumAppend(cart[..k], cart[k + 1..], LineAmount());
    SumAppend(cart[..k], [cart[k]] + cart[k + 1..], LineAmount());
    SumAppend([cart[k]], cart[k + 1..], LineAmount());
    assert Sum([cart[k]], LineAmount()) == cart[k].quantity * cart[k].item.price;
  }

  // ---------------------------------------------------------------------
  // the store

  class Store {
    var cart: seq<Line>
    var isOpen: bool

    ghost predicate Valid()
      reads this
    {
      WellFormed(cart)
    }

    constructor()
      ensures Valid() && cart == [] && !isOpen
    {
      cart := [];
      isOpen := false;
    }

    method ToggleCart()
      modifies this
      ensures isOpen == !old(isOpen) && cart == old(cart)
    {
      isOpen := !isOpen;
    }

    method AddToCart(m: Merch)
      requires Valid()
      modifies this
      ensures Valid() && cart == Added(old(cart), m) && isOpen == old(isOpen)
    {
      AddedWellFormed(cart, m);
      cart := Added(cart, m);
    }

    method RemoveFromCart(id: string)
      requires Valid()
      modifies this
      ensures Valid() && cart == Removed(old(cart), id) && isOpen == old(isOpen)
    {
      RemovedWellFormed(cart, id);
      cart := Removed(cart, id);
    }

    method IncreaseQty(id: string)
      requires Valid()
      modifies this
      ensures Valid() && cart == Increased(old(cart), id) && isOpen == old(isOpen)
    {
      cart := Increased(cart, id);
    }

    method DecreaseQty(id: string)
      requires Valid()
      modifies this
      ensures Valid() && cart == Decreased(old(cart), id) && isOpen == old(isOpen)
    {
      DecreasedWellFormed(cart, id);
      cart := Decreased(cart, id);
    }

    method ClearCart()
      requires Valid()
      modifies this
      ensures Valid() && cart == [] && isOpen == old(isOpen)
    {
      cart := [];
    }
  }
}
