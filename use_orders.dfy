/** The orders hook: it lists the `orders` collection and deletes an order,
    updating the local list only after the remote delete succeeds. */
module UseOrders {
  import opened Base
  import opened Ledger

  /** A listed order: its `id` and the stored data. */
  datatype ListedOrder = ListedOrder(id: string, data: Order)

  /** `{ id: doc.id, ...doc.data() }`: an `id` field stored in the document
      comes later in the spread and wins over the document id. */
  function Listed(d: OrderDoc): (o: ListedOrder)
    ensures o.data == d.data
    ensures o.id == (if d.data.storedId.Some? then d.data.storedId.value else d.docId)
  {
    ListedOrder(d.data.storedId.GetOr(d.docId), d.data)
  }

  function ListOrders(docs: seq<OrderDoc>): (r: seq<ListedOrder>)
    ensures |r| == |docs| && forall i :: 0 <= i < |docs| ==> r[i] == Listed(docs[i])
  {
    seq(|docs|, i requires 0 <= i < |docs| => Listed(docs[i]))
  }

  function OtherId(id: string): ListedOrder -> bool
  {
    (o: ListedOrder) => o.id != id
  }

  /** `prev.filter(order => order.id !== id)`. */
  function Removed(orders: seq<ListedOrder>, id: string): seq<ListedOrder>
  {
    Filter(orders, OtherId(id))
  }

  /** Removal drops every order with that id, keeps the rest in order, and
      removes as many as carry the id. */
  lemma RemovedSpec(orders: seq<ListedOrder>, id: string)
    ensures forall o :: o in Removed(orders, id) <==> o in orders && o.id != id
    ensures Subsequence(Removed(orders, id), orders)
    ensures |Removed(orders, id)| + |Filter(orders, (o: ListedOrder) => o.id == id)| == |orders|
  {
    FilterIsSubsequence(orders, OtherId(id));
    FilterPartition(orders, OtherId(id), (o: ListedOrder) => o.id == id);
  }

  function OtherDoc(id: string): OrderDoc -> bool
  {
    (d: OrderDoc) => d.docId != id
  }

  /** `deleteDoc(doc(db, "orders", id))` on the collection: the document with
      that id goes; with none, the call succeeds and nothing goes. */
  function DeleteDoc(docs: seq<OrderDoc>, id: string): seq<OrderDoc>
  {
    Filter(docs, OtherDoc(id))
  }

  /** An order that stores an `id` field other than its document id is
      listed under the stored id, so deleting it from the list sends the
      remote delete to the stored id: the list drops the order, yet its
      document stays in the collection, and the next fetch lists it again. */
  lemma ListedIdSource(docs: seq<OrderDoc>, k: int)
    requires 0 <= k < |docs|
    requires forall i :: 0 <= i < |docs| ==> docs[i].docId != Listed(docs[k]).id
    ensures var id := Listed(docs[k]).id;
      Listed(docs[k]) !in Removed(ListOrders(docs), id) &&
      docs[k] in DeleteDoc(docs, id) &&
      Listed(docs[k]) in ListOrders(DeleteDoc(docs, id))
  {
    var id := Listed(docs[k]).id;
    RemovedSpec(ListOrders(docs), id);
    assert DeleteDoc(docs, id) == docs by {
      FilterAll(docs, OtherDoc(id));
    }
    assert ListOrders(docs)[k] == Listed(docs[k]);
  }

  const FETCH_ERROR := "Failed to fetch orders."
  const DELETE_ERROR := "Failed to delete order."

  class OrdersHook {
    var orders: seq<ListedOrder>
    var loading: bool
    var error: Option<string>

    constructor()
      ensures orders == [] && loading && error.None?
    {
      orders := [];
      loading := true;
      error := None;
    }

    /** The mount effect; `snapshot` is `None` when the read fails. */
    method FetchOrders(snapshot: Option<seq<OrderDoc>>)
      modifies this
      ensures snapshot.Some? ==> orders == ListOrders(snapshot.value) && error == old(error)
      ensures snapshot.None? ==> orders == old(orders) && error == Some(FETCH_ERROR)
      ensures !loading
    {
      if snapshot.Some? {
        orders := ListOrders(snapshot.value);
      } else {
        error := Some(FETCH_ERROR);
      }
      loading := false;
    }

    /** `deleteOrder`. */
    method DeleteOrder(id: string, writeOk: bool)
      modifies this
      ensures writeOk ==> orders == Removed(old(orders), id) && error == old(error)
      ensures !writeOk ==> orders == old(orders) && error == Some(DELETE_ERROR)
      ensures loading == old(loading)
    {
      if writeOk {
        orders := Removed(orders, id);
      } else {
        error := Some(DELETE_ERROR);
      }
    }
  }
}
