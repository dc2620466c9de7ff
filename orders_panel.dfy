/** The admin orders panel: the same listing and removal as the orders
    hook, with a detail dialog and no error state. */
module OrdersPanel {
  import opened Base
  import opened Ledger
  import opened UseOrders

  class Panel {
    var orders: seq<ListedOrder>
    var loading: bool
    var selectedOrder: Option<ListedOrder>

    constructor()
      ensures orders == [] && loading && selectedOrder.None?
    {
      orders := [];
      loading := true;
      selectedOrder := None;
    }

    /** The mount effect: a failed read leaves the list as it was. */
    method FetchOrders(snapshot: Option<seq<OrderDoc>>)
      modifies this
      ensures orders == if snapshot.Some? then ListOrders(snapshot.value) else old(orders)
      ensures !loading && selectedOrder == old(selectedOrder)
    {
      if snapshot.Some? {
        orders := ListOrders(snapshot.value);
      }
      loading := false;
    }

    /** `handleDelete`: the dialog, if open, stays open. */
    method HandleDelete(id: string, writeOk: bool)
      modifies this
      ensures orders == if writeOk then Removed(old(orders), id) else old(orders)
      ensures loading == old(loading) && selectedOrder == old(selectedOrder)
    {
      if writeOk {
        orders := Removed(orders, id);
      }
    }

    /** The View button. */
    method View(o: ListedOrder)
      modifies this
      ensures selectedOrder == Some(o)
      ensures orders == old(orders) && loading == old(loading)
    {
      selectedOrder := Some(o);
    }

    /** The Close button. */
    method Close()
      modifies this
      ensures selectedOrder.None?
      ensures orders == old(orders) && loading == old(loading)
    {
      selectedOrder := None;
    }
  }

  /** Deleting the order on show removes it from the list but not from the
      dialog, which keeps showing it until closed. */
  lemma DeletedOrderStaysSelected(orders: seq<ListedOrder>, o: ListedOrder)
    ensures o !in Removed(orders, o.id)
  {
    RemovedSpec(orders, o.id);
  }
}
