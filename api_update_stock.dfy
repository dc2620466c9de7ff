/** The clamping stock handler (`api/updatestock.ts`): every requested item
    has its stock lowered by the quantity, floored at zero, updated and
    published. The per-item work runs under `Promise.all`, so one failing
    item does not stop the others; any failure turns the response into 500. */
module StockClampHandler {
  import opened Base
  import opened Cms
  import opened Http
  import opened StockCheckHandler

  const NOT_ALLOWED := Response(405, ErrorJson("Method not allowed"))
  const INVALID_BODY := Response(400, ErrorJson("Invalid request body"))
  const UPDATE_FAILED := Response(500, ErrorJson("Failed to update stock"))
  const UPDATED := Response(200, MessageJson("Stock updated successfully"))

  /** The space after one item and whether that item's promise resolved. */
  datatype Effect = Effect(space: Space, ok: bool)

  /** `Math.max(currentStock - quantity, 0)` with `currentStock = 'en-US' || 0`. */
  function Clamped(e: Entry, quantity: int): (r: Entry)
    requires e.inStock.Stock?
    ensures r.name == e.name && r.published == e.published
    ensures r.inStock.Stock? && r.inStock.enUS.Some? && r.inStock.enUS.value >= 0
    ensures r.inStock.enUS.value == StockOrZero(e.inStock) - quantity || r.inStock.enUS.value == 0
    ensures r.inStock.enUS.value >= StockOrZero(e.inStock) - quantity
  {
    e.(inStock := Stock(Some(Max(StockOrZero(e.inStock) - quantity, 0))))
  }

  /** One item's promise: a missing entry, a rejecting `getEntry` or a
      missing `inStock` field rejects before any write; a failed `update` writes nothing; a failed
      `publish` leaves the new figure saved but unpublished. */
  function ClampStep(space: Space, item: StockItem, c: Commit): Effect
  {
    if item.id !in space || !c.getOk || space[item.id].inStock.NoStockField? then Effect(space, false)
    else
      var written := Clamped(space[item.id], item.quantity);
      if !c.updateOk then Effect(space, false)
      else if !c.publishOk then Effect(space[item.id := written], false)
      else Effect(space[item.id := written.(published := true)], true)
  }

  /** Items `k`, `k + 1`, ...: every one runs whatever happened to the others. */
  function ApplyAll(items: seq<StockItem>, space: Space, fate: nat -> Commit, k: nat): Effect
    decreases |items| - k
  {
    if k >= |items| then Effect(space, true)
    else
      var e := ClampStep(space, items[k], fate(k));
      var rest := ApplyAll(items, e.space, fate, k + 1);
      Effect(rest.space, e.ok && rest.ok)
  }

  function HandleSpec(req: StockRequest, space: Space, envOk: bool, fate: nat -> Commit): Outcome
  {
    if req.httpMethod != "POST" then Outcome(NOT_ALLOWED, space)
    else if req.items.None? then Outcome(INVALID_BODY, space)
    else if !envOk then Outcome(UPDATE_FAILED, space)
    else
      var e := ApplyAll(req.items.value, space, fate, 0);
      Outcome(if e.ok then UPDATED else UPDATE_FAILED, e.space)
  }

  method Handle(req: StockRequest, space: Space, envOk: bool, fate: nat -> Commit) returns (out: Outcome)
    ensures out == HandleSpec(req, space, envOk, fate)
  {
    if req.httpMethod != "POST" {
      return Outcome(NOT_ALLOWED, space);
    }
    if req.items.None? {
      return Outcome(INVALID_BODY, space);
    }
    if !envOk {
      return Outcome(UPDATE_FAILED, space);
    }
    var items := req.items.value;
    var cur := space;
    var allOk := true;
    for i := 0 to |items|
      invariant var whole := ApplyAll(items, space, fate, 0);
        var rest := ApplyAll(items, cur, fate, i);
        whole == Effect(rest.space, allOk && rest.ok)
    {
      var item, prev := items[i], cur;
      var stepOk := false;
      if item.id in cur && fate(i).getOk && cur[item.id].inStock.Stock? {
        var entry := Clamped(cur[item.id], item.quantity);
        if fate(i).updateOk {
          cur := cur[item.id := entry];
          if fate(i).publishOk {
            cur := cur[item.id := entry.(published := true)];
            stepOk := true;
          }
        }
      }
      assert ClampStep(prev, item, fate(i)) == Effect(cur, stepOk);
      allOk := allOk && stepOk;
    }
    return Outcome(if allOk then UPDATED else UPDATE_FAILED, cur);
  }

  // ---------------------------------------------------------------------
  // properties

  /** Unlike the checking handler, this one never answers 400 for short
      stock: a well-formed POST gets 200 or 500. */
  lemma NoShortStockRejection(req: StockRequest, space: Space, envOk: bool, fate: nat -> Commit)
    requires req.httpMethod == "POST" && req.items.Some?
    ensures HandleSpec(req, space, envOk, fate).response in {UPDATED, UPDATE_FAILED}
  {
  }

  /** Every stock figure the handler writes is a number no smaller than zero. */
  lemma {:induction false} ApplyAllNonNegative(items: seq<StockItem>, space: Space, fate: nat -> Commit, k: nat)
    ensures WritesNonNegative(space, ApplyAll(items, space, fate, k).space)
    decreases |items| - k
  {
    if k < |items| {
      var e := ClampStep(space, items[k], fate(k));
      ApplyAllNonNegative(items, e.space, fate, k + 1);
    }
  }

  /** With distinct ids the items do not interact: each item's entry ends up
      as its own step on the original space would leave it, the call succeeds
      exactly when every step does, and entries no item names are untouched. */
  lemma {:induction false} ItemsIndependent(items: seq<StockItem>, s: Space, fate: nat -> Commit,
                                            k: nat, space: Space)
    requires DistinctIds(items)
    requires forall m :: k <= m < |items| ==>
      (items[m].id in s <==> items[m].id in space) &&
      (items[m].id in space ==> s[items[m].id] == space[items[m].id])
    ensures var r := ApplyAll(items, s, fate, k);
      r.space.Keys == s.Keys &&
      (r.ok <==> forall m :: k <= m < |items| ==> ClampStep(space, items[m], fate(m)).ok) &&
      (forall m :: k <= m < |items| && items[m].id in space ==>
        r.space[items[m].id] == ClampStep(space, items[m], fate(m)).space[items[m].id]) &&
      (forall id :: id in s && (forall m :: k <= m < |items| ==> items[m].id != id) ==> r.space[id] == s[id])
    decreases |items| - k
  {
    if k < |items| {
      var it := items[k];
      var e := ClampStep(s, it, fate(k));
      forall m | k + 1 <= m < |items|
        ensures (items[m].id in e.space <==> items[m].id in space) &&
          (items[m].id in space ==> e.space[items[m].id] == space[items[m].id])
      {
        assert items[m].id != it.id;
      }
      ItemsIndependent(items, e.space, fate, k + 1, space);
    }
  }

  /** When every item has an entry with an `inStock` field and every SDK
      call succeeds, the response is 200 and each entry holds its old figure
      minus the quantity, floored at zero, published. */
  lemma AllItemsWritten(req: StockRequest, space: Space, fate: nat -> Commit)
    requires req.httpMethod == "POST" && req.items.Some? && DistinctIds(req.items.value)
    requires forall m :: 0 <= m < |req.items.value| ==>
      var it := req.items.value[m];
      it.id in space && space[it.id].inStock.Stock? && fate(m).getOk && fate(m).updateOk && fate(m).publishOk
    ensures var out := HandleSpec(req, space, true, fate);
      out.response == UPDATED &&
      forall m :: 0 <= m < |req.items.value| ==>
        var it := req.items.value[m];
        it.id in out.space &&
        out.space[it.id] == Clamped(space[it.id], it.quantity).(published := true)
  {
    ItemsIndependent(req.items.value, space, fate, 0, space);
  }
}
