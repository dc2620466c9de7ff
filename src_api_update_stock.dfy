/** The check-and-decrement stock handler (`src/api/updateStock.ts`): for
    each requested item in order it reads the entry, rejects the request at
    the first item whose stock is short, and otherwise writes the decremented
    stock, updates and publishes. Nothing already written is undone. */
module StockCheckHandler {
  import opened Base
  import opened Cms
  import opened Http

  datatype StockItem = StockItem(id: string, quantity: int)

  /** `req.method` and `req.body.items` (`None` when missing or not iterable). */
  datatype StockRequest = StockRequest(httpMethod: string, items: Option<seq<StockItem>>)

  /** Whether `env.getEntry(item.id)` resolves for an entry the space holds,
      and whether `entry.update()` and `entry.publish()` succeed, for one item. */
  datatype Commit = Commit(getOk: bool, updateOk: bool, publishOk: bool)

  const FAILED := Response(500, ErrorJson("Stock update failed"))

  datatype Step = Next(space: Space) | Stop(response: Response, space: Space)

  /** The decremented, published entry. */
  function Decremented(e: Entry, quantity: int): Entry
    requires e.inStock.Stock?
  {
    e.(inStock := Stock(Some(StockOrZero(e.inStock) - quantity)), published := true)
  }

  /** One pass of the `for` loop. A missing entry, a failing `getEntry`, a
      missing `inStock` field and a failing SDK call all throw, which the
      handler turns into 500. */
  function StepItem(space: Space, item: StockItem, c: Commit): Step
  {
    if item.id !in space || !c.getOk then Stop(FAILED, space)
    else
      var e := space[item.id];
      if e.inStock.NoStockField? then Stop(FAILED, space)
      else
        var stock := StockOrZero(e.inStock);
        if stock < item.quantity then
          Stop(Response(400, ErrorJson("Insufficient stock for " + e.name)), space)
        else
          var written := e.(inStock := Stock(Some(stock - item.quantity)));
          if !c.updateOk then Stop(FAILED, space)
          else if !c.publishOk then Stop(FAILED, space[item.id := written])
          else Next(space[item.id := written.(published := true)])
  }

  datatype Outcome = Outcome(response: Response, space: Space)

  /** Items `k`, `k + 1`, ... of the loop, each against the space the earlier ones left. */
  function Run(items: seq<StockItem>, space: Space, fate: nat -> Commit, k: nat): Outcome
    decreases |items| - k
  {
    if k >= |items| then Outcome(Response(200, SuccessJson), space)
    else match StepItem(space, items[k], fate(k))
      case Stop(r, s) => Outcome(r, s)
      case Next(s) => Run(items, s, fate, k + 1)
  }

  function HandleSpec(req: StockRequest, space: Space, envOk: bool, fate: nat -> Commit): Outcome
  {
    if req.httpMethod != "POST" then Outcome(Response(405, Text("Method Not Allowed")), space)
    else if !envOk || req.items.None? then Outcome(FAILED, space)
    else Run(req.items.value, space, fate, 0)
  }

  method Handle(req: StockRequest, space: Space, envOk: bool, fate: nat -> Commit) returns (out: Outcome)
    ensures out == HandleSpec(req, space, envOk, fate)
  {
    if req.httpMethod != "POST" {
      return Outcome(Response(405, Text("Method Not Allowed")), space);
    }
    if !envOk || req.items.None? {
      return Outcome(FAILED, space);
    }
    var items := req.items.value;
    var cur := space;
    for i := 0 to |items|
      invariant Run(items, space, fate, 0) == Run(items, cur, fate, i)
    {
      var item, prev := items[i], cur;
      if item.id !in cur || !fate(i).getOk {
        return Outcome(FAILED, cur);
      }
      var entry := cur[item.id];
      if entry.inStock.NoStockField? {
        return Outcome(FAILED, cur);
      }
      var stock := StockOrZero(entry.inStock);
      if stock < item.quantity {
        return Outcome(Response(400, ErrorJson("Insufficient stock for " + entry.name)), cur);
      }
      entry := entry.(inStock := Stock(Some(stock - item.quantity)));
      if !fate(i).updateOk {
        return Outcome(FAILED, cur);
      }
      cur := cur[item.id := entry];
      if !fate(i).publishOk {
        return Outcome(FAILED, cur);
      }
      cur := cur[item.id := entry.(published := true)];
      assert StepItem(prev, item, fate(i)) == Next(cur);
    }
    return Outcome(Response(200, SuccessJson), cur);
  }

  // ---------------------------------------------------------------------
  // properties

  /** A request that is not a POST gets 405 and touches nothing. */
  lemma NotPost(req: StockRequest, space: Space, envOk: bool, fate: nat -> Commit)
    requires req.httpMethod != "POST"
    ensures HandleSpec(req, space, envOk, fate) == Outcome(Response(405, Text("Method Not Allowed")), space)
  {
  }

  /** Every stock value the handler writes is non-negative, and no entry
      appears or disappears. */
  predicate WritesNonNegative(before: Space, after: Space)
  {
    after.Keys == before.Keys &&
    forall id :: id in before ==>
      after[id].inStock == before[id].inStock ||
      (after[id].inStock.Stock? && after[id].inStock.enUS.Some? && after[id].inStock.enUS.value >= 0)
  }

  lemma {:induction false} RunWritesNonNegative(items: seq<StockItem>, space: Space, fate: nat -> Commit, k: nat)
    ensures WritesNonNegative(space, Run(items, space, fate, k).space)
    decreases |items| - k
  {
    if k < |items| {
      match StepItem(space, items[k], fate(k))
      case Stop(_, _) =>
      case Next(s) =>
        RunWritesNonNegative(items, s, fate, k + 1);
    }
  }

  predicate DistinctIds(items: seq<StockItem>)
  {
    forall i, j :: 0 <= i < j < |items| ==> items[i].id != items[j].id
  }

  /** Item `it` would be read, pass the stock check and both SDK calls. */
  predicate Passes(space: Space, it: StockItem, c: Commit)
  {
    it.id in space && c.getOk && space[it.id].inStock.Stock? &&
    StockOrZero(space[it.id].inStock) >= it.quantity && c.updateOk && c.publishOk
  }

  /** Item `it` is read and its stock is below the quantity. */
  predicate Short(space: Space, it: StockItem, c: Commit)
  {
    it.id in space && c.getOk && space[it.id].inStock.Stock? && StockOrZero(space[it.id].inStock) < it.quantity
  }

  /** Where the loop can end when items before `j` pass: 200 at the end of
      the list, 400 naming the entry of a short item `j`, 500 when reading
      item `j`'s entry fails, whatever its stock. */
  predicate Ends(space: Space, items: seq<StockItem>, fate: nat -> Commit, j: nat)
  {
    j == |items| || (j < |items| && (Short(space, items[j], fate(j)) || !fate(j).getOk))
  }

  function EndAt(space: Space, items: seq<StockItem>, fate: nat -> Commit, j: nat): Response
    requires Ends(space, items, fate, j)
  {
    if j == |items| then Response(200, SuccessJson)
    else if !fate(j).getOk then FAILED
    else Response(400, ErrorJson("Insufficient stock for " + space[items[j].id].name))
  }

  /** With distinct ids: if items `k .. j-1` pass and item `j` is short or
      cannot be read (or the list ends), the response is the one `EndAt` gives, each passing
      item's entry is decremented and published, and nothing else changes. */
  lemma {:induction false} RunThrough(items: seq<StockItem>, s: Space, fate: nat -> Commit,
                                      k: nat, j: nat, space: Space)
    requires k <= j <= |items| && DistinctIds(items)
    requires Ends(space, items, fate, j)
    requires forall m :: k <= m < j ==> Passes(space, items[m], fate(m))
    requires forall m :: k <= m < |items| && items[m].id in space ==>
      items[m].id in s && s[items[m].id] == space[items[m].id]
    ensures Run(items, s, fate, k).response == EndAt(space, items, fate, j)
    ensures forall m :: k <= m < j ==>
      items[m].id in space && space[items[m].id].inStock.Stock? &&
      items[m].id in Run(items, s, fate, k).space &&
      Run(items, s, fate, k).space[items[m].id] == Decremented(space[items[m].id], items[m].quantity)
    ensures forall id :: id in s && (forall m :: k <= m < j ==> items[m].id != id) ==>
      id in Run(items, s, fate, k).space && Run(items, s, fate, k).space[id] == s[id]
    decreases j - k
  {
    if k < j {
      var it := items[k];
      var s' := s[it.id := Decremented(space[it.id], it.quantity)];
      assert StepItem(s, it, fate(k)) == Next(s');
      forall m | k + 1 <= m < |items| && items[m].id in space
        ensures items[m].id in s' && s'[items[m].id] == space[items[m].id]
      {
        assert items[m].id != it.id;
      }
      RunThrough(items, s', fate, k + 1, j, space);
    }
  }

  /** The first short item stops the request with 400 after every earlier
      item's decrement has been written. */
  lemma ShortItemAfterWrites(items: seq<StockItem>, space: Space, fate: nat -> Commit, j: nat)
    requires j < |items| && DistinctIds(items) && Short(space, items[j], fate(j))
    requires forall m :: 0 <= m < j ==> Passes(space, items[m], fate(m))
    ensures Run(items, space, fate, 0).response ==
      Response(400, ErrorJson("Insufficient stock for " + space[items[j].id].name))
    ensures forall m :: 0 <= m < j ==>
      items[m].id in space && space[items[m].id].inStock.Stock? &&
      items[m].id in Run(items, space, fate, 0).space &&
      Run(items, space, fate, 0).space[items[m].id] == Decremented(space[items[m].id], items[m].quantity)
  {
    RunThrough(items, space, fate, 0, j, space);
  }

  /** A `getEntry` that rejects for item `j`, after every earlier item
      passed, answers 500 whatever item `j`'s stock, with the earlier
      decrements written and not undone. */
  lemma ReadFailureAfterWrites(items: seq<StockItem>, space: Space, fate: nat -> Commit, j: nat)
    requires j < |items| && DistinctIds(items) && !fate(j).getOk
    requires forall m :: 0 <= m < j ==> Passes(space, items[m], fate(m))
    ensures Run(items, space, fate, 0).response == FAILED
    ensures forall m :: 0 <= m < j ==>
      items[m].id in space && space[items[m].id].inStock.Stock? &&
      items[m].id in Run(items, space, fate, 0).space &&
      Run(items, space, fate, 0).space[items[m].id] == Decremented(space[items[m].id], items[m].quantity)
  {
    RunThrough(items, space, fate, 0, j, space);
  }

  /** When every item passes, the response is 200 and each item's stock has
      gone down by exactly its quantity. */
  lemma AllPass(items: seq<StockItem>, space: Space, fate: nat -> Commit)
    requires DistinctIds(items)
    requires forall m :: 0 <= m < |items| ==> Passes(space, items[m], fate(m))
    ensures Run(items, space, fate, 0).response == Response(200, SuccessJson)
    ensures forall m :: 0 <= m < |items| ==>
      items[m].id in space && space[items[m].id].inStock.Stock? &&
      items[m].id in Run(items, space, fate, 0).space &&
      Run(items, space, fate, 0).space[items[m].id].inStock ==
        Stock(Some(StockOrZero(space[items[m].id].inStock) - items[m].quantity))
  {
    RunThrough(items, space, fate, 0, |items|, space);
  }
}
