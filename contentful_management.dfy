/** `updateProductStock`: writes a new stock figure into a CMS entry through
    the unpublish / update / publish cycle, retrying a bounded number of
    times. Every SDK call is an oracle: `fate(k)` says which calls of
    attempt `k` succeed; `getEntry` also fails for an id the space lacks. */
module ContentfulManagement {
  import opened Base
  import opened Cms

  const DEFAULT_RETRIES := 3
  const BACKOFF_MS := 300
  const WRAP_PREFIX := "Failed to update product stock: "

  /** Which SDK calls of one attempt succeed, and the message of the one that fails. */
  datatype Attempt = Attempt(getOk: bool, unpublishOk: bool, refetchOk: bool, updateOk: bool, publishOk: bool,
                             message: string)

  /** One attempt either publishes the entry or throws; either way the space
      keeps whatever the calls before the failure did. */
  datatype Try = Done(space: Space, entry: Entry) | Thrown(space: Space, message: string)

  /** The body of one iteration of the retry loop. `newStock == None` stands
      for a value that is not a number. */
  function TryOnce(space: Space, productId: string, newStock: Option<int>, a: Attempt, notFound: string): Try
  {
    if productId !in space then Thrown(space, notFound)
    else if !a.getOk then Thrown(space, a.message)
    else
      var e := space[productId];
      if e.published then
        // unpublish, fetch the fresh version, overwrite the field, update, publish
        if !a.unpublishOk then Thrown(space, a.message)
        else
          var s1 := space[productId := e.(published := false)];
          if !a.refetchOk then Thrown(s1, a.message)
          else
            var refetched := s1[productId].(inStock := Stock(newStock));
            if !a.updateOk then Thrown(s1, a.message)
            else
              var s2 := s1[productId := refetched];
              if !a.publishOk then Thrown(s2, a.message)
              else Done(s2[productId := refetched.(published := true)], refetched.(published := true))
      else
        var updated := e.(inStock := Stock(newStock));
        if !a.updateOk then Thrown(space, a.message)
        else
          var s2 := space[productId := updated];
          if !a.publishOk then Thrown(s2, a.message)
          else Done(s2[productId := updated.(published := true)], updated.(published := true))
  }

  /** What the call resolves to: the published entry, `undefined` (the loop
      ran no attempt), or a rejection with the wrapped message. */
  datatype Result = Published(entry: Entry) | Undefined | Failed(message: string)

  /** The result, the space afterwards, how many attempts ran and the waits between them. */
  datatype Trace = Trace(result: Result, space: Space, tries: nat, delays: seq<int>)

  /** Attempts `attempt`, `attempt + 1`, ... of the loop. */
  function Attempts(space: Space, productId: string, newStock: Option<int>, retries: int,
                    attempt: nat, fate: nat -> Attempt, notFound: string): Trace
    decreases retries - attempt
  {
    if attempt >= retries then Trace(Undefined, space, 0, [])
    else match TryOnce(space, productId, newStock, fate(attempt), notFound)
      case Done(s, e) => Trace(Published(e), s, 1, [])
      case Thrown(s, msg) =>
        if attempt == retries - 1 then Trace(Failed(WRAP_PREFIX + msg), s, 1, [])
        else
          var t := Attempts(s, productId, newStock, retries, attempt + 1, fate, notFound);
          Trace(t.result, t.space, t.tries + 1, [BACKOFF_MS * (attempt + 1)] + t.delays)
  }

  /** The whole call: `envError` is the message of a failing space or
      environment lookup, which is wrapped and never retried. */
  function UpdateSpec(space: Space, productId: string, newStock: Option<int>, retries: int,
                      envError: Option<string>, fate: nat -> Attempt, notFound: string): Trace
  {
    match envError
    case Some(msg) => Trace(Failed(WRAP_PREFIX + msg), space, 0, [])
    case None => Attempts(space, productId, newStock, retries, 0, fate, notFound)
  }

  /** A failed attempt that is not the last one is followed by the rest of
      the loop, one wait earlier. */
  lemma ThrownStep(space: Space, productId: string, newStock: Option<int>, retries: int,
                   attempt: nat, fate: nat -> Attempt, notFound: string, s: Space, msg: string)
    requires attempt < retries - 1
    requires TryOnce(space, productId, newStock, fate(attempt), notFound) == Thrown(s, msg)
    ensures var next := Attempts(s, productId, newStock, retries, attempt + 1, fate, notFound);
      Attempts(space, productId, newStock, retries, attempt, fate, notFound)
        == Trace(next.result, next.space, next.tries + 1, [BACKOFF_MS * (attempt + 1)] + next.delays)
  {
  }

  /** The retry loop, once the space and environment are in hand. */
  method RetryLoop(space: Space, productId: string, newStock: Option<int>, retries: int,
                   fate: nat -> Attempt, notFound: string)
    returns (t: Trace)
    ensures t == Attempts(space, productId, newStock, retries, 0, fate, notFound)
  {
    var cur := space;
    var attempt: nat := 0;
    var delays: seq<int> := [];
    while attempt < retries
      invariant |delays| == attempt
      invariant var rest := Attempts(cur, productId, newStock, retries, attempt, fate, notFound);
        Attempts(space, productId, newStock, retries, 0, fate, notFound)
          == Trace(rest.result, rest.space, rest.tries + attempt, delays + rest.delays)
      decreases retries - attempt
    {
      var r := TryOnce(cur, productId, newStock, fate(attempt), notFound);
      if r.Done? {
        return Trace(Published(r.entry), r.space, attempt + 1, delays);
      }
      if attempt == retries - 1 {
        return Trace(Failed(WRAP_PREFIX + r.message), r.space, attempt + 1, delays);
      }
      ThrownStep(cur, productId, newStock, retries, attempt, fate, notFound, r.space, r.message);
      ghost var next := Attempts(r.space, productId, newStock, retries, attempt + 1, fate, notFound);
      var d := BACKOFF_MS * (attempt + 1);
      assert delays + ([d] + next.delays) == (delays + [d]) + next.delays;
      delays := delays + [d];
      cur := r.space;
      attempt := attempt + 1;
    }
    return Trace(Undefined, cur, attempt, delays);
  }

  /** `updateProductStock`: a failing space or environment lookup is
      wrapped at once; otherwise the retry loop runs. */
  method UpdateProductStock(space: Space, productId: string, newStock: Option<int>, retries: int,
                            envError: Option<string>, fate: nat -> Attempt, notFound: string)
    returns (t: Trace)
    ensures t == UpdateSpec(space, productId, newStock, retries, envError, fate, notFound)
  {
    if envError.Some? {
      return Trace(Failed(WRAP_PREFIX + envError.value), space, 0, []);
    }
    t := RetryLoop(space, productId, newStock, retries, fate, notFound);
  }

  // ---------------------------------------------------------------------
  // properties

  /** No more than `retries` attempts run, each wait is 300 ms times the
      attempt number (300, 600, ...), and there is one wait fewer than attempts. */
  lemma {:induction false} AttemptsBounded(space: Space, productId: string, newStock: Option<int>, retries: int,
                                          attempt: nat, fate: nat -> Attempt, notFound: string)
    ensures var t := Attempts(space, productId, newStock, retries, attempt, fate, notFound);
      t.tries <= (if retries > attempt then retries - attempt else 0) &&
      |t.delays| == (if t.tries == 0 then 0 else t.tries - 1) &&
      forall i :: 0 <= i < |t.delays| ==> t.delays[i] == BACKOFF_MS * (attempt + i + 1)
    decreases retries - attempt
  {
    if attempt < retries {
      match TryOnce(space, productId, newStock, fate(attempt), notFound)
      case Done(_, _) =>
      case Thrown(s, _) =>
        if attempt != retries - 1 {
          AttemptsBounded(s, productId, newStock, retries, attempt + 1, fate, notFound);
        }
    }
  }

  /** A successful attempt leaves the entry published with `'en-US': newStock`,
      whether or not it was published before. */
  lemma TryOnceConverges(space: Space, productId: string, newStock: Option<int>, a: Attempt, notFound: string)
    requires TryOnce(space, productId, newStock, a, notFound).Done?
    ensures productId in space
    ensures var d := TryOnce(space, productId, newStock, a, notFound);
      d.entry == Entry(space[productId].name, Stock(newStock), true) &&
      d.space == space[productId := d.entry]
  {
  }

  /** Only the target entry is ever touched, by any attempt. */
  lemma TryOnceFrame(space: Space, productId: string, newStock: Option<int>, a: Attempt, notFound: string)
    ensures var s := TryOnce(space, productId, newStock, a, notFound).space;
      s.Keys == space.Keys && forall id :: id in space && id != productId ==> s[id] == space[id]
  {
  }

  /** A published result is the entry as it now stands in the space, and
      the space differs from the original only at `productId`. */
  lemma {:induction false} AttemptsOutcome(space: Space, productId: string, newStock: Option<int>, retries: int,
                                          attempt: nat, fate: nat -> Attempt, notFound: string)
    ensures var t := Attempts(space, productId, newStock, retries, attempt, fate, notFound);
      (t.result.Published? ==> productId in t.space && t.space[productId] == t.result.entry &&
                               t.result.entry.inStock == Stock(newStock) && t.result.entry.published) &&
      (t.result.Undefined? ==> t.tries == 0 && t.space == space) &&
      (t.result.Failed? ==> t.tries >= 1 && |t.result.message| >= |WRAP_PREFIX| &&
                            t.result.message[..|WRAP_PREFIX|] == WRAP_PREFIX) &&
      t.space.Keys == space.Keys &&
      (forall id :: id in space && id != productId ==> t.space[id] == space[id])
    decreases retries - attempt
  {
    if attempt < retries {
      TryOnceFrame(space, productId, newStock, fate(attempt), notFound);
      match TryOnce(space, productId, newStock, fate(attempt), notFound)
      case Done(_, _) =>
        TryOnceConverges(space, productId, newStock, fate(attempt), notFound);
      case Thrown(s, msg) =>
        if attempt != retries - 1 {
          AttemptsOutcome(s, productId, newStock, retries, attempt + 1, fate, notFound);
        }
    }
  }

  /** No attempt renames an entry: whatever the attempts do, the entry keeps
      its name. */
  lemma {:induction false} AttemptsKeepName(space: Space, productId: string, newStock: Option<int>, retries: int,
                                           attempt: nat, fate: nat -> Attempt, notFound: string, id: string)
    requires id in space
    ensures var t := Attempts(space, productId, newStock, retries, attempt, fate, notFound);
      id in t.space && t.space[id].name == space[id].name
    decreases retries - attempt
  {
    if attempt < retries {
      match TryOnce(space, productId, newStock, fate(attempt), notFound)
      case Done(_, _) =>
      case Thrown(s, msg) =>
        if attempt != retries - 1 {
          AttemptsKeepName(s, productId, newStock, retries, attempt + 1, fate, notFound, id);
        }
    }
  }

  /** While attempts remain, the loop never falls through to `undefined`. */
  lemma {:induction false} AttemptsDefined(space: Space, productId: string, newStock: Option<int>, retries: int,
                                          attempt: nat, fate: nat -> Attempt, notFound: string)
    requires attempt < retries
    ensures !Attempts(space, productId, newStock, retries, attempt, fate, notFound).result.Undefined?
    decreases retries - attempt
  {
    match TryOnce(space, productId, newStock, fate(attempt), notFound)
    case Done(_, _) =>
    case Thrown(s, msg) =>
      if attempt != retries - 1 {
        AttemptsDefined(s, productId, newStock, retries, attempt + 1, fate, notFound);
      }
  }

  /** With `retries <= 0` nothing is attempted and the call resolves to `undefined`. */
  lemma NoRetriesNoAttempt(space: Space, productId: string, newStock: Option<int>, retries: int,
                           fate: nat -> Attempt, notFound: string)
    requires retries <= 0
    ensures UpdateSpec(space, productId, newStock, retries, None, fate, notFound) == Trace(Undefined, space, 0, [])
  {
  }

  /** The first attempt that succeeds ends the loop: with the default three
      retries and a clean first attempt, exactly one attempt runs and no wait happens. */
  lemma FirstSuccessStops(space: Space, productId: string, newStock: Option<int>, fate: nat -> Attempt, notFound: string)
    requires TryOnce(space, productId, newStock, fate(0), notFound).Done?
    ensures var t := UpdateSpec(space, productId, newStock, DEFAULT_RETRIES, None, fate, notFound);
      t.result.Published? && t.tries == 1 && t.delays == []
  {
  }

  /** A `getEntry` that rejects once is retried: with the default three
      retries, a first attempt whose read fails and a clean second attempt
      publish the new figure after one wait of 300 ms. */
  lemma TransientReadRetried(space: Space, productId: string, newStock: Option<int>,
                             fate: nat -> Attempt, notFound: string)
    requires productId in space && !fate(0).getOk
    requires fate(1).getOk && fate(1).unpublishOk && fate(1).refetchOk && fate(1).updateOk && fate(1).publishOk
    ensures var t := UpdateSpec(space, productId, newStock, DEFAULT_RETRIES, None, fate, notFound);
      t.result == Published(Entry(space[productId].name, Stock(newStock), true)) &&
      t.space == space[productId := t.result.entry] &&
      t.tries == 2 && t.delays == [BACKOFF_MS]
  {
    TryOnceConverges(space, productId, newStock, fate(1), notFound);
  }

  /** When every attempt fails, exactly `retries` attempts run, the waits are
      300 then 600 ms for the default, and the last message comes back wrapped. */
  lemma AllAttemptsFail(space: Space, productId: string, newStock: Option<int>, fate: nat -> Attempt, notFound: string)
    requires productId !in space
    ensures var t := UpdateSpec(space, productId, newStock, DEFAULT_RETRIES, None, fate, notFound);
      t == Trace(Failed(WRAP_PREFIX + notFound), space, 3, [300, 600])
  {
  }
}
