/** `PriceRepositoryAdapter`: the store call behind the `pricesSearch`
    circuit breaker and the `priceDetail` cache, its fallback, and explicit
    cache eviction.

    The breaker's aspect runs outside the caching aspect (its default order
    takes precedence over `@EnableCaching`'s), so an open circuit fails the
    call before the cache is consulted, and every exception the cached call
    throws reaches the fallback. */
module PriceRepositoryAdapter {
  import opened Values
  import opened Prices
  import opened Exceptions
  import opened PriceEntities
  import opened PriceQuery
  import opened Runtime
  import M = Monitoring

  /** The database as the adapter sees it: reachable with its PRICES rows,
      or failing with a technical error. */
  datatype Store = Reachable(rules: seq<PriceEntity>) | Unreachable(cause: Option<string>)

  const PRICE_NOT_FOUND_FOR_PRODUCT := "Price not found for product"
  const SERVICE_UNAVAILABLE_MESSAGE := "Service unavailable. Please try again later."

  /** The exception the fallback turns every technical failure into. */
  const Unavailable := ServiceUnavailable(Some(SERVICE_UNAVAILABLE_MESSAGE))

  /** One `findTopPrice` call: recorded in the query trace. */
  function FindTopPriceCall(s: State, store: Store, k: Key): (r: Step<Option<PriceEntity>>)
    ensures r.state == s.(queries := s.queries + [k])
    ensures store.Reachable? ==> r.result == Ok(FindTopPrice(store.rules, k))
    ensures store.Unreachable? ==> r.result == Err(Technical(store.cause))
  {
    var s' := s.(queries := s.queries + [k]);
    match store
    case Reachable(rules) => Step(Ok(FindTopPrice(rules, k)), s')
    case Unreachable(cause) => Step(Err(Technical(cause)), s')
  }

  /** The body of `getPrice`, run on a cache miss: one DATABASE_FETCH, one
      query, then the mapped row or a NotFound. */
  function FetchPrice(s: State, store: Store, k: Key): (r: Step<Price>)
    ensures r.state.cache == s.cache
    ensures r.state.queries == s.queries + [k]
    ensures r.state.log == s.log + [M.Entry(M.DatabaseFetch)]
    ensures r.result.Ok? <==> store.Reachable? && FindTopPrice(store.rules, k).Some?
    ensures r.result.Ok? ==> r.result.value == ToDomain(FindTopPrice(store.rules, k).value)
    ensures store.Reachable? && FindTopPrice(store.rules, k).None? ==>
              r.result == Err(NotFound(Some(PRICE_NOT_FOUND_FOR_PRODUCT)))
    ensures store.Unreachable? ==> r.result == Err(Technical(store.cause))
  {
    var s1 := Record(s, M.DatabaseFetch);
    var q := FindTopPriceCall(s1, store, k);
    match q.result
    case Ok(Some(e)) => Step(Ok(ToDomain(e)), q.state)
    case Ok(None) => Step(Err(NotFound(Some(PRICE_NOT_FOUND_FOR_PRODUCT))), q.state)
    case Err(ex) => Step(Err(ex), q.state)
  }

  /** `handleGetPriceFailure`: a NotFound passes unchanged and unrecorded;
      anything else, an open circuit included, becomes the fixed
      ServiceUnavailable after exactly one FALLBACK. It never touches the
      cache or the store. */
  function HandleGetPriceFailure(s: State, t: Exception): (r: Step<Price>)
    ensures r.result.Err?
    ensures r.result.error.NotFound? <==> t.NotFound?
    ensures t.NotFound? ==> r.result.error == t && r.state == s
    ensures !t.NotFound? ==> r.result.error == Unavailable
    ensures r.state.cache == s.cache && r.state.queries == s.queries
    ensures !t.NotFound? ==> r.state.log == s.log + [M.Entry(M.Fallback)]
  {
    if t.NotFound? then Step(Err(t), s)
    else Step(Err(Unavailable), Record(s, M.Fallback))
  }

  /** `getPrice` with its breaker and its cache. */
  function GetPrice(s: State, store: Store, circuitOpen: bool, k: Key): (r: Step<Price>)
    // an open circuit: the fallback, with neither cache nor store consulted
    ensures circuitOpen ==>
              && r.result == Err(Unavailable)
              && r.state == s.(log := s.log + [M.Entry(M.Fallback)])
    // a hit: the cached price, nothing queried, nothing recorded
    ensures !circuitOpen && k in s.cache ==> r == Step(Ok(s.cache[k]), s)
    // a miss always queries the store exactly once, with the key, after one DATABASE_FETCH
    ensures !circuitOpen && k !in s.cache ==>
              && r.state.queries == s.queries + [k]
              && |r.state.log| > |s.log|
              && r.state.log[..|s.log| + 1] == s.log + [M.Entry(M.DatabaseFetch)]
    // a miss with a matching row: its mapped price, now cached under the key
    ensures !circuitOpen && k !in s.cache && store.Reachable? && FindTopPrice(store.rules, k).Some? ==>
              && r.result == Ok(ToDomain(FindTopPrice(store.rules, k).value))
              && r.state.cache == s.cache[k := r.result.value]
              && r.state.log == s.log + [M.Entry(M.DatabaseFetch)]
    // a miss without a matching row: NotFound, nothing cached
    ensures !circuitOpen && k !in s.cache && store.Reachable? && FindTopPrice(store.rules, k).None? ==>
              && r.result == Err(NotFound(Some(PRICE_NOT_FOUND_FOR_PRODUCT)))
              && r.state.log == s.log + [M.Entry(M.DatabaseFetch)]
    // a miss with a failing store: ServiceUnavailable after DATABASE_FETCH and FALLBACK
    ensures !circuitOpen && k !in s.cache && store.Unreachable? ==>
              && r.result == Err(Unavailable)
              && r.state.log == s.log + [M.Entry(M.DatabaseFetch), M.Entry(M.Fallback)]
    // failures never populate the cache, and success only ever adds the key itself
    ensures r.result.Err? ==> r.state.cache == s.cache
    ensures r.result.Ok? ==> r.state.cache == s.cache[k := r.result.value]
    // the only errors are NotFound and the fallback's ServiceUnavailable
    ensures r.result.Err? ==> r.result.error.NotFound? || r.result.error == Unavailable
  {
    if circuitOpen then
      HandleGetPriceFailure(s, CallNotPermitted)
    else if k in s.cache then
      Step(Ok(s.cache[k]), s)
    else
      var f := FetchPrice(s, store, k);
      if f.result.Ok? then
        Step(f.result, f.state.(cache := f.state.cache[k := f.result.value]))
      else
        HandleGetPriceFailure(f.state, f.result.error)
  }

  /** `invalidatePrice`: records one CACHE_INVALIDATION, then evicts the key
      (`@CacheEvict` runs after the method). `evictFault` is the error the
      cache backend raises, if it does; the exception then propagates and the
      cache is left as it was. The store is never queried. */
  function InvalidatePrice(s: State, k: Key, evictFault: Option<Exception>): (r: Step<()>)
    ensures r.state.queries == s.queries
    ensures r.state.log == s.log + [M.Entry(M.CacheInvalidation)]
    ensures evictFault.Some? ==> r.result == Err(evictFault.value) && r.state.cache == s.cache
    ensures evictFault.None? ==>
              && r.result.Ok?
              && k !in r.state.cache
              && (forall k' :: k' != k ==> (k' in r.state.cache <==> k' in s.cache))
              && (forall k' :: k' in r.state.cache ==> r.state.cache[k'] == s.cache[k'])
    ensures evictFault.None? && k !in s.cache ==> r.state.cache == s.cache
  {
    var s1 := Record(s, M.CacheInvalidation);
    match evictFault
    case Some(ex) => Step(Err(ex), s1)
    case None => Step(Ok(()), s1.(cache := s1.cache - {k}))
  }

  /** With the circuit closed, a lookup that has just succeeded is served
      from the cache the next time, with the same price and no further
      query. (An open circuit fails even a cached key.) */
  lemma SecondLookupHitsCache(s: State, store: Store, k: Key)
    requires GetPrice(s, store, false, k).result.Ok?
    ensures var s1 := GetPrice(s, store, false, k).state;
            GetPrice(s1, store, false, k) == Step(GetPrice(s, store, false, k).result, s1)
  {
  }

  /** No stale hit survives an invalidation: with the circuit closed, the next
      lookup of the same key queries the store. */
  lemma InvalidateThenLookupQueriesStore(s: State, store: Store, k: Key)
    ensures var s1 := InvalidatePrice(s, k, None).state;
            GetPrice(s1, store, false, k).state.queries == s1.queries + [k]
  {
  }

  /** Invalidating one key keeps every other key's cached price served as a
      hit. */
  lemma InvalidateKeepsOtherHits(s: State, store: Store, k: Key, other: Key)
    requires other != k && other in s.cache
    ensures var s1 := InvalidatePrice(s, k, None).state;
            GetPrice(s1, store, false, other) == Step(Ok(s.cache[other]), s1)
  {
  }
}
