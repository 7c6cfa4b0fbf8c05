/** `PriceUpdateConsumer`: a price-change event evicts the cached price of
    the key it names. */
module PriceUpdateConsumer {
  import opened Values
  import opened Prices
  import opened Exceptions
  import opened Runtime
  import opened PriceRepositoryAdapter
  import M = Monitoring

  /** The event payload; the fields arrive in this order, not in the key's. */
  datatype PriceUpdateMessage = PriceUpdateMessage(productId: Option<Int64>, brandId: Option<Int64>, date: Option<Timestamp>)

  /** `handlePriceUpdate`: one `invalidatePrice` on `(date, productId, brandId)`
      and no other adapter call. `evictFault` is the cache backend's error, if
      any; it propagates unchanged and is not retried. */
  function HandlePriceUpdate(s: State, message: PriceUpdateMessage, evictFault: Option<Exception>): (r: Step<()>)
    ensures var k := Key(message.date, message.productId, message.brandId);
            && r.state.queries == s.queries
            && r.state.log == s.log + [M.Entry(M.CacheInvalidation)]
            && (r.result.Err? <==> evictFault.Some?)
            && (evictFault.Some? ==> r.result.error == evictFault.value && r.state.cache == s.cache)
            && (evictFault.None? ==> k !in r.state.cache)
            && (forall k' :: k' != k ==> (k' in r.state.cache <==> k' in s.cache))
            && (forall k' :: k' in r.state.cache ==> r.state.cache[k'] == s.cache[k'])
  {
    InvalidatePrice(s, Key(message.date, message.productId, message.brandId), evictFault)
  }

  /** After an event for a key that was cached, the next lookup of that key
      with the circuit closed goes to the store again. */
  lemma EventForcesRefetch(s: State, store: Store, message: PriceUpdateMessage)
    ensures var k := Key(message.date, message.productId, message.brandId);
            var s1 := HandlePriceUpdate(s, message, None).state;
            GetPrice(s1, store, false, k).state.queries == s1.queries + [k]
  {
  }
}
