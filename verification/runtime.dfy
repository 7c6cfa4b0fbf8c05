/** The state the request pipeline threads through its calls: the
    `priceDetail` cache, the metric log, and the queries sent to the store. */
module Runtime {
  import opened Prices
  import opened Exceptions
  import M = Monitoring

  datatype State = State(
    cache: map<Key, Price>,
    log: M.Log,
    /** every `findTopPrice` call, in order, by its parameters */
    queries: seq<Key>)

  /** The outcome of a call together with the state after it. */
  datatype Step<+T> = Step(result: Result<T>, state: State)

  /** `metrics.recordRequest(PRICE_DETAIL, kind)`. */
  function Record(s: State, kind: M.MetricsType): State {
    s.(log := s.log + [M.Entry(kind)])
  }
}
