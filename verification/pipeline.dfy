/** The running application for one GET /v1/prices request: the controller,
    wired to the service, wired to the adapter over a store and a breaker
    state, with the exception handler answering whatever the controller
    throws. */
module Pipeline {
  import opened Values
  import opened Prices
  import opened Exceptions
  import opened Runtime
  import opened PriceEntities
  import opened PriceQuery
  import opened PriceResponses
  import opened RestExceptionHandler
  import opened PriceController
  import Adapter = PriceRepositoryAdapter
  import Service = PriceService
  import M = Monitoring

  datatype Body = PriceBody(price: Option<PriceResponse>) | ErrorBody(error: ErrorResponse)

  datatype HttpResponse = HttpResponse(status: HttpStatus, body: Body)

  /** What serving one request gives: the HTTP response and the state after it. */
  datatype Served = Served(response: HttpResponse, state: State)

  /** The use case as the application wires it: the service over the adapter,
      for a given store and a given breaker state (open or not). */
  function Application(store: Adapter.Store, circuitOpen: bool): UseCase {
    (s: State, date: Option<Timestamp>, productId: Option<Int64>, brandId: Option<Int64>) =>
      Service.GetPrice((s': State, k: Key) => Adapter.GetPrice(s', store, circuitOpen, k),
                       s, date, productId, brandId)
  }

  /** Dispatch of one request: 200 with the controller's body, or the
      response of the handler chosen for its exception, whose metric is
      recorded. */
  function Serve(useCase: UseCase, s: State, req: Request): (r: Served)
    ensures var c := PriceController.GetPrice(useCase, s, req);
            && (r.response.status == OK <==> c.result.Ok?)
            && (c.result.Ok? ==> r == Served(HttpResponse(OK, PriceBody(c.result.value)), c.state))
            && (c.result.Err? ==>
                  var h := Handle(c.result.error);
                  && r.response == HttpResponse(h.response.status, ErrorBody(h.response.body))
                  && r.state == Record(c.state, h.metric))
  {
    var c := PriceController.GetPrice(useCase, s, req);
    if c.result.Ok? then Served(HttpResponse(OK, PriceBody(c.result.value)), c.state)
    else
      var h := Handle(c.result.error);
      Served(HttpResponse(h.response.status, ErrorBody(h.response.body)), Record(c.state, h.metric))
  }

  /** The metrics one request adds to the log. */
  function Added(before: State, after: State): M.Log
    requires |before.log| <= |after.log|
  {
    after.log[|before.log|..]
  }

  /** The use case over the adapter: the adapter's outcome, with SUCCESS
      appended when it returns. */
  lemma ApplicationStep(store: Adapter.Store, circuitOpen: bool, s: State, a: Arguments)
    ensures var k := Key(Some(a.date), Some(a.productId), Some(a.brandId));
            var u := Application(store, circuitOpen)(s, Some(a.date), Some(a.productId), Some(a.brandId));
            var ad := Adapter.GetPrice(s, store, circuitOpen, k);
            && u.result == ad.result
            && u.state.cache == ad.state.cache
            && u.state.queries == ad.state.queries
            && u.state.log == ad.state.log + (if ad.result.Ok? then [M.Entry(M.Success)] else [])
  {
    var k := Key(Some(a.date), Some(a.productId), Some(a.brandId));
    var repository := (s': State, k': Key) => Adapter.GetPrice(s', store, circuitOpen, k');
    assert repository(s, k) == Adapter.GetPrice(s, store, circuitOpen, k);
    assert Application(store, circuitOpen)(s, Some(a.date), Some(a.productId), Some(a.brandId))
        == Service.GetPrice(repository, s, Some(a.date), Some(a.productId), Some(a.brandId));
  }

  /** The metric sequences a single request can add. */
  ghost predicate RequestTrace(added: M.Log) {
    added in {
      [M.Entry(M.BadRequest)],
      [M.Entry(M.Success)],
      [M.Entry(M.Fallback), M.Entry(M.Error)],
      [M.Entry(M.DatabaseFetch), M.Entry(M.Success)],
      [M.Entry(M.DatabaseFetch), M.Entry(M.NotFound)],
      [M.Entry(M.DatabaseFetch), M.Entry(M.Fallback), M.Entry(M.Error)]
    }
  }

  /** Each such sequence ends in its only terminal event, with at most one
      DATABASE_FETCH and one FALLBACK before it. */
  lemma RequestTraceCounts(added: M.Log)
    requires RequestTrace(added)
    ensures |added| > 0
    ensures M.TerminalCount(added) == 1
    ensures added[|added| - 1].kind.IsTerminal()
    ensures M.Count(added, M.DatabaseFetch) <= 1
    ensures M.Count(added, M.Fallback) <= 1
    ensures M.Count(added, M.CacheInvalidation) == 0
    ensures forall i :: 0 <= i < |added| ==> added[i].endpoint == "price_detail"
  {
    var n := |added|;
    assert n <= 3;
    if n >= 2 {
      assert added[..n - 1][..n - 2] == added[..n - 2];
    }
    if n == 3 {
      assert added[..1][..0] == [];
    }
  }

  /** The events one request adds, by the way it is answered. */
  lemma ServeTrace(store: Adapter.Store, circuitOpen: bool, s: State, req: Request) returns (added: M.Log)
    ensures RequestTrace(added)
    ensures var r := Serve(Application(store, circuitOpen), s, req);
            && r.state.log == s.log + added
            && (added[|added| - 1].kind == M.Success <==> r.response.status == OK)
            && (added[|added| - 1].kind == M.BadRequest <==> r.response.status == BAD_REQUEST)
            && (added[|added| - 1].kind == M.NotFound <==> r.response.status == NOT_FOUND)
            && (added[|added| - 1].kind == M.Error <==> r.response.status.code >= 500)
  {
    var args := BindArguments(req);
    if args.Err? {
      added := [M.Entry(M.BadRequest)];
    } else {
      var a := args.value;
      var k := Key(Some(a.date), Some(a.productId), Some(a.brandId));
      ApplicationStep(store, circuitOpen, s, a);
      if circuitOpen {
        added := [M.Entry(M.Fallback), M.Entry(M.Error)];
      } else if k in s.cache {
        added := [M.Entry(M.Success)];
      } else if store.Unreachable? {
        added := [M.Entry(M.DatabaseFetch), M.Entry(M.Fallback), M.Entry(M.Error)];
      } else if FindTopPrice(store.rules, k).Some? {
        added := [M.Entry(M.DatabaseFetch), M.Entry(M.Success)];
      } else {
        added := [M.Entry(M.DatabaseFetch), M.Entry(M.NotFound)];
      }
    }
  }

  /** Every request records exactly one terminal metric (SUCCESS, BAD_REQUEST,
      NOT_FOUND or ERROR), as its last event and in agreement with the
      response status, plus at most one DATABASE_FETCH and at most one
      FALLBACK before it, and never a CACHE_INVALIDATION; every event names
      the `price_detail` endpoint, and earlier events are kept. */
  lemma OneTerminalMetricPerRequest(store: Adapter.Store, circuitOpen: bool, s: State, req: Request)
    ensures var r := Serve(Application(store, circuitOpen), s, req);
            && |s.log| < |r.state.log|
            && r.state.log[..|s.log|] == s.log
            && var added := Added(s, r.state);
               && M.TerminalCount(added) == 1
               && added[|added| - 1].kind.IsTerminal()
               && M.Count(added, M.DatabaseFetch) <= 1
               && M.Count(added, M.Fallback) <= 1
               && M.Count(added, M.CacheInvalidation) == 0
               && (forall i :: 0 <= i < |added| ==> added[i].endpoint == "price_detail")
               && (added[|added| - 1].kind == M.Success <==> r.response.status == OK)
               && (added[|added| - 1].kind == M.BadRequest <==> r.response.status == BAD_REQUEST)
               && (added[|added| - 1].kind == M.NotFound <==> r.response.status == NOT_FOUND)
               && (added[|added| - 1].kind == M.Error <==> r.response.status.code >= 500)
  {
    var r := Serve(Application(store, circuitOpen), s, req);
    var added := ServeTrace(store, circuitOpen, s, req);
    RequestTraceCounts(added);
    assert Added(s, r.state) == added;
  }

  /** With valid parameters and a closed circuit the response is the stored
      rule of highest priority for the key, or 404 when there is none; a key
      already cached is answered from the cache without a query. */
  lemma ServesTopPrice(store: Adapter.Store, s: State, req: Request)
    requires BindArguments(req).Ok?
    ensures var a := BindArguments(req).value;
            var k := Key(Some(a.date), Some(a.productId), Some(a.brandId));
            var r := Serve(Application(store, false), s, req);
            && (k in s.cache ==>
                  r.response == HttpResponse(OK, PriceBody(FromDomain(Some(s.cache[k])))) && r.state.queries == s.queries)
            && (k !in s.cache && store.Reachable? && FindTopPrice(store.rules, k).Some? ==>
                  r.response == HttpResponse(OK, PriceBody(FromDomain(Some(ToDomain(FindTopPrice(store.rules, k).value))))))
            && (k !in s.cache && store.Reachable? && FindTopPrice(store.rules, k).None? ==>
                  r.response.status == NOT_FOUND && r.state.cache == s.cache)
  {
    ApplicationStep(store, false, s, BindArguments(req).value);
  }

  /** When the store fails or the circuit is open, the client sees 503 with
      the fallback's message, and the cache is left as it was. */
  lemma FailureIsServiceUnavailable(store: Adapter.Store, circuitOpen: bool, s: State, req: Request)
    requires BindArguments(req).Ok?
    requires var a := BindArguments(req).value;
             circuitOpen || (Key(Some(a.date), Some(a.productId), Some(a.brandId)) !in s.cache && store.Unreachable?)
    ensures var r := Serve(Application(store, circuitOpen), s, req);
            && r.response.status == SERVICE_UNAVAILABLE
            && r.response.body == ErrorBody(ErrorResponse(503, "Service Unavailable", Some(Adapter.SERVICE_UNAVAILABLE_MESSAGE)))
            && r.state.cache == s.cache
  {
    ApplicationStep(store, circuitOpen, s, BindArguments(req).value);
  }
}
