/** `PriceService.getPrice`, the use case: reject a null date, delegate to
    the repository port, record SUCCESS when it returns. */
module PriceService {
  import opened Values
  import opened Prices
  import opened Exceptions
  import opened Runtime
  import M = Monitoring

  const DATE_MUST_NOT_BE_NULL := "The date must not be null"

  /** The `PriceRepository` port: a lookup that may change the state and throw. */
  type Repository = (State, Key) -> Step<Price>

  function GetPrice(repository: Repository, s: State, date: Option<Timestamp>,
                    productId: Option<Int64>, brandId: Option<Int64>): (r: Step<Price>)
    // a null date fails before the repository is involved, and records nothing
    ensures date.None? ==> r == Step(Err(NullPointer(Some(DATE_MUST_NOT_BE_NULL))), s)
    // otherwise the outcome is that of one repository call with the same triple
    ensures date.Some? ==>
              var call := repository(s, Key(date, productId, brandId));
              && r.result == call.result
              && r.state.cache == call.state.cache
              && r.state.queries == call.state.queries
              && r.state.log == call.state.log + (if call.result.Ok? then [M.Entry(M.Success)] else [])
  {
    if date.None? then
      Step(Err(NullPointer(Some(DATE_MUST_NOT_BE_NULL))), s)
    else
      var call := repository(s, Key(date, productId, brandId));
      if call.result.Ok? then Step(call.result, Record(call.state, M.Success))
      else call
  }

  /** With a null date the repository is never consulted: the outcome is the
      same whatever repository the service is wired to. */
  lemma NullDateNeverReachesRepository(repository1: Repository, repository2: Repository, s: State,
                                       productId: Option<Int64>, brandId: Option<Int64>)
    ensures GetPrice(repository1, s, None, productId, brandId) == GetPrice(repository2, s, None, productId, brandId)
  {
  }

  /** The service adds one event at most, and that event is SUCCESS, recorded
      exactly when the call returns normally. */
  lemma SuccessRecordedIffReturns(repository: Repository, s: State, date: Timestamp,
                                  productId: Option<Int64>, brandId: Option<Int64>)
    ensures var call := repository(s, Key(Some(date), productId, brandId));
            var r := GetPrice(repository, s, Some(date), productId, brandId);
            && M.Count(r.state.log, M.Success) == M.Count(call.state.log, M.Success) + (if r.result.Ok? then 1 else 0)
            && M.TerminalCount(r.state.log) == M.TerminalCount(call.state.log) + (if r.result.Ok? then 1 else 0)
  {
    var call := repository(s, Key(Some(date), productId, brandId));
    var r := GetPrice(repository, s, Some(date), productId, brandId);
    if r.result.Ok? {
      var e := [M.Entry(M.Success)];
      assert r.state.log == call.state.log + e;
      assert e[..0] == [];
      M.CountAppend(call.state.log, e, M.Success);
      M.TerminalCountAppend(call.state.log, e);
    } else {
      assert r.state.log == call.state.log;
    }
  }
}
