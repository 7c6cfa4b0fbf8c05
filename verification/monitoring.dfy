/** The metric kinds and endpoint of the service, and the append-only log
    that stands for the metrics recorder. */
module Monitoring {

  datatype MetricsType =
    | Success
    | Error
    | BadRequest
    | NotFound
    | DatabaseFetch
    | CacheInvalidation
    | Fallback
  {
    /** The tag value the recorder reports for this kind. */
    function Value(): string {
      match this
      case Success => "success"
      case Error => "error"
      case BadRequest => "bad_request"
      case NotFound => "not_found"
      case DatabaseFetch => "database_fetch"
      case CacheInvalidation => "cache_invalidation"
      case Fallback => "fallback"
    }

    /** The kinds that close a request: exactly one of them is recorded per request. */
    predicate IsTerminal() {
      Success? || Error? || BadRequest? || NotFound?
    }
  }

  datatype MetricsEndpoint = PriceDetail {
    function Value(): string {
      "price_detail"
    }
  }

  /** One call of `recordRequest(endpoint, type)`. */
  datatype Event = Event(endpoint: string, kind: MetricsType)

  type Log = seq<Event>

  /** The event every component of the service records: it always names the
      `price_detail` endpoint. */
  function Entry(kind: MetricsType): Event {
    Event(PriceDetail.Value(), kind)
  }

  /** Distinct metric kinds are reported under distinct tag values. */
  lemma MetricValuesDistinct(a: MetricsType, b: MetricsType)
    ensures a.Value() == b.Value() <==> a == b
  {
  }

  /** How many events of the given kind the log holds. */
  function Count(log: Log, kind: MetricsType): nat {
    if |log| == 0 then 0
    else Count(log[..|log| - 1], kind) + (if log[|log| - 1].kind == kind then 1 else 0)
  }

  /** How many events of a terminal kind the log holds. */
  function TerminalCount(log: Log): nat {
    if |log| == 0 then 0
    else TerminalCount(log[..|log| - 1]) + (if log[|log| - 1].kind.IsTerminal() then 1 else 0)
  }

  lemma {:induction false} CountAppend(a: Log, b: Log, kind: MetricsType)
    ensures Count(a + b, kind) == Count(a, kind) + Count(b, kind)
    decreases |b|
  {
    if |b| == 0 {
      assert a + b == a;
    } else {
      var b' := b[..|b| - 1];
      assert (a + b)[..|a + b| - 1] == a + b';
      CountAppend(a, b', kind);
    }
  }

  lemma {:induction false} TerminalCountAppend(a: Log, b: Log)
    ensures TerminalCount(a + b) == TerminalCount(a) + TerminalCount(b)
    decreases |b|
  {
    if |b| == 0 {
      assert a + b == a;
    } else {
      var b' := b[..|b| - 1];
      assert (a + b)[..|a + b| - 1] == a + b';
      TerminalCountAppend(a, b');
    }
  }
}
