/**
 * What the five source adapters share: the `(items, warnings)` result, the exception
 * boundary that falls back to mock data, and the trace of requests, each issued right
 * after the adapter's `RateLimiter.wait()` returned.
 */
module Sources {
  import opened Wrappers
  import opened Models
  import opened Utils
  import opened Mock

  /** A raised Python exception, known by its class name (`type(e).__name__`). */
  datatype Exception = Exception(typeName: string)

  /** The `(items, warnings)` pair every text adapter returns. */
  datatype Fetched = Fetched(items: seq<TextItem>, warnings: seq<string>)

  /** An adapter's result together with the requests it sent to its API, in order. */
  datatype Outcome<R> = Outcome(result: Fetched, requests: seq<R>)

  /** A request, stamped with the clock reading at which the `wait()` just before it returned. */
  datatype Paced<R> = Paced(at: real, request: R)

  /** The requests of a trace, without their stamps. */
  function Requests<R>(trace: seq<Paced<R>>): (r: seq<R>)
    ensures |r| == |trace|
    ensures forall i :: 0 <= i < |trace| ==> r[i] == trace[i].request
  {
    if trace == [] then [] else Requests(trace[..|trace| - 1]) + [trace[|trace| - 1].request]
  }

  /** The limiter's last timestamp once the trace has been issued, starting from `start`. */
  function LastAt<R>(trace: seq<Paced<R>>, start: real): real {
    if trace == [] then start else trace[|trace| - 1].at
  }

  /** Seconds between request `i` and the one before it (or the limiter's initial timestamp `start`). */
  function Gap<R>(trace: seq<Paced<R>>, i: int, start: real): real
    requires 0 <= i < |trace|
  {
    trace[i].at - (if i == 0 then start else trace[i - 1].at)
  }

  /** Every request is issued at least `interval` seconds after the previous one. */
  predicate Spaced<R>(trace: seq<Paced<R>>, interval: real, start: real) {
    forall i :: 0 <= i < |trace| ==> Gap(trace, i, start) >= interval
  }

  /**
   * `limiter.wait()` followed by sending `req`: the trace grows by one stamped request and
   * stays spaced.
   */
  method WaitAndSend<R>(limiter: RateLimiter, clock: Clock, trace: seq<Paced<R>>, req: R, ghost start: real)
    returns (trace': seq<Paced<R>>)
    requires Spaced(trace, limiter.minIntervalSeconds, start) && limiter.lastTs == LastAt(trace, start)
    modifies limiter, clock
    ensures trace' == trace + [Paced(limiter.lastTs, req)]
    ensures Requests(trace') == Requests(trace) + [req]
    ensures Spaced(trace', limiter.minIntervalSeconds, start) && limiter.lastTs == LastAt(trace', start)
    ensures clock.now >= old(clock.now)
  {
    ghost var last := limiter.lastTs;
    limiter.Wait(clock);
    trace' := trace + [Paced(limiter.lastTs, req)];
    assert trace'[..|trace|] == trace;
    forall i | 0 <= i < |trace'|
      ensures Gap(trace', i, start) >= limiter.minIntervalSeconds
    {
      if i < |trace| {
        assert Gap(trace', i, start) == Gap(trace, i, start);
      }
    }
  }

  /**
   * The exception boundary of every text adapter: exactly one warning; the mock data of
   * the platform when nothing was gathered, the partial list otherwise.
   */
  function Fallback(platform: string, ticker: string, now: Timestamp, gathered: seq<TextItem>, warning: string): (r: Fetched)
    ensures r.warnings == [warning]
    ensures gathered != [] ==> r.items == gathered
    ensures gathered == [] ==> r.items == MockList(platform, ticker, now)
  {
    Fetched(if gathered == [] then MockList(platform, ticker, now) else gathered, [warning])
  }

  /**
   * How an adapter's `try` ends: no warning when nothing was raised; otherwise
   * `warnings.append(warning)` and `if not items: return mock_items(...)`.
   */
  function Settled(platform: string, ticker: string, now: Timestamp, gathered: seq<TextItem>, warning: Option<string>)
    : (r: Fetched)
    ensures warning.None? ==> r == Fetched(gathered, [])
    ensures warning.Some? ==> r == Fallback(platform, ticker, now, gathered, warning.value)
  {
    if warning.None? then Fetched(gathered, []) else Fallback(platform, ticker, now, gathered, warning.value)
  }

  /** The `except` clauses of an adapter, once the gathered items and the warning of the exception, if any, are known. */
  method Settle(platform: string, ticker: string, now: Timestamp, gathered: seq<TextItem>, warning: Option<string>)
    returns (items: seq<TextItem>, warnings: seq<string>)
    ensures Fetched(items, warnings) == Settled(platform, ticker, now, gathered, warning)
  {
    items, warnings := gathered, [];
    if warning.Some? {
      warnings := warnings + [warning.value];
      if items == [] {
        items := MockItems(platform, ticker, now);
      }
    }
  }

  /** `raise_for_status()` raises for a 4xx or 5xx status. */
  predicate IsHttpError(status: int) {
    400 <= status < 600
  }

  /** What `raise_for_status()` raises. */
  const HttpError: Exception := Exception("HTTPError")

  /** The credential gate's result: the mock data of the platform and one warning. */
  function Unconfigured(platform: string, ticker: string, now: Timestamp, warning: string): Fetched {
    Fetched(MockList(platform, ticker, now), [warning])
  }

  /** The two ways the text of a fallback is built: `f"... ({type(e).__name__}) ..."`. */
  function Failed(prefix: string, e: Exception, suffix: string): string {
    prefix + " fetch failed (" + e.typeName + "); " + suffix
  }
}
