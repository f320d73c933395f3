/**
 * The Finnhub adapter (sources/finnhub.py): the key gate, the day window, one request for
 * the aggregated social sentiment, and the record built from the last reddit and twitter
 * datapoints with the `_sum_int` / `_sum_field` accumulators. The HTTP exchange is an
 * input: what the single `requests.get` yields. Days are whole day numbers.
 */
module Finnhub {
  import opened Wrappers
  import opened Models
  import opened Config
  import opened Utils
  import opened Sources

  // ---------------------------------------------------------------------------
  // The request
  // ---------------------------------------------------------------------------

  const SentimentUrl: string := "https://finnhub.io/api/v1/stock/social-sentiment"

  /** The one request: the endpoint and its `params`; `fromDay` and `toDay` are day numbers. */
  datatype FhRequest = FhRequest(url: string, symbol: string, fromDay: int, toDay: int, token: string)

  /** `from_d = to_d - timedelta(days=max(1, days))`. */
  function WindowStart(today: int, days: int): (r: int)
    ensures r <= today - 1
    ensures days >= 1 ==> r == today - days
    ensures days < 1 ==> r == today - 1
  {
    today - Max(1, days)
  }

  // ---------------------------------------------------------------------------
  // The response
  // ---------------------------------------------------------------------------

  /**
   * A field of a datapoint as `row.get(field) or 0` reads it: absent or falsy, a value
   * the conversion accepts, or one on which `int(...)` / `float(...)` raises.
   */
  datatype Field<T> = Missing | Value(v: T) | Unconvertible

  /** A datapoint of the `reddit` or `twitter` list (a row that is not a dictionary has every field unconvertible). */
  datatype Row = Row(mention: Field<int>, positiveScore: Field<real>, negativeScore: Field<real>)

  /** The decoded body `r.json() or {}`: its optional `reddit` and `twitter` lists, or the exception decoding raised. */
  datatype FhPayload =
    | FhUnparseable(error: Exception)
    | FhPayload(reddit: Option<seq<Row>>, twitter: Option<seq<Row>>)

  /** What `requests.get` yields: an exception, or a status code with its body. */
  datatype FhResponse =
    | FhRaise(error: Exception)
    | FhReply(status: int, payload: FhPayload)

  /** `(rows or [])[-1:]`: the last datapoint, if any. */
  function LastDatapoint(rows: Option<seq<Row>>): (r: seq<Row>)
    ensures |r| <= 1
    ensures r == [] <==> rows.None? || rows.value == []
    ensures r != [] ==> r == [rows.value[|rows.value| - 1]]
  {
    var all := rows.GetOr([]);
    if all == [] then [] else all[|all| - 1..]
  }

  // ---------------------------------------------------------------------------
  // The accumulators
  // ---------------------------------------------------------------------------

  /** What one row adds: its value, 0 when missing, nothing when the conversion raises. */
  function IntContribution(f: Field<int>): int {
    if f.Value? then f.v else 0
  }

  function RealContribution(f: Field<real>): real {
    if f.Value? then f.v else 0.0
  }

  /** `_sum_int(rows, field)`: the sum of the field's values over the rows. */
  function SumInt(rows: seq<Row>, field: Row -> Field<int>): int {
    if rows == [] then 0 else SumInt(rows[..|rows| - 1], field) + IntContribution(field(rows[|rows| - 1]))
  }

  /** `_sum_field(rows, field)`, in exact arithmetic. */
  function SumReal(rows: seq<Row>, field: Row -> Field<real>): real {
    if rows == [] then 0.0 else SumReal(rows[..|rows| - 1], field) + RealContribution(field(rows[|rows| - 1]))
  }

  function Mention(r: Row): Field<int> { r.mention }
  function PositiveScore(r: Row): Field<real> { r.positiveScore }
  function NegativeScore(r: Row): Field<real> { r.negativeScore }

  /** `_sum_int`: `total += int(row.get(field) or 0)` for each row, skipping the rows that raise. */
  method SumIntField(rows: seq<Row>, field: Row -> Field<int>) returns (total: int)
    ensures total == SumInt(rows, field)
  {
    total := 0;
    var j := 0;
    while j < |rows|
      invariant 0 <= j <= |rows|
      invariant total == SumInt(rows[..j], field)
    {
      var value := field(rows[j]);
      assert rows[..j + 1][..j] == rows[..j];
      if value.Unconvertible? {
        j := j + 1;
        continue;
      }
      total := total + IntContribution(value);
      j := j + 1;
    }
    assert rows[..|rows|] == rows;
  }

  /** `_sum_field`: `total += float(row.get(field) or 0.0)` for each row, skipping the rows that raise. */
  method SumRealField(rows: seq<Row>, field: Row -> Field<real>) returns (total: real)
    ensures total == SumReal(rows, field)
  {
    total := 0.0;
    var j := 0;
    while j < |rows|
      invariant 0 <= j <= |rows|
      invariant total == SumReal(rows[..j], field)
    {
      var value := field(rows[j]);
      assert rows[..j + 1][..j] == rows[..j];
      if value.Unconvertible? {
        j := j + 1;
        continue;
      }
      total := total + RealContribution(value);
      j := j + 1;
    }
    assert rows[..|rows|] == rows;
  }

  // ---------------------------------------------------------------------------
  // The record and the adapter
  // ---------------------------------------------------------------------------

  /** `FinnhubSocialSentiment`. */
  datatype SocialSentiment = SocialSentiment(
    symbol: string,
    redditMentions: int,
    redditPositiveScore: real,
    redditNegativeScore: real,
    twitterMentions: int,
    twitterPositiveScore: real,
    twitterNegativeScore: real)

  /** The record built from a decoded body. */
  function Aggregate(symbol: string, payload: FhPayload): SocialSentiment
    requires payload.FhPayload?
  {
    var reddit := LastDatapoint(payload.reddit);
    var twitter := LastDatapoint(payload.twitter);
    SocialSentiment(symbol,
                    SumInt(reddit, Mention), SumReal(reddit, PositiveScore), SumReal(reddit, NegativeScore),
                    SumInt(twitter, Mention), SumReal(twitter, PositiveScore), SumReal(twitter, NegativeScore))
  }

  /** The `(finnhub, warnings)` result together with the requests sent. */
  datatype FhOutcome = FhOutcome(sentiment: Option<SocialSentiment>, warnings: seq<string>, requests: seq<FhRequest>)

  const FhNoKeyWarning: string := "Finnhub API key not configured; skipping Finnhub aggregated sentiment."
  const FhRateLimitWarning: string := "Finnhub rate limit hit; skipping Finnhub aggregated sentiment."

  function FhWarning(e: Exception): string {
    Failed("Finnhub", e, "skipping Finnhub aggregated sentiment.")
  }

  /** The exception the `try` ends with, for an answer that is not a 429 and does not decode to a record. */
  function FhRaised(response: FhResponse): Option<Exception> {
    if response.FhRaise? then Some(response.error)
    else if IsHttpError(response.status) then Some(HttpError)
    else if response.payload.FhUnparseable? then Some(response.payload.error)
    else None
  }

  /** The `try` block's result once the request has been sent: a record and no warning, or no record and one warning. */
  datatype FhAnswer = FhAnswer(sentiment: Option<SocialSentiment>, warnings: seq<string>)

  /** What the `try` block returns for `response`. */
  function Answer(symbol: string, response: FhResponse): FhAnswer {
    if response.FhReply? && response.status == 429 then FhAnswer(None, [FhRateLimitWarning])
    else if FhRaised(response).Some? then FhAnswer(None, [FhWarning(FhRaised(response).value)])
    else FhAnswer(Some(Aggregate(symbol, response.payload)), [])
  }

  /** `fetch_finnhub_social_sentiment` as a function of the key, the day and what the request yields. */
  function FinnhubFetch(ticker: string, keys: APIKeys, days: int, today: int, response: FhResponse): FhOutcome {
    if !Truthy(keys.finnhubApiKey) then FhOutcome(None, [FhNoKeyWarning], [])
    else
      var answer := Answer(Upper(ticker), response);
      FhOutcome(answer.sentiment, answer.warnings,
                [FhRequest(SentimentUrl, Upper(ticker), WindowStart(today, days), today, keys.finnhubApiKey.value)])
  }

  /** `fetch_finnhub_social_sentiment`: the gate, `limiter.wait()`, then the request and the record. */
  method FetchFinnhubSocialSentiment(ticker: string, keys: APIKeys, days: int, today: int, response: FhResponse,
                                     limiter: RateLimiter, clock: Clock)
    returns (sentiment: Option<SocialSentiment>, warnings: seq<string>, trace: seq<Paced<FhRequest>>)
    modifies limiter, clock
    ensures FhOutcome(sentiment, warnings, Requests(trace)) == FinnhubFetch(ticker, keys, days, today, response)
    ensures Spaced(trace, limiter.minIntervalSeconds, old(limiter.lastTs))
    ensures limiter.lastTs == LastAt(trace, old(limiter.lastTs))
  {
    warnings := [];
    trace := [];
    if !(keys.finnhubApiKey.Some? && keys.finnhubApiKey.value != "") {
      warnings := warnings + [FhNoKeyWarning];
      sentiment := None;
      return;
    }
    var fromDay := today - Max(1, days);
    var symbol := Upper(ticker);
    trace := WaitAndSend(limiter, clock, trace, FhRequest(SentimentUrl, symbol, fromDay, today, keys.finnhubApiKey.value),
                         limiter.lastTs);
    sentiment, warnings := RequestSentiment(symbol, response);
  }

  /** The `try` block after the request: the 429 check, `raise_for_status()`, `r.json()` and the record. */
  method RequestSentiment(symbol: string, response: FhResponse)
    returns (sentiment: Option<SocialSentiment>, warnings: seq<string>)
    ensures FhAnswer(sentiment, warnings) == Answer(symbol, response)
  {
    sentiment, warnings := None, [];
    if response.FhRaise? {
      warnings := warnings + [FhWarning(response.error)];
    } else if response.status == 429 {
      warnings := warnings + [FhRateLimitWarning];
    } else if 400 <= response.status < 600 {
      warnings := warnings + [FhWarning(HttpError)];
    } else if response.payload.FhUnparseable? {
      warnings := warnings + [FhWarning(response.payload.error)];
    } else {
      var record := BuildRecord(symbol, response.payload);
      sentiment := Some(record);
    }
  }

  /** The record from the last datapoints of the decoded body. */
  method BuildRecord(symbol: string, payload: FhPayload) returns (record: SocialSentiment)
    requires payload.FhPayload?
    ensures record == Aggregate(symbol, payload)
  {
    var reddit := LastDatapoint(payload.reddit);
    var twitter := LastDatapoint(payload.twitter);
    var redditMentions := SumIntField(reddit, Mention);
    var redditPositive := SumRealField(reddit, PositiveScore);
    var redditNegative := SumRealField(reddit, NegativeScore);
    var twitterMentions := SumIntField(twitter, Mention);
    var twitterPositive := SumRealField(twitter, PositiveScore);
    var twitterNegative := SumRealField(twitter, NegativeScore);
    record := SocialSentiment(symbol, redditMentions, redditPositive, redditNegative,
                              twitterMentions, twitterPositive, twitterNegative);
  }

  // ---------------------------------------------------------------------------
  // Properties
  // ---------------------------------------------------------------------------

  /** The sum over a concatenation is the sum of the sums. */
  lemma {:induction false} SumIntAppend(a: seq<Row>, b: seq<Row>, field: Row -> Field<int>)
    ensures SumInt(a + b, field) == SumInt(a, field) + SumInt(b, field)
    decreases |b|
  {
    if b != [] {
      var b' := b[..|b| - 1];
      assert (a + b)[..|a + b| - 1] == a + b';
      SumIntAppend(a, b', field);
    } else {
      assert a + b == a;
    }
  }

  /** Rows whose field is missing or unconvertible add nothing, and non-negative values give a non-negative sum. */
  lemma {:induction false} SumIntSkips(rows: seq<Row>, field: Row -> Field<int>)
    ensures (forall i :: 0 <= i < |rows| ==> !field(rows[i]).Value?) ==> SumInt(rows, field) == 0
    ensures (forall i :: 0 <= i < |rows| ==> field(rows[i]).Value? ==> field(rows[i]).v >= 0) ==> SumInt(rows, field) >= 0
  {
    if rows != [] {
      SumIntSkips(rows[..|rows| - 1], field);
    }
  }

  /** A single row adds its value. */
  lemma SumIntOne(r: Row, field: Row -> Field<int>)
    ensures SumInt([r], field) == IntContribution(field(r))
  {
    assert [r][..0] == [];
  }

  lemma SumRealOne(r: Row, field: Row -> Field<real>)
    ensures SumReal([r], field) == RealContribution(field(r))
  {
    assert [r][..0] == [];
  }

  lemma {:induction false} SumRealAppend(a: seq<Row>, b: seq<Row>, field: Row -> Field<real>)
    ensures SumReal(a + b, field) == SumReal(a, field) + SumReal(b, field)
    decreases |b|
  {
    if b != [] {
      var b' := b[..|b| - 1];
      assert (a + b)[..|a + b| - 1] == a + b';
      SumRealAppend(a, b', field);
    } else {
      assert a + b == a;
    }
  }

  /** Only the last datapoint of each list counts: the record's counts and scores are that row's values, or 0. */
  lemma AggregateLast(symbol: string, payload: FhPayload)
    requires payload.FhPayload?
    ensures var s := Aggregate(symbol, payload);
      s.symbol == symbol
      && s.redditMentions == (if LastDatapoint(payload.reddit) == [] then 0
                              else IntContribution(LastDatapoint(payload.reddit)[0].mention))
      && s.twitterMentions == (if LastDatapoint(payload.twitter) == [] then 0
                               else IntContribution(LastDatapoint(payload.twitter)[0].mention))
      && s.redditPositiveScore == (if LastDatapoint(payload.reddit) == [] then 0.0
                                   else RealContribution(LastDatapoint(payload.reddit)[0].positiveScore))
      && s.redditNegativeScore == (if LastDatapoint(payload.reddit) == [] then 0.0
                                   else RealContribution(LastDatapoint(payload.reddit)[0].negativeScore))
      && s.twitterPositiveScore == (if LastDatapoint(payload.twitter) == [] then 0.0
                                    else RealContribution(LastDatapoint(payload.twitter)[0].positiveScore))
      && s.twitterNegativeScore == (if LastDatapoint(payload.twitter) == [] then 0.0
                                    else RealContribution(LastDatapoint(payload.twitter)[0].negativeScore))
  {
    var reddit := LastDatapoint(payload.reddit);
    var twitter := LastDatapoint(payload.twitter);
    if reddit != [] {
      SumIntOne(reddit[0], Mention);
      SumRealOne(reddit[0], PositiveScore);
      SumRealOne(reddit[0], NegativeScore);
      assert reddit == [reddit[0]];
    }
    if twitter != [] {
      SumIntOne(twitter[0], Mention);
      SumRealOne(twitter[0], PositiveScore);
      SumRealOne(twitter[0], NegativeScore);
      assert twitter == [twitter[0]];
    }
  }

  /** Without a key: no record, one warning, and no request (hence no `wait()`). */
  lemma FinnhubGate(ticker: string, keys: APIKeys, days: int, today: int, response: FhResponse)
    ensures !Truthy(keys.finnhubApiKey) <==> FinnhubFetch(ticker, keys, days, today, response).requests == []
    ensures !Truthy(keys.finnhubApiKey) ==>
      FinnhubFetch(ticker, keys, days, today, response) == FhOutcome(None, [FhNoKeyWarning], [])
  {
  }

  /**
   * With a key: exactly one request, for the upper-cased symbol over a window of at least
   * one day ending today; then either a record of that symbol and no warning, or no record
   * and exactly one warning.
   */
  lemma FinnhubOutcome(ticker: string, keys: APIKeys, days: int, today: int, response: FhResponse)
    requires Truthy(keys.finnhubApiKey)
    ensures var o := FinnhubFetch(ticker, keys, days, today, response);
      |o.requests| == 1 && o.requests[0].url == SentimentUrl && o.requests[0].symbol == Upper(ticker) && o.requests[0].toDay == today
      && o.requests[0].toDay - o.requests[0].fromDay >= 1 && o.requests[0].token == keys.finnhubApiKey.value
    ensures var o := FinnhubFetch(ticker, keys, days, today, response);
      (o.sentiment.Some? <==> o.warnings == []) && (o.sentiment.None? <==> |o.warnings| == 1)
    ensures var o := FinnhubFetch(ticker, keys, days, today, response);
      o.sentiment.Some? <==> !(response.FhReply? && response.status == 429) && FhRaised(response).None?
    ensures var o := FinnhubFetch(ticker, keys, days, today, response);
      o.sentiment.Some? ==> o.sentiment.value.symbol == Upper(ticker)
    ensures response.FhReply? && response.status == 429 ==>
      FinnhubFetch(ticker, keys, days, today, response).warnings == [FhRateLimitWarning]
  {
  }
}
