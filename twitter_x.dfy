/**
 * The X (Twitter) adapter (sources/twitter_x.py): credential choice, query construction
 * and the paginated recent-search loop with its fallbacks. The search API is an input:
 * `pages[k]` is what the `k`-th request returns.
 */
module TwitterX {
  import opened Wrappers
  import opened Models
  import opened Config
  import opened Utils
  import opened Mock
  import opened Sources

  // ---------------------------------------------------------------------------
  // Client and query
  // ---------------------------------------------------------------------------

  /** How the client authenticates. */
  datatype XAuth =
    | BearerAuth(bearerToken: string)
    | OAuth1(consumerKey: string, consumerSecret: string, accessToken: string, accessTokenSecret: string)

  predicate HasOAuth1(keys: APIKeys) {
    Truthy(keys.twitterConsumerKey) && Truthy(keys.twitterConsumerSecret)
    && Truthy(keys.twitterAccessToken) && Truthy(keys.twitterAccessTokenSecret)
  }

  /** `_build_client`: a bearer token wins; OAuth1 needs all four keys; otherwise no client. */
  function BuildClient(keys: APIKeys): (r: Option<XAuth>)
    ensures (r.Some? && r.value.BearerAuth?) <==> Truthy(keys.twitterBearerToken)
    ensures (r.Some? && r.value.OAuth1?) <==> !Truthy(keys.twitterBearerToken) && HasOAuth1(keys)
    ensures r.None? <==> !Truthy(keys.twitterBearerToken) && !HasOAuth1(keys)
    ensures r.Some? && r.value.BearerAuth? ==> keys.twitterBearerToken == Some(r.value.bearerToken)
    ensures r.Some? && r.value.OAuth1? ==>
      keys.twitterConsumerKey == Some(r.value.consumerKey) && keys.twitterConsumerSecret == Some(r.value.consumerSecret)
      && keys.twitterAccessToken == Some(r.value.accessToken)
      && keys.twitterAccessTokenSecret == Some(r.value.accessTokenSecret)
  {
    if Truthy(keys.twitterBearerToken) then Some(BearerAuth(keys.twitterBearerToken.value))
    else if HasOAuth1(keys) then
      Some(OAuth1(keys.twitterConsumerKey.value, keys.twitterConsumerSecret.value,
                  keys.twitterAccessToken.value, keys.twitterAccessTokenSecret.value))
    else None
  }

  /** The cashtag clause `("$T")` that opens every query. */
  function CashtagClause(ticker: string): string {
    "(\"$" + Upper(ticker) + "\")"
  }

  const XQuerySuffix: string := " -is:retweet lang:en"

  /** The search query: the cashtag clause, ` OR "company"` for a non-blank company, then the filters. */
  function XQuery(ticker: string, company: Option<string>): (q: string)
    ensures CashtagClause(ticker) <= q
    ensures |q| >= |XQuerySuffix| && q[|q| - |XQuerySuffix|..] == XQuerySuffix
    ensures NonBlank(company) <==> |q| > |CashtagClause(ticker)| + |XQuerySuffix|
    ensures NonBlank(company) ==> Contains(q, " OR \"" + Strip(company.value) + "\"")
  {
    var parts := CashtagClause(ticker) + (if NonBlank(company) then " OR \"" + Strip(company.value) + "\"" else "");
    var q := parts + XQuerySuffix;
    assert q[..|CashtagClause(ticker)|] == CashtagClause(ticker);
    assert q[|q| - |XQuerySuffix|..] == XQuerySuffix;
    if NonBlank(company) then
      InfixContains(CashtagClause(ticker), " OR \"" + Strip(company.value) + "\"", XQuerySuffix);
      q
    else q
  }

  /** `max_results` for the next request, given how many tweets are still wanted. */
  function MaxResults(remaining: int): (r: int)
    ensures 10 <= r <= 100
    ensures Min(remaining, 100) <= r <= Max(remaining, 10)
  {
    if remaining >= 100 then 100 else Max(10, remaining)
  }

  // ---------------------------------------------------------------------------
  // The search API
  // ---------------------------------------------------------------------------

  /** A tweet object: its id, its optional text and its optional creation time. */
  datatype Tweet = Tweet(id: int, text: Option<string>, createdAt: Option<Timestamp>)

  /**
   * What one `search_recent_tweets` call does: raise, or answer with optional data and an
   * optional `meta.next_token` (a `None` response reads as an answer without data).
   */
  datatype XPage =
    | XRaise(error: Exception)
    | XResponse(data: Option<seq<Tweet>>, nextToken: Option<string>)

  /** The arguments of one search request. */
  datatype XRequest = XRequest(query: string, maxResults: int, nextToken: Option<string>)

  const StatusUrlPrefix: string := "https://x.com/i/web/status/"

  /** The item built from a tweet whose cleaned text is `text`. */
  function XItem(tw: Tweet, text: string, query: string): TextItem {
    TextItem("X", text, tw.createdAt, Some(StatusUrlPrefix + IntToString(tw.id)), None,
             Some(IntToString(tw.id)), Some(QueryExtra(query)))
  }

  /** The cleaned text of a tweet (`clean_text(getattr(tw, "text", "") or "")`). */
  function TweetText(tw: Tweet): string {
    CleanText(tw.text.GetOr(""))
  }

  /** The shape of every item built from a tweet. */
  predicate IsTweetItem(it: TextItem, query: string) {
    it.platform == "X" && it.text != "" && NoUrl(it.text) && Trimmed(it.text)
    && it.externalId.Some? && it.url == Some(StatusUrlPrefix + it.externalId.value)
    && it.author == None && it.extra == Some(QueryExtra(query))
  }

  /** The item one tweet contributes: none when its cleaned text is empty. */
  function TweetItem(tw: Tweet, query: string): seq<TextItem> {
    if TweetText(tw) == "" then [] else [XItem(tw, TweetText(tw), query)]
  }

  /** The items the `for tw in resp.data` loop appends: one per tweet whose cleaned text is non-empty. */
  function TweetItems(data: seq<Tweet>, query: string): (r: seq<TextItem>)
    ensures |r| <= |data|
  {
    if data == [] then [] else TweetItem(data[0], query) + TweetItems(data[1..], query)
  }

  /** Every item built from a page of tweets has the shape of a tweet item. */
  lemma {:induction false} TweetItemsShape(data: seq<Tweet>, query: string)
    ensures forall it :: it in TweetItems(data, query) ==> IsTweetItem(it, query)
  {
    if data != [] {
      TweetItemsShape(data[1..], query);
      CleanTextNormalizes(data[0].text.GetOr(""));
    }
  }

  /** Exactly the tweets whose cleaned text is non-empty become items; every item comes from a tweet. */
  lemma {:induction false} TweetItemsMembers(data: seq<Tweet>, query: string)
    ensures forall it :: it in TweetItems(data, query) ==> exists tw :: tw in data && it == XItem(tw, TweetText(tw), query)
    ensures forall tw :: tw in data && TweetText(tw) != "" ==> XItem(tw, TweetText(tw), query) in TweetItems(data, query)
  {
    if data != [] {
      TweetItemsMembers(data[1..], query);
      var head := TweetItem(data[0], query);
      assert TweetItems(data, query) == head + TweetItems(data[1..], query);
      forall tw | tw in data && TweetText(tw) != ""
        ensures XItem(tw, TweetText(tw), query) in TweetItems(data, query)
      {
        if tw != data[0] {
          assert tw in data[1..];
        }
      }
      forall it | it in TweetItems(data, query)
        ensures exists tw :: tw in data && it == XItem(tw, TweetText(tw), query)
      {
        if it !in head {
          assert it in TweetItems(data[1..], query);
          var tw :| tw in data[1..] && it == XItem(tw, TweetText(tw), query);
          assert tw in data;
        }
      }
    }
  }

  /** The items of two pages of tweets, one after the other. */
  lemma {:induction false} TweetItemsAppend(a: seq<Tweet>, b: seq<Tweet>, query: string)
    ensures TweetItems(a + b, query) == TweetItems(a, query) + TweetItems(b, query)
  {
    if a != [] {
      var head := TweetItem(a[0], query);
      assert (a + b)[0] == a[0] && (a + b)[1..] == a[1..] + b;
      assert TweetItems(a + b, query) == head + TweetItems(a[1..] + b, query);
      TweetItemsAppend(a[1..], b, query);
      assert head + (TweetItems(a[1..], query) + TweetItems(b, query))
          == (head + TweetItems(a[1..], query)) + TweetItems(b, query);
    } else {
      assert a + b == b;
    }
  }

  /** Appending one tweet to the prefix appends that tweet's item, if any. */
  lemma TweetItemsSnoc(items: seq<TextItem>, data: seq<Tweet>, j: nat, query: string)
    requires j < |data|
    ensures TweetText(data[j]) == "" ==> items + TweetItems(data[..j + 1], query) == items + TweetItems(data[..j], query)
    ensures TweetText(data[j]) != "" ==>
      items + TweetItems(data[..j + 1], query)
      == items + TweetItems(data[..j], query) + [XItem(data[j], TweetText(data[j]), query)]
  {
    assert data[..j + 1] == data[..j] + [data[j]];
    TweetItemsAppend(data[..j], [data[j]], query);
    assert TweetItems([data[j]], query) == TweetItem(data[j], query) + TweetItems([], query);
  }

  /** The `for tw in resp.data` loop, skipping tweets whose cleaned text is empty. */
  method AppendTweetItems(items: seq<TextItem>, data: seq<Tweet>, query: string) returns (items': seq<TextItem>)
    ensures items' == items + TweetItems(data, query)
  {
    items' := items;
    var j := 0;
    while j < |data|
      invariant 0 <= j <= |data|
      invariant items' == items + TweetItems(data[..j], query)
    {
      var tw := data[j];
      var txt := TweetText(tw);
      TweetItemsSnoc(items, data, j, query);
      if txt != "" {
        items' := items' + [XItem(tw, txt, query)];
      }
      j := j + 1;
    }
    assert data[..|data|] == data;
  }

  // ---------------------------------------------------------------------------
  // The pagination loop
  // ---------------------------------------------------------------------------

  /** The loop's result: the items gathered, the exception that ended it (if any), and the requests sent. */
  datatype XRun = XRun(items: seq<TextItem>, raised: Option<Exception>, requests: seq<XRequest>)

  /**
   * `while len(items) < limit`, from the state after `|reqs|` requests: wait and request;
   * stop on a raise, on a missing response or data, or on a falsy next token.
   */
  function XLoop(pages: seq<XPage>, query: string, limit: int, token: Option<string>,
                 items: seq<TextItem>, reqs: seq<XRequest>): XRun
    decreases |pages| - |reqs|
  {
    if |items| >= limit then XRun(items, None, reqs)
    else
      var reqs' := reqs + [XRequest(query, MaxResults(limit - |items|), token)];
      if |reqs| >= |pages| then XRun(items, None, reqs')
      else
        match pages[|reqs|]
        case XRaise(e) => XRun(items, Some(e), reqs')
        case XResponse(data, next) =>
          if data.None? then XRun(items, None, reqs')
          else
            var items' := items + TweetItems(data.value, query);
            if !Truthy(next) then XRun(items', None, reqs')
            else XLoop(pages, query, limit, next, items', reqs')
  }

  const XNoKeysWarning: string := "X (Twitter) keys not configured; using mock X data."
  const XRateLimitWarning: string := "X rate limit hit; using mock X data for remaining results."

  /** The warning for an exception: `TooManyRequests` has its own text. */
  function XWarning(e: Exception): string {
    if e.typeName == "TooManyRequests" then XRateLimitWarning
    else Failed("X", e, "using mock X data.")
  }

  /** The warning of the `except` clause that caught `raised`, if anything was raised. */
  function XWarningOf(raised: Option<Exception>): Option<string> {
    if raised.None? then None else Some(XWarning(raised.value))
  }

  /** The run of the loop from its initial state. */
  function XRunOf(ticker: string, company: Option<string>, limit: int, pages: seq<XPage>): XRun {
    XLoop(pages, XQuery(ticker, company), limit, None, [], [])
  }

  /** `fetch_recent_tweets` as a function of the keys, the pages the API serves and the clock reading. */
  function XFetch(ticker: string, company: Option<string>, keys: APIKeys, limit: int, pages: seq<XPage>,
                  now: Timestamp): Outcome<XRequest>
  {
    if BuildClient(keys).None? then Outcome(Unconfigured("X", ticker, now, XNoKeysWarning), [])
    else
      var run := XRunOf(ticker, company, limit, pages);
      Outcome(Settled("X", ticker, now, run.items, XWarningOf(run.raised)), run.requests)
  }

  /** The `while len(items) < limit` loop, one `wait()` before each request. */
  method SearchPages(query: string, limit: int, pages: seq<XPage>, limiter: RateLimiter, clock: Clock)
    returns (items: seq<TextItem>, raised: Option<Exception>, trace: seq<Paced<XRequest>>)
    modifies limiter, clock
    ensures XRun(items, raised, Requests(trace)) == XLoop(pages, query, limit, None, [], [])
    ensures Spaced(trace, limiter.minIntervalSeconds, old(limiter.lastTs))
    ensures limiter.lastTs == LastAt(trace, old(limiter.lastTs))
  {
    items, raised, trace := [], None, [];
    var nextToken: Option<string> := None;
    ghost var start := limiter.lastTs;
    ghost var run := XLoop(pages, query, limit, None, [], []);
    while |items| < limit
      invariant |trace| <= |pages|
      invariant raised.None?
      invariant XLoop(pages, query, limit, nextToken, items, Requests(trace)) == run
      invariant Spaced(trace, limiter.minIntervalSeconds, start) && limiter.lastTs == LastAt(trace, start)
      decreases |pages| - |trace|
    {
      var req := XRequest(query, MaxResults(limit - |items|), nextToken);
      trace := WaitAndSend(limiter, clock, trace, req, start);
      var k := |trace| - 1;
      if k >= |pages| {
        break;
      }
      var resp := pages[k];
      if resp.XRaise? {
        raised := Some(resp.error);
        break;
      }
      if resp.data.None? {
        break;
      }
      items := AppendTweetItems(items, resp.data.value, query);
      nextToken := resp.nextToken;
      if !Truthy(nextToken) {
        break;
      }
    }
  }

  /** `fetch_recent_tweets`, issuing every request through `limiter.wait()`. */
  method FetchRecentTweets(ticker: string, company: Option<string>, keys: APIKeys, limit: int,
                           pages: seq<XPage>, now: Timestamp, limiter: RateLimiter, clock: Clock)
    returns (items: seq<TextItem>, warnings: seq<string>, trace: seq<Paced<XRequest>>)
    modifies limiter, clock
    ensures Outcome(Fetched(items, warnings), Requests(trace)) == XFetch(ticker, company, keys, limit, pages, now)
    ensures Spaced(trace, limiter.minIntervalSeconds, old(limiter.lastTs))
    ensures limiter.lastTs == LastAt(trace, old(limiter.lastTs))
  {
    warnings := [];
    var client := BuildClient(keys);
    if client.None? {
      warnings := warnings + [XNoKeysWarning];
      items := MockItems("X", ticker, now);
      trace := [];
      return;
    }
    var query := XQuery(ticker, company);
    var gathered, raised;
    gathered, raised, trace := SearchPages(query, limit, pages, limiter, clock);
    items, warnings := Settle("X", ticker, now, gathered, XWarningOf(raised));
  }

  // ---------------------------------------------------------------------------
  // Properties
  // ---------------------------------------------------------------------------

  /** Request `i` of `reqs` is well formed: the query, a `max_results` in [10, 100], and the token chain. */
  predicate ChainedAt(reqs: seq<XRequest>, pages: seq<XPage>, query: string, i: int)
    requires 0 <= i < |reqs|
  {
    reqs[i].query == query && 10 <= reqs[i].maxResults <= 100
    && (i == 0 ==> reqs[i].nextToken == None)
    && (i > 0 ==> i - 1 < |pages| && pages[i - 1].XResponse? && pages[i - 1].data.Some?
                  && Truthy(pages[i - 1].nextToken) && reqs[i].nextToken == pages[i - 1].nextToken)
  }

  predicate Chained(reqs: seq<XRequest>, pages: seq<XPage>, query: string) {
    forall i :: 0 <= i < |reqs| ==> ChainedAt(reqs, pages, query, i)
  }

  /** The API honours `max_results`: no fetched page holds more tweets than its request asked for. */
  predicate Honours(pages: seq<XPage>, reqs: seq<XRequest>) {
    forall i :: 0 <= i < |reqs| && i < |pages| && pages[i].XResponse? && pages[i].data.Some? ==>
      |pages[i].data.value| <= reqs[i].maxResults
  }

  /** What the loop keeps from any state it can reach. */
  lemma {:induction false} XLoopInvariant(pages: seq<XPage>, query: string, limit: int, token: Option<string>,
                                          items: seq<TextItem>, reqs: seq<XRequest>)
    requires |reqs| <= |pages|
    requires Chained(reqs, pages, query)
    requires reqs == [] ==> token == None
    requires reqs != [] ==> pages[|reqs| - 1].XResponse? && pages[|reqs| - 1].data.Some?
                            && Truthy(pages[|reqs| - 1].nextToken) && token == pages[|reqs| - 1].nextToken
    requires forall it :: it in items ==> IsTweetItem(it, query)
    ensures reqs <= XLoop(pages, query, limit, token, items, reqs).requests
    ensures items <= XLoop(pages, query, limit, token, items, reqs).items
    ensures |XLoop(pages, query, limit, token, items, reqs).requests| <= |pages| + 1
    ensures Chained(XLoop(pages, query, limit, token, items, reqs).requests, pages, query)
    ensures forall it :: it in XLoop(pages, query, limit, token, items, reqs).items ==> IsTweetItem(it, query)
    decreases |pages| - |reqs|
  {
    if |items| < limit {
      var req := XRequest(query, MaxResults(limit - |items|), token);
      var reqs' := reqs + [req];
      assert forall i :: 0 <= i < |reqs| ==> reqs'[i] == reqs[i];
      assert ChainedAt(reqs', pages, query, |reqs|);
      assert Chained(reqs', pages, query) by {
        forall i | 0 <= i < |reqs'| ensures ChainedAt(reqs', pages, query, i) {
          if i < |reqs| {
            assert ChainedAt(reqs, pages, query, i);
          }
        }
      }
      if |reqs| < |pages| && pages[|reqs|].XResponse? && pages[|reqs|].data.Some? {
        var p := pages[|reqs|];
        var items' := items + TweetItems(p.data.value, query);
        TweetItemsShape(p.data.value, query);
        if Truthy(p.nextToken) {
          XLoopInvariant(pages, query, limit, p.nextToken, items', reqs');
        }
      }
    }
  }

  /** A page after which the loop asks for no further page: no data, or no next token. */
  predicate LastPage(p: XPage) {
    p.XResponse? && (p.data.None? || !Truthy(p.nextToken))
  }

  /** A raising loop ends at the page that raised: its last request fetched that page. */
  lemma {:induction false} XLoopRaisedAt(pages: seq<XPage>, query: string, limit: int, token: Option<string>,
                                         items: seq<TextItem>, reqs: seq<XRequest>)
    ensures var run := XLoop(pages, query, limit, token, items, reqs);
      run.raised.Some? ==>
        |reqs| < |run.requests| <= |pages| && pages[|run.requests| - 1] == XRaise(run.raised.value)
    decreases |pages| - |reqs|
  {
    if |items| < limit && |reqs| < |pages| {
      var p := pages[|reqs|];
      if p.XResponse? && p.data.Some? && Truthy(p.nextToken) {
        var reqs' := reqs + [XRequest(query, MaxResults(limit - |items|), token)];
        var items' := items + TweetItems(p.data.value, query);
        assert XLoop(pages, query, limit, token, items, reqs) == XLoop(pages, query, limit, p.nextToken, items', reqs');
        XLoopRaisedAt(pages, query, limit, p.nextToken, items', reqs');
      }
    }
  }

  /**
   * A loop that does not raise stopped because the limit was reached, or because its last
   * request went past the given pages or fetched a last page.
   */
  lemma {:induction false} XLoopStopped(pages: seq<XPage>, query: string, limit: int, token: Option<string>,
                                        items: seq<TextItem>, reqs: seq<XRequest>)
    ensures var run := XLoop(pages, query, limit, token, items, reqs);
      run.raised.None? ==>
        |run.items| >= limit
        || (|reqs| < |run.requests| && (|run.requests| > |pages| || LastPage(pages[|run.requests| - 1])))
    decreases |pages| - |reqs|
  {
    var run := XLoop(pages, query, limit, token, items, reqs);
    if |items| < limit {
      var reqs' := reqs + [XRequest(query, MaxResults(limit - |items|), token)];
      if |reqs| < |pages| {
        var p := pages[|reqs|];
        if p.XResponse? && p.data.Some? && Truthy(p.nextToken) {
          var items' := items + TweetItems(p.data.value, query);
          assert run == XLoop(pages, query, limit, p.nextToken, items', reqs');
          XLoopStopped(pages, query, limit, p.nextToken, items', reqs');
        } else if p.XResponse? {
          assert run.requests == reqs' && LastPage(p);
        }
      } else {
        assert run.requests == reqs';
      }
    }
  }

  /** If the API honours `max_results`, the loop overshoots `limit` by at most 9 tweets. */
  lemma {:induction false} XLoopOvershoot(pages: seq<XPage>, query: string, limit: int, token: Option<string>,
                                          items: seq<TextItem>, reqs: seq<XRequest>)
    requires |items| <= Max(0, limit) + 9
    requires Honours(pages, XLoop(pages, query, limit, token, items, reqs).requests)
    ensures |XLoop(pages, query, limit, token, items, reqs).items| <= Max(0, limit) + 9
    decreases |pages| - |reqs|
  {
    var run := XLoop(pages, query, limit, token, items, reqs);
    if |items| < limit && |reqs| < |pages| && pages[|reqs|].XResponse? && pages[|reqs|].data.Some? {
      var p := pages[|reqs|];
      var req := XRequest(query, MaxResults(limit - |items|), token);
      var reqs' := reqs + [req];
      var items' := items + TweetItems(p.data.value, query);
      XLoopInvariantPrefix(pages, query, limit, token, items, reqs);
      assert run.requests[|reqs|] == req;
      assert |p.data.value| <= req.maxResults;
      assert |items'| <= Max(0, limit) + 9;
      if Truthy(p.nextToken) {
        XLoopOvershoot(pages, query, limit, p.nextToken, items', reqs');
      }
    }
  }

  /** The loop only ever extends the requests sent so far, by the request for the current state first. */
  lemma {:induction false} XLoopInvariantPrefix(pages: seq<XPage>, query: string, limit: int, token: Option<string>,
                                                items: seq<TextItem>, reqs: seq<XRequest>)
    ensures reqs <= XLoop(pages, query, limit, token, items, reqs).requests
    ensures |items| < limit ==>
      |XLoop(pages, query, limit, token, items, reqs).requests| > |reqs|
      && XLoop(pages, query, limit, token, items, reqs).requests[|reqs|]
         == XRequest(query, MaxResults(limit - |items|), token)
    decreases |pages| - |reqs|
  {
    if |items| < limit && |reqs| < |pages| {
      var p := pages[|reqs|];
      var reqs' := reqs + [XRequest(query, MaxResults(limit - |items|), token)];
      if p.XResponse? && p.data.Some? && Truthy(p.nextToken) {
        var items' := items + TweetItems(p.data.value, query);
        XLoopInvariantPrefix(pages, query, limit, p.nextToken, items', reqs');
        var next := XLoop(pages, query, limit, p.nextToken, items', reqs');
        assert reqs' <= next.requests;
        assert next.requests[|reqs|] == reqs'[|reqs|];
      }
    }
  }

  /**
   * Requests: none without a client or with `limit <= 0`; otherwise each carries the query,
   * a `max_results` in [10, 100], and the token the previous page returned; at most one
   * request per page served plus the one that finds no page.
   */
  lemma XFetchRequests(ticker: string, company: Option<string>, keys: APIKeys, limit: int, pages: seq<XPage>,
                       now: Timestamp)
    ensures BuildClient(keys).None? || limit <= 0 ==> XFetch(ticker, company, keys, limit, pages, now).requests == []
    ensures |XFetch(ticker, company, keys, limit, pages, now).requests| <= |pages| + 1
    ensures Chained(XFetch(ticker, company, keys, limit, pages, now).requests, pages, XQuery(ticker, company))
  {
    XLoopInvariant(pages, XQuery(ticker, company), limit, None, [], []);
  }

  /**
   * The exception boundary: no warning on success; exactly one otherwise, and then the
   * mock data exactly when nothing was gathered, the partial list when something was.
   */
  lemma XFetchFallback(ticker: string, company: Option<string>, keys: APIKeys, limit: int, pages: seq<XPage>,
                       now: Timestamp)
    ensures var r := XFetch(ticker, company, keys, limit, pages, now).result;
      BuildClient(keys).None? ==> r == Fetched(MockList("X", ticker, now), [XNoKeysWarning])
    ensures var r := XFetch(ticker, company, keys, limit, pages, now).result;
      var run := XRunOf(ticker, company, limit, pages);
      BuildClient(keys).Some? ==>
        (r.warnings == [] <==> run.raised.None?)
        && (run.raised.None? ==> r.items == run.items)
        && (run.raised.Some? ==>
              r.warnings == [XWarning(run.raised.value)]
              && r.items == (if run.items == [] then MockList("X", ticker, now) else run.items))
    ensures var r := XFetch(ticker, company, keys, limit, pages, now).result;
      |r.warnings| <= 1 && (r.warnings == [] ==> r.items == XRunOf(ticker, company, limit, pages).items)
  {
  }

  /** Every item is a mock item or was built from a tweet whose cleaned text is non-empty. */
  lemma XFetchItems(ticker: string, company: Option<string>, keys: APIKeys, limit: int, pages: seq<XPage>,
                    now: Timestamp)
    ensures forall it :: it in XFetch(ticker, company, keys, limit, pages, now).result.items ==>
      it in MockList("X", ticker, now) || IsTweetItem(it, XQuery(ticker, company))
  {
    XLoopInvariant(pages, XQuery(ticker, company), limit, None, [], []);
  }

  /** If the API honours `max_results`, at most `limit + 9` items come back (9 when `limit <= 0`). */
  lemma XFetchOvershoot(ticker: string, company: Option<string>, keys: APIKeys, limit: int, pages: seq<XPage>,
                        now: Timestamp)
    requires Honours(pages, XFetch(ticker, company, keys, limit, pages, now).requests)
    ensures |XFetch(ticker, company, keys, limit, pages, now).result.items| <= Max(0, limit) + 9
  {
    MockListShape("X", ticker, now);
    if BuildClient(keys).Some? {
      XLoopOvershoot(pages, XQuery(ticker, company), limit, None, [], []);
    }
  }
}
