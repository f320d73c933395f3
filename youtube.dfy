/**
 * The YouTube adapter (sources/youtube.py): key gate, query, video search, the video-id
 * filter, and per-video comment-thread pagination with its cap. The API is an input: a
 * possible failure of `build(...)`, the search response, and for the `j`-th processed
 * video the sequence of comment-thread pages its requests receive.
 */
module YouTube {
  import opened Wrappers
  import opened Models
  import opened Config
  import opened Utils
  import opened Mock
  import opened Sources

  // ---------------------------------------------------------------------------
  // Query and search size
  // ---------------------------------------------------------------------------

  const QuerySuffix: string := " stock analysis"

  /** `"T stock analysis"`, or `"T company stock analysis"` for a non-blank company. */
  function YtQuery(ticker: string, company: Option<string>): (q: string)
    ensures Upper(ticker) <= q
    ensures |q| >= |QuerySuffix| && q[|q| - |QuerySuffix|..] == QuerySuffix
    ensures NonBlank(company) <==> |q| > |Upper(ticker)| + |QuerySuffix|
    ensures NonBlank(company) ==> Contains(q, " " + Strip(company.value) + QuerySuffix)
  {
    var mid := if NonBlank(company) then " " + Strip(company.value) else "";
    QueryParts(Upper(ticker), mid);
    Upper(ticker) + mid + QuerySuffix
  }

  /** The three parts of the query, put together. */
  lemma QueryParts(t: string, mid: string)
    ensures var q := t + mid + QuerySuffix;
      t <= q && |q| == |t| + |mid| + |QuerySuffix| && q[|q| - |QuerySuffix|..] == QuerySuffix
      && Contains(q, mid + QuerySuffix)
  {
    var q := t + mid + QuerySuffix;
    assert q[..|t|] == t;
    assert q[|q| - |QuerySuffix|..] == QuerySuffix;
    InfixContains(t, mid + QuerySuffix, "");
    assert t + (mid + QuerySuffix) + "" == q;
  }

  /** The search's `maxResults`: `max(1, min(10, videos))`. */
  function SearchMaxResults(videos: int): (r: int)
    ensures 1 <= r <= 10
    ensures 1 <= videos <= 10 ==> r == videos
    ensures videos < 1 ==> r == 1
    ensures videos > 10 ==> r == 10
  {
    Max(1, Min(10, videos))
  }

  /** A comment page's `maxResults`: `min(100, comments_per_video - fetched)`. */
  function PageMaxResults(cap: int, fetched: int): (r: int)
    requires fetched < cap
    ensures 1 <= r <= 100
    ensures r <= cap - fetched && (cap - fetched <= 100 ==> r == cap - fetched)
  {
    Min(100, cap - fetched)
  }

  // ---------------------------------------------------------------------------
  // The API
  // ---------------------------------------------------------------------------

  /** A comment thread: its id and the top-level comment's text, publication time and author. */
  datatype YtThread = YtThread(id: Option<string>, text: Option<string>, publishedAt: Option<Timestamp>,
                               author: Option<string>)

  /** A comment-thread response, or the exception its request raised. */
  datatype YtPage =
    | PageRaise(error: Exception)
    | Page(threads: seq<YtThread>, nextToken: Option<string>)

  /** The search response (the `videoId` of each hit, if any), or the exception it raised. */
  datatype YtSearch =
    | SearchRaise(error: Exception)
    | SearchResult(videoIds: seq<Option<string>>)

  datatype YtRequest =
    | VideoSearch(query: string, maxResults: int)
    | ThreadsRequest(videoId: string, maxResults: int, pageToken: Option<string>)

  /** The `k`-th response of a video; beyond the given pages, the empty response `{}`. */
  function PageAt(pages: seq<YtPage>, k: nat): YtPage {
    if k < |pages| then pages[k] else Page([], None)
  }

  /** The pages of the `j`-th processed video. */
  function PagesOf(threads: seq<seq<YtPage>>, j: nat): seq<YtPage> {
    if j < |threads| then threads[j] else []
  }

  // ---------------------------------------------------------------------------
  // Items
  // ---------------------------------------------------------------------------

  const WatchPrefix: string := "https://www.youtube.com/watch?v="

  /** The search hits that carry a video id, in order. */
  function VideoIds(hits: seq<Option<string>>): (r: seq<string>)
    ensures |r| <= |hits|
  {
    if hits == [] then []
    else (if Truthy(hits[0]) then [hits[0].value] else []) + VideoIds(hits[1..])
  }

  /** Exactly the non-empty ids of the hits are kept. */
  lemma {:induction false} VideoIdsMembers(hits: seq<Option<string>>)
    ensures forall v :: v in VideoIds(hits) <==> Some(v) in hits && v != ""
  {
    if hits != [] {
      VideoIdsMembers(hits[1..]);
      assert hits == [hits[0]] + hits[1..];
    }
  }

  lemma VideoIdsStep(hits: seq<Option<string>>, j: nat)
    requires j < |hits|
    ensures VideoIds(hits[j..]) == (if Truthy(hits[j]) then [hits[j].value] else []) + VideoIds(hits[j + 1..])
  {
    assert hits[j..][1..] == hits[j + 1..];
  }

  function ThreadText(th: YtThread): string {
    CleanText(th.text.GetOr(""))
  }

  /** The item of a thread of video `vid` whose cleaned text is `text`. */
  function ThreadItem(th: YtThread, text: string, vid: string, q: string): TextItem {
    TextItem("YouTube", text, th.publishedAt, Some(WatchPrefix + vid), th.author,
             if Truthy(th.id) then th.id else None, Some(YouTubeExtra(vid, q)))
  }

  /** A comment item of video `vid`: non-empty text, the watch url, a non-empty id if any, tagged with video and query. */
  predicate IsYouTubeItem(it: TextItem, vid: string, q: string) {
    it.platform == "YouTube" && it.text != "" && it.url == Some(WatchPrefix + vid)
    && (it.externalId.Some? ==> it.externalId.value != "") && it.extra == Some(YouTubeExtra(vid, q))
  }

  /** A comment item of one of `vids`. */
  predicate IsYouTubeItemOf(it: TextItem, vids: seq<string>, q: string) {
    it.extra.Some? && it.extra.value.YouTubeExtra? && it.extra.value.videoId in vids
    && IsYouTubeItem(it, it.extra.value.videoId, q)
  }

  /**
   * `for th in resp["items"]` from the `j`-th thread on, with `room` comments still allowed
   * and `text` giving a thread's cleaned text: threads whose text is empty are skipped, and
   * the loop breaks once the room is used up. The loop does not depend on how texts are
   * cleaned, so it is stated (and its method proved) for any cleaning function.
   */
  function TakeThreads(text: YtThread -> string, threads: seq<YtThread>, j: nat, vid: string, q: string,
                       room: int): seq<TextItem>
    decreases |threads| - j
  {
    if j >= |threads| || room <= 0 then []
    else if text(threads[j]) == "" then TakeThreads(text, threads, j + 1, vid, q, room)
    else [ThreadItem(threads[j], text(threads[j]), vid, q)] + TakeThreads(text, threads, j + 1, vid, q, room - 1)
  }

  /** The item of a thread whose text is non-empty is a comment item of its video. */
  lemma ThreadItemShape(th: YtThread, text: string, vid: string, q: string)
    requires text != ""
    ensures IsYouTubeItem(ThreadItem(th, text, vid, q), vid, q)
  {
  }

  /** Every item taken from a page is a comment item of the video it was fetched for. */
  lemma {:induction false} TakeThreadsShape(text: YtThread -> string, threads: seq<YtThread>, j: nat, vid: string,
                                            q: string, room: int)
    ensures forall it :: it in TakeThreads(text, threads, j, vid, q, room) ==> IsYouTubeItem(it, vid, q)
    decreases |threads| - j
  {
    if j < |threads| && room > 0 {
      if text(threads[j]) == "" {
        TakeThreadsShape(text, threads, j + 1, vid, q, room);
      } else {
        TakeThreadsShape(text, threads, j + 1, vid, q, room - 1);
        ThreadItemShape(threads[j], text(threads[j]), vid, q);
      }
    }
  }

  // ---------------------------------------------------------------------------
  // The loops
  // ---------------------------------------------------------------------------

  datatype YRun = YRun(items: seq<TextItem>, raised: Option<Exception>, requests: seq<YtRequest>)

  // The loops, like the page loop, take the text-cleaning function `text` as a parameter;
  // the adapter instantiates it with `ThreadText`.

  /**
   * `while fetched < comments_per_video` for one video, at its `k`-th request with
   * `token` as the page token: stop at the cap, on an exception, or when the
   * response has no `nextPageToken`.
   */
  function VideoLoop(text: YtThread -> string, pages: seq<YtPage>, vid: string, q: string, cap: int, fetched: int,
                     token: Option<string>, k: nat, items: seq<TextItem>, reqs: seq<YtRequest>): YRun
    decreases |pages| - k
  {
    if fetched >= cap then YRun(items, None, reqs)
    else
      var reqs' := reqs + [ThreadsRequest(vid, PageMaxResults(cap, fetched), token)];
      var page := PageAt(pages, k);
      if page.PageRaise? then YRun(items, Some(page.error), reqs')
      else
        var got := TakeThreads(text, page.threads, 0, vid, q, cap - fetched);
        if k < |pages| && Truthy(page.nextToken) then
          VideoLoop(text, pages, vid, q, cap, fetched + |got|, page.nextToken, k + 1, items + got, reqs')
        else YRun(items + got, None, reqs')
  }

  /** `for vid in video_ids[:videos]` from the `j`-th on; an exception ends everything. */
  function VideosLoop(text: YtThread -> string, vids: seq<string>, threads: seq<seq<YtPage>>, q: string, cap: int,
                      j: nat, items: seq<TextItem>, reqs: seq<YtRequest>): YRun
    decreases |vids| - j
  {
    if j >= |vids| then YRun(items, None, reqs)
    else
      var r := VideoLoop(text, PagesOf(threads, j), vids[j], q, cap, 0, None, 0, items, reqs);
      if r.raised.Some? then r else VideosLoop(text, vids, threads, q, cap, j + 1, r.items, r.requests)
  }

  /** The video ids that are processed: the hits with an id, cut to `video_ids[:videos]`. */
  function Processed(search: YtSearch, videos: int): seq<string>
    requires search.SearchResult?
  {
    SliceTo(VideoIds(search.videoIds), videos)
  }

  /** The body of the `try`: build the client, search, then the videos. */
  function YtRunOf(ticker: string, company: Option<string>, videos: int, cap: int, build: Option<Exception>,
                   search: YtSearch, threads: seq<seq<YtPage>>): YRun {
    var q := YtQuery(ticker, company);
    if build.Some? then YRun([], build, [])
    else
      var reqs := [VideoSearch(q, SearchMaxResults(videos))];
      if search.SearchRaise? then YRun([], Some(search.error), reqs)
      else VideosLoop(ThreadText, Processed(search, videos), threads, q, cap, 0, [], reqs)
  }

  const YtNoKeyWarning: string := "YouTube API key not configured; using mock YouTube data."

  function YtWarning(e: Exception): string {
    Failed("YouTube", e, "using mock YouTube data.")
  }

  /** The warning of the `except` clause that caught `raised`, if anything was raised. */
  function YtWarningOf(raised: Option<Exception>): Option<string> {
    if raised.None? then None else Some(YtWarning(raised.value))
  }

  /** `fetch_youtube_comments` as a function of the key, what the API yields and the clock reading. */
  function YouTubeFetch(ticker: string, company: Option<string>, keys: APIKeys, videos: int, cap: int,
                        build: Option<Exception>, search: YtSearch, threads: seq<seq<YtPage>>, now: Timestamp)
    : Outcome<YtRequest>
  {
    if !Truthy(keys.youtubeApiKey) then Outcome(Unconfigured("YouTube", ticker, now, YtNoKeyWarning), [])
    else
      var run := YtRunOf(ticker, company, videos, cap, build, search, threads);
      Outcome(Settled("YouTube", ticker, now, run.items, YtWarningOf(run.raised)), run.requests)
  }

  // ---------------------------------------------------------------------------
  // The methods
  // ---------------------------------------------------------------------------

  /** `for it in search_resp["items"]`: keep the hits that carry a video id. */
  method CollectVideoIds(hits: seq<Option<string>>) returns (ids: seq<string>)
    ensures ids == VideoIds(hits)
  {
    ids := [];
    var j := 0;
    assert hits[j..] == hits;
    while j < |hits|
      invariant 0 <= j <= |hits|
      invariant ids + VideoIds(hits[j..]) == VideoIds(hits)
    {
      VideoIdsStep(hits, j);
      var vid := hits[j];
      if Truthy(vid) {
        AppendAssoc(ids, [vid.value], VideoIds(hits[j + 1..]));
        ids := ids + [vid.value];
      }
      j := j + 1;
    }
  }

  /** `for th in resp["items"]`, appending comment items and counting them in `fetched`. */
  method AppendThreadItems(text: YtThread -> string, threads: seq<YtThread>, vid: string, q: string, cap: int,
                           fetched: int, items: seq<TextItem>)
    returns (items': seq<TextItem>, fetched': int)
    requires fetched < cap
    ensures items' == items + TakeThreads(text, threads, 0, vid, q, cap - fetched)
    ensures fetched' == fetched + |TakeThreads(text, threads, 0, vid, q, cap - fetched)|
  {
    items', fetched' := items, fetched;
    ghost var total := TakeThreads(text, threads, 0, vid, q, cap - fetched);
    var j := 0;
    while j < |threads|
      invariant 0 <= j <= |threads|
      invariant fetched' < cap
      invariant items' + TakeThreads(text, threads, j, vid, q, cap - fetched') == items + total
      invariant fetched' - fetched == |items'| - |items|
    {
      var th := threads[j];
      var txt := text(th);
      if txt != "" {
        ghost var rest := TakeThreads(text, threads, j + 1, vid, q, cap - fetched' - 1);
        AppendAssoc(items', [ThreadItem(th, txt, vid, q)], rest);
        items' := items' + [ThreadItem(th, txt, vid, q)];
        fetched' := fetched' + 1;
        if fetched' >= cap {
          break;
        }
      }
      j := j + 1;
    }
  }

  /** The comments of one video: `while fetched < comments_per_video`, one `wait()` per page. */
  method FetchVideoComments(text: YtThread -> string, pages: seq<YtPage>, vid: string, q: string, cap: int, items: seq<TextItem>,
                            trace: seq<Paced<YtRequest>>, limiter: RateLimiter, clock: Clock, ghost start: real)
    returns (items': seq<TextItem>, raised: Option<Exception>, trace': seq<Paced<YtRequest>>)
    requires Spaced(trace, limiter.minIntervalSeconds, start) && limiter.lastTs == LastAt(trace, start)
    modifies limiter, clock
    ensures YRun(items', raised, Requests(trace')) == VideoLoop(text, pages, vid, q, cap, 0, None, 0, items, Requests(trace))
    ensures Spaced(trace', limiter.minIntervalSeconds, start) && limiter.lastTs == LastAt(trace', start)
  {
    items', raised, trace' := items, None, trace;
    ghost var run := VideoLoop(text, pages, vid, q, cap, 0, None, 0, items, Requests(trace));
    var fetched := 0;
    var pageToken: Option<string> := None;
    var k := 0;
    while fetched < cap
      invariant k <= |pages|
      invariant VideoLoop(text, pages, vid, q, cap, fetched, pageToken, k, items', Requests(trace')) == run
      invariant Spaced(trace', limiter.minIntervalSeconds, start) && limiter.lastTs == LastAt(trace', start)
      decreases |pages| - k
    {
      ghost var items0, reqs0, token0 := items', Requests(trace'), pageToken;
      trace' := WaitAndSend(limiter, clock, trace', ThreadsRequest(vid, PageMaxResults(cap, fetched), pageToken), start);
      var resp := PageAt(pages, k);
      if resp.PageRaise? {
        raised := Some(resp.error);
        return;
      }
      ghost var fetched0 := fetched;
      items', fetched := AppendThreadItems(text, resp.threads, vid, q, cap, fetched, items');
      pageToken := resp.nextToken;
      if !Truthy(pageToken) || k >= |pages| {
        break;
      }
      assert VideoLoop(text, pages, vid, q, cap, fetched0, token0, k, items0, reqs0)
        == VideoLoop(text, pages, vid, q, cap, fetched, pageToken, k + 1, items', Requests(trace'));
      k := k + 1;
    }
  }

  /** `for vid in video_ids[:videos]`, until a request raises. */
  method FetchVideos(text: YtThread -> string, vids: seq<string>, threads: seq<seq<YtPage>>, q: string, cap: int, items: seq<TextItem>,
                     trace: seq<Paced<YtRequest>>, limiter: RateLimiter, clock: Clock, ghost start: real)
    returns (items': seq<TextItem>, raised: Option<Exception>, trace': seq<Paced<YtRequest>>)
    requires Spaced(trace, limiter.minIntervalSeconds, start) && limiter.lastTs == LastAt(trace, start)
    modifies limiter, clock
    ensures YRun(items', raised, Requests(trace')) == VideosLoop(text, vids, threads, q, cap, 0, items, Requests(trace))
    ensures Spaced(trace', limiter.minIntervalSeconds, start) && limiter.lastTs == LastAt(trace', start)
  {
    items', raised, trace' := items, None, trace;
    ghost var run := VideosLoop(text, vids, threads, q, cap, 0, items, Requests(trace));
    var j := 0;
    while j < |vids|
      invariant 0 <= j <= |vids|
      invariant raised.None?
      invariant VideosLoop(text, vids, threads, q, cap, j, items', Requests(trace')) == run
      invariant Spaced(trace', limiter.minIntervalSeconds, start) && limiter.lastTs == LastAt(trace', start)
    {
      ghost var items0, reqs0 := items', Requests(trace');
      items', raised, trace' := FetchVideoComments(text, PagesOf(threads, j), vids[j], q, cap, items', trace', limiter,
                                                   clock, start);
      assert VideosLoop(text, vids, threads, q, cap, j, items0, reqs0)
        == if raised.Some? then YRun(items', raised, Requests(trace'))
           else VideosLoop(text, vids, threads, q, cap, j + 1, items', Requests(trace'));
      if raised.Some? {
        return;
      }
      j := j + 1;
    }
  }

  /** The body of the `try`: build the client, `wait()` and search, then fetch the comments of each video. */
  method SearchAndFetch(q: string, videos: int, cap: int, build: Option<Exception>, search: YtSearch,
                        threads: seq<seq<YtPage>>, limiter: RateLimiter, clock: Clock)
    returns (items: seq<TextItem>, raised: Option<Exception>, trace: seq<Paced<YtRequest>>)
    modifies limiter, clock
    ensures build.Some? ==> YRun(items, raised, Requests(trace)) == YRun([], build, [])
    ensures build.None? && search.SearchRaise? ==>
      YRun(items, raised, Requests(trace)) == YRun([], Some(search.error), [VideoSearch(q, SearchMaxResults(videos))])
    ensures build.None? && search.SearchResult? ==>
      YRun(items, raised, Requests(trace))
      == VideosLoop(ThreadText, Processed(search, videos), threads, q, cap, 0, [], [VideoSearch(q, SearchMaxResults(videos))])
    ensures Spaced(trace, limiter.minIntervalSeconds, old(limiter.lastTs))
    ensures limiter.lastTs == LastAt(trace, old(limiter.lastTs))
  {
    items, raised, trace := [], None, [];
    ghost var start := limiter.lastTs;
    if build.Some? {
      raised := build;
      return;
    }
    trace := WaitAndSend(limiter, clock, trace, VideoSearch(q, SearchMaxResults(videos)), start);
    assert Requests(trace) == [VideoSearch(q, SearchMaxResults(videos))];
    if search.SearchRaise? {
      raised := Some(search.error);
      return;
    }
    var ids := CollectVideoIds(search.videoIds);
    items, raised, trace := FetchVideos(ThreadText, SliceTo(ids, videos), threads, q, cap, items, trace, limiter, clock, start);
  }

  /** `fetch_youtube_comments`, issuing every request through `limiter.wait()`. */
  method FetchYouTubeComments(ticker: string, company: Option<string>, keys: APIKeys, videos: int, cap: int,
                              build: Option<Exception>, search: YtSearch, threads: seq<seq<YtPage>>,
                              now: Timestamp, limiter: RateLimiter, clock: Clock)
    returns (items: seq<TextItem>, warnings: seq<string>, trace: seq<Paced<YtRequest>>)
    modifies limiter, clock
    ensures Outcome(Fetched(items, warnings), Requests(trace))
      == YouTubeFetch(ticker, company, keys, videos, cap, build, search, threads, now)
    ensures Spaced(trace, limiter.minIntervalSeconds, old(limiter.lastTs))
    ensures limiter.lastTs == LastAt(trace, old(limiter.lastTs))
  {
    warnings := [];
    if !(keys.youtubeApiKey.Some? && keys.youtubeApiKey.value != "") {
      warnings := warnings + [YtNoKeyWarning];
      items := MockItems("YouTube", ticker, now);
      trace := [];
      return;
    }
    var q := YtQuery(ticker, company);
    var gathered, raised;
    gathered, raised, trace := SearchAndFetch(q, videos, cap, build, search, threads, limiter, clock);
    items, warnings := Settle("YouTube", ticker, now, gathered, YtWarningOf(raised));
  }

  // ---------------------------------------------------------------------------
  // Properties
  // ---------------------------------------------------------------------------

  /** The item of every thread from the `j`-th on whose text is non-empty, in order: the page loop without its room. */
  function NonEmptyThreadItems(text: YtThread -> string, threads: seq<YtThread>, j: nat, vid: string, q: string)
    : seq<TextItem>
    decreases |threads| - j
  {
    if j >= |threads| then []
    else (if text(threads[j]) == "" then [] else [ThreadItem(threads[j], text(threads[j]), vid, q)])
         + NonEmptyThreadItems(text, threads, j + 1, vid, q)
  }

  /**
   * One page yields exactly its first `room` non-empty threads: empty ones are skipped
   * without being counted, and the loop breaks at the cap.
   */
  lemma {:induction false} TakeThreadsPrefix(text: YtThread -> string, threads: seq<YtThread>, j: nat, vid: string,
                                             q: string, room: int)
    ensures var all := NonEmptyThreadItems(text, threads, j, vid, q);
      TakeThreads(text, threads, j, vid, q, room) == all[..Min(|all|, Max(0, room))]
    decreases |threads| - j
  {
    if j < |threads| && room > 0 {
      var rest := NonEmptyThreadItems(text, threads, j + 1, vid, q);
      if text(threads[j]) == "" {
        TakeThreadsPrefix(text, threads, j + 1, vid, q, room);
      } else {
        TakeThreadsPrefix(text, threads, j + 1, vid, q, room - 1);
        ConsPrefix(ThreadItem(threads[j], text(threads[j]), vid, q), rest, Min(|rest|, Max(0, room - 1)));
      }
    }
  }

  /** A page adds at most `room` items, all comment items of the video. */
  lemma TakeThreadsBound(text: YtThread -> string, threads: seq<YtThread>, vid: string, q: string, room: int)
    ensures |TakeThreads(text, threads, 0, vid, q, room)| <= Max(0, room)
    ensures forall it :: it in TakeThreads(text, threads, 0, vid, q, room) ==> IsYouTubeItem(it, vid, q)
  {
    TakeThreadsPrefix(text, threads, 0, vid, q, room);
    TakeThreadsShape(text, threads, 0, vid, q, room);
  }

  /**
   * One video's loop, from `fetched` comments on: it only appends, at most
   * `comments_per_video - fetched` items, each a comment item of this video.
   */
  lemma {:induction false} VideoLoopItems(text: YtThread -> string, pages: seq<YtPage>, vid: string, q: string, cap: int, fetched: int,
                                          token: Option<string>, k: nat, items: seq<TextItem>, reqs: seq<YtRequest>)
    ensures var run := VideoLoop(text, pages, vid, q, cap, fetched, token, k, items, reqs);
      items <= run.items && |run.items| - |items| <= Max(0, cap - fetched)
      && forall it :: it in run.items[|items|..] ==> IsYouTubeItem(it, vid, q)
    decreases |pages| - k
  {
    var run := VideoLoop(text, pages, vid, q, cap, fetched, token, k, items, reqs);
    var page := PageAt(pages, k);
    if fetched < cap && page.Page? {
      var reqs' := reqs + [ThreadsRequest(vid, PageMaxResults(cap, fetched), token)];
      var got := TakeThreads(text, page.threads, 0, vid, q, cap - fetched);
      TakeThreadsBound(text, page.threads, vid, q, cap - fetched);
      if k < |pages| && Truthy(page.nextToken) {
        assert run == VideoLoop(text, pages, vid, q, cap, fetched + |got|, page.nextToken, k + 1, items + got, reqs');
        VideoLoopItems(text, pages, vid, q, cap, fetched + |got|, page.nextToken, k + 1, items + got, reqs');
        var tail := run.items[|items| + |got|..];
        assert run.items[|items|..] == got + tail;
        forall it | it in run.items[|items|..] ensures IsYouTubeItem(it, vid, q) {
          if it !in got {
            assert it in tail;
          }
        }
      } else {
        assert run.items[|items|..] == got;
      }
    }
  }

  /** A request for one page of a video's comment threads, of between 1 and 100 threads. */
  predicate IsThreadsRequestOf(r: YtRequest, vid: string) {
    r.ThreadsRequest? && r.videoId == vid && 1 <= r.maxResults <= 100
  }

  /**
   * One video's requests: the first asks for `min(100, comments_per_video - fetched)`
   * threads with the current page token, every one is a request for this video of 1 to 100
   * threads, and there is at most one more than there are pages left.
   */
  lemma {:induction false} VideoLoopRequests(text: YtThread -> string, pages: seq<YtPage>, vid: string, q: string, cap: int, fetched: int,
                                             token: Option<string>, k: nat, items: seq<TextItem>, reqs: seq<YtRequest>)
    ensures var run := VideoLoop(text, pages, vid, q, cap, fetched, token, k, items, reqs);
      reqs <= run.requests && |run.requests| - |reqs| <= Max(0, |pages| - k) + 1
      && (fetched < cap <==> |run.requests| > |reqs|)
      && (fetched < cap ==> run.requests[|reqs|] == ThreadsRequest(vid, PageMaxResults(cap, fetched), token))
      && forall i :: |reqs| <= i < |run.requests| ==> IsThreadsRequestOf(run.requests[i], vid)
    decreases |pages| - k
  {
    var run := VideoLoop(text, pages, vid, q, cap, fetched, token, k, items, reqs);
    if fetched < cap {
      var req := ThreadsRequest(vid, PageMaxResults(cap, fetched), token);
      var reqs' := reqs + [req];
      var page := PageAt(pages, k);
      if page.Page? && k < |pages| && Truthy(page.nextToken) {
        var got := TakeThreads(text, page.threads, 0, vid, q, cap - fetched);
        assert run == VideoLoop(text, pages, vid, q, cap, fetched + |got|, page.nextToken, k + 1, items + got, reqs');
        VideoLoopRequests(text, pages, vid, q, cap, fetched + |got|, page.nextToken, k + 1, items + got, reqs');
        assert run.requests[|reqs|] == reqs'[|reqs|];
      } else {
        assert run.requests == reqs';
      }
    }
  }

  /** Request `r` asks for the page after page `p`, with that page's non-empty `nextPageToken`. */
  predicate FollowsPage(pages: seq<YtPage>, p: int, r: YtRequest) {
    0 <= p < |pages| && pages[p].Page? && Truthy(pages[p].nextToken)
    && r.ThreadsRequest? && r.pageToken == pages[p].nextToken
  }

  /**
   * The page tokens: a video's pagination asks for a further page only with the
   * `nextPageToken` of the page before, which was non-empty; the request after the
   * `i`-th of this call answers page `k + i`.
   */
  lemma {:induction false} VideoLoopTokens(text: YtThread -> string, pages: seq<YtPage>, vid: string, q: string, cap: int, fetched: int,
                                           token: Option<string>, k: nat, items: seq<TextItem>, reqs: seq<YtRequest>)
    ensures var run := VideoLoop(text, pages, vid, q, cap, fetched, token, k, items, reqs);
      forall i :: |reqs| < i < |run.requests| ==> FollowsPage(pages, k + (i - |reqs|) - 1, run.requests[i])
    decreases |pages| - k
  {
    var run := VideoLoop(text, pages, vid, q, cap, fetched, token, k, items, reqs);
    if fetched < cap {
      var reqs' := reqs + [ThreadsRequest(vid, PageMaxResults(cap, fetched), token)];
      var page := PageAt(pages, k);
      if page.Page? && k < |pages| && Truthy(page.nextToken) {
        var got := TakeThreads(text, page.threads, 0, vid, q, cap - fetched);
        var next := VideoLoop(text, pages, vid, q, cap, fetched + |got|, page.nextToken, k + 1, items + got, reqs');
        assert run == next;
        VideoLoopTokens(text, pages, vid, q, cap, fetched + |got|, page.nextToken, k + 1, items + got, reqs');
        VideoLoopRequests(text, pages, vid, q, cap, fetched + |got|, page.nextToken, k + 1, items + got, reqs');
        forall i | |reqs| < i < |next.requests|
          ensures FollowsPage(pages, k + (i - |reqs|) - 1, next.requests[i])
        {
          if i == |reqs'| {
            assert FollowsPage(pages, k, next.requests[i]);
          } else {
            assert FollowsPage(pages, (k + 1) + (i - |reqs'|) - 1, next.requests[i]);
          }
        }
      } else {
        assert run.requests == reqs';
      }
    }
  }

  /** The videos' loop from the `j`-th on only appends, and each item it adds belongs to one of the processed videos. */
  lemma {:induction false} VideosLoopItems(text: YtThread -> string, vids: seq<string>, threads: seq<seq<YtPage>>, q: string,
                                           cap: int, j: nat, items: seq<TextItem>, reqs: seq<YtRequest>)
    ensures var run := VideosLoop(text, vids, threads, q, cap, j, items, reqs);
      items <= run.items && forall it :: it in run.items[|items|..] ==> IsYouTubeItemOf(it, vids, q)
    decreases |vids| - j
  {
    if j < |vids| {
      var run := VideosLoop(text, vids, threads, q, cap, j, items, reqs);
      var r := VideoLoop(text, PagesOf(threads, j), vids[j], q, cap, 0, None, 0, items, reqs);
      VideoLoopItems(text, PagesOf(threads, j), vids[j], q, cap, 0, None, 0, items, reqs);
      forall it | it in r.items[|items|..] ensures IsYouTubeItemOf(it, vids, q) {
        assert IsYouTubeItem(it, vids[j], q);
      }
      if r.raised.None? {
        var next := VideosLoop(text, vids, threads, q, cap, j + 1, r.items, r.requests);
        VideosLoopItems(text, vids, threads, q, cap, j + 1, r.items, r.requests);
        assert run == next;
        assert next.items[|items|..] == r.items[|items|..] + next.items[|r.items|..];
        forall it | it in next.items[|items|..] ensures IsYouTubeItemOf(it, vids, q) {
          if it !in r.items[|items|..] {
            assert it in next.items[|r.items|..];
          }
        }
      }
    }
  }

  /** At most `comments_per_video` items are added for each video from the `j`-th on. */
  lemma {:induction false} VideosLoopBound(text: YtThread -> string, vids: seq<string>, threads: seq<seq<YtPage>>, q: string,
                                           cap: int, j: nat, items: seq<TextItem>, reqs: seq<YtRequest>)
    requires j <= |vids|
    ensures |VideosLoop(text, vids, threads, q, cap, j, items, reqs).items| <= |items| + (|vids| - j) * Max(0, cap)
    decreases |vids| - j
  {
    if j < |vids| {
      var r := VideoLoop(text, PagesOf(threads, j), vids[j], q, cap, 0, None, 0, items, reqs);
      VideoLoopItems(text, PagesOf(threads, j), vids[j], q, cap, 0, None, 0, items, reqs);
      MulStep(|vids| - j, Max(0, cap));
      if r.raised.None? {
        VideosLoopBound(text, vids, threads, q, cap, j + 1, r.items, r.requests);
      }
    }
  }

  lemma MulStep(a: int, b: int)
    requires a >= 1 && b >= 0
    ensures a * b == b + (a - 1) * b && (a - 1) * b >= 0
  {
  }

  /** Every request of the videos' loop from the `j`-th on is a comment-thread request for one of the videos. */
  lemma {:induction false} VideosLoopRequests(text: YtThread -> string, vids: seq<string>, threads: seq<seq<YtPage>>,
                                              q: string, cap: int, j: nat, items: seq<TextItem>, reqs: seq<YtRequest>)
    ensures var run := VideosLoop(text, vids, threads, q, cap, j, items, reqs);
      reqs <= run.requests
      && forall i :: |reqs| <= i < |run.requests| ==>
           run.requests[i].ThreadsRequest? && run.requests[i].videoId in vids
           && IsThreadsRequestOf(run.requests[i], run.requests[i].videoId)
    decreases |vids| - j
  {
    if j < |vids| {
      var run := VideosLoop(text, vids, threads, q, cap, j, items, reqs);
      var r := VideoLoop(text, PagesOf(threads, j), vids[j], q, cap, 0, None, 0, items, reqs);
      VideoLoopRequests(text, PagesOf(threads, j), vids[j], q, cap, 0, None, 0, items, reqs);
      if r.raised.None? {
        VideosLoopRequests(text, vids, threads, q, cap, j + 1, r.items, r.requests);
        assert run == VideosLoop(text, vids, threads, q, cap, j + 1, r.items, r.requests);
        forall i | |reqs| <= i < |run.requests|
          ensures run.requests[i].ThreadsRequest? && run.requests[i].videoId in vids
            && IsThreadsRequestOf(run.requests[i], run.requests[i].videoId)
        {
          if i < |r.requests| {
            assert run.requests[i] == r.requests[i];
          }
        }
      }
    }
  }

  /** The processed videos: at most `videos` (fewer from the end when `videos` is negative), each a non-empty hit id. */
  lemma ProcessedIds(search: YtSearch, videos: int)
    requires search.SearchResult?
    ensures Processed(search, videos) <= VideoIds(search.videoIds)
    ensures videos >= 0 ==> |Processed(search, videos)| == Min(videos, |VideoIds(search.videoIds)|)
    ensures forall v :: v in Processed(search, videos) ==> Some(v) in search.videoIds && v != ""
  {
    VideoIdsMembers(search.videoIds);
    var all := VideoIds(search.videoIds);
    forall v | v in Processed(search, videos) ensures v in all {
      var i :| 0 <= i < |Processed(search, videos)| && Processed(search, videos)[i] == v;
      assert all[i] == v;
    }
  }

  /**
   * The body of the `try`: nothing is requested when the client cannot be built; otherwise
   * the search comes first, a failing search gathers nothing, and every later request is a
   * comment-thread request for a processed video.
   */
  lemma YtRunRequests(ticker: string, company: Option<string>, videos: int, cap: int, build: Option<Exception>,
                      search: YtSearch, threads: seq<seq<YtPage>>)
    ensures var run := YtRunOf(ticker, company, videos, cap, build, search, threads);
      build.Some? ==> run == YRun([], build, [])
    ensures var run := YtRunOf(ticker, company, videos, cap, build, search, threads);
      build.None? ==> |run.requests| >= 1 && run.requests[0] == VideoSearch(YtQuery(ticker, company), SearchMaxResults(videos))
    ensures var run := YtRunOf(ticker, company, videos, cap, build, search, threads);
      build.None? && search.SearchRaise? ==> run == YRun([], Some(search.error), run.requests) && |run.requests| == 1
    ensures var run := YtRunOf(ticker, company, videos, cap, build, search, threads);
      build.None? && search.SearchResult? ==>
        forall i :: 1 <= i < |run.requests| ==>
          run.requests[i].ThreadsRequest? && run.requests[i].videoId in Processed(search, videos)
  {
    if build.None? && search.SearchResult? {
      var q := YtQuery(ticker, company);
      VideosLoopRequests(ThreadText, Processed(search, videos), threads, q, cap, 0, [],
                         [VideoSearch(q, SearchMaxResults(videos))]);
    }
  }

  /** Every gathered item is a comment item of a processed video, and there are at most `comments_per_video` per video. */
  lemma YtRunItems(ticker: string, company: Option<string>, videos: int, cap: int, build: Option<Exception>,
                   search: YtSearch, threads: seq<seq<YtPage>>)
    ensures var run := YtRunOf(ticker, company, videos, cap, build, search, threads);
      run.items != [] ==> build.None? && search.SearchResult?
    ensures var run := YtRunOf(ticker, company, videos, cap, build, search, threads);
      build.None? && search.SearchResult? ==>
        |run.items| <= |Processed(search, videos)| * Max(0, cap)
        && forall it :: it in run.items ==> IsYouTubeItemOf(it, Processed(search, videos), YtQuery(ticker, company))
  {
    if build.None? && search.SearchResult? {
      var q := YtQuery(ticker, company);
      VideosLoopItems(ThreadText, Processed(search, videos), threads, q, cap, 0, [],
                      [VideoSearch(q, SearchMaxResults(videos))]);
      VideosLoopBound(ThreadText, Processed(search, videos), threads, q, cap, 0, [],
                      [VideoSearch(q, SearchMaxResults(videos))]);
    }
  }

  /**
   * The gate and the exception boundary: without a key, the mock data, one warning and no
   * request; otherwise no warning on success, and on an exception exactly one warning with
   * the mock data exactly when nothing was gathered.
   */
  lemma YouTubeFetchFallback(ticker: string, company: Option<string>, keys: APIKeys, videos: int, cap: int,
                             build: Option<Exception>, search: YtSearch, threads: seq<seq<YtPage>>, now: Timestamp)
    ensures var o := YouTubeFetch(ticker, company, keys, videos, cap, build, search, threads, now);
      !Truthy(keys.youtubeApiKey) ==> o == Outcome(Fetched(MockList("YouTube", ticker, now), [YtNoKeyWarning]), [])
    ensures var r := YouTubeFetch(ticker, company, keys, videos, cap, build, search, threads, now).result;
      var run := YtRunOf(ticker, company, videos, cap, build, search, threads);
      Truthy(keys.youtubeApiKey) ==>
        (r.warnings == [] <==> run.raised.None?)
        && (run.raised.None? ==> r.items == run.items)
        && (run.raised.Some? ==>
              r.warnings == [YtWarning(run.raised.value)]
              && r.items == (if run.items == [] then MockList("YouTube", ticker, now) else run.items))
  {
  }

  /** Every item of the result is mock data or a comment item of one of the processed videos. */
  lemma YouTubeFetchItems(ticker: string, company: Option<string>, keys: APIKeys, videos: int, cap: int,
                          build: Option<Exception>, search: YtSearch, threads: seq<seq<YtPage>>, now: Timestamp)
    ensures var r := YouTubeFetch(ticker, company, keys, videos, cap, build, search, threads, now).result;
      forall it :: it in r.items ==>
        it in MockList("YouTube", ticker, now)
        || (search.SearchResult? && IsYouTubeItemOf(it, Processed(search, videos), YtQuery(ticker, company)))
  {
    YtRunItems(ticker, company, videos, cap, build, search, threads);
  }
}
