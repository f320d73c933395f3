/**
 * The Reddit adapter (sources/reddit.py): credential gate, query, default subreddits,
 * and the nested subreddit / submission / comment loops with their caps and fallbacks.
 * The API is an input: `listings[i]` is what the search of the `i`-th subreddit yields,
 * and every submission carries its comment thread.
 */
module Reddit {
  import opened Wrappers
  import opened Models
  import opened Config
  import opened Utils
  import opened Mock
  import opened Sources

  // ---------------------------------------------------------------------------
  // Client, query and subreddits
  // ---------------------------------------------------------------------------

  datatype RedditAuth = RedditAuth(clientId: string, clientSecret: string, userAgent: string)

  /** `_build_reddit`: a client exactly when all three Reddit keys are set. */
  function BuildReddit(keys: APIKeys): (r: Option<RedditAuth>)
    ensures r.Some? <==> Truthy(keys.redditClientId) && Truthy(keys.redditClientSecret) && Truthy(keys.redditUserAgent)
    ensures r.Some? ==>
      keys.redditClientId == Some(r.value.clientId) && keys.redditClientSecret == Some(r.value.clientSecret)
      && keys.redditUserAgent == Some(r.value.userAgent)
  {
    if Truthy(keys.redditClientId) && Truthy(keys.redditClientSecret) && Truthy(keys.redditUserAgent) then
      Some(RedditAuth(keys.redditClientId.value, keys.redditClientSecret.value, keys.redditUserAgent.value))
    else None
  }

  const DefaultSubreddits: seq<string> := ["stocks", "investing", "wallstreetbets"]

  /** `subreddits or DEFAULT_SUBREDDITS`. */
  function Subreddits(subreddits: Option<seq<string>>): (r: seq<string>)
    ensures r != []
    ensures subreddits.Some? && subreddits.value != [] ==> r == subreddits.value
    ensures subreddits.None? || subreddits.value == [] ==> r == DefaultSubreddits
  {
    if subreddits.Some? && subreddits.value != [] then subreddits.value else DefaultSubreddits
  }

  function Quoted(s: string): string {
    "\"" + s + "\""
  }

  /** The two ticker clauses `"T" OR "$T"` that open every query. */
  function TickerClauses(ticker: string): string {
    Quoted(Upper(ticker)) + " OR " + Quoted("$" + Upper(ticker))
  }

  /** The search query: the ticker clauses, then ` OR "company"` for a non-blank company. */
  function RedditQuery(ticker: string, company: Option<string>): (q: string)
    ensures TickerClauses(ticker) <= q
    ensures NonBlank(company) <==> |q| > |TickerClauses(ticker)|
    ensures NonBlank(company) ==> Contains(q, " OR " + Quoted(Strip(company.value)))
  {
    var head := TickerClauses(ticker);
    if NonBlank(company) then
      var tail := " OR " + Quoted(Strip(company.value));
      InfixContains(head, tail, "");
      assert head + tail + "" == head + tail;
      head + tail
    else head
  }

  // ---------------------------------------------------------------------------
  // The API
  // ---------------------------------------------------------------------------

  /** A comment of the thread, at any depth. `createdUtc` is `created_utc or 0`, in whole seconds. */
  datatype Comment = Comment(id: Option<string>, body: Option<string>, createdUtc: int, permalink: string,
                             author: Option<string>)

  /**
   * A submission's comments; `raisesAt == Some(n)` means fetching or listing them raises
   * once the first `n` comments have been yielded (`n == 0`: `replace_more` raises).
   */
  datatype CommentThread = CommentThread(comments: seq<Comment>, raisesAt: Option<nat>)

  datatype Submission = Submission(id: string, title: Option<string>, selftext: Option<string>, createdUtc: int,
                                   url: Option<string>, permalink: string, author: Option<string>,
                                   thread: CommentThread)

  /**
   * What a subreddit search yields: its submissions, and possibly an exception raised when
   * the listing is asked for more than it has.
   */
  datatype Listing = Listing(posts: seq<Submission>, raised: Option<Exception>)

  datatype RedditRequest =
    | SearchRequest(subreddit: string, query: string, limit: int)
    | CommentsRequest(postId: string)

  /** The listing of the `i`-th subreddit; an empty one beyond the given listings. */
  function ListingOf(listings: seq<Listing>, i: nat): Listing {
    if i < |listings| then listings[i] else Listing([], None)
  }

  /** The submissions the search yields: PRAW stops after `limit` of them. */
  function Capped(l: Listing, limit: int): (r: seq<Submission>)
    ensures r <= l.posts && |r| == Min(|l.posts|, Max(0, limit))
  {
    l.posts[..Min(|l.posts|, Max(0, limit))]
  }

  /** The listing raises only when asked for more submissions than it yielded. */
  function ListingRaises(l: Listing, limit: int): Option<Exception> {
    if l.raised.Some? && |l.posts| < limit then l.raised else None
  }

  /** The comments the thread yields before it raises (all of them if it does not). */
  function Reached(t: CommentThread): (r: seq<Comment>)
    ensures r <= t.comments
  {
    if t.raisesAt.Some? && t.raisesAt.value < |t.comments| then t.comments[..t.raisesAt.value] else t.comments
  }

  // ---------------------------------------------------------------------------
  // Items
  // ---------------------------------------------------------------------------

  const RedditBase: string := "https://www.reddit.com"

  /** `str(x or "")` for an optional author name. */
  function AuthorName(a: Option<string>): string {
    if Truthy(a) then a.value else ""
  }

  /** `(clean_text(title) + "\n" + clean_text(selftext)).strip()`. */
  function PostText(p: Submission): string {
    Strip(CleanText(p.title.GetOr("")) + "\n" + CleanText(p.selftext.GetOr("")))
  }

  function PostItem(sub: string, p: Submission): TextItem {
    TextItem("Reddit", PostText(p), Some(p.createdUtc),
             Some(if Truthy(p.url) then p.url.value else RedditBase + p.permalink),
             Some(AuthorName(p.author)), Some(p.id), Some(RedditExtra(sub, RedditKind.Post, None)))
  }

  function CommentText(c: Comment): string {
    CleanText(c.body.GetOr(""))
  }

  function CommentItem(sub: string, postId: string, c: Comment): TextItem {
    TextItem("Reddit", CommentText(c), Some(c.createdUtc), Some(RedditBase + c.permalink),
             Some(AuthorName(c.author)), Some(AuthorName(c.id)), Some(RedditExtra(sub, RedditKind.Comment, Some(postId))))
  }

  /** A post item of subreddit `sub`: non-empty text, tagged as a post. */
  predicate IsPostItem(it: TextItem, sub: string) {
    it.platform == "Reddit" && it.text != "" && it.extra == Some(RedditExtra(sub, RedditKind.Post, None))
    && it.externalId.Some? && it.url.Some?
  }

  /** A comment item of post `postId` in `sub`: non-empty text, tagged as a comment of that post. */
  predicate IsCommentItem(it: TextItem, sub: string, postId: string) {
    it.platform == "Reddit" && it.text != "" && it.extra == Some(RedditExtra(sub, RedditKind.Comment, Some(postId)))
    && it.url.Some?
  }

  /**
   * The comment loop from the state where `count` comments have been kept: stop at the
   * cap, skip comments that clean to empty without counting them.
   */
  function CommentLoop(cs: seq<Comment>, sub: string, postId: string, cap: int, count: int): (r: seq<TextItem>)
    ensures forall i :: 0 <= i < |r| ==> IsCommentItem(r[i], sub, postId)
  {
    if cs == [] || count >= cap then []
    else if CommentText(cs[0]) == "" then CommentLoop(cs[1..], sub, postId, cap, count)
    else [CommentItem(sub, postId, cs[0])] + CommentLoop(cs[1..], sub, postId, cap, count + 1)
  }

  /** The comment items of a submission, at most `cap`, from the comments reached before any failure. */
  function CommentItems(sub: string, p: Submission, cap: int): seq<TextItem> {
    CommentLoop(Reached(p.thread), sub, p.id, cap, 0)
  }

  /** The post item of a submission, if its text is non-empty. */
  function PostPart(sub: string, p: Submission): seq<TextItem> {
    if PostText(p) == "" then [] else [PostItem(sub, p)]
  }

  /** The items one submission contributes: its post item if its text is non-empty, then its comments. */
  function SubmissionItems(sub: string, p: Submission, cap: int): seq<TextItem> {
    PostPart(sub, p) + CommentItems(sub, p, cap)
  }

  /** The items of a run of submissions, in order. */
  function PostsItems(sub: string, posts: seq<Submission>, cap: int): seq<TextItem> {
    if posts == [] then [] else SubmissionItems(sub, posts[0], cap) + PostsItems(sub, posts[1..], cap)
  }

  /** One comments request per submission, in order. */
  function CommentRequests(posts: seq<Submission>): (r: seq<RedditRequest>)
    ensures |r| == |posts|
    ensures forall i :: 0 <= i < |posts| ==> r[i] == CommentsRequest(posts[i].id)
  {
    if posts == [] then [] else [CommentsRequest(posts[0].id)] + CommentRequests(posts[1..])
  }

  // ---------------------------------------------------------------------------
  // The loops
  // ---------------------------------------------------------------------------

  datatype RRun = RRun(items: seq<TextItem>, raised: Option<Exception>, requests: seq<RedditRequest>)

  /** One search request, then one comments request per submission the search yielded. */
  function SearchBlock(sub: string, query: string, postsPer: int, l: Listing): seq<RedditRequest> {
    [SearchRequest(sub, query, postsPer)] + CommentRequests(Capped(l, postsPer))
  }

  /** The items of the submissions one subreddit search yielded. */
  function ListingItems(sub: string, l: Listing, postsPer: int, commentsPer: int): seq<TextItem> {
    PostsItems(sub, Capped(l, postsPer), commentsPer)
  }

  /** `for sub in subs` from the `i`-th subreddit on; an exception from a listing ends everything. */
  function RedditLoop(subs: seq<string>, listings: seq<Listing>, query: string, postsPer: int, commentsPer: int,
                      i: nat, items: seq<TextItem>, reqs: seq<RedditRequest>): RRun
    decreases |subs| - i
  {
    if i >= |subs| then RRun(items, None, reqs)
    else
      var l := ListingOf(listings, i);
      var items' := items + ListingItems(subs[i], l, postsPer, commentsPer);
      var reqs' := reqs + SearchBlock(subs[i], query, postsPer, l);
      if ListingRaises(l, postsPer).Some? then RRun(items', ListingRaises(l, postsPer), reqs')
      else RedditLoop(subs, listings, query, postsPer, commentsPer, i + 1, items', reqs')
  }

  const RedditNoKeysWarning: string := "Reddit keys not configured; using mock Reddit data."
  const RedditApiWarning: string := "Reddit API error/rate limit hit; using mock Reddit data."

  /** The warning for an exception: `APIException` has its own text. */
  function RedditWarning(e: Exception): string {
    if e.typeName == "APIException" then RedditApiWarning
    else Failed("Reddit", e, "using mock Reddit data.")
  }

  /** The warning of the `except` clause that caught `raised`, if anything was raised. */
  function RedditWarningOf(raised: Option<Exception>): Option<string> {
    if raised.None? then None else Some(RedditWarning(raised.value))
  }

  function RedditRunOf(ticker: string, company: Option<string>, subreddits: Option<seq<string>>, postsPer: int,
                       commentsPer: int, listings: seq<Listing>): RRun {
    RedditLoop(Subreddits(subreddits), listings, RedditQuery(ticker, company), postsPer, commentsPer, 0, [], [])
  }

  /** `fetch_reddit` as a function of the keys, what the API yields and the clock reading. */
  function RedditFetch(ticker: string, company: Option<string>, keys: APIKeys, subreddits: Option<seq<string>>,
                       postsPer: int, commentsPer: int, listings: seq<Listing>, now: Timestamp): Outcome<RedditRequest>
  {
    if BuildReddit(keys).None? then Outcome(Unconfigured("Reddit", ticker, now, RedditNoKeysWarning), [])
    else
      var run := RedditRunOf(ticker, company, subreddits, postsPer, commentsPer, listings);
      Outcome(Settled("Reddit", ticker, now, run.items, RedditWarningOf(run.raised)), run.requests)
  }

  lemma PostsItemsStep(sub: string, posts: seq<Submission>, j: nat, cap: int)
    requires j < |posts|
    ensures PostsItems(sub, posts[j..], cap) == SubmissionItems(sub, posts[j], cap) + PostsItems(sub, posts[j + 1..], cap)
  {
    assert posts[j..][1..] == posts[j + 1..];
  }

  lemma CommentRequestsStep(posts: seq<Submission>, j: nat)
    requires j < |posts|
    ensures CommentRequests(posts[j..]) == [CommentsRequest(posts[j].id)] + CommentRequests(posts[j + 1..])
  {
    assert posts[j..][1..] == posts[j + 1..];
  }

  /** The comment loop of one submission (its failure is swallowed by the caller). */
  method CollectComments(sub: string, p: Submission, cap: int, items: seq<TextItem>) returns (items': seq<TextItem>)
    ensures items' == items + CommentItems(sub, p, cap)
  {
    var cs := Reached(p.thread);
    items' := items;
    var count := 0;
    var j := 0;
    while j < |cs|
      invariant 0 <= j <= |cs|
      invariant items' + CommentLoop(cs[j..], sub, p.id, cap, count) == items + CommentItems(sub, p, cap)
    {
      if count >= cap {
        break;
      }
      var c := cs[j];
      var txt := CommentText(c);
      assert cs[j..][1..] == cs[j + 1..];
      j := j + 1;
      if txt == "" {
        continue;
      }
      items' := items' + [CommentItem(sub, p.id, c)];
      count := count + 1;
    }
  }

  /** One submission: its post item, then `wait()` before its comments are fetched, then the comments. */
  method ProcessSubmission(sub: string, p: Submission, commentsPer: int, items: seq<TextItem>,
                           trace: seq<Paced<RedditRequest>>, limiter: RateLimiter, clock: Clock, ghost start: real)
    returns (items': seq<TextItem>, trace': seq<Paced<RedditRequest>>)
    requires Spaced(trace, limiter.minIntervalSeconds, start) && limiter.lastTs == LastAt(trace, start)
    modifies limiter, clock
    ensures items' == items + SubmissionItems(sub, p, commentsPer)
    ensures Requests(trace') == Requests(trace) + [CommentsRequest(p.id)]
    ensures Spaced(trace', limiter.minIntervalSeconds, start) && limiter.lastTs == LastAt(trace', start)
  {
    items' := items;
    var combined := PostText(p);
    if combined != "" {
      items' := items' + [PostItem(sub, p)];
    }
    assert items' == items + PostPart(sub, p);
    trace' := WaitAndSend(limiter, clock, trace, CommentsRequest(p.id), start);
    items' := CollectComments(sub, p, commentsPer, items');
    AppendAssoc(items, PostPart(sub, p), CommentItems(sub, p, commentsPer));
  }

  /** `for submission in subreddit.search(...)`, in order. */
  method ProcessSubmissions(sub: string, posts: seq<Submission>, commentsPer: int, items: seq<TextItem>,
                            trace: seq<Paced<RedditRequest>>, limiter: RateLimiter, clock: Clock, ghost start: real)
    returns (items': seq<TextItem>, trace': seq<Paced<RedditRequest>>)
    requires Spaced(trace, limiter.minIntervalSeconds, start) && limiter.lastTs == LastAt(trace, start)
    modifies limiter, clock
    ensures items' == items + PostsItems(sub, posts, commentsPer)
    ensures Requests(trace') == Requests(trace) + CommentRequests(posts)
    ensures Spaced(trace', limiter.minIntervalSeconds, start) && limiter.lastTs == LastAt(trace', start)
  {
    items', trace' := items, trace;
    var j := 0;
    assert posts[j..] == posts;
    while j < |posts|
      invariant 0 <= j <= |posts|
      invariant items' + PostsItems(sub, posts[j..], commentsPer) == items + PostsItems(sub, posts, commentsPer)
      invariant Requests(trace') + CommentRequests(posts[j..]) == Requests(trace) + CommentRequests(posts)
      invariant Spaced(trace', limiter.minIntervalSeconds, start) && limiter.lastTs == LastAt(trace', start)
    {
      PostsItemsStep(sub, posts, j, commentsPer);
      CommentRequestsStep(posts, j);
      ghost var items0, reqs0 := items', Requests(trace');
      items', trace' := ProcessSubmission(sub, posts[j], commentsPer, items', trace', limiter, clock, start);
      AppendAssoc(items0, SubmissionItems(sub, posts[j], commentsPer), PostsItems(sub, posts[j + 1..], commentsPer));
      AppendAssoc(reqs0, [CommentsRequest(posts[j].id)], CommentRequests(posts[j + 1..]));
      j := j + 1;
    }
  }

  /** `for sub in subs`: search each subreddit and process its submissions, until a listing raises. */
  method SearchSubreddits(subs: seq<string>, listings: seq<Listing>, query: string, postsPer: int, commentsPer: int,
                          limiter: RateLimiter, clock: Clock)
    returns (items: seq<TextItem>, raised: Option<Exception>, trace: seq<Paced<RedditRequest>>)
    modifies limiter, clock
    ensures RRun(items, raised, Requests(trace)) == RedditLoop(subs, listings, query, postsPer, commentsPer, 0, [], [])
    ensures Spaced(trace, limiter.minIntervalSeconds, old(limiter.lastTs))
    ensures limiter.lastTs == LastAt(trace, old(limiter.lastTs))
  {
    items, raised, trace := [], None, [];
    ghost var start := limiter.lastTs;
    ghost var run := RedditLoop(subs, listings, query, postsPer, commentsPer, 0, [], []);
    var i := 0;
    while i < |subs|
      invariant 0 <= i <= |subs|
      invariant raised.None?
      invariant RedditLoop(subs, listings, query, postsPer, commentsPer, i, items, Requests(trace)) == run
      invariant Spaced(trace, limiter.minIntervalSeconds, start) && limiter.lastTs == LastAt(trace, start)
    {
      var sub := subs[i];
      ghost var reqs := Requests(trace);
      ghost var items0 := items;
      trace := WaitAndSend(limiter, clock, trace, SearchRequest(sub, query, postsPer), start);
      var listing := ListingOf(listings, i);
      var posts := Capped(listing, postsPer);
      items, trace := ProcessSubmissions(sub, posts, commentsPer, items, trace, limiter, clock, start);
      AppendAssoc(reqs, [SearchRequest(sub, query, postsPer)], CommentRequests(posts));
      assert items == items0 + ListingItems(sub, listing, postsPer, commentsPer);
      assert Requests(trace) == reqs + SearchBlock(sub, query, postsPer, listing);
      if ListingRaises(listing, postsPer).Some? {
        raised := ListingRaises(listing, postsPer);
        return;
      }
      i := i + 1;
    }
  }

  /** `fetch_reddit`, issuing every request through `limiter.wait()`. */
  method FetchReddit(ticker: string, company: Option<string>, keys: APIKeys, subreddits: Option<seq<string>>,
                     postsPer: int, commentsPer: int, listings: seq<Listing>, now: Timestamp,
                     limiter: RateLimiter, clock: Clock)
    returns (items: seq<TextItem>, warnings: seq<string>, trace: seq<Paced<RedditRequest>>)
    modifies limiter, clock
    ensures Outcome(Fetched(items, warnings), Requests(trace))
      == RedditFetch(ticker, company, keys, subreddits, postsPer, commentsPer, listings, now)
    ensures Spaced(trace, limiter.minIntervalSeconds, old(limiter.lastTs))
    ensures limiter.lastTs == LastAt(trace, old(limiter.lastTs))
  {
    warnings := [];
    if BuildReddit(keys).None? {
      warnings := warnings + [RedditNoKeysWarning];
      items := MockItems("Reddit", ticker, now);
      trace := [];
      return;
    }
    var gathered, raised;
    gathered, raised, trace := SearchSubreddits(Subreddits(subreddits), listings, RedditQuery(ticker, company),
                                                postsPer, commentsPer, limiter, clock);
    items, warnings := Settle("Reddit", ticker, now, gathered, RedditWarningOf(raised));
  }

  // ---------------------------------------------------------------------------
  // Properties
  // ---------------------------------------------------------------------------

  /** The item of every comment whose text is non-empty, in order: the comment loop without its cap. */
  function NonEmptyCommentItems(cs: seq<Comment>, sub: string, postId: string): seq<TextItem> {
    if cs == [] then []
    else (if CommentText(cs[0]) == "" then [] else [CommentItem(sub, postId, cs[0])])
         + NonEmptyCommentItems(cs[1..], sub, postId)
  }

  /**
   * The comment loop keeps exactly the first `cap - count` non-empty comments: empty ones
   * are skipped without being counted, and the loop stops at the cap.
   */
  lemma {:induction false} CommentLoopPrefix(cs: seq<Comment>, sub: string, postId: string, cap: int, count: int)
    ensures var all := NonEmptyCommentItems(cs, sub, postId);
      CommentLoop(cs, sub, postId, cap, count) == all[..Min(|all|, Max(0, cap - count))]
    decreases |cs|
  {
    if cs != [] && count < cap {
      var all := NonEmptyCommentItems(cs, sub, postId);
      var rest := NonEmptyCommentItems(cs[1..], sub, postId);
      if CommentText(cs[0]) == "" {
        CommentLoopPrefix(cs[1..], sub, postId, cap, count);
        assert all == rest;
      } else {
        CommentLoopPrefix(cs[1..], sub, postId, cap, count + 1);
        var n := Min(|rest|, Max(0, cap - (count + 1)));
        assert all == [CommentItem(sub, postId, cs[0])] + rest;
        ConsPrefix(CommentItem(sub, postId, cs[0]), rest, n);
      }
    }
  }

  /** At most `comments_per_post` comment items per submission, and fewer only when fewer non-empty comments were reached. */
  lemma CommentItemsCap(sub: string, p: Submission, cap: int)
    ensures |CommentItems(sub, p, cap)| == Min(|NonEmptyCommentItems(Reached(p.thread), sub, p.id)|, Max(0, cap))
    ensures |CommentItems(sub, p, cap)| <= Max(0, cap)
  {
    CommentLoopPrefix(Reached(p.thread), sub, p.id, cap, 0);
  }

  /**
   * What one submission contributes: its post item first, exactly when its cleaned title and
   * body are non-empty, then at most `cap` comment items of that post.
   */
  lemma SubmissionItemsShape(sub: string, p: Submission, cap: int)
    ensures var r := SubmissionItems(sub, p, cap);
      |r| == (if PostText(p) == "" then 0 else 1) + |CommentItems(sub, p, cap)|
      && |r| <= 1 + Max(0, cap)
      && (PostText(p) != "" ==> r[0] == PostItem(sub, p) && IsPostItem(r[0], sub) && r[0].text == PostText(p))
      && (forall k :: (if PostText(p) == "" then 0 else 1) <= k < |r| ==> IsCommentItem(r[k], sub, p.id))
  {
    CommentItemsCap(sub, p, cap);
    var head := PostPart(sub, p);
    var r := SubmissionItems(sub, p, cap);
    forall k | |head| <= k < |r| ensures IsCommentItem(r[k], sub, p.id) {
      assert r[k] == CommentItems(sub, p, cap)[k - |head|];
    }
  }

  /** A thread that fails after `n` comments yields what a thread of just those `n` comments yields. */
  lemma ThreadFailureSwallowed(sub: string, p: Submission, cap: int, n: nat)
    requires p.thread.raisesAt == Some(n) && n <= |p.thread.comments|
    ensures SubmissionItems(sub, p, cap)
      == SubmissionItems(sub, p.(thread := CommentThread(p.thread.comments[..n], None)), cap)
  {
    assert n == |p.thread.comments| ==> p.thread.comments[..n] == p.thread.comments;
  }

  /** How many subreddits are searched from the `i`-th on: up to and including the first listing that raises. */
  function Searched(subs: seq<string>, listings: seq<Listing>, postsPer: int, i: nat): (n: nat)
    requires i <= |subs|
    ensures i + n <= |subs|
    decreases |subs| - i
  {
    if i == |subs| then 0
    else if ListingRaises(ListingOf(listings, i), postsPer).Some? then 1
    else 1 + Searched(subs, listings, postsPer, i + 1)
  }

  /** The requests for the `n` subreddits from the `i`-th on. */
  function RequestBlocks(subs: seq<string>, listings: seq<Listing>, query: string, postsPer: int, i: nat, n: nat)
    : seq<RedditRequest>
    requires i + n <= |subs|
    decreases n
  {
    if n == 0 then []
    else SearchBlock(subs[i], query, postsPer, ListingOf(listings, i))
         + RequestBlocks(subs, listings, query, postsPer, i + 1, n - 1)
  }

  /** The items of the `n` subreddits from the `i`-th on. */
  function ItemBlocks(subs: seq<string>, listings: seq<Listing>, postsPer: int, commentsPer: int, i: nat, n: nat)
    : seq<TextItem>
    requires i + n <= |subs|
    decreases n
  {
    if n == 0 then []
    else ListingItems(subs[i], ListingOf(listings, i), postsPer, commentsPer)
         + ItemBlocks(subs, listings, postsPer, commentsPer, i + 1, n - 1)
  }

  /**
   * The subreddit loop, subreddit by subreddit: every searched subreddit contributes its
   * search request and one comments request per submission, and its items; the loop
   * ends after the first listing that raises.
   */
  lemma {:induction false} RedditLoopBlocks(subs: seq<string>, listings: seq<Listing>, query: string, postsPer: int,
                                            commentsPer: int, i: nat, items: seq<TextItem>, reqs: seq<RedditRequest>)
    requires i <= |subs|
    ensures var run := RedditLoop(subs, listings, query, postsPer, commentsPer, i, items, reqs);
      var n := Searched(subs, listings, postsPer, i);
      run.requests == reqs + RequestBlocks(subs, listings, query, postsPer, i, n)
      && run.items == items + ItemBlocks(subs, listings, postsPer, commentsPer, i, n)
    decreases |subs| - i
  {
    if i < |subs| {
      var l := ListingOf(listings, i);
      var items' := items + ListingItems(subs[i], l, postsPer, commentsPer);
      var reqs' := reqs + SearchBlock(subs[i], query, postsPer, l);
      if ListingRaises(l, postsPer).None? {
        RedditLoopBlocks(subs, listings, query, postsPer, commentsPer, i + 1, items', reqs');
        var n := Searched(subs, listings, postsPer, i + 1);
        AppendAssoc(reqs, SearchBlock(subs[i], query, postsPer, l), RequestBlocks(subs, listings, query, postsPer, i + 1, n));
        AppendAssoc(items, ListingItems(subs[i], l, postsPer, commentsPer),
                    ItemBlocks(subs, listings, postsPer, commentsPer, i + 1, n));
      }
    }
  }

  /** The exception of the first listing from the `i`-th on that raises, if any. */
  function FirstRaise(subs: seq<string>, listings: seq<Listing>, postsPer: int, i: nat): Option<Exception>
    decreases |subs| - i
  {
    if i >= |subs| then None
    else if ListingRaises(ListingOf(listings, i), postsPer).Some? then ListingRaises(ListingOf(listings, i), postsPer)
    else FirstRaise(subs, listings, postsPer, i + 1)
  }

  /**
   * Only a subreddit listing can end the loop with an exception (a failing comment thread is
   * swallowed): the run raises what the first raising listing raises.
   */
  lemma {:induction false} RedditLoopRaised(subs: seq<string>, listings: seq<Listing>, query: string, postsPer: int,
                                            commentsPer: int, i: nat, items: seq<TextItem>, reqs: seq<RedditRequest>)
    ensures RedditLoop(subs, listings, query, postsPer, commentsPer, i, items, reqs).raised
      == FirstRaise(subs, listings, postsPer, i)
    decreases |subs| - i
  {
    if i < |subs| {
      var l := ListingOf(listings, i);
      var items' := items + ListingItems(subs[i], l, postsPer, commentsPer);
      var reqs' := reqs + SearchBlock(subs[i], query, postsPer, l);
      if ListingRaises(l, postsPer).None? {
        RedditLoopRaised(subs, listings, query, postsPer, commentsPer, i + 1, items', reqs');
      }
    }
  }

  /**
   * The first raising listing, characterised: nothing is raised exactly when no listing from
   * the `i`-th on raises, and otherwise it is the exception of a raising listing that all
   * listings before it do not.
   */
  lemma {:induction false} FirstRaiseFirst(subs: seq<string>, listings: seq<Listing>, postsPer: int, i: nat)
    ensures var r := FirstRaise(subs, listings, postsPer, i);
      (r.None? <==> forall k :: i <= k < |subs| ==> ListingRaises(ListingOf(listings, k), postsPer).None?)
      && (r.Some? ==>
            exists k :: i <= k < |subs| && ListingRaises(ListingOf(listings, k), postsPer) == r
              && (forall k' :: i <= k' < k ==> ListingRaises(ListingOf(listings, k'), postsPer).None?))
    decreases |subs| - i
  {
    if i < |subs| {
      var r := FirstRaise(subs, listings, postsPer, i);
      if ListingRaises(ListingOf(listings, i), postsPer).Some? {
        assert ListingRaises(ListingOf(listings, i), postsPer) == r;
      } else {
        FirstRaiseFirst(subs, listings, postsPer, i + 1);
        if r.Some? {
          var k :| i + 1 <= k < |subs| && ListingRaises(ListingOf(listings, k), postsPer) == r
            && forall k' :: i + 1 <= k' < k ==> ListingRaises(ListingOf(listings, k'), postsPer).None?;
          assert forall k' :: i <= k' < k ==> ListingRaises(ListingOf(listings, k'), postsPer).None?;
        }
      }
    }
  }

  /** A Reddit item of one of `subs`: non-empty text, a url, and a post/comment tag with a post id exactly for comments. */
  predicate IsRedditItem(it: TextItem, subs: seq<string>) {
    it.platform == "Reddit" && it.text != "" && it.url.Some? && it.extra.Some? && it.extra.value.RedditExtra?
    && it.extra.value.subreddit in subs && (it.extra.value.kind == RedditKind.Post <==> it.extra.value.postId.None?)
  }

  lemma {:induction false} PostsItemsShape(sub: string, posts: seq<Submission>, cap: int, subs: seq<string>)
    requires sub in subs
    ensures forall it :: it in PostsItems(sub, posts, cap) ==> IsRedditItem(it, subs)
  {
    if posts != [] {
      PostsItemsShape(sub, posts[1..], cap, subs);
      SubmissionItemsShape(sub, posts[0], cap);
      var r := SubmissionItems(sub, posts[0], cap);
      forall it | it in r ensures IsRedditItem(it, subs) {
        var k :| 0 <= k < |r| && r[k] == it;
      }
    }
  }

  lemma {:induction false} ItemBlocksShape(subs: seq<string>, listings: seq<Listing>, postsPer: int, commentsPer: int,
                                           i: nat, n: nat)
    requires i + n <= |subs|
    ensures forall it :: it in ItemBlocks(subs, listings, postsPer, commentsPer, i, n) ==> IsRedditItem(it, subs)
    decreases n
  {
    if n > 0 {
      var head := ListingItems(subs[i], ListingOf(listings, i), postsPer, commentsPer);
      var tail := ItemBlocks(subs, listings, postsPer, commentsPer, i + 1, n - 1);
      PostsItemsShape(subs[i], Capped(ListingOf(listings, i), postsPer), commentsPer, subs);
      ItemBlocksShape(subs, listings, postsPer, commentsPer, i + 1, n - 1);
      assert ItemBlocks(subs, listings, postsPer, commentsPer, i, n) == head + tail;
      forall it | it in head + tail ensures IsRedditItem(it, subs) {
        if it in head {} else { assert it in tail; }
      }
    }
  }

  /** Every item the search gathers is a post or comment item of one of the searched subreddits. */
  lemma RedditRunShape(ticker: string, company: Option<string>, subreddits: Option<seq<string>>, postsPer: int,
                       commentsPer: int, listings: seq<Listing>)
    ensures forall it :: it in RedditRunOf(ticker, company, subreddits, postsPer, commentsPer, listings).items ==>
      IsRedditItem(it, Subreddits(subreddits))
  {
    var subs := Subreddits(subreddits);
    RedditLoopBlocks(subs, listings, RedditQuery(ticker, company), postsPer, commentsPer, 0, [], []);
    ItemBlocksShape(subs, listings, postsPer, commentsPer, 0, Searched(subs, listings, postsPer, 0));
  }

  /**
   * The gate and the exception boundary: without keys, the mock data, one warning and no
   * request; otherwise no warning on success, and on an exception exactly one warning with
   * the mock data exactly when nothing was gathered.
   */
  lemma RedditFetchFallback(ticker: string, company: Option<string>, keys: APIKeys, subreddits: Option<seq<string>>,
                            postsPer: int, commentsPer: int, listings: seq<Listing>, now: Timestamp)
    ensures var o := RedditFetch(ticker, company, keys, subreddits, postsPer, commentsPer, listings, now);
      BuildReddit(keys).None? ==> o == Outcome(Fetched(MockList("Reddit", ticker, now), [RedditNoKeysWarning]), [])
    ensures var r := RedditFetch(ticker, company, keys, subreddits, postsPer, commentsPer, listings, now).result;
      var run := RedditRunOf(ticker, company, subreddits, postsPer, commentsPer, listings);
      BuildReddit(keys).Some? ==>
        (r.warnings == [] <==> run.raised.None?)
        && (run.raised.None? ==> r.items == run.items)
        && (run.raised.Some? ==>
              r.warnings == [RedditWarning(run.raised.value)]
              && r.items == (if run.items == [] then MockList("Reddit", ticker, now) else run.items))
  {
  }

  /** Every item of the result is mock data or a Reddit item of a searched subreddit. */
  lemma RedditFetchItems(ticker: string, company: Option<string>, keys: APIKeys, subreddits: Option<seq<string>>,
                         postsPer: int, commentsPer: int, listings: seq<Listing>, now: Timestamp)
    ensures var r := RedditFetch(ticker, company, keys, subreddits, postsPer, commentsPer, listings, now).result;
      forall it :: it in r.items ==> it in MockList("Reddit", ticker, now) || IsRedditItem(it, Subreddits(subreddits))
  {
    RedditRunShape(ticker, company, subreddits, postsPer, commentsPer, listings);
  }

  /**
   * The requests: for each searched subreddit, a search with the query and
   * `posts_per_subreddit`, then one comments request per submission; the searched
   * subreddits run up to the first raising listing.
   */
  lemma RedditFetchRequests(ticker: string, company: Option<string>, keys: APIKeys, subreddits: Option<seq<string>>,
                            postsPer: int, commentsPer: int, listings: seq<Listing>, now: Timestamp)
    ensures var subs := Subreddits(subreddits);
      RedditFetch(ticker, company, keys, subreddits, postsPer, commentsPer, listings, now).requests
      == (if BuildReddit(keys).None? then []
          else RequestBlocks(subs, listings, RedditQuery(ticker, company), postsPer, 0, Searched(subs, listings, postsPer, 0)))
    ensures var subs := Subreddits(subreddits);
      BuildReddit(keys).Some? && (forall k :: 0 <= k < |subs| ==> ListingRaises(ListingOf(listings, k), postsPer).None?)
      ==> Searched(subs, listings, postsPer, 0) == |subs|
  {
    var subs := Subreddits(subreddits);
    RedditLoopBlocks(subs, listings, RedditQuery(ticker, company), postsPer, commentsPer, 0, [], []);
    SearchedAll(subs, listings, postsPer, 0);
  }

  lemma {:induction false} SearchedAll(subs: seq<string>, listings: seq<Listing>, postsPer: int, i: nat)
    requires i <= |subs|
    ensures (forall k :: i <= k < |subs| ==> ListingRaises(ListingOf(listings, k), postsPer).None?)
      ==> Searched(subs, listings, postsPer, i) == |subs| - i
    decreases |subs| - i
  {
    if i < |subs| {
      SearchedAll(subs, listings, postsPer, i + 1);
    }
  }
}
