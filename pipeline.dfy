/**
 * The collection pipeline (pipeline.py): `_dedupe`, which keeps the first item of each
 * key, and `fetch_all`, which runs the adapters in a fixed order with their own rate
 * limiters, concatenates their items and warnings, and deduplicates once at the end.
 */
module Pipeline {
  import opened Wrappers
  import opened Models
  import opened Config
  import opened Utils
  import opened Mock
  import opened Sources
  import opened TwitterX
  import opened Reddit
  import opened YouTube
  import opened StockTwits
  import opened Finnhub

  // ---------------------------------------------------------------------------
  // Keys
  // ---------------------------------------------------------------------------

  const KeyTextLength: int := 200

  /** The components `_dedupe` identifies an item by: platform, id or "", url or "", and the first 200 characters. */
  datatype DedupKey = DedupKey(platform: string, externalId: string, url: string, textHead: string)

  /** The key as a tuple of its four components. */
  function Key(it: TextItem): DedupKey {
    DedupKey(it.platform, it.externalId.GetOr(""), it.url.GetOr(""), SliceTo(it.text, KeyTextLength))
  }

  /** The key as the source writes it: the four components joined with `|`. */
  function StringKey(it: TextItem): string {
    it.platform + "|" + it.externalId.GetOr("") + "|" + it.url.GetOr("") + "|" + SliceTo(it.text, KeyTextLength)
  }

  /** The keys of the items of `s`. */
  function KeysOf<K(==)>(s: seq<TextItem>, key: TextItem -> K): set<K> {
    set i | 0 <= i < |s| :: key(s[i])
  }

  // ---------------------------------------------------------------------------
  // _dedupe
  // ---------------------------------------------------------------------------

  /**
   * The items of `s` whose key no earlier item has, in order: the last item is kept
   * exactly when its key is new.
   */
  function Deduped<K(==)>(s: seq<TextItem>, key: TextItem -> K): (r: seq<TextItem>)
    ensures |r| <= |s|
  {
    if s == [] then []
    else
      var init := s[..|s| - 1];
      Deduped(init, key) + (if key(s[|s| - 1]) in KeysOf(init, key) then [] else [s[|s| - 1]])
  }

  lemma KeysOfSnoc<K>(s: seq<TextItem>, x: TextItem, key: TextItem -> K)
    ensures KeysOf(s + [x], key) == KeysOf(s, key) + {key(x)}
  {
    var t := s + [x];
    forall k | k in KeysOf(t, key) ensures k in KeysOf(s, key) + {key(x)} {
      var i :| 0 <= i < |t| && key(t[i]) == k;
      if i < |s| {
        assert t[i] == s[i];
      }
    }
    forall k | k in KeysOf(s, key) ensures k in KeysOf(t, key) {
      var i :| 0 <= i < |s| && key(s[i]) == k;
      assert t[i] == s[i];
    }
    assert key(t[|s|]) == key(x);
  }

  /** `for it in items`: skip an item whose key is in `seen`, otherwise record the key and keep the item. */
  method Dedupe(items: seq<TextItem>) returns (out: seq<TextItem>)
    ensures out == Deduped(items, Key)
  {
    var seen: set<DedupKey> := {};
    out := [];
    var j := 0;
    while j < |items|
      invariant 0 <= j <= |items|
      invariant out == Deduped(items[..j], Key)
      invariant seen == KeysOf(items[..j], Key)
    {
      var it := items[j];
      var key := Key(it);
      assert items[..j + 1] == items[..j] + [it];
      assert items[..j + 1][..j] == items[..j];
      KeysOfSnoc(items[..j], it, Key);
      j := j + 1;
      if key in seen {
        continue;
      }
      seen := seen + {key};
      out := out + [it];
    }
    assert items[..|items|] == items;
  }

  // ---------------------------------------------------------------------------
  // Properties of _dedupe
  // ---------------------------------------------------------------------------

  /** `a` is `b` with some items left out, the rest in their order. */
  predicate Subsequence(a: seq<TextItem>, b: seq<TextItem>)
    decreases |b|
  {
    a == [] ||
    (b != [] && ((a[|a| - 1] == b[|b| - 1] && Subsequence(a[..|a| - 1], b[..|b| - 1]))
                 || Subsequence(a, b[..|b| - 1])))
  }

  lemma {:induction false} SubsequenceMembers(a: seq<TextItem>, b: seq<TextItem>)
    requires Subsequence(a, b)
    ensures |a| <= |b| && forall x :: x in a ==> x in b
    decreases |b|
  {
    if a != [] {
      var b' := b[..|b| - 1];
      if a[|a| - 1] == b[|b| - 1] && Subsequence(a[..|a| - 1], b') {
        SubsequenceMembers(a[..|a| - 1], b');
        assert a == a[..|a| - 1] + [a[|a| - 1]];
      } else {
        SubsequenceMembers(a, b');
      }
      assert b == b' + [b[|b| - 1]];
    }
  }

  /** The output is a subsequence of the input: items are only dropped, never reordered or invented. */
  lemma {:induction false} DedupedSubsequence<K>(s: seq<TextItem>, key: TextItem -> K)
    ensures Subsequence(Deduped(s, key), s)
    ensures forall x :: x in Deduped(s, key) ==> x in s
    decreases |s|
  {
    if s != [] {
      var init := s[..|s| - 1];
      DedupedSubsequence(init, key);
      var d := Deduped(init, key);
      if key(s[|s| - 1]) in KeysOf(init, key) {
        assert Deduped(s, key) == d;
      } else {
        assert Deduped(s, key) == d + [s[|s| - 1]];
        assert (d + [s[|s| - 1]])[..|d|] == d;
      }
    }
    SubsequenceMembers(Deduped(s, key), s);
  }

  /** No two items of `s` share a key. */
  predicate UniqueKeys<K(==)>(s: seq<TextItem>, key: TextItem -> K) {
    forall i, j :: 0 <= i < j < |s| ==> key(s[i]) != key(s[j])
  }

  /** The output has the input's keys, each exactly once. */
  lemma {:induction false} DedupedKeys<K>(s: seq<TextItem>, key: TextItem -> K)
    ensures KeysOf(Deduped(s, key), key) == KeysOf(s, key)
    ensures UniqueKeys(Deduped(s, key), key)
    decreases |s|
  {
    if s != [] {
      var init := s[..|s| - 1];
      var x := s[|s| - 1];
      DedupedKeys(init, key);
      var d := Deduped(init, key);
      assert s == init + [x];
      KeysOfSnoc(init, x, key);
      if key(x) in KeysOf(init, key) {
        assert Deduped(s, key) == d;
      } else {
        assert Deduped(s, key) == d + [x];
        KeysOfSnoc(d, x, key);
        var r := d + [x];
        forall i, j | 0 <= i < j < |r| ensures key(r[i]) != key(r[j]) {
          if j == |d| {
            assert r[i] == d[i];
            assert key(d[i]) in KeysOf(d, key);
          } else {
            assert r[i] == d[i] && r[j] == d[j];
          }
        }
      }
    }
  }

  /** Item `i` is the first of `s` with its key. */
  predicate FirstOfKey<K(==)>(s: seq<TextItem>, key: TextItem -> K, i: int)
    requires 0 <= i < |s|
  {
    forall j :: 0 <= j < i ==> key(s[j]) != key(s[i])
  }

  /** The last item's key is new exactly when it is the first of its key. */
  lemma LastKeyNew<K>(s: seq<TextItem>, key: TextItem -> K)
    requires s != []
    ensures key(s[|s| - 1]) !in KeysOf(s[..|s| - 1], key) <==> FirstOfKey(s, key, |s| - 1)
  {
    var n := |s| - 1;
    var init := s[..n];
    if key(s[n]) in KeysOf(init, key) {
      var j :| 0 <= j < |init| && key(init[j]) == key(s[n]);
      assert s[j] == init[j];
    } else {
      forall j | 0 <= j < n ensures key(s[j]) != key(s[n]) {
        assert s[j] == init[j];
        assert key(init[j]) in KeysOf(init, key);
      }
    }
  }

  /** The first item of each key is kept. */
  lemma {:induction false} DedupedKeepsFirsts<K>(s: seq<TextItem>, key: TextItem -> K)
    ensures forall i :: 0 <= i < |s| && FirstOfKey(s, key, i) ==> s[i] in Deduped(s, key)
    decreases |s|
  {
    if s != [] {
      var n := |s| - 1;
      var init := s[..n];
      DedupedKeepsFirsts(init, key);
      var d := Deduped(init, key);
      assert d <= Deduped(s, key);
      LastKeyNew(s, key);
      forall i | 0 <= i < |s| && FirstOfKey(s, key, i) ensures s[i] in Deduped(s, key) {
        if i < n {
          assert s[i] == init[i];
          assert FirstOfKey(init, key, i) by {
            forall j | 0 <= j < i ensures key(init[j]) != key(init[i]) {
              assert init[j] == s[j];
            }
          }
        } else {
          assert Deduped(s, key) == d + [s[n]];
        }
      }
    }
  }

  /** Every kept item is the first of its key: a later item whose key was seen is dropped. */
  lemma {:induction false} DedupedOnlyFirsts<K>(s: seq<TextItem>, key: TextItem -> K)
    ensures forall x :: x in Deduped(s, key) ==> exists i :: 0 <= i < |s| && s[i] == x && FirstOfKey(s, key, i)
    decreases |s|
  {
    if s != [] {
      var n := |s| - 1;
      var init := s[..n];
      DedupedOnlyFirsts(init, key);
      var d := Deduped(init, key);
      LastKeyNew(s, key);
      forall x | x in Deduped(s, key) ensures exists i :: 0 <= i < |s| && s[i] == x && FirstOfKey(s, key, i) {
        if x in d {
          var i :| 0 <= i < |init| && init[i] == x && FirstOfKey(init, key, i);
          assert s[i] == x;
          assert FirstOfKey(s, key, i) by {
            forall j | 0 <= j < i ensures key(s[j]) != key(s[i]) {
              assert init[j] == s[j];
            }
          }
        } else {
          assert x == s[n] && FirstOfKey(s, key, n);
        }
      }
    }
  }

  /** A list whose keys are already unique is left as it is. */
  lemma {:induction false} DedupedUnique<K>(s: seq<TextItem>, key: TextItem -> K)
    requires UniqueKeys(s, key)
    ensures Deduped(s, key) == s
    decreases |s|
  {
    if s != [] {
      var n := |s| - 1;
      var init := s[..n];
      assert UniqueKeys(init, key) by {
        forall i, j | 0 <= i < j < |init| ensures key(init[i]) != key(init[j]) {
          assert init[i] == s[i] && init[j] == s[j];
        }
      }
      DedupedUnique(init, key);
      assert FirstOfKey(s, key, n);
      LastKeyNew(s, key);
      assert s == init + [s[n]];
    }
  }

  /** Deduplicating twice is deduplicating once. */
  lemma DedupedIdempotent<K>(s: seq<TextItem>, key: TextItem -> K)
    ensures Deduped(Deduped(s, key), key) == Deduped(s, key)
  {
    DedupedKeys(s, key);
    DedupedUnique(Deduped(s, key), key);
  }

  /**
   * Two items equal in platform, id and url whose texts agree on the first 200
   * characters have the same key: only the first of them is kept.
   */
  lemma TextHeadCollapses(a: TextItem, b: TextItem)
    requires a.platform == b.platform && a.externalId == b.externalId && a.url == b.url
    requires |a.text| >= KeyTextLength && |b.text| >= KeyTextLength
    requires a.text[..KeyTextLength] == b.text[..KeyTextLength]
    ensures Key(a) == Key(b)
    ensures Deduped([a, b], Key) == [a]
  {
    var s := [a, b];
    assert s[..1] == [a];
    assert [a][..0] == [];
    assert Key(a) in KeysOf([a], Key) by {
      assert [a][0] == a;
    }
  }

  /** The five mock items have distinct ids, so `_dedupe` keeps them all. */
  lemma MockSurvivesDedupe(platform: string, ticker: string, now: Timestamp)
    ensures Deduped(MockList(platform, ticker, now), Key) == MockList(platform, ticker, now)
  {
    MockIdsDistinct(platform, ticker, now);
    DedupedUnique(MockList(platform, ticker, now), Key);
  }

  // ---------------------------------------------------------------------------
  // The '|'-joined key
  // ---------------------------------------------------------------------------

  /** Components are compared one by one. */
  predicate SameIdentity(a: TextItem, b: TextItem) {
    a.platform == b.platform && a.externalId.GetOr("") == b.externalId.GetOr("") && a.url.GetOr("") == b.url.GetOr("")
    && SliceTo(a.text, KeyTextLength) == SliceTo(b.text, KeyTextLength)
  }

  /**
   * The joined key merges items that differ in id and url: an id `a|b` with no url, and an
   * id `a` with the url `b|`, both give `X|a|b||t`; deduplicating by it drops the second.
   */
  lemma StringKeyCollides()
    ensures var a := TextItem("X", "t", None, None, None, Some("a|b"), None);
      var b := TextItem("X", "t", None, Some("b|"), None, Some("a"), None);
      !SameIdentity(a, b) && StringKey(a) == StringKey(b) && Deduped([a, b], StringKey) == [a]
  {
    var a := TextItem("X", "t", None, None, None, Some("a|b"), None);
    var b := TextItem("X", "t", None, Some("b|"), None, Some("a"), None);
    assert SliceTo(a.text, KeyTextLength) == "t";
    assert a.externalId.GetOr("") != b.externalId.GetOr("");
    assert StringKey(a) == "X|a|b||t";
    assert StringKey(b) == "X|a|b||t";
    assert [a, b][..1] == [a];
    assert [a][..0] == [];
    assert StringKey(a) in KeysOf([a], StringKey) by {
      assert [a][0] == a;
    }
  }

  /** The tuple key identifies items exactly by their four components, so such items are both kept. */
  lemma KeyIsIdentity(a: TextItem, b: TextItem)
    ensures Key(a) == Key(b) <==> SameIdentity(a, b)
    ensures !SameIdentity(a, b) ==> Deduped([a, b], Key) == [a, b]
  {
    if !SameIdentity(a, b) {
      DedupedUnique([a, b], Key);
    }
  }

  // ---------------------------------------------------------------------------
  // fetch_all
  // ---------------------------------------------------------------------------

  /** The keyword arguments of `fetch_all`. */
  datatype Settings = Settings(
    xLimit: int,
    redditPostsPerSub: int,
    redditCommentsPerPost: int,
    youtubeVideos: int,
    youtubeCommentsPerVideo: int,
    stocktwitsLimit: int,
    finnhubDays: int,
    enableStocktwits: bool,
    enableFinnhub: bool)

  const DefaultSettings: Settings := Settings(150, 25, 8, 7, 50, 80, 7, true, true)

  /** What each API yields during one `fetch_all`. */
  datatype Apis = Apis(
    xPages: seq<XPage>,
    redditListings: seq<Listing>,
    ytBuild: Option<Exception>,
    ytSearch: YtSearch,
    ytThreads: seq<seq<YtPage>>,
    stResponse: StResponse,
    fhResponse: FhResponse)

  /** `FetchResult`. */
  datatype FetchResult = FetchResult(items: seq<TextItem>, warnings: seq<string>, finnhub: Option<SocialSentiment>)

  /** The minimum spacing of each source's requests, in seconds. */
  const XInterval: real := 1.2
  const RedditInterval: real := 1.0
  const YouTubeInterval: real := 1.0
  const StockTwitsInterval: real := 0.7
  const FinnhubInterval: real := 0.8

  /** What each adapter contributed; StockTwits and Finnhub contribute nothing when disabled. */
  datatype Parts = Parts(x: Fetched, reddit: Fetched, youtube: Fetched, stocktwits: Fetched, finnhub: FhAnswer)

  /** The items before `_dedupe`: X, Reddit, YouTube, then StockTwits. */
  function Merged(p: Parts): seq<TextItem> {
    p.x.items + p.reddit.items + p.youtube.items + p.stocktwits.items
  }

  /** The warnings in the order the adapters ran. */
  function AllWarnings(p: Parts): seq<string> {
    p.x.warnings + p.reddit.warnings + p.youtube.warnings + p.stocktwits.warnings + p.finnhub.warnings
  }

  /** The result: the merged items deduplicated once, all warnings, and the Finnhub record. */
  function Combine(p: Parts): FetchResult {
    FetchResult(Deduped(Merged(p), Key), AllWarnings(p), p.finnhub.sentiment)
  }

  function XPart(ticker: string, company: Option<string>, keys: APIKeys, st: Settings, apis: Apis, now: Timestamp): Fetched {
    XFetch(ticker, company, keys, st.xLimit, apis.xPages, now).result
  }

  function RedditPart(ticker: string, company: Option<string>, keys: APIKeys, st: Settings, apis: Apis, now: Timestamp)
    : Fetched
  {
    RedditFetch(ticker, company, keys, None, st.redditPostsPerSub, st.redditCommentsPerPost, apis.redditListings, now).result
  }

  function YouTubePart(ticker: string, company: Option<string>, keys: APIKeys, st: Settings, apis: Apis, now: Timestamp)
    : Fetched
  {
    YouTubeFetch(ticker, company, keys, st.youtubeVideos, st.youtubeCommentsPerVideo, apis.ytBuild, apis.ytSearch,
                 apis.ytThreads, now).result
  }

  function StockTwitsPart(ticker: string, keys: APIKeys, st: Settings, apis: Apis, now: Timestamp): Fetched {
    if st.enableStocktwits then StockTwitsFetch(ticker, keys, st.stocktwitsLimit, apis.stResponse, now).result
    else Fetched([], [])
  }

  function FinnhubPart(ticker: string, keys: APIKeys, st: Settings, apis: Apis, today: int): FhAnswer {
    if st.enableFinnhub then
      var o := FinnhubFetch(ticker, keys, st.finnhubDays, today, apis.fhResponse);
      FhAnswer(o.sentiment, o.warnings)
    else FhAnswer(None, [])
  }

  function PartsOf(ticker: string, company: Option<string>, keys: APIKeys, st: Settings, apis: Apis,
                   now: Timestamp, today: int): Parts
  {
    Parts(XPart(ticker, company, keys, st, apis, now), RedditPart(ticker, company, keys, st, apis, now),
          YouTubePart(ticker, company, keys, st, apis, now), StockTwitsPart(ticker, keys, st, apis, now),
          FinnhubPart(ticker, keys, st, apis, today))
  }

  /** `fetch_all` as a function of its arguments, what the APIs yield, the time of the mock data and the day. */
  function FetchAllOf(ticker: string, company: Option<string>, keys: APIKeys, st: Settings, apis: Apis,
                      now: Timestamp, today: int): FetchResult
  {
    Combine(PartsOf(ticker, company, keys, st, apis, now, today))
  }

  /** The X block of `fetch_all`, with its own limiter. */
  method CollectX(ticker: string, company: Option<string>, keys: APIKeys, st: Settings, apis: Apis, now: Timestamp,
                  clock: Clock)
    returns (part: Fetched)
    modifies clock
    ensures part == XPart(ticker, company, keys, st, apis, now)
  {
    var limiter := new RateLimiter(XInterval);
    var items, warnings, trace := FetchRecentTweets(ticker, company, keys, st.xLimit, apis.xPages, now, limiter, clock);
    part := Fetched(items, warnings);
  }

  /** The Reddit block: the default subreddits. */
  method CollectReddit(ticker: string, company: Option<string>, keys: APIKeys, st: Settings, apis: Apis, now: Timestamp,
                       clock: Clock)
    returns (part: Fetched)
    modifies clock
    ensures part == RedditPart(ticker, company, keys, st, apis, now)
  {
    var limiter := new RateLimiter(RedditInterval);
    var items, warnings, trace := FetchReddit(ticker, company, keys, None, st.redditPostsPerSub, st.redditCommentsPerPost,
                                              apis.redditListings, now, limiter, clock);
    part := Fetched(items, warnings);
  }

  /** The YouTube block. */
  method CollectYouTube(ticker: string, company: Option<string>, keys: APIKeys, st: Settings, apis: Apis, now: Timestamp,
                        clock: Clock)
    returns (part: Fetched)
    modifies clock
    ensures part == YouTubePart(ticker, company, keys, st, apis, now)
  {
    var limiter := new RateLimiter(YouTubeInterval);
    var items, warnings, trace := FetchYouTubeComments(ticker, company, keys, st.youtubeVideos, st.youtubeCommentsPerVideo,
                                                       apis.ytBuild, apis.ytSearch, apis.ytThreads, now, limiter, clock);
    part := Fetched(items, warnings);
  }

  /** The StockTwits block, run only when enabled. */
  method CollectStockTwits(ticker: string, keys: APIKeys, st: Settings, apis: Apis, now: Timestamp, clock: Clock)
    returns (part: Fetched)
    modifies clock
    ensures part == StockTwitsPart(ticker, keys, st, apis, now)
  {
    part := Fetched([], []);
    if st.enableStocktwits {
      var limiter := new RateLimiter(StockTwitsInterval);
      var items, warnings, trace := FetchStockTwits(ticker, keys, st.stocktwitsLimit, apis.stResponse, now, limiter, clock);
      part := Fetched(items, warnings);
    }
  }

  /** The Finnhub block, run only when enabled. */
  method CollectFinnhub(ticker: string, keys: APIKeys, st: Settings, apis: Apis, today: int, clock: Clock)
    returns (part: FhAnswer)
    modifies clock
    ensures part == FinnhubPart(ticker, keys, st, apis, today)
  {
    part := FhAnswer(None, []);
    if st.enableFinnhub {
      var limiter := new RateLimiter(FinnhubInterval);
      var sentiment, warnings, trace := FetchFinnhubSocialSentiment(ticker, keys, st.finnhubDays, today, apis.fhResponse,
                                                                    limiter, clock);
      part := FhAnswer(sentiment, warnings);
    }
  }

  /** `fetch_all`: the adapters in order, each with its own limiter, then one `_dedupe`. */
  method FetchAll(ticker: string, company: Option<string>, keys: APIKeys, st: Settings, apis: Apis,
                  now: Timestamp, today: int, clock: Clock)
    returns (result: FetchResult)
    modifies clock
    ensures result == FetchAllOf(ticker, company, keys, st, apis, now, today)
  {
    var x := CollectX(ticker, company, keys, st, apis, now, clock);
    var reddit := CollectReddit(ticker, company, keys, st, apis, now, clock);
    var youtube := CollectYouTube(ticker, company, keys, st, apis, now, clock);
    var stocktwits := CollectStockTwits(ticker, keys, st, apis, now, clock);
    var finnhub := CollectFinnhub(ticker, keys, st, apis, today, clock);
    var parts := Parts(x, reddit, youtube, stocktwits, finnhub);
    var items := Dedupe(x.items + reddit.items + youtube.items + stocktwits.items);
    result := FetchResult(items, x.warnings + reddit.warnings + youtube.warnings + stocktwits.warnings + finnhub.warnings,
                          finnhub.sentiment);
  }

  // ---------------------------------------------------------------------------
  // Properties of fetch_all
  // ---------------------------------------------------------------------------

  /** Each part holds items of its own platform only and at most one warning. */
  predicate PartOf(f: Fetched, platform: string) {
    |f.warnings| <= 1 && forall it :: it in f.items ==> it.platform == platform
  }

  /** What every run of the adapters satisfies. */
  predicate WellFormed(p: Parts, st: Settings) {
    PartOf(p.x, "X") && PartOf(p.reddit, "Reddit") && PartOf(p.youtube, "YouTube") && PartOf(p.stocktwits, "StockTwits")
    && (!st.enableStocktwits ==> p.stocktwits == Fetched([], []))
    && (!st.enableFinnhub ==> p.finnhub == FhAnswer(None, []))
    && (st.enableFinnhub ==> (p.finnhub.sentiment.None? <==> |p.finnhub.warnings| == 1))
    && |p.finnhub.warnings| <= 1
  }

  lemma XPartShape(ticker: string, company: Option<string>, keys: APIKeys, st: Settings, apis: Apis, now: Timestamp)
    ensures PartOf(XPart(ticker, company, keys, st, apis, now), "X")
  {
    XFetchFallback(ticker, company, keys, st.xLimit, apis.xPages, now);
    XFetchItems(ticker, company, keys, st.xLimit, apis.xPages, now);
    MockListShape("X", ticker, now);
  }

  lemma RedditPartShape(ticker: string, company: Option<string>, keys: APIKeys, st: Settings, apis: Apis, now: Timestamp)
    ensures PartOf(RedditPart(ticker, company, keys, st, apis, now), "Reddit")
  {
    RedditFetchFallback(ticker, company, keys, None, st.redditPostsPerSub, st.redditCommentsPerPost,
                        apis.redditListings, now);
    RedditFetchItems(ticker, company, keys, None, st.redditPostsPerSub, st.redditCommentsPerPost, apis.redditListings, now);
    MockListShape("Reddit", ticker, now);
  }

  lemma YouTubePartShape(ticker: string, company: Option<string>, keys: APIKeys, st: Settings, apis: Apis, now: Timestamp)
    ensures PartOf(YouTubePart(ticker, company, keys, st, apis, now), "YouTube")
  {
    YouTubeFetchFallback(ticker, company, keys, st.youtubeVideos, st.youtubeCommentsPerVideo, apis.ytBuild,
                         apis.ytSearch, apis.ytThreads, now);
    YouTubeFetchItems(ticker, company, keys, st.youtubeVideos, st.youtubeCommentsPerVideo, apis.ytBuild, apis.ytSearch,
                      apis.ytThreads, now);
    MockListShape("YouTube", ticker, now);
  }

  lemma StockTwitsPartShape(ticker: string, keys: APIKeys, st: Settings, apis: Apis, now: Timestamp)
    ensures PartOf(StockTwitsPart(ticker, keys, st, apis, now), "StockTwits")
  {
    if st.enableStocktwits {
      StockTwitsFetchFallback(ticker, keys, st.stocktwitsLimit, apis.stResponse, now);
      StockTwitsFetchItems(ticker, keys, st.stocktwitsLimit, apis.stResponse, now);
      MockListShape("StockTwits", ticker, now);
    }
  }

  lemma FinnhubPartShape(ticker: string, keys: APIKeys, st: Settings, apis: Apis, today: int)
    ensures var f := FinnhubPart(ticker, keys, st, apis, today);
      (st.enableFinnhub ==> (f.sentiment.None? <==> |f.warnings| == 1)) && |f.warnings| <= 1
  {
    if st.enableFinnhub {
      FinnhubGate(ticker, keys, st.finnhubDays, today, apis.fhResponse);
      if Truthy(keys.finnhubApiKey) {
        FinnhubOutcome(ticker, keys, st.finnhubDays, today, apis.fhResponse);
      }
    }
  }

  /** Every run of the adapters is well formed. */
  lemma PartsOfWellFormed(ticker: string, company: Option<string>, keys: APIKeys, st: Settings, apis: Apis,
                          now: Timestamp, today: int)
    ensures WellFormed(PartsOf(ticker, company, keys, st, apis, now, today), st)
  {
    XPartShape(ticker, company, keys, st, apis, now);
    RedditPartShape(ticker, company, keys, st, apis, now);
    YouTubePartShape(ticker, company, keys, st, apis, now);
    StockTwitsPartShape(ticker, keys, st, apis, now);
    FinnhubPartShape(ticker, keys, st, apis, today);
  }

  /** The platforms whose items can reach the result. */
  predicate FromEnabledSource(it: TextItem, st: Settings) {
    it.platform == "X" || it.platform == "Reddit" || it.platform == "YouTube"
    || (st.enableStocktwits && it.platform == "StockTwits")
  }

  /**
   * The result items are merged items of sources that ran (Finnhub never contributes
   * one), no two share a key, and every key of the merged list is kept.
   */
  lemma CombineItems(p: Parts, st: Settings)
    requires WellFormed(p, st)
    ensures forall it :: it in Combine(p).items ==> it in Merged(p) && FromEnabledSource(it, st)
    ensures UniqueKeys(Combine(p).items, Key) && KeysOf(Combine(p).items, Key) == KeysOf(Merged(p), Key)
  {
    DedupedSubsequence(Merged(p), Key);
    DedupedKeys(Merged(p), Key);
    forall it | it in Merged(p) ensures FromEnabledSource(it, st) {
      if it in p.x.items {
      } else if it in p.reddit.items {
      } else if it in p.youtube.items {
      } else {
        assert it in p.stocktwits.items;
      }
    }
  }

  /**
   * At most one warning per source that ran; with Finnhub enabled its warning comes last
   * and there is no record exactly when there is one; disabled, there is no record.
   */
  lemma CombineWarnings(p: Parts, st: Settings)
    requires WellFormed(p, st)
    ensures |Combine(p).warnings| <= 3 + (if st.enableStocktwits then 1 else 0) + (if st.enableFinnhub then 1 else 0)
    ensures !st.enableFinnhub ==> Combine(p).finnhub.None?
    ensures st.enableFinnhub ==>
      (Combine(p).finnhub.None? <==> |p.finnhub.warnings| == 1)
      && Combine(p).warnings == p.x.warnings + p.reddit.warnings + p.youtube.warnings + p.stocktwits.warnings
                                + p.finnhub.warnings
  {
  }

  /**
   * In terms of the adapters: the warnings are X, Reddit, YouTube, then StockTwits and
   * Finnhub when enabled, in that order; the items are `_dedupe` of X, Reddit, YouTube
   * and, when enabled, StockTwits; the Finnhub record is there only when enabled.
   */
  lemma FetchAllOrder(ticker: string, company: Option<string>, keys: APIKeys, st: Settings, apis: Apis,
                      now: Timestamp, today: int)
    ensures var r := FetchAllOf(ticker, company, keys, st, apis, now, today);
      r.warnings
      == XFetch(ticker, company, keys, st.xLimit, apis.xPages, now).result.warnings
         + RedditFetch(ticker, company, keys, None, st.redditPostsPerSub, st.redditCommentsPerPost, apis.redditListings,
                       now).result.warnings
         + YouTubeFetch(ticker, company, keys, st.youtubeVideos, st.youtubeCommentsPerVideo, apis.ytBuild, apis.ytSearch,
                        apis.ytThreads, now).result.warnings
         + (if st.enableStocktwits then StockTwitsFetch(ticker, keys, st.stocktwitsLimit, apis.stResponse, now).result.warnings
            else [])
         + (if st.enableFinnhub then FinnhubFetch(ticker, keys, st.finnhubDays, today, apis.fhResponse).warnings else [])
    ensures var r := FetchAllOf(ticker, company, keys, st, apis, now, today);
      r.items
      == Deduped(XFetch(ticker, company, keys, st.xLimit, apis.xPages, now).result.items
                 + RedditFetch(ticker, company, keys, None, st.redditPostsPerSub, st.redditCommentsPerPost,
                               apis.redditListings, now).result.items
                 + YouTubeFetch(ticker, company, keys, st.youtubeVideos, st.youtubeCommentsPerVideo, apis.ytBuild,
                                apis.ytSearch, apis.ytThreads, now).result.items
                 + (if st.enableStocktwits then StockTwitsFetch(ticker, keys, st.stocktwitsLimit, apis.stResponse,
                                                                now).result.items
                    else []), Key)
    ensures var r := FetchAllOf(ticker, company, keys, st, apis, now, today);
      r.finnhub == (if st.enableFinnhub then FinnhubFetch(ticker, keys, st.finnhubDays, today, apis.fhResponse).sentiment
                    else None)
  {
  }

  /** `fetch_all`'s items: deduplicated, only from sources that ran, every key of the adapters' items kept. */
  lemma FetchAllItems(ticker: string, company: Option<string>, keys: APIKeys, st: Settings, apis: Apis,
                      now: Timestamp, today: int)
    ensures var p := PartsOf(ticker, company, keys, st, apis, now, today);
      var r := FetchAllOf(ticker, company, keys, st, apis, now, today);
      (forall it :: it in r.items ==> it in Merged(p) && FromEnabledSource(it, st))
      && UniqueKeys(r.items, Key) && KeysOf(r.items, Key) == KeysOf(Merged(p), Key)
  {
    var p := PartsOf(ticker, company, keys, st, apis, now, today);
    PartsOfWellFormed(ticker, company, keys, st, apis, now, today);
    CombineItems(p, st);
  }

  /** `fetch_all`'s warnings and Finnhub record. */
  lemma FetchAllWarnings(ticker: string, company: Option<string>, keys: APIKeys, st: Settings, apis: Apis,
                         now: Timestamp, today: int)
    ensures var r := FetchAllOf(ticker, company, keys, st, apis, now, today);
      |r.warnings| <= 3 + (if st.enableStocktwits then 1 else 0) + (if st.enableFinnhub then 1 else 0)
      && (!st.enableFinnhub ==> r.finnhub.None?)
  {
    var p := PartsOf(ticker, company, keys, st, apis, now, today);
    PartsOfWellFormed(ticker, company, keys, st, apis, now, today);
    CombineWarnings(p, st);
  }
}
