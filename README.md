# Stock sentiment tracker: the collection layer, in Dafny

This project models the collection layer of a stock-sentiment tracker. It also proves
properties of that model. The layer has five source adapters: X (Twitter), Reddit,
YouTube, StockTwits and Finnhub.

- The first four each return a list of text items and a list of warnings.
- Finnhub returns an aggregated sentiment record.
- `fetch_all` runs the adapters in a fixed order, each with its own rate limiter.
- It concatenates their results and deduplicates the items once, keeping the first item of each key.
- When X, Reddit or YouTube has no credentials, or one of the four text sources fails before gathering anything, it falls back to five mock items with fixed sample texts and adds exactly one warning. Finnhub instead returns no record and one warning.

The modules follow the program's files:

| module | file | form |
|---|---|---|
| `Wrappers`, `Models`, `Config` | `Option`, `TextItem` (models.py), `APIKeys` (config.py) | datatypes |
| `Utils` | utils.py | `clean_text` and `ensure_ticker` as functions; `RateLimiter` as a class over a `Clock` object |
| `Mock` | sources/mock.py | a method with a loop, specified by the function `MockList` |
| `Sources` | shared by the adapters | `Fetched`, the exception boundary `Settled`/`Settle`, and the paced request trace |
| `TwitterX`, `Reddit`, `YouTube`, `StockTwits`, `Finnhub` | sources/*.py | one method per loop, each proved equal to a specification function |
| `Pipeline` | pipeline.py | `Dedupe` with its `seen` set; `FetchAll` with five fresh limiters |

**Network clients.** Each one becomes an input:
- X: the pages each search request receives.
- Reddit: the listing of each subreddit, carrying its submissions and their comment threads.
- YouTube: the search response and, for each video, its comment-thread pages.
- StockTwits and Finnhub: the reply to their single request.

Any of these may carry a marker for an exception raised at that point.

**Adapter methods.** Each adapter method sends its requests through `Sources.WaitAndSend`. That call is `RateLimiter.Wait` followed by the request, recorded as `Paced(at, request)`. Each method proves three things:
- its items, warnings and requests equal a specification function of its inputs (`XFetch`, `RedditFetch`, `YouTubeFetch`, `StockTwitsFetch`, `FinnhubFetch`);
- the requests are spaced by at least the limiter's interval;
- the limiter's last timestamp is the last request's.

Lemmas then state what the source promises about those functions.

**Clock and time.**
- `time.time()` is a `Clock` object holding a real number of seconds, and `time.sleep` advances it.
- `datetime.now()` is an integer `now`, in seconds, and `date.today()` is an integer day number `today`. Both are parameters.

## Model

| member | source | states |
|---|---|---|
| Utils.CleanText | stock_sentiment_tracker/utils.py:13-21 | the cleaned text is never longer than the input |
| Utils.CleanTextNormalizes | stock_sentiment_tracker/utils.py:9-21 | the output has no URL token (`http://`, `https://` or `www.` followed by a non-space), no U+200B, no run of two whitespace characters, and no leading or trailing whitespace |
| Utils.CleanTextKeepsVisible | stock_sentiment_tracker/utils.py:14-21 | the non-whitespace characters of the output are, in order, those of the input once URL tokens are removed; those of the input itself when it has no URL |
| Utils.CleanTextIdempotent | stock_sentiment_tracker/utils.py:13-21 | cleaning twice equals cleaning once |
| Utils.StripUrlsNoUrl | stock_sentiment_tracker/utils.py:18 | after the URL substitution no URL token remains |
| Utils.ReplaceZwsp | stock_sentiment_tracker/utils.py:19 | every U+200B becomes a space, every other character is kept, the length is unchanged |
| Utils.CollapseSingleSpaced | stock_sentiment_tracker/utils.py:20 | collapsing whitespace runs leaves no two adjacent whitespace characters |
| Utils.Strip | stock_sentiment_tracker/utils.py:20 | `strip()` leaves no leading or trailing whitespace and never lengthens |
| Utils.Upper | stock_sentiment_tracker/utils.py:29 | `upper()` keeps the length and maps each character by itself |
| Utils.EnsureTicker | stock_sentiment_tracker/utils.py:28-30 | the output consists only of `A-Z`, `0-9`, `.` and `-` |
| Utils.EnsureTickerKeeps | stock_sentiment_tracker/utils.py:29-30 | the output is the upper-cased sequence of the input's letters, digits, dots and dashes, so lower-case letters survive as upper-case |
| Utils.EnsureTickerBlank | stock_sentiment_tracker/utils.py:29 | a missing or all-whitespace ticker gives the empty string |
| Utils.EnsureTickerIdempotent | stock_sentiment_tracker/utils.py:28-30 | applying `ensure_ticker` twice equals applying it once |
| Utils.Clock.Sleep | stock_sentiment_tracker/utils.py:47 | sleeping advances the clock by exactly the given non-negative amount |
| Utils.RateLimiter.constructor | stock_sentiment_tracker/utils.py:40-41 | a new limiter has the given interval and a last timestamp of 0 |
| Utils.RateLimiter.Wait | stock_sentiment_tracker/utils.py:43-48 | sleeps only when the elapsed time is below the interval, and then for exactly the shortfall; afterwards the last timestamp is the clock, which is at least the previous timestamp plus the interval |
| Mock.Samples | stock_sentiment_tracker/sources/mock.py:15-21 | there are five sample texts |
| Mock.MockItems | stock_sentiment_tracker/sources/mock.py:8-35 | the loop builds exactly `MockList` |
| Mock.MockListShape | stock_sentiment_tracker/sources/mock.py:23-35 | five items, each with the given platform, author `mock`, no url, the `mock` extra, a non-empty text and a timestamp |
| Mock.MockIdsDistinct | stock_sentiment_tracker/sources/mock.py:31 | item i has id `mock-<platform>-<i>`, so the ids are pairwise distinct |
| Mock.MockTimestamps | stock_sentiment_tracker/sources/mock.py:13-28 | item i is stamped now − 6·i hours: strictly decreasing, starting at now |
| Mock.MockMentionsTicker | stock_sentiment_tracker/sources/mock.py:14-20 | every sample text contains the upper-cased ticker |
| Sources.WaitAndSend | stock_sentiment_tracker/sources/twitter_x.py:71-79 | waits, records the request at the limiter's new timestamp, and keeps the trace spaced by the interval |
| Sources.Fallback | stock_sentiment_tracker/sources/twitter_x.py:108-117 | exactly one warning; the gathered items when there are any, the mock items otherwise |
| Sources.Settled | stock_sentiment_tracker/sources/twitter_x.py:108-117 | without an exception the gathered items and no warning; with one, the fallback |
| Sources.Settle | stock_sentiment_tracker/sources/twitter_x.py:108-117 | the `except` clauses produce exactly `Settled` |
| TwitterX.BuildClient | stock_sentiment_tracker/sources/twitter_x.py:13-37 | a bearer token wins; OAuth1 only without one and with all four OAuth1 fields; no client exactly when neither holds; the client carries the configured values |
| TwitterX.XQuery | stock_sentiment_tracker/sources/twitter_x.py:59-63 | the query starts with `("$T")`, ends with ` -is:retweet lang:en`, and has the `OR "company"` clause exactly when the company is non-blank |
| TwitterX.MaxResults | stock_sentiment_tracker/sources/twitter_x.py:72-73 | always within [10, 100]; it is `min(remaining, 100)` when remaining ≥ 10, and 10 otherwise |
| TwitterX.TweetItems | stock_sentiment_tracker/sources/twitter_x.py:84-101 | at most one item per tweet |
| TwitterX.TweetItemsShape | stock_sentiment_tracker/sources/twitter_x.py:84-101 | every item is a well-formed X item: non-empty cleaned text, the status url built from `str(id)`, and the query as extra |
| TwitterX.TweetItemsAppend | stock_sentiment_tracker/sources/twitter_x.py:84-101 | the items of two runs of tweets, one after the other, are the two item lists concatenated |
| TwitterX.TweetItemsMembers | stock_sentiment_tracker/sources/twitter_x.py:84-101 | the items are exactly the items of the tweets whose cleaned text is non-empty |
| TwitterX.AppendTweetItems | stock_sentiment_tracker/sources/twitter_x.py:84-101 | the `for tw` loop appends exactly `TweetItems` |
| TwitterX.SearchPages | stock_sentiment_tracker/sources/twitter_x.py:69-106 | the `while` loop with its waits produces exactly the run of `XLoop`, with spaced requests |
| TwitterX.FetchRecentTweets | stock_sentiment_tracker/sources/twitter_x.py:40-117 | items, warnings and requests are exactly `XFetch`; the requests are spaced by the limiter's interval |
| TwitterX.XLoopInvariant | stock_sentiment_tracker/sources/twitter_x.py:70-106 | requests and items only grow; at most one request per page plus one; each next request carries the previous page's token; every item is a tweet item |
| TwitterX.XLoopRaisedAt | stock_sentiment_tracker/sources/twitter_x.py:74-79 | an exception comes from the page answering the last request |
| TwitterX.XLoopStopped | stock_sentiment_tracker/sources/twitter_x.py:70-106 | without an exception the loop ends only with limit reached, no data, or no next token |
| TwitterX.XLoopOvershoot | stock_sentiment_tracker/sources/twitter_x.py:70-101 | when the API returns at most `max_results` tweets per page, the loop collects at most max(0, limit) + 9 items, because a request never asks for fewer than 10 |
| TwitterX.XLoopInvariantPrefix | stock_sentiment_tracker/sources/twitter_x.py:70-79 | below the limit the next request is made, with `MaxResults(limit - collected)` and the current token |
| TwitterX.XFetchRequests | stock_sentiment_tracker/sources/twitter_x.py:53-79 | no request without a client or with limit ≤ 0; at most one per page plus one; the tokens chain |
| TwitterX.XFetchFallback | stock_sentiment_tracker/sources/twitter_x.py:52-117 | with no client, the mock items and the one warning; otherwise no warning iff no exception, and on an exception one warning, with mock items iff nothing was gathered |
| TwitterX.XFetchItems | stock_sentiment_tracker/sources/twitter_x.py:84-117 | every item is a mock item or a tweet item for the query |
| TwitterX.XFetchOvershoot | stock_sentiment_tracker/sources/twitter_x.py:70-101 | when the API returns at most `max_results` tweets per page, at most max(0, limit) + 9 items are returned |
| Reddit.BuildReddit | stock_sentiment_tracker/sources/reddit.py:14-22 | a client exactly when all three keys are set, with those keys |
| Reddit.Subreddits | stock_sentiment_tracker/sources/reddit.py:45 | the given list when non-empty, the three defaults otherwise; never empty |
| Reddit.RedditQuery | stock_sentiment_tracker/sources/reddit.py:46-49 | starts with `"T" OR "$T"` and has the `OR "company"` clause exactly when the company is non-blank |
| Reddit.Capped | stock_sentiment_tracker/sources/reddit.py:60 | the search yields the first min(count, max(0, limit)) submissions |
| Reddit.Reached | stock_sentiment_tracker/sources/reddit.py:82-85 | the comments listed before a failure are a prefix of the thread |
| Reddit.CommentLoop | stock_sentiment_tracker/sources/reddit.py:85-103 | every emitted item is a comment item of that subreddit and post |
| Reddit.CommentRequests | stock_sentiment_tracker/sources/reddit.py:81 | one comment request per submission, in order |
| Reddit.CollectComments | stock_sentiment_tracker/sources/reddit.py:82-106 | the `for c` loop with its counter appends exactly `CommentItems` |
| Reddit.ProcessSubmission | stock_sentiment_tracker/sources/reddit.py:60-106 | one submission adds its items and one spaced comment request |
| Reddit.ProcessSubmissions | stock_sentiment_tracker/sources/reddit.py:60-106 | the `for submission` loop adds `PostsItems` and one comment request per submission |
| Reddit.SearchSubreddits | stock_sentiment_tracker/sources/reddit.py:54-106 | the `for sub` loop produces exactly the run of `RedditLoop`, with spaced requests |
| Reddit.FetchReddit | stock_sentiment_tracker/sources/reddit.py:25-117 | items, warnings and requests are exactly `RedditFetch`; the requests are spaced |
| Reddit.CommentLoopPrefix | stock_sentiment_tracker/sources/reddit.py:85-103 | the comment items are the first `cap - count` non-empty comments; empty comments are skipped and not counted |
| Reddit.CommentItemsCap | stock_sentiment_tracker/sources/reddit.py:85-103 | at most `comments_per_post` comment items per post |
| Reddit.SubmissionItemsShape | stock_sentiment_tracker/sources/reddit.py:61-103 | a post item first, exactly when title and body are non-empty after cleaning; then that post's comment items |
| Reddit.ThreadFailureSwallowed | stock_sentiment_tracker/sources/reddit.py:82-106 | a comment failure after n comments gives the same items as a thread that simply ends there |
| Reddit.RedditLoopBlocks | stock_sentiment_tracker/sources/reddit.py:55-106 | the run is the concatenation of one block of requests and items per searched subreddit |
| Reddit.RedditLoopRaised | stock_sentiment_tracker/sources/reddit.py:55-108 | the exception of the run is the first listing's exception |
| Reddit.FirstRaiseFirst | stock_sentiment_tracker/sources/reddit.py:55-108 | no exception iff no listing raises; otherwise it is that of the first listing that raises |
| Reddit.PostsItemsShape | stock_sentiment_tracker/sources/reddit.py:61-103 | every item of a subreddit's posts is a Reddit item of that subreddit |
| Reddit.ItemBlocksShape | stock_sentiment_tracker/sources/reddit.py:55-103 | every gathered item is a Reddit item of one of the subreddits |
| Reddit.RedditRunShape | stock_sentiment_tracker/sources/reddit.py:55-103 | every item of the run is a Reddit item of one of the searched subreddits |
| Reddit.RedditFetchFallback | stock_sentiment_tracker/sources/reddit.py:39-117 | without keys, the mock items, one warning and no request; otherwise no warning iff no exception, and on an exception one warning, with mock items iff nothing was gathered |
| Reddit.RedditFetchItems | stock_sentiment_tracker/sources/reddit.py:55-117 | every item is a mock item or a Reddit item of the searched subreddits |
| Reddit.RedditFetchRequests | stock_sentiment_tracker/sources/reddit.py:55-81 | the requests are, per searched subreddit, one search followed by one comment request per submission; all subreddits are searched when none raises |
| Reddit.SearchedAll | stock_sentiment_tracker/sources/reddit.py:55-106 | without exceptions every subreddit is searched |
| YouTube.YtQuery | stock_sentiment_tracker/sources/youtube.py:49-51 | `T stock analysis`, with ` company` after the ticker exactly when the company is non-blank |
| YouTube.SearchMaxResults | stock_sentiment_tracker/sources/youtube.py:59 | `videos` clamped to [1, 10] |
| YouTube.PageMaxResults | stock_sentiment_tracker/sources/youtube.py:76 | min(100, remaining), in [1, 100] while below the cap |
| YouTube.VideoIds | stock_sentiment_tracker/sources/youtube.py:62-66 | at most one id per search hit |
| YouTube.VideoIdsMembers | stock_sentiment_tracker/sources/youtube.py:62-66 | exactly the non-empty video ids of the hits are kept |
| YouTube.CollectVideoIds | stock_sentiment_tracker/sources/youtube.py:62-66 | the `for it` loop builds exactly `VideoIds` |
| YouTube.ThreadItemShape | stock_sentiment_tracker/sources/youtube.py:88-98 | a thread item has platform YouTube, the watch url of its video, and the video id and query as extra |
| YouTube.TakeThreadsShape | stock_sentiment_tracker/sources/youtube.py:81-101 | every item taken from a page is an item of that video |
| YouTube.AppendThreadItems | stock_sentiment_tracker/sources/youtube.py:81-101 | the `for th` loop appends exactly `TakeThreads` and counts them in `fetched` |
| YouTube.FetchVideoComments | stock_sentiment_tracker/sources/youtube.py:69-104 | the `while fetched < comments_per_video` loop produces exactly `VideoLoop`, with spaced requests |
| YouTube.FetchVideos | stock_sentiment_tracker/sources/youtube.py:68-104 | the `for vid` loop produces exactly `VideosLoop`, with spaced requests |
| YouTube.SearchAndFetch | stock_sentiment_tracker/sources/youtube.py:53-104 | a failing `build` sends nothing; a failing search sends only the search; otherwise the search, then the processed videos |
| YouTube.FetchYouTubeComments | stock_sentiment_tracker/sources/youtube.py:28-111 | items, warnings and requests are exactly `YouTubeFetch`; the requests are spaced |
| YouTube.TakeThreadsPrefix | stock_sentiment_tracker/sources/youtube.py:81-101 | a page contributes the first `room` of its non-empty thread items |
| YouTube.TakeThreadsBound | stock_sentiment_tracker/sources/youtube.py:81-101 | a page never adds more than the room left under the cap |
| YouTube.VideoLoopItems | stock_sentiment_tracker/sources/youtube.py:71-104 | one video adds at most `comments_per_video` items, all of that video |
| YouTube.VideoLoopRequests | stock_sentiment_tracker/sources/youtube.py:71-80 | a video is requested iff below the cap; the first request asks `PageMaxResults`; at most one request per page plus one |
| YouTube.VideoLoopTokens | stock_sentiment_tracker/sources/youtube.py:71-104 | each later request carries the previous page's `nextPageToken` |
| YouTube.VideosLoopItems | stock_sentiment_tracker/sources/youtube.py:68-104 | every item gathered belongs to one of the processed videos |
| YouTube.VideosLoopBound | stock_sentiment_tracker/sources/youtube.py:68-101 | at most `comments_per_video` items per processed video |
| YouTube.VideosLoopRequests | stock_sentiment_tracker/sources/youtube.py:68-80 | each request after the search is a comment-thread request for a processed video |
| YouTube.ProcessedIds | stock_sentiment_tracker/sources/youtube.py:62-68 | the processed ids are the first `videos` of the kept ids |
| YouTube.YtRunRequests | stock_sentiment_tracker/sources/youtube.py:53-80 | the search is the first request; a failing search is the only one; the later ones are for processed videos |
| YouTube.YtRunItems | stock_sentiment_tracker/sources/youtube.py:53-104 | items only after a successful search; at most `comments_per_video` per processed video; all of processed videos |
| YouTube.YouTubeFetchFallback | stock_sentiment_tracker/sources/youtube.py:41-111 | without a key, the mock items, one warning and no request; otherwise no warning iff no exception, and on an exception one warning, with mock items iff nothing was gathered |
| YouTube.YouTubeFetchItems | stock_sentiment_tracker/sources/youtube.py:81-111 | every item is a mock item or an item of a processed video |
| StockTwits.AccessToken | stock_sentiment_tracker/sources/stocktwits.py:42-44 | the `access_token` parameter is sent exactly when a non-empty token is configured |
| StockTwits.Messages | stock_sentiment_tracker/sources/stocktwits.py:55 | at most `limit` messages are considered |
| StockTwits.MessageText | stock_sentiment_tracker/sources/stocktwits.py:56 | the cleaned body is at most 5000 characters long |
| StockTwits.MessageItemShape | stock_sentiment_tracker/sources/stocktwits.py:59-72 | url and id are absent exactly when the message id is falsy; the url is the message url of the id; the extra is the upper-cased symbol |
| StockTwits.CollectMessages | stock_sentiment_tracker/sources/stocktwits.py:55-72 | the `for msg` loop builds exactly `TakeMessages` |
| StockTwits.ReadStream | stock_sentiment_tracker/sources/stocktwits.py:53-72 | the body of the `try` after the 429 check gives exactly `StRunOf` |
| StockTwits.FetchStockTwits | stock_sentiment_tracker/sources/stocktwits.py:25-78 | items, warnings and requests are exactly `StockTwitsFetch`; the request is spaced |
| StockTwits.TakeMessagesMembers | stock_sentiment_tracker/sources/stocktwits.py:55-72 | every item comes from a message whose cleaned body is non-empty |
| StockTwits.TakeMessagesKeeps | stock_sentiment_tracker/sources/stocktwits.py:55-72 | every message before the first failure with a non-empty body gives an item |
| StockTwits.TakeMessagesRaised | stock_sentiment_tracker/sources/stocktwits.py:55-73 | at most one item per message; the loop raises iff a message does, and then with the first one |
| StockTwits.StockTwitsRequests | stock_sentiment_tracker/sources/stocktwits.py:41-49 | exactly one request, to the symbol stream url, with the token iff configured |
| StockTwits.StockTwitsFetchFallback | stock_sentiment_tracker/sources/stocktwits.py:47-78 | a 429 gives the mock items and the rate-limit warning; otherwise no warning iff no exception, and on an exception one warning, with mock items iff nothing was gathered; an HTTP error or unparseable reply gives the mock items |
| StockTwits.StockTwitsFetchItems | stock_sentiment_tracker/sources/stocktwits.py:55-78 | every item is a mock item or a StockTwits item of the symbol with at most 5000 characters |
| StockTwits.StockTwitsFetchLimit | stock_sentiment_tracker/sources/stocktwits.py:55-78 | with limit ≥ 0, at most `limit` items in every result that is not a mock fallback: no warning, or an exception after some messages were gathered |
| Finnhub.WindowStart | stock_sentiment_tracker/sources/finnhub.py:43-44 | the window starts max(1, days) days before today, so it is at least one day wide |
| Finnhub.LastDatapoint | stock_sentiment_tracker/sources/finnhub.py:60-61 | zero or one row: the last one, absent only for a missing or empty list |
| Finnhub.SumIntField | stock_sentiment_tracker/sources/finnhub.py:72-79 | the `_sum_int` loop computes `SumInt` |
| Finnhub.SumRealField | stock_sentiment_tracker/sources/finnhub.py:63-70 | the `_sum_field` loop computes `SumReal` |
| Finnhub.SumIntAppend | stock_sentiment_tracker/sources/finnhub.py:72-79 | the integer sum over two row lists is the sum of their sums |
| Finnhub.SumRealAppend | stock_sentiment_tracker/sources/finnhub.py:63-70 | the same for the score sum |
| Finnhub.SumIntSkips | stock_sentiment_tracker/sources/finnhub.py:72-79 | missing and unconvertible values count nothing; non-negative values give a non-negative sum |
| Finnhub.SumIntOne | stock_sentiment_tracker/sources/finnhub.py:72-79 | one row contributes its value, or 0 when missing or unconvertible |
| Finnhub.SumRealOne | stock_sentiment_tracker/sources/finnhub.py:63-70 | the same for a score |
| Finnhub.BuildRecord | stock_sentiment_tracker/sources/finnhub.py:81-89 | the record built is exactly `Aggregate` |
| Finnhub.AggregateLast | stock_sentiment_tracker/sources/finnhub.py:60-89 | the record has the symbol and takes all six counts and scores (mentions, positive and negative score, for Reddit and Twitter) from the last datapoint only |
| Finnhub.RequestSentiment | stock_sentiment_tracker/sources/finnhub.py:53-93 | the `try` block gives exactly `Answer` |
| Finnhub.FetchFinnhubSocialSentiment | stock_sentiment_tracker/sources/finnhub.py:28-93 | record, warnings and requests are exactly `FinnhubFetch`; the request is spaced |
| Finnhub.FinnhubGate | stock_sentiment_tracker/sources/finnhub.py:36-38 | without a key, no record, one warning and no request; with one, a request |
| Finnhub.FinnhubOutcome | stock_sentiment_tracker/sources/finnhub.py:40-93 | one request for the upper-cased symbol and the window ending today; a record iff no warning, iff neither 429 nor an exception; exactly one warning otherwise; the record's symbol is upper-cased |
| Pipeline.Deduped | stock_sentiment_tracker/pipeline.py:22-31 | deduplication never lengthens the list |
| Pipeline.Dedupe | stock_sentiment_tracker/pipeline.py:22-31 | the loop over a `seen` set computes exactly `Deduped` with the tuple key |
| Pipeline.DedupedSubsequence | stock_sentiment_tracker/pipeline.py:24-31 | the output is a subsequence of the input, in the same order |
| Pipeline.DedupedKeys | stock_sentiment_tracker/pipeline.py:23-31 | the output has exactly the input's keys, no two output items sharing one |
| Pipeline.DedupedKeepsFirsts | stock_sentiment_tracker/pipeline.py:26-30 | the first item of each key is kept |
| Pipeline.DedupedOnlyFirsts | stock_sentiment_tracker/pipeline.py:26-30 | every kept item is the first of its key, so later duplicates are dropped |
| Pipeline.DedupedUnique | stock_sentiment_tracker/pipeline.py:23-31 | a list with unique keys is left unchanged |
| Pipeline.DedupedIdempotent | stock_sentiment_tracker/pipeline.py:23-31 | deduplicating twice equals deduplicating once |
| Pipeline.TextHeadCollapses | stock_sentiment_tracker/pipeline.py:26 | items equal in platform, id and url whose texts agree on the first 200 characters have one key, and only the first is kept |
| Pipeline.MockSurvivesDedupe | stock_sentiment_tracker/pipeline.py:26-30 | all five mock items survive deduplication |
| Pipeline.StringKeyCollides | stock_sentiment_tracker/pipeline.py:26 | the `\|`-joined key maps two items with different ids and urls to one key and drops the second |
| Pipeline.KeyIsIdentity | stock_sentiment_tracker/pipeline.py:26 | the tuple key is equal iff platform, id or "", url or "", and text head are all equal; distinct items are both kept |
| Pipeline.CollectX | stock_sentiment_tracker/pipeline.py:59-63 | the X block with a fresh 1.2 s limiter gives the X part |
| Pipeline.CollectReddit | stock_sentiment_tracker/pipeline.py:65-74 | the Reddit block with a fresh 1.0 s limiter and the default subreddits gives the Reddit part |
| Pipeline.CollectYouTube | stock_sentiment_tracker/pipeline.py:76-85 | the YouTube block with a fresh 1.0 s limiter gives the YouTube part |
| Pipeline.CollectStockTwits | stock_sentiment_tracker/pipeline.py:87-92 | the StockTwits block runs only when enabled, with a 0.7 s limiter; nothing otherwise |
| Pipeline.CollectFinnhub | stock_sentiment_tracker/pipeline.py:94-99 | the Finnhub block runs only when enabled, with a 0.8 s limiter; no record and no warning otherwise |
| Pipeline.FetchAll | stock_sentiment_tracker/pipeline.py:34-102 | `fetch_all` computes exactly `FetchAllOf` |
| Pipeline.XPartShape | stock_sentiment_tracker/pipeline.py:59-63 | the X part has only X items and at most one warning |
| Pipeline.RedditPartShape | stock_sentiment_tracker/pipeline.py:65-74 | the Reddit part has only Reddit items and at most one warning |
| Pipeline.YouTubePartShape | stock_sentiment_tracker/pipeline.py:76-85 | the YouTube part has only YouTube items and at most one warning |
| Pipeline.StockTwitsPartShape | stock_sentiment_tracker/pipeline.py:87-92 | the StockTwits part has only StockTwits items and at most one warning |
| Pipeline.FinnhubPartShape | stock_sentiment_tracker/pipeline.py:94-99 | at most one Finnhub warning; when enabled, no record iff one warning |
| Pipeline.PartsOfWellFormed | stock_sentiment_tracker/pipeline.py:59-99 | every run of the adapters satisfies all the part shapes |
| Pipeline.CombineItems | stock_sentiment_tracker/pipeline.py:62-101 | result items come from the merged list, only from sources that ran, never from Finnhub; keys are unique and all kept |
| Pipeline.CombineWarnings | stock_sentiment_tracker/pipeline.py:63-102 | at most one warning per source that ran; no record when Finnhub is disabled; when enabled, Finnhub's warnings come last and there is no record iff one warning |
| Pipeline.FetchAllOrder | stock_sentiment_tracker/pipeline.py:59-102 | warnings are X ++ Reddit ++ YouTube ++ StockTwits if enabled ++ Finnhub if enabled; items are `_dedupe` of X ++ Reddit ++ YouTube ++ StockTwits if enabled; the record is Finnhub's if enabled, else none |
| Pipeline.FetchAllItems | stock_sentiment_tracker/pipeline.py:62-101 | `fetch_all`'s items come only from sources that ran, and have unique keys covering every key gathered |
| Pipeline.FetchAllWarnings | stock_sentiment_tracker/pipeline.py:63-99 | at most 3 warnings, plus 1 for each optional source enabled; no Finnhub record when Finnhub is disabled |

## Left out

- **Network clients.** tweepy, praw, googleapiclient and requests are replaced by input sequences. Their I/O, timeouts and authentication are not modelled.
- **Requests beyond the input.** A request past the given input is answered with no data (X), an empty listing (Reddit) or an empty page without a token (YouTube).
- **Default limiters.** The `rate_limiter or RateLimiter(...)` defaults inside each adapter are not modelled. The model always passes the limiter in, as `fetch_all` does.
- **Clock readings.** The real delay between the clock reading in `wait()` and the one after `sleep` is not modelled: `RateLimiter.Wait` sets the last timestamp to the clock after its own sleep.
- **Timestamp parsing** (`utc_from_epoch`, `_parse_rfc3339`, `_parse_iso`) and time zones. Parsed timestamps are opaque optional integers taken from the input.
- **Mock timestamps.** Each `mock_items` call reads `datetime.now()` separately. The model passes one `now` to every adapter of a `fetch_all`.
- **Exceptions.** An exception is known by its class name. `tweepy.TooManyRequests` and `praw.exceptions.APIException` are matched by that name, not by subclassing.
- **Unicode.** `upper()` maps only ASCII letters. Non-ASCII special casings such as `ß` → `SS` are not modelled.
- **Whitespace.** The whitespace class is Python's `str.isspace` set of code points, the same one used for `\s`.
- **Floats.** Finnhub scores are `real`s with exact arithmetic. Float rounding and the conversion of strings by `float()`/`int()` are abstracted: each row field is missing, a value, or unconvertible.
- **Finnhub dates.** They are integer day numbers. `isoformat()` and the `OverflowError` of `timedelta` for huge `days` (raised outside the `try`) are not modelled.
- **StockTwits messages.** Message ids are modelled as integers (`Option<int>`); an id of another type, such as the string `"0"`, which is truthy and gives a url and an id, is not represented. A body of an unexpected type, or a message that is not a dictionary, is represented by a marker that raises at that message.
- **Negative `videos` or `limit`.** These follow Python's slicing from the end, through `SliceTo`. No property beyond that is claimed for them.
- **PRAW listing sizes.** A search yields at most `limit` submissions; PRAW's own paging inside a listing is not modelled.
- **Out of scope.** `app.py` (the user interface), `analysis.py` (VADER and topic modelling) and the loading of `config.py` are not part of this model.
- **Tuple key.** The items of `fetch_all` are deduplicated with the tuple key `Key`, not the `|`-joined string (see Findings).

## Findings

| source | as written | input that shows it | evidently intended | confidence | as-written member | corrected member |
|---|---|---|---|---|---|---|
| stock_sentiment_tracker/pipeline.py:26 | the key joins platform, id, url and text head with `\|`, so field boundaries are lost | item A with id `a\|b` and no url, item B with id `a` and url `b\|`, same platform `X` and text `t`: both keys are `X\|a\|b\|\|t`, and B is dropped | items are identified by the four fields themselves | low: ids and urls rarely contain `\|`; not executed | Pipeline.StringKeyCollides | Pipeline.KeyIsIdentity |
