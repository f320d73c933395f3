/**
 * The StockTwits adapter (sources/stocktwits.py): one request for the symbol stream, the
 * 429 and error fallbacks, and the `for msg` loop with its limit, the 5000-character
 * truncation and the optional message id. The HTTP exchange is an input: what the single
 * `requests.get` yields.
 */
module StockTwits {
  import opened Wrappers
  import opened Models
  import opened Config
  import opened Utils
  import opened Mock
  import opened Sources

  // ---------------------------------------------------------------------------
  // The request
  // ---------------------------------------------------------------------------

  const StreamPrefix: string := "https://api.stocktwits.com/api/2/streams/symbol/"

  /** The stream endpoint of the upper-cased symbol. */
  function StreamUrl(ticker: string): string {
    StreamPrefix + Upper(ticker) + ".json"
  }

  /** The one request: the endpoint and the `access_token` parameter, if one is sent. */
  datatype StRequest = StRequest(url: string, accessToken: Option<string>)

  /** `params`: the token is added only when one is configured. */
  function AccessToken(keys: APIKeys): (r: Option<string>)
    ensures r.Some? <==> Truthy(keys.stocktwitsToken)
    ensures r.Some? ==> keys.stocktwitsToken == r && r.value != ""
  {
    if Truthy(keys.stocktwitsToken) then keys.stocktwitsToken else None
  }

  function StreamRequest(ticker: string, keys: APIKeys): StRequest {
    StRequest(StreamUrl(ticker), AccessToken(keys))
  }

  // ---------------------------------------------------------------------------
  // The response
  // ---------------------------------------------------------------------------

  /**
   * An entry of `messages`: its id (`None` when absent), body, creation time and
   * `user.username`; or an entry whose reading raises.
   */
  datatype StMessage =
    | MsgRaise(error: Exception)
    | Message(id: Option<int>, body: Option<string>, createdAt: Option<Timestamp>, username: Option<string>)

  /** The decoded body `r.json() or {}`: its optional `messages` list, or the exception decoding raised. */
  datatype StPayload =
    | Unparseable(error: Exception)
    | Payload(messages: Option<seq<StMessage>>)

  /** What `requests.get` yields: an exception, or a status code with its body. */
  datatype StResponse =
    | StRaise(error: Exception)
    | StReply(status: int, payload: StPayload)

  /** `(data.get("messages") or [])[:limit]`. */
  function Messages(payload: StPayload, limit: int): (r: seq<StMessage>)
    requires payload.Payload?
    ensures limit >= 0 ==> |r| <= limit
  {
    SliceTo(payload.messages.GetOr([]), limit)
  }

  // ---------------------------------------------------------------------------
  // Items
  // ---------------------------------------------------------------------------

  const MaxBody: int := 5000

  const MessagePrefix: string := "https://stocktwits.com/message/"

  /** Python truthiness of the message id: present and not 0. */
  predicate IdTruthy(id: Option<int>) {
    id.Some? && id.value != 0
  }

  /** The cleaned text of a message: its body cut to 5000 characters, then `clean_text`. */
  function MessageText(m: StMessage): (r: string)
    ensures |r| <= MaxBody
  {
    if m.MsgRaise? then "" else CleanText(SliceTo(m.body.GetOr(""), MaxBody))
  }

  /** The item of message `m` whose cleaned text is `text`, tagged with the symbol `sym`. */
  function MessageItem(m: StMessage, text: string, sym: string): TextItem
    requires m.Message?
  {
    TextItem("StockTwits", text, m.createdAt,
             if IdTruthy(m.id) then Some(MessagePrefix + IntToString(m.id.value)) else None,
             m.username,
             if IdTruthy(m.id) then Some(IntToString(m.id.value)) else None,
             Some(SymbolExtra(sym)))
  }

  /**
   * A StockTwits item of symbol `sym`: non-empty text, and a url exactly when there is an
   * id, the message url of that id.
   */
  predicate IsStockTwitsItem(it: TextItem, sym: string) {
    it.platform == "StockTwits" && it.text != "" && it.extra == Some(SymbolExtra(sym))
    && (it.url.Some? <==> it.externalId.Some?)
    && (it.externalId.Some? ==> it.url == Some(MessagePrefix + it.externalId.value))
  }

  /** The url and the id are present exactly when the message id is truthy, and then are built from it. */
  lemma MessageItemShape(m: StMessage, text: string, sym: string)
    requires m.Message? && text != ""
    ensures IsStockTwitsItem(MessageItem(m, text, sym), sym)
    ensures MessageItem(m, text, sym).url.None? <==> !IdTruthy(m.id)
    ensures MessageItem(m, text, sym).externalId.None? <==> !IdTruthy(m.id)
    ensures IdTruthy(m.id) ==> MessageItem(m, text, sym).externalId == Some(IntToString(m.id.value))
  {
  }

  // ---------------------------------------------------------------------------
  // The loop
  // ---------------------------------------------------------------------------

  /** The items gathered and the exception that ended the `try`, if any. */
  datatype SRun = SRun(items: seq<TextItem>, raised: Option<Exception>)

  /**
   * `for msg in messages` from the `j`-th on, `text` giving a message's cleaned text:
   * messages whose text is empty are skipped, and an entry that raises ends the loop.
   * The loop does not depend on how texts are cleaned, so it is stated (and its method
   * proved) for any cleaning function.
   */
  function TakeMessages(text: StMessage -> string, msgs: seq<StMessage>, j: nat, sym: string): SRun
    decreases |msgs| - j
  {
    if j >= |msgs| then SRun([], None)
    else if msgs[j].MsgRaise? then SRun([], Some(msgs[j].error))
    else
      var rest := TakeMessages(text, msgs, j + 1, sym);
      if text(msgs[j]) == "" then rest
      else SRun([MessageItem(msgs[j], text(msgs[j]), sym)] + rest.items, rest.raised)
  }

  /** The body of the `try` for a response that is not a 429, `text` giving a message's cleaned text. */
  function StRunOf(text: StMessage -> string, ticker: string, limit: int, response: StResponse): SRun {
    if response.StRaise? then SRun([], Some(response.error))
    else if IsHttpError(response.status) then SRun([], Some(HttpError))
    else if response.payload.Unparseable? then SRun([], Some(response.payload.error))
    else TakeMessages(text, Messages(response.payload, limit), 0, Upper(ticker))
  }

  const StRateLimitWarning: string := "StockTwits rate limit hit; using mock StockTwits data."

  function StWarning(e: Exception): string {
    Failed("StockTwits", e, "using mock StockTwits data.")
  }

  /** The warning of the `except` clause that caught `raised`, if anything was raised. */
  function StWarningOf(raised: Option<Exception>): Option<string> {
    if raised.None? then None else Some(StWarning(raised.value))
  }

  /** A 429 answer. */
  predicate IsRateLimited(response: StResponse) {
    response.StReply? && response.status == 429
  }

  /** `fetch_stocktwits` as a function of the keys, what the request yields and the clock reading. */
  function StockTwitsFetch(ticker: string, keys: APIKeys, limit: int, response: StResponse, now: Timestamp)
    : Outcome<StRequest>
  {
    var reqs := [StreamRequest(ticker, keys)];
    if IsRateLimited(response) then Outcome(Fetched(MockList("StockTwits", ticker, now), [StRateLimitWarning]), reqs)
    else
      var run := StRunOf(MessageText, ticker, limit, response);
      Outcome(Settled("StockTwits", ticker, now, run.items, StWarningOf(run.raised)), reqs)
  }

  // ---------------------------------------------------------------------------
  // The methods
  // ---------------------------------------------------------------------------

  /** The `for msg in messages` loop. */
  method CollectMessages(text: StMessage -> string, msgs: seq<StMessage>, sym: string)
    returns (items: seq<TextItem>, raised: Option<Exception>)
    ensures SRun(items, raised) == TakeMessages(text, msgs, 0, sym)
  {
    items, raised := [], None;
    ghost var total := TakeMessages(text, msgs, 0, sym);
    var j := 0;
    while j < |msgs|
      invariant 0 <= j <= |msgs|
      invariant items + TakeMessages(text, msgs, j, sym).items == total.items
      invariant TakeMessages(text, msgs, j, sym).raised == total.raised
    {
      var msg := msgs[j];
      if msg.MsgRaise? {
        raised := Some(msg.error);
        assert items == total.items;
        return;
      }
      var body := text(msg);
      if body != "" {
        AppendAssoc(items, [MessageItem(msg, body, sym)], TakeMessages(text, msgs, j + 1, sym).items);
        items := items + [MessageItem(msg, body, sym)];
      }
      j := j + 1;
    }
  }

  /** `fetch_stocktwits`, issuing its request through `limiter.wait()`. */
  method FetchStockTwits(ticker: string, keys: APIKeys, limit: int, response: StResponse, now: Timestamp,
                         limiter: RateLimiter, clock: Clock)
    returns (items: seq<TextItem>, warnings: seq<string>, trace: seq<Paced<StRequest>>)
    modifies limiter, clock
    ensures Outcome(Fetched(items, warnings), Requests(trace)) == StockTwitsFetch(ticker, keys, limit, response, now)
    ensures Spaced(trace, limiter.minIntervalSeconds, old(limiter.lastTs))
    ensures limiter.lastTs == LastAt(trace, old(limiter.lastTs))
  {
    warnings := [];
    var url := StreamPrefix + Upper(ticker) + ".json";
    var token: Option<string> := None;
    if keys.stocktwitsToken.Some? && keys.stocktwitsToken.value != "" {
      token := keys.stocktwitsToken;
    }
    ghost var start := limiter.lastTs;
    assert StRequest(url, token) == StreamRequest(ticker, keys);
    trace := WaitAndSend(limiter, clock, [], StRequest(url, token), start);
    assert Requests(trace) == StockTwitsFetch(ticker, keys, limit, response, now).requests;
    if response.StReply? && response.status == 429 {
      warnings := warnings + [StRateLimitWarning];
      items := MockItems("StockTwits", ticker, now);
      return;
    }
    var gathered, raised := ReadStream(MessageText, ticker, limit, response);
    items, warnings := Settle("StockTwits", ticker, now, gathered, StWarningOf(raised));
  }

  /** The rest of the `try` once the answer is not a 429: `raise_for_status()`, `r.json()` and the loop. */
  method ReadStream(text: StMessage -> string, ticker: string, limit: int, response: StResponse)
    returns (gathered: seq<TextItem>, raised: Option<Exception>)
    requires !IsRateLimited(response)
    ensures SRun(gathered, raised) == StRunOf(text, ticker, limit, response)
  {
    gathered, raised := [], None;
    if response.StRaise? {
      raised := Some(response.error);
    } else if 400 <= response.status < 600 {
      raised := Some(HttpError);
    } else if response.payload.Unparseable? {
      raised := Some(response.payload.error);
    } else {
      var msgs := SliceTo(response.payload.messages.GetOr([]), limit);
      gathered, raised := CollectMessages(text, msgs, Upper(ticker));
    }
  }

  // ---------------------------------------------------------------------------
  // Properties
  // ---------------------------------------------------------------------------

  /** Every item comes from a non-empty message before the first raising entry, and is a StockTwits item. */
  lemma {:induction false} TakeMessagesMembers(text: StMessage -> string, msgs: seq<StMessage>, j: nat, sym: string)
    ensures forall it :: it in TakeMessages(text, msgs, j, sym).items ==>
      IsStockTwitsItem(it, sym)
      && exists i :: j <= i < |msgs| && msgs[i].Message? && text(msgs[i]) != "" && it == MessageItem(msgs[i], text(msgs[i]), sym)
    decreases |msgs| - j
  {
    if j < |msgs| && msgs[j].Message? {
      TakeMessagesMembers(text, msgs, j + 1, sym);
      var run := TakeMessages(text, msgs, j, sym);
      var rest := TakeMessages(text, msgs, j + 1, sym);
      forall it | it in run.items
        ensures IsStockTwitsItem(it, sym)
          && exists i :: j <= i < |msgs| && msgs[i].Message? && text(msgs[i]) != "" && it == MessageItem(msgs[i], text(msgs[i]), sym)
      {
        if it in rest.items {
          var i :| j + 1 <= i < |msgs| && msgs[i].Message? && text(msgs[i]) != "" && it == MessageItem(msgs[i], text(msgs[i]), sym);
        } else {
          MessageItemShape(msgs[j], text(msgs[j]), sym);
        }
      }
    }
  }

  /** No entry from `j` up to `i` raises. */
  predicate NoRaiseUpTo(msgs: seq<StMessage>, j: nat, i: nat)
    requires i < |msgs|
  {
    forall k :: j <= k <= i ==> msgs[k].Message?
  }

  /** Conversely, every non-empty message before the first raising entry gives its item. */
  lemma {:induction false} TakeMessagesKeeps(text: StMessage -> string, msgs: seq<StMessage>, j: nat, sym: string)
    ensures forall i :: j <= i < |msgs| && NoRaiseUpTo(msgs, j, i) && text(msgs[i]) != "" ==>
      MessageItem(msgs[i], text(msgs[i]), sym) in TakeMessages(text, msgs, j, sym).items
    decreases |msgs| - j
  {
    if j < |msgs| && msgs[j].Message? {
      TakeMessagesKeeps(text, msgs, j + 1, sym);
      forall i | j <= i < |msgs| && NoRaiseUpTo(msgs, j, i) && text(msgs[i]) != ""
        ensures MessageItem(msgs[i], text(msgs[i]), sym) in TakeMessages(text, msgs, j, sym).items
      {
        if i > j {
          assert NoRaiseUpTo(msgs, j + 1, i);
        }
      }
    }
  }

  /** The loop raises exactly when some entry raises, with the first such entry's exception; it adds at most one item per message. */
  lemma {:induction false} TakeMessagesRaised(text: StMessage -> string, msgs: seq<StMessage>, j: nat, sym: string)
    requires j <= |msgs|
    ensures |TakeMessages(text, msgs, j, sym).items| <= |msgs| - j
    ensures TakeMessages(text, msgs, j, sym).raised.Some? <==> exists i :: j <= i < |msgs| && msgs[i].MsgRaise?
    ensures forall i :: j <= i < |msgs| && msgs[i].MsgRaise? && (i == j || NoRaiseUpTo(msgs, j, i - 1)) ==>
      TakeMessages(text, msgs, j, sym).raised == Some(msgs[i].error)
    decreases |msgs| - j
  {
    if j < |msgs| && msgs[j].Message? {
      TakeMessagesRaised(text, msgs, j + 1, sym);
      forall i | j <= i < |msgs| && msgs[i].MsgRaise? && (i == j || NoRaiseUpTo(msgs, j, i - 1))
        ensures TakeMessages(text, msgs, j, sym).raised == Some(msgs[i].error)
      {
        if i > j + 1 {
          assert NoRaiseUpTo(msgs, j + 1, i - 1);
        }
      }
      if exists i :: j <= i < |msgs| && msgs[i].MsgRaise? {
        var i :| j <= i < |msgs| && msgs[i].MsgRaise?;
        assert j + 1 <= i;
      }
    }
  }

  /** Exactly one request, to the symbol's stream, carrying the token exactly when one is configured. */
  lemma StockTwitsRequests(ticker: string, keys: APIKeys, limit: int, response: StResponse, now: Timestamp)
    ensures StockTwitsFetch(ticker, keys, limit, response, now).requests == [StRequest(StreamUrl(ticker), AccessToken(keys))]
    ensures AccessToken(keys).Some? <==> Truthy(keys.stocktwitsToken)
  {
  }

  /**
   * A 429 gives the mock data and the rate-limit warning; otherwise no warning on success,
   * and on an exception exactly one warning with the mock data exactly when nothing was gathered.
   */
  lemma StockTwitsFetchFallback(ticker: string, keys: APIKeys, limit: int, response: StResponse, now: Timestamp)
    ensures IsRateLimited(response) ==>
      StockTwitsFetch(ticker, keys, limit, response, now).result
      == Fetched(MockList("StockTwits", ticker, now), [StRateLimitWarning])
    ensures var r := StockTwitsFetch(ticker, keys, limit, response, now).result;
      var run := StRunOf(MessageText, ticker, limit, response);
      !IsRateLimited(response) ==>
        (r.warnings == [] <==> run.raised.None?)
        && (run.raised.None? ==> r.items == run.items)
        && (run.raised.Some? ==>
              r.warnings == [StWarning(run.raised.value)]
              && r.items == (if run.items == [] then MockList("StockTwits", ticker, now) else run.items))
    ensures !IsRateLimited(response) && (response.StRaise? || IsHttpError(response.status) || response.payload.Unparseable?)
      ==> StockTwitsFetch(ticker, keys, limit, response, now).result.items == MockList("StockTwits", ticker, now)
  {
  }

  /**
   * Every item of the result is mock data or a StockTwits item of the upper-cased symbol
   * whose text has at most 5000 characters.
   */
  lemma StockTwitsFetchItems(ticker: string, keys: APIKeys, limit: int, response: StResponse, now: Timestamp)
    ensures var r := StockTwitsFetch(ticker, keys, limit, response, now).result;
      forall it :: it in r.items ==>
        it in MockList("StockTwits", ticker, now) || (IsStockTwitsItem(it, Upper(ticker)) && |it.text| <= MaxBody)
  {
    if !IsRateLimited(response) && response.StReply? && !IsHttpError(response.status) && response.payload.Payload? {
      var msgs := Messages(response.payload, limit);
      var run := TakeMessages(MessageText, msgs, 0, Upper(ticker));
      TakeMessagesMembers(MessageText, msgs, 0, Upper(ticker));
      forall it | it in run.items ensures |it.text| <= MaxBody {
        var i :| 0 <= i < |msgs| && msgs[i].Message? && MessageText(msgs[i]) != ""
          && it == MessageItem(msgs[i], MessageText(msgs[i]), Upper(ticker));
        assert it.text == MessageText(msgs[i]);
      }
    }
  }

  /** At most `limit` messages are read, so every result that is not a mock fallback (no warning, or an
      exception after some items were gathered) has at most `limit` items. */
  lemma StockTwitsFetchLimit(ticker: string, keys: APIKeys, limit: int, response: StResponse, now: Timestamp)
    ensures var r := StockTwitsFetch(ticker, keys, limit, response, now).result;
      r.warnings == [] && limit >= 0 ==> |r.items| <= limit
    ensures var r := StockTwitsFetch(ticker, keys, limit, response, now).result;
      var run := StRunOf(MessageText, ticker, limit, response);
      !IsRateLimited(response) && (run.raised.None? || run.items != []) && limit >= 0 ==> |r.items| <= limit
  {
    if !IsRateLimited(response) && response.StReply? && !IsHttpError(response.status) && response.payload.Payload? {
      TakeMessagesRaised(MessageText, Messages(response.payload, limit), 0, Upper(ticker));
    }
  }
}
