/** The fallback data, fixed sample texts stamped relative to the clock reading, used when a source is unconfigured or fails (sources/mock.py). */
module Mock {
  import opened Wrappers
  import opened Models
  import opened Utils

  /** Six hours, in seconds: the spacing of the synthetic timestamps. */
  const SixHours: int := 6 * 3600

  /** The `i`-th of the five sample sentences, each mentioning the upper-cased ticker `t`. */
  function SampleText(t: string, i: nat): string
    requires i < 5
  {
    if i == 0 then "$" + t + " looks strong after earnings. Guidance was better than expected."
    else if i == 1 then "I'm worried " + t + " is overvalued here. Macro headwinds are real."
    else if i == 2 then "Neutral take: " + t + " might trade sideways until the next catalyst."
    else if i == 3 then "Bull case: " + t + " product cycle + margin expansion could drive upside."
    else "Bear case: " + t + " competition increasing; watch revenue growth."
  }

  /** The `samples` list. */
  function Samples(t: string): (r: seq<string>)
    ensures |r| == 5
  {
    seq(5, i requires 0 <= i < 5 => SampleText(t, i))
  }

  /** The external id `f"mock-{platform}-{i}"`. */
  function MockId(platform: string, i: nat): string {
    "mock-" + platform + "-" + NatToString(i)
  }

  /** The `i`-th synthetic item. */
  function MockItem(platform: string, text: string, now: Timestamp, i: nat): TextItem {
    TextItem(platform, text, Some(now - i * SixHours), None, Some("mock"), Some(MockId(platform, i)), Some(MockExtra))
  }

  /** What `mock_items(platform, ticker)` returns when the clock reads `now`. */
  function MockList(platform: string, ticker: string, now: Timestamp): seq<TextItem> {
    seq(5, i requires 0 <= i < 5 => MockItem(platform, SampleText(Upper(ticker), i), now, i))
  }

  /** `mock_items`: the `enumerate(samples)` loop appending one item per sample. */
  method MockItems(platform: string, ticker: string, now: Timestamp) returns (items: seq<TextItem>)
    ensures items == MockList(platform, ticker, now)
  {
    var t := Upper(ticker);
    var samples := Samples(t);
    items := [];
    var i := 0;
    while i < |samples|
      invariant 0 <= i <= |samples|
      invariant items == MockList(platform, ticker, now)[..i]
    {
      items := items + [MockItem(platform, samples[i], now, i)];
      i := i + 1;
    }
  }

  /** Exactly five items, each carrying the given platform, author "mock", no url and the mock marker. */
  lemma MockListShape(platform: string, ticker: string, now: Timestamp)
    ensures |MockList(platform, ticker, now)| == 5
    ensures forall it :: it in MockList(platform, ticker, now) ==>
      it.platform == platform && it.author == Some("mock") && it.url == None && it.extra == Some(MockExtra)
      && it.text != "" && it.createdAt.Some?
  {
    var l := MockList(platform, ticker, now);
    forall it | it in l
      ensures it.platform == platform && it.author == Some("mock") && it.url == None && it.extra == Some(MockExtra)
      && it.text != "" && it.createdAt.Some?
    {
      var i :| 0 <= i < |l| && l[i] == it;
      SampleNonEmpty(Upper(ticker), i);
    }
  }

  /** Every sample sentence is non-empty. */
  lemma SampleNonEmpty(t: string, i: nat)
    requires i < 5
    ensures |SampleText(t, i)| > |t|
  {
  }

  /** The ids are `mock-<platform>-0` … `mock-<platform>-4`, hence pairwise distinct. */
  lemma MockIdsDistinct(platform: string, ticker: string, now: Timestamp)
    ensures forall i :: 0 <= i < |MockList(platform, ticker, now)| ==>
      MockList(platform, ticker, now)[i].externalId == Some("mock-" + platform + "-" + [DigitChar(i)])
    ensures forall i, j :: 0 <= i < j < |MockList(platform, ticker, now)| ==>
      MockList(platform, ticker, now)[i].externalId != MockList(platform, ticker, now)[j].externalId
  {
    var l := MockList(platform, ticker, now);
    var p := "mock-" + platform + "-";
    forall i, j | 0 <= i < j < |l|
      ensures l[i].externalId != l[j].externalId
    {
      assert l[i].externalId.value == p + [DigitChar(i)];
      assert l[j].externalId.value == p + [DigitChar(j)];
      assert (p + [DigitChar(i)])[|p|] != (p + [DigitChar(j)])[|p|];
    }
  }

  /** Item `i` is stamped `now - 6i` hours: the first is `now` and the stamps strictly decrease. */
  lemma MockTimestamps(platform: string, ticker: string, now: Timestamp)
    ensures MockList(platform, ticker, now)[0].createdAt == Some(now)
    ensures forall i :: 0 <= i < |MockList(platform, ticker, now)| ==>
      MockList(platform, ticker, now)[i].createdAt == Some(now - i * SixHours)
    ensures forall i, j :: 0 <= i < j < |MockList(platform, ticker, now)| ==>
      MockList(platform, ticker, now)[j].createdAt.value < MockList(platform, ticker, now)[i].createdAt.value
  {
  }

  /** Sample sentence `i` mentions `t`. */
  lemma SampleMentions(t: string, i: nat)
    requires i < 5
    ensures Contains(SampleText(t, i), t)
  {
    if i == 0 {
      InfixContains("$", t, " looks strong after earnings. Guidance was better than expected.");
    } else if i == 1 {
      InfixContains("I'm worried ", t, " is overvalued here. Macro headwinds are real.");
    } else if i == 2 {
      InfixContains("Neutral take: ", t, " might trade sideways until the next catalyst.");
    } else if i == 3 {
      InfixContains("Bull case: ", t, " product cycle + margin expansion could drive upside.");
    } else {
      InfixContains("Bear case: ", t, " competition increasing; watch revenue growth.");
    }
  }

  /** Every sample text mentions the upper-cased ticker. */
  lemma MockMentionsTicker(platform: string, ticker: string, now: Timestamp)
    ensures forall it :: it in MockList(platform, ticker, now) ==> Contains(it.text, Upper(ticker))
  {
    var l := MockList(platform, ticker, now);
    forall it | it in l ensures Contains(it.text, Upper(ticker)) {
      var i :| 0 <= i < |l| && l[i] == it;
      SampleMentions(Upper(ticker), i);
    }
  }
}
