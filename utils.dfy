/**
 * Text helpers and the per-source throttle (utils.py): `clean_text`, `ensure_ticker`
 * and `RateLimiter`, together with the string primitives of Python they rely on
 * (`str.isspace`, `strip`, `upper`, slicing, `str(int)`).
 */
module Utils {
  import opened Wrappers

  function Min(a: int, b: int): int { if a <= b then a else b }
  function Max(a: int, b: int): int { if a >= b then a else b }

  lemma AppendAssoc<T>(a: seq<T>, b: seq<T>, c: seq<T>)
    ensures (a + b) + c == a + (b + c)
  {
  }

  lemma ConsPrefix<T>(x: T, rest: seq<T>, n: nat)
    requires n <= |rest|
    ensures ([x] + rest)[..n + 1] == [x] + rest[..n]
  {
  }

  // ---------------------------------------------------------------------------
  // Characters
  // ---------------------------------------------------------------------------

  /** Python's `str.isspace`, which is also what `\s` and `str.strip()` use on text. */
  predicate IsSpace(c: char) {
    c == ' ' || ('\t' <= c <= '\r') || ('\U{1C}' <= c <= '\U{1F}') || c == '\U{85}' || c == '\U{A0}'
    || c == '\U{1680}' || ('\U{2000}' <= c <= '\U{200A}') || c == '\U{2028}' || c == '\U{2029}'
    || c == '\U{202F}' || c == '\U{205F}' || c == '\U{3000}'
  }

  /** U+200B ZERO WIDTH SPACE, which Python does not count as whitespace. */
  const ZeroWidthSpace: char := '\U{200B}'

  predicate NoZwsp(s: string) {
    forall i :: 0 <= i < |s| ==> s[i] != ZeroWidthSpace
  }

  /** Every whitespace character is a plain space and is followed by a non-space (or the end). */
  predicate SingleSpaced(s: string) {
    forall i :: 0 <= i < |s| && IsSpace(s[i]) ==> s[i] == ' ' && (i + 1 == |s| || !IsSpace(s[i + 1]))
  }

  /** Neither the first nor the last character is whitespace. */
  predicate Trimmed(s: string) {
    s == [] || (!IsSpace(s[0]) && !IsSpace(s[|s| - 1]))
  }

  // ---------------------------------------------------------------------------
  // URL tokens: the pattern `https?://\S+|www\.\S+`
  // ---------------------------------------------------------------------------

  /** The maximal run of non-whitespace characters at the start of `s`. */
  function Tok(s: string): (w: string)
    ensures w <= s
    ensures forall i :: 0 <= i < |w| ==> !IsSpace(w[i])
    ensures |w| == |s| || IsSpace(s[|w|])
  {
    if s == [] || IsSpace(s[0]) then [] else [s[0]] + Tok(s[1..])
  }

  /**
   * A non-space run that the URL pattern matches as a whole: a scheme `http://`,
   * `https://` or the prefix `www.`, followed by at least one more non-space character.
   * (`\S+` is greedy, so a match always extends to the end of the run.)
   */
  predicate UrlToken(w: string) {
    ("http://" <= w && |w| > 7) || ("https://" <= w && |w| > 8) || ("www." <= w && |w| > 4)
  }

  /** The URL pattern matches at the start of `s`; the match is then `Tok(s)`. */
  predicate UrlAt(s: string) {
    UrlToken(Tok(s))
  }

  /** No position of `s` starts a match of the URL pattern. */
  predicate NoUrl(s: string) {
    forall i :: 0 <= i < |s| ==> !UrlAt(s[i..])
  }

  /** `_URL_RE.sub("", s)`: scan left to right, deleting every match. */
  function StripUrls(s: string): (r: string)
    ensures |r| <= |s|
    decreases |s|
  {
    if s == [] then []
    else if UrlAt(s) then StripUrls(s[|Tok(s)|..])
    else [s[0]] + StripUrls(s[1..])
  }

  /** `s.replace("\u200B", " ")`. */
  function ReplaceZwsp(s: string): (r: string)
    ensures |r| == |s|
    ensures forall i :: 0 <= i < |s| ==> r[i] == (if s[i] == ZeroWidthSpace then ' ' else s[i])
  {
    if s == [] then [] else [if s[0] == ZeroWidthSpace then ' ' else s[0]] + ReplaceZwsp(s[1..])
  }

  /** The length of the whitespace run at the start of `s`. */
  function SpaceRun(s: string): (n: nat)
    ensures n <= |s|
    ensures forall i :: 0 <= i < n ==> IsSpace(s[i])
    ensures n == |s| || !IsSpace(s[n])
  {
    if s == [] || !IsSpace(s[0]) then 0 else 1 + SpaceRun(s[1..])
  }

  /** `_WS_RE.sub(" ", s)`: every whitespace run becomes one space. */
  function CollapseWs(s: string): (r: string)
    ensures |r| <= |s|
    decreases |s|
  {
    if s == [] then []
    else if IsSpace(s[0]) then [' '] + CollapseWs(s[SpaceRun(s)..])
    else [s[0]] + CollapseWs(s[1..])
  }

  /** `s.lstrip()`. */
  function TrimStart(s: string): (r: string)
    ensures |r| <= |s|
    ensures r == [] || !IsSpace(r[0])
    ensures forall i :: 0 <= i < |s| - |r| ==> IsSpace(s[i])
  {
    if s != [] && IsSpace(s[0]) then TrimStart(s[1..]) else s
  }

  /** `s.lstrip()` is a suffix of `s`. */
  lemma {:induction false} TrimStartSuffix(s: string)
    ensures TrimStart(s) == s[|s| - |TrimStart(s)|..]
  {
    if s != [] && IsSpace(s[0]) {
      TrimStartSuffix(s[1..]);
    }
  }

  /** `s.rstrip()`. */
  function TrimEnd(s: string): (r: string)
    ensures r <= s
    ensures r == [] || !IsSpace(r[|r| - 1])
    ensures forall i :: |r| <= i < |s| ==> IsSpace(s[i])
    ensures s != [] && !IsSpace(s[0]) ==> r != []
  {
    if s != [] && IsSpace(s[|s| - 1]) then TrimEnd(s[..|s| - 1]) else s
  }

  /** `s.strip()`. */
  function Strip(s: string): (r: string)
    ensures |r| <= |s|
    ensures Trimmed(r)
  {
    TrimEnd(TrimStart(s))
  }

  /**
   * `clean_text`: delete URL tokens, turn U+200B into a space, collapse whitespace
   * runs into one space and trim. A missing text (`None`) is passed as "".
   */
  function CleanText(text: string): (r: string)
    ensures |r| <= |text|
  {
    Strip(CollapseWs(ReplaceZwsp(StripUrls(text))))
  }

  /**
   * What `clean_text` guarantees: no URL token, no U+200B, every whitespace a single plain
   * space, and no whitespace at either end.
   */
  lemma CleanTextNormalizes(text: string)
    ensures NoUrl(CleanText(text))
    ensures NoZwsp(CleanText(text))
    ensures SingleSpaced(CleanText(text))
    ensures Trimmed(CleanText(text))
  {
    var u := StripUrls(text);
    var z := ReplaceZwsp(u);
    var c := CollapseWs(z);
    StripUrlsNoUrl(text);
    ReplaceNoUrl(u);
    CollapseNoUrl(z);
    CollapseSingleSpaced(z);
    CollapseNoZwsp(z);
    StripKeeps(c);
  }

  // ---------------------------------------------------------------------------
  // Lemmas about tokens
  // ---------------------------------------------------------------------------

  lemma UrlTokenExtends(a: string, b: string)
    requires a <= b && UrlToken(a)
    ensures UrlToken(b)
  {
    if "http://" <= a && |a| > 7 {
      assert b[..7] == a[..7];
    } else if "https://" <= a && |a| > 8 {
      assert b[..8] == a[..8];
    } else {
      assert b[..4] == a[..4];
    }
  }

  /** A match at the start of `a` implies one at the start of `b` when `b`'s leading run extends `a`'s. */
  lemma UrlAtExtends(a: string, b: string)
    requires Tok(a) <= Tok(b) && UrlAt(a)
    ensures UrlAt(b)
  {
    UrlTokenExtends(Tok(a), Tok(b));
  }

  lemma TokCons(c: char, s: string)
    requires !IsSpace(c)
    ensures Tok([c] + s) == [c] + Tok(s)
  {
    assert ([c] + s)[1..] == s;
  }

  lemma TokSpaceCons(c: char, s: string)
    requires IsSpace(c)
    ensures Tok([c] + s) == []
  {
  }

  lemma NoUrlSuffix(s: string, k: nat)
    requires k <= |s| && NoUrl(s)
    ensures NoUrl(s[k..])
  {
    forall i | 0 <= i < |s[k..]| ensures !UrlAt(s[k..][i..]) {
      assert s[k..][i..] == s[k + i..];
    }
  }

  /** Text that is empty or starts with whitespace keeps an empty leading run under `_URL_RE.sub`. */
  lemma TokAfterMatch(t: string)
    requires t == [] || IsSpace(t[0])
    ensures Tok(StripUrls(t)) == []
  {
    if t != [] {
      assert Tok(t) == [];
      assert StripUrls(t) == [t[0]] + StripUrls(t[1..]);
      TokSpaceCons(t[0], StripUrls(t[1..]));
    }
  }

  /** After a match, the remaining text is empty or starts with whitespace, so its cleaned form has an empty run. */
  lemma TokStripUrls(s: string)
    ensures Tok(StripUrls(s)) <= Tok(s)
    decreases |s|
  {
    if s == [] {
    } else if UrlAt(s) {
      TokAfterMatch(s[|Tok(s)|..]);
    } else if IsSpace(s[0]) {
      TokSpaceCons(s[0], StripUrls(s[1..]));
    } else {
      TokStripUrls(s[1..]);
      TokCons(s[0], StripUrls(s[1..]));
      TokCons(s[0], s[1..]);
      assert [s[0]] + s[1..] == s;
    }
  }

  /** `_URL_RE.sub` leaves no match behind. */
  lemma {:induction false} StripUrlsNoUrl(s: string)
    ensures NoUrl(StripUrls(s))
    decreases |s|
  {
    if s == [] {
    } else if UrlAt(s) {
      StripUrlsNoUrl(s[|Tok(s)|..]);
    } else {
      var rest := StripUrls(s[1..]);
      StripUrlsNoUrl(s[1..]);
      TokStripUrls(s);
      if UrlAt([s[0]] + rest) { UrlAtExtends([s[0]] + rest, s); }
      NoUrlCons(s[0], rest);
    }
  }

  /** Text without any URL match passes `_URL_RE.sub` unchanged. */
  lemma {:induction false} StripUrlsIdentity(s: string)
    requires NoUrl(s)
    ensures StripUrls(s) == s
    decreases |s|
  {
    if s != [] {
      assert !UrlAt(s[0..]) && s[0..] == s;
      NoUrlSuffix(s, 1);
      StripUrlsIdentity(s[1..]);
    }
  }

  lemma TokReplace(s: string)
    ensures Tok(ReplaceZwsp(s)) <= Tok(s)
  {
    if s != [] {
      var r := ReplaceZwsp(s);
      assert r == [r[0]] + ReplaceZwsp(s[1..]);
      if IsSpace(r[0]) {
        TokSpaceCons(r[0], ReplaceZwsp(s[1..]));
      } else {
        TokReplace(s[1..]);
        TokCons(r[0], ReplaceZwsp(s[1..]));
        TokCons(s[0], s[1..]);
        assert [s[0]] + s[1..] == s;
      }
    }
  }

  lemma ReplaceSuffix(s: string, k: nat)
    requires k <= |s|
    ensures ReplaceZwsp(s)[k..] == ReplaceZwsp(s[k..])
  {
  }

  lemma ReplaceNoUrl(s: string)
    requires NoUrl(s)
    ensures NoUrl(ReplaceZwsp(s))
  {
    var r := ReplaceZwsp(s);
    forall i | 0 <= i < |r| ensures !UrlAt(r[i..]) {
      ReplaceSuffix(s, i);
      TokReplace(s[i..]);
      if UrlAt(r[i..]) { UrlAtExtends(r[i..], s[i..]); }
    }
  }

  lemma ReplaceIdentity(s: string)
    requires NoZwsp(s)
    ensures ReplaceZwsp(s) == s
  {
  }

  lemma CollapseHead(s: string)
    requires s != [] && !IsSpace(s[0])
    ensures CollapseWs(s) != [] && CollapseWs(s)[0] == s[0]
  {
  }

  lemma {:induction false} TokCollapse(s: string)
    ensures Tok(CollapseWs(s)) == Tok(s)
    decreases |s|
  {
    if s == [] {
    } else if IsSpace(s[0]) {
      TokSpaceCons(' ', CollapseWs(s[SpaceRun(s)..]));
    } else {
      TokCollapse(s[1..]);
      TokCons(s[0], CollapseWs(s[1..]));
      TokCons(s[0], s[1..]);
      assert [s[0]] + s[1..] == s;
    }
  }

  /** Prepending a character that starts no match to URL-free text keeps it URL-free. */
  lemma NoUrlCons(c: char, rest: string)
    requires NoUrl(rest) && !UrlAt([c] + rest)
    ensures NoUrl([c] + rest)
  {
    var r := [c] + rest;
    forall i | 0 <= i < |r| ensures !UrlAt(r[i..]) {
      if i > 0 {
        assert r[i..] == rest[i - 1..];
      }
    }
  }

  lemma {:induction false} CollapseNoUrl(s: string)
    requires NoUrl(s)
    ensures NoUrl(CollapseWs(s))
    decreases |s|
  {
    if s != [] {
      var k := if IsSpace(s[0]) then SpaceRun(s) else 1;
      var rest := CollapseWs(s[k..]);
      NoUrlSuffix(s, k);
      CollapseNoUrl(s[k..]);
      if IsSpace(s[0]) {
        assert CollapseWs(s) == [' '] + rest;
        TokSpaceCons(' ', rest);
        NoUrlCons(' ', rest);
      } else {
        assert CollapseWs(s) == [s[0]] + rest;
        TokCollapse(s);
        assert !UrlAt(s[0..]) && s[0..] == s;
        NoUrlCons(s[0], rest);
      }
    }
  }

  lemma {:induction false} CollapseSingleSpaced(s: string)
    ensures SingleSpaced(CollapseWs(s))
    decreases |s|
  {
    if s != [] {
      var k := if IsSpace(s[0]) then SpaceRun(s) else 1;
      var rest := CollapseWs(s[k..]);
      var r := CollapseWs(s);
      assert r == [r[0]] + rest;
      CollapseSingleSpaced(s[k..]);
      if IsSpace(s[0]) && s[k..] != [] {
        CollapseHead(s[k..]);
      }
      forall i | 0 <= i < |r| && IsSpace(r[i]) ensures r[i] == ' ' && (i + 1 == |r| || !IsSpace(r[i + 1])) {
        if i > 0 {
          assert r[i] == rest[i - 1];
        }
      }
    }
  }

  lemma {:induction false} CollapseNoZwsp(s: string)
    requires NoZwsp(s)
    ensures NoZwsp(CollapseWs(s))
    decreases |s|
  {
    if s != [] {
      var k := if IsSpace(s[0]) then SpaceRun(s) else 1;
      CollapseNoZwsp(s[k..]);
      assert CollapseWs(s) == [CollapseWs(s)[0]] + CollapseWs(s[k..]);
    }
  }

  lemma SingleSpacedSlice(s: string, a: nat, b: nat)
    requires a <= b <= |s| && SingleSpaced(s)
    ensures SingleSpaced(s[a..b])
  {
    var t := s[a..b];
    forall i | 0 <= i < |t| && IsSpace(t[i]) ensures t[i] == ' ' && (i + 1 == |t| || !IsSpace(t[i + 1])) {
      assert t[i] == s[a + i];
      if i + 1 < |t| { assert t[i + 1] == s[a + i + 1]; }
    }
  }

  lemma {:induction false} CollapseIdentity(s: string)
    requires SingleSpaced(s)
    ensures CollapseWs(s) == s
    decreases |s|
  {
    if s != [] {
      SingleSpacedSlice(s, 1, |s|);
      CollapseIdentity(s[1..]);
      if IsSpace(s[0]) {
        assert SpaceRun(s) == 1;
      }
      assert [s[0]] + s[1..] == s;
    }
  }

  lemma TokAppendSpace(x: string, c: char)
    requires IsSpace(c)
    ensures Tok(x + [c]) == Tok(x)
  {
    if x != [] && !IsSpace(x[0]) {
      assert (x + [c])[1..] == x[1..] + [c];
      TokAppendSpace(x[1..], c);
    }
  }

  lemma NoUrlDropSpace(s: string)
    requires s != [] && IsSpace(s[|s| - 1]) && NoUrl(s)
    ensures NoUrl(s[..|s| - 1])
  {
    var t := s[..|s| - 1];
    forall i | 0 <= i < |t| ensures !UrlAt(t[i..]) {
      DropLastSuffix(s, i);
      TokAppendSpace(t[i..], s[|s| - 1]);
    }
  }

  lemma DropLastSuffix(s: string, i: nat)
    requires i < |s|
    ensures s[i..] == s[..|s| - 1][i..] + [s[|s| - 1]]
  {
  }

  lemma {:induction false} TrimEndNoUrl(s: string)
    requires NoUrl(s)
    ensures NoUrl(TrimEnd(s))
    decreases |s|
  {
    if s != [] && IsSpace(s[|s| - 1]) {
      NoUrlDropSpace(s);
      TrimEndNoUrl(s[..|s| - 1]);
    }
  }

  /** `strip` keeps a contiguous slice, starting after the leading whitespace. */
  lemma StripSlice(c: string) returns (k: nat)
    ensures k == |c| - |TrimStart(c)|
    ensures k + |Strip(c)| <= |c|
    ensures Strip(c) == c[k..k + |Strip(c)|]
  {
    var t := TrimStart(c);
    TrimStartSuffix(c);
    k := |c| - |t|;
    var r := TrimEnd(t);
    assert Strip(c) == r;
    assert r == t[..|r|];
    assert t[..|r|] == c[k..k + |r|];
  }

  /** What `strip` cuts off at either end is whitespace. */
  lemma StripCuts(c: string, k: nat)
    requires k == |c| - |TrimStart(c)| && k + |Strip(c)| <= |c|
    ensures forall i :: 0 <= i < k ==> IsSpace(c[i])
    ensures forall i :: k + |Strip(c)| <= i < |c| ==> IsSpace(c[i])
  {
    var t := TrimStart(c);
    TrimStartSuffix(c);
    var r := TrimEnd(t);
    assert Strip(c) == r;
    forall i | k + |r| <= i < |c| ensures IsSpace(c[i]) {
      assert c[i] == t[i - k];
    }
  }

  /** Stripping keeps the URL, U+200B and single-space facts. */
  lemma StripKeeps(c: string)
    ensures NoUrl(c) ==> NoUrl(Strip(c))
    ensures NoZwsp(c) ==> NoZwsp(Strip(c))
    ensures SingleSpaced(c) ==> SingleSpaced(Strip(c))
  {
    if NoUrl(c) { StripNoUrl(c); }
    if SingleSpaced(c) { StripSingleSpaced(c); }
    if NoZwsp(c) { StripNoZwsp(c); }
  }

  lemma StripNoUrl(c: string)
    requires NoUrl(c)
    ensures NoUrl(Strip(c))
  {
    var t := TrimStart(c);
    TrimStartSuffix(c);
    NoUrlSuffix(c, |c| - |t|);
    TrimEndNoUrl(t);
  }

  lemma StripSingleSpaced(c: string)
    requires SingleSpaced(c)
    ensures SingleSpaced(Strip(c))
  {
    var k := StripSlice(c);
    SingleSpacedSlice(c, k, k + |Strip(c)|);
  }

  lemma StripNoZwsp(c: string)
    requires NoZwsp(c)
    ensures NoZwsp(Strip(c))
  {
    var k := StripSlice(c);
    var r := Strip(c);
    forall i | 0 <= i < |r| ensures r[i] != ZeroWidthSpace {
      assert r[i] == c[k + i];
    }
  }

  lemma StripIdentity(s: string)
    requires Trimmed(s)
    ensures Strip(s) == s
  {
  }

  // ---------------------------------------------------------------------------
  // Properties of clean_text
  // ---------------------------------------------------------------------------

  /** Cleaning cleaned text changes nothing. */
  lemma CleanTextIdempotent(s: string)
    ensures CleanText(CleanText(s)) == CleanText(s)
  {
    var r := CleanText(s);
    CleanTextNormalizes(s);
    StripUrlsIdentity(r);
    ReplaceIdentity(r);
    CollapseIdentity(r);
    StripIdentity(r);
  }

  /** The visible characters of a text: all but whitespace and U+200B, in order. */
  function Visible(s: string): string {
    if s == [] then []
    else if IsSpace(s[0]) || s[0] == ZeroWidthSpace then Visible(s[1..])
    else [s[0]] + Visible(s[1..])
  }

  lemma {:induction false} VisibleAppend(a: string, b: string)
    ensures Visible(a + b) == Visible(a) + Visible(b)
  {
    if a != [] {
      assert (a + b)[0] == a[0] && (a + b)[1..] == a[1..] + b;
      VisibleAppend(a[1..], b);
    } else {
      assert a + b == b;
    }
  }

  lemma {:induction false} VisibleReplace(s: string)
    ensures Visible(ReplaceZwsp(s)) == Visible(s)
  {
    if s != [] {
      VisibleReplace(s[1..]);
      assert ReplaceZwsp(s)[1..] == ReplaceZwsp(s[1..]);
    }
  }

  lemma {:induction false} VisibleSkip(s: string, k: nat)
    requires k <= |s|
    requires forall i :: 0 <= i < k ==> IsSpace(s[i])
    ensures Visible(s[k..]) == Visible(s)
  {
    if k > 0 {
      VisibleSkip(s[1..], k - 1);
      assert s[1..][k - 1..] == s[k..];
    }
  }

  lemma {:induction false} VisibleCollapse(s: string)
    ensures Visible(CollapseWs(s)) == Visible(s)
    decreases |s|
  {
    if s != [] {
      if IsSpace(s[0]) {
        var k := SpaceRun(s);
        VisibleCollapse(s[k..]);
        VisibleSkip(s, k);
        assert ([' '] + CollapseWs(s[k..]))[1..] == CollapseWs(s[k..]);
      } else {
        VisibleCollapse(s[1..]);
        assert ([s[0]] + CollapseWs(s[1..]))[1..] == CollapseWs(s[1..]);
      }
    }
  }

  lemma {:induction false} VisibleSpaces(s: string)
    requires forall i :: 0 <= i < |s| ==> IsSpace(s[i])
    ensures Visible(s) == []
  {
    if s != [] {
      assert IsSpace(s[0]);
      VisibleSpaces(s[1..]);
    }
  }

  lemma SplitAround(s: string, a: nat, b: nat)
    requires a <= b <= |s|
    ensures s == s[..a] + s[a..b] + s[b..]
  {
  }

  lemma SpacesFrom(s: string, a: nat)
    requires a <= |s|
    requires forall i :: a <= i < |s| ==> IsSpace(s[i])
    ensures forall i :: 0 <= i < |s[a..]| ==> IsSpace(s[a..][i])
  {
  }

  lemma VisibleStrip(s: string)
    ensures Visible(Strip(s)) == Visible(s)
  {
    var k := StripSlice(s);
    StripCuts(s, k);
    var r := Strip(s);
    var m := k + |r|;
    SplitAround(s, k, m);
    VisibleAppend(s[..k] + s[k..m], s[m..]);
    VisibleAppend(s[..k], s[k..m]);
    VisibleSpaces(s[..k]);
    SpacesFrom(s, m);
    VisibleSpaces(s[m..]);
  }

  /**
   * Apart from the deleted URL tokens, `clean_text` only rewrites whitespace:
   * every other character (cashtags like `$AAPL` included) is kept, in order.
   */
  lemma CleanTextKeepsVisible(s: string)
    ensures Visible(CleanText(s)) == Visible(StripUrls(s))
    ensures NoUrl(s) ==> Visible(CleanText(s)) == Visible(s)
  {
    var u := StripUrls(s);
    var z := ReplaceZwsp(u);
    var c := CollapseWs(z);
    VisibleStrip(c);
    VisibleCollapse(z);
    VisibleReplace(u);
    if NoUrl(s) { StripUrlsIdentity(s); }
  }

  // ---------------------------------------------------------------------------
  // ensure_ticker
  // ---------------------------------------------------------------------------

  /** `upper()` on one character, ASCII letters only. */
  function UpperChar(c: char): char {
    if 'a' <= c <= 'z' then (c as int - 32) as char else c
  }

  /** `s.upper()`, ASCII letters only. */
  function Upper(s: string): (r: string)
    ensures |r| == |s|
    ensures forall i :: 0 <= i < |s| ==> r[i] == UpperChar(s[i])
  {
    if s == [] then [] else [UpperChar(s[0])] + Upper(s[1..])
  }

  /** The character class `[A-Z0-9.-]` that `ensure_ticker` keeps. */
  predicate IsTickerChar(c: char) {
    ('A' <= c <= 'Z') || ('0' <= c <= '9') || c == '.' || c == '-'
  }

  /** `re.sub(r"[^A-Z0-9\.\-]", "", s)`. */
  function KeepTickerChars(s: string): (r: string)
    ensures |r| <= |s|
    ensures forall i :: 0 <= i < |r| ==> IsTickerChar(r[i])
  {
    if s == [] then []
    else if IsTickerChar(s[0]) then [s[0]] + KeepTickerChars(s[1..])
    else KeepTickerChars(s[1..])
  }

  /** `ensure_ticker`: strip, upper-case, keep only `[A-Z0-9.-]`. */
  function EnsureTicker(ticker: Option<string>): (r: string)
    ensures forall i :: 0 <= i < |r| ==> IsTickerChar(r[i])
  {
    KeepTickerChars(Upper(Strip(ticker.GetOr(""))))
  }

  /** The characters that survive `ensure_ticker`, in either case: letters, digits, `.` and `-`. */
  function TickerCharsAnyCase(s: string): string {
    if s == [] then []
    else if IsTickerChar(UpperChar(s[0])) then [s[0]] + TickerCharsAnyCase(s[1..])
    else TickerCharsAnyCase(s[1..])
  }

  lemma {:induction false} KeepUpper(s: string)
    ensures KeepTickerChars(Upper(s)) == Upper(TickerCharsAnyCase(s))
  {
    if s != [] {
      KeepUpper(s[1..]);
      assert Upper(s)[1..] == Upper(s[1..]);
      if IsTickerChar(UpperChar(s[0])) {
        assert Upper([s[0]] + TickerCharsAnyCase(s[1..]))[1..] == Upper(TickerCharsAnyCase(s[1..]));
      }
    }
  }

  lemma {:induction false} AnyCaseAppend(a: string, b: string)
    ensures TickerCharsAnyCase(a + b) == TickerCharsAnyCase(a) + TickerCharsAnyCase(b)
  {
    if a != [] {
      assert (a + b)[0] == a[0] && (a + b)[1..] == a[1..] + b;
      AnyCaseAppend(a[1..], b);
    } else {
      assert a + b == b;
    }
  }

  lemma {:induction false} AnyCaseSpaces(s: string)
    requires forall i :: 0 <= i < |s| ==> IsSpace(s[i])
    ensures TickerCharsAnyCase(s) == []
  {
    if s != [] {
      assert IsSpace(s[0]);
      AnyCaseSpaces(s[1..]);
    }
  }

  lemma AnyCaseStrip(s: string)
    ensures TickerCharsAnyCase(Strip(s)) == TickerCharsAnyCase(s)
  {
    var k := StripSlice(s);
    StripCuts(s, k);
    var m := k + |Strip(s)|;
    var head, mid, tail := s[..k], s[k..m], s[m..];
    assert mid == Strip(s);
    SplitAround(s, k, m);
    SpacesFrom(s, m);
    AnyCaseSpaces(head);
    AnyCaseSpaces(tail);
    calc {
      TickerCharsAnyCase(s);
      TickerCharsAnyCase(head + mid + tail);
      { AnyCaseAppend(head + mid, tail); }
      TickerCharsAnyCase(head + mid) + TickerCharsAnyCase(tail);
      { AnyCaseAppend(head, mid); }
      TickerCharsAnyCase(head) + TickerCharsAnyCase(mid) + TickerCharsAnyCase(tail);
      TickerCharsAnyCase(mid);
    }
  }

  /**
   * `ensure_ticker` keeps exactly the letters, digits, dots and dashes of its input,
   * in order, upper-casing the lowercase letters.
   */
  lemma EnsureTickerKeeps(t: string)
    ensures EnsureTicker(Some(t)) == Upper(TickerCharsAnyCase(t))
  {
    KeepUpper(Strip(t));
    AnyCaseStrip(t);
  }

  /** A missing or blank ticker becomes "". */
  lemma EnsureTickerBlank(ticker: Option<string>)
    requires ticker.None? || forall i :: 0 <= i < |ticker.value| ==> IsSpace(ticker.value[i])
    ensures EnsureTicker(ticker) == ""
  {
    if ticker.Some? {
      EnsureTickerKeeps(ticker.value);
      AnyCaseSpaces(ticker.value);
    }
  }

  lemma {:induction false} AnyCaseOfTickerChars(s: string)
    requires forall i :: 0 <= i < |s| ==> IsTickerChar(s[i])
    ensures TickerCharsAnyCase(s) == s
  {
    if s != [] {
      assert UpperChar(s[0]) == s[0];
      AnyCaseOfTickerChars(s[1..]);
      assert [s[0]] + s[1..] == s;
    }
  }

  lemma {:induction false} UpperOfTickerChars(s: string)
    requires forall i :: 0 <= i < |s| ==> IsTickerChar(s[i])
    ensures Upper(s) == s
  {
    assert forall i :: 0 <= i < |s| ==> Upper(s)[i] == s[i];
  }

  /** `ensure_ticker(ensure_ticker(t)) == ensure_ticker(t)`. */
  lemma EnsureTickerIdempotent(ticker: Option<string>)
    ensures EnsureTicker(Some(EnsureTicker(ticker))) == EnsureTicker(ticker)
  {
    var r := EnsureTicker(ticker);
    EnsureTickerKeeps(r);
    AnyCaseOfTickerChars(r);
    UpperOfTickerChars(r);
  }

  // ---------------------------------------------------------------------------
  // Other Python primitives used by the adapters
  // ---------------------------------------------------------------------------

  /** An optional text that `x and x.strip()` treats as true. */
  predicate NonBlank(s: Option<string>) {
    s.Some? && Strip(s.value) != ""
  }

  /** Python's `s[:n]`, including a negative `n` counted from the end. */
  function SliceTo<T>(s: seq<T>, n: int): (r: seq<T>)
    ensures r <= s
    ensures n >= 0 ==> |r| == Min(n, |s|)
    ensures n < 0 ==> |r| == Max(0, |s| + n)
  {
    if n >= 0 then (if n <= |s| then s[..n] else s)
    else if |s| + n > 0 then s[..|s| + n]
    else []
  }

  function DigitChar(d: nat): char
    requires d < 10
  {
    ('0' as int + d) as char
  }

  /** `str(n)` for a natural number. */
  function NatToString(n: nat): (s: string)
    ensures |s| >= 1
    ensures forall i :: 0 <= i < |s| ==> '0' <= s[i] <= '9'
  {
    if n < 10 then [DigitChar(n)] else NatToString(n / 10) + [DigitChar(n % 10)]
  }

  /** `str(i)` for an integer. */
  function IntToString(i: int): string {
    if i < 0 then "-" + NatToString(-i) else NatToString(i)
  }

  /** `s` occurs somewhere inside `text`. */
  predicate Contains(text: string, s: string) {
    exists k :: 0 <= k <= |text| && s <= text[k..]
  }

  lemma {:induction false} InfixContains(a: string, s: string, b: string)
    ensures Contains(a + s + b, s)
  {
    var text := a + s + b;
    assert text[|a|..] == s + b;
  }

  // ---------------------------------------------------------------------------
  // RateLimiter
  // ---------------------------------------------------------------------------

  /** The wall clock read by `time.time()`, in seconds; `time.sleep` advances it. */
  class Clock {
    var now: real

    constructor (start: real)
      ensures now == start
    {
      now := start;
    }

    /** `time.sleep(seconds)`; Python raises on a negative argument, so it is excluded. */
    method Sleep(seconds: real)
      requires seconds >= 0.0
      modifies this
      ensures now == old(now) + seconds
    {
      now := now + seconds;
    }
  }

  /** Minimal per-source throttle: at least `minIntervalSeconds` between two `Wait`s. */
  class RateLimiter {
    const minIntervalSeconds: real
    var lastTs: real

    constructor (minIntervalSeconds: real)
      ensures this.minIntervalSeconds == minIntervalSeconds && lastTs == 0.0
    {
      this.minIntervalSeconds := minIntervalSeconds;
      lastTs := 0.0;
    }

    /**
     * `wait()`: sleeps only when less than the interval has elapsed since the last
     * call, and then for exactly the shortfall; afterwards the last timestamp is the clock.
     */
    method Wait(clock: Clock)
      modifies this, clock
      ensures old(clock.now) - old(lastTs) < minIntervalSeconds ==>
        clock.now == old(clock.now) + (minIntervalSeconds - (old(clock.now) - old(lastTs)))
      ensures old(clock.now) - old(lastTs) >= minIntervalSeconds ==> clock.now == old(clock.now)
      ensures lastTs == clock.now && clock.now >= old(clock.now)
      ensures lastTs >= old(lastTs) + minIntervalSeconds
    {
      var now := clock.now;
      var elapsed := now - lastTs;
      if elapsed < minIntervalSeconds {
        clock.Sleep(minIntervalSeconds - elapsed);
      }
      lastTs := clock.now;
    }
  }
}
