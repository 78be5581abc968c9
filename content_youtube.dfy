/**
 * The YouTube content script (`src/content/youtube.ts`): its own link
 * normaliser, the clamp it uses to place buttons, and which button a scan
 * of the page leaves.
 */
module YoutubeContent {
  import opened Wrappers
  import opened Text
  import opened Url
  import opened Normalize

  /** The text a youtu.be id is written after, as it is, without encoding. */
  const ShortLinkPrefix := "https://www.youtube.com/watch?v="

  /** The id a youtu.be link carries: its path without the leading '/', trimmed. */
  function ShortLinkId(u: Url): string
  {
    Trim(DropLeadingSlash(u.pathname))
  }

  /**
   * `normalizeYoutubeUrl` of the content script: the link is parsed as it
   * is, with no base; a youtu.be id is interpolated into the watch link,
   * and every other host is handled as the library normaliser does.
   */
  function NormalizeWatchLink(c: Codec, raw: string): (r: Option<string>)
    ensures r.Some? ==> c.parse(raw, None).Some? && IsYoutubeHost(Lower(c.parse(raw, None).value.hostname))
    ensures r.Some? && Lower(c.parse(raw, None).value.hostname) == "youtu.be" ==>
      r.value == ShortLinkPrefix + ShortLinkId(c.parse(raw, None).value) && ShortLinkId(c.parse(raw, None).value) != ""
  {
    match c.parse(raw, None)
    case None => None
    case Some(u) =>
      if Lower(u.hostname) == "youtu.be" then
        var id := ShortLinkId(u);
        if id == "" then None else Some(ShortLinkPrefix + id)
      else HrefOf(YoutubeUrlOf(c, u))
  }

  /**
   * On every host but youtu.be, and for a link without surrounding blanks,
   * the content normaliser gives what the library normaliser gives.
   */
  lemma AgreesWithLibrary(c: Codec, raw: string, u: Url)
    requires Trim(raw) == raw && c.parse(raw, None) == Some(u) && Lower(u.hostname) != "youtu.be"
    ensures NormalizeWatchLink(c, raw) == NormalizeYoutube(c, raw, None)
  {
  }

  /** `a + x == a + y` exactly when `x == y`. */
  lemma PrefixCancel(a: string, x: string, y: string)
    ensures a + x == a + y <==> x == y
  {
    if a + x == a + y {
      assert (a + x)[|a|..] == x && (a + y)[|a|..] == y;
    }
  }

  /** The `href` of the canonical watch URL: its fixed text, then the serialised query. */
  lemma WatchHref(c: Codec, ps: seq<Param>)
    ensures Href(WatchUrl(c, ps)) == "https://www.youtube.com/watch" + WatchUrl(c, ps).search
  {
    var w := WatchUrl(c, ps);
    HrefWithoutExtras(w);
    WatchPrefixText();
  }

  /** The `href` of a URL with a host and no credentials, port or fragment. */
  lemma HrefWithoutExtras(u: Url)
    requires u.hasHost && u.credentials == "" && u.port == "" && u.hash == ""
    ensures Href(u) == u.protocol + "//" + u.hostname + u.pathname + u.search
  {
    assert Host(u) == u.hostname;
    assert "//" + u.credentials + Host(u) == "//" + u.hostname;
  }

  lemma WatchPrefixText()
    ensures "https:" + "//" + "www.youtube.com" + "/watch" == "https://www.youtube.com/watch"
  {
  }

  /**
   * For a youtu.be link the two normalisers agree exactly when the query
   * serializer writes the id as it is: the content script interpolates it,
   * the library sets it as the `v` parameter.
   */
  lemma ShortLinkMatchesLibraryIff(c: Codec, raw: string, u: Url)
    requires Trim(raw) == raw && c.parse(raw, None) == Some(u) && Lower(u.hostname) == "youtu.be"
    requires ShortLinkId(u) != ""
    ensures NormalizeWatchLink(c, raw) == Some(ShortLinkPrefix + ShortLinkId(u))
    ensures NormalizeWatchLink(c, raw) == NormalizeYoutube(c, raw, None)
      <==> c.encodeQuery([Param("v", ShortLinkId(u))]) == "v=" + ShortLinkId(u)
  {
    LibraryShortLink(c, raw, u);
    InterpolatedIffEncoded(c, ShortLinkId(u));
  }

  /** What the library normaliser makes of a youtu.be link: the watch URL with the id as its `v` parameter. */
  lemma LibraryShortLink(c: Codec, raw: string, u: Url)
    requires Trim(raw) == raw && c.parse(raw, None) == Some(u) && Lower(u.hostname) == "youtu.be"
    requires ShortLinkId(u) != ""
    ensures NormalizeYoutube(c, raw, None)
      == Some("https://www.youtube.com/watch" + WatchUrl(c, [Param("v", ShortLinkId(u))]).search)
  {
    var id := ShortLinkId(u);
    WatchParamsOfId(id);
    YoutubeShortHost();
    assert YoutubeUrlOf(c, u) == Some(WatchUrl(c, [Param("v", id)]));
    WatchHref(c, [Param("v", id)]);
  }

  lemma WatchParamsOfId(id: string)
    ensures WatchParams(id, None) == [Param("v", id)]
  {
  }

  /** The interpolated link equals the watch URL built with `v` exactly when the serializer writes `v=` and the id. */
  lemma InterpolatedIffEncoded(c: Codec, id: string)
    ensures ShortLinkPrefix + id == "https://www.youtube.com/watch" + WatchUrl(c, [Param("v", id)]).search
      <==> c.encodeQuery([Param("v", id)]) == "v=" + id
  {
    var w := "https://www.youtube.com/watch";
    var ps := [Param("v", id)];
    var q := c.encodeQuery(ps);
    var search := WatchUrl(c, ps).search;
    assert ShortLinkPrefix + id == w + ("?v=" + id);
    PrefixCancel(w, "?v=" + id, search);
    if q != "" {
      assert search == "?" + q;
      assert "?v=" + id == "?" + ("v=" + id);
      PrefixCancel("?", "v=" + id, q);
    } else {
      assert search == "";
    }
  }

  lemma YoutubeShortHost()
    ensures IsYoutubeHost("youtu.be")
  {
  }

  // ---------------------------------------------------------------------
  // Placement arithmetic
  // ---------------------------------------------------------------------

  /** `Math.max` and `Math.min` on finite numbers. */
  function Max(a: real, b: real): real
  {
    if a >= b then a else b
  }

  function Min(a: real, b: real): real
  {
    if a <= b then a else b
  }

  /** `clamp(value, min, max)`: `Math.min(max, Math.max(min, value))`. */
  function Clamp(v: real, lo: real, hi: real): (r: real)
    ensures lo <= hi ==> lo <= r <= hi
    ensures lo <= v <= hi ==> r == v
    ensures lo <= hi && v < lo ==> r == lo
    ensures lo <= hi && hi < v ==> r == hi
    ensures hi < lo ==> r == hi
  {
    Min(hi, Max(lo, v))
  }

  /** Clamping twice into the same range is clamping once. */
  lemma ClampIdempotent(v: real, lo: real, hi: real)
    requires lo <= hi
    ensures Clamp(Clamp(v, lo, hi), lo, hi) == Clamp(v, lo, hi)
  {
  }

  // ---------------------------------------------------------------------
  // Buttons after a scan
  // ---------------------------------------------------------------------

  /** `ButtonVariant`. */
  datatype ButtonVariant = Watch | Shorts

  /** The variant a current link selects: shorts when it contains `/shorts/`. */
  function VariantOf(url: string): (r: ButtonVariant)
  {
    if Contains(url, "/shorts/") then Shorts else Watch
  }

  /**
   * The buttons a scan leaves, each with the link it sends: the floating
   * shorts button and the inline watch button; the floating watch button
   * and the legacy button are always removed.
   */
  datatype YoutubeButtons = YoutubeButtons(shortsFloating: Option<string>, inlineWatch: Option<string>)

  /**
   * `scanYoutubeTargets`: nothing in full screen or without a current link;
   * otherwise the button of the link's variant, the inline one only when a
   * watch container was found.
   */
  function ScanButtons(fullscreen: bool, currentUrl: Option<string>, hasWatchContainer: bool): (r: YoutubeButtons)
    ensures fullscreen || currentUrl.None? ==> r == YoutubeButtons(None, None)
    ensures r.shortsFloating.Some? <==> !fullscreen && currentUrl.Some? && VariantOf(currentUrl.value) == Shorts
    ensures r.inlineWatch.Some? <==>
      !fullscreen && currentUrl.Some? && VariantOf(currentUrl.value) == Watch && hasWatchContainer
    ensures r.shortsFloating.Some? ==> r.shortsFloating == currentUrl
    ensures r.inlineWatch.Some? ==> r.inlineWatch == currentUrl
  {
    if fullscreen || currentUrl.None? then YoutubeButtons(None, None)
    else if VariantOf(currentUrl.value) == Shorts then YoutubeButtons(Some(currentUrl.value), None)
    else if !hasWatchContainer then YoutubeButtons(None, None)
    else YoutubeButtons(None, Some(currentUrl.value))
  }

  /** A scan never leaves both buttons. */
  lemma AtMostOneButton(fullscreen: bool, currentUrl: Option<string>, hasWatchContainer: bool)
    ensures var b := ScanButtons(fullscreen, currentUrl, hasWatchContainer);
      b.shortsFloating.None? || b.inlineWatch.None?
  {
  }

  /** A canonical shorts link selects the shorts button. */
  lemma ShortsLinkSelectsShorts(id: string)
    ensures VariantOf(ShortsPrefix + id) == Shorts
  {
    var s := ShortsPrefix + id;
    assert s[23..31] == "/shorts/";
    assert OccursAt(s, "/shorts/", 23);
    ContainsFromIff(s, "/shorts/", 0);
  }

  /**
   * A youtu.be link whose id holds `/shorts/` normalises to a watch link
   * that contains `/shorts/`, so a scan on it selects the shorts button
   * although the link is a watch link.
   */
  lemma ShortLinkWithShortsSegment(c: Codec, raw: string, u: Url, id: string)
    requires c.parse(raw, None) == Some(u) && Lower(u.hostname) == "youtu.be"
    requires u.pathname == "/" + id && id != "" && Trimmed(id) && Contains(id, "/shorts/")
    ensures NormalizeWatchLink(c, raw) == Some(ShortLinkPrefix + id)
    ensures VariantOf(NormalizeWatchLink(c, raw).value) == Shorts
  {
    assert u.pathname[..1] == "/";
    assert DropLeadingSlash(u.pathname) == id;
    TrimOfTrimmed(id);
    ContainsAfter(ShortLinkPrefix, id, "/shorts/");
  }
}
