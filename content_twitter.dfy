/**
 * The X / Twitter content script (`src/content/twitter.ts`): its status-link
 * normaliser, the readiness answer and its short-lived cache, toast
 * messages from the background, the link each tweet stands for, and which
 * buttons a scan of the timeline leaves.
 */
module TwitterContent {
  import opened Wrappers
  import opened Text
  import opened Json
  import opened Url
  import opened Normalize

  /** `AUTH_STATUS_CACHE_MS`. */
  const AuthStatusCacheMs := 1500

  // ---------------------------------------------------------------------
  // Status links
  // ---------------------------------------------------------------------

  /**
   * `normalizeTwitterStatusUrl` of the content script: the link is parsed
   * against `base` as it is, then read as the library reads a parsed link.
   */
  function NormalizeStatusLink(c: Codec, raw: string, base: Option<string>): (r: Option<string>)
    ensures r.Some? <==> c.parse(raw, base).Some? && TwitterPath(c.parse(raw, base).value).Some?
    ensures r.Some? ==>
      IsTwitterHost(Lower(c.parse(raw, base).value.hostname))
      && StartsWith(r.value, Origin(c.parse(raw, base).value) + "/")
  {
    match c.parse(raw, base)
    case None => None
    case Some(u) =>
      TwitterKeepsOrigin(u);
      TwitterOf(u)
  }

  /** For a link without surrounding blanks, the content normaliser gives what the library normaliser gives. */
  lemma AgreesWithLibrary(c: Codec, raw: string, base: Option<string>)
    requires Trim(raw) == raw
    ensures NormalizeStatusLink(c, raw, base) == NormalizeTwitter(c, raw, base)
  {
  }

  /**
   * `resolveTweetStatusUrl` as a specification: the first anchor whose
   * `href` contains `/status/` and normalises against the page origin,
   * else the page's own link.
   */
  function TweetStatusLink(c: Codec, hrefs: seq<string>, origin: string, pageHref: string): (r: Option<string>)
    decreases |hrefs|
  {
    if hrefs == [] then NormalizeStatusLink(c, pageHref, Some(origin))
    else if Contains(hrefs[0], "/status/") && NormalizeStatusLink(c, hrefs[0], Some(origin)).Some? then
      NormalizeStatusLink(c, hrefs[0], Some(origin))
    else TweetStatusLink(c, hrefs[1..], origin, pageHref)
  }

  /** An anchor `resolveTweetStatusUrl` takes: it is selected, and it normalises. */
  predicate TakesAnchor(c: Codec, href: string, origin: string)
  {
    Contains(href, "/status/") && NormalizeStatusLink(c, href, Some(origin)).Some?
  }

  /**
   * The link of a tweet is that of its first usable anchor, and the page's
   * link when it has none.
   */
  lemma {:induction false} TweetStatusLinkIsFirst(c: Codec, hrefs: seq<string>, origin: string, pageHref: string, k: nat)
    requires k <= |hrefs|
    requires forall j :: 0 <= j < k ==> !TakesAnchor(c, hrefs[j], origin)
    requires k == |hrefs| || TakesAnchor(c, hrefs[k], origin)
    ensures TweetStatusLink(c, hrefs, origin, pageHref) ==
      if k == |hrefs| then NormalizeStatusLink(c, pageHref, Some(origin))
      else NormalizeStatusLink(c, hrefs[k], Some(origin))
    decreases k
  {
    if k > 0 {
      assert !TakesAnchor(c, hrefs[0], origin);
      assert forall j :: 0 <= j < k - 1 ==> hrefs[1..][j] == hrefs[j + 1];
      TweetStatusLinkIsFirst(c, hrefs[1..], origin, pageHref, k - 1);
    }
  }

  /** `resolveTweetStatusUrl`: the loop over the tweet's status anchors, returning at the first that normalises. */
  method ResolveTweetStatusLink(c: Codec, hrefs: seq<string>, origin: string, pageHref: string) returns (r: Option<string>)
    ensures r == TweetStatusLink(c, hrefs, origin, pageHref)
  {
    var i := 0;
    while i < |hrefs|
      invariant 0 <= i <= |hrefs|
      invariant TweetStatusLink(c, hrefs[i..], origin, pageHref) == TweetStatusLink(c, hrefs, origin, pageHref)
    {
      if Contains(hrefs[i], "/status/") {
        var normalized := NormalizeStatusLink(c, hrefs[i], Some(origin));
        if normalized.Some? {
          return normalized;
        }
      }
      assert hrefs[i..][1..] == hrefs[i + 1..];
      i := i + 1;
    }
    r := NormalizeStatusLink(c, pageHref, Some(origin));
  }

  /** On a status page every tweet has a link: its own, or the page's. */
  lemma {:induction false} StatusPageGivesEveryTweetALink(c: Codec, hrefs: seq<string>, origin: string, pageHref: string)
    requires NormalizeStatusLink(c, pageHref, Some(origin)).Some?
    ensures TweetStatusLink(c, hrefs, origin, pageHref).Some?
    decreases |hrefs|
  {
    if hrefs != [] {
      StatusPageGivesEveryTweetALink(c, hrefs[1..], origin, pageHref);
    }
  }

  // ---------------------------------------------------------------------
  // Readiness and its cache
  // ---------------------------------------------------------------------

  /** `isAuthStateResponse`: a record whose `ok` and `hasSettings` are booleans. */
  predicate IsAuthStateResponse(v: Value): (b: bool)
    ensures b ==> v.Obj? && "ok" in v.fields && "hasSettings" in v.fields
  {
    IsRecord(v) && Get(v, "ok").Bool? && Get(v, "hasSettings").Bool?
  }

  /** `isAuthStateResponse(response) && response.ok && response.hasSettings`. */
  predicate IsReady(v: Value)
  {
    IsAuthStateResponse(v) && Get(v, "ok").b && Get(v, "hasSettings").b
  }

  /** The extension is ready exactly when the answer is an object whose `ok` and `hasSettings` are `true`. */
  lemma ReadyIff(v: Value)
    ensures IsReady(v) <==> v.Obj? && Get(v, "ok") == Bool(true) && Get(v, "hasSettings") == Bool(true)
  {
  }

  /** The module state `authStateKnown`, `authStateHasSettings` and `authStateCheckedAt`. */
  class AuthCache {
    var known: bool
    var hasSettings: bool
    var checkedAt: int

    constructor ()
      ensures !known && !hasSettings && checkedAt == 0
    {
      known := false;
      hasSettings := false;
      checkedAt := 0;
    }

    /** The cached answer may be used at `now`. */
    predicate Fresh(now: int)
      reads this
    {
      known && now - checkedAt < AuthStatusCacheMs
    }

    /**
     * `hasExtensionAuth`: the cached answer while it is fresh; otherwise
     * false without a runtime, else the background's answer (None when the
     * message failed), received at `replyAt`. Each fresh answer is cached.
     */
    method HasExtensionAuth(now: int, runtimeAvailable: bool, reply: Option<Value>, replyAt: int) returns (ready: bool)
      modifies this
      ensures old(Fresh(now)) ==>
        ready == old(hasSettings) && known == old(known) && hasSettings == old(hasSettings) && checkedAt == old(checkedAt)
      ensures !old(Fresh(now)) && !runtimeAvailable ==> !ready && known && !hasSettings && checkedAt == now
      ensures !old(Fresh(now)) && runtimeAvailable ==>
        ready == (reply.Some? && IsReady(reply.value)) && known && hasSettings == ready && checkedAt == replyAt
    {
      if known && now - checkedAt < AuthStatusCacheMs {
        return hasSettings;
      }
      if !runtimeAvailable {
        known := true;
        hasSettings := false;
        checkedAt := now;
        return false;
      }
      if reply.Some? {
        ready := IsReady(reply.value);
      } else {
        ready := false;
      }
      known := true;
      hasSettings := ready;
      checkedAt := replyAt;
    }
  }

  // ---------------------------------------------------------------------
  // Toasts
  // ---------------------------------------------------------------------

  /** `ToastLevel`. */
  datatype ToastLevel = Success | Info | Error

  /** `'success'` and `'info'` are kept; anything else shows as an error. */
  function ToastLevelOf(level: Value): (r: ToastLevel)
    ensures r == Success <==> level == Str("success")
    ensures r == Info <==> level == Str("info")
  {
    if level == Str("success") then Success else if level == Str("info") then Info else Error
  }

  /**
   * The toast the runtime listener shows for a message: one of type
   * `lce/show-toast` whose `message` is a string that is not blank; the
   * text is shown as it came.
   */
  function ToastFor(message: Value): (r: Option<(ToastLevel, string)>)
    ensures r.Some? <==>
      Get(message, "type") == Str("lce/show-toast") && Get(message, "message").Str?
      && Trim(Get(message, "message").s) != ""
    ensures r.Some? ==>
      r.value.1 == Get(message, "message").s && r.value.1 != ""
      && r.value.0 == ToastLevelOf(Get(message, "level"))
  {
    if !Truthy(message) || !IsRecord(message) || Get(message, "type") != Str("lce/show-toast") then None
    else
      var m := Get(message, "message");
      if !m.Str? || Trim(m.s) == "" then None
      else
        assert m.s != "";
        Some((ToastLevelOf(Get(message, "level")), m.s))
  }

  /** Renaming the level never changes whether a toast is shown, nor its text. */
  lemma ToastLevelIrrelevantToShowing(message: Value, level: Value)
    requires message.Obj?
    ensures var other := Obj(message.fields["level" := level]);
      ToastFor(other).Some? == ToastFor(message).Some?
      && (ToastFor(other).Some? ==> ToastFor(other).value.1 == ToastFor(message).value.1)
  {
    var other := Obj(message.fields["level" := level]);
    assert Get(other, "type") == Get(message, "type");
    assert Get(other, "message") == Get(message, "message");
  }

  // ---------------------------------------------------------------------
  // Buttons after a scan
  // ---------------------------------------------------------------------

  /** What a scan sees of a tweet: whether it has an action bar, and the `href`s of its anchors. */
  datatype Tweet = Tweet(hasActionGroup: bool, hrefs: seq<string>)

  /** The buttons a scan leaves: an inline one per tweet, with its link, and the floating one. */
  datatype TweetButtons = TweetButtons(inline: seq<(nat, string)>, floating: Option<string>)

  /** `upsertTweetButton`: a tweet gets a button with its link when it has an action bar and a link. */
  function InlineTarget(c: Codec, t: Tweet, origin: string, pageHref: string): Option<string>
  {
    if t.hasActionGroup then TweetStatusLink(c, t.hrefs, origin, pageHref) else None
  }

  /** The inline buttons of a scan, for every tweet in order. */
  function InlineButtons(c: Codec, tweets: seq<Tweet>, origin: string, pageHref: string): (r: seq<(nat, string)>)
    ensures |r| <= |tweets|
  {
    if tweets == [] then []
    else
      var k := |tweets| - 1;
      var t := InlineTarget(c, tweets[k], origin, pageHref);
      InlineButtons(c, tweets[..k], origin, pageHref) + (if t.Some? then [(k, t.value)] else [])
  }

  /** The first link of the scan: the page's, else the first tweet's. */
  function FirstStatusLink(c: Codec, tweets: seq<Tweet>, origin: string, pageHref: string): Option<string>
  {
    if tweets == [] then NormalizeStatusLink(c, pageHref, Some(origin))
    else
      var k := |tweets| - 1;
      var first := FirstStatusLink(c, tweets[..k], origin, pageHref);
      if first.None? then TweetStatusLink(c, tweets[k].hrefs, origin, pageHref) else first
  }

  /** A tweet gets an inline button exactly when it has an action bar and a link, and the button carries that link. */
  lemma {:induction false} InlineButtonsIff(c: Codec, tweets: seq<Tweet>, origin: string, pageHref: string, k: nat, url: string)
    ensures (k, url) in InlineButtons(c, tweets, origin, pageHref) <==>
      k < |tweets| && tweets[k].hasActionGroup && TweetStatusLink(c, tweets[k].hrefs, origin, pageHref) == Some(url)
    decreases |tweets|
  {
    if tweets != [] {
      var last := |tweets| - 1;
      var init := tweets[..last];
      var target := InlineTarget(c, tweets[last], origin, pageHref);
      var tail := if target.Some? then [(last, target.value)] else [];
      assert InlineButtons(c, tweets, origin, pageHref) == InlineButtons(c, init, origin, pageHref) + tail;
      InlineButtonsIff(c, init, origin, pageHref, k, url);
      if k < last {
        assert init[k] == tweets[k];
      }
    }
  }

  /**
   * `scanTweets`: nothing when the extension is not ready; otherwise an
   * inline button per tweet, and the floating button, with the first link
   * of the scan, only when no inline button was placed.
   */
  method ScanTweets(c: Codec, ready: bool, tweets: seq<Tweet>, origin: string, pageHref: string) returns (r: TweetButtons)
    ensures !ready ==> r == TweetButtons([], None)
    ensures ready ==> r.inline == InlineButtons(c, tweets, origin, pageHref)
    ensures ready ==>
      r.floating == (if r.inline == [] then FirstStatusLink(c, tweets, origin, pageHref) else None)
  {
    if !ready {
      return TweetButtons([], None);
    }
    var firstStatusUrl := NormalizeStatusLink(c, pageHref, Some(origin));
    var inline: seq<(nat, string)> := [];
    var hasInlineButton := false;
    var i := 0;
    while i < |tweets|
      invariant 0 <= i <= |tweets|
      invariant inline == InlineButtons(c, tweets[..i], origin, pageHref)
      invariant firstStatusUrl == FirstStatusLink(c, tweets[..i], origin, pageHref)
      invariant hasInlineButton <==> inline != []
    {
      ScanStep(c, tweets, i, origin, pageHref);
      var statusUrl := ResolveTweetStatusLink(c, tweets[i].hrefs, origin, pageHref);
      if firstStatusUrl.None? && statusUrl.Some? {
        firstStatusUrl := statusUrl;
      }
      if tweets[i].hasActionGroup && statusUrl.Some? {
        inline := inline + [(i, statusUrl.value)];
        hasInlineButton := true;
      }
      i := i + 1;
    }
    assert tweets[..|tweets|] == tweets;
    if !hasInlineButton && firstStatusUrl.Some? {
      return TweetButtons(inline, firstStatusUrl);
    }
    r := TweetButtons(inline, None);
  }

  /** One more tweet scanned: its inline button, if any, comes last, and it supplies the first link when none was found. */
  lemma ScanStep(c: Codec, tweets: seq<Tweet>, i: nat, origin: string, pageHref: string)
    requires i < |tweets|
    ensures var target := InlineTarget(c, tweets[i], origin, pageHref);
      InlineButtons(c, tweets[..i + 1], origin, pageHref)
      == InlineButtons(c, tweets[..i], origin, pageHref) + (if target.Some? then [(i, target.value)] else [])
    ensures var first := FirstStatusLink(c, tweets[..i], origin, pageHref);
      FirstStatusLink(c, tweets[..i + 1], origin, pageHref)
      == if first.None? then TweetStatusLink(c, tweets[i].hrefs, origin, pageHref) else first
  {
    assert tweets[..i + 1][..i] == tweets[..i];
  }

  /** The floating button is shown only when no tweet got an inline one; the two never coexist. */
  lemma FloatingExcludesInline(c: Codec, tweets: seq<Tweet>, origin: string, pageHref: string, k: nat)
    requires k < |tweets| && tweets[k].hasActionGroup && TweetStatusLink(c, tweets[k].hrefs, origin, pageHref).Some?
    ensures InlineButtons(c, tweets, origin, pageHref) != []
  {
    InlineButtonsIff(c, tweets, origin, pageHref, k, TweetStatusLink(c, tweets[k].hrefs, origin, pageHref).value);
  }

  /** On a status page the first link of a scan is the page's own. */
  lemma {:induction false} FirstStatusLinkOnStatusPage(c: Codec, tweets: seq<Tweet>, origin: string, pageHref: string)
    requires NormalizeStatusLink(c, pageHref, Some(origin)).Some?
    ensures FirstStatusLink(c, tweets, origin, pageHref) == NormalizeStatusLink(c, pageHref, Some(origin))
    decreases |tweets|
  {
    if tweets != [] {
      FirstStatusLinkOnStatusPage(c, tweets[..|tweets| - 1], origin, pageHref);
    }
  }
}
