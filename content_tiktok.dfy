/**
 * The TikTok content script (`src/content/tiktok.ts`): its own, looser
 * media-link normaliser, the id it reports for the active video, the
 * throttle on those reports, the use it makes of the link the background
 * captured, the choice of link when a button is clicked, and where the
 * buttons go after a scan of the page.
 */
module TikTokContent {
  import opened Wrappers
  import opened Text
  import opened Json
  import opened Url
  import opened Normalize
  import opened Capture

  /** `ACTIVE_SYNC_HEARTBEAT_MS`. */
  const SyncHeartbeatMs := 5000

  // ---------------------------------------------------------------------
  // The content script's media-link normaliser
  // ---------------------------------------------------------------------

  /** `/^\/@([^/]+)\/(video|photo)\/(\d+)/i` on a path: a handle, then a media kind and any number of digits. */
  function MatchNamedLoose(p: string): Option<MediaMatch>
  {
    if !StartsWith(p, "/@") then None
    else
      var h := Upto(p[2..], '/');
      var i := 2 + |h|;
      if h != [] && MediaAt(p, i, 1) then Some(MediaMatch(h, MediaKindAt(p, i), DigitRun(p[i + 7..]))) else None
  }

  /** `/\/(video|photo)\/(\d+)/i` on a path: its first match anywhere, without a handle. */
  function MatchGenericLoose(p: string): Option<MediaMatch>
  {
    match FindMedia(p, 0, 1)
    case None => None
    case Some(i) => Some(MediaMatch("", MediaKindAt(p, i), DigitRun(p[i + 7..])))
  }

  /** The match the normaliser uses: the handle form at the start, else the first bare media pattern. */
  function LooseMedia(p: string): Option<MediaMatch>
  {
    MatchNamedLoose(p).OrElse(MatchGenericLoose(p))
  }

  /** The text the handle form of a match stands for: `/@handle/kind/digits`. */
  function NamedText(m: MediaMatch): string
  {
    "/@" + m.handle + "/" + m.kind + "/" + m.id
  }

  /**
   * A path the handle pattern accepts with match `m`, as a condition on the
   * path: it starts with `/@handle/kind/digits` and no digit follows.
   */
  predicate NamedLooseShape(p: string, m: MediaMatch)
  {
    m.handle != "" && Avoids(m.handle, '/') && IsMediaKind(m.kind) && |m.kind| == 5
    && m.id != "" && AllDigits(m.id)
    && StartsWith(p, NamedText(m))
    && (|NamedText(m)| < |p| ==> !IsDigit(p[|NamedText(m)|]))
  }

  /** The handle matcher accepts exactly the paths of that shape. */
  lemma {:induction false} NamedLooseIff(p: string, m: MediaMatch)
    ensures MatchNamedLoose(p) == Some(m) <==> NamedLooseShape(p, m)
  {
    if MatchNamedLoose(p) == Some(m) {
      NamedLooseSound(p, m);
    }
    if NamedLooseShape(p, m) {
      NamedLooseComplete(p, m);
    }
  }

  /** The handle matcher on a path built from its parts. */
  lemma NamedLooseOfParts(h: string, k: string, id: string, tail: string)
    requires h != "" && Avoids(h, '/') && IsMediaKind(k) && id != "" && AllDigits(id)
    requires tail == [] || !IsDigit(tail[0])
    ensures MatchNamedLoose("/@" + h + "/" + k + "/" + id + tail) == Some(MediaMatch(h, k, id))
  {
    var r := "/" + k + "/" + id + tail;
    assert "/@" + h + "/" + k + "/" + id + tail == "/@" + h + r;
    MediaSegmentOfParts(k, id, tail);
    NamedLooseAfterHandle(h, r);
  }

  /** After the handle, the loose named pattern reads the media segment that follows it. */
  lemma NamedLooseAfterHandle(h: string, r: string)
    requires h != "" && Avoids(h, '/') && MediaAt(r, 0, 1)
    ensures MatchNamedLoose("/@" + h + r) == Some(MediaMatch(h, MediaKindAt(r, 0), DigitRun(r[7..])))
  {
    var p := "/@" + h + r;
    assert p[..2] == "/@";
    assert p[2..] == h + r;
    UptoOf(h, '/', r);
    var i := 2 + |h|;
    assert p[i..] == r;
    assert p[i + 1..i + 6] == r[1..6];
    assert p[i + 7..] == r[7..];
  }

  /** `/kind/digits…` holds the media pattern at its start, with that kind and exactly those digits. */
  lemma MediaSegmentOfParts(k: string, id: string, tail: string)
    requires IsMediaKind(k) && id != "" && AllDigits(id)
    requires tail == [] || !IsDigit(tail[0])
    ensures var r := "/" + k + "/" + id + tail;
      MediaAt(r, 0, 1) && MediaKindAt(r, 0) == k && DigitRun(r[7..]) == id
  {
    MediaKindLength(k);
    var r := "/" + k + "/" + id + tail;
    assert r[1..6] == k;
    assert r[7..] == id + tail;
    DigitRunUnique(id + tail, id);
  }

  lemma NamedLooseSound(p: string, m: MediaMatch)
    requires MatchNamedLoose(p) == Some(m)
    ensures NamedLooseShape(p, m)
  {
    var h := Upto(p[2..], '/');
    UptoFacts(p[2..], '/');
    var i := 2 + |h|;
    MediaKindLength(p[i + 1..i + 6]);
    var r7 := p[i + 7..];
    DigitRunFacts(r7);
    var id := DigitRun(r7);
    var tail := r7[|id|..];
    PathOfParts(p, h, id);
    NamedShapeOfParts(h, m.kind, id, tail);
  }

  /** A path that starts with `/@`, a handle, a slash-delimited kind and some digits, written as those parts. */
  lemma PathOfParts(p: string, h: string, id: string)
    requires StartsWith(p, "/@") && StartsWith(p[2..], h) && 2 + |h| + 7 <= |p|
    requires p[2 + |h|] == '/' && p[2 + |h| + 6] == '/' && StartsWith(p[2 + |h| + 7..], id)
    ensures var i := 2 + |h|;
      p == "/@" + h + "/" + p[i + 1..i + 6] + "/" + id + p[i + 7 + |id|..]
  {
    var i := 2 + |h|;
    var k := p[i + 1..i + 6];
    var tail := p[i + 7 + |id|..];
    assert p[i + 7..] == id + tail;
    assert p[i..] == "/" + k + "/" + (id + tail);
    assert p[2..] == h + p[i..];
    assert p == "/@" + p[2..];
  }

  /** The shape condition holds of a path built from its parts. */
  lemma NamedShapeOfParts(h: string, k: string, id: string, tail: string)
    requires h != "" && Avoids(h, '/') && IsMediaKind(k) && id != "" && AllDigits(id)
    requires tail == [] || !IsDigit(tail[0])
    ensures NamedLooseShape("/@" + h + "/" + k + "/" + id + tail, MediaMatch(h, k, id))
  {
    MediaKindLength(k);
    var m := MediaMatch(h, k, id);
    var t := NamedText(m);
    var p := t + tail;
    assert p == "/@" + h + "/" + k + "/" + id + tail;
    assert p[..|t|] == t;
    if |t| < |p| {
      assert p[|t|] == tail[0];
    }
  }

  lemma NamedLooseComplete(p: string, m: MediaMatch)
    requires NamedLooseShape(p, m)
    ensures MatchNamedLoose(p) == Some(m)
  {
    var t := NamedText(m);
    var tail := p[|t|..];
    assert p == t + tail;
    NamedLooseOfParts(m.handle, m.kind, m.id, tail);
  }

  /** A bare match is the first place the media pattern occurs in the path. */
  lemma GenericIsFirstMatch(p: string)
    requires MatchGenericLoose(p).Some?
    ensures var i := FindMedia(p, 0, 1).value;
      MediaAt(p, i, 1) && (forall j :: 0 <= j < i ==> !MediaAt(p, j, 1))
      && MatchGenericLoose(p) == Some(MediaMatch("", MediaKindAt(p, i), DigitRun(p[i + 7..])))
  {
  }

  /** Whatever the match, its handle has no '/', its kind is a media kind, and its id is one or more digits. */
  lemma LooseMediaWellFormed(p: string)
    requires LooseMedia(p).Some?
    ensures var m := LooseMedia(p).value;
      Avoids(m.handle, '/') && IsMediaKind(m.kind) && m.id != "" && AllDigits(m.id)
  {
    if MatchNamedLoose(p).Some? {
      UptoFacts(p[2..], '/');
      var i := 2 + |Upto(p[2..], '/')|;
      DigitRunFacts(p[i + 7..]);
    } else {
      var i := FindMedia(p, 0, 1).value;
      DigitRunFacts(p[i + 7..]);
    }
  }

  /** A canonical media path matches as itself, the kind in lower case; any number of digits is accepted. */
  lemma LooseMediaOfCanonical(m: MediaMatch)
    requires Avoids(m.handle, '/') && IsMediaKind(m.kind) && m.id != "" && AllDigits(m.id)
    ensures LooseMedia(CanonicalMediaPath(m)) == Some(MediaMatch(m.handle, Lower(m.kind), m.id))
  {
    var k := Lower(m.kind);
    LowerIdempotent(m.kind);
    if m.handle == "" {
      GenericOfParts(k, m.id);
    } else {
      NamedLooseOfParts(m.handle, k, m.id, "");
      assert CanonicalMediaPath(m) == "/@" + m.handle + "/" + k + "/" + m.id + "";
    }
  }

  /** A bare canonical media path is matched by the second pattern, at its start. */
  lemma GenericOfParts(k: string, id: string)
    requires k == "video" || k == "photo"
    requires id != "" && AllDigits(id)
    ensures LooseMedia("/" + k + "/" + id) == Some(MediaMatch("", k, id))
  {
    assert IsMediaKind(k) by {
      KindsLower();
    }
    KindStart(k);
    GenericOfKind(k, id);
  }

  /** `GenericOfParts` for any media kind that does not start with '@'. */
  lemma GenericOfKind(k: string, id: string)
    requires IsMediaKind(k) && |k| == 5 && k[0] != '@'
    requires id != "" && AllDigits(id)
    ensures LooseMedia("/" + k + "/" + id) == Some(MediaMatch("", k, id))
  {
    var q := "/" + k + "/" + id;
    assert q[1..6] == k && q[6] == '/' && q[7..] == id;
    DigitRunUnique(id, id);
    assert MediaAt(q, 0, 1);
    FindMediaAt(q, 0, 1);
    assert q[..2][1] == q[1] == k[0];
  }

  lemma KindsLower()
    ensures Lower("video") == "video" && Lower("photo") == "photo"
  {
    var v := "video";
    forall i | 0 <= i < |v| ensures !IsUpper(v[i]) {
    }
    LowerOfLower(v);
    var f := "photo";
    forall i | 0 <= i < |f| ensures !IsUpper(f[i]) {
    }
    LowerOfLower(f);
  }

  /** A lower-case media kind starts with its own letter, never '@'. */
  lemma KindStart(k: string)
    requires k == "video" || k == "photo"
    ensures k[0] != '@' && |k| == 5
  {
  }

  /**
   * `normalizeTikTokMediaUrl` of the content script: the link, read against
   * `base` and not trimmed, on any host whose lower-case form contains
   * `tiktok.com`, rewritten to the canonical TikTok link of its media match.
   */
  function NormalizeMediaLink(c: Codec, raw: string, base: Option<string>): (r: Option<string>)
    ensures r.Some? <==>
      c.parse(raw, base).Some? && Contains(Lower(c.parse(raw, base).value.hostname), "tiktok.com")
      && LooseMedia(c.parse(raw, base).value.pathname).Some?
    ensures r.Some? ==> r.value == TikTokOrigin + CanonicalMediaPath(LooseMedia(c.parse(raw, base).value.pathname).value)
  {
    match c.parse(raw, base)
    case None => None
    case Some(u) =>
      if !Contains(Lower(u.hostname), "tiktok.com") then None
      else
        match LooseMedia(u.pathname)
        case None => None
        case Some(m) => Some(TikTokOrigin + CanonicalMediaPath(m))
  }

  /** The canonical TikTok host passes the loose host test. */
  lemma CanonicalHostIsLoose()
    ensures Contains(Lower("www.tiktok.com"), "tiktok.com")
  {
    CanonicalHostsInClass();
    TikTokHostLower();
    HostTestsNest(TikTokUrl(""));
  }

  /** Normalising a normalised link gives it back, when the parser reads the canonical link as written. */
  lemma NormalizeMediaLinkIdempotent(c: Codec, raw: string, base: Option<string>)
    requires NormalizeMediaLink(c, raw, base).Some?
    requires var m := LooseMedia(c.parse(raw, base).value.pathname).value;
      c.parse(NormalizeMediaLink(c, raw, base).value, base) == Some(TikTokUrl(CanonicalMediaPath(m)))
    ensures NormalizeMediaLink(c, NormalizeMediaLink(c, raw, base).value, base) == NormalizeMediaLink(c, raw, base)
  {
    var p := c.parse(raw, base).value.pathname;
    var m := LooseMedia(p).value;
    LooseMediaWellFormed(p);
    LooseMediaOfCanonical(m);
    LowerIdempotent(m.kind);
    CanonicalHostIsLoose();
    assert CanonicalMediaPath(MediaMatch(m.handle, Lower(m.kind), m.id)) == CanonicalMediaPath(m);
  }

  /** The loose host test lets through a host the library's TikTok test refuses. */
  lemma LooseHostAdmitsLookalike(c: Codec, raw: string, base: Option<string>, u: Url)
    requires c.parse(raw, base) == Some(u) && u.hostname == "eviltiktok.com" && LooseMedia(u.pathname).Some?
    ensures NormalizeMediaLink(c, raw, base).Some? && !IsTikTokHostname(u.hostname)
  {
    MediaHostLooser();
    LookalikeLower();
  }

  lemma LookalikeLower()
    ensures Lower("eviltiktok.com") == "eviltiktok.com"
  {
    var s := "eviltiktok.com";
    forall i | 0 <= i < |s| ensures !IsUpper(s[i]) {
    }
    LowerOfLower(s);
  }

  // ---------------------------------------------------------------------
  // The id reported for the active video
  // ---------------------------------------------------------------------

  /** `extractMediaItemId`: the digits after the first `/video/` or `/photo/` when there are 15 or more, at most 22. */
  function ExtractMediaItemId(url: Option<string>): (r: Option<string>)
    ensures r.Some? ==> IsTikTokId(r.value)
    ensures url.None? || url.value == "" ==> r.None?
    ensures r.Some? <==> url.Some? && FindMedia(url.value, 0, 15).Some?
  {
    if url.None? || url.value == "" then None
    else
      match FindMedia(url.value, 0, 15)
      case None => None
      case Some(i) =>
        var s := url.value;
        DigitRunFacts(s[i + 7..]);
        var run := DigitRun(s[i + 7..]);
        assert |run| >= 15;
        assert |run| > 22 ==> |run[..22]| == 22;
        Some(MediaDigitsAt(s, i, 22))
  }

  /** Putting text in front of a string without a media match moves every match by its length. */
  lemma {:induction false} MediaAtShift(pre: string, q: string, j: nat, n: nat)
    ensures MediaAt(pre + q, |pre| + j, n) <==> MediaAt(q, j, n)
    ensures MediaAt(q, j, n) ==> MediaDigitsAt(pre + q, |pre| + j, 22) == MediaDigitsAt(q, j, 22)
  {
    var s := pre + q;
    if |pre| + j + 7 <= |s| {
      assert s[|pre| + j + 1..|pre| + j + 6] == q[j + 1..j + 6];
      assert s[|pre| + j + 7..] == q[j + 7..];
    }
  }

  /** The TikTok origin holds no media match, whatever follows it. */
  lemma OriginHasNoMedia(q: string, j: nat, n: nat)
    requires j < |TikTokOrigin|
    ensures !MediaAt(TikTokOrigin + q, j, n)
  {
  }

  /**
   * The id the content script reports for a normalised link is the link's
   * own id, when that id has 15 to 22 digits.
   */
  lemma ExtractIdOfCanonicalLink(m: MediaMatch)
    requires Avoids("@" + m.handle, '/') && IsMediaKind(m.kind) && IsTikTokId(m.id)
    ensures ExtractMediaItemId(Some(TikTokOrigin + CanonicalMediaPath(m))) == Some(m.id)
  {
    CanonicalMediaFound(m);
    FirstMediaAfterOrigin(CanonicalMediaPath(m), CanonicalMediaIndex(m));
  }

  /** Prefixing the origin moves the first media match of a path by the origin's length. */
  lemma {:induction false} FirstMediaAfterOrigin(q: string, i: nat)
    requires FindMedia(q, 0, 15) == Some(i)
    ensures FindMedia(TikTokOrigin + q, 0, 15) == Some(|TikTokOrigin| + i)
    ensures MediaDigitsAt(TikTokOrigin + q, |TikTokOrigin| + i, 22) == MediaDigitsAt(q, i, 22)
  {
    var s := TikTokOrigin + q;
    var k := |TikTokOrigin| + i;
    MediaAtShift(TikTokOrigin, q, i, 15);
    forall j | 0 <= j < k
      ensures !MediaAt(s, j, 15)
    {
      if j < |TikTokOrigin| {
        OriginHasNoMedia(q, j, 15);
      } else {
        MediaAtShift(TikTokOrigin, q, j - |TikTokOrigin|, 15);
      }
    }
    FindMediaAt(s, k, 15);
  }

  // ---------------------------------------------------------------------
  // The throttle on active-item reports
  // ---------------------------------------------------------------------

  /** The report `syncActiveMediaToBackground` sends. */
  datatype SyncMessage = SyncMessage(itemId: Option<string>, url: Option<string>)

  /** `url || null`. */
  function NullIfEmpty(url: Option<string>): (r: Option<string>)
    ensures r.Some? ==> r.value != ""
    ensures url.Some? && url.value != "" ==> r == url
  {
    if url.Some? && url.value != "" then url else None
  }

  /** A report goes out when the item or the link changed, or when the heartbeat has elapsed. */
  predicate ShouldSync(lastItemId: Option<string>, lastUrl: Option<string>, lastAt: int,
                       itemId: Option<string>, url: Option<string>, now: int)
  {
    itemId != lastItemId || url != lastUrl || now - lastAt >= SyncHeartbeatMs
  }

  /** The module state `lastSyncedItemId`, `lastSyncedUrl` and `lastSyncAt`. */
  class SyncThrottle {
    var lastItemId: Option<string>
    var lastUrl: Option<string>
    var lastAt: int

    constructor ()
      ensures lastItemId == None && lastUrl == None && lastAt == 0
    {
      lastItemId := None;
      lastUrl := None;
      lastAt := 0;
    }

    /**
     * `syncActiveMediaToBackground`: the report to send for `url`, if any;
     * a report sent is remembered with its time, a skipped one changes
     * nothing.
     */
    method Sync(url: Option<string>, now: int, runtimeAvailable: bool) returns (sent: Option<SyncMessage>)
      modifies this
      ensures sent.Some? <==>
        runtimeAvailable
        && ShouldSync(old(lastItemId), old(lastUrl), old(lastAt), ExtractMediaItemId(url), NullIfEmpty(url), now)
      ensures sent.Some? ==>
        sent.value == SyncMessage(ExtractMediaItemId(url), NullIfEmpty(url))
        && lastItemId == sent.value.itemId && lastUrl == sent.value.url && lastAt == now
      ensures sent.None? ==> lastItemId == old(lastItemId) && lastUrl == old(lastUrl) && lastAt == old(lastAt)
    {
      if !runtimeAvailable {
        return None;
      }
      var itemId := ExtractMediaItemId(url);
      var u := NullIfEmpty(url);
      var hasChanged := itemId != lastItemId || u != lastUrl;
      var heartbeatElapsed := now - lastAt >= SyncHeartbeatMs;
      if !hasChanged && !heartbeatElapsed {
        return None;
      }
      lastItemId := itemId;
      lastUrl := u;
      lastAt := now;
      sent := Some(SyncMessage(itemId, u));
    }
  }

  /**
   * After a report for a link, the same link is not reported again until
   * the heartbeat has elapsed, and then it is.
   */
  lemma SyncRepeats(url: Option<string>, at: int, now: int)
    ensures var itemId := ExtractMediaItemId(url);
      var u := NullIfEmpty(url);
      ShouldSync(itemId, u, at, itemId, u, now) <==> now - at >= SyncHeartbeatMs
  {
  }

  // ---------------------------------------------------------------------
  // The captured link, and the link a click sends
  // ---------------------------------------------------------------------

  /**
   * `resolveCapturedTikTokUrl`: the background's answer (None when the
   * message failed) is used only when `ok` is `true` and `url` is a string
   * that is not blank; the link is then normalised against the page, or
   * used as it came when that fails.
   */
  function CapturedUrl(c: Codec, runtimeAvailable: bool, response: Option<Value>, pageHref: string): (r: Option<string>)
    ensures r.Some? <==>
      runtimeAvailable && response.Some? && Get(response.value, "ok") == Bool(true)
      && Get(response.value, "url").Str? && Trim(Get(response.value, "url").s) != ""
    ensures r.Some? ==>
      var url := Get(response.value, "url").s;
      r.value == (if NormalizeMediaLink(c, url, Some(pageHref)).Some? then NormalizeMediaLink(c, url, Some(pageHref)).value else url)
      && r.value != ""
  {
    if !runtimeAvailable || response.None? then None
    else
      var v := response.value;
      if !Truthy(v) || Get(v, "ok") != Bool(true) || !Get(v, "url").Str? || Trim(Get(v, "url").s) == "" then None
      else
        var url := Get(v, "url").s;
        assert url != "";
        NormalizeMediaLink(c, url, Some(pageHref)).OrElse(Some(url))
  }

  /** What a click does: send a link, or show the error that no link was found. */
  datatype ClickOutcome = SendLink(url: string) | NoLink

  /** `runtimeUrl || button.dataset.targetUrl || (await resolveCapturedTikTokUrl())`. */
  function ClickTarget(runtimeUrl: Option<string>, datasetTarget: Option<string>, captured: Option<string>): (r: ClickOutcome)
    ensures r.SendLink? ==> r.url != ""
    ensures r.NoLink? <==> Falsy(runtimeUrl) && Falsy(datasetTarget) && Falsy(captured)
  {
    if !Falsy(runtimeUrl) then SendLink(runtimeUrl.value)
    else if !Falsy(datasetTarget) then SendLink(datasetTarget.value)
    else if !Falsy(captured) then SendLink(captured.value)
    else NoLink
  }

  /**
   * The three sources in order, the background asked last: while the page
   * or the button supplies a link, what the background would answer makes
   * no difference.
   */
  lemma ClickPriority(runtimeUrl: Option<string>, datasetTarget: Option<string>, captured: Option<string>)
    ensures !Falsy(runtimeUrl) ==> ClickTarget(runtimeUrl, datasetTarget, captured) == SendLink(runtimeUrl.value)
    ensures Falsy(runtimeUrl) && !Falsy(datasetTarget) ==>
      ClickTarget(runtimeUrl, datasetTarget, captured) == SendLink(datasetTarget.value)
    ensures !Falsy(runtimeUrl) || !Falsy(datasetTarget) ==>
      forall other :: ClickTarget(runtimeUrl, datasetTarget, other) == ClickTarget(runtimeUrl, datasetTarget, captured)
  {
  }

  // ---------------------------------------------------------------------
  // Buttons after a scan
  // ---------------------------------------------------------------------

  /** The floating button: kept, with the link it sends (`''` for none), or removed. */
  datatype FloatingAction = KeepFloating(targetUrl: string) | RemoveFloating

  /** `isTikTokHomeFeedPath`. */
  predicate IsHomeFeedPath(path: string)
  {
    Trim(path) == "" || Trim(path) == "/"
  }

  /** The floating button stays on the home feed and where no inline button was placed. */
  function FloatingDecision(path: string, hasInlineButton: bool, fallbackUrl: Option<string>): (r: FloatingAction)
    ensures r.RemoveFloating? <==> !IsHomeFeedPath(path) && hasInlineButton
    ensures r.KeepFloating? ==> r.targetUrl == (if Falsy(fallbackUrl) then "" else fallbackUrl.value)
  {
    if IsHomeFeedPath(path) || !hasInlineButton then KeepFloating(if Falsy(fallbackUrl) then "" else fallbackUrl.value)
    else RemoveFloating
  }

  /** The inline buttons placed for the columns' links: each column with a link, in order. */
  function Placements(targets: seq<Option<string>>): (r: seq<(nat, string)>)
    ensures |r| <= |targets|
  {
    if targets == [] then []
    else
      var last := targets[|targets| - 1];
      Placements(targets[..|targets| - 1]) + (if Falsy(last) then [] else [(|targets| - 1, last.value)])
  }

  /** A column gets an inline button exactly when it has a link, and the button carries that link. */
  lemma {:induction false} PlacementsIff(targets: seq<Option<string>>, k: nat, url: string)
    ensures (k, url) in Placements(targets) <==> k < |targets| && targets[k] == Some(url) && url != ""
    decreases |targets|
  {
    if targets != [] {
      var init := targets[..|targets| - 1];
      PlacementsIff(init, k, url);
      if k < |init| {
        assert init[k] == targets[k];
      }
    }
  }

  /** Some inline button is placed when some column has a link. */
  lemma {:induction false} PlacementsEmptyIff(targets: seq<Option<string>>)
    ensures Placements(targets) == [] <==> forall k :: 0 <= k < |targets| ==> Falsy(targets[k])
    decreases |targets|
  {
    if targets != [] {
      var init := targets[..|targets| - 1];
      PlacementsEmptyIff(init);
      assert forall k :: 0 <= k < |init| ==> init[k] == targets[k];
    }
  }

  /**
   * `scanTikTokTargets`: an inline button for every action column with a
   * link, then the floating button kept or removed.
   */
  method ScanTargets(targets: seq<Option<string>>, path: string, fallbackUrl: Option<string>)
    returns (placed: seq<(nat, string)>, floating: FloatingAction)
    ensures placed == Placements(targets)
    ensures floating == FloatingDecision(path, placed != [], fallbackUrl)
  {
    placed := [];
    var hasInlineButton := false;
    var i := 0;
    while i < |targets|
      invariant 0 <= i <= |targets|
      invariant placed == Placements(targets[..i])
      invariant hasInlineButton <==> placed != []
    {
      assert targets[..i + 1][..i] == targets[..i];
      var targetUrl := targets[i];
      if !Falsy(targetUrl) {
        placed := placed + [(i, targetUrl.value)];
        hasInlineButton := true;
      }
      i := i + 1;
    }
    assert targets[..|targets|] == targets;
    floating := FloatingDecision(path, hasInlineButton, fallbackUrl);
  }

  /** The floating button goes away exactly off the home feed when some column has a link. */
  lemma ScanRemovesFloatingIff(targets: seq<Option<string>>, path: string, fallbackUrl: Option<string>)
    ensures FloatingDecision(path, Placements(targets) != [], fallbackUrl).RemoveFloating?
      <==> !IsHomeFeedPath(path) && exists k :: 0 <= k < |targets| && !Falsy(targets[k])
  {
    PlacementsEmptyIff(targets);
  }
}
