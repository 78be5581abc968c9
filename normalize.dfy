/**
 * The normalisers of `src/lib/url.ts` built on the URL records, the
 * host-first dispatcher, the API-URL normaliser with its permission
 * pattern, and the first-match resolver over context-menu candidates.
 */
module Normalize {
  import opened Wrappers
  import opened Text
  import opened Url

  // ---------------------------------------------------------------------
  // Generic http(s) links
  // ---------------------------------------------------------------------

  /** A parsed link with `hash` cleared, when its scheme is http or https. */
  function GenericOf(u: Url): (r: Option<string>)
    ensures r.Some? <==> IsHttpProtocol(u.protocol)
    ensures r.Some? ==> r.value + u.hash == Href(u)
  {
    if IsHttpProtocol(u.protocol) then Some(Href(u.(hash := ""))) else None
  }

  /** `normalizeGenericHttpUrl`: the trimmed text parsed, kept for http and https with its fragment dropped. */
  function NormalizeGeneric(c: Codec, raw: string, base: Option<string>): (r: Option<string>)
    ensures var p := c.parse(Trim(raw), base);
      r.Some? <==> p.Some? && IsHttpProtocol(p.value.protocol)
    ensures var p := c.parse(Trim(raw), base);
      r.Some? ==> r.value + p.value.hash == Href(p.value)
  {
    match c.parse(Trim(raw), base)
    case None => None
    case Some(u) => GenericOf(u)
  }

  // ---------------------------------------------------------------------
  // YouTube
  // ---------------------------------------------------------------------

  /** What `new URL('https://www.youtube.com/watch')` yields. */
  const WatchBase := Url("https:", "", true, "www.youtube.com", "", "/watch", "", "")

  const ShortsPrefix := "https://www.youtube.com/shorts/"

  /** The parameters a canonical watch URL receives: `v`, then `t` when non-empty. */
  function WatchParams(v: string, t: Option<string>): (ps: seq<Param>)
  {
    var withV := SetParam([], "v", v);
    if t.Some? && t.value != "" then SetParam(withV, "t", t.value) else withV
  }

  function WatchUrl(c: Codec, ps: seq<Param>): Url
  {
    WithParams(c, WatchBase, ps)
  }

  /** `pathname.replace(/^\//, '')`. */
  function DropLeadingSlash(p: string): (r: string)
  {
    if StartsWith(p, "/") then p[1..] else p
  }

  /**
   * `normalizeYoutubeUrl` applied to a parsed link, as the URL it returns:
   * the watch URL with `v` (and `t`), or the shorts URL, whose template
   * string is exactly the `href` of the record built here.
   */
  function YoutubeUrlOf(c: Codec, u: Url): (r: Option<Url>)
    ensures r.Some? ==> IsYoutubeHost(Lower(u.hostname))
  {
    var host := Lower(u.hostname);
    if !IsYoutubeHost(host) then None
    else if host == "youtu.be" then
      var id := Trim(DropLeadingSlash(u.pathname));
      if id == "" then None else Some(WatchUrl(c, WatchParams(id, None)))
    else if StartsWith(u.pathname, "/shorts/") then
      var segs := NonEmpty(Split(u.pathname, '/'));
      if |segs| < 2 then None else Some(ShortsUrl(segs[1]))
    else
      match GetParam(c, u, "v")
      case None => None
      case Some(v) =>
        if v == "" then None else Some(WatchUrl(c, WatchParams(v, GetParam(c, u, "t"))))
  }

  function ShortsUrl(id: string): (r: Url)
    ensures Href(r) == ShortsPrefix + id
  {
    Url("https:", "", true, "www.youtube.com", "", "/shorts/" + id, "", "")
  }

  function HrefOf(o: Option<Url>): Option<string>
  {
    match o
    case None => None
    case Some(u) => Some(Href(u))
  }

  /** `normalizeYoutubeUrl`: the trimmed text parsed, then the YouTube rules. */
  function NormalizeYoutube(c: Codec, raw: string, base: Option<string>): (r: Option<string>)
    ensures var p := c.parse(Trim(raw), base);
      r.Some? ==> p.Some? && IsYoutubeHost(Lower(p.value.hostname))
    ensures var p := c.parse(Trim(raw), base);
      p.Some? && Lower(p.value.hostname) == "youtu.be" ==>
        (r.Some? <==> Trim(DropLeadingSlash(p.value.pathname)) != "")
    ensures var p := c.parse(Trim(raw), base);
      p.Some? && IsYoutubeHost(Lower(p.value.hostname)) && Lower(p.value.hostname) != "youtu.be"
      && !StartsWith(p.value.pathname, "/shorts/") ==>
        (r.Some? <==> GetParam(c, p.value, "v").Some? && GetParam(c, p.value, "v").value != "")
  {
    match c.parse(Trim(raw), base)
    case None => None
    case Some(u) =>
      YoutubeRules(c, u);
      HrefOf(YoutubeUrlOf(c, u))
  }

  // ---------------------------------------------------------------------
  // TikTok
  // ---------------------------------------------------------------------

  const TikTokOrigin := "https://www.tiktok.com"

  /** The canonical path `normalizeTikTokVideoUrl` puts after the TikTok origin. */
  function TikTokPath(u: Url): (r: Option<string>)
    ensures r.Some? ==> IsTikTokHost(Lower(u.hostname))
  {
    if !IsTikTokHost(Lower(u.hostname)) then None
    else
      match MatchNamedMedia(u.pathname)
      case Some(m) => Some("/@" + m.handle + "/" + Lower(m.kind) + "/" + m.id)
      case None =>
        match MatchGenericMedia(u.pathname)
        case Some(m) => Some("/" + Lower(m.kind) + "/" + m.id)
        case None => None
  }

  /** `normalizeTikTokVideoUrl` applied to a parsed link. */
  function TikTokOf(u: Url): (r: Option<string>)
  {
    match TikTokPath(u)
    case None => None
    case Some(p) => Some(TikTokOrigin + p)
  }

  /** `normalizeTikTokVideoUrl`: the trimmed text parsed, then the TikTok rule. */
  function NormalizeTikTok(c: Codec, raw: string, base: Option<string>): (r: Option<string>)
    ensures var p := c.parse(Trim(raw), base);
      r.Some? <==>
        p.Some? && IsTikTokHost(Lower(p.value.hostname))
        && ((exists m :: NamedMediaShape(p.value.pathname, m)) || (exists m :: GenericMediaShape(p.value.pathname, m)))
    ensures r.Some? ==> StartsWith(r.value, TikTokOrigin)
  {
    match c.parse(Trim(raw), base)
    case None => None
    case Some(u) =>
      TikTokAccepts(u);
      TikTokOf(u)
  }

  // ---------------------------------------------------------------------
  // X / Twitter
  // ---------------------------------------------------------------------

  /** The canonical path `normalizeTwitterStatusUrl` puts after the link's own origin. */
  function TwitterPath(u: Url): (r: Option<string>)
    ensures r.Some? ==> IsTwitterHost(Lower(u.hostname))
  {
    if !IsTwitterHost(Lower(u.hostname)) then None
    else
      match MatchUserStatus(u.pathname)
      case Some((user, digits)) => Some("/" + user + "/status/" + digits)
      case None =>
        match MatchWebStatus(u.pathname)
        case Some(digits) => Some("/i/web/status/" + digits)
        case None => None
  }

  /** `normalizeTwitterStatusUrl` applied to a parsed link: its origin, then the canonical path. */
  function TwitterOf(u: Url): (r: Option<string>)
  {
    match TwitterPath(u)
    case None => None
    case Some(p) => Some(Origin(u) + p)
  }

  /** `normalizeTwitterStatusUrl`: the trimmed text parsed, then the X rule. */
  function NormalizeTwitter(c: Codec, raw: string, base: Option<string>): (r: Option<string>)
    ensures var p := c.parse(Trim(raw), base);
      r.Some? <==>
        p.Some? && IsTwitterHost(Lower(p.value.hostname))
        && ((exists user, d :: UserStatusShape(p.value.pathname, user, d)) || (exists d :: WebStatusShape(p.value.pathname, d)))
    ensures var p := c.parse(Trim(raw), base);
      r.Some? ==> StartsWith(r.value, Origin(p.value))
  {
    match c.parse(Trim(raw), base)
    case None => None
    case Some(u) =>
      TwitterAccepts(u);
      TwitterOf(u)
  }

  // ---------------------------------------------------------------------
  // What each normaliser accepts and what it produces
  // ---------------------------------------------------------------------

  /** The watch URL carries `v`, and `t` exactly when a non-empty one was given; nothing else. */
  lemma WatchParamsFacts(v: string, t: Option<string>)
    ensures Lookup(WatchParams(v, t), "v") == Some(v)
    ensures Lookup(WatchParams(v, t), "t") == (if t.Some? && t.value != "" then t else None)
    ensures forall i :: 0 <= i < |WatchParams(v, t)| ==>
      WatchParams(v, t)[i].name == "v" || WatchParams(v, t)[i].name == "t"
    ensures WatchParams(v, Lookup(WatchParams(v, t), "t")) == WatchParams(v, t)
  {
    var withV := [Param("v", v)];
    assert SetParam([], "v", v) == withV;
    if t.Some? && t.value != "" {
      assert withV[0].name != "t" && withV[1..] == [];
      assert SetParam(withV, "t", t.value) == [Param("v", v)] + SetParam([], "t", t.value);
    } else {
      assert WatchParams(v, t) == [Param("v", v)];
    }
  }

  /**
   * A youtu.be short link and a watch link with the same `v` and no `t`
   * normalise to the same watch URL, whatever else the watch link carries.
   */
  lemma ShortLinkMatchesWatchLink(c: Codec, short: Url, watch: Url, id: string)
    requires Lower(short.hostname) == "youtu.be" && short.pathname == "/" + id
    requires id != "" && Trimmed(id)
    requires IsYoutubeHost(Lower(watch.hostname)) && Lower(watch.hostname) != "youtu.be"
    requires !StartsWith(watch.pathname, "/shorts/")
    requires GetParam(c, watch, "v") == Some(id) && GetParam(c, watch, "t").None?
    ensures YoutubeUrlOf(c, short) == YoutubeUrlOf(c, watch) == Some(WatchUrl(c, [Param("v", id)]))
  {
    assert DropLeadingSlash(short.pathname) == id;
    TrimOfTrimmed(id);
  }

  /** A shorts link keeps the first non-empty field after `shorts`, which holds no '/'. */
  lemma ShortsKeepsSegment(c: Codec, u: Url)
    requires IsYoutubeHost(Lower(u.hostname)) && Lower(u.hostname) != "youtu.be"
    requires StartsWith(u.pathname, "/shorts/")
    ensures YoutubeUrlOf(c, u).Some? <==> |NonEmpty(Split(u.pathname, '/'))| >= 2
    ensures YoutubeUrlOf(c, u).Some? ==>
      var id := NonEmpty(Split(u.pathname, '/'))[1];
      YoutubeUrlOf(c, u) == Some(ShortsUrl(id)) && id != "" && Avoids(id, '/')
  {
    SplitAvoids(u.pathname, '/');
  }

  /**
   * The youtu.be rule and the watch rule: a short link gives the watch URL
   * whose only parameter is the trimmed id, and nothing for an empty id;
   * any other link that is not a shorts link needs a non-empty `v`, and
   * keeps it, followed by `t` only when that is non-empty.
   */
  lemma YoutubeRules(c: Codec, u: Url)
    ensures !IsYoutubeHost(Lower(u.hostname)) ==> YoutubeUrlOf(c, u).None?
    ensures Lower(u.hostname) == "youtu.be" ==>
      var id := Trim(DropLeadingSlash(u.pathname));
      YoutubeUrlOf(c, u) == if id == "" then None else Some(WatchUrl(c, [Param("v", id)]))
    ensures IsYoutubeHost(Lower(u.hostname)) && Lower(u.hostname) != "youtu.be"
            && !StartsWith(u.pathname, "/shorts/") ==>
      var v := GetParam(c, u, "v");
      var t := GetParam(c, u, "t");
      (YoutubeUrlOf(c, u).Some? <==> v.Some? && v.value != "")
      && (YoutubeUrlOf(c, u).Some? ==>
            YoutubeUrlOf(c, u) == Some(WatchUrl(c, [Param("v", v.value)]
                                             + (if t.Some? && t.value != "" then [Param("t", t.value)] else []))))
  {
    forall v: string, t: Option<string>
      ensures WatchParams(v, t) == [Param("v", v)] + (if t.Some? && t.value != "" then [Param("t", t.value)] else [])
    {
      var withV := [Param("v", v)];
      assert SetParam([], "v", v) == withV;
      if t.Some? && t.value != "" {
        assert withV[0].name != "t" && withV[1..] == [];
        assert SetParam(withV, "t", t.value) == [Param("v", v)] + SetParam([], "t", t.value);
      }
    }
  }

  /** The three YouTube hosts other than youtu.be, and any scheme, port, credentials or fragment, give one result. */
  lemma YoutubeHostsAgree(c: Codec, u: Url, w: Url)
    requires IsYoutubeHost(Lower(u.hostname)) && Lower(u.hostname) != "youtu.be"
    requires IsYoutubeHost(Lower(w.hostname)) && Lower(w.hostname) != "youtu.be"
    requires u.pathname == w.pathname && u.search == w.search
    ensures YoutubeUrlOf(c, u) == YoutubeUrlOf(c, w)
  {
  }

  /** A named-media path canonicalises to `/@handle/kind/id`, the kind lower-cased. */
  lemma TikTokNamedPath(u: Url, m: MediaMatch)
    requires IsTikTokHost(Lower(u.hostname)) && NamedMediaShape(u.pathname, m)
    ensures TikTokPath(u) == Some("/@" + m.handle + "/" + Lower(m.kind) + "/" + m.id)
  {
    NamedMediaComplete(u.pathname, m);
  }

  /** A generic media path canonicalises to `/kind/id`; no named path looks like one. */
  lemma TikTokGenericPath(u: Url, m: MediaMatch)
    requires IsTikTokHost(Lower(u.hostname)) && GenericMediaShape(u.pathname, m)
    ensures TikTokPath(u) == Some("/" + Lower(m.kind) + "/" + m.id)
  {
    var p := u.pathname;
    GenericMediaComplete(p, m);
    MediaKindLength(m.kind);
    assert Lower(m.kind)[0] == LowerChar(m.kind[0]);
    if MatchNamedMedia(p).Some? {
      NamedMediaSound(p, MatchNamedMedia(p).value);
    }
  }

  /** TikTok accepts a link exactly when its host is TikTok's and its path has one of the two media shapes. */
  lemma TikTokAccepts(u: Url)
    ensures TikTokPath(u).Some? <==>
      IsTikTokHost(Lower(u.hostname))
      && ((exists m :: NamedMediaShape(u.pathname, m)) || (exists m :: GenericMediaShape(u.pathname, m)))
  {
    var p := u.pathname;
    if TikTokPath(u).Some? {
      match MatchNamedMedia(p)
      case Some(m) => NamedMediaSound(p, m);
      case None => GenericMediaSound(p, MatchGenericMedia(p).value);
    }
    if IsTikTokHost(Lower(u.hostname)) {
      if m :| NamedMediaShape(p, m) {
        TikTokNamedPath(u, m);
      } else if m :| GenericMediaShape(p, m) {
        TikTokGenericPath(u, m);
      }
    }
  }

  /** A user-status path canonicalises to `/user/status/digits`. */
  lemma TwitterUserPath(u: Url, user: string, digits: string)
    requires IsTwitterHost(Lower(u.hostname)) && UserStatusShape(u.pathname, user, digits)
    ensures TwitterPath(u) == Some("/" + user + "/status/" + digits)
  {
    UserStatusComplete(u.pathname, user, digits);
  }

  /** A web-status path canonicalises to `/i/web/status/digits`; no user-status path looks like one. */
  lemma TwitterWebPath(u: Url, digits: string)
    requires IsTwitterHost(Lower(u.hostname)) && WebStatusShape(u.pathname, digits)
    ensures TwitterPath(u) == Some("/i/web/status/" + digits)
  {
    var p := u.pathname;
    WebStatusComplete(p, digits);
    if MatchUserStatus(p).Some? {
      var x := MatchUserStatus(p).value;
      UserStatusSound(p, x.0, x.1);
    }
  }

  /** X accepts a link exactly when its host is one of X's and its path has one of the two status shapes. */
  lemma TwitterAccepts(u: Url)
    ensures TwitterPath(u).Some? <==>
      IsTwitterHost(Lower(u.hostname))
      && ((exists user, d :: UserStatusShape(u.pathname, user, d)) || (exists d :: WebStatusShape(u.pathname, d)))
  {
    var p := u.pathname;
    if TwitterPath(u).Some? {
      match MatchUserStatus(p)
      case Some(x) => UserStatusSound(p, x.0, x.1);
      case None => WebStatusSound(p, MatchWebStatus(p).value);
    }
    if IsTwitterHost(Lower(u.hostname)) {
      if user, d :| UserStatusShape(p, user, d) {
        TwitterUserPath(u, user, d);
      } else if d :| WebStatusShape(p, d) {
        TwitterWebPath(u, d);
      }
    }
  }

  /**
   * The X normaliser keeps the link's own origin, and checks the host but
   * not the scheme: for a scheme without a tuple origin the result starts
   * with "null/".
   */
  lemma TwitterKeepsOrigin(u: Url)
    ensures TwitterOf(u).Some? ==> StartsWith(TwitterOf(u).value, Origin(u) + "/")
    ensures TwitterOf(u).Some? && !HasTupleOrigin(u.protocol) ==> StartsWith(TwitterOf(u).value, "null/")
  {
  }

  /**
   * The platform normalisers look at the host and the path (YouTube also at
   * the query) and never at the scheme; the generic one insists on http(s).
   */
  lemma PlatformsIgnoreScheme(c: Codec, u: Url, protocol: string)
    ensures YoutubeUrlOf(c, u.(protocol := protocol)) == YoutubeUrlOf(c, u)
    ensures TikTokPath(u.(protocol := protocol)) == TikTokPath(u)
    ensures TwitterPath(u.(protocol := protocol)) == TwitterPath(u)
    ensures GenericOf(u.(protocol := protocol)).Some? <==> IsHttpProtocol(protocol)
  {
  }

  // ---------------------------------------------------------------------
  // The API URL and its host-permission pattern
  // ---------------------------------------------------------------------

  /** `pathname.replace(/\/+$/, '')`. */
  function StripTrailingSlashes(p: string): (r: string)
    ensures StartsWith(p, r) && (r == [] || r[|r| - 1] != '/')
    ensures forall i :: |r| <= i < |p| ==> p[i] == '/'
  {
    if p != [] && p[|p| - 1] == '/' then StripTrailingSlashes(p[..|p| - 1]) else p
  }

  /** `normalizeOriginBase`: the origin, the path without trailing slashes, the query. */
  function OriginBase(u: Url): string
  {
    var stripped := StripTrailingSlashes(u.pathname);
    var path := if stripped == "/" then "" else stripped;
    Origin(u) + path + u.search
  }

  /** Stripping never leaves a lone "/", so the root test in `normalizeOriginBase` never fires. */
  lemma RootTestNeverFires(p: string)
    ensures StripTrailingSlashes(p) != "/"
    ensures StripTrailingSlashes("/") == ""
  {
  }

  const ApiUrlInvalid := "URL API invalide. Utilise http:// ou https://."

  /** `normalizeApiUrl`: Err with the fixed message for anything but an http(s) URL. */
  function NormalizeApiUrl(c: Codec, raw: string): (r: Result<string>)
    ensures r.Err? ==> r.message == ApiUrlInvalid
    ensures r.Ok? <==>
      c.parse(Trim(raw), None).Some? && IsHttpProtocol(c.parse(Trim(raw), None).value.protocol)
  {
    match c.parse(Trim(raw), None)
    case None => Err(ApiUrlInvalid)
    case Some(u) =>
      if !IsHttpProtocol(u.protocol) then Err(ApiUrlInvalid) else Ok(OriginBase(u.(hash := "")))
  }

  /** The normalised API URL: scheme, host and port, the path without trailing '/', the query; no credentials, no fragment. */
  lemma ApiUrlShape(c: Codec, raw: string, u: Url)
    requires c.parse(Trim(raw), None) == Some(u) && IsHttpProtocol(u.protocol)
    ensures NormalizeApiUrl(c, raw)
      == Ok(u.protocol + "//" + Host(u) + StripTrailingSlashes(u.pathname) + u.search)
  {
    var w := u.(hash := "");
    HttpHasTupleOrigin(u.protocol);
    assert Origin(w) == u.protocol + "//" + Host(u);
    RootTestNeverFires(u.pathname);
    assert OriginBase(w) == Origin(w) + StripTrailingSlashes(u.pathname) + u.search;
  }

  /**
   * Normalising a normalised API URL changes nothing, given that the
   * parser reads it back with the same scheme, host, port and query and
   * with the stripped path ("/" for an empty one).
   */
  lemma ApiUrlIdempotent(c: Codec, raw: string, u: Url, n: string, v: Url)
    requires c.parse(Trim(raw), None) == Some(u) && NormalizeApiUrl(c, raw) == Ok(n)
    requires c.parse(Trim(n), None) == Some(v)
    requires v.protocol == u.protocol && Host(v) == Host(u) && v.search == u.search
    requires v.pathname
      == (if StripTrailingSlashes(u.pathname) == "" then "/" else StripTrailingSlashes(u.pathname))
    ensures NormalizeApiUrl(c, n) == Ok(n)
  {
    ApiUrlShape(c, raw, u);
    ApiUrlShape(c, n, v);
    StripOfStrippedPath(u.pathname);
  }

  /** The path a normalised API URL is read back with strips to itself: the root strips to "". */
  lemma StripOfStrippedPath(p: string)
    ensures var s := StripTrailingSlashes(p);
      StripTrailingSlashes(if s == "" then "/" else s) == s
  {
    var s := StripTrailingSlashes(p);
    if s == "" {
      assert StripTrailingSlashes("/") == StripTrailingSlashes("");
    }
  }

  /** The message of the `TypeError` the URL constructor throws. */
  const InvalidUrl := "Invalid URL"

  /** `toApiOriginPattern`: the origin of the normalised API URL followed by a wildcard path. */
  function ToApiOriginPattern(c: Codec, apiUrl: string): (r: Result<string>)
    ensures NormalizeApiUrl(c, apiUrl).Err? ==> r == Err(ApiUrlInvalid)
  {
    match NormalizeApiUrl(c, apiUrl)
    case Err(message) => Err(message)
    case Ok(normalized) =>
      match c.parse(normalized, None)
      case None => Err(InvalidUrl)
      case Some(p) => Ok(Origin(p) + "/*")
  }

  /** The pattern covers every path of the API URL's own scheme, host and port. */
  lemma ApiOriginPatternOf(c: Codec, raw: string, u: Url, n: string, v: Url)
    requires c.parse(Trim(raw), None) == Some(u) && NormalizeApiUrl(c, raw) == Ok(n)
    requires c.parse(n, None) == Some(v) && v.protocol == u.protocol && Host(v) == Host(u)
    ensures IsHttpProtocol(u.protocol)
    ensures ToApiOriginPattern(c, raw) == Ok(u.protocol + "//" + Host(u) + "/*")
  {
  }

  // ---------------------------------------------------------------------
  // The dispatcher
  // ---------------------------------------------------------------------

  /**
   * `resolveIngestTargetUrl`: trim, parse against the optional base, pick
   * the normaliser by the lower-cased host and hand it the parsed link's
   * `href`. TikTok links that are not videos or photos fall back to the
   * generic normaliser; YouTube and X links do not.
   */
  function ResolveIngestTarget(c: Codec, raw: string, base: Option<string>): (r: Option<string>)
    ensures Trim(raw) == "" ==> r.None?
    ensures c.parse(Trim(raw), base).None? ==> r.None?
  {
    var candidate := Trim(raw);
    if candidate == "" then None
    else
      match c.parse(candidate, base)
      case None => None
      case Some(u) => Dispatch(c, u, base)
  }

  /** The normaliser chosen by the lower-cased host, given the parsed link's `href`. */
  function Dispatch(c: Codec, u: Url, base: Option<string>): Option<string>
  {
    var host := Lower(u.hostname);
    var href := Href(u);
    if IsYoutubeHost(host) then NormalizeYoutube(c, href, base)
    else if IsTikTokHost(host) then NormalizeTikTok(c, href, base).OrElse(NormalizeGeneric(c, href, None))
    else if IsTwitterHost(host) then NormalizeTwitter(c, href, base)
    else NormalizeGeneric(c, href, None)
  }

  /** The dispatch applied to a parsed link directly, without serialising and parsing it again. */
  function Canonical(c: Codec, u: Url): Option<string>
  {
    var host := Lower(u.hostname);
    if IsYoutubeHost(host) then HrefOf(YoutubeUrlOf(c, u))
    else if IsTikTokHost(host) then TikTokOf(u).OrElse(GenericOf(u))
    else if IsTwitterHost(host) then TwitterOf(u)
    else GenericOf(u)
  }

  /** The parser reads a link's `href` back as the same link, with the base and without it. */
  predicate RoundTrips(c: Codec, u: Url, base: Option<string>)
  {
    c.parse(Trim(Href(u)), base) == Some(u) && c.parse(Trim(Href(u)), None) == Some(u)
  }

  /** Re-parsing the `href` inside the dispatcher is harmless when the parser round-trips. */
  lemma ResolveIsCanonical(c: Codec, raw: string, base: Option<string>, u: Url)
    requires Trim(raw) != "" && c.parse(Trim(raw), base) == Some(u) && RoundTrips(c, u, base)
    ensures ResolveIngestTarget(c, raw, base) == Canonical(c, u)
  {
    DispatchIsCanonical(c, u, base);
  }

  lemma DispatchIsCanonical(c: Codec, u: Url, base: Option<string>)
    requires RoundTrips(c, u, base)
    ensures Dispatch(c, u, base) == Canonical(c, u)
  {
    var host, href := Lower(u.hostname), Href(u);
    HrefNormalisers(c, u, base);
    if IsYoutubeHost(host) {
      assert Dispatch(c, u, base) == NormalizeYoutube(c, href, base);
    } else if IsTikTokHost(host) {
      assert Dispatch(c, u, base) == NormalizeTikTok(c, href, base).OrElse(NormalizeGeneric(c, href, None));
    } else if IsTwitterHost(host) {
      assert Dispatch(c, u, base) == NormalizeTwitter(c, href, base);
    } else {
      assert Dispatch(c, u, base) == NormalizeGeneric(c, href, None);
    }
  }

  /** Each normaliser applied to a round-tripping link's `href` works on the link itself. */
  lemma HrefNormalisers(c: Codec, u: Url, base: Option<string>)
    requires RoundTrips(c, u, base)
    ensures NormalizeYoutube(c, Href(u), base) == HrefOf(YoutubeUrlOf(c, u))
    ensures NormalizeTikTok(c, Href(u), base) == TikTokOf(u)
    ensures NormalizeTwitter(c, Href(u), base) == TwitterOf(u)
    ensures NormalizeGeneric(c, Href(u), None) == GenericOf(u)
  {
  }

  /**
   * Which links resolve: over http(s), every TikTok link and every link to
   * an unknown host; a YouTube or X link only when it is a video or a
   * status; the last two never fall back to the generic form.
   */
  lemma FallbackPolicy(c: Codec, u: Url)
    requires IsHttpProtocol(u.protocol)
    ensures IsTikTokHost(Lower(u.hostname)) ==>
      Canonical(c, u) == (if TikTokPath(u).Some? then TikTokOf(u) else Some(Href(u.(hash := ""))))
    ensures IsYoutubeHost(Lower(u.hostname)) ==> (Canonical(c, u).Some? <==> YoutubeUrlOf(c, u).Some?)
    ensures IsTwitterHost(Lower(u.hostname)) ==> (Canonical(c, u).Some? <==> TwitterPath(u).Some?)
    ensures (!IsYoutubeHost(Lower(u.hostname)) && !IsTikTokHost(Lower(u.hostname))
             && !IsTwitterHost(Lower(u.hostname))) ==> Canonical(c, u) == Some(Href(u.(hash := "")))
  {
    HostClassesDisjoint(Lower(u.hostname));
  }

  /** A link that resolves resolves to a non-empty string, so `if (normalized)` tests only for null. */
  lemma CanonicalNonEmpty(c: Codec, u: Url)
    ensures Canonical(c, u).Some? ==> Canonical(c, u).value != ""
  {
  }

  lemma NormalisersNonEmpty(c: Codec, raw: string, base: Option<string>)
    ensures NormalizeYoutube(c, raw, base).Some? ==> NormalizeYoutube(c, raw, base).value != ""
    ensures NormalizeTikTok(c, raw, base).Some? ==> NormalizeTikTok(c, raw, base).value != ""
    ensures NormalizeTwitter(c, raw, base).Some? ==> NormalizeTwitter(c, raw, base).value != ""
    ensures NormalizeGeneric(c, raw, base).Some? ==> NormalizeGeneric(c, raw, base).value != ""
  {
    match c.parse(Trim(raw), base)
    case None =>
    case Some(u) =>
      HostClassesDisjoint(Lower(u.hostname));
      CanonicalNonEmpty(c, u);
  }

  lemma DispatchNonEmpty(c: Codec, u: Url, base: Option<string>)
    ensures Dispatch(c, u, base).Some? ==> Dispatch(c, u, base).value != ""
  {
    var host := Lower(u.hostname);
    var href := Href(u);
    NormalisersNonEmpty(c, href, base);
    NormalisersNonEmpty(c, href, None);
    if IsYoutubeHost(host) {
      assert Dispatch(c, u, base) == NormalizeYoutube(c, href, base);
    } else if IsTikTokHost(host) {
      assert Dispatch(c, u, base)
        == NormalizeTikTok(c, href, base).OrElse(NormalizeGeneric(c, href, None));
    } else if IsTwitterHost(host) {
      assert Dispatch(c, u, base) == NormalizeTwitter(c, href, base);
    } else {
      assert Dispatch(c, u, base) == NormalizeGeneric(c, href, None);
    }
  }

  lemma ResolveNonEmpty(c: Codec, raw: string, base: Option<string>)
    ensures ResolveIngestTarget(c, raw, base).Some? ==> ResolveIngestTarget(c, raw, base).value != ""
  {
    var candidate := Trim(raw);
    if candidate != "" && c.parse(candidate, base).Some? {
      DispatchNonEmpty(c, c.parse(candidate, base).value, base);
    }
  }

  // ---------------------------------------------------------------------
  // Canonical links are fixed points
  // ---------------------------------------------------------------------

  function TikTokUrl(path: string): (r: Url)
    ensures Href(r) == TikTokOrigin + path
  {
    Url("https:", "", true, "www.tiktok.com", "", path, "", "")
  }

  function GenericUrlOf(u: Url): Option<Url>
  {
    if IsHttpProtocol(u.protocol) then Some(u.(hash := "")) else None
  }

  /** The link with an X status path in place of its own, keeping its scheme, host and port. */
  function TwitterUrl(u: Url, path: string): Url
  {
    u.(credentials := "", hasHost := true, pathname := path, search := "", hash := "")
  }

  /**
   * The URL record whose `href` the dispatcher returns. An X link under a
   * scheme without a tuple origin has none: its result begins with "null".
   */
  function CanonicalUrl(c: Codec, u: Url): Option<Url>
  {
    var host := Lower(u.hostname);
    if IsYoutubeHost(host) then YoutubeUrlOf(c, u)
    else if IsTikTokHost(host) then
      match TikTokPath(u)
      case Some(p) => Some(TikTokUrl(p))
      case None => GenericUrlOf(u)
    else if IsTwitterHost(host) then
      match TwitterPath(u)
      case Some(p) => if HasTupleOrigin(u.protocol) then Some(TwitterUrl(u, p)) else None
      case None => None
    else GenericUrlOf(u)
  }

  /** The dispatcher's result is the `href` of the canonical record, except for the "null"-origin X case. */
  lemma CanonicalUrlHref(c: Codec, u: Url)
    ensures CanonicalUrl(c, u).Some? ==> Canonical(c, u) == Some(Href(CanonicalUrl(c, u).value))
    ensures Canonical(c, u).None? ==> CanonicalUrl(c, u).None?
    ensures Canonical(c, u).Some? && CanonicalUrl(c, u).None? ==>
      IsTwitterHost(Lower(u.hostname)) && !HasTupleOrigin(u.protocol)
      && StartsWith(Canonical(c, u).value, "null/")
    ensures CanonicalUrl(c, u).Some? ==> HasTupleOrigin(CanonicalUrl(c, u).value.protocol)
  {
    var host := Lower(u.hostname);
    HostClassesDisjoint(host);
    if IsYoutubeHost(host) {
    } else if IsTikTokHost(host) {
      TikTokCanonicalHref(u);
    } else if IsTwitterHost(host) {
      TwitterCanonicalHref(u);
    }
  }

  lemma TikTokCanonicalHref(u: Url)
    ensures TikTokPath(u).Some? ==> TikTokOf(u) == Some(Href(TikTokUrl(TikTokPath(u).value)))
    ensures TikTokPath(u).None? && GenericUrlOf(u).Some? ==> GenericOf(u) == Some(Href(GenericUrlOf(u).value))
    ensures TikTokPath(u).None? && GenericUrlOf(u).None? ==> GenericOf(u).None?
  {
  }

  /** On an X host: the record's `href` when the scheme has a tuple origin, a "null/" text otherwise. */
  lemma TwitterCanonicalHref(u: Url)
    ensures TwitterPath(u).Some? && HasTupleOrigin(u.protocol) ==>
      TwitterOf(u) == Some(Href(TwitterUrl(u, TwitterPath(u).value)))
    ensures TwitterPath(u).None? ==> TwitterOf(u).None?
    ensures TwitterPath(u).Some? && !HasTupleOrigin(u.protocol) ==> StartsWith(TwitterOf(u).value, "null/")
  {
    if TwitterPath(u).Some? {
      var p := TwitterPath(u).value;
      TwitterKeepsOrigin(u);
      if HasTupleOrigin(u.protocol) {
        TwitterUrlHref(u, p);
      }
    }
  }

  /** Under a scheme with a tuple origin, the rebuilt X URL reads as the origin followed by the path. */
  lemma TwitterUrlHref(u: Url, p: string)
    requires HasTupleOrigin(u.protocol)
    ensures Href(TwitterUrl(u, p)) == Origin(u) + p
  {
    var v := TwitterUrl(u, p);
    assert Host(v) == Host(u);
  }

  /** The URL-encoded query codec is a left inverse: parsing a serialised list gives the list back. */
  ghost predicate QueryCodecInverse(c: Codec)
  {
    forall ps :: c.decodeQuery(c.encodeQuery(ps)) == ps
  }

  lemma WatchUrlFixpoint(c: Codec, v: string, t: Option<string>)
    requires QueryCodecInverse(c) && v != ""
    ensures YoutubeUrlOf(c, WatchUrl(c, WatchParams(v, t))) == Some(WatchUrl(c, WatchParams(v, t)))
  {
    var ps := WatchParams(v, t);
    var w := WatchUrl(c, ps);
    WatchParamsFacts(v, t);
    CanonicalHostsLower();
    CanonicalHostsInClass();
    assert w.hostname == "www.youtube.com" && w.pathname == "/watch";
    assert c.decodeQuery(c.encodeQuery(ps)) == ps;
    assert GetParam(c, w, "v") == Some(v);
  }

  lemma ShortsPathFields(id: string)
    requires id != "" && Avoids(id, '/')
    ensures NonEmpty(Split("/shorts/" + id, '/')) == ["shorts", id]
  {
    assert "/shorts/" + id == "/" + "shorts" + "/" + id;
    SplitTwoFields("shorts", id);
    SplitSingle(id, '/');
    assert NonEmpty([id]) == [id];
    assert NonEmpty(["shorts", id]) == ["shorts"] + NonEmpty([id]);
  }

  lemma ShortsUrlFixpoint(c: Codec, id: string)
    requires id != "" && Avoids(id, '/')
    ensures YoutubeUrlOf(c, ShortsUrl(id)) == Some(ShortsUrl(id))
  {
    CanonicalHostsLower();
    CanonicalHostsInClass();
    ShortsPathFields(id);
    assert StartsWith("/shorts/" + id, "/shorts/");
  }

  lemma YoutubeFixpoint(c: Codec, u: Url, v: Url)
    requires YoutubeUrlOf(c, u) == Some(v) && QueryCodecInverse(c)
    ensures YoutubeUrlOf(c, v) == Some(v)
  {
    var host := Lower(u.hostname);
    if host == "youtu.be" {
      WatchUrlFixpoint(c, Trim(DropLeadingSlash(u.pathname)), None);
    } else if StartsWith(u.pathname, "/shorts/") {
      ShortsKeepsSegment(c, u);
      ShortsUrlFixpoint(c, NonEmpty(Split(u.pathname, '/'))[1]);
    } else {
      WatchUrlFixpoint(c, GetParam(c, u, "v").value, GetParam(c, u, "t"));
    }
  }

  lemma NamedPathShape(handle: string, k: string, id: string)
    requires handle != "" && Avoids("@" + handle, '/') && IsMediaKind(k) && IsTikTokId(id)
    ensures NamedMediaShape("/@" + handle + "/" + k + "/" + id, MediaMatch(handle, k, id))
  {
    var q := "/@" + handle + "/" + k + "/" + id;
    MediaKindLength(k);
    assert Avoids(id, '/');
    assert q == "/" + ("@" + handle) + "/" + (k + "/" + id);
    SplitTwoFields("@" + handle, k + "/" + id);
    SplitCons(k, '/', id);
    assert k + "/" + id == k + ['/'] + id;
    SplitSingle(id, '/');
    assert Split(q, '/') == ["", "@" + handle, k, id];
  }

  lemma GenericPathShape(k: string, id: string)
    requires IsMediaKind(k) && IsTikTokId(id)
    ensures GenericMediaShape("/" + k + "/" + id, MediaMatch("", k, id))
  {
    MediaKindLength(k);
    assert Avoids(id, '/');
    SplitTwoFields(k, id);
    SplitSingle(id, '/');
    assert Split("/" + k + "/" + id, '/') == ["", k, id];
  }

  /** A canonical named-media path is matched again, to itself. */
  lemma TikTokNamedFixpoint(handle: string, kind: string, id: string)
    requires handle != "" && Avoids("@" + handle, '/') && IsMediaKind(kind) && IsTikTokId(id)
    ensures var q := "/@" + handle + "/" + Lower(kind) + "/" + id;
      TikTokPath(TikTokUrl(q)) == Some(q)
  {
    var k := Lower(kind);
    var q := "/@" + handle + "/" + k + "/" + id;
    LowerIdempotent(kind);
    NamedPathShape(handle, k, id);
    CanonicalHostsLower();
    CanonicalHostsInClass();
    TikTokNamedPath(TikTokUrl(q), MediaMatch(handle, k, id));
  }

  /** A canonical generic media path is matched again, to itself. */
  lemma TikTokGenericFixpoint(kind: string, id: string)
    requires IsMediaKind(kind) && IsTikTokId(id)
    ensures var q := "/" + Lower(kind) + "/" + id;
      TikTokPath(TikTokUrl(q)) == Some(q)
  {
    var k := Lower(kind);
    var q := "/" + k + "/" + id;
    LowerIdempotent(kind);
    GenericPathShape(k, id);
    CanonicalHostsLower();
    CanonicalHostsInClass();
    TikTokGenericPath(TikTokUrl(q), MediaMatch("", k, id));
  }

  lemma TikTokFixpoint(u: Url, p: string)
    requires TikTokPath(u) == Some(p)
    ensures TikTokPath(TikTokUrl(p)) == Some(p)
  {
    var path := u.pathname;
    SplitAvoids(path, '/');
    match MatchNamedMedia(path)
    case Some(m) =>
      NamedMediaSound(path, m);
      TikTokNamedFixpoint(m.handle, m.kind, m.id);
    case None =>
      var m := MatchGenericMedia(path).value;
      GenericMediaSound(path, m);
      TikTokGenericFixpoint(m.kind, m.id);
  }

  /** A canonical user-status path is matched again, to itself, on the same host. */
  lemma TwitterUserFixpoint(u: Url, user: string, digits: string)
    requires IsTwitterHost(Lower(u.hostname))
    requires user != "" && Avoids(user, '/') && digits != "" && AllDigits(digits)
    ensures var q := "/" + user + "/status/" + digits;
      TwitterPath(TwitterUrl(u, q)) == Some(q)
  {
    var q := "/" + user + "/status/" + digits;
    assert Avoids(digits, '/');
    assert q == "/" + user + "/" + ("status" + "/" + digits);
    SplitTwoFields(user, "status" + "/" + digits);
    SplitCons("status", '/', digits);
    assert "status" + "/" + digits == "status" + ['/'] + digits;
    SplitSingle(digits, '/');
    assert Split(q, '/') == ["", user, "status", digits];
    StatusWordsLower();
    DigitRunUnique(digits, digits);
    TwitterUserPath(TwitterUrl(u, q), user, digits);
  }

  /** A canonical web-status path is matched again, to itself, on the same host. */
  lemma TwitterWebFixpoint(u: Url, digits: string)
    requires IsTwitterHost(Lower(u.hostname)) && digits != "" && AllDigits(digits)
    ensures var q := "/i/web/status/" + digits;
      TwitterPath(TwitterUrl(u, q)) == Some(q)
  {
    var q := "/i/web/status/" + digits;
    WebStatusPathFields(digits);
    StatusWordsLower();
    DigitRunUnique(digits, digits);
    TwitterWebPath(TwitterUrl(u, q), digits);
  }

  lemma WebStatusPathFields(digits: string)
    requires digits != "" && AllDigits(digits)
    ensures Split("/i/web/status/" + digits, '/') == ["", "i", "web", "status", digits]
  {
    var q := "/i/web/status/" + digits;
    assert Avoids(digits, '/');
    var tail := "status" + "/" + digits;
    assert q == "/" + "i" + "/" + ("web" + "/" + tail);
    SplitTwoFields("i", "web" + "/" + tail);
    SplitCons("web", '/', tail);
    assert "web" + "/" + tail == "web" + ['/'] + tail;
    SplitCons("status", '/', digits);
    assert tail == "status" + ['/'] + digits;
    SplitSingle(digits, '/');
  }

  lemma TwitterFixpoint(u: Url, p: string)
    requires TwitterPath(u) == Some(p)
    ensures TwitterPath(TwitterUrl(u, p)) == Some(p)
  {
    var path := u.pathname;
    SplitAvoids(path, '/');
    match MatchUserStatus(path)
    case Some(x) =>
      UserStatusSound(path, x.0, x.1);
      DigitRunFacts(Split(path, '/')[3]);
      TwitterUserFixpoint(u, x.0, x.1);
    case None =>
      var d := MatchWebStatus(path).value;
      WebStatusSound(path, d);
      DigitRunFacts(Split(path, '/')[4]);
      TwitterWebFixpoint(u, d);
  }

  /** Dispatching a canonical record again gives its own `href`. */
  lemma CanonicalFixpoint(c: Codec, u: Url, v: Url)
    requires CanonicalUrl(c, u) == Some(v) && QueryCodecInverse(c)
    ensures Canonical(c, v) == Some(Href(v))
  {
    var host := Lower(u.hostname);
    HostClassesDisjoint(host);
    if IsYoutubeHost(host) {
      YoutubeFixpoint(c, u, v);
      assert IsYoutubeHost(Lower(v.hostname));
    } else if IsTikTokHost(host) {
      match TikTokPath(u)
      case Some(p) => TikTokCanonicalFixpoint(c, u, p);
      case None => GenericCanonicalFixpoint(c, u);
    } else if IsTwitterHost(host) {
      TwitterCanonicalFixpoint(c, u, TwitterPath(u).value);
    } else {
      GenericCanonicalFixpoint(c, u);
    }
  }

  lemma TikTokCanonicalFixpoint(c: Codec, u: Url, p: string)
    requires TikTokPath(u) == Some(p)
    ensures Canonical(c, TikTokUrl(p)) == Some(Href(TikTokUrl(p)))
  {
    var v := TikTokUrl(p);
    TikTokFixpoint(u, p);
    HostClassesDisjoint(Lower(v.hostname));
    assert TikTokOf(v) == Some(TikTokOrigin + p);
  }

  lemma TwitterCanonicalFixpoint(c: Codec, u: Url, p: string)
    requires TwitterPath(u) == Some(p) && HasTupleOrigin(u.protocol)
    ensures Canonical(c, TwitterUrl(u, p)) == Some(Href(TwitterUrl(u, p)))
  {
    var v := TwitterUrl(u, p);
    TwitterFixpoint(u, p);
    HostClassesDisjoint(Lower(v.hostname));
    assert Canonical(c, v) == TwitterOf(v);
    assert TwitterOf(v) == Some(Origin(v) + p);
    HrefOfOriginAndPath(v);
  }

  /** A link with a tuple origin and nothing but a path after it: its `href` is the origin, then the path. */
  lemma HrefOfOriginAndPath(v: Url)
    requires HasTupleOrigin(v.protocol) && v.hasHost && v.credentials == "" && v.search == "" && v.hash == ""
    ensures Href(v) == Origin(v) + v.pathname
  {
    assert "//" + v.credentials + Host(v) == "//" + Host(v);
  }

  lemma GenericCanonicalFixpoint(c: Codec, u: Url)
    requires IsHttpProtocol(u.protocol)
    requires IsTikTokHost(Lower(u.hostname)) ==> TikTokPath(u).None?
    requires !IsYoutubeHost(Lower(u.hostname)) && !IsTwitterHost(Lower(u.hostname))
    ensures Canonical(c, u.(hash := "")) == Some(Href(u.(hash := "")))
  {
    var v := u.(hash := "");
    assert v.(hash := "") == v;
    assert TikTokPath(v) == TikTokPath(u);
  }

  /**
   * Resolution is idempotent: the link a raw link resolves to resolves to
   * itself, given that the parser reads each `href` involved back as the
   * record it came from and that the query codec round-trips.
   */
  lemma ResolveIdempotent(c: Codec, raw: string, base: Option<string>, u: Url, v: Url)
    requires Trim(raw) != "" && c.parse(Trim(raw), base) == Some(u) && RoundTrips(c, u, base)
    requires CanonicalUrl(c, u) == Some(v) && RoundTrips(c, v, None) && QueryCodecInverse(c)
    ensures ResolveIngestTarget(c, raw, base) == Some(Href(v))
    ensures ResolveIngestTarget(c, Href(v), None) == Some(Href(v))
  {
    ResolveIsCanonical(c, raw, base, u);
    CanonicalUrlHref(c, u);
    TupleOriginHrefNotBlank(v);
    ResolveIsCanonical(c, Href(v), None, v);
    CanonicalFixpoint(c, u, v);
  }

  lemma TupleOriginHrefNotBlank(v: Url)
    requires HasTupleOrigin(v.protocol)
    ensures Trim(Href(v)) != ""
  {
    var h := Href(v);
    assert h[0] == v.protocol[0];
    TrimStartsWithNonSpace(h);
  }

  // ---------------------------------------------------------------------
  // Context-menu candidates
  // ---------------------------------------------------------------------

  /** The URLs a context-menu click offers; any of them may be missing. */
  datatype ContextCandidates = ContextCandidates(
    linkUrl: Option<string>,
    srcUrl: Option<string>,
    pageUrl: Option<string>,
    tabUrl: Option<string>)

  /** `typeof value === 'string' && value.trim().length > 0` for a present value. */
  predicate NonBlank(s: string)
  {
    Trim(s) != ""
  }

  /** The present values that pass `keep`, in their order. */
  function PresentWhere(xs: seq<Option<string>>, keep: string -> bool): (r: seq<string>)
    ensures |r| <= |xs|
  {
    if xs == [] then []
    else
      var rest := PresentWhere(xs[1..], keep);
      if xs[0].Some? && keep(xs[0].value) then [xs[0].value] + rest else rest
  }

  /**
   * The filter keeps exactly the present values that pass: each kept one
   * is one of the inputs and passes, the first input is kept first when it
   * qualifies, and nothing is kept only when nothing qualifies.
   */
  lemma {:induction false} PresentWhereSpec(xs: seq<Option<string>>, keep: string -> bool)
    ensures forall i :: 0 <= i < |PresentWhere(xs, keep)| ==>
      keep(PresentWhere(xs, keep)[i]) && Some(PresentWhere(xs, keep)[i]) in xs
    ensures xs != [] && xs[0].Some? && keep(xs[0].value) ==> PresentWhere(xs, keep)[0] == xs[0].value
    ensures PresentWhere(xs, keep) == [] <==>
      forall k :: 0 <= k < |xs| ==> xs[k].None? || !keep(xs[k].value)
  {
    if xs != [] {
      PresentWhereSpec(xs[1..], keep);
      var rest := PresentWhere(xs[1..], keep);
      assert forall k :: 0 < k < |xs| ==> xs[k] == xs[1..][k - 1];
      if xs[0].Some? && keep(xs[0].value) {
        var r := [xs[0].value] + rest;
        forall i | 0 <= i < |r| ensures keep(r[i]) && Some(r[i]) in xs {
          if i > 0 {
            assert r[i] == rest[i - 1];
            assert Some(rest[i - 1]) in xs[1..];
          }
        }
      } else {
        forall i | 0 <= i < |rest| ensures Some(rest[i]) in xs {
          assert Some(rest[i]) in xs[1..];
        }
      }
    }
  }

  /**
   * The filter works element by element: one value is kept exactly when it
   * is present and passes, and the result for a concatenation is the
   * concatenation of the results, so every qualifying value is kept, in
   * input order.
   */
  lemma {:induction false} PresentWhereConcat(xs: seq<Option<string>>, ys: seq<Option<string>>, keep: string -> bool)
    ensures PresentWhere(xs + ys, keep) == PresentWhere(xs, keep) + PresentWhere(ys, keep)
    ensures forall x: Option<string> :: PresentWhere([x], keep) == if x.Some? && keep(x.value) then [x.value] else []
  {
    if xs == [] {
      assert xs + ys == ys;
    } else {
      assert (xs + ys)[1..] == xs[1..] + ys;
      PresentWhereConcat(xs[1..], ys, keep);
    }
  }

  /** Link, then media source, then page, then tab. */
  function OrderedCandidates(cs: ContextCandidates): seq<string>
  {
    PresentWhere([cs.linkUrl, cs.srcUrl, cs.pageUrl, cs.tabUrl], NonBlank)
  }

  /** The first value of `f` over `xs` that is present. */
  function FirstSome(xs: seq<string>, f: string -> Option<string>): Option<string>
  {
    if xs == [] then None else f(xs[0]).OrElse(FirstSome(xs[1..], f))
  }

  /** `FirstSome` picks the earliest element with a value, and is None when none has one. */
  lemma {:induction false} FirstSomeSpec(xs: seq<string>, f: string -> Option<string>)
    ensures FirstSome(xs, f).None? <==> forall i :: 0 <= i < |xs| ==> f(xs[i]).None?
    ensures FirstSome(xs, f).Some? ==>
      exists i :: 0 <= i < |xs| && FirstSome(xs, f) == f(xs[i])
                  && (forall j :: 0 <= j < i ==> f(xs[j]).None?)
  {
    if xs != [] {
      FirstSomeSpec(xs[1..], f);
      if f(xs[0]).None? {
        assert forall i :: 0 < i < |xs| ==> xs[i] == xs[1..][i - 1];
        if FirstSome(xs, f).Some? {
          var k :| 0 <= k < |xs[1..]| && FirstSome(xs[1..], f) == f(xs[1..][k])
            && (forall j :: 0 <= j < k ==> f(xs[1..][j]).None?);
          assert xs[k + 1] == xs[1..][k];
          assert forall j :: 0 <= j < k + 1 ==> f(xs[j]).None?;
        }
      } else {
        assert FirstSome(xs, f) == f(xs[0]);
      }
    }
  }

  function ResolveNoBase(c: Codec): string -> Option<string>
  {
    x => ResolveIngestTarget(c, x, None)
  }

  /**
   * `resolveUrlFromContextCandidates`: the candidates in order, each
   * resolved without a base, the first success returned.
   */
  method ResolveUrlFromContextCandidates(c: Codec, cs: ContextCandidates) returns (r: Option<string>)
    ensures r == FirstSome(OrderedCandidates(cs), ResolveNoBase(c))
    ensures r.Some? ==> r.value != ""
  {
    var ordered := OrderedCandidates(cs);
    var i := 0;
    while i < |ordered|
      invariant 0 <= i <= |ordered|
      invariant FirstSome(ordered, ResolveNoBase(c)) == FirstSome(ordered[i..], ResolveNoBase(c))
    {
      var normalized := ResolveIngestTarget(c, ordered[i], None);
      ResolveNonEmpty(c, ordered[i], None);
      if normalized.Some? && normalized.value != "" {
        return normalized;
      }
      assert ordered[i..][1..] == ordered[i + 1..];
      i := i + 1;
    }
    return None;
  }
}
