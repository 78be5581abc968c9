/**
 * The background worker's TikTok capture store (`src/background/index.ts`):
 * the validators for item ids and for page, play and media links, the
 * extraction of an item id from a link, the per-tab record store with its
 * merge-patch update and its bound of sixteen records, and the lookup of
 * the link to send for a tab. The clock is a parameter; the browser's
 * session storage is a map from tab to stored value.
 */
module Capture {
  import opened Wrappers
  import opened Text
  import opened Json
  import opened Url
  import opened Normalize

  /** `TIKTOK_CAPTURE_MAX_ITEMS`. */
  const MaxItems := 16

  // ---------------------------------------------------------------------
  // Validators
  // ---------------------------------------------------------------------

  /** `normalizeTikTokItemId`: a string whose trim is 15 to 22 digits, trimmed. */
  function NormalizeItemId(v: Value): (r: Option<string>)
    ensures r.Some? <==> v.Str? && IsTikTokId(Trim(v.s))
    ensures r.Some? ==> r.value == Trim(v.s) && IsTikTokId(r.value)
  {
    match AsNonEmptyString(v)
    case None => None
    case Some(normalized) => if IsTikTokId(normalized) then Some(normalized) else None
  }

  /** `isTikTokHostname`. */
  predicate IsTikTokHostname(hostname: string): (b: bool)
    ensures b ==> Contains(Lower(hostname), TikTokDomain)
  {
    var h := Lower(hostname);
    if IsTikTokHost(h) then
      DomainOrSubdomainContains(h, TikTokDomain, "." + TikTokDomain);
      true
    else false
  }

  /** A page link the store accepts: it parses, on a TikTok host, with `/(video|photo)/` and 15 digits in its path. */
  predicate IsPageUrl(c: Codec, s: string)
  {
    c.parse(s, None).Some? && IsTikTokHostname(c.parse(s, None).value.hostname)
    && FindMedia(c.parse(s, None).value.pathname, 0, 15).Some?
  }

  /**
   * `normalizeTikTokPageUrl`: the link the library resolves the string to,
   * kept only when that link is a TikTok page with a media id in its path.
   */
  function NormalizePageUrl(c: Codec, v: Value): (r: Option<string>)
    ensures r.Some? <==>
      v.Str? && ResolveIngestTarget(c, v.s, None).Some? && IsPageUrl(c, ResolveIngestTarget(c, v.s, None).value)
    ensures r.Some? ==> r == ResolveIngestTarget(c, v.s, None)
  {
    match AsNonEmptyString(v)
    case None => None
    case Some(candidate) =>
      TrimIdempotent(v.s);
      match ResolveIngestTarget(c, candidate, None)
      case None => None
      case Some(normalized) =>
        match c.parse(normalized, None)
        case None => None
        case Some(u) =>
          if IsTikTokHostname(u.hostname) && FindMedia(u.pathname, 0, 15).Some? then Some(normalized) else None
  }

  /** The play endpoint: host `www.tiktok.com` and a path starting `/aweme/v100/play/`, in any case. */
  predicate IsPlayLink(u: Url)
  {
    Lower(u.hostname) == "www.tiktok.com" && StartsWith(Lower(u.pathname), "/aweme/v100/play/")
  }

  /** A media download: a host containing `tiktok.com` and `/video/tos/` somewhere in the path, in any case. */
  predicate IsMediaLink(u: Url)
  {
    Contains(Lower(u.hostname), "tiktok.com") && Contains(Lower(u.pathname), "/video/tos/")
  }

  ghost predicate IsPlayUrl(s: string)
  {
    exists u :: s == Href(u) && IsPlayLink(u)
  }

  ghost predicate IsMediaUrl(s: string)
  {
    exists u :: s == Href(u) && IsMediaLink(u)
  }

  /** `normalizeTikTokPlayUrl`: the serialised link, for a play-endpoint link. */
  function NormalizePlayUrl(c: Codec, v: Value): (r: Option<string>)
    ensures r.Some? <==>
      v.Str? && Trim(v.s) != "" && c.parse(Trim(v.s), None).Some? && IsPlayLink(c.parse(Trim(v.s), None).value)
    ensures r.Some? ==> r.value == Href(c.parse(Trim(v.s), None).value) && IsPlayUrl(r.value)
  {
    match AsNonEmptyString(v)
    case None => None
    case Some(candidate) =>
      match c.parse(candidate, None)
      case None => None
      case Some(u) => if IsPlayLink(u) then Some(Href(u)) else None
  }

  /** `normalizeTikTokMediaUrl`: the serialised link, for a media-download link. */
  function NormalizeMediaUrl(c: Codec, v: Value): (r: Option<string>)
    ensures r.Some? <==>
      v.Str? && Trim(v.s) != "" && c.parse(Trim(v.s), None).Some? && IsMediaLink(c.parse(Trim(v.s), None).value)
    ensures r.Some? ==> r.value == Href(c.parse(Trim(v.s), None).value) && IsMediaUrl(r.value)
  {
    match AsNonEmptyString(v)
    case None => None
    case Some(candidate) =>
      match c.parse(candidate, None)
      case None => None
      case Some(u) => if IsMediaLink(u) then Some(Href(u)) else None
  }

  /**
   * The host tests form a chain: the play host is a TikTok host, and every
   * TikTok host contains `tiktok.com`.
   */
  lemma HostTestsNest(u: Url)
    ensures IsPlayLink(u) ==> IsTikTokHostname(u.hostname)
    ensures IsTikTokHostname(u.hostname) ==> Contains(Lower(u.hostname), "tiktok.com")
  {
    CanonicalHostsInClass();
    var h := Lower(u.hostname);
    if IsTikTokHost(h) {
      DomainOrSubdomainContains(h, TikTokDomain, "." + TikTokDomain);
    }
  }

  /** A host that is a domain or ends with '.' and the domain contains the domain. */
  lemma DomainOrSubdomainContains(h: string, domain: string, dotted: string)
    requires dotted == ['.'] + domain
    requires h == domain || EndsWith(h, dotted)
    ensures Contains(h, domain)
  {
    if h == domain {
      assert OccursAt(h, domain, 0);
    } else {
      assert h[|h| - |domain|..] == dotted[1..];
      assert OccursAt(h, domain, |h| - |domain|);
    }
    ContainsFromIff(h, domain, 0);
  }

  /** The media test admits a host the page test refuses. */
  lemma MediaHostLooser()
    ensures Contains("eviltiktok.com", "tiktok.com") && !IsTikTokHost("eviltiktok.com")
  {
    var e := "eviltiktok.com";
    assert OccursAt(e, "tiktok.com", 4);
    ContainsFromIff(e, "tiktok.com", 0);
    assert e[|e| - 11..] != "." + TikTokDomain by {
      assert e[|e| - 11] == 'l';
    }
  }

  // ---------------------------------------------------------------------
  // Item ids in links
  // ---------------------------------------------------------------------

  /** The id `\/(?:video|photo)\/(\d{15,22})` captures in a path, at its first match. */
  function PathItemId(u: Url): (r: Option<string>)
    ensures r.Some? ==> IsTikTokId(r.value)
  {
    match FindMedia(u.pathname, 0, 15)
    case None => None
    case Some(i) => NormalizeItemId(Str(MediaDigitsAt(u.pathname, i, 22)))
  }

  /** The `item_id` query parameter, when it is an id. */
  function QueryItemId(c: Codec, u: Url): (r: Option<string>)
    ensures r.Some? ==> IsTikTokId(r.value)
  {
    match GetParam(c, u, "item_id")
    case None => None
    case Some(x) => NormalizeItemId(Str(x))
  }

  /**
   * `\b(\d{15,22})\b` matches at `i`: no word character before, a run of
   * 15 to 22 digits, and no word character after the whole run (a shorter
   * match would end between two digits, where there is no word boundary).
   */
  predicate BoundedIdAt(s: string, i: nat)
  {
    i < |s| && (i == 0 || !IsWordChar(s[i - 1]))
    && 15 <= |DigitRun(s[i..])| <= 22
    && (i + |DigitRun(s[i..])| == |s| || !IsWordChar(s[i + |DigitRun(s[i..])|]))
  }

  function FindBoundedId(s: string, from: nat): (r: Option<nat>)
    ensures r.Some? ==> from <= r.value && BoundedIdAt(s, r.value)
    ensures r.Some? ==> forall j :: from <= j < r.value ==> !BoundedIdAt(s, j)
    ensures r.None? ==> forall j :: from <= j ==> !BoundedIdAt(s, j)
    decreases |s| - from
  {
    if from >= |s| then None
    else if BoundedIdAt(s, from) then Some(from)
    else FindBoundedId(s, from + 1)
  }

  /** The first word-bounded run of 15 to 22 digits anywhere in the string. */
  function FallbackItemId(s: string): (r: Option<string>)
    ensures r.Some? ==> IsTikTokId(r.value)
  {
    match FindBoundedId(s, 0)
    case None => None
    case Some(i) =>
      DigitRunFacts(s[i..]);
      NormalizeItemId(Str(DigitRun(s[i..])))
  }

  /**
   * `extractTikTokItemIdFromUrl`: for a link that parses, the id in its
   * path, else its `item_id` parameter; failing both, or when it does not
   * parse, the first word-bounded id in the trimmed string.
   */
  function ExtractItemIdFromUrl(c: Codec, v: Value): (r: Option<string>)
    ensures r.Some? ==> IsTikTokId(r.value)
    ensures AsNonEmptyString(v).None? ==> r.None?
  {
    match AsNonEmptyString(v)
    case None => None
    case Some(candidate) =>
      var fromLink :=
        match c.parse(candidate, None)
        case None => None
        case Some(u) => PathItemId(u).OrElse(QueryItemId(c, u));
      fromLink.OrElse(FallbackItemId(candidate))
  }

  /** The order of the three sources of an id: the path, then the query, then the raw string. */
  lemma ExtractionOrder(c: Codec, s: string, u: Url)
    requires Trim(s) != "" && c.parse(Trim(s), None) == Some(u)
    ensures PathItemId(u).Some? ==> ExtractItemIdFromUrl(c, Str(s)) == PathItemId(u)
    ensures PathItemId(u).None? && QueryItemId(c, u).Some? ==> ExtractItemIdFromUrl(c, Str(s)) == QueryItemId(c, u)
    ensures PathItemId(u).None? && QueryItemId(c, u).None? ==>
      ExtractItemIdFromUrl(c, Str(s)) == FallbackItemId(Trim(s))
  {
  }

  /** A TikTok id, written on its own, is its own normal form. */
  lemma IdIsItsOwnNormalForm(id: string)
    requires IsTikTokId(id)
    ensures NormalizeItemId(Str(id)) == Some(id)
  {
    assert !IsSpace(id[0]) && !IsSpace(id[|id| - 1]) by {
      assert IsDigit(id[0]) && IsDigit(id[|id| - 1]);
    }
    TrimOfTrimmed(id);
  }

  /** The canonical page link for a path: `https://www.tiktok.com` followed by it. */
  function PageLink(p: string): (r: string)
    ensures r == Href(TikTokUrl(p))
  {
    TikTokOrigin + p
  }

  /** A canonical TikTok path, with the media match that produced it: `/kind/id` or `/@handle/kind/id`. */
  predicate CanonicalPathOf(p: string, m: MediaMatch)
  {
    Avoids("@" + m.handle, '/') && IsMediaKind(m.kind) && IsTikTokId(m.id) && p == CanonicalMediaPath(m)
  }

  /** Every path the library's TikTok rule produces is canonical, with the id it matched. */
  lemma TikTokPathIsCanonical(u: Url)
    requires TikTokPath(u).Some?
    ensures exists m :: CanonicalPathOf(TikTokPath(u).value, m)
  {
    var path := u.pathname;
    SplitAvoids(path, '/');
    match MatchNamedMedia(path)
    case Some(m) =>
      NamedMediaSound(path, m);
      assert CanonicalPathOf(TikTokPath(u).value, m);
    case None =>
      var m := MatchGenericMedia(path).value;
      GenericMediaSound(path, m);
      assert Lower(m.kind) + "/" + m.id == Lower(m.kind) + "/" + m.id;
      assert CanonicalPathOf(TikTokPath(u).value, m);
  }

  /** The id is read back from a canonical page link, from its path. */
  lemma ItemIdOfCanonicalPage(c: Codec, p: string, m: MediaMatch)
    requires CanonicalPathOf(p, m)
    requires c.parse(PageLink(p), None) == Some(TikTokUrl(p))
    ensures ExtractItemIdFromUrl(c, Str(PageLink(p))) == Some(m.id)
  {
    PageLinkTrimmed(p);
    PathIdOfCanonicalPath(p, m);
  }

  lemma PathIdOfCanonicalPath(p: string, m: MediaMatch)
    requires CanonicalPathOf(p, m)
    ensures PathItemId(TikTokUrl(p)) == Some(m.id)
  {
    CanonicalMediaFound(m);
    IdIsItsOwnNormalForm(m.id);
  }

  /** A canonical page link passes the page test. */
  lemma CanonicalPageIsPageUrl(c: Codec, p: string, m: MediaMatch)
    requires CanonicalPathOf(p, m)
    requires c.parse(PageLink(p), None) == Some(TikTokUrl(p))
    ensures IsPageUrl(c, PageLink(p))
  {
    CanonicalMediaFound(m);
    CanonicalHostsLower();
    CanonicalHostsInClass();
  }

  lemma PageLinkTrimmed(p: string)
    requires p != "" && IsDigit(p[|p| - 1])
    ensures AsNonEmptyString(Str(PageLink(p))) == Some(PageLink(p))
  {
    PageLinkEnds(p);
    TrimmedIsNonEmpty(PageLink(p));
  }

  lemma PageLinkEnds(p: string)
    requires p != "" && IsDigit(p[|p| - 1])
    ensures Trimmed(PageLink(p)) && PageLink(p) != ""
  {
    var s := PageLink(p);
    assert s[0] == 'h';
    assert s[|s| - 1] == p[|p| - 1];
  }

  /**
   * Every TikTok video or photo link the library's TikTok rule accepts
   * passes the page test, as its canonical link, given that the parser
   * reads the links involved back.
   */
  lemma PageUrlAcceptsTikTokLinks(c: Codec, raw: string, u: Url)
    requires Trim(raw) != "" && c.parse(Trim(raw), None) == Some(u) && RoundTrips(c, u, None)
    requires TikTokPath(u).Some?
    requires c.parse(PageLink(TikTokPath(u).value), None) == Some(TikTokUrl(TikTokPath(u).value))
    ensures NormalizePageUrl(c, Str(raw)) == Some(PageLink(TikTokPath(u).value))
  {
    var p := TikTokPath(u).value;
    ResolveIsCanonical(c, raw, None, u);
    HostClassesDisjoint(Lower(u.hostname));
    assert Canonical(c, u) == Some(TikTokOrigin + p);
    TikTokPathIsCanonical(u);
    var m :| CanonicalPathOf(p, m);
    CanonicalPageIsPageUrl(c, p, m);
  }

  /**
   * The page test is not anchored: a TikTok link the TikTok rule refuses,
   * which the library passes through as a generic link, still passes it
   * when `/video/` or `/photo/` and 15 digits appear anywhere in its path.
   */
  lemma PageUrlAdmitsFallback(c: Codec, raw: string, u: Url)
    requires Trim(raw) != "" && c.parse(Trim(raw), None) == Some(u) && RoundTrips(c, u, None)
    requires IsHttpProtocol(u.protocol) && IsTikTokHostname(u.hostname) && TikTokPath(u).None?
    requires FindMedia(u.pathname, 0, 15).Some?
    requires c.parse(Href(u.(hash := "")), None) == Some(u.(hash := ""))
    ensures NormalizePageUrl(c, Str(raw)) == Some(Href(u.(hash := "")))
  {
    ResolveIsCanonical(c, raw, None, u);
    FallbackPolicy(c, u);
  }

  /** Such a path: `/foo/video/123456789012345`. */
  function FallbackExamplePath(): string
  {
    SegmentThenMedia("foo", "video", "123456789012345")
  }

  function SegmentThenMedia(w: string, k: string, id: string): string
  {
    "/" + w + "/" + k + "/" + id
  }

  /** The example path is neither TikTok shape, yet holds a media id. */
  lemma FallbackPathExample(u: Url)
    requires u.pathname == FallbackExamplePath()
    ensures MatchNamedMedia(u.pathname).None? && MatchGenericMedia(u.pathname).None?
    ensures FindMedia(u.pathname, 0, 15) == Some(4)
  {
    VideoIsLower();
    ExampleDigits();
    ExampleSegment();
    SegmentThenMediaFound("foo", "video", "123456789012345");
  }

  /**
   * A path whose first segment is not a media kind and does not start
   * with '@', followed by a media kind and an id, has no TikTok shape but
   * holds the media pattern after its first segment.
   */
  lemma SegmentThenMediaFound(w: string, k: string, id: string)
    requires w != "" && Avoids(w, '/') && w[0] != '@' && LowerChar(w[0]) != 'v' && LowerChar(w[0]) != 'p'
    requires IsMediaKind(k) && |DigitRun(id)| >= 15
    ensures var q := SegmentThenMedia(w, k, id);
      MatchNamedMedia(q).None? && MatchGenericMedia(q).None? && FindMedia(q, 0, 15) == Some(|w| + 1)
  {
    var q := SegmentThenMedia(w, k, id);
    var i := |w| + 1;
    MediaKindLength(k);
    SegmentThenMediaParts(w, k, id);
    assert MediaAt(q, i, 15);
    KindStartsWithVOrP(q[1..6]);
    forall j | 0 <= j < i
      ensures !MediaAt(q, j, 15)
    {
      if j > 0 {
        assert q[j] == w[j - 1];
      }
    }
    FindMediaAt(q, i, 15);
    assert q[..2][1] == q[1];
  }

  /** Where the parts of `SegmentThenMedia` sit. */
  lemma SegmentThenMediaParts(w: string, k: string, id: string)
    requires |k| == 5
    ensures var q := SegmentThenMedia(w, k, id); var i := |w| + 1;
      |q| == i + 7 + |id| && q[0] == '/' && q[1..i] == w && q[i] == '/'
      && q[i + 1..i + 6] == k && q[i + 6] == '/' && q[i + 7..] == id
  {
  }

  /** A media kind starts with 'v' or 'p', in either case. */
  lemma KindStartsWithVOrP(s: string)
    ensures IsMediaKind(s) ==> |s| == 5 && (LowerChar(s[0]) == 'v' || LowerChar(s[0]) == 'p')
  {
    if IsMediaKind(s) {
      MediaKindLength(s);
      assert Lower(s)[0] == LowerChar(s[0]);
      assert "video"[0] == 'v' && "photo"[0] == 'p';
    }
  }

  lemma ExampleSegment()
    ensures Avoids("foo", '/') && "foo"[0] == 'f' && |"foo"| == 3
  {
  }

  lemma VideoIsLower()
    ensures IsMediaKind("video")
  {
    var v := "video";
    forall i | 0 <= i < |v| ensures !IsUpper(v[i]) {
    }
    LowerOfLower(v);
  }

  lemma ExampleDigits()
    ensures |DigitRun("123456789012345")| == 15
  {
    var id := "123456789012345";
    assert AllDigits(id);
    DigitRunUnique(id, id);
  }
}
