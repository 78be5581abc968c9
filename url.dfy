/**
 * The link normaliser of the extension: per-platform canonical forms for
 * YouTube, TikTok and X/Twitter links, the generic http(s) pass-through,
 * API-URL normalisation with the host-permission pattern derived from it,
 * the host-first dispatcher and the first-match resolver over the URLs a
 * context menu offers.
 *
 * Parsing follows the WHATWG URL Standard (section 4.4, URL parsing) and is
 * not reimplemented: a `Codec` supplies the parser and the
 * application/x-www-form-urlencoded parser and serializer of
 * `URLSearchParams` (sections 5.1 and 5.2). What the source does with a
 * parsed URL (host tests, path shapes, the `href` and `origin` getters,
 * building a fresh URL) is written out.
 */
module Url {
  import opened Wrappers
  import opened Text

  /**
   * A parsed URL as the URL API exposes it. Every component is in its
   * serialised form: `protocol` carries its ':', `credentials` is empty or
   * ends in '@', `port` is empty for the scheme's default port, `search` is
   * empty or starts with '?', `hash` is empty or starts with '#'.
   */
  datatype Url = Url(
    protocol: string,
    credentials: string,
    hasHost: bool,
    hostname: string,
    port: string,
    pathname: string,
    search: string,
    hash: string)

  /** One name/value pair of a `URLSearchParams` list. */
  datatype Param = Param(name: string, value: string)

  /** The foreign parsers and serializers the normaliser calls. */
  datatype Codec = Codec(
    /** `new URL(input, base)`, or None where the constructor throws. */
    parse: (string, Option<string>) -> Option<Url>,
    /** The application/x-www-form-urlencoded parser behind `searchParams`. */
    decodeQuery: string -> seq<Param>,
    /** The application/x-www-form-urlencoded serializer behind `searchParams.set`. */
    encodeQuery: seq<Param> -> string)

  /** The `host` getter: hostname, then ':' and the port when there is one. */
  function Host(u: Url): string
  {
    u.hostname + (if u.port == "" then "" else ":" + u.port)
  }

  /** The `href` getter (`toString()`). */
  function Href(u: Url): string
  {
    u.protocol + (if u.hasHost then "//" + u.credentials + Host(u) else "")
    + u.pathname + u.search + u.hash
  }

  /** Schemes whose origin is a tuple; every other scheme has the opaque origin "null". */
  predicate HasTupleOrigin(protocol: string)
  {
    protocol in {"http:", "https:", "ws:", "wss:", "ftp:"}
  }

  lemma HttpHasTupleOrigin(protocol: string)
    requires IsHttpProtocol(protocol)
    ensures HasTupleOrigin(protocol)
  {
  }

  /** The `origin` getter, serialised. */
  function Origin(u: Url): string
  {
    if HasTupleOrigin(u.protocol) then u.protocol + "//" + Host(u) else "null"
  }

  /** The query without its leading '?': what `searchParams` is parsed from. */
  function Query(u: Url): string
  {
    if u.search == "" then "" else u.search[1..]
  }

  /** `URLSearchParams.get`: the value of the first pair with that name. */
  function Lookup(ps: seq<Param>, name: string): (r: Option<string>)
    ensures r.Some? <==> exists i :: 0 <= i < |ps| && ps[i].name == name
    ensures r.Some? ==> exists i :: 0 <= i < |ps| && ps[i] == Param(name, r.value)
                          && forall j :: 0 <= j < i ==> ps[j].name != name
  {
    if ps == [] then None
    else if ps[0].name == name then
      assert ps[0] == Param(name, ps[0].value);
      Some(ps[0].value)
    else
      var r := Lookup(ps[1..], name);
      assert forall i :: 0 < i < |ps| ==> ps[i] == ps[1..][i - 1];
      if r.Some? then
        var k :| 0 <= k < |ps[1..]| && ps[1..][k] == Param(name, r.value)
                 && forall j :: 0 <= j < k ==> ps[1..][j].name != name;
        assert ps[k + 1] == Param(name, r.value);
        assert forall j :: 0 <= j < k + 1 ==> ps[j].name != name;
        r
      else r
  }

  function GetParam(c: Codec, u: Url, name: string): Option<string>
  {
    Lookup(c.decodeQuery(Query(u)), name)
  }

  /** Every pair except those named `name`. */
  function Without(ps: seq<Param>, name: string): (r: seq<Param>)
    ensures forall i :: 0 <= i < |r| ==> r[i].name != name
    ensures forall n :: n != name ==> Lookup(r, n) == Lookup(ps, n)
  {
    if ps == [] then []
    else if ps[0].name == name then Without(ps[1..], name)
    else [ps[0]] + Without(ps[1..], name)
  }

  /**
   * `URLSearchParams.set`: the first pair with that name takes the value and
   * the others with that name go; without one, the pair is appended.
   */
  function SetParam(ps: seq<Param>, name: string, value: string): (r: seq<Param>)
    ensures Lookup(r, name) == Some(value)
    ensures forall n :: n != name ==> Lookup(r, n) == Lookup(ps, n)
  {
    if ps == [] then [Param(name, value)]
    else if ps[0].name == name then [Param(name, value)] + Without(ps[1..], name)
    else [ps[0]] + SetParam(ps[1..], name, value)
  }

  /** A URL after `searchParams` was replaced by `ps`. */
  function WithParams(c: Codec, u: Url, ps: seq<Param>): (r: Url)
    ensures Query(r) == c.encodeQuery(ps)
    ensures r == u.(search := r.search)
  {
    var q := c.encodeQuery(ps);
    u.(search := if q == "" then "" else "?" + q)
  }

  predicate IsHttpProtocol(protocol: string)
  {
    protocol == "http:" || protocol == "https:"
  }

  predicate IsYoutubeHost(host: string)
  {
    host in {"www.youtube.com", "youtube.com", "m.youtube.com", "youtu.be"}
  }

  predicate IsTwitterHost(host: string)
  {
    host in {"x.com", "www.x.com", "twitter.com", "www.twitter.com"}
  }

  const TikTokDomain := "tiktok.com"

  /** `tiktok.com` itself or any of its subdomains. */
  predicate IsTikTokHost(host: string)
  {
    host == TikTokDomain || EndsWith(host, "." + TikTokDomain)
  }

  /** The three platform host classes are disjoint. */
  lemma HostClassesDisjoint(host: string)
    ensures !(IsYoutubeHost(host) && IsTikTokHost(host))
    ensures !(IsYoutubeHost(host) && IsTwitterHost(host))
    ensures !(IsTikTokHost(host) && IsTwitterHost(host))
  {
    TikTokHostShape(host);
    OtherHostShape(host);
  }

  /** No YouTube or Twitter host has 't' as its tenth last character. */
  lemma OtherHostShape(h: string)
    ensures IsYoutubeHost(h) || IsTwitterHost(h) ==> |h| < 10 || h[|h| - 10] != 't'
  {
    if h == "youtube.com" || h == "www.youtube.com" || h == "m.youtube.com" {
      assert h[|h| - 10] != 't';
    } else if h == "twitter.com" || h == "www.twitter.com" {
      assert h[|h| - 10] != 't';
    }
  }

  /** A TikTok host ends with `tiktok.com`, so it is at least ten long and its tenth last character is 't'. */
  lemma TikTokHostShape(h: string)
    ensures IsTikTokHost(h) ==> |h| >= 10 && h[|h| - 10] == 't'
  {
    assert TikTokDomain[0] == 't';
    if IsTikTokHost(h) && h != TikTokDomain {
      assert h[|h| - 11..] == "." + TikTokDomain;
      assert h[|h| - 10] == h[|h| - 11..][1];
    }
  }

  /** The hosts the canonical links use are already lower case. */
  lemma CanonicalHostsLower()
    ensures Lower("www.youtube.com") == "www.youtube.com"
    ensures Lower("www.tiktok.com") == "www.tiktok.com"
  {
    YoutubeHostLower();
    TikTokHostLower();
  }

  lemma YoutubeHostLower()
    ensures Lower("www.youtube.com") == "www.youtube.com"
  {
    var s := "www.youtube.com";
    forall i | 0 <= i < |s| ensures !IsUpper(s[i]) {
    }
    LowerOfLower(s);
  }

  lemma TikTokHostLower()
    ensures Lower("www.tiktok.com") == "www.tiktok.com"
  {
    var s := "www.tiktok.com";
    forall i | 0 <= i < |s| ensures !IsUpper(s[i]) {
    }
    LowerOfLower(s);
  }

  lemma CanonicalHostsInClass()
    ensures IsYoutubeHost("www.youtube.com") && "www.youtube.com" != "youtu.be"
    ensures IsTikTokHost("www.tiktok.com")
  {
    var t := "www.tiktok.com";
    assert t[|t| - |"." + TikTokDomain|..] == "." + TikTokDomain;
  }

  // ---------------------------------------------------------------------
  // The path patterns, as matchers that follow the regular expressions
  // ---------------------------------------------------------------------

  /** `(video|photo)` under the `i` flag. */
  predicate IsMediaKind(s: string)
  {
    Lower(s) == "video" || Lower(s) == "photo"
  }

  /** `\d{15,22}` standing alone: the content ids TikTok uses. */
  predicate IsTikTokId(s: string)
  {
    AllDigits(s) && 15 <= |s| <= 22
  }

  datatype MediaMatch = MediaMatch(handle: string, kind: string, id: string)

  /** The digits of `s` matched by `(\d{15,22})(?:\/|$)`, or None. */
  function MatchIdThenEnd(s: string): (r: Option<string>)
    ensures r.Some? ==> IsTikTokId(r.value) && StartsWith(s, r.value)
  {
    DigitRunFacts(s);
    var id := DigitRun(s);
    var after := s[|id|..];
    if 15 <= |id| <= 22 && (after == [] || after[0] == '/') then Some(id) else None
  }

  /** `/^\/@([^/]+)\/(video|photo)\/(\d{15,22})(?:\/|$)/i` applied to a path. */
  function MatchNamedMedia(p: string): Option<MediaMatch>
  {
    if !StartsWith(p, "/@") then None
    else
      var handle := Upto(p[2..], '/');
      var rest := p[2 + |handle|..];
      if handle == [] || |rest| < 7 || rest[0] != '/' || !IsMediaKind(rest[1..6]) || rest[6] != '/' then None
      else
        match MatchIdThenEnd(rest[7..])
        case None => None
        case Some(id) => Some(MediaMatch(handle, rest[1..6], id))
  }

  /** `/^\/(video|photo)\/(\d{15,22})(?:\/|$)/i` applied to a path. */
  function MatchGenericMedia(p: string): Option<MediaMatch>
  {
    if |p| < 7 || p[0] != '/' || !IsMediaKind(p[1..6]) || p[6] != '/' then None
    else
      match MatchIdThenEnd(p[7..])
      case None => None
      case Some(id) => Some(MediaMatch("", p[1..6], id))
  }

  /** `/^\/([^/]+)\/status\/(\d+)/i`: the user and the status digits. */
  function MatchUserStatus(p: string): Option<(string, string)>
  {
    if p == [] || p[0] != '/' then None
    else
      var user := Upto(p[1..], '/');
      var rest := p[1 + |user|..];
      if user == [] || |rest| < 8 || rest[0] != '/' || Lower(rest[1..7]) != "status" || rest[7] != '/' then None
      else
        var digits := DigitRun(rest[8..]);
        if digits == [] then None else Some((user, digits))
  }

  /** `/^\/i\/web\/status\/(\d+)/i`: the status digits. */
  function MatchWebStatus(p: string): Option<string>
  {
    if |p| < 14 || p[0] != '/' || Lower(p[1..2]) != "i" || p[2] != '/' || Lower(p[3..6]) != "web"
       || p[6] != '/' || Lower(p[7..13]) != "status" || p[13] != '/' then None
    else
      var digits := DigitRun(p[14..]);
      if digits == [] then None else Some(digits)
  }

  // ---------------------------------------------------------------------
  // The same patterns read as conditions on the '/'-separated fields
  // ---------------------------------------------------------------------

  /** Fields "", "@handle", a media kind, a 15-22 digit id, then anything. */
  predicate NamedMediaShape(p: string, m: MediaMatch)
  {
    var f := Split(p, '/');
    |f| >= 4 && f[0] == "" && m.handle != "" && f[1] == "@" + m.handle
    && f[2] == m.kind && IsMediaKind(m.kind) && f[3] == m.id && IsTikTokId(m.id)
  }

  /** Fields "", a media kind, a 15-22 digit id, then anything. */
  predicate GenericMediaShape(p: string, m: MediaMatch)
  {
    var f := Split(p, '/');
    |f| >= 3 && f[0] == "" && m.handle == "" && f[1] == m.kind && IsMediaKind(m.kind)
    && f[2] == m.id && IsTikTokId(m.id)
  }

  /** Fields "", a user, "status" in any case, then a field that starts with the digits. */
  predicate UserStatusShape(p: string, user: string, digits: string)
  {
    var f := Split(p, '/');
    |f| >= 4 && f[0] == "" && user != "" && f[1] == user && Lower(f[2]) == "status"
    && digits != "" && digits == DigitRun(f[3])
  }

  /** Fields "", "i", "web", "status" in any case, then a field that starts with the digits. */
  predicate WebStatusShape(p: string, digits: string)
  {
    var f := Split(p, '/');
    |f| >= 5 && f[0] == "" && Lower(f[1]) == "i" && Lower(f[2]) == "web" && Lower(f[3]) == "status"
    && digits != "" && digits == DigitRun(f[4])
  }

  /** A literal without '/', matched under the `i` flag, contains no '/'. */
  lemma LowerKeepsSlash(s: string, lit: string)
    requires Lower(s) == lit && Avoids(lit, '/')
    ensures Avoids(s, '/')
  {
    forall i | 0 <= i < |s| ensures s[i] != '/' {
      assert Lower(s)[i] == LowerChar(s[i]);
    }
  }

  lemma MediaKindLength(k: string)
    requires IsMediaKind(k)
    ensures |k| == 5 && Avoids(k, '/')
  {
    assert |Lower(k)| == |k|;
    if Lower(k) == "video" { LowerKeepsSlash(k, "video"); } else { LowerKeepsSlash(k, "photo"); }
  }

  lemma NamedMediaSound(p: string, m: MediaMatch)
    requires MatchNamedMedia(p) == Some(m)
    ensures NamedMediaShape(p, m)
  {
    var h := m.handle;
    var rest := p[2 + |h|..];
    var k := m.kind;
    var r7 := rest[7..];
    assert h == Upto(p[2..], '/') && h != [] && k == rest[1..6] && IsMediaKind(k);
    assert MatchIdThenEnd(r7) == Some(m.id);
    assert Split(p, '/') == ["", "@" + h] + Split(rest[1..], '/') by {
      NamedHeadParts(p, h);
      assert rest[1..] == p[3 + |h|..];
      SplitTwoFields("@" + h, rest[1..]);
    }
    assert Split(rest[1..], '/') == [k] + Split(r7, '/') by {
      MediaKindLength(k);
      PeelField(rest[1..], '/', k);
      assert rest[1..][6..] == r7;
    }
    assert Split(r7, '/')[0] == m.id by {
      DigitRunFacts(r7);
      PeelLast(r7, '/', m.id);
    }
  }

  /** A path `/@handle/...` splits into "", "@handle", then the fields after the handle. */
  /** A path `/@handle/...` written out as its parts. */
  lemma NamedHeadParts(p: string, h: string)
    requires StartsWith(p, "/@") && h == Upto(p[2..], '/') && 2 + |h| < |p|
    ensures Avoids("@" + h, '/') && p == "/" + ("@" + h) + "/" + p[3 + |h|..]
  {
    var a := "@" + h;
    var q := p[3 + |h|..];
    assert p[2 + |h|] == '/' && Avoids(h, '/') && p[2..][..|h|] == h by {
      UptoFacts(p[2..], '/');
      assert p[2 + |h|] == p[2..][|h|];
    }
    assert Avoids(a, '/') by {
      forall i | 0 <= i < |a| ensures a[i] != '/' {
        if i > 0 { assert a[i] == h[i - 1]; }
      }
    }
    assert p[..2] == "/@";
    assert p == p[..2] + p[2..2 + |h|] + [p[2 + |h|]] + q;
  }

  /** The first two fields of a named-media path, read back from the path. */
  lemma NamedHead(p: string, h: string)
    requires |Split(p, '/')| >= 3 && Split(p, '/')[0] == "" && Split(p, '/')[1] == "@" + h
    ensures StartsWith(p, "/@") && Upto(p[2..], '/') == h
    ensures |p| > 2 + |h| && p[2 + |h|] == '/' && Split(p[3 + |h|..], '/') == Split(p, '/')[2..]
  {
    var p1 := p[1..];
    EmptyFirstField(p);
    HandleField(p1, h);
    assert p[2..] == p1[1..];
    assert p[3 + |h|..] == p1[2 + |h|..];
  }

  /** A split whose first field is empty: the string starts with the separator, and the rest splits into the other fields. */
  lemma EmptyFirstField(p: string)
    requires |Split(p, '/')| >= 2 && Split(p, '/')[0] == ""
    ensures p != [] && p[0] == '/' && Split(p[1..], '/') == Split(p, '/')[1..]
  {
    FirstField(p, '/');
  }

  /** A first field `@handle`: the handle is what comes before the next separator. */
  lemma HandleField(s: string, h: string)
    requires |Split(s, '/')| >= 2 && Split(s, '/')[0] == "@" + h
    ensures |s| > 1 + |h| && s[0] == '@' && Upto(s[1..], '/') == h && s[1 + |h|] == '/'
    ensures Split(s[2 + |h|..], '/') == Split(s, '/')[1..]
  {
    var a := "@" + h;
    FirstField(s, '/');
    assert s[..|a|] == a;
    assert s[0] == '@' && s[1..][..|h|] == h;
    assert Avoids(h, '/') by {
      forall i | 0 <= i < |h| ensures h[i] != '/' {
        assert h[i] == a[i + 1];
      }
    }
    UptoUnique(s[1..], '/', h);
  }

  lemma NamedMediaComplete(p: string, m: MediaMatch)
    requires NamedMediaShape(p, m)
    ensures MatchNamedMedia(p) == Some(m)
  {
    var f := Split(p, '/');
    var h := m.handle;
    NamedHead(p, h);
    var rest := p[2 + |h|..];
    var q := rest[1..];
    FirstField(q, '/');
    MediaKindLength(m.kind);
    var r7 := q[6..];
    assert MatchIdThenEnd(r7) == Some(m.id) by {
      assert Split(r7, '/') == f[3..];
      LastField(r7, '/');
      DigitRunUnique(r7, m.id);
    }
    assert rest[1..6] == m.kind && rest[6] == '/' && rest[7..] == r7;
  }

  /** The named TikTok regular expression matches exactly the paths of that field shape. */
  lemma NamedMediaIff(p: string, m: MediaMatch)
    ensures MatchNamedMedia(p) == Some(m) <==> NamedMediaShape(p, m)
  {
    if MatchNamedMedia(p) == Some(m) { NamedMediaSound(p, m); }
    if NamedMediaShape(p, m) { NamedMediaComplete(p, m); }
  }

  lemma GenericMediaSound(p: string, m: MediaMatch)
    requires MatchGenericMedia(p) == Some(m)
    ensures GenericMediaShape(p, m)
  {
    var k := p[1..6];
    var r7 := p[7..];
    var id := DigitRun(r7);
    DigitRunFacts(r7);
    MediaKindLength(k);
    PeelField(p, '/', "");
    PeelField(p[1..], '/', k);
    assert p[1..][6..] == r7;
    PeelLast(r7, '/', id);
  }

  lemma GenericMediaComplete(p: string, m: MediaMatch)
    requires GenericMediaShape(p, m)
    ensures MatchGenericMedia(p) == Some(m)
  {
    var f := Split(p, '/');
    FirstField(p, '/');
    var p1 := p[1..];
    FirstField(p1, '/');
    MediaKindLength(m.kind);
    var r7 := p[7..];
    assert r7 == p1[6..];
    assert p[1..6] == m.kind;
    assert MatchIdThenEnd(r7) == Some(m.id) by {
      LastField(r7, '/');
      DigitRunUnique(r7, m.id);
    }
  }

  /** The generic TikTok regular expression matches exactly the paths of that field shape. */
  lemma GenericMediaIff(p: string, m: MediaMatch)
    ensures MatchGenericMedia(p) == Some(m) <==> GenericMediaShape(p, m)
  {
    if MatchGenericMedia(p) == Some(m) { GenericMediaSound(p, m); }
    if GenericMediaShape(p, m) { GenericMediaComplete(p, m); }
  }

  lemma UserStatusSound(p: string, user: string, digits: string)
    requires MatchUserStatus(p) == Some((user, digits))
    ensures UserStatusShape(p, user, digits)
  {
    UptoFacts(p[1..], '/');
    UserStatusOfMatch(p, user, p[1 + |user|..]);
  }

  /** The pieces `MatchUserStatus` checks, put back together. */
  lemma UserStatusOfMatch(p: string, user: string, rest: string)
    requires p != [] && p[0] == '/' && user != [] && Avoids(user, '/')
    requires 1 + |user| <= |p| && p[1..][..|user|] == user && rest == p[1 + |user|..]
    requires |rest| >= 8 && rest[0] == '/' && Lower(rest[1..7]) == "status" && rest[7] == '/'
    requires DigitRun(rest[8..]) != []
    ensures UserStatusShape(p, user, DigitRun(rest[8..]))
  {
    var w, t := rest[1..7], rest[8..];
    assert Avoids(w, '/') by {
      LowerKeepsSlash(w, "status");
    }
    var t1, t2 := p[1..], rest[1..];
    assert p == "" + ['/'] + t1 by { assert p == [p[0]] + t1; }
    assert t1 == user + ['/'] + t2 by { assert t1 == t1[..|user|] + [t1[|user|]] + t2; }
    assert t2 == w + ['/'] + t by { assert t2 == t2[..6] + [t2[6]] + t; }
    assert p == "/" + user + "/" + w + "/" + t by { ThreeFieldsText(p, t1, t2, t, user, w); }
    UserStatusOfParts(user, w, t);
  }

  lemma UserStatusOfParts(user: string, w: string, t: string)
    requires Avoids(user, '/') && Avoids(w, '/') && user != "" && Lower(w) == "status" && DigitRun(t) != ""
    ensures UserStatusShape("/" + user + "/" + w + "/" + t, user, DigitRun(t))
  {
    ThreeFieldsSplit(user, w, t);
    SplitFields(t, '/');
    DigitRunUpto(t, '/');
  }

  /** A path "/a/b/t" with no '/' in `a` or `b`: its split is "", `a`, `b`, then the split of `t`. */
  lemma ThreeFieldsSplit(a: string, b: string, t: string)
    requires Avoids(a, '/') && Avoids(b, '/')
    ensures Split("/" + a + "/" + b + "/" + t, '/') == ["", a, b] + Split(t, '/')
  {
    var bt := b + "/" + t;
    assert "/" + a + "/" + b + "/" + t == "/" + a + "/" + bt;
    SplitTwoFields(a, bt);
    assert bt == b + ['/'] + t;
    SplitCons(b, '/', t);
  }

  lemma UserStatusComplete(p: string, user: string, digits: string)
    requires UserStatusShape(p, user, digits)
    ensures MatchUserStatus(p) == Some((user, digits))
  {
    var f := Split(p, '/');
    var w := f[2];
    var t1 := p[1..];
    assert p == "" + ['/'] + t1 && Split(t1, '/') == f[1..] by { HeadSplit(p, '/'); }
    var t2 := t1[|user| + 1..];
    assert Avoids(user, '/') && t1 == user + ['/'] + t2 && Split(t2, '/') == f[2..] by { HeadSplit(t1, '/'); }
    var t := t2[|w| + 1..];
    assert Avoids(w, '/') && t2 == w + ['/'] + t && Split(t, '/') == f[3..] by { HeadSplit(t2, '/'); }
    assert p == "/" + user + "/" + w + "/" + t by { ThreeFieldsText(p, t1, t2, t, user, w); }
    assert digits == DigitRun(t) by {
      SplitFields(t, '/');
      DigitRunUpto(t, '/');
    }
    UserStatusMatchOfParts(user, w, t);
  }

  /** A path peeled field by field is the fields written out with their separators. */
  lemma ThreeFieldsText(p: string, t1: string, t2: string, t: string, a: string, b: string)
    requires p == "" + ['/'] + t1 && t1 == a + ['/'] + t2 && t2 == b + ['/'] + t
    ensures p == "/" + a + "/" + b + "/" + t
  {
  }

  /** The user-status matcher on a path written out as its fields. */
  lemma UserStatusMatchOfParts(user: string, w: string, t: string)
    requires Avoids(user, '/') && user != "" && Lower(w) == "status" && DigitRun(t) != ""
    ensures MatchUserStatus("/" + user + "/" + w + "/" + t) == Some((user, DigitRun(t)))
  {
    var p := "/" + user + "/" + w + "/" + t;
    var rest := "/" + w + "/" + t;
    assert |w| == 6 by { assert |Lower(w)| == |w|; }
    assert p[0] == '/' && p[1..] == user + rest by { assert p == "/" + (user + rest); }
    assert Upto(p[1..], '/') == user by { UptoOf(user, '/', rest); }
    assert p[1 + |user|..] == rest by { assert p == "/" + (user + rest); }
    assert |rest| >= 8 && rest[0] == '/' && rest[7] == '/' && rest[1..7] == w && rest[8..] == t by {
      assert rest == ['/'] + w + ['/'] + t;
    }
    MatchUserStatusOf(p, user, rest);
  }

  /** `MatchUserStatus` once its checks are known to pass. */
  lemma MatchUserStatusOf(p: string, user: string, rest: string)
    requires p != [] && p[0] == '/' && Upto(p[1..], '/') == user && user != [] && rest == p[1 + |user|..]
    requires |rest| >= 8 && rest[0] == '/' && Lower(rest[1..7]) == "status" && rest[7] == '/'
    requires DigitRun(rest[8..]) != []
    ensures MatchUserStatus(p) == Some((user, DigitRun(rest[8..])))
  {
  }

  /** The X user-status regular expression matches exactly the paths of that field shape. */
  lemma UserStatusIff(p: string, user: string, digits: string)
    ensures MatchUserStatus(p) == Some((user, digits)) <==> UserStatusShape(p, user, digits)
  {
    if MatchUserStatus(p) == Some((user, digits)) { UserStatusSound(p, user, digits); }
    if UserStatusShape(p, user, digits) { UserStatusComplete(p, user, digits); }
  }

  lemma WebStatusSound(p: string, digits: string)
    requires MatchWebStatus(p) == Some(digits)
    ensures WebStatusShape(p, digits)
  {
    var a, b, c, t := p[1..2], p[3..6], p[7..13], p[14..];
    assert Avoids(a, '/') && Avoids(b, '/') && Avoids(c, '/') by {
      LowerKeepsSlash(a, "i");
      LowerKeepsSlash(b, "web");
      LowerKeepsSlash(c, "status");
    }
    assert p == "/" + a + "/" + b + "/" + c + "/" + t by {
      assert p == [p[0]] + a + [p[2]] + b + [p[6]] + c + [p[13]] + t;
    }
    FourFieldsSplit(a, b, c, t);
    SplitFields(t, '/');
    DigitRunUpto(t, '/');
  }

  /** A path "/a/b/c/t" with no '/' in `a`, `b` or `c`: its split is "", `a`, `b`, `c`, then the split of `t`. */
  lemma FourFieldsSplit(a: string, b: string, c: string, t: string)
    requires Avoids(a, '/') && Avoids(b, '/') && Avoids(c, '/')
    ensures Split("/" + a + "/" + b + "/" + c + "/" + t, '/') == ["", a, b, c] + Split(t, '/')
  {
    var bt := b + "/" + c + "/" + t;
    assert "/" + a + "/" + b + "/" + c + "/" + t == "/" + a + "/" + bt;
    SplitTwoFields(a, bt);
    assert bt == b + ['/'] + (c + "/" + t);
    SplitCons(b, '/', c + "/" + t);
    assert c + "/" + t == c + ['/'] + t;
    SplitCons(c, '/', t);
  }

  lemma WebStatusComplete(p: string, digits: string)
    requires WebStatusShape(p, digits)
    ensures MatchWebStatus(p) == Some(digits)
  {
    var f := Split(p, '/');
    FirstField(p, '/');
    FirstField(p[1..], '/');
    assert |Lower(f[1])| == |f[1]| && |Lower(f[2])| == |f[2]| && |Lower(f[3])| == |f[3]|;
    assert p[1..2] == f[1];
    assert p[1..][2..] == p[3..];
    FirstField(p[3..], '/');
    assert p[3..6] == f[2];
    assert p[3..][4..] == p[7..];
    FirstField(p[7..], '/');
    assert p[7..13] == f[3];
    assert p[7..][7..] == p[14..];
    SplitFields(p[14..], '/');
    DigitRunUpto(p[14..], '/');
  }

  /** The X web-status regular expression matches exactly the paths of that field shape. */
  lemma WebStatusIff(p: string, digits: string)
    ensures MatchWebStatus(p) == Some(digits) <==> WebStatusShape(p, digits)
  {
    if MatchWebStatus(p) == Some(digits) { WebStatusSound(p, digits); }
    if WebStatusShape(p, digits) { WebStatusComplete(p, digits); }
  }

  /** A path "/a/b": its split is "", `a`, then the split of `b`. */
  lemma SplitTwoFields(a: string, b: string)
    requires Avoids(a, '/')
    ensures Split("/" + a + "/" + b, '/') == ["", a] + Split(b, '/')
  {
    var q := a + "/" + b;
    SplitCons("", '/', q);
    assert "/" + a + "/" + b == "" + ['/'] + q;
    SplitCons(a, '/', b);
    assert q == a + ['/'] + b;
  }

  /** The literal fields of the canonical X paths match themselves under the `i` flag. */
  lemma StatusWordsLower()
    ensures Lower("status") == "status" && Lower("web") == "web" && Lower("i") == "i"
  {
    var s := "status";
    forall i | 0 <= i < |s| ensures !IsUpper(s[i]) {
    }
    LowerOfLower(s);
    var w := "web";
    forall i | 0 <= i < |w| ensures !IsUpper(w[i]) {
    }
    LowerOfLower(w);
    assert Lower("i") == [LowerChar('i')] + Lower([]);
  }
  // ---------------------------------------------------------------------
  // Unanchored media patterns: the first match anywhere in a string
  // ---------------------------------------------------------------------

  /** `\/(?:video|photo)\/\d{n,}` under the `i` flag matches at position `i` of `s`. */
  predicate MediaAt(s: string, i: nat, minDigits: nat)
  {
    i + 7 <= |s| && s[i] == '/' && IsMediaKind(s[i + 1..i + 6]) && s[i + 6] == '/'
    && |DigitRun(s[i + 7..])| >= minDigits
  }

  /** Where a regular expression search for the media pattern finds its leftmost match at or after `from`. */
  function FindMedia(s: string, from: nat, minDigits: nat): (r: Option<nat>)
    ensures r.Some? ==> from <= r.value && MediaAt(s, r.value, minDigits)
    ensures r.Some? ==> forall j :: from <= j < r.value ==> !MediaAt(s, j, minDigits)
    ensures r.None? ==> forall j :: from <= j ==> !MediaAt(s, j, minDigits)
    decreases |s| - from
  {
    if from + 7 > |s| then None
    else if MediaAt(s, from, minDigits) then Some(from)
    else FindMedia(s, from + 1, minDigits)
  }

  /** The kind and the digits of the match at `i`; a bounded `\d{m,n}` captures at most `n` of them. */
  function MediaKindAt(s: string, i: nat): string
    requires i + 7 <= |s|
  {
    s[i + 1..i + 6]
  }

  function MediaDigitsAt(s: string, i: nat, maxDigits: nat): (r: string)
    requires i + 7 <= |s|
    ensures AllDigits(r) && |r| <= maxDigits
  {
    DigitRunFacts(s[i + 7..]);
    var run := DigitRun(s[i + 7..]);
    if |run| <= maxDigits then run else run[..maxDigits]
  }

  /** The search takes the first match: any match at a position is found there when none comes earlier. */
  lemma FindMediaAt(s: string, i: nat, minDigits: nat)
    requires MediaAt(s, i, minDigits)
    requires forall j :: 0 <= j < i ==> !MediaAt(s, j, minDigits)
    ensures FindMedia(s, 0, minDigits) == Some(i)
  {
  }

  /** The canonical TikTok path of a media match: `/kind/id`, or `/@handle/kind/id`, the kind lower-cased. */
  function CanonicalMediaPath(m: MediaMatch): string
  {
    if m.handle == "" then "/" + Lower(m.kind) + "/" + m.id
    else "/@" + m.handle + "/" + Lower(m.kind) + "/" + m.id
  }

  /** Where the kind's leading '/' sits in the canonical path. */
  function CanonicalMediaIndex(m: MediaMatch): nat
  {
    if m.handle == "" then 0 else 2 + |m.handle|
  }

  /**
   * A canonical TikTok path holds the media pattern first right before its
   * kind, and the digits found there are the id.
   */
  lemma CanonicalMediaFound(m: MediaMatch)
    requires Avoids("@" + m.handle, '/') && IsMediaKind(m.kind) && IsTikTokId(m.id)
    ensures var q := CanonicalMediaPath(m);
      var i := CanonicalMediaIndex(m);
      FindMedia(q, 0, 15) == Some(i) && i + 7 <= |q| && MediaKindAt(q, i) == Lower(m.kind)
      && MediaDigitsAt(q, i, 22) == m.id
  {
    var k := Lower(m.kind);
    assert IsMediaKind(k) && |k| == 5 by {
      LowerIdempotent(m.kind);
      MediaKindLength(m.kind);
    }
    if m.handle == "" {
      assert CanonicalMediaPath(m) == "" + "/" + k + "/" + m.id;
      MediaFirstAfterHead("", k, m.id);
    } else {
      NoMediaInHandleAt(m.handle, k, m.id);
      MediaFirstAfterHead("/@" + m.handle, k, m.id);
    }
  }

  /** With no match inside the head, the search finds the media pattern right after it. */
  lemma MediaFirstAfterHead(head: string, k: string, id: string)
    requires IsMediaKind(k) && |k| == 5 && IsTikTokId(id)
    requires forall j :: 0 <= j < |head| ==> !MediaAt(head + "/" + k + "/" + id, j, 15)
    ensures var q := head + "/" + k + "/" + id;
      var i := |head|;
      FindMedia(q, 0, 15) == Some(i) && i + 7 <= |q| && MediaKindAt(q, i) == k && MediaDigitsAt(q, i, 22) == id
  {
    MediaAfterHead(head, k, id);
    FindMediaAt(head + "/" + k + "/" + id, |head|, 15);
  }

  lemma NoMediaInHandleAt(h: string, k: string, id: string)
    requires Avoids("@" + h, '/') && h != ""
    ensures forall j :: 0 <= j < 2 + |h| ==> !MediaAt("/@" + h + "/" + k + "/" + id, j, 15)
  {
    var rest := "/" + k + "/" + id;
    assert "/@" + h + "/" + k + "/" + id == "/@" + h + rest;
    forall j | 0 <= j < 2 + |h|
      ensures !MediaAt("/@" + h + rest, j, 15)
    {
      NoMediaInHandle(h, rest, j);
    }
  }

  /** The media pattern right after any head, with its kind and digits read back. */
  lemma MediaAfterHead(head: string, k: string, id: string)
    requires IsMediaKind(k) && |k| == 5 && IsTikTokId(id)
    ensures var q := head + "/" + k + "/" + id;
      var i := |head|;
      MediaAt(q, i, 15) && i + 7 <= |q| && MediaKindAt(q, i) == k && MediaDigitsAt(q, i, 22) == id
  {
    var q := head + "/" + k + "/" + id;
    var i := |head|;
    assert q[i + 1..i + 6] == k && q[i] == '/' && q[i + 6] == '/';
    assert q[i + 7..] == id;
    DigitRunUnique(id, id);
  }

  /** No match of the media pattern starts inside `/@handle` when the handle holds no '/'. */
  lemma NoMediaInHandle(h: string, rest: string, j: nat)
    requires Avoids("@" + h, '/') && h != "" && j < 2 + |h|
    ensures !MediaAt("/@" + h + rest, j, 15)
  {
    var q := "/@" + h + rest;
    if j == 0 {
      assert q[1] == '@';
      if j + 7 <= |q| {
        assert Lower(q[1..6])[0] == LowerChar(q[1]) == '@';
      }
    } else {
      assert q[j] == ("@" + h)[j - 1];
    }
  }
}
