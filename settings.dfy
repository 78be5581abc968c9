/**
 * The extension settings, their validator and completeness test, the
 * compose draft kept in session storage, and the hand-over of the host
 * permission from the old API origin to the new one
 * (`src/lib/settings.ts`).
 */
module Settings {
  import opened Wrappers
  import opened Text
  import opened Json
  import opened Url
  import opened Normalize

  const DefaultAuthorName := "LiveChat Extension"
  const ApiUrlRequired := "API_URL est obligatoire."
  const TokenRequired := "INGEST_API_TOKEN est obligatoire."
  const GuildRequired := "guildId est obligatoire."

  datatype ExtensionSettings = ExtensionSettings(
    apiUrl: string,
    ingestToken: string,
    guildId: string,
    authorName: string,
    authorImage: Option<string>)

  // ---------------------------------------------------------------------
  // Validation
  // ---------------------------------------------------------------------

  /** A field the validator accepts: a string that is not blank. */
  predicate Usable(v: Value)
  {
    AsNonEmptyString(v).Some?
  }

  /**
   * `normalizeSettingsInput`: the API URL, then the token, then the guild
   * are required, in that order, and the first one missing names the
   * error; the API URL must also normalise. The author name falls back to
   * the default and the author image to null.
   */
  function NormalizeSettingsInput(c: Codec, input: Value): (r: Result<ExtensionSettings>)
    requires !input.Null? && !input.Undefined?
    ensures r.Err? ==> r.message in {ApiUrlRequired, ApiUrlInvalid, TokenRequired, GuildRequired}
  {
    CheckFields(c,
      AsNonEmptyString(Get(input, "apiUrl")), AsNonEmptyString(Get(input, "ingestToken")),
      AsNonEmptyString(Get(input, "guildId")), AsNonEmptyString(Get(input, "authorName")),
      AsNonEmptyString(Get(input, "authorImage")))
  }

  /** The checks of `normalizeSettingsInput` over the fields' non-blank string forms. */
  function CheckFields(c: Codec, apiUrl: Option<string>, ingestToken: Option<string>, guildId: Option<string>,
                       authorName: Option<string>, authorImage: Option<string>): Result<ExtensionSettings>
  {
    match apiUrl
    case None => Err(ApiUrlRequired)
    case Some(rawApiUrl) =>
      match NormalizeApiUrl(c, rawApiUrl)
      case Err(message) => Err(message)
      case Ok(normalized) =>
        if ingestToken.None? then Err(TokenRequired)
        else if guildId.None? then Err(GuildRequired)
        else Ok(ExtensionSettings(normalized, ingestToken.value, guildId.value,
                                  authorName.UnwrapOr(DefaultAuthorName), authorImage))
  }

  /** `isSettingsComplete`: present, with the four text fields not blank; the image is not looked at. */
  predicate IsSettingsComplete(s: Option<ExtensionSettings>): (b: bool)
    ensures b <==> s.Some? && AsNonEmptyString(Str(s.value.apiUrl)).Some? && AsNonEmptyString(Str(s.value.ingestToken)).Some?
                   && AsNonEmptyString(Str(s.value.guildId)).Some? && AsNonEmptyString(Str(s.value.authorName)).Some?
  {
    s.Some? && NonBlank(s.value.apiUrl) && NonBlank(s.value.ingestToken)
    && NonBlank(s.value.guildId) && NonBlank(s.value.authorName)
  }

  /** The API URL is checked first, then the token, then the guild: the first failure is the one reported. */
  lemma ValidationOrder(c: Codec, input: Value)
    requires !input.Null? && !input.Undefined?
    ensures !Usable(Get(input, "apiUrl")) ==> NormalizeSettingsInput(c, input) == Err(ApiUrlRequired)
    ensures Usable(Get(input, "apiUrl"))
            && NormalizeApiUrl(c, AsNonEmptyString(Get(input, "apiUrl")).value).Err? ==>
      NormalizeSettingsInput(c, input) == Err(ApiUrlInvalid)
    ensures Usable(Get(input, "apiUrl"))
            && NormalizeApiUrl(c, AsNonEmptyString(Get(input, "apiUrl")).value).Ok?
            && !Usable(Get(input, "ingestToken")) ==>
      NormalizeSettingsInput(c, input) == Err(TokenRequired)
    ensures Usable(Get(input, "apiUrl"))
            && NormalizeApiUrl(c, AsNonEmptyString(Get(input, "apiUrl")).value).Ok?
            && Usable(Get(input, "ingestToken")) && !Usable(Get(input, "guildId")) ==>
      NormalizeSettingsInput(c, input) == Err(GuildRequired)
  {
  }

  /**
   * What a successful validation keeps: the normalised API URL, the
   * trimmed token and guild, the trimmed author name or the default, the
   * trimmed image or none.
   */
  lemma ValidatedFields(c: Codec, input: Value, s: ExtensionSettings)
    requires !input.Null? && !input.Undefined?
    requires NormalizeSettingsInput(c, input) == Ok(s)
    ensures Usable(Get(input, "apiUrl"))
    ensures NormalizeApiUrl(c, AsNonEmptyString(Get(input, "apiUrl")).value) == Ok(s.apiUrl)
    ensures AsNonEmptyString(Get(input, "ingestToken")) == Some(s.ingestToken)
    ensures AsNonEmptyString(Get(input, "guildId")) == Some(s.guildId)
    ensures s.authorName == AsNonEmptyString(Get(input, "authorName")).UnwrapOr(DefaultAuthorName)
    ensures s.authorImage == AsNonEmptyString(Get(input, "authorImage"))
  {
  }

  /** A normalised API URL starts with its scheme, so it is never blank. */
  lemma ApiUrlNotBlank(c: Codec, raw: string)
    ensures NormalizeApiUrl(c, raw).Ok? ==> NonBlank(NormalizeApiUrl(c, raw).value)
  {
    if NormalizeApiUrl(c, raw).Ok? {
      var u := c.parse(Trim(raw), None).value;
      ApiUrlShape(c, raw, u);
      HttpPrefixNotBlank(NormalizeApiUrl(c, raw).value, u.protocol, "//", Host(u),
                         StripTrailingSlashes(u.pathname), u.search);
    }
  }

  /** Anything that starts with an http(s) scheme is not blank. */
  lemma HttpPrefixNotBlank(s: string, protocol: string, a: string, b: string, d: string, e: string)
    requires IsHttpProtocol(protocol) && s == protocol + a + b + d + e
    ensures NonBlank(s)
  {
    assert s[0] == protocol[0] == 'h';
    TrimStartsWithNonSpace(s);
  }

  /** The default author name is not blank and carries no surrounding white space. */
  lemma DefaultAuthorNameIsNonEmpty()
    ensures AsNonEmptyString(Str(DefaultAuthorName)) == Some(DefaultAuthorName)
  {
    var d := DefaultAuthorName;
    assert d[0] == 'L' && d[|d| - 1] == 'n';
    TrimmedIsNonEmpty(d);
  }

  /** A trimmed, non-empty string is not blank. */
  lemma NonEmptyIsNonBlank(s: string)
    requires s != "" && Trimmed(s)
    ensures NonBlank(s)
  {
    TrimOfTrimmed(s);
  }

  /** Every settings value the validator accepts is complete. */
  lemma ValidatedIsComplete(c: Codec, input: Value)
    requires !input.Null? && !input.Undefined?
    ensures NormalizeSettingsInput(c, input).Ok? ==> IsSettingsComplete(Some(NormalizeSettingsInput(c, input).value))
  {
    var r := NormalizeSettingsInput(c, input);
    if r.Ok? {
      var s := r.value;
      ValidatedFields(c, input, s);
      ApiUrlNotBlank(c, AsNonEmptyString(Get(input, "apiUrl")).value);
      DefaultAuthorNameIsNonEmpty();
      NonEmptyIsNonBlank(s.ingestToken);
      NonEmptyIsNonBlank(s.guildId);
      NonEmptyIsNonBlank(s.authorName);
    }
  }

  // ---------------------------------------------------------------------
  // Stored settings
  // ---------------------------------------------------------------------

  /** Settings as `saveSettings` writes them to local storage. */
  function SettingsValue(s: ExtensionSettings): Value
  {
    Obj(map[
      "apiUrl" := Str(s.apiUrl), "ingestToken" := Str(s.ingestToken), "guildId" := Str(s.guildId),
      "authorName" := Str(s.authorName),
      "authorImage" := if s.authorImage.Some? then Str(s.authorImage.value) else Null])
  }

  /** `getSettings`: nothing stored gives null; otherwise what the validator makes of it, or null. */
  function GetSettings(c: Codec, stored: Value): (r: Option<ExtensionSettings>)
    ensures r.Some? ==> IsSettingsComplete(r)
  {
    if !Truthy(stored) then None
    else
      ValidatedIsComplete(c, stored);
      match NormalizeSettingsInput(c, stored)
      case Err(_) => None
      case Ok(s) => Some(s)
  }

  /**
   * Saved settings read back as themselves, given that their API URL is
   * a fixed point of the API-URL normaliser (`Normalize.ApiUrlIdempotent`
   * says when it is).
   */
  lemma SavedSettingsReadBack(c: Codec, input: Value, s: ExtensionSettings)
    requires !input.Null? && !input.Undefined? && NormalizeSettingsInput(c, input) == Ok(s)
    requires NormalizeApiUrl(c, s.apiUrl) == Ok(s.apiUrl)
    ensures NormalizeSettingsInput(c, SettingsValue(s)) == Ok(s)
    ensures GetSettings(c, SettingsValue(s)) == Some(s)
  {
    ValidatedFields(c, input, s);
    SanitisedIsFixpoint(Get(input, "ingestToken"), s.ingestToken);
    SanitisedIsFixpoint(Get(input, "guildId"), s.guildId);
    if Usable(Get(input, "authorName")) {
      SanitisedIsFixpoint(Get(input, "authorName"), s.authorName);
    } else {
      DefaultAuthorNameIsNonEmpty();
    }
    if s.authorImage.Some? {
      SanitisedIsFixpoint(Get(input, "authorImage"), s.authorImage.value);
    }
    var api := AsNonEmptyString(Str(s.apiUrl));
    assert api.Some? && NormalizeApiUrl(c, api.value) == Ok(s.apiUrl) by {
      ApiUrlNotBlank(c, s.apiUrl);
      TrimIdempotent(s.apiUrl);
    }
    StoredFieldsReadBack(c, s, api);
    GetSettingsOfValid(c, SettingsValue(s), s);
  }

  /** The stored form validates back to the settings when each stored field is its own sanitised form. */
  lemma StoredFieldsReadBack(c: Codec, s: ExtensionSettings, api: Option<string>)
    requires api == AsNonEmptyString(Str(s.apiUrl)) && api.Some? && NormalizeApiUrl(c, api.value) == Ok(s.apiUrl)
    requires AsNonEmptyString(Str(s.ingestToken)) == Some(s.ingestToken)
    requires AsNonEmptyString(Str(s.guildId)) == Some(s.guildId)
    requires AsNonEmptyString(Str(s.authorName)) == Some(s.authorName)
    requires s.authorImage.Some? ==> AsNonEmptyString(Str(s.authorImage.value)) == s.authorImage
    ensures NormalizeSettingsInput(c, SettingsValue(s)) == Ok(s)
  {
    var v := SettingsValue(s);
    SettingsValueFields(s);
    assert AsNonEmptyString(Get(v, "authorImage")) == s.authorImage;
    assert NormalizeSettingsInput(c, v)
      == CheckFields(c, api, Some(s.ingestToken), Some(s.guildId), Some(s.authorName), s.authorImage);
  }

  lemma GetSettingsOfValid(c: Codec, v: Value, s: ExtensionSettings)
    requires v.Obj? && NormalizeSettingsInput(c, v) == Ok(s)
    ensures GetSettings(c, v) == Some(s)
  {
    assert Truthy(v);
  }

  lemma SettingsValueFields(s: ExtensionSettings)
    ensures Get(SettingsValue(s), "apiUrl") == Str(s.apiUrl)
    ensures Get(SettingsValue(s), "ingestToken") == Str(s.ingestToken)
    ensures Get(SettingsValue(s), "guildId") == Str(s.guildId)
    ensures Get(SettingsValue(s), "authorName") == Str(s.authorName)
    ensures Get(SettingsValue(s), "authorImage")
      == if s.authorImage.Some? then Str(s.authorImage.value) else Null
  {
  }

  lemma SanitisedIsFixpoint(v: Value, s: string)
    requires AsNonEmptyString(v) == Some(s)
    ensures AsNonEmptyString(Str(s)) == Some(s)
  {
    AsNonEmptyStringFixpoint(v);
  }

  // ---------------------------------------------------------------------
  // The compose draft
  // ---------------------------------------------------------------------

  datatype ComposeDraft = ComposeDraft(url: string, text: string, forceRefresh: bool, source: string, createdAt: int)

  /**
   * `${v || ''}`: empty for a falsy value, the string itself, and for any
   * other value the string conversion `show` stands for.
   */
  function TemplateOf(v: Value, show: Value -> string): (r: string)
    ensures v.Str? ==> r == v.s
    ensures !Truthy(v) ==> r == ""
  {
    if !Truthy(v) then "" else if v.Str? then v.s else show(v)
  }

  /**
   * `getComposeDraft` over the stored draft slot: nothing stored, or a URL
   * that does not resolve, gives null; otherwise the resolved URL, the text,
   * the flag, the source or 'unknown', and the creation time floored when it
   * is a finite number and `now` otherwise.
   */
  function GetComposeDraft(c: Codec, slot: Value, now: int, show: Value -> string): (r: Option<ComposeDraft>)
    ensures r.None? <==>
      !Truthy(slot) || ResolveIngestTarget(c, TemplateOf(Get(slot, "url"), show), None).None?
    ensures r.Some? ==> ResolveIngestTarget(c, TemplateOf(Get(slot, "url"), show), None) == Some(r.value.url)
    ensures r.Some? ==> r.value.url != "" && r.value.source != ""
    ensures r.Some? ==> r.value.text == TemplateOf(Get(slot, "text"), show)
                        && r.value.forceRefresh == Truthy(Get(slot, "forceRefresh"))
    ensures r.Some? ==> var s := Get(slot, "source");
      r.value.source == if s.Str? && Trim(s.s) != "" then Trim(s.s) else "unknown"
    ensures r.Some? ==>
      (r.value.createdAt == if Get(slot, "createdAt").Num? then Get(slot, "createdAt").n.Floor else now)
  {
    if !Truthy(slot) then None
    else
      var target := TemplateOf(Get(slot, "url"), show);
      ResolveNonEmpty(c, target, None);
      match ResolveIngestTarget(c, target, None)
      case None => None
      case Some(url) =>
        var createdAt := Get(slot, "createdAt");
        Some(ComposeDraft(
          url, TemplateOf(Get(slot, "text"), show), Truthy(Get(slot, "forceRefresh")),
          AsNonEmptyString(Get(slot, "source")).UnwrapOr("unknown"),
          if createdAt.Num? then createdAt.n.Floor else now))
  }

  /** A draft as `setComposeDraft` writes it to the slot. */
  function DraftValue(d: ComposeDraft): Value
  {
    Obj(map[
      "url" := Str(d.url), "text" := Str(d.text), "forceRefresh" := Bool(d.forceRefresh),
      "source" := Str(d.source), "createdAt" := Num(d.createdAt as real)])
  }

  /** `setComposeDraft`: the slot after the write; nothing is written when the URL does not resolve. */
  function SetComposeDraft(c: Codec, slot: Value, d: ComposeDraft): (r: Value)
    ensures ResolveIngestTarget(c, d.url, None).None? ==> r == slot
    ensures ResolveIngestTarget(c, d.url, None).Some? ==>
      r == DraftValue(d.(url := ResolveIngestTarget(c, d.url, None).value))
  {
    match ResolveIngestTarget(c, d.url, None)
    case None => slot
    case Some(normalized) => DraftValue(d.(url := normalized))
  }

  lemma DraftValueFields(d: ComposeDraft)
    ensures Get(DraftValue(d), "url") == Str(d.url) && Get(DraftValue(d), "text") == Str(d.text)
    ensures Get(DraftValue(d), "forceRefresh") == Bool(d.forceRefresh)
    ensures Get(DraftValue(d), "source") == Str(d.source)
    ensures Get(DraftValue(d), "createdAt") == Num(d.createdAt as real)
  {
  }

  /**
   * A draft that was written reads back as written, with its URL resolved,
   * given that the resolved URL resolves to itself
   * (`Normalize.ResolveIdempotent` says when) and that its source is a
   * trimmed, non-blank string.
   */
  lemma DraftRoundTrip(c: Codec, slot: Value, d: ComposeDraft, n: string, now: int, show: Value -> string)
    requires ResolveIngestTarget(c, d.url, None) == Some(n) && ResolveIngestTarget(c, n, None) == Some(n)
    requires AsNonEmptyString(Str(d.source)) == Some(d.source)
    ensures GetComposeDraft(c, SetComposeDraft(c, slot, d), now, show) == Some(d.(url := n))
  {
    var w := d.(url := n);
    assert SetComposeDraft(c, slot, d) == DraftValue(w);
    DraftReadBack(c, w, now, show);
  }

  /** A written draft whose URL is already resolved reads back as itself. */
  lemma DraftReadBack(c: Codec, w: ComposeDraft, now: int, show: Value -> string)
    requires ResolveIngestTarget(c, w.url, None) == Some(w.url)
    requires AsNonEmptyString(Str(w.source)) == Some(w.source)
    ensures GetComposeDraft(c, DraftValue(w), now, show) == Some(w)
  {
    var v := DraftValue(w);
    DraftValueFields(w);
    assert Truthy(v);
    assert TemplateOf(Get(v, "url"), show) == w.url;
    assert TemplateOf(Get(v, "text"), show) == w.text;
    DraftOfFields(c, v, now, show, w);
  }

  lemma DraftOfFields(c: Codec, v: Value, now: int, show: Value -> string, w: ComposeDraft)
    requires Truthy(v) && ResolveIngestTarget(c, TemplateOf(Get(v, "url"), show), None) == Some(w.url)
    requires TemplateOf(Get(v, "text"), show) == w.text && Truthy(Get(v, "forceRefresh")) == w.forceRefresh
    requires AsNonEmptyString(Get(v, "source")).UnwrapOr("unknown") == w.source
    requires Get(v, "createdAt") == Num(w.createdAt as real)
    ensures GetComposeDraft(c, v, now, show) == Some(w)
  {
    assert (w.createdAt as real).Floor == w.createdAt;
  }

  // ---------------------------------------------------------------------
  // Host permissions
  // ---------------------------------------------------------------------

  datatype PermissionTransition = PermissionTransition(
    granted: bool, pattern: string, removedPrevious: bool, reason: Option<string>)

  /** A transition's result together with the set of origin patterns held afterwards. */
  datatype TransitionOutcome = TransitionOutcome(result: Result<PermissionTransition>, held: set<string>)

  const PermissionDenied := "permission_denied"

  /**
   * The origin patterns the extension holds, as `chrome.permissions`
   * keeps them. Whether the user approves a request is an input.
   */
  class Permissions {
    var origins: set<string>

    constructor (initial: set<string>)
      ensures origins == initial
    {
      origins := initial;
    }

    /** `chrome.permissions.contains`. */
    function Contains(pattern: string): bool
      reads this
    {
      pattern in origins
    }

    /** `chrome.permissions.request`: the pattern is added when the user approves. */
    method Request(pattern: string, approves: bool) returns (granted: bool)
      modifies this
      ensures granted == approves
      ensures origins == if approves then old(origins) + {pattern} else old(origins)
    {
      granted := approves;
      if approves {
        origins := origins + {pattern};
      }
    }

    /** `chrome.permissions.remove`: reports whether the pattern was held. */
    method Remove(pattern: string) returns (removed: bool)
      modifies this
      ensures removed == (pattern in old(origins)) && origins == old(origins) - {pattern}
    {
      removed := pattern in origins;
      origins := origins - {pattern};
    }
  }

  /**
   * What `ensureApiPermissionTransition` returns and what it leaves held,
   * from the patterns held before. A URL whose pattern cannot be derived
   * makes it throw: the result is then that error.
   */
  function TransitionSpec(c: Codec, held: set<string>, previousApiUrl: Option<string>, nextApiUrl: string,
                          approves: bool): TransitionOutcome
  {
    TransitionOf(held, ToApiOriginPattern(c, nextApiUrl),
                 if previousApiUrl.None? || previousApiUrl.value == "" then None
                 else Some(ToApiOriginPattern(c, previousApiUrl.value)),
                 approves)
  }

  /**
   * The transition in terms of the two patterns: the new one, and the
   * previous one when there was a previous API URL.
   */
  function TransitionOf(held: set<string>, nextPattern: Result<string>, previousPattern: Option<Result<string>>,
                        approves: bool): TransitionOutcome
  {
    match nextPattern
    case Err(message) => TransitionOutcome(Err(message), held)
    case Ok(next) =>
      if next !in held && !approves then
        TransitionOutcome(Ok(PermissionTransition(false, next, false, Some(PermissionDenied))), held)
      else
        var granted := held + {next};
        match previousPattern
        case None => TransitionOutcome(Ok(PermissionTransition(true, next, false, None)), granted)
        case Some(Err(message)) => TransitionOutcome(Err(message), granted)
        case Some(Ok(previous)) =>
          if previous == next then TransitionOutcome(Ok(PermissionTransition(true, next, false, None)), granted)
          else TransitionOutcome(Ok(PermissionTransition(true, next, previous in granted, None)), granted - {previous})
  }

  /**
   * `ensureApiPermissionTransition`: make sure the new API origin is
   * granted, asking when it is not, then give up the previous API origin
   * when it is a different one.
   */
  method EnsureApiPermissionTransition(c: Codec, permissions: Permissions, previousApiUrl: Option<string>,
                                       nextApiUrl: string, approves: bool)
    returns (r: Result<PermissionTransition>)
    modifies permissions
    ensures TransitionOutcome(r, permissions.origins)
      == TransitionSpec(c, old(permissions.origins), previousApiUrl, nextApiUrl, approves)
  {
    var nextPattern := ToApiOriginPattern(c, nextApiUrl);
    var previousPattern := if previousApiUrl.None? || previousApiUrl.value == "" then None
                           else Some(ToApiOriginPattern(c, previousApiUrl.value));
    r := ApplyTransition(permissions, nextPattern, previousPattern, approves);
  }

  /** The steps of the transition once both patterns are known. */
  method ApplyTransition(permissions: Permissions, nextPattern: Result<string>,
                         previousPattern: Option<Result<string>>, approves: bool)
    returns (r: Result<PermissionTransition>)
    modifies permissions
    ensures TransitionOutcome(r, permissions.origins)
      == TransitionOf(old(permissions.origins), nextPattern, previousPattern, approves)
  {
    if nextPattern.Err? {
      return Err(nextPattern.message);
    }
    var granted := GrantPattern(permissions, nextPattern.value, approves);
    if !granted {
      return Ok(PermissionTransition(false, nextPattern.value, false, Some(PermissionDenied)));
    }
    var removedPrevious := false;
    if previousPattern.Some? {
      if previousPattern.value.Err? {
        return Err(previousPattern.value.message);
      }
      if previousPattern.value.value != nextPattern.value {
        removedPrevious := permissions.Remove(previousPattern.value.value);
      }
    }
    return Ok(PermissionTransition(true, nextPattern.value, removedPrevious, None));
  }

  /** A pattern already held counts as granted; otherwise the user is asked. */
  method GrantPattern(permissions: Permissions, pattern: string, approves: bool) returns (granted: bool)
    modifies permissions
    ensures granted == (pattern in old(permissions.origins) || approves)
    ensures permissions.origins
      == if granted then old(permissions.origins) + {pattern} else old(permissions.origins)
  {
    granted := permissions.Contains(pattern);
    if granted {
      assert permissions.origins + {pattern} == permissions.origins;
    } else {
      granted := permissions.Request(pattern, approves);
    }
  }

  /** A refused request grants nothing, removes nothing and says why. */
  lemma DeniedRemovesNothing(c: Codec, held: set<string>, previousApiUrl: Option<string>, nextApiUrl: string)
    requires ToApiOriginPattern(c, nextApiUrl).Ok? && ToApiOriginPattern(c, nextApiUrl).value !in held
    ensures TransitionSpec(c, held, previousApiUrl, nextApiUrl, false)
      == TransitionOutcome(
           Ok(PermissionTransition(false, ToApiOriginPattern(c, nextApiUrl).value, false, Some(PermissionDenied))),
           held)
  {
  }

  /**
   * After a granted transition the new pattern is held; at most the new
   * pattern was added and at most the previous one, when it differs, was
   * given up; `removedPrevious` says whether that happened.
   */
  lemma GrantedTransition(c: Codec, held: set<string>, previousApiUrl: Option<string>, nextApiUrl: string,
                          approves: bool)
    requires TransitionSpec(c, held, previousApiUrl, nextApiUrl, approves).result.Ok?
    requires TransitionSpec(c, held, previousApiUrl, nextApiUrl, approves).result.value.granted
    ensures var o := TransitionSpec(c, held, previousApiUrl, nextApiUrl, approves);
      o.result.value.pattern in o.held && o.held - held <= {o.result.value.pattern}
    ensures var o := TransitionSpec(c, held, previousApiUrl, nextApiUrl, approves);
      o.result.value.removedPrevious <==>
        (previousApiUrl.Some? && previousApiUrl.value != "" && ToApiOriginPattern(c, previousApiUrl.value).Ok?
         && ToApiOriginPattern(c, previousApiUrl.value).value != o.result.value.pattern
         && ToApiOriginPattern(c, previousApiUrl.value).value in held
         && held - o.held == {ToApiOriginPattern(c, previousApiUrl.value).value})
    ensures var o := TransitionSpec(c, held, previousApiUrl, nextApiUrl, approves);
      !o.result.value.removedPrevious ==> held <= o.held
  {
    var previous := if previousApiUrl.None? || previousApiUrl.value == "" then None
                    else Some(ToApiOriginPattern(c, previousApiUrl.value));
    GrantedTransitionOf(held, ToApiOriginPattern(c, nextApiUrl), previous, approves);
  }

  /** `GrantedTransition` over the two patterns. */
  lemma GrantedTransitionOf(held: set<string>, nextPattern: Result<string>, previousPattern: Option<Result<string>>,
                            approves: bool)
    requires TransitionOf(held, nextPattern, previousPattern, approves).result.Ok?
    requires TransitionOf(held, nextPattern, previousPattern, approves).result.value.granted
    ensures var o := TransitionOf(held, nextPattern, previousPattern, approves);
      o.result.value.pattern in o.held && o.held - held <= {o.result.value.pattern}
    ensures var o := TransitionOf(held, nextPattern, previousPattern, approves);
      o.result.value.removedPrevious <==>
        (previousPattern.Some? && previousPattern.value.Ok?
         && previousPattern.value.value != o.result.value.pattern
         && previousPattern.value.value in held
         && held - o.held == {previousPattern.value.value})
    ensures var o := TransitionOf(held, nextPattern, previousPattern, approves);
      !o.result.value.removedPrevious ==> held <= o.held
  {
    var next := nextPattern.value;
    var granted := held + {next};
    if previousPattern.Some? && previousPattern.value.Ok? && previousPattern.value.value != next {
      var previous := previousPattern.value.value;
      if previous in held {
        assert held - (granted - {previous}) == {previous};
      }
    }
  }
}
