/**
 * The options page (`src/options/options.ts`): reading its two API-URL
 * fields, the pairing request and the settings built from its answer,
 * the message shown when pairing fails, and the verdict of the
 * configuration test.
 */
module Options {
  import opened Wrappers
  import opened Text
  import opened Json
  import opened Url
  import opened Normalize
  import opened Settings

  // ---------------------------------------------------------------------
  // Response bodies and input fields
  // ---------------------------------------------------------------------

  /**
   * `parseJsonBody`: null for a blank body, else what `JSON.parse` makes of
   * the trimmed text (`parse` yields None where it throws).
   */
  function ParseJsonBody(parse: string -> Option<Value>, rawBody: string): (r: Option<Value>)
    ensures Trim(rawBody) == "" ==> r.None?
    ensures Trim(rawBody) != "" ==> r == parse(Trim(rawBody))
  {
    var normalized := Trim(rawBody);
    if normalized == "" then None else parse(normalized)
  }

  /** Surrounding blanks never change the parsed body. */
  lemma ParseJsonBodyIgnoresBlanks(parse: string -> Option<Value>, rawBody: string)
    ensures ParseJsonBody(parse, Trim(rawBody)) == ParseJsonBody(parse, rawBody)
  {
    TrimIdempotent(rawBody);
  }

  /** Which API-URL field the user filled in for the action at hand. */
  datatype ApiField = PairingField | ManualField

  /**
   * `getApiUrlFromInputs`: the trimmed preferred field, else the trimmed
   * other field, else the empty string.
   */
  function ApiUrlFromInputs(preferred: ApiField, pairingValue: string, manualValue: string): (r: string)
    ensures r == "" <==> Trim(pairingValue) == "" && Trim(manualValue) == ""
    ensures r != "" ==> Trimmed(r)
    ensures preferred == PairingField && Trim(pairingValue) != "" ==> r == Trim(pairingValue)
    ensures preferred == ManualField && Trim(manualValue) != "" ==> r == Trim(manualValue)
    ensures preferred == PairingField && Trim(pairingValue) == "" ==> r == Trim(manualValue)
    ensures preferred == ManualField && Trim(manualValue) == "" ==> r == Trim(pairingValue)
  {
    var (first, second) := if preferred == PairingField then (pairingValue, manualValue) else (manualValue, pairingValue);
    AsNonEmptyString(Str(first)).OrElse(AsNonEmptyString(Str(second))).UnwrapOr("")
  }

  /** The two fields play symmetric parts: preferring one is preferring the other with the values swapped. */
  lemma ApiUrlFromInputsSymmetric(pairingValue: string, manualValue: string)
    ensures ApiUrlFromInputs(PairingField, pairingValue, manualValue) == ApiUrlFromInputs(ManualField, manualValue, pairingValue)
  {
  }

  // ---------------------------------------------------------------------
  // The pairing request
  // ---------------------------------------------------------------------

  const CodeRequired := "Code unique obligatoire."
  const PairingApiUrlRequired := "API_URL obligatoire avant appairage (URL racine du bot)."
  const PairingPath := "/ingest/pair/consume"

  /** The code as sent: trimmed and upper-cased; None for a blank field. */
  function PairingCode(raw: string): (r: Option<string>)
    ensures r.Some? <==> Trim(raw) != ""
    ensures r.Some? ==>
      r.value == Upper(Trim(raw)) && r.value != ""
      && forall i :: 0 <= i < |r.value| ==> !IsLower(r.value[i])
  {
    match AsNonEmptyString(Str(raw))
    case None => None
    case Some(code) => Some(Upper(code))
  }

  /** What the pairing form sends, and where. */
  datatype PairingRequest = PairingRequest(code: string, apiUrl: string, endpoint: string)

  /**
   * The steps of the pairing handler before any request: a code is
   * required, then an API URL (the pairing field first), which must
   * normalise; the endpoint is the API URL followed by the pairing path.
   */
  function PairingStart(c: Codec, codeField: string, pairingValue: string, manualValue: string): (r: Result<PairingRequest>)
    ensures Trim(codeField) == "" ==> r == Err(CodeRequired)
    ensures Trim(codeField) != "" && ApiUrlFromInputs(PairingField, pairingValue, manualValue) == "" ==>
      r == Err(PairingApiUrlRequired)
    ensures r.Ok? ==>
      PairingCode(codeField) == Some(r.value.code)
      && NormalizeApiUrl(c, ApiUrlFromInputs(PairingField, pairingValue, manualValue)) == Ok(r.value.apiUrl)
      && r.value.endpoint == r.value.apiUrl + PairingPath
    ensures r.Err? ==> r.message in {CodeRequired, PairingApiUrlRequired, ApiUrlInvalid}
  {
    match PairingCode(codeField)
    case None => Err(CodeRequired)
    case Some(code) =>
      var rawApiUrl := ApiUrlFromInputs(PairingField, pairingValue, manualValue);
      if rawApiUrl == "" then Err(PairingApiUrlRequired)
      else
        match NormalizeApiUrl(c, rawApiUrl)
        case Err(message) => Err(message)
        case Ok(apiUrl) => Ok(PairingRequest(code, apiUrl, apiUrl + PairingPath))
  }

  /** The request goes out exactly when the code is not blank and an entered API URL normalises. */
  lemma PairingStartsIff(c: Codec, codeField: string, pairingValue: string, manualValue: string)
    ensures PairingStart(c, codeField, pairingValue, manualValue).Ok? <==>
      Trim(codeField) != "" && ApiUrlFromInputs(PairingField, pairingValue, manualValue) != ""
      && NormalizeApiUrl(c, ApiUrlFromInputs(PairingField, pairingValue, manualValue)).Ok?
  {
  }

  // ---------------------------------------------------------------------
  // Settings from a pairing answer
  // ---------------------------------------------------------------------

  /** A settings input with the five fields given. */
  function SettingsInputOf(apiUrl: string, ingestToken: string, guildId: string, authorName: string, authorImage: string): (r: Value)
  {
    Obj(map[
      "apiUrl" := Str(apiUrl),
      "ingestToken" := Str(ingestToken),
      "guildId" := Str(guildId),
      "authorName" := Str(authorName),
      "authorImage" := Str(authorImage)])
  }

  lemma SettingsInputFields(apiUrl: string, ingestToken: string, guildId: string, authorName: string, authorImage: string)
    ensures var input := SettingsInputOf(apiUrl, ingestToken, guildId, authorName, authorImage);
      input.Obj? && Get(input, "apiUrl") == Str(apiUrl) && Get(input, "ingestToken") == Str(ingestToken)
      && Get(input, "guildId") == Str(guildId) && Get(input, "authorName") == Str(authorName)
      && Get(input, "authorImage") == Str(authorImage)
  {
  }

  /**
   * The settings input built from a successful pairing answer: each field
   * the answer carries as a non-blank string, else the entered API URL,
   * the empty string, or the default author name.
   */
  function PairedSettingsInput(body: Value, apiUrl: string): (r: Value)
  {
    SettingsInputOf(
      AsNonEmptyString(Get(body, "apiBaseUrl")).UnwrapOr(apiUrl),
      AsNonEmptyString(Get(body, "ingestApiToken")).UnwrapOr(""),
      AsNonEmptyString(Get(body, "guildId")).UnwrapOr(""),
      AsNonEmptyString(Get(body, "authorName")).UnwrapOr(DefaultAuthorName),
      AsNonEmptyString(Get(body, "authorImage")).UnwrapOr(""))
  }

  /** `normalizeSettingsInput` over that input. */
  function PairedSettings(c: Codec, body: Value, apiUrl: string): Result<ExtensionSettings>
  {
    NormalizeSettingsInput(c, PairedSettingsInput(body, apiUrl))
  }

  /** The non-blank form of a fallback the answer does not override is the fallback, trimmed. */
  lemma FallbackField(v: Value, fallback: string)
    ensures AsNonEmptyString(Str(AsNonEmptyString(v).UnwrapOr(fallback)))
      == (if AsNonEmptyString(v).Some? then AsNonEmptyString(v) else AsNonEmptyString(Str(fallback)))
  {
    AsNonEmptyStringFixpoint(v);
  }

  /**
   * What pairing saves: the API URL of the answer or the entered one,
   * normalised; the answer's token and guild; its author name or the
   * default; its author image or none.
   */
  lemma PairedSettingsFields(c: Codec, body: Value, apiUrl: string, s: ExtensionSettings)
    requires PairedSettings(c, body, apiUrl) == Ok(s)
    ensures NormalizeApiUrl(c, AsNonEmptyString(Get(body, "apiBaseUrl")).UnwrapOr(Trim(apiUrl))) == Ok(s.apiUrl)
    ensures AsNonEmptyString(Get(body, "ingestApiToken")) == Some(s.ingestToken)
    ensures AsNonEmptyString(Get(body, "guildId")) == Some(s.guildId)
    ensures s.authorName == AsNonEmptyString(Get(body, "authorName")).UnwrapOr(DefaultAuthorName)
    ensures s.authorImage == AsNonEmptyString(Get(body, "authorImage"))
  {
    var a := AsNonEmptyString(Get(body, "apiBaseUrl"));
    var t := AsNonEmptyString(Get(body, "ingestApiToken"));
    var g := AsNonEmptyString(Get(body, "guildId"));
    var n := AsNonEmptyString(Get(body, "authorName"));
    var m := AsNonEmptyString(Get(body, "authorImage"));
    var input := SettingsInputOf(a.UnwrapOr(apiUrl), t.UnwrapOr(""), g.UnwrapOr(""), n.UnwrapOr(DefaultAuthorName), m.UnwrapOr(""));
    assert input == PairedSettingsInput(body, apiUrl);
    SettingsInputFields(a.UnwrapOr(apiUrl), t.UnwrapOr(""), g.UnwrapOr(""), n.UnwrapOr(DefaultAuthorName), m.UnwrapOr(""));
    ValidatedFields(c, input, s);
    FallbackField(Get(body, "apiBaseUrl"), apiUrl);
    FallbackField(Get(body, "ingestApiToken"), "");
    FallbackField(Get(body, "guildId"), "");
    FallbackField(Get(body, "authorName"), DefaultAuthorName);
    FallbackField(Get(body, "authorImage"), "");
    DefaultAuthorNameIsNonEmpty();
    EmptyIsBlank();
    if a.None? {
      TrimIdempotent(apiUrl);
    }
  }

  lemma EmptyIsBlank()
    ensures AsNonEmptyString(Str("")).None?
  {
    assert Trim("") == "";
  }

  /** An answer without a token can never be saved: the empty fallback fails validation. */
  lemma PairingNeedsToken(c: Codec, body: Value, apiUrl: string)
    requires AsNonEmptyString(Get(body, "ingestApiToken")).None?
    ensures PairedSettings(c, body, apiUrl).Err?
  {
    var a := AsNonEmptyString(Get(body, "apiBaseUrl"));
    var g := AsNonEmptyString(Get(body, "guildId"));
    var n := AsNonEmptyString(Get(body, "authorName"));
    var m := AsNonEmptyString(Get(body, "authorImage"));
    var input := SettingsInputOf(a.UnwrapOr(apiUrl), "", g.UnwrapOr(""), n.UnwrapOr(DefaultAuthorName), m.UnwrapOr(""));
    assert input == PairedSettingsInput(body, apiUrl);
    SettingsInputFields(a.UnwrapOr(apiUrl), "", g.UnwrapOr(""), n.UnwrapOr(DefaultAuthorName), m.UnwrapOr(""));
    EmptyIsBlank();
    if PairedSettings(c, body, apiUrl).Ok? {
      ValidatedFields(c, input, PairedSettings(c, body, apiUrl).value);
    }
  }

  // ---------------------------------------------------------------------
  // Pairing failures
  // ---------------------------------------------------------------------

  /** The cases `getPairingFailureMessage` tells apart. */
  datatype PairingFailure =
    | CodeExpired
    | EndpointNotFound
    | Forbidden
    | Unauthorized
    | InvalidPayload
    | RemoteError(detail: string)
    | Unexplained

  /** The answer's own explanation: its trimmed `error`, else its trimmed `message`. */
  function RemoteErrorOf(body: Value): (r: Option<string>)
    ensures r.Some? ==> r.value != "" && Trimmed(r.value)
    ensures var e := Get(body, "error");
      e.Str? && Trim(e.s) != "" ==> r == Some(Trim(e.s))
    ensures var e := Get(body, "error"); var m := Get(body, "message");
      !(e.Str? && Trim(e.s) != "") && m.Str? && Trim(m.s) != "" ==> r == Some(Trim(m.s))
    ensures var e := Get(body, "error"); var m := Get(body, "message");
      r.None? <==> !(e.Str? && Trim(e.s) != "") && !(m.Str? && Trim(m.s) != "")
  {
    AsNonEmptyString(Get(body, "error")).OrElse(AsNonEmptyString(Get(body, "message")))
  }

  /**
   * `getPairingFailureMessage`, as its case: an expired code, then any
   * other 404, 403, 401, a 400 for an invalid payload, the answer's own
   * explanation, and otherwise none.
   */
  function PairingFailureOf(status: int, body: Value): (r: PairingFailure)
    ensures r == CodeExpired <==> status == 404 && Get(body, "error") == Str("pairing_code_invalid_or_expired")
    ensures r == EndpointNotFound <==> status == 404 && Get(body, "error") != Str("pairing_code_invalid_or_expired")
    ensures r == Forbidden <==> status == 403
    ensures r == Unauthorized <==> status == 401
    ensures r == InvalidPayload <==> status == 400 && Get(body, "error") == Str("invalid_payload")
    ensures r.RemoteError? <==>
      status !in {401, 403, 404} && !(status == 400 && Get(body, "error") == Str("invalid_payload"))
      && RemoteErrorOf(body).Some?
    ensures r.RemoteError? ==> r.detail == RemoteErrorOf(body).value
  {
    if status == 404 && Get(body, "error") == Str("pairing_code_invalid_or_expired") then CodeExpired
    else if status == 404 then EndpointNotFound
    else if status == 403 then Forbidden
    else if status == 401 then Unauthorized
    else if status == 400 && Get(body, "error") == Str("invalid_payload") then InvalidPayload
    else match RemoteErrorOf(body)
      case Some(detail) => RemoteError(detail)
      case None => Unexplained
  }

  /** The text shown for each case, with the status and the endpoint where the source puts them. */
  function PairingFailureMessage(status: int, endpoint: string, body: Value): (r: string)
    ensures var f := PairingFailureOf(status, body);
      f.EndpointNotFound? || f.Forbidden? || f.Unauthorized? || f.Unexplained? ==> Contains(r, endpoint)
    ensures PairingFailureOf(status, body).RemoteError? ==> EndsWith(r, RemoteErrorOf(body).value)
  {
    var f := PairingFailureOf(status, body);
    match f
    case CodeExpired => CodeExpiredMessage
    case InvalidPayload => InvalidPayloadMessage
    case RemoteError(detail) => Mentioning(FailureLead(f, status), detail, "")
    case _ => Mentioning(FailureLead(f, status), endpoint, FailureTail(f))
  }

  const CodeExpiredMessage := "Code invalide ou expiré. Regénère un code avec /pair-code."
  const InvalidPayloadMessage := "Payload d’appairage invalide. Vérifie le code saisi."

  /** The text before the endpoint, or before the answer's own explanation. */
  function FailureLead(f: PairingFailure, status: int): string
  {
    match f
    case EndpointNotFound => "Endpoint introuvable ("
    case Forbidden =>
      "Échec appairage (403): requête refusée avant le bot ou par un proxy. Vérifie API_URL racine et autorise POST "
    case Unauthorized => "Échec appairage (401): accès non autorisé sur "
    case RemoteError(_) => "Échec de l’appairage (" + IntToString(status) + "): "
    case Unexplained => "Échec de l’appairage (" + IntToString(status) + ") sur "
    case _ => ""
  }

  /** The text after the endpoint. */
  function FailureTail(f: PairingFailure): string
  {
    match f
    case EndpointNotFound => "). Vérifie que le bot est à jour et que API_URL est la racine (sans /overlay ni /ingest)."
    case Forbidden => "."
    case Unauthorized => ". Vérifie la route exposée côté reverse-proxy."
    case Unexplained => "."
    case _ => ""
  }

  /** A message built around one piece of text: that text sits inside it, and ends it when nothing follows. */
  function Mentioning(before: string, middle: string, after: string): (r: string)
    ensures Contains(r, middle)
    ensures after == "" ==> EndsWith(r, middle)
  {
    ContainsMiddle(before, middle, after);
    before + middle + after
  }

  /**
   * The status codes with a fixed meaning win over whatever the answer
   * says, and the answer's explanation is ignored for them.
   */
  lemma FixedStatusesIgnoreRemoteError(status: int, body: Value, other: Value)
    requires status in {401, 403}
    ensures PairingFailureOf(status, body) == PairingFailureOf(status, other)
  {
  }

  // ---------------------------------------------------------------------
  // The configuration test
  // ---------------------------------------------------------------------

  /** The verdicts of the "test the configuration" button. */
  datatype ConfigVerdict = ConfigValid | TokenRejected | IngestDisabled | UnexpectedReply(status: int)

  /** `STATUS_CLASS_MAP`'s variants. */
  datatype StatusVariant = InfoStatus | SuccessStatus | ErrorStatus | WarningStatus

  /**
   * The verdict on the answer to an empty ingest request: a 400 for an
   * invalid payload means the token was accepted; then a rejected token,
   * then a disabled endpoint; anything else is unexpected.
   */
  function ConfigVerdictOf(status: int, body: Value): (r: ConfigVerdict)
    ensures r == ConfigValid <==> status == 400 && Get(body, "error") == Str("invalid_payload")
    ensures r == TokenRejected <==>
      !(status == 400 && Get(body, "error") == Str("invalid_payload"))
      && (status == 401 || Get(body, "error") == Str("unauthorized"))
    ensures r == IngestDisabled <==>
      !(status == 400 && Get(body, "error") == Str("invalid_payload"))
      && status != 401 && Get(body, "error") != Str("unauthorized")
      && (status == 503 || Get(body, "error") == Str("ingest_api_disabled"))
    ensures r.UnexpectedReply? ==> r.status == status
  {
    var error := Get(body, "error");
    if status == 400 && error == Str("invalid_payload") then ConfigValid
    else if status == 401 || error == Str("unauthorized") then TokenRejected
    else if status == 503 || error == Str("ingest_api_disabled") then IngestDisabled
    else UnexpectedReply(status)
  }

  /** How each verdict is shown. */
  function VerdictVariant(v: ConfigVerdict): (r: StatusVariant)
    ensures r == SuccessStatus <==> v == ConfigValid
    ensures r == ErrorStatus <==> v == TokenRejected
  {
    match v
    case ConfigValid => SuccessStatus
    case TokenRejected => ErrorStatus
    case IngestDisabled => WarningStatus
    case UnexpectedReply(_) => WarningStatus
  }

  /** A 401 is never a success, whatever the body says; only a 400 can be one. */
  lemma OnlyA400Succeeds(status: int, body: Value)
    ensures VerdictVariant(ConfigVerdictOf(status, body)) == SuccessStatus ==> status == 400
    ensures status == 401 ==> VerdictVariant(ConfigVerdictOf(status, body)) == ErrorStatus
  {
  }
}
