/**
 * The ingest client (`src/lib/ingestClient.ts`): the payload built from a
 * request and the settings, the reading of the response body, and the
 * chain of checks around the one POST to the bot's `/ingest` endpoint.
 * The network is an input: whatever the server answers to the request, or
 * the error `fetch` throws.
 */
module Ingest {
  import opened Wrappers
  import opened Text
  import opened Json
  import opened Url
  import opened Normalize
  import opened Settings

  const DefaultTimeoutMs := 300000
  const SettingsMissing := "SETTINGS_MISSING"
  const SettingsMissingMessage := "Configuration extension incomplète. Ouvre les options LiveChat."
  const InvalidPayload := "INVALID_PAYLOAD"
  const InvalidPayloadMessage := "URL invalide ou non supportée pour l’envoi."
  const SentMessageWithoutJob := "Envoyé vers LiveChat."
  const JsonContentType := "application/json"

  datatype IngestRequest =
    | Quick(url: string)
    | Compose(url: string, text: Option<string>, forceRefresh: Option<bool>)

  /** The JSON body sent to the bot; a None field is a key that is absent. */
  datatype IngestPayload = IngestPayload(
    guildId: string,
    url: string,
    authorName: string,
    authorImage: Option<string>,
    text: Option<string>,
    forceRefresh: Option<bool>)

  /** What `./errors` makes of a failure; its mapping functions are inputs of the model. */
  datatype IngestFailure = IngestFailure(code: string, message: string)

  datatype ErrorMapping = ErrorMapping(
    /** `mapHttpFailure(status, body)`. */
    http: (int, Value) -> IngestFailure,
    /** `mapNetworkFailure(error)`. */
    network: Value -> IngestFailure)

  datatype IngestResult =
    | Sent(jobId: Option<string>, status: int, message: string)
    | Failed(error: IngestFailure)

  /** The request handed to `fetch`; its body is serialised with `JSON.stringify`. */
  datatype HttpRequest = HttpRequest(
    httpMethod: string, url: string, contentType: string, authorization: string, body: IngestPayload)

  /** What `fetch` produced: a response, whose body may fail to be read, or a thrown error. */
  datatype FetchOutcome =
    | Responded(status: int, contentType: Option<string>, body: Option<string>)
    | Threw(error: Value)

  // ---------------------------------------------------------------------
  // The payload
  // ---------------------------------------------------------------------

  /**
   * `buildIngestPayload`: null when the URL does not resolve; the guild,
   * the resolved URL, the author name or the default, the image when it is
   * not empty; a compose request adds the trimmed text when it is not
   * blank and always the refresh flag.
   */
  function BuildIngestPayload(c: Codec, request: IngestRequest, settings: ExtensionSettings): (r: Option<IngestPayload>)
    ensures r.None? <==> ResolveIngestTarget(c, request.url, None).None?
    ensures r.Some? ==> Some(r.value.url) == ResolveIngestTarget(c, request.url, None)
  {
    match ResolveIngestTarget(c, request.url, None)
    case None => None
    case Some(normalizedUrl) =>
      var authorName := if settings.authorName != "" then settings.authorName else DefaultAuthorName;
      var authorImage := if settings.authorImage.Some? && settings.authorImage.value != "" then settings.authorImage else None;
      match request
      case Quick(_) => Some(IngestPayload(settings.guildId, normalizedUrl, authorName, authorImage, None, None))
      case Compose(_, text, forceRefresh) =>
        var trimmed := if text.Some? then AsNonEmptyString(Str(text.value)) else None;
        Some(IngestPayload(settings.guildId, normalizedUrl, authorName, authorImage, trimmed,
                           Some(forceRefresh.Some? && forceRefresh.value)))
  }

  /**
   * Which keys a payload carries: the guild as configured, a non-empty
   * author name, an image only when one is configured; no `text` and no
   * `forceRefresh` for a quick send; for a compose send always a boolean
   * `forceRefresh` and a `text` only when the text is not blank, trimmed.
   */
  lemma PayloadKeys(c: Codec, request: IngestRequest, settings: ExtensionSettings)
    requires BuildIngestPayload(c, request, settings).Some?
    ensures var p := BuildIngestPayload(c, request, settings).value;
      p.guildId == settings.guildId && p.authorName != ""
      && (settings.authorName != "" ==> p.authorName == settings.authorName)
      && (p.authorImage.Some? <==> settings.authorImage.Some? && settings.authorImage.value != "")
      && (p.authorImage.Some? ==> p.authorImage == settings.authorImage)
    ensures var p := BuildIngestPayload(c, request, settings).value;
      request.Quick? ==> p.text.None? && p.forceRefresh.None?
    ensures var p := BuildIngestPayload(c, request, settings).value;
      request.Compose? ==>
        p.forceRefresh == Some(request.forceRefresh == Some(true))
        && (p.text.Some? <==> request.text.Some? && Trim(request.text.value) != "")
        && (p.text.Some? ==> p.text.value == Trim(request.text.value))
  {
    assert DefaultAuthorName[0] == 'L';
  }

  /**
   * A URL the background worker already resolved survives the second
   * resolution inside the payload builder unchanged, given that resolved
   * URLs resolve to themselves (`Normalize.ResolveIdempotent` says when).
   */
  lemma ResolvedUrlKeptInPayload(c: Codec, raw: string, n: string, request: IngestRequest, settings: ExtensionSettings)
    requires ResolveIngestTarget(c, raw, None) == Some(n) && ResolveIngestTarget(c, n, None) == Some(n)
    requires request.url == n
    ensures BuildIngestPayload(c, request, settings).Some?
    ensures BuildIngestPayload(c, request, settings).value.url == ResolveIngestTarget(c, raw, None).value
  {
  }

  // ---------------------------------------------------------------------
  // The response
  // ---------------------------------------------------------------------

  /**
   * `parseResponseBody`: a JSON content type gives the parsed body, or null
   * when reading or parsing fails; any other type gives `{message}` with
   * the trimmed text, or null for a blank or unreadable body. `parseJson`
   * is `JSON.parse`, None where it throws.
   */
  function ParseResponseBody(contentType: Option<string>, body: Option<string>,
                             parseJson: string -> Option<Value>): (r: Value)
    ensures !Contains(contentType.UnwrapOr(""), JsonContentType) ==>
      (r == Null <==> body.None? || Trim(body.value) == "")
    ensures !Contains(contentType.UnwrapOr(""), JsonContentType) && body.Some? && Trim(body.value) != "" ==>
      r == Obj(map["message" := Str(Trim(body.value))])
    ensures Contains(contentType.UnwrapOr(""), JsonContentType) ==>
      r == (if body.Some? && parseJson(body.value).Some? then parseJson(body.value).value else Null)
  {
    if Contains(contentType.UnwrapOr(""), JsonContentType) then
      if body.None? then Null
      else
        match parseJson(body.value)
        case None => Null
        case Some(v) => v
    else
      match body
      case None => Null
      case Some(text) =>
        match AsNonEmptyString(Str(text))
        case None => Null
        case Some(normalized) => Obj(map["message" := Str(normalized)])
  }

  /** The response body's `jobId`, when the body is a record that has one that is a non-blank string. */
  function JobIdOf(body: Value): (r: Option<string>)
    ensures r.Some? ==> r.value != "" && Trimmed(r.value)
    ensures r.Some? ==> HasKey(body, "jobId") && Get(body, "jobId").Str? && r.value == Trim(Get(body, "jobId").s)
    ensures Get(body, "jobId").Str? && Trim(Get(body, "jobId").s) != "" ==> r.Some?
  {
    if Truthy(body) && IsRecord(body) && HasKey(body, "jobId") then AsNonEmptyString(Get(body, "jobId")) else None
  }

  function Min(a: int, b: int): int
  {
    if a <= b then a else b
  }

  /** The success message: the first eight characters of the job id, or the plain confirmation. */
  function SentMessage(jobId: Option<string>): string
  {
    if jobId.Some? then "Envoyé (job: " + jobId.value[..Min(8, |jobId.value|)] + "...)" else SentMessageWithoutJob
  }

  predicate IsOk(status: int)
  {
    200 <= status <= 299
  }

  /** The result for a response that arrived: the mapped failure unless 2xx, else the job and the message. */
  function ResponseResult(errors: ErrorMapping, status: int, body: Value): (r: IngestResult)
    ensures r.Sent? <==> IsOk(status)
  {
    if !IsOk(status) then Failed(errors.http(status, body))
    else Sent(JobIdOf(body), status, SentMessage(JobIdOf(body)))
  }

  // ---------------------------------------------------------------------
  // The send
  // ---------------------------------------------------------------------

  /** The request `sendToIngest` makes for a payload: a POST to `/ingest` with the bearer token (RFC 6750, section 2.1). */
  function IngestHttpRequest(settings: ExtensionSettings, payload: IngestPayload): HttpRequest
  {
    HttpRequest("POST", settings.apiUrl + "/ingest", JsonContentType, "Bearer " + settings.ingestToken, payload)
  }

  /** The settings a send uses: the ones given, or, for null and undefined, the stored ones. */
  function ResolvedSettings(c: Codec, provided: Option<ExtensionSettings>, stored: Value): (r: Option<ExtensionSettings>)
    ensures r.Some? && provided.None? ==> IsSettingsComplete(r)
  {
    if provided.Some? then provided else GetSettings(c, stored)
  }

  /** The result for what `fetch` produced. */
  function OutcomeResult(errors: ErrorMapping, outcome: FetchOutcome, parseJson: string -> Option<Value>): IngestResult
  {
    match outcome
    case Threw(error) => Failed(errors.network(error))
    case Responded(status, contentType, body) =>
      ResponseResult(errors, status, ParseResponseBody(contentType, body, parseJson))
  }

  /** Where the checks before the request leave a send: stopped with a failure, or ready to send a request. */
  datatype Plan = Stop(failure: IngestFailure) | Go(http: HttpRequest)

  /** The two checks `sendToIngest` makes before the request: the settings first, then the payload. */
  function PlanSend(c: Codec, request: IngestRequest, settings: Option<ExtensionSettings>): Plan
  {
    if !IsSettingsComplete(settings) then Stop(IngestFailure(SettingsMissing, SettingsMissingMessage))
    else
      match BuildIngestPayload(c, request, settings.value)
      case None => Stop(IngestFailure(InvalidPayload, InvalidPayloadMessage))
      case Some(payload) => Go(IngestHttpRequest(settings.value, payload))
  }

  /**
   * What `sendToIngest` returns with the settings it uses, together with
   * the request it hands to `fetch`, if it gets that far. `respond` is
   * the network's answer to that request.
   */
  function SendSpec(c: Codec, errors: ErrorMapping, request: IngestRequest, settings: Option<ExtensionSettings>,
                    respond: HttpRequest -> FetchOutcome,
                    parseJson: string -> Option<Value>): (IngestResult, Option<HttpRequest>)
  {
    PlanResult(errors, PlanSend(c, request, settings), respond, parseJson)
  }

  /** Where a plan leads: its failure and no request, or the request and what its answer makes of the send. */
  function PlanResult(errors: ErrorMapping, plan: Plan, respond: HttpRequest -> FetchOutcome,
                      parseJson: string -> Option<Value>): (IngestResult, Option<HttpRequest>)
  {
    match plan
    case Stop(failure) => (Failed(failure), None)
    case Go(http) => (OutcomeResult(errors, respond(http), parseJson), Some(http))
  }

  /** The abort timer of one send. */
  class Timer {
    var pending: bool
    var delayMs: int
    /** How often the timer was set. */
    var starts: nat

    constructor ()
      ensures !pending && starts == 0
    {
      pending := false;
      delayMs := 0;
      starts := 0;
    }

    /** `setTimeout(() => controller.abort(), ms)`. */
    method Start(ms: int)
      modifies this
      ensures pending && delayMs == ms && starts == old(starts) + 1
    {
      pending := true;
      delayMs := ms;
      starts := starts + 1;
    }

    /** `clearTimeout`. */
    method Clear()
      modifies this
      ensures !pending && delayMs == old(delayMs) && starts == old(starts)
    {
      pending := false;
    }
  }

  /**
   * `sendToIngest`: the settings check, then the payload check, then the
   * timer, the request and the response; whatever happens after the timer
   * was set, it is cleared before the result is returned.
   */
  method SendToIngest(c: Codec, errors: ErrorMapping, request: IngestRequest, provided: Option<ExtensionSettings>,
                      stored: Value, timeoutMs: Option<int>, respond: HttpRequest -> FetchOutcome,
                      parseJson: string -> Option<Value>)
    returns (r: IngestResult, sent: Option<HttpRequest>, timer: Timer)
    ensures (r, sent) == SendSpec(c, errors, request, ResolvedSettings(c, provided, stored), respond, parseJson)
    ensures fresh(timer) && !timer.pending
    ensures timer.starts == (if sent.Some? then 1 else 0)
    ensures sent.Some? && timeoutMs.Some? ==> timer.delayMs == timeoutMs.value
    ensures sent.Some? && timeoutMs.None? ==> timer.delayMs == DefaultTimeoutMs
  {
    var plan := PlanSend(c, request, ResolvedSettings(c, provided, stored));
    r, sent, timer := RunPlan(errors, plan, timeoutMs.UnwrapOr(DefaultTimeoutMs), respond, parseJson);
  }

  /** Everything `sendToIngest` does after its two checks: the timer, the request and the response. */
  method RunPlan(errors: ErrorMapping, plan: Plan, timeoutMs: int, respond: HttpRequest -> FetchOutcome,
                 parseJson: string -> Option<Value>)
    returns (r: IngestResult, sent: Option<HttpRequest>, timer: Timer)
    ensures (r, sent) == PlanResult(errors, plan, respond, parseJson)
    ensures fresh(timer) && !timer.pending
    ensures timer.starts == (if sent.Some? then 1 else 0)
    ensures sent.Some? ==> timer.delayMs == timeoutMs
  {
    timer := new Timer();
    if plan.Stop? {
      r, sent := Failed(plan.failure), None;
    } else {
      timer.Start(timeoutMs);
      sent := Some(plan.http);
      r := ReadOutcome(errors, respond(plan.http), parseJson);
      timer.Clear();
    }
  }

  /** The `try` / `catch` around the response: what the answer, or the error thrown, makes of the send. */
  method ReadOutcome(errors: ErrorMapping, outcome: FetchOutcome, parseJson: string -> Option<Value>)
    returns (r: IngestResult)
    ensures r == OutcomeResult(errors, outcome, parseJson)
  {
    if outcome.Threw? {
      r := Failed(errors.network(outcome.error));
    } else {
      var body := ParseResponseBody(outcome.contentType, outcome.body, parseJson);
      if !IsOk(outcome.status) {
        r := Failed(errors.http(outcome.status, body));
      } else {
        var jobId := JobIdOf(body);
        r := Sent(jobId, outcome.status, SentMessage(jobId));
      }
    }
  }

  // ---------------------------------------------------------------------
  // Properties of the send
  // ---------------------------------------------------------------------

  /** Incomplete settings fail first, before any payload is built and before any request. */
  lemma SettingsCheckedFirst(c: Codec, errors: ErrorMapping, request: IngestRequest, settings: Option<ExtensionSettings>,
                             respond: HttpRequest -> FetchOutcome, parseJson: string -> Option<Value>)
    requires !IsSettingsComplete(settings)
    ensures SendSpec(c, errors, request, settings, respond, parseJson)
      == (Failed(IngestFailure(SettingsMissing, SettingsMissingMessage)), None)
  {
  }

  /** With complete settings, a link that does not resolve fails before any request. */
  lemma PayloadCheckedBeforeFetch(c: Codec, errors: ErrorMapping, request: IngestRequest,
                                  settings: Option<ExtensionSettings>,
                                  respond: HttpRequest -> FetchOutcome, parseJson: string -> Option<Value>)
    requires IsSettingsComplete(settings)
    requires ResolveIngestTarget(c, request.url, None).None?
    ensures SendSpec(c, errors, request, settings, respond, parseJson)
      == (Failed(IngestFailure(InvalidPayload, InvalidPayloadMessage)), None)
  {
  }

  /**
   * A request is made exactly when the settings are complete and the link
   * resolves, and it is a JSON POST to the API URL's `/ingest` carrying the
   * ingest token as a bearer token and the payload as its body.
   */
  lemma RequestShape(c: Codec, errors: ErrorMapping, request: IngestRequest, settings: Option<ExtensionSettings>,
                     respond: HttpRequest -> FetchOutcome, parseJson: string -> Option<Value>)
    ensures SendSpec(c, errors, request, settings, respond, parseJson).1.Some?
      <==> IsSettingsComplete(settings) && ResolveIngestTarget(c, request.url, None).Some?
    ensures SendSpec(c, errors, request, settings, respond, parseJson).1.Some? ==>
      var http := SendSpec(c, errors, request, settings, respond, parseJson).1.value;
      http.httpMethod == "POST" && http.contentType == JsonContentType
      && http.url == settings.value.apiUrl + "/ingest" && http.authorization == "Bearer " + settings.value.ingestToken
      && BuildIngestPayload(c, request, settings.value) == Some(http.body)
  {
  }

  /**
   * How the outcome of the request decides the result: a thrown error and
   * a response outside 2xx go through the error mapping; a 2xx response
   * echoes its status and reports the job id found in the body.
   */
  lemma OutcomeDecides(c: Codec, errors: ErrorMapping, request: IngestRequest, settings: Option<ExtensionSettings>,
                       respond: HttpRequest -> FetchOutcome, parseJson: string -> Option<Value>)
    requires SendSpec(c, errors, request, settings, respond, parseJson).1.Some?
    ensures var (r, sent) := SendSpec(c, errors, request, settings, respond, parseJson);
      var outcome := respond(sent.value);
      (outcome.Threw? ==> r == Failed(errors.network(outcome.error)))
      && (outcome.Responded? && !IsOk(outcome.status) ==>
            r == Failed(errors.http(outcome.status, ParseResponseBody(outcome.contentType, outcome.body, parseJson))))
      && (outcome.Responded? && IsOk(outcome.status) ==>
            r.Sent? && r.status == outcome.status
            && r.jobId == JobIdOf(ParseResponseBody(outcome.contentType, outcome.body, parseJson)))
  {
  }

  /**
   * The success message names the job by its first eight characters when
   * there is a job id, and is the plain confirmation otherwise.
   */
  lemma SentMessageNamesJob(jobId: Option<string>)
    ensures jobId.None? ==> SentMessage(jobId) == SentMessageWithoutJob
    ensures jobId.Some? && |jobId.value| >= 8 ==>
      SentMessage(jobId) == "Envoyé (job: " + jobId.value[..8] + "...)"
    ensures jobId.Some? && |jobId.value| < 8 ==> SentMessage(jobId) == "Envoyé (job: " + jobId.value + "...)"
    ensures jobId.Some? ==> SentMessage(jobId) != SentMessageWithoutJob
  {
    if jobId.Some? {
      var m := SentMessage(jobId);
      assert m[|m| - 1] == ')';
      assert SentMessageWithoutJob[|SentMessageWithoutJob| - 1] == '.';
    }
  }

  /** Given that the error mapping reads a 401 as `UNAUTHORIZED`, a 401 response fails with that code. */
  lemma UnauthorizedOn401(c: Codec, errors: ErrorMapping, request: IngestRequest, settings: Option<ExtensionSettings>,
                          respond: HttpRequest -> FetchOutcome, parseJson: string -> Option<Value>)
    requires forall body :: errors.http(401, body).code == "UNAUTHORIZED"
    requires SendSpec(c, errors, request, settings, respond, parseJson).1.Some?
    requires respond(SendSpec(c, errors, request, settings, respond, parseJson).1.value).Responded?
    requires respond(SendSpec(c, errors, request, settings, respond, parseJson).1.value).status == 401
    ensures SendSpec(c, errors, request, settings, respond, parseJson).0.Failed?
    ensures SendSpec(c, errors, request, settings, respond, parseJson).0.error.code == "UNAUTHORIZED"
  {
  }
}
