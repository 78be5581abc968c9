# LiveChat extension: link canonicalisation, ingest client and capture store

This project is a Dafny model of the deterministic core of the LiveChat
browser extension. The extension sends the video or post a user is
looking at (YouTube, TikTok, X / Twitter, or any http(s) page) to a LiveChat
ingest server. The model covers:

- the link normaliser of `src/lib/url.ts`:
  - the YouTube, TikTok and X rules;
  - the generic http(s) pass-through;
  - the API-URL normaliser and the permission pattern derived from it;
  - the host-first dispatcher `resolveIngestTargetUrl`;
  - the first-match resolver over context-menu candidates;
- the ingest client of `src/lib/ingestClient.ts`:
  - the payload builder;
  - the response-body reader;
  - the guarded chain of `sendToIngest`, around an abstract `fetch` and an abort timer;
- the settings of `src/lib/settings.ts`:
  - the ordered validator and the completeness test;
  - the stored settings and the compose draft;
  - the hand-over of the API host permission, over a set of granted origin patterns;
- the message guards of `src/lib/messages.ts`, over a JSON-like `Value`;
- the per-tab TikTok capture store of `src/background/index.ts`:
  - the id, page, play and media validators;
  - merge patches and sanitising;
  - the bound of sixteen records;
  - the in-memory cache over session storage;
  - the lookup priority of the link sent for a tab;
- the content scripts' own normalisers and small state machines (`src/content/*.ts`):
  - the TikTok sync throttle;
  - the X readiness cache and toast mapping;
  - the button decisions after a scan;
- the decision tables of the options page (`src/options/options.ts`).

## How the model is organised

URL parsing is the WHATWG URL parser, a foreign library. It is modelled as
an opaque `Codec`:

- a `parse` function from a string and an optional base to a `Url` record;
- the `application/x-www-form-urlencoded` parser and serializer behind `URLSearchParams`.

The record holds the scheme, credentials, host name, port, path, query and
fragment. The `href`, `origin` and `host` getters are concatenations of
those parts. Where a proof needs the parser to read a serialised link back,
this is a hypothesis of that lemma (`RoundTrips`, `QueryCodecInverse`),
never an axiom.

The regular expressions of the source are written out as explicit matchers.
The anchored path patterns are each proved equivalent to a predicate on the
`/`-separated fields of the path (the JavaScript `split` semantics):
`Url.NamedMediaIff`, `Url.GenericMediaIff`, `Url.UserStatusIff`,
`Url.WebStatusIff` and `TikTokContent.NamedLooseIff`. The unanchored
searches are specified as leftmost match positions over the whole string,
with no earlier position matching. These are the media search of
`Url.FindMedia` and the bounded digit run of `Capture.FindBoundedId`.

Values read from storage and messages are a JSON-like `Json.Value`.

State that the source updates in place is modelled with classes:

- the granted permissions (`Settings.Permissions`);
- the abort timer (`Ingest.Timer`);
- the content scripts' throttle and readiness cache (`TikTokContent.SyncThrottle`, `TwitterContent.AuthCache`);
- the capture store with its cache and session storage (`CaptureStore.Store`).

Each method is proved against a specification function, and the
properties are lemmas about that function.

Two behaviours of the link rules are worth stating directly:

- The YouTube, TikTok and X normalisers check the host and never the scheme
  (`src/lib/url.ts:54,100,120`). Only the generic pass-through and the
  API-URL normaliser require `http:` or `https:`. Lemma
  `Normalize.PlatformsIgnoreScheme` states this.
- The X rule keeps the link's own origin. Under a scheme without a tuple
  origin, the text it returns starts with `null/` (`Normalize.TwitterKeepsOrigin`).

## Model

| member | source | states |
|---|---|---|
| Text.TrimStart | src/lib/url.ts:14 | `String.prototype.trim`, left end: the result is a suffix of the input, everything removed is white space, and the result does not start with white space |
| Text.TrimEnd | src/lib/url.ts:14 | `String.prototype.trim`, right end: the result is a prefix of the input, everything removed is white space, and the result does not end with white space |
| Text.TrimShape | src/lib/url.ts:14 | a trimmed string has no white space at either end |
| Text.TrimIdempotent | src/lib/url.ts:14 | trimming a trimmed string changes nothing |
| Text.BlankIffAllSpace | src/lib/settings.ts:43-50 | a string trims to the empty string exactly when every character is white space |
| Text.Lower | src/lib/url.ts:54 | `toLowerCase` on ASCII: same length, each upper-case letter mapped to lower case, everything else kept |
| Text.LowerIdempotent | src/lib/url.ts:149 | lower-casing twice is lower-casing once |
| Text.SplitFields | src/lib/url.ts:71 | `String.prototype.split` on one character: the first field runs up to the first separator; a string without the separator is one field; otherwise the rest splits after that separator |
| Text.SplitJoin | src/lib/url.ts:71 | splitting a join of separator-free fields gives the fields back |
| Text.DigitRun | src/lib/url.ts:124 | the longest run of ASCII digits at the start of a string |
| Json.AsNonEmptyString | src/lib/settings.ts:43-50 | Some exactly for a string that is not blank, and then it is that string trimmed |
| Json.AsNonEmptyStringFixpoint | src/lib/settings.ts:43-50 | the guard is idempotent: its output passes through it unchanged |
| Json.RecordsAreTruthy | src/lib/messages.ts:82-84 | every record is truthy, so `!v \|\| typeof v !== 'object'` is the negation of `isRecord` |
| Url.Lookup | src/lib/url.ts:80 | `searchParams.get`: a value exactly when some pair has the name, and then it is the value of the first pair with that name |
| Url.SetParam | src/lib/url.ts:66 | `searchParams.set`: afterwards looking the name up gives the value set, and looking up any other name gives what it gave before |
| Url.HostClassesDisjoint | src/lib/url.ts:2-4 | no host is in two of the YouTube, X and TikTok host classes |
| Url.NamedMediaIff | src/lib/url.ts:104 | the named TikTok regular expression matches a path exactly when its fields are "", `@handle`, a media kind, a 15-22 digit id, then anything |
| Url.GenericMediaIff | src/lib/url.ts:109 | the generic TikTok regular expression matches exactly the paths "", a media kind, a 15-22 digit id, then anything |
| Url.UserStatusIff | src/lib/url.ts:124 | the X user-status regular expression matches exactly the paths "", a user, `status` in any case, then a field starting with the digits |
| Url.WebStatusIff | src/lib/url.ts:129 | the X web-status regular expression matches exactly the paths "", `i`, `web`, `status` in any case, then a field starting with the digits |
| Url.FindMedia | src/content/tiktok.ts:180 | a search for the media pattern: the position found is a match, and no earlier position is one |
| Url.FindMediaAt | src/content/tiktok.ts:178 | a match at a position is the one found when no earlier position matches |
| Url.CanonicalMediaFound | src/lib/url.ts:104-111 | a canonical TikTok path holds the media pattern first right before its kind, with its own kind and id |
| Normalize.GenericOf | src/lib/url.ts:40-49 | Some exactly for an http or https link, and then the link's `href` without its fragment |
| Normalize.NormalizeGeneric | src/lib/url.ts:40-49 | a result exactly when the trimmed text parses with an http or https scheme, and it is the parsed link's href without its fragment |
| Normalize.YoutubeRules | src/lib/url.ts:51-95 | None off the YouTube hosts; a youtu.be link gives the watch URL with `v` set to the trimmed path id, None for an empty id; on the other hosts, outside `/shorts/`, a result exists exactly when `v` is non-empty, and it is the watch URL keeping only `v` and a non-empty `t` |
| Normalize.NormalizeYoutube | src/lib/url.ts:51-95 | a result only when the trimmed text parses on one of the four YouTube hosts; on youtu.be exactly when the trimmed path id is not empty; on the other three hosts outside `/shorts/` exactly when `v` is non-empty |
| Normalize.WatchParamsFacts | src/lib/url.ts:86-92 | the watch URL carries `v`, and `t` exactly when a non-empty one was given, in that order, and nothing else |
| Normalize.ShortLinkMatchesWatchLink | src/lib/url.ts:58-94 | a youtu.be link and a watch link with the same `v` and no `t` normalise to the same text |
| Normalize.ShortsKeepsSegment | src/lib/url.ts:70-77 | a shorts link keeps the first non-empty field after `shorts`, which holds no '/' |
| Normalize.YoutubeHostsAgree | src/lib/url.ts:51-95 | scheme, port, credentials, fragment and which of the three non-short YouTube hosts is used do not change the result |
| Normalize.TikTokNamedPath | src/lib/url.ts:104-108 | on a TikTok host, a path of the named form `/@handle/kind/id` becomes that path with the kind lower-cased |
| Normalize.TikTokGenericPath | src/lib/url.ts:109-114 | on a TikTok host, a path of the form `/kind/id` becomes that path with the kind lower-cased |
| Normalize.NormalizeTikTok | src/lib/url.ts:97-115 | a result exactly when the trimmed text parses on tiktok.com or a subdomain and its path has the named or the bare media shape; the result is on `https://www.tiktok.com` |
| Normalize.TikTokAccepts | src/lib/url.ts:97-115 | the TikTok rule accepts a link exactly when its lower-cased host is `tiktok.com` or ends in `.tiktok.com` and its path has one of the two media shapes |
| Normalize.TwitterUserPath | src/lib/url.ts:124-128 | on an X host, a `/user/status/digits` path is kept as that path |
| Normalize.TwitterWebPath | src/lib/url.ts:129-134 | on an X host, an `/i/web/status/digits` path is kept as that path |
| Normalize.NormalizeTwitter | src/lib/url.ts:117-135 | a result exactly when the trimmed text parses on one of the four X hosts and its path has the user-status or the web-status shape; the result starts with the link's own origin |
| Normalize.TwitterAccepts | src/lib/url.ts:117-135 | the X rule accepts a link exactly when its host is one of the four X hosts and its path has one of the two status shapes |
| Normalize.TwitterKeepsOrigin | src/lib/url.ts:126-131 | an accepted X link keeps its own origin, scheme included; under a scheme without a tuple origin the result begins `null/` |
| Normalize.PlatformsIgnoreScheme | src/lib/url.ts:54 | changing only the scheme never changes the YouTube, TikTok or X result (with lines 100 and 120 of the same file) |
| Normalize.StripTrailingSlashes | src/lib/url.ts:17 | the path without its trailing '/' characters: a prefix of it that does not end in '/', followed only by '/' characters |
| Normalize.RootTestNeverFires | src/lib/url.ts:18 | a stripped path is never "/", so the root test of `normalizeOriginBase` has no effect |
| Normalize.NormalizeApiUrl | src/lib/url.ts:22-32 | Ok exactly when the trimmed input parses as an http or https link, else the fixed error message |
| Normalize.ApiUrlShape | src/lib/url.ts:16-32 | the normalised API URL is the origin, the path without trailing slashes, and the query; no credentials and no fragment |
| Normalize.ApiUrlIdempotent | src/lib/url.ts:22-32 | normalising a normalised API URL gives it back, when the parser reads it back as written |
| Normalize.ToApiOriginPattern | src/lib/url.ts:34-38 | fails with the invalid-API-URL error whenever the API URL normaliser fails |
| Normalize.ApiOriginPatternOf | src/lib/url.ts:34-38 | the pattern is the API URL's own scheme, host and port followed by `/*` |
| Normalize.ResolveIngestTarget | src/lib/url.ts:137-146 | blank input and input the URL parser refuses resolve to nothing |
| Normalize.ResolveIsCanonical | src/lib/url.ts:152-163 | re-parsing the `href` inside the dispatcher gives what the rules give on the parsed link itself, when the parser round-trips |
| Normalize.FallbackPolicy | src/lib/url.ts:151-163 | over http(s): a TikTok-host link gives its TikTok form when the TikTok rule accepts the path, else the link without its fragment; YouTube and X links resolve exactly when their rule accepts them; every other host gives the link without its fragment |
| Normalize.ResolveNonEmpty | src/lib/url.ts:140-163 | a resolved link is never the empty string, so the source's truthiness tests are null tests |
| Normalize.CanonicalUrlHref | src/lib/url.ts:137-164 | the dispatcher's result is the `href` of a canonical URL record, except for the `null/` X case |
| Normalize.ResolveIdempotent | src/lib/url.ts:137-164 | resolving a resolved link gives the same link back, when the parser reads it back as written |
| Normalize.PresentWhereSpec | src/lib/url.ts:174-176 | every kept value is a present candidate that passes the filter, a qualifying first candidate is kept first, and nothing is kept exactly when no candidate qualifies |
| Normalize.PresentWhereConcat | src/lib/url.ts:174-176 | the filter decides each candidate on its own (kept exactly when present and passing) and the result for a concatenation is the concatenation of the results, so every qualifying candidate is kept, in input order |
| Normalize.FirstSomeSpec | src/lib/url.ts:178-185 | the first candidate with a result is the one returned, and none gives None |
| Normalize.ResolveUrlFromContextCandidates | src/lib/url.ts:173-186 | the first of link, source, page and tab that is not blank and resolves, resolved; None when none does |
| Settings.NormalizeSettingsInput | src/lib/settings.ts:56-104 | every failure carries one of the four validation messages |
| Settings.ValidationOrder | src/lib/settings.ts:57-89 | the API URL is checked first, then the token, then the guild; a blank API URL, an invalid one, a blank token and a blank guild give their own message |
| Settings.ValidatedFields | src/lib/settings.ts:91-103 | success keeps the normalised API URL, the trimmed token and guild, the trimmed author name or the default, and the trimmed author image or null |
| Settings.ValidatedIsComplete | src/lib/settings.ts:91-117 | every settings value the validator accepts is complete |
| Settings.IsSettingsComplete | src/lib/settings.ts:106-117 | complete exactly when present and the API URL, token, guild and author name each pass the non-blank string guard; the image is not looked at |
| Settings.GetSettings | src/lib/settings.ts:119-129 | whatever it returns is complete settings |
| Settings.SavedSettingsReadBack | src/lib/settings.ts:119-135 | saved settings read back as themselves, when their API URL normalises to itself |
| Settings.TemplateOf | src/lib/settings.ts:149 | `${v \|\| ''}`: empty for a falsy value, the string itself for a string (with line 156 of the same file) |
| Settings.GetComposeDraft | src/lib/settings.ts:141-164 | null exactly for an empty slot or a URL that does not resolve; otherwise the resolved URL, the text as the template writes it, the truthiness of `forceRefresh`, the trimmed source when it is a non-blank string and `unknown` otherwise, and a finite `createdAt` floored, else now |
| Settings.SetComposeDraft | src/lib/settings.ts:166-179 | the slot is unchanged when the URL does not resolve; otherwise it holds the draft with its URL resolved |
| Settings.DraftRoundTrip | src/lib/settings.ts:141-179 | a draft that was written reads back as written, with its URL resolved |
| Settings.Permissions.Request | src/lib/settings.ts:193-199 | the answer is the user's approval, and the pattern is added to the held origins exactly when the user approves |
| Settings.Permissions.Remove | src/lib/settings.ts:201-207 | the pattern is no longer held, and the answer says whether it was |
| Settings.EnsureApiPermissionTransition | src/lib/settings.ts:209-253 | the answer and the patterns held afterwards are those of the transition specification |
| Settings.DeniedRemovesNothing | src/lib/settings.ts:213-234 | a refused request grants nothing, removes nothing and reports `permission_denied` |
| Settings.ApplyTransition | src/lib/settings.ts:215-252 | once both patterns are known, the answer and the held patterns are those of the transition specification, whichever branch is taken |
| Settings.GrantPattern | src/lib/settings.ts:215-225 | the pattern is granted exactly when it was already held or the user approves, and only then is it added to the held patterns |
| Settings.GrantedTransition | src/lib/settings.ts:236-252 | after a grant the new pattern is held; the previous one is removed only when a previous URL exists and its pattern differs, and `removedPrevious` reports that removal |
| Messages.AsNullableTrimmedString | src/lib/messages.ts:95-101 | the null and undefined shortcut changes nothing: for every value the result is that of the string guard, the trimmed string exactly when the value is a non-blank string |
| Messages.GuardsNeedRecords | src/lib/messages.ts:82-84 | null, undefined and every primitive fail every guard |
| Messages.SendGuardsNeedUrl | src/lib/messages.ts:103-117 | each send guard holds exactly for its type with a string `url` that is not blank |
| Messages.SendGuardsIgnoreOtherFields | src/lib/messages.ts:103-117 | changing any field but `type` and `url` never changes a send guard |
| Messages.SyncGuardIsTypeOnly | src/lib/messages.ts:127-139 | the sync guard's field conditions always hold: it tests the type alone |
| Messages.AtMostOneRequestGuard | src/lib/messages.ts:4-12 | the request types are pairwise distinct, so at most one request guard accepts a value, and the background guard is their disjunction |
| Messages.UnknownTypeRejected | src/lib/messages.ts:145-154 | a record whose type is none of the request types is no background request |
| Messages.ToastGuard | src/lib/messages.ts:156-167 | a value is a toast exactly when it has the toast type, a string message that is not blank and a level among the three; a toast is never a background request |
| Messages.TypeOnlyGuards | src/lib/messages.ts:119-143 | the compose-state, active-media and captured-URL requests depend on the `type` field alone: changing any other field leaves the guards' answers unchanged |
| Messages.ShowToastIsNoRequest | src/lib/messages.ts:4-12 | the toast type is none of the request types |
| Messages.IsBackgroundRequestMessage | src/lib/messages.ts:145-154 | a value any of the six request guards accepts is a record whose type is one of the six request types |
| Messages.IsShowToastMessage | src/lib/messages.ts:156-167 | a toast message is a record and is never a background request |
| Ingest.BuildIngestPayload | src/lib/ingestClient.ts:80-108 | null exactly when the URL does not resolve; otherwise the payload carries that resolved URL |
| Ingest.PayloadKeys | src/lib/ingestClient.ts:87-105 | the guild as configured; the author name or the default; the image only when set; quick mode has no text and no `forceRefresh`; compose mode has a boolean `forceRefresh` and the trimmed text only when not blank |
| Ingest.ResolvedUrlKeptInPayload | src/lib/ingestClient.ts:81-89 | a URL the background already resolved reaches the payload unchanged, when the parser reads it back |
| Ingest.ParseResponseBody | src/lib/ingestClient.ts:53-78 | a JSON content type gives the parsed body, or null when there is no body or it does not parse; any other content type gives `{message}` holding the trimmed text exactly when the text is readable and not blank, and null otherwise |
| Ingest.JobIdOf | src/lib/ingestClient.ts:164-167 | the job id is the trimmed `jobId` string of the body; it is present exactly when the body has a `jobId` string that is not blank |
| Ingest.ResponseResult | src/lib/ingestClient.ts:155-174 | the send succeeds exactly for a 2xx status |
| Ingest.ResolvedSettings | src/lib/ingestClient.ts:115 | settings read from storage, when no settings were provided, are complete |
| Ingest.SendToIngest | src/lib/ingestClient.ts:110-183 | the result and the request made are those of the send specification; the timer is not pending afterwards, and when a request was made it was armed with the given timeout, or five minutes when none is given |
| Ingest.RunPlan | src/lib/ingestClient.ts:139-182 | the timer is set before the request and cleared on every path |
| Ingest.ReadOutcome | src/lib/ingestClient.ts:144-179 | a thrown error gives the mapped network failure; a response gives the response result |
| Ingest.SettingsCheckedFirst | src/lib/ingestClient.ts:115-125 | incomplete settings give `SETTINGS_MISSING` with no request made |
| Ingest.PayloadCheckedBeforeFetch | src/lib/ingestClient.ts:127-137 | complete settings and a link that does not resolve give `INVALID_PAYLOAD` with no request made |
| Ingest.RequestShape | src/lib/ingestClient.ts:145-153 | a request is made exactly when the settings are complete and the link resolves; it is a POST to the API URL plus `/ingest`, with the bearer token and the payload as body |
| Ingest.OutcomeDecides | src/lib/ingestClient.ts:155-179 | a thrown error gives the network failure, a non-2xx status the HTTP failure, a 2xx status success |
| Ingest.SentMessageNamesJob | src/lib/ingestClient.ts:173 | the success message names the job by its first eight characters, else is the plain confirmation |
| Ingest.UnauthorizedOn401 | src/lib/ingestClient.ts:157-161 | when the error mapping reads 401 as `UNAUTHORIZED`, a 401 response fails with that code |
| Capture.NormalizeItemId | src/background/index.ts:90-98 | Some exactly for a string whose trim is 15 to 22 digits, and then that trimmed string |
| Capture.IsTikTokHostname | src/background/index.ts:85-88 | every host name it accepts, in any case, contains `tiktok.com` |
| Capture.NormalizePageUrl | src/background/index.ts:100-124 | the resolved link, when it parses on a TikTok host and its path holds `/video/` or `/photo/` and 15 digits |
| Capture.NormalizePlayUrl | src/background/index.ts:126-144 | the serialised link, exactly for host `www.tiktok.com` and a path starting `/aweme/v100/play/` in any case |
| Capture.NormalizeMediaUrl | src/background/index.ts:146-164 | the serialised link, exactly for a host containing `tiktok.com` and a path containing `/video/tos/` in any case |
| Capture.HostTestsNest | src/background/index.ts:85-88 | the play host is a TikTok host, and every TikTok host passes the media host test (with lines 136 and 156 of the same file) |
| Capture.MediaHostLooser | src/background/index.ts:85-88 | the media host test admits a host that the page host test refuses (with line 156 of the same file) |
| Capture.ExtractItemIdFromUrl | src/background/index.ts:166-193 | for a link that parses, the id in its path, then its `item_id` parameter; then the first word-bounded 15-22 digit run of the raw string |
| Capture.ExtractionOrder | src/background/index.ts:172-192 | the path wins over the query, the query over the raw string, and only a link that yields neither falls back |
| Capture.IdIsItsOwnNormalForm | src/background/index.ts:90-98 | a TikTok id written alone normalises to itself |
| Capture.ItemIdOfCanonicalPage | src/background/index.ts:166-193 | the id is read back from the path of a canonical page link |
| Capture.CanonicalPageIsPageUrl | src/background/index.ts:100-124 | a canonical TikTok page link passes the page test |
| Capture.PageUrlAcceptsTikTokLinks | src/background/index.ts:100-124 | every link the library's TikTok rule accepts is a page link |
| Capture.PageUrlAdmitsFallback | src/background/index.ts:116-120 | the page test is not anchored: a TikTok link the TikTok rule refuses but whose path holds a media id passes through the generic fallback |
| Capture.FallbackPathExample | src/background/index.ts:116-120 | `/foo/video/<15 digits>` is neither TikTok shape, yet holds a media id |
| CaptureStore.ValidatorsOfSound | src/background/index.ts:90-193 | the background's validators keep their promises: ids are 15-22 digits and links pass their tests |
| CaptureStore.SanitizeRecord | src/background/index.ts:204-227 | no record for a value that is not an object or whose four fields all fail; otherwise each field through its validator and a finite `ts` kept, else now |
| CaptureStore.SanitizedState | src/background/index.ts:229-258 | Some exactly for a record (arrays included); the entries kept are those, and only those, that sanitise to a record with an id, under their stored keys; the active id, latest record and time stamp go through their own validators, and with sound validators the state is sane |
| CaptureStore.SanitizeState | src/background/index.ts:229-258 | the entry loop gives the sanitised state |
| CaptureStore.RecordRoundTrip | src/background/index.ts:204-227 | a stored record reads back as itself, time stamp included (with lines 294-305 of the same file) |
| CaptureStore.StateRoundTrip | src/background/index.ts:229-258 | what the store writes for a tab reads back as the same state once the cache is gone (with lines 294-305 of the same file) |
| CaptureStore.MergeField | src/background/index.ts:317-320 | a given field, null included, overrides; an absent one keeps the base's, falsy values becoming null |
| CaptureStore.Merge | src/background/index.ts:307-329 | the merged record is stamped now, and is null when all four fields end up null |
| CaptureStore.MergeEmptyPatch | src/background/index.ts:307-329 | a patch that touches nothing only re-stamps the base; no base gives nothing |
| CaptureStore.MergeFullPatch | src/background/index.ts:307-329 | a patch that gives every field ignores the base |
| CaptureStore.MergeFields | src/background/index.ts:307-329 | each field is the patch's when given and the base's otherwise, and the merge is null exactly when all four are null |
| CaptureStore.MergeKeepsSanity | src/background/index.ts:307-329 | merging validated fields into a sane record gives a sane record |
| CaptureStore.PatchItemId | src/background/index.ts:351-356 | the patch's own id when valid, else the id in its page, play or media link, in that order |
| CaptureStore.NormalizedPatch | src/background/index.ts:351-360 | the computed id is always given; each link is given exactly when the patch gives it, through its validator |
| CaptureStore.BaseRecord | src/background/index.ts:368 | the record indexed under the id, else the latest record |
| CaptureStore.UpsertActiveItem | src/background/index.ts:342-347 | the active item changes only when the patch carries one, and the state is stamped now |
| CaptureStore.UpsertWithoutRecordPatch | src/background/index.ts:362-368 | a patch that only moves the active item leaves the records alone |
| CaptureStore.UpsertRecord | src/background/index.ts:364-382 | the merge starts from the base record and carries the computed id; a non-null merge becomes the latest record and is indexed under its id, no other entry changing |
| CaptureStore.UpsertKeepsSanity | src/background/index.ts:331-387 | an upsert keeps a sane state sane |
| CaptureStore.TrimCaptureItems | src/background/index.ts:260-266 | at most sixteen entries are kept, each unchanged, and no dropped entry is newer than a kept one |
| CaptureStore.TrimKeepsSmallMaps | src/background/index.ts:260-266 | at or under sixteen entries nothing is dropped |
| CaptureStore.NewestSurvives | src/background/index.ts:260-266 | a record newer than every other one survives the trim |
| CaptureStore.MergedRecordSurvives | src/background/index.ts:379-385 | the record an upsert has just merged survives the trim when every other record is older than now |
| CaptureStore.CapturedUrlOf | src/background/index.ts:389-434 | any link returned is a page link |
| CaptureStore.CapturedUrlPriority | src/background/index.ts:389-434 | the DOM item's record, then the active item's record, then the DOM link itself, then the latest record; nothing when all fail |
| CaptureStore.ValidDomLinkAnswers | src/background/index.ts:421-423 | a DOM link that is itself a page link always yields a link |
| CaptureStore.DomRecordIsTheLinkedItem | src/background/index.ts:394-398 | for a canonical page link in the DOM, the record looked up first is the one under that page's own id |
| CaptureStore.WebRequestPatch | src/background/index.ts:436-455 | a patch exactly for a play or media request in a tab, carrying the raw link in the matching fields and the id found in it |
| CaptureStore.RedirectPatch | src/background/index.ts:457-476 | a patch exactly for a play link or a redirect to a media link in a tab, with the normalised links and the id of the play link, else of the target |
| CaptureStore.SyncPatch | src/background/index.ts:748-757 | the validated id becomes the active item and, when valid, the record's id; a valid page link becomes the record's page |
| CaptureStore.Loaded | src/background/index.ts:275-291 | the stored state when it sanitises, else an empty state stamped now |
| CaptureStore.MergePatch | src/background/index.ts:342-382 | the state before trimming is the upserted state |
| CaptureStore.UpsertState | src/background/index.ts:331-387 | the written state is the merged state cut down to the newest sixteen records, and it is sane |
| CaptureStore.Store.GetState | src/background/index.ts:268-292 | the cached state, else the loaded one, which is then cached; storage unchanged |
| CaptureStore.Store.SetState | src/background/index.ts:294-305 | the cache always holds the new state; storage does unless the write fails |
| CaptureStore.Store.Upsert | src/background/index.ts:331-387 | the tab's new state is the upsert of its current state, cached and stored |
| CaptureStore.Store.ResolveCapturedUrl | src/background/index.ts:389-434 | the answer is the captured-link lookup over the tab's current state |
| CaptureStore.Store.PickCapturedUrl | src/background/index.ts:395-434 | the early-return lookups over a given state answer exactly the captured-link lookup |
| CaptureStore.Store.RemoveTab | src/background/index.ts:654-658 | the tab leaves the cache and storage; other tabs are untouched |
| TikTokContent.NamedLooseIff | src/content/tiktok.ts:155 | the loose handle pattern matches exactly the paths starting `/@handle/kind/digits` with no digit after |
| TikTokContent.GenericIsFirstMatch | src/content/tiktok.ts:164 | the bare pattern takes the first place the media pattern occurs in the path |
| TikTokContent.NormalizeMediaLink | src/content/tiktok.ts:142-173 | Some exactly for a link that parses on a host containing `tiktok.com` whose path matches; then the canonical TikTok link of the match |
| TikTokContent.NormalizeMediaLinkIdempotent | src/content/tiktok.ts:142-173 | normalising a normalised link gives it back, when the parser reads the canonical link as written |
| TikTokContent.LooseHostAdmitsLookalike | src/content/tiktok.ts:151 | `eviltiktok.com` passes the content script's host test but not the library's |
| TikTokContent.LooseMediaOfCanonical | src/content/tiktok.ts:155-172 | a canonical media path matches as itself, any digit count accepted |
| TikTokContent.ExtractMediaItemId | src/content/tiktok.ts:175-182 | null for null or ''; otherwise the digits after the first `/video/` or `/photo/` when there are at least 15, at most 22 of them |
| TikTokContent.ExtractIdOfCanonicalLink | src/content/tiktok.ts:175-182 | the id reported for a normalised link is the link's own id |
| TikTokContent.NullIfEmpty | src/content/tiktok.ts:212 | `url \|\| null`: the empty string becomes null (with line 220 of the same file) |
| TikTokContent.SyncThrottle.Sync | src/content/tiktok.ts:205-236 | a report goes out exactly when the item or link changed or the heartbeat elapsed; a report is remembered with its time, a skip changes nothing |
| TikTokContent.SyncRepeats | src/content/tiktok.ts:212-217 | the same link is not reported again before 5000 ms, and is after (with line 23 of the same file) |
| TikTokContent.CapturedUrl | src/content/tiktok.ts:184-203 | used only when `ok` is true and `url` is a string that is not blank; normalised against the page, else the raw link |
| TikTokContent.ClickTarget | src/content/tiktok.ts:687-697 | no link exactly when the three sources are all falsy; otherwise a non-empty link |
| TikTokContent.ClickPriority | src/content/tiktok.ts:691 | the runtime link, then the button's target, then the captured link |
| TikTokContent.FloatingDecision | src/content/tiktok.ts:790-793 | the floating button is removed exactly off the home feed when an inline button was placed (with lines 813-823 of the same file) |
| TikTokContent.PlacementsIff | src/content/tiktok.ts:800-811 | a column gets an inline button exactly when it has a link, carrying that link |
| TikTokContent.ScanTargets | src/content/tiktok.ts:795-824 | the buttons placed are the placements of the columns' links, and the floating decision follows from them |
| TikTokContent.ScanRemovesFloatingIff | src/content/tiktok.ts:795-824 | the floating button goes exactly off the home feed when some column has a link |
| YoutubeContent.NormalizeWatchLink | src/content/youtube.ts:142-183 | the link is parsed as it is with no base, on a YouTube host; a youtu.be id is interpolated into the watch link |
| YoutubeContent.AgreesWithLibrary | src/content/youtube.ts:142-183 | off youtu.be, for a link without surrounding blanks, the content normaliser agrees with the library |
| YoutubeContent.ShortLinkMatchesLibraryIff | src/content/youtube.ts:153-156 | for youtu.be the two normalisers agree exactly when the query serializer writes the id as it is |
| YoutubeContent.InterpolatedIffEncoded | src/content/youtube.ts:153-156 | the interpolated link is the library's exactly when `v=` and the id is what the serializer writes |
| YoutubeContent.Clamp | src/content/youtube.ts:431-433 | the result lies in the range when the range is not empty, is the value inside it, and the nearer bound outside it |
| YoutubeContent.ClampIdempotent | src/content/youtube.ts:431-433 | clamping twice into the same range is clamping once |
| YoutubeContent.ScanButtons | src/content/youtube.ts:604-643 | nothing in full screen or without a link; else the shorts button for a link containing `/shorts/`, the inline watch button only with a container, each carrying the link |
| YoutubeContent.AtMostOneButton | src/content/youtube.ts:604-643 | a scan never leaves both buttons |
| YoutubeContent.ShortLinkWithShortsSegment | src/content/youtube.ts:153-156 | a youtu.be id holding `/shorts/` gives a watch link that selects the shorts button (with line 623 of the same file) |
| TwitterContent.NormalizeStatusLink | src/content/twitter.ts:261-289 | the library's X rule applied to the link parsed as it is, with no trimming |
| TwitterContent.AgreesWithLibrary | src/content/twitter.ts:261-289 | for a link without surrounding blanks the content normaliser agrees with the library |
| TwitterContent.TweetStatusLinkIsFirst | src/content/twitter.ts:363-376 | a tweet's link is that of its first status anchor that normalises, else the page's |
| TwitterContent.ResolveTweetStatusLink | src/content/twitter.ts:363-376 | the anchor loop returns the tweet's link |
| TwitterContent.StatusPageGivesEveryTweetALink | src/content/twitter.ts:363-376 | on a status page every tweet has a link |
| TwitterContent.ReadyIff | src/content/twitter.ts:175-182 | ready exactly when the answer is an object whose `ok` and `hasSettings` are true (with line 210 of the same file) |
| TwitterContent.IsAuthStateResponse | src/content/twitter.ts:175-182 | only an object holding both `ok` and `hasSettings` passes; an array never does, since its properties read as undefined |
| TwitterContent.AuthCache.HasExtensionAuth | src/content/twitter.ts:184-227 | the cached answer while under 1500 ms old; else false without a runtime; else the background's answer; each fresh answer cached with its time |
| TwitterContent.ToastLevelOf | src/content/twitter.ts:250-251 | `success` and `info` are kept; anything else is an error |
| TwitterContent.ToastFor | src/content/twitter.ts:241-252 | a toast exactly for the toast type with a string message that is not blank, shown as it came |
| TwitterContent.ToastLevelIrrelevantToShowing | src/content/twitter.ts:241-252 | the level never decides whether a toast is shown, nor its text |
| TwitterContent.InlineButtonsIff | src/content/twitter.ts:474-511 | a tweet gets an inline button exactly when it has an action bar and a link, carrying that link (with lines 548-555 of the same file) |
| TwitterContent.ScanTweets | src/content/twitter.ts:539-570 | nothing when not ready; else the inline buttons, and the floating button only when none was placed and some link exists |
| TwitterContent.FloatingExcludesInline | src/content/twitter.ts:539-570 | the floating and inline buttons never coexist |
| TwitterContent.FirstStatusLinkOnStatusPage | src/content/twitter.ts:539-570 | on a status page the first link of a scan is the page's |
| Options.ParseJsonBody | src/options/options.ts:60-72 | null for a blank body; otherwise the parse of the trimmed text, null on failure |
| Options.ParseJsonBodyIgnoresBlanks | src/options/options.ts:60-72 | surrounding blanks never change the parsed body |
| Options.ApiUrlFromInputs | src/options/options.ts:94-100 | the trimmed preferred field, else the trimmed other field, else '' |
| Options.ApiUrlFromInputsSymmetric | src/options/options.ts:94-100 | preferring one field is preferring the other with the values swapped |
| Options.PairingCode | src/options/options.ts:219 | Some exactly for a code that is not blank, and then it is trimmed and upper-cased |
| Options.PairingStart | src/options/options.ts:148-156 | a blank code fails first, then a missing or invalid API URL; the endpoint is the API URL followed by `/ingest/pair/consume` (with lines 219-228 of the same file) |
| Options.PairingStartsIff | src/options/options.ts:211-228 | the request goes out exactly when the code is not blank and an entered API URL normalises |
| Options.PairedSettingsFields | src/options/options.ts:261-267 | what pairing saves: the answer's API URL or the entered one, normalised; the answer's token and guild; its author name or the default; its image or none |
| Options.PairingNeedsToken | src/options/options.ts:261-272 | an answer without a token is never saved |
| Options.RemoteErrorOf | src/options/options.ts:182 | a non-blank string `error` wins and is given trimmed; only without one does a non-blank string `message` give its trim; nothing exactly when neither is a non-blank string |
| Options.PairingFailureOf | src/options/options.ts:176-209 | an expired code, any other 404, 403, 401, a 400 for an invalid payload, the answer's own explanation, in that order; both directions for each case |
| Options.PairingFailureMessage | src/options/options.ts:176-209 | the 404, 403, 401 and unexplained messages name the endpoint, and the answer's own explanation ends its message |
| Options.FixedStatusesIgnoreRemoteError | src/options/options.ts:176-209 | for 401 and 403 the answer's explanation is ignored |
| Options.ConfigVerdictOf | src/options/options.ts:363-378 | a 400 for an invalid payload is valid; then 401 or `unauthorized`; then 503 or `ingest_api_disabled`; anything else is unexpected, with its status |
| Options.VerdictVariant | src/options/options.ts:363-378 | success exactly for a valid configuration, error exactly for a rejected token, warning otherwise |
| Options.OnlyA400Succeeds | src/options/options.ts:363-378 | only a 400 can succeed, and a 401 is always an error |

## Left out

- WHATWG URL parsing, `URLSearchParams` encoding and `JSON.parse` are foreign library behaviour. They are the opaque parameters of `Url.Codec` and the `parse` arguments. Facts about them are lemma hypotheses.
- `mapHttpFailure` and `mapNetworkFailure` (`./errors`) are not part of this model. They are the parameters of `Ingest.ErrorMapping`. The only assumption made about them is that 401 maps to `UNAUTHORIZED`, and it appears only as a hypothesis of `Ingest.UnauthorizedOn401`.
- `chrome.*` calls are modelled as state, and their results become parameters:
  - storage: local settings, the draft slot, and per-tab session storage (a map keyed by tab);
  - permissions: a set of origin patterns;
  - tabs and runtime messaging: the answer is a parameter, and a failed call is `None` or a boolean.
  - contextMenus and webRequest registration are not modelled.
- `fetch`, `AbortController` and `setTimeout` are replaced as follows:
  - the response, or the thrown error, is a parameter;
  - the timer is `Ingest.Timer`;
  - `Date.now()` is a parameter `now`.
- DOM scanning, geometric scoring of anchors and containers, CSS, button construction and toast nodes are left out. Only the decisions taken over their results are modelled:
  - which columns, tweets and containers have a link;
  - whether the page is in full screen.
- The in-flight promise sharing in `hasExtensionAuth` (`src/content/twitter.ts:191-193,204-224`) is async coordination. `TwitterContent.AuthCache.HasExtensionAuth` models one call at a time.
- `isGetAuthStateRequest` and the `saveToBoard` fields are used by `src/background/index.ts` but defined elsewhere. They are not part of this model.
- The submit and click handlers of the options page are left out. They are imperative sequences over DOM fields. Their decisions are modelled as `Options.PairingStart`, `Options.PairedSettings`, `Options.PairingFailureOf` and `Options.ConfigVerdictOf`.
- Numbers are `real` and `int`. `NaN` and the infinities are one `NonFinite` value, and floating-point rounding is not modelled.
- Case mapping is ASCII only. Host names are ASCII once parsed, and the `i` flag without `u` never folds non-ASCII characters onto ASCII ones. `Options.PairingCode` upper-cases with the same ASCII mapping, whereas `toUpperCase` in `src/options/options.ts` maps every Unicode letter (`é` becomes `É`): a pairing code holding a non-ASCII letter is sent unchanged by the model.
- Strings are sequences of Unicode scalar values, not UTF-16 code units. `Ingest.SentMessage` shows the first eight characters of the job id, whereas `slice(0, 8)` takes eight code units; the two differ only when the first eight characters of a job id include one outside the Basic Multilingual Plane.
- Concurrent capture upserts are not modelled. `upsertTikTokCapture` (`src/background/index.ts:331-387`) is an unlocked asynchronous read-modify-write: two upserts for one tab that overlap both read the same state and the later write wins, losing the earlier patch. `CaptureStore.Store.Upsert` runs one call at a time.
- CaptureStore.TrimCaptureItems: ties on `ts` are broken either way. The source's stable sort over insertion order (`src/background/index.ts:260-267`) keeps the earlier-inserted of two records with equal `ts`; maps in the model carry no insertion order, so `TrimmedFrom` admits either.
- CaptureStore.SanitizedState: a stored `byItemId` that is an array is read as holding no entries. In the source, `Object.entries` over an array yields its elements under the keys `"0"`, `"1"`, …, which would be sanitised like an object's entries.
- One clock reading per operation. The source reads `Date.now()` separately for `updatedAt` (`src/background/index.ts:347`), for the merged record's `ts` (`src/background/index.ts:321`) and for each fallback time stamp while sanitising; the model uses a single `now` for all of them, so it cannot tell those readings apart.
- Normalize.ResolveIdempotent: proved only for links the parser reads back as written (`RoundTrips`), and for YouTube links only under `QueryCodecInverse`, because the parser is opaque.
- Normalize.ApiUrlIdempotent: proved only when the parser reads the normalised API URL back as written, for the same reason.
- TikTokContent.NormalizeMediaLinkIdempotent: proved only when the parser reads the canonical TikTok link back as written, for the same reason.
- Settings.NormalizeSettingsInput: its own ensures states only the set of failure messages; the order and the success fields are stated by `Settings.ValidationOrder` and `Settings.ValidatedFields`.
- CaptureStore.CapturedUrlOf: its own ensures states only that the result is a page link; the order of the sources is stated by `CaptureStore.CapturedUrlPriority`.
