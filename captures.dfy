/**
 * The per-tab TikTok capture store of the background worker
 * (`src/background/index.ts`): capture records and their merge patches,
 * the sanitising of what session storage hands back, the bound of sixteen
 * records per tab, the in-memory cache in front of session storage, and
 * the choice of the link to send for a tab.
 *
 * The clock is a parameter (`now`), each storage call's failure is a
 * parameter, and session storage is a map from tab to stored value.
 */
module CaptureStore {
  import opened Wrappers
  import opened Json
  import opened Url
  import opened Normalize
  import opened Capture

  // ---------------------------------------------------------------------
  // The validators the store applies
  // ---------------------------------------------------------------------

  /**
   * The validators the store runs its fields through, with the codec they
   * parse with. The store is written against this record so that its
   * proofs need only what `SoundValidators` says of them; `ValidatorsOf`
   * is the set the background worker uses.
   */
  datatype Validators = Validators(
    codec: Codec,
    itemId: Value -> Option<string>,
    pageUrl: Value -> Option<string>,
    mediaUrl: Value -> Option<string>,
    playUrl: Value -> Option<string>,
    extractId: Value -> Option<string>)

  /** `normalizeTikTokItemId`, the page, media and play link validators, and `extractTikTokItemIdFromUrl`. */
  function ValidatorsOf(c: Codec): (vs: Validators)
    ensures vs.codec == c
    ensures forall v :: vs.itemId(v) == NormalizeItemId(v) && vs.pageUrl(v) == NormalizePageUrl(c, v)
    ensures forall v :: vs.mediaUrl(v) == NormalizeMediaUrl(c, v) && vs.playUrl(v) == NormalizePlayUrl(c, v)
    ensures forall v :: vs.extractId(v) == ExtractItemIdFromUrl(c, v)
  {
    Validators(
      c,
      NormalizeItemId,
      v => NormalizePageUrl(c, v),
      v => NormalizeMediaUrl(c, v),
      v => NormalizePlayUrl(c, v),
      v => ExtractItemIdFromUrl(c, v))
  }

  /** What each validator guarantees of the strings it lets through. */
  ghost predicate SoundValidators(vs: Validators)
  {
    (forall v :: vs.itemId(v).Some? ==> IsTikTokId(vs.itemId(v).value))
    && (forall v :: vs.pageUrl(v).Some? ==> IsPageUrl(vs.codec, vs.pageUrl(v).value))
    && (forall v :: vs.mediaUrl(v).Some? ==> IsMediaUrl(vs.mediaUrl(v).value))
    && (forall v :: vs.playUrl(v).Some? ==> IsPlayUrl(vs.playUrl(v).value))
    && (forall v :: vs.extractId(v).Some? ==> IsTikTokId(vs.extractId(v).value))
  }

  /** The background worker's validators keep their promises. */
  lemma ValidatorsOfSound(c: Codec)
    ensures SoundValidators(ValidatorsOf(c))
  {
    var vs := ValidatorsOf(c);
    forall v
      ensures vs.pageUrl(v).Some? ==> IsPageUrl(c, vs.pageUrl(v).value)
    {
      assert vs.pageUrl(v) == NormalizePageUrl(c, v);
    }
  }

  // ---------------------------------------------------------------------
  // Records
  // ---------------------------------------------------------------------

  /** `TikTokCaptureRecord`: what was seen of one item, stamped with the time it was last touched. */
  datatype CaptureRecord = CaptureRecord(
    itemId: Option<string>,
    pageUrl: Option<string>,
    mediaUrl: Option<string>,
    playUrl: Option<string>,
    ts: real)

  /** `TikTokCaptureState`: one tab's records. */
  datatype CaptureState = CaptureState(
    activeItemId: Option<string>,
    latest: Option<CaptureRecord>,
    byItemId: map<string, CaptureRecord>,
    updatedAt: real)

  /** `createEmptyTikTokCaptureState`. */
  function EmptyState(now: real): CaptureState
  {
    CaptureState(None, None, map[], now)
  }

  /** Every field that is set passed its validator, and at least one is set. */
  ghost predicate SaneRecord(vs: Validators, r: CaptureRecord)
  {
    (r.itemId.Some? ==> IsTikTokId(r.itemId.value))
    && (r.pageUrl.Some? ==> IsPageUrl(vs.codec, r.pageUrl.value))
    && (r.mediaUrl.Some? ==> IsMediaUrl(r.mediaUrl.value))
    && (r.playUrl.Some? ==> IsPlayUrl(r.playUrl.value))
    && (r.itemId.Some? || r.pageUrl.Some? || r.mediaUrl.Some? || r.playUrl.Some?)
  }

  /** The latest record and every indexed record are sane, and every indexed record has an id. */
  ghost predicate SaneState(vs: Validators, s: CaptureState)
  {
    (s.latest.Some? ==> SaneRecord(vs, s.latest.value))
    && forall k :: k in s.byItemId ==> SaneRecord(vs, s.byItemId[k]) && s.byItemId[k].itemId.Some?
  }

  // ---------------------------------------------------------------------
  // Sanitising what storage returns
  // ---------------------------------------------------------------------

  /** A finite number, else the clock: the rule for `ts` and `updatedAt`. */
  function TimeOr(v: Value, now: real): (t: real)
    ensures v.Num? ==> t == v.n
    ensures !v.Num? ==> t == now
  {
    if v.Num? then v.n else now
  }

  /**
   * `sanitizeTikTokCaptureRecord`: each field through its validator; no
   * record at all when the value is not an object or when no field passes.
   */
  function SanitizeRecord(vs: Validators, v: Value, now: real): (r: Option<CaptureRecord>)
    ensures r.None? <==>
      !IsRecord(v)
      || (vs.itemId(Get(v, "itemId")).None? && vs.pageUrl(Get(v, "pageUrl")).None?
          && vs.mediaUrl(Get(v, "mediaUrl")).None? && vs.playUrl(Get(v, "playUrl")).None?)
    ensures SoundValidators(vs) && r.Some? ==> SaneRecord(vs, r.value)
    ensures r.Some? ==>
      r.value.itemId == vs.itemId(Get(v, "itemId"))
      && r.value.pageUrl == vs.pageUrl(Get(v, "pageUrl"))
      && r.value.mediaUrl == vs.mediaUrl(Get(v, "mediaUrl"))
      && r.value.playUrl == vs.playUrl(Get(v, "playUrl"))
      && r.value.ts == TimeOr(Get(v, "ts"), now)
  {
    RecordsAreTruthy(v);
    if !Truthy(v) || !IsRecord(v) then None
    else
      var itemId := vs.itemId(Get(v, "itemId"));
      var pageUrl := vs.pageUrl(Get(v, "pageUrl"));
      var mediaUrl := vs.mediaUrl(Get(v, "mediaUrl"));
      var playUrl := vs.playUrl(Get(v, "playUrl"));
      if itemId.None? && pageUrl.None? && mediaUrl.None? && playUrl.None? then None
      else Some(CaptureRecord(itemId, pageUrl, mediaUrl, playUrl, TimeOr(Get(v, "ts"), now)))
  }

  /** The stored `byItemId` object's entries; anything that is not an object gives none. */
  function RawEntries(v: Value): map<string, Value>
  {
    var raw := Get(v, "byItemId");
    if Truthy(raw) && raw.Obj? then raw.fields else map[]
  }

  /** An entry survives when it sanitises to a record with an id. */
  predicate KeepsEntry(vs: Validators, v: Value, now: real)
  {
    SanitizeRecord(vs, v, now).Some? && SanitizeRecord(vs, v, now).value.itemId.Some?
  }

  /** The entries the sanitised state keeps, under their stored keys. */
  function SanitizedEntries(vs: Validators, raw: map<string, Value>, now: real): (m: map<string, CaptureRecord>)
    ensures forall k :: k in m ==> k in raw && KeepsEntry(vs, raw[k], now) && m[k] == SanitizeRecord(vs, raw[k], now).value
    ensures forall k :: k in raw && KeepsEntry(vs, raw[k], now) ==> k in m
  {
    map k | k in raw && KeepsEntry(vs, raw[k], now) :: SanitizeRecord(vs, raw[k], now).value
  }

  /** `sanitizeTikTokCaptureState`, as a value: what a well-formed stored state reads back as. */
  function SanitizedState(vs: Validators, v: Value, now: real): (r: Option<CaptureState>)
    ensures r.Some? <==> IsRecord(v)
    ensures SoundValidators(vs) && r.Some? ==> SaneState(vs, r.value)
    ensures r.Some? ==>
      r.value.activeItemId == vs.itemId(Get(v, "activeItemId"))
      && r.value.latest == SanitizeRecord(vs, Get(v, "latest"), now)
      && r.value.updatedAt == TimeOr(Get(v, "updatedAt"), now)
    ensures r.Some? ==> r.value.byItemId == SanitizedEntries(vs, RawEntries(v), now)
  {
    RecordsAreTruthy(v);
    if !Truthy(v) || !IsRecord(v) then None
    else
      Some(CaptureState(
        vs.itemId(Get(v, "activeItemId")),
        SanitizeRecord(vs, Get(v, "latest"), now),
        SanitizedEntries(vs, RawEntries(v), now),
        TimeOr(Get(v, "updatedAt"), now)))
  }

  /** `sanitizeTikTokCaptureState`: the entry loop, dropping entries without a valid id. */
  method SanitizeState(vs: Validators, v: Value, now: real) returns (r: Option<CaptureState>)
    ensures r == SanitizedState(vs, v, now)
  {
    RecordsAreTruthy(v);
    if !Truthy(v) || !IsRecord(v) {
      return None;
    }
    var raw := RawEntries(v);
    var byItemId: map<string, CaptureRecord> := map[];
    var todo := raw.Keys;
    while todo != {}
      invariant todo <= raw.Keys
      invariant forall k :: k in byItemId <==> k in raw && k !in todo && KeepsEntry(vs, raw[k], now)
      invariant forall k :: k in byItemId ==> byItemId[k] == SanitizeRecord(vs, raw[k], now).value
      decreases |todo|
    {
      var key :| key in todo;
      todo := todo - {key};
      var entry := SanitizeRecord(vs, raw[key], now);
      if entry.None? || entry.value.itemId.None? {
        continue;
      }
      byItemId := byItemId[key := entry.value];
    }
    assert byItemId == SanitizedEntries(vs, raw, now);
    r := Some(CaptureState(
      vs.itemId(Get(v, "activeItemId")),
      SanitizeRecord(vs, Get(v, "latest"), now),
      byItemId,
      TimeOr(Get(v, "updatedAt"), now)));
  }

  // ---------------------------------------------------------------------
  // What the store writes, and reading it back
  // ---------------------------------------------------------------------

  /** A string field as stored: the string, or `null`. */
  function OptValue(o: Option<string>): (v: Value)
    ensures o.Some? <==> v.Str?
    ensures o.Some? ==> v == Str(o.value)
    ensures o.None? ==> v == Null
  {
    if o.Some? then Str(o.value) else Null
  }

  /** A record as session storage keeps it. */
  function RecordValue(r: CaptureRecord): Value
  {
    Obj(map[
      "itemId" := OptValue(r.itemId),
      "pageUrl" := OptValue(r.pageUrl),
      "mediaUrl" := OptValue(r.mediaUrl),
      "playUrl" := OptValue(r.playUrl),
      "ts" := Num(r.ts)])
  }

  /** A tab's state as session storage keeps it. */
  function StateValue(s: CaptureState): Value
  {
    Obj(map[
      "activeItemId" := OptValue(s.activeItemId),
      "latest" := if s.latest.Some? then RecordValue(s.latest.value) else Null,
      "byItemId" := Obj(map k | k in s.byItemId :: RecordValue(s.byItemId[k])),
      "updatedAt" := Num(s.updatedAt)])
  }

  lemma RecordValueFields(r: CaptureRecord)
    ensures IsRecord(RecordValue(r))
    ensures Get(RecordValue(r), "itemId") == OptValue(r.itemId)
    ensures Get(RecordValue(r), "pageUrl") == OptValue(r.pageUrl)
    ensures Get(RecordValue(r), "mediaUrl") == OptValue(r.mediaUrl)
    ensures Get(RecordValue(r), "playUrl") == OptValue(r.playUrl)
    ensures Get(RecordValue(r), "ts") == Num(r.ts)
  {
  }

  lemma StateValueFields(s: CaptureState)
    ensures IsRecord(StateValue(s))
    ensures Get(StateValue(s), "activeItemId") == OptValue(s.activeItemId)
    ensures Get(StateValue(s), "latest") == if s.latest.Some? then RecordValue(s.latest.value) else Null
    ensures RawEntries(StateValue(s)) == map k | k in s.byItemId :: RecordValue(s.byItemId[k])
    ensures Get(StateValue(s), "updatedAt") == Num(s.updatedAt)
  {
  }

  /** A record every validator hands back unchanged, with at least one field set. */
  predicate FixedRecord(vs: Validators, r: CaptureRecord)
  {
    vs.itemId(OptValue(r.itemId)) == r.itemId
    && vs.pageUrl(OptValue(r.pageUrl)) == r.pageUrl
    && vs.mediaUrl(OptValue(r.mediaUrl)) == r.mediaUrl
    && vs.playUrl(OptValue(r.playUrl)) == r.playUrl
    && (r.itemId.Some? || r.pageUrl.Some? || r.mediaUrl.Some? || r.playUrl.Some?)
  }

  /** A state made of fixed records, whose indexed records have ids and whose active id is valid. */
  predicate FixedState(vs: Validators, s: CaptureState)
  {
    vs.itemId(OptValue(s.activeItemId)) == s.activeItemId
    && (s.latest.Some? ==> FixedRecord(vs, s.latest.value))
    && forall k :: k in s.byItemId ==> FixedRecord(vs, s.byItemId[k]) && s.byItemId[k].itemId.Some?
  }

  /** A stored record reads back as itself, its time stamp included. */
  lemma RecordRoundTrip(vs: Validators, r: CaptureRecord, now: real)
    requires FixedRecord(vs, r)
    ensures SanitizeRecord(vs, RecordValue(r), now) == Some(r)
  {
    RecordValueFields(r);
  }

  /** Stored index entries read back as themselves. */
  lemma {:induction false} EntriesRoundTrip(vs: Validators, entries: map<string, CaptureRecord>, now: real)
    requires forall k :: k in entries ==> FixedRecord(vs, entries[k]) && entries[k].itemId.Some?
    ensures SanitizedEntries(vs, map k | k in entries :: RecordValue(entries[k]), now) == entries
  {
    var raw := map k | k in entries :: RecordValue(entries[k]);
    forall k | k in raw
      ensures SanitizeRecord(vs, raw[k], now) == Some(entries[k])
    {
      RecordRoundTrip(vs, entries[k], now);
    }
    SanitizedEntriesOf(vs, raw, entries, now);
  }

  /** Entries that each sanitise to a record with an id are kept as those records. */
  lemma SanitizedEntriesOf(vs: Validators, raw: map<string, Value>, entries: map<string, CaptureRecord>, now: real)
    requires raw.Keys == entries.Keys
    requires forall k :: k in raw ==> SanitizeRecord(vs, raw[k], now) == Some(entries[k]) && entries[k].itemId.Some?
    ensures SanitizedEntries(vs, raw, now) == entries
  {
    var m := SanitizedEntries(vs, raw, now);
    assert m.Keys == entries.Keys;
  }

  /**
   * What the store writes for a tab reads back as the same state once the
   * in-memory cache is gone (the worker restarted), whatever the clock says.
   */
  lemma {:induction false} StateRoundTrip(vs: Validators, s: CaptureState, now: real)
    requires FixedState(vs, s)
    ensures SanitizedState(vs, StateValue(s), now) == Some(s)
  {
    StateValueFields(s);
    EntriesRoundTrip(vs, s.byItemId, now);
    if s.latest.Some? {
      RecordRoundTrip(vs, s.latest.value, now);
    }
  }

  // ---------------------------------------------------------------------
  // Merge patches
  // ---------------------------------------------------------------------

  /** A patch field: `undefined` is `Absent`; `null` is `Given(None)`. */
  datatype Field<T> = Absent | Given(value: T)

  /** The patch `mergeTikTokCaptureRecord` takes. */
  datatype RecordPatch = RecordPatch(
    itemId: Field<Option<string>>,
    pageUrl: Field<Option<string>>,
    mediaUrl: Field<Option<string>>,
    playUrl: Field<Option<string>>)

  /** The patch `upsertTikTokCapture` takes: raw strings, plus the active item. */
  datatype CapturePatch = CapturePatch(
    itemId: Field<Option<string>>,
    pageUrl: Field<Option<string>>,
    mediaUrl: Field<Option<string>>,
    playUrl: Field<Option<string>>,
    activeItemId: Field<Option<string>>)

  /** `x || null`. */
  function OrNull(o: Option<string>): (r: Option<string>)
    ensures Falsy(o) ==> r.None?
    ensures !Falsy(o) ==> r == o
  {
    if Falsy(o) then None else o
  }

  /** `patch.f !== undefined ? patch.f : base?.f || null`. */
  function MergeField(patch: Field<Option<string>>, base: Option<string>): (r: Option<string>)
    ensures patch.Given? ==> r == patch.value
    ensures patch.Absent? ==> r == OrNull(base)
  {
    if patch.Given? then patch.value else OrNull(base)
  }

  /** The record that stands in for a missing base: `base?.f` is `undefined`. */
  const NoRecord := CaptureRecord(None, None, None, None, 0.0)

  /**
   * `mergeTikTokCaptureRecord`: each given field overrides, each absent one
   * keeps the base's; the time is now; nothing at all when every field ends
   * up falsy.
   */
  function Merge(base: Option<CaptureRecord>, patch: RecordPatch, now: real): (r: Option<CaptureRecord>)
    ensures r.Some? ==> r.value.ts == now
  {
    var b := base.UnwrapOr(NoRecord);
    var merged := CaptureRecord(
      MergeField(patch.itemId, b.itemId),
      MergeField(patch.pageUrl, b.pageUrl),
      MergeField(patch.mediaUrl, b.mediaUrl),
      MergeField(patch.playUrl, b.playUrl),
      now);
    if Falsy(merged.itemId) && Falsy(merged.pageUrl) && Falsy(merged.mediaUrl) && Falsy(merged.playUrl) then None
    else Some(merged)
  }

  /** The patch that touches no field. */
  const EmptyRecordPatch: RecordPatch := RecordPatch(Absent, Absent, Absent, Absent)

  /** No string field holds `''`. */
  predicate NoBlankField(r: CaptureRecord)
  {
    !(r.itemId == Some("")) && !(r.pageUrl == Some("")) && !(r.mediaUrl == Some("")) && !(r.playUrl == Some(""))
  }

  /** A patch that touches nothing only re-stamps a record whose fields are not blank; no base gives nothing. */
  lemma MergeEmptyPatch(base: Option<CaptureRecord>, now: real)
    requires base.Some? ==> NoBlankField(base.value)
    ensures base.None? ==> Merge(base, EmptyRecordPatch, now).None?
    ensures base.Some? && (base.value.itemId.Some? || base.value.pageUrl.Some?
                           || base.value.mediaUrl.Some? || base.value.playUrl.Some?)
      ==> Merge(base, EmptyRecordPatch, now) == Some(base.value.(ts := now))
  {
  }

  /** A patch that gives every field decides the record alone: the base is ignored. */
  lemma MergeFullPatch(base: Option<CaptureRecord>, patch: RecordPatch, now: real)
    requires patch.itemId.Given? && patch.pageUrl.Given? && patch.mediaUrl.Given? && patch.playUrl.Given?
    ensures Merge(base, patch, now) == Merge(None, patch, now)
    ensures Merge(base, patch, now).Some? ==>
      Merge(base, patch, now).value
      == CaptureRecord(patch.itemId.value, patch.pageUrl.value, patch.mediaUrl.value, patch.playUrl.value, now)
  {
  }

  /** A merged record is stamped now, and each field is the patch's when given and the base's otherwise. */
  lemma MergeFields(base: Option<CaptureRecord>, patch: RecordPatch, now: real)
    requires base.Some? ==> NoBlankField(base.value)
    ensures Merge(base, patch, now).Some? ==>
      var m := Merge(base, patch, now).value;
      m.itemId == (if patch.itemId.Given? then patch.itemId.value else if base.Some? then base.value.itemId else None)
      && m.pageUrl == (if patch.pageUrl.Given? then patch.pageUrl.value else if base.Some? then base.value.pageUrl else None)
      && m.mediaUrl == (if patch.mediaUrl.Given? then patch.mediaUrl.value else if base.Some? then base.value.mediaUrl else None)
      && m.playUrl == (if patch.playUrl.Given? then patch.playUrl.value else if base.Some? then base.value.playUrl else None)
    ensures Merge(base, patch, now).None? <==>
      Falsy(MergeField(patch.itemId, base.UnwrapOr(NoRecord).itemId))
      && Falsy(MergeField(patch.pageUrl, base.UnwrapOr(NoRecord).pageUrl))
      && Falsy(MergeField(patch.mediaUrl, base.UnwrapOr(NoRecord).mediaUrl))
      && Falsy(MergeField(patch.playUrl, base.UnwrapOr(NoRecord).playUrl))
  {
  }

  /** Every given field of a patch passed its validator. */
  ghost predicate SanePatch(vs: Validators, p: RecordPatch)
  {
    (p.itemId.Given? && p.itemId.value.Some? ==> IsTikTokId(p.itemId.value.value))
    && (p.pageUrl.Given? && p.pageUrl.value.Some? ==> IsPageUrl(vs.codec, p.pageUrl.value.value))
    && (p.mediaUrl.Given? && p.mediaUrl.value.Some? ==> IsMediaUrl(p.mediaUrl.value.value))
    && (p.playUrl.Given? && p.playUrl.value.Some? ==> IsPlayUrl(p.playUrl.value.value))
  }

  /** Merging validated fields into a sane record gives a sane record. */
  lemma MergeKeepsSanity(vs: Validators, base: Option<CaptureRecord>, patch: RecordPatch, now: real)
    requires base.Some? ==> SaneRecord(vs, base.value)
    requires SanePatch(vs, patch)
    ensures Merge(base, patch, now).Some? ==> SaneRecord(vs, Merge(base, patch, now).value)
  {
    if Merge(base, patch, now).Some? {
      var b := base.UnwrapOr(NoRecord);
      MergeFieldSource(patch.itemId, b.itemId);
      MergeFieldSource(patch.pageUrl, b.pageUrl);
      MergeFieldSource(patch.mediaUrl, b.mediaUrl);
      MergeFieldSource(patch.playUrl, b.playUrl);
    }
  }

  /** A merged field that holds a string took it from the patch, or from the base when the patch left it alone. */
  lemma MergeFieldSource(f: Field<Option<string>>, b: Option<string>)
    ensures MergeField(f, b).Some? ==>
      (f.Given? && f.value == MergeField(f, b)) || (f.Absent? && b == MergeField(f, b))
  {
  }

  // ---------------------------------------------------------------------
  // Upsert
  // ---------------------------------------------------------------------

  /** A patch field as the validators see it: `undefined`, `null` or the string. */
  function FieldValue(f: Field<Option<string>>): (v: Value)
    ensures f.Absent? ==> v == Undefined
    ensures f.Given? ==> v == OptValue(f.value)
  {
    match f
    case Absent => Undefined
    case Given(o) => OptValue(o)
  }

  /** `normalizedItemId`: the patch's id, else the id in its page, play or media link, in that order. */
  function PatchItemId(vs: Validators, patch: CapturePatch): (r: Option<string>)
    ensures SoundValidators(vs) && r.Some? ==> IsTikTokId(r.value)
    ensures vs.itemId(FieldValue(patch.itemId)).Some? ==> r == vs.itemId(FieldValue(patch.itemId))
    ensures vs.itemId(FieldValue(patch.itemId)).None? && vs.extractId(FieldValue(patch.pageUrl)).Some?
      ==> r == vs.extractId(FieldValue(patch.pageUrl))
    ensures vs.itemId(FieldValue(patch.itemId)).None? && vs.extractId(FieldValue(patch.pageUrl)).None?
      && vs.extractId(FieldValue(patch.playUrl)).Some?
      ==> r == vs.extractId(FieldValue(patch.playUrl))
    ensures vs.itemId(FieldValue(patch.itemId)).None? && vs.extractId(FieldValue(patch.pageUrl)).None?
      && vs.extractId(FieldValue(patch.playUrl)).None?
      ==> r == vs.extractId(FieldValue(patch.mediaUrl))
  {
    vs.itemId(FieldValue(patch.itemId))
      .OrElse(vs.extractId(FieldValue(patch.pageUrl)))
      .OrElse(vs.extractId(FieldValue(patch.playUrl)))
      .OrElse(vs.extractId(FieldValue(patch.mediaUrl)))
  }

  /** A link field through its validator, when the patch gives it. */
  function Validated(f: Field<Option<string>>, validate: Value -> Option<string>): Field<Option<string>>
  {
    if f.Given? then Given(validate(FieldValue(f))) else Absent
  }

  /** The record patch the upsert merges: the computed id and the validated links. */
  function NormalizedPatch(vs: Validators, patch: CapturePatch): (r: RecordPatch)
    ensures SoundValidators(vs) ==> SanePatch(vs, r)
    ensures r.itemId == Given(PatchItemId(vs, patch))
    ensures r.pageUrl.Given? <==> patch.pageUrl.Given?
    ensures r.mediaUrl.Given? <==> patch.mediaUrl.Given?
    ensures r.playUrl.Given? <==> patch.playUrl.Given?
  {
    RecordPatch(
      Given(PatchItemId(vs, patch)),
      Validated(patch.pageUrl, vs.pageUrl),
      Validated(patch.mediaUrl, vs.mediaUrl),
      Validated(patch.playUrl, vs.playUrl))
  }

  /** `hasRecordPatch`. */
  predicate HasRecordPatch(p: CapturePatch)
  {
    p.itemId.Given? || p.pageUrl.Given? || p.mediaUrl.Given? || p.playUrl.Given?
  }

  /** The base of the merge: the record indexed under the id, else the latest record. */
  function BaseRecord(s: CaptureState, id: Option<string>): (r: Option<CaptureRecord>)
    ensures id.Some? && id.value in s.byItemId ==> r == Some(s.byItemId[id.value])
    ensures !(id.Some? && id.value in s.byItemId) ==> r == s.latest
  {
    if id.Some? && id.value in s.byItemId then Some(s.byItemId[id.value]) else s.latest
  }

  /** The merged record an upsert produces, when the patch touches a record. */
  function UpsertMerge(vs: Validators, s: CaptureState, patch: CapturePatch, now: real): Option<CaptureRecord>
  {
    if HasRecordPatch(patch) then
      Merge(BaseRecord(s, PatchItemId(vs, patch)), NormalizedPatch(vs, patch), now)
    else None
  }

  /** The state `upsertTikTokCapture` builds, before the records are cut down to sixteen. */
  function Upserted(vs: Validators, s: CaptureState, patch: CapturePatch, now: real): CaptureState
  {
    var active := if patch.activeItemId.Given? then patch.activeItemId.value else s.activeItemId;
    match UpsertMerge(vs, s, patch, now)
    case None => CaptureState(active, s.latest, s.byItemId, now)
    case Some(merged) =>
      CaptureState(
        active,
        Some(merged),
        if Falsy(merged.itemId) then s.byItemId else s.byItemId[merged.itemId.value := merged],
        now)
  }

  /** The active item changes only when the patch carries one, and the state is stamped now. */
  lemma UpsertActiveItem(vs: Validators, s: CaptureState, patch: CapturePatch, now: real)
    ensures patch.activeItemId.Given? ==> Upserted(vs, s, patch, now).activeItemId == patch.activeItemId.value
    ensures patch.activeItemId.Absent? ==> Upserted(vs, s, patch, now).activeItemId == s.activeItemId
    ensures Upserted(vs, s, patch, now).updatedAt == now
  {
  }

  /** A patch that only moves the active item leaves the records alone. */
  lemma UpsertWithoutRecordPatch(vs: Validators, s: CaptureState, patch: CapturePatch, now: real)
    requires !HasRecordPatch(patch)
    ensures Upserted(vs, s, patch, now).latest == s.latest
    ensures Upserted(vs, s, patch, now).byItemId == s.byItemId
  {
  }

  /**
   * With a record patch, the merge starts from the record indexed under the
   * computed id, else from the latest one; its id is always the computed
   * id; and when it is not empty it becomes the latest record and is
   * indexed under its id, no other index entry changing.
   */
  lemma {:induction false} UpsertRecord(vs: Validators, s: CaptureState, patch: CapturePatch, now: real)
    requires HasRecordPatch(patch)
    ensures UpsertMerge(vs, s, patch, now)
      == Merge(BaseRecord(s, PatchItemId(vs, patch)), NormalizedPatch(vs, patch), now)
    ensures UpsertMerge(vs, s, patch, now).Some? ==>
      var merged := UpsertMerge(vs, s, patch, now).value;
      var next := Upserted(vs, s, patch, now);
      merged.itemId == PatchItemId(vs, patch)
      && next.latest == Some(merged)
      && (!Falsy(merged.itemId) ==> merged.itemId.value in next.byItemId && next.byItemId[merged.itemId.value] == merged)
      && (forall k :: k in s.byItemId && Some(k) != merged.itemId ==> k in next.byItemId && next.byItemId[k] == s.byItemId[k])
    ensures UpsertMerge(vs, s, patch, now).None? ==>
      Upserted(vs, s, patch, now).latest == s.latest && Upserted(vs, s, patch, now).byItemId == s.byItemId
  {
    var merged := UpsertMerge(vs, s, patch, now);
    if merged.Some? {
      assert NormalizedPatch(vs, patch).itemId == Given(PatchItemId(vs, patch));
      assert merged.value.itemId == PatchItemId(vs, patch);
    }
  }

  /** An upsert keeps a sane state sane. */
  lemma UpsertKeepsSanity(vs: Validators, s: CaptureState, patch: CapturePatch, now: real)
    requires SoundValidators(vs) && SaneState(vs, s)
    ensures SaneState(vs, Upserted(vs, s, patch, now))
  {
    if HasRecordPatch(patch) {
      var base := BaseRecord(s, PatchItemId(vs, patch));
      MergeKeepsSanity(vs, base, NormalizedPatch(vs, patch), now);
    }
  }

  // ---------------------------------------------------------------------
  // The bound of sixteen records
  // ---------------------------------------------------------------------

  /**
   * `r` is `m` cut down to `max` entries, each kept unchanged, and no
   * dropped entry is newer than a kept one: the newest `max` records, ties
   * broken either way.
   */
  ghost predicate TrimmedFrom(m: map<string, CaptureRecord>, r: map<string, CaptureRecord>, max: nat)
  {
    (forall k :: k in r ==> k in m && r[k] == m[k])
    && |r| == (if |m| < max then |m| else max)
    && (forall k, j :: k in r && j in m && j !in r ==> m[j].ts <= r[k].ts)
  }

  /** Some key of a non-empty set holds the oldest record among those keys. */
  lemma {:induction false} OldestExists(m: map<string, CaptureRecord>, keys: set<string>)
    requires keys != {} && keys <= m.Keys
    ensures exists k :: k in keys && forall j :: j in keys ==> m[k].ts <= m[j].ts
    decreases |keys|
  {
    var x :| x in keys;
    if keys != {x} {
      OldestExists(m, keys - {x});
      var k :| k in keys - {x} && forall j :: j in keys - {x} ==> m[k].ts <= m[j].ts;
      if m[x].ts <= m[k].ts {
        assert forall j :: j in keys ==> m[x].ts <= m[j].ts;
      } else {
        assert forall j :: j in keys ==> m[k].ts <= m[j].ts;
      }
    } else {
      assert forall j :: j in keys ==> m[x].ts <= m[j].ts;
    }
  }

  /** `trimTikTokCaptureItems`: drops the oldest record until sixteen are left. */
  method TrimCaptureItems(m: map<string, CaptureRecord>) returns (r: map<string, CaptureRecord>)
    ensures TrimmedFrom(m, r, MaxItems)
  {
    r := m;
    while |r| > MaxItems
      invariant forall k :: k in r ==> k in m && r[k] == m[k]
      invariant |m| <= MaxItems ==> r == m
      invariant |m| > MaxItems ==> |r| >= MaxItems
      invariant forall k, j :: k in r && j in m && j !in r ==> m[j].ts <= r[k].ts
      decreases |r|
    {
      OldestExists(r, r.Keys);
      var oldest :| oldest in r && forall j :: j in r ==> r[oldest].ts <= r[j].ts;
      r := r - {oldest};
    }
  }

  /** A set inside another of the same size is that set. */
  lemma {:induction false} SameSizeSubset(a: set<string>, b: set<string>)
    requires a <= b && |a| == |b|
    ensures a == b
  {
    if a != b {
      var x :| x in b && x !in a;
      assert a <= b - {x};
      SubsetSize(a, b - {x});
    }
  }

  lemma {:induction false} SubsetSize(a: set<string>, b: set<string>)
    requires a <= b
    ensures |a| <= |b|
    decreases |b|
  {
    if a != {} {
      var x :| x in a;
      SubsetSize(a - {x}, b - {x});
    }
  }

  /** At or under the bound, trimming keeps every record. */
  lemma TrimKeepsSmallMaps(m: map<string, CaptureRecord>, r: map<string, CaptureRecord>)
    requires |m| <= MaxItems && TrimmedFrom(m, r, MaxItems)
    ensures r == m
  {
    assert r.Keys <= m.Keys;
    assert |r.Keys| == |r| == |m| == |m.Keys|;
    SameSizeSubset(r.Keys, m.Keys);
  }

  /** A record newer than every other one survives the trim. */
  lemma NewestSurvives(m: map<string, CaptureRecord>, r: map<string, CaptureRecord>, max: nat, k: string)
    requires max >= 1 && TrimmedFrom(m, r, max)
    requires k in m && forall j :: j in m && j != k ==> m[j].ts < m[k].ts
    ensures k in r && r[k] == m[k]
  {
    assert |r| >= 1;
    var x :| x in r;
    assert x == k || m[x].ts < m[k].ts;
  }

  /** Trimming keeps a sane index sane. */
  lemma TrimKeepsSanity(vs: Validators, s: CaptureState, r: map<string, CaptureRecord>)
    requires SaneState(vs, s) && TrimmedFrom(s.byItemId, r, MaxItems)
    ensures SaneState(vs, s.(byItemId := r))
  {
  }

  // ---------------------------------------------------------------------
  // The link to send for a tab
  // ---------------------------------------------------------------------

  /** The validated page link of the record indexed under `id`, if there is one. */
  function RecordPage(vs: Validators, s: CaptureState, id: Option<string>): (r: Option<string>)
    ensures SoundValidators(vs) && r.Some? ==> IsPageUrl(vs.codec, r.value)
    ensures r.Some? ==> !Falsy(id) && id.value in s.byItemId
  {
    if !Falsy(id) && id.value in s.byItemId then vs.pageUrl(OptValue(s.byItemId[id.value].pageUrl)) else None
  }

  /** The validated page link of the latest record. */
  function LatestPage(vs: Validators, s: CaptureState): (r: Option<string>)
    ensures r.Some? ==> s.latest.Some? && (SoundValidators(vs) ==> IsPageUrl(vs.codec, r.value))
  {
    if s.latest.Some? then vs.pageUrl(OptValue(s.latest.value.pageUrl)) else None
  }

  /** `domItemId`: the id in the normalised DOM link, else in the raw one. */
  function DomItemId(vs: Validators, dom: Value): (r: Option<string>)
    ensures SoundValidators(vs) && r.Some? ==> IsTikTokId(r.value)
  {
    var normalized := vs.pageUrl(dom);
    vs.extractId(if normalized.Some? then Str(normalized.value) else dom)
  }

  /** What `resolveTikTokCapturedUrlForTab` answers for a tab state and a DOM link. */
  function CapturedUrlOf(vs: Validators, s: CaptureState, dom: Value): (r: Option<string>)
    ensures SoundValidators(vs) && r.Some? ==> IsPageUrl(vs.codec, r.value)
  {
    RecordPage(vs, s, DomItemId(vs, dom))
      .OrElse(RecordPage(vs, s, s.activeItemId))
      .OrElse(vs.pageUrl(dom))
      .OrElse(LatestPage(vs, s))
  }

  /**
   * The four sources in order: the DOM item's record, the active item's
   * record, the DOM link itself, the latest record; nothing when all fail.
   */
  lemma CapturedUrlPriority(vs: Validators, s: CaptureState, dom: Value)
    ensures var r := CapturedUrlOf(vs, s, dom);
      var fromDom := RecordPage(vs, s, DomItemId(vs, dom));
      var fromActive := RecordPage(vs, s, s.activeItemId);
      var domLink := vs.pageUrl(dom);
      (fromDom.Some? ==> r == fromDom)
      && (fromDom.None? && fromActive.Some? ==> r == fromActive)
      && (fromDom.None? && fromActive.None? && domLink.Some? ==> r == domLink)
      && (fromDom.None? && fromActive.None? && domLink.None? ==> r == LatestPage(vs, s))
  {
  }

  /** A DOM link that is itself a page link always yields some link. */
  lemma ValidDomLinkAnswers(vs: Validators, s: CaptureState, dom: Value)
    requires vs.pageUrl(dom).Some?
    ensures CapturedUrlOf(vs, s, dom).Some?
  {
  }

  /**
   * For a canonical page link in the DOM that the page validator leaves
   * alone (or rejects), the record looked up first is the one indexed under
   * that page's own media id.
   */
  lemma DomRecordIsTheLinkedItem(c: Codec, p: string, m: MediaMatch)
    requires CanonicalPathOf(p, m)
    requires c.parse(PageLink(p), None) == Some(TikTokUrl(p))
    requires NormalizePageUrl(c, Str(PageLink(p))).Some? ==> NormalizePageUrl(c, Str(PageLink(p))).value == PageLink(p)
    ensures DomItemId(ValidatorsOf(c), Str(PageLink(p))) == Some(m.id)
  {
    ItemIdOfCanonicalPage(c, p, m);
  }

  // ---------------------------------------------------------------------
  // The patches the listeners send
  // ---------------------------------------------------------------------

  /**
   * `captureTikTokWebRequest`: a completed request for a play or media
   * link, in a tab, becomes a patch carrying the raw link in the matching
   * fields and the id found in it.
   */
  function WebRequestPatch(c: Codec, tab: int, url: string): (r: Option<CapturePatch>)
    ensures r.Some? <==>
      tab >= 0 && (NormalizePlayUrl(c, Str(url)).Some? || NormalizeMediaUrl(c, Str(url)).Some?)
    ensures r.Some? ==>
      HasRecordPatch(r.value) && r.value.activeItemId.Absent? && r.value.pageUrl.Absent?
      && r.value.itemId == Given(ExtractItemIdFromUrl(c, Str(url)))
      && (r.value.playUrl.Given? <==> NormalizePlayUrl(c, Str(url)).Some?)
      && (r.value.mediaUrl.Given? <==> NormalizeMediaUrl(c, Str(url)).Some?)
      && (r.value.playUrl.Given? ==> r.value.playUrl.value == Some(url))
      && (r.value.mediaUrl.Given? ==> r.value.mediaUrl.value == Some(url))
  {
    var isPlay := NormalizePlayUrl(c, Str(url)).Some?;
    var isMedia := NormalizeMediaUrl(c, Str(url)).Some?;
    if tab < 0 || (!isPlay && !isMedia) then None
    else
      Some(CapturePatch(
        Given(ExtractItemIdFromUrl(c, Str(url))),
        Absent,
        if isMedia then Given(Some(url)) else Absent,
        if isPlay then Given(Some(url)) else Absent,
        Absent))
  }

  /**
   * `captureTikTokRedirect`: a play link redirecting, or a redirect to a
   * media link, becomes a patch with the normalised links that passed and
   * the id in the play link, else in the target.
   */
  function RedirectPatch(c: Codec, tab: int, url: string, redirectUrl: string): (r: Option<CapturePatch>)
    ensures r.Some? <==>
      tab >= 0 && (NormalizePlayUrl(c, Str(url)).Some? || NormalizeMediaUrl(c, Str(redirectUrl)).Some?)
    ensures r.Some? ==>
      HasRecordPatch(r.value) && r.value.activeItemId.Absent? && r.value.pageUrl.Absent?
      && r.value.itemId == Given(ExtractItemIdFromUrl(c, Str(url)).OrElse(ExtractItemIdFromUrl(c, Str(redirectUrl))))
      && (r.value.playUrl.Given? <==> NormalizePlayUrl(c, Str(url)).Some?)
      && (r.value.mediaUrl.Given? <==> NormalizeMediaUrl(c, Str(redirectUrl)).Some?)
      && (r.value.playUrl.Given? ==> r.value.playUrl.value == NormalizePlayUrl(c, Str(url)))
      && (r.value.mediaUrl.Given? ==> r.value.mediaUrl.value == NormalizeMediaUrl(c, Str(redirectUrl)))
  {
    var playUrl := NormalizePlayUrl(c, Str(url));
    var redirectMediaUrl := NormalizeMediaUrl(c, Str(redirectUrl));
    if tab < 0 || (playUrl.None? && redirectMediaUrl.None?) then None
    else
      Some(CapturePatch(
        Given(ExtractItemIdFromUrl(c, Str(url)).OrElse(ExtractItemIdFromUrl(c, Str(redirectUrl)))),
        Absent,
        if redirectMediaUrl.Some? then Given(redirectMediaUrl) else Absent,
        if playUrl.Some? then Given(playUrl) else Absent,
        Absent))
  }

  /**
   * The patch for a content script's sync message: the validated id
   * becomes the active item (possibly null) and, when valid, the record's
   * id; a valid page link becomes the record's page.
   */
  function SyncPatch(c: Codec, itemId: Value, url: Value): (r: CapturePatch)
    ensures r.activeItemId == Given(NormalizeItemId(itemId))
    ensures r.itemId.Given? <==> NormalizeItemId(itemId).Some?
    ensures r.itemId.Given? ==> r.itemId.value == NormalizeItemId(itemId)
    ensures r.pageUrl.Given? <==> NormalizePageUrl(c, url).Some?
    ensures r.pageUrl.Given? ==> r.pageUrl.value == NormalizePageUrl(c, url)
    ensures r.mediaUrl.Absent? && r.playUrl.Absent?
  {
    var normalizedItemId := NormalizeItemId(itemId);
    var normalizedPageUrl := NormalizePageUrl(c, url);
    CapturePatch(
      if normalizedItemId.Some? then Given(normalizedItemId) else Absent,
      if normalizedPageUrl.Some? then Given(normalizedPageUrl) else Absent,
      Absent,
      Absent,
      Given(normalizedItemId))
  }

  // ---------------------------------------------------------------------
  // The store
  // ---------------------------------------------------------------------

  /** The state a read finds in storage: the stored value if it sanitises, else an empty state. */
  function Loaded(vs: Validators, session: map<int, Value>, tab: int, now: real, readFails: bool): (s: CaptureState)
    ensures SoundValidators(vs) ==> SaneState(vs, s)
    ensures readFails ==> s == EmptyState(now)
  {
    var stored := if tab in session then session[tab] else Undefined;
    if readFails then EmptyState(now)
    else SanitizedState(vs, stored, now).UnwrapOr(EmptyState(now))
  }

  /**
   * The first half of `upsertTikTokCapture`: the active item, then the
   * patch merged into the record it names, which becomes the latest one and,
   * when it has an id, the entry under that id.
   */
  method MergePatch(vs: Validators, current: CaptureState, patch: CapturePatch, now: real) returns (next: CaptureState)
    ensures next == Upserted(vs, current, patch, now)
  {
    var nextByItemId := current.byItemId;
    var activeItemId := if patch.activeItemId.Given? then patch.activeItemId.value else current.activeItemId;
    var latest := current.latest;
    if HasRecordPatch(patch) {
      var normalizedItemId := PatchItemId(vs, patch);
      var baseRecord := BaseRecord(current, normalizedItemId);
      var mergedRecord := Merge(baseRecord, NormalizedPatch(vs, patch), now);
      if mergedRecord.Some? {
        latest := mergedRecord;
        if !Falsy(mergedRecord.value.itemId) {
          nextByItemId := nextByItemId[mergedRecord.value.itemId.value := mergedRecord.value];
        }
      }
    }
    next := CaptureState(activeItemId, latest, nextByItemId, now);
  }

  /** `next` is the merged state with its records cut down as `TrimmedFrom` says. */
  ghost predicate UpsertedAndTrimmed(vs: Validators, s: CaptureState, patch: CapturePatch, now: real, next: CaptureState)
  {
    var pre := Upserted(vs, s, patch, now);
    next == pre.(byItemId := next.byItemId) && TrimmedFrom(pre.byItemId, next.byItemId, MaxItems)
  }

  /** The state `upsertTikTokCapture` writes back: the merged state with its records cut down to the newest sixteen. */
  method UpsertState(vs: Validators, current: CaptureState, patch: CapturePatch, now: real) returns (next: CaptureState)
    requires SoundValidators(vs) && SaneState(vs, current)
    ensures SaneState(vs, next)
    ensures UpsertedAndTrimmed(vs, current, patch, now, next)
  {
    var pre := MergePatch(vs, current, patch, now);
    UpsertKeepsSanity(vs, current, patch, now);
    var trimmed := TrimCaptureItems(pre.byItemId);
    TrimKeepsSanity(vs, pre, trimmed);
    next := pre.(byItemId := trimmed);
  }

  /**
   * The capture store: `tiktokCaptureStateCache` in front of
   * `chrome.storage.session`, whose entry for a tab is kept under the key
   * `lce:tiktok:capture:<tab>`.
   */
  class Store {
    /** The validators the store applies, with the URL parser they use. */
    const validators: Validators
    /** The in-memory cache, by tab. */
    var cache: map<int, CaptureState>
    /** Session storage, by tab. */
    var session: map<int, Value>

    /** The validators keep their promises, and everything in the cache is sane. */
    ghost predicate Valid()
      reads this
    {
      SoundValidators(validators) && forall tab :: tab in cache ==> SaneState(validators, cache[tab])
    }

    /** A worker starting up: an empty cache over what session storage still holds. */
    constructor (codec: Codec, session: map<int, Value>)
      ensures validators == ValidatorsOf(codec) && this.session == session && cache == map[]
      ensures Valid()
    {
      validators := ValidatorsOf(codec);
      this.session := session;
      cache := map[];
      ValidatorsOfSound(codec);
    }

    /** The state a read for `tab` yields: the cached one, else the one loaded from storage. */
    ghost function Current(tab: int, now: real, readFails: bool): (s: CaptureState)
      reads this
      requires Valid()
      ensures SaneState(validators, s)
    {
      if tab in cache then cache[tab] else Loaded(validators, session, tab, now, readFails)
    }

    /** `getTikTokCaptureState`: the cached state, else the stored one, which is then cached. */
    method GetState(tab: int, now: real, readFails: bool) returns (s: CaptureState)
      requires Valid()
      modifies this
      ensures Valid()
      ensures s == old(Current(tab, now, readFails))
      ensures cache == old(cache)[tab := s] && session == old(session)
    {
      if tab in cache {
        return cache[tab];
      }
      var parsed: Option<CaptureState> := None;
      if !readFails {
        var stored := if tab in session then session[tab] else Undefined;
        parsed := SanitizeState(validators, stored, now);
      }
      if parsed.Some? {
        s := parsed.value;
      } else {
        s := EmptyState(now);
      }
      cache := cache[tab := s];
    }

    /** `setTikTokCaptureState`: the cache always, storage unless the write fails. */
    method SetState(tab: int, next: CaptureState, writeFails: bool)
      requires Valid() && SaneState(validators, next)
      modifies this
      ensures Valid()
      ensures cache == old(cache)[tab := next]
      ensures session == if writeFails then old(session) else old(session)[tab := StateValue(next)]
    {
      cache := cache[tab := next];
      if !writeFails {
        session := session[tab := StateValue(next)];
      }
    }

    /**
     * `upsertTikTokCapture`: the tab's state with the patch merged in and
     * its records cut down to the newest sixteen, cached and stored.
     */
    method Upsert(tab: int, patch: CapturePatch, now: real, readFails: bool, writeFails: bool)
      requires Valid()
      modifies this
      ensures Valid()
      ensures tab in cache && cache == old(cache)[tab := cache[tab]]
      ensures UpsertedAndTrimmed(validators, old(Current(tab, now, readFails)), patch, now, cache[tab])
      ensures session == if writeFails then old(session) else old(session)[tab := StateValue(cache[tab])]
    {
      var current := GetState(tab, now, readFails);
      var next := UpsertState(validators, current, patch, now);
      SetState(tab, next, writeFails);
    }

    /** `resolveTikTokCapturedUrlForTab`: the link to send for the tab, reading its state. */
    method ResolveCapturedUrl(tab: int, domUrl: Value, now: real, readFails: bool) returns (r: Option<string>)
      requires Valid()
      modifies this
      ensures Valid()
      ensures r == CapturedUrlOf(validators, old(Current(tab, now, readFails)), domUrl)
      ensures cache == old(cache)[tab := old(Current(tab, now, readFails))] && session == old(session)
    {
      var state := GetState(tab, now, readFails);
      r := PickCapturedUrl(state, domUrl);
    }

    /** The lookups of `resolveTikTokCapturedUrlForTab` once the tab's state is read. */
    method PickCapturedUrl(state: CaptureState, domUrl: Value) returns (r: Option<string>)
      requires Valid()
      ensures r == CapturedUrlOf(validators, state, domUrl)
    {
      var normalizedDomUrl := validators.pageUrl(domUrl);
      var domItemId := validators.extractId(if normalizedDomUrl.Some? then Str(normalizedDomUrl.value) else domUrl);
      if !Falsy(domItemId) && domItemId.value in state.byItemId {
        var p := validators.pageUrl(OptValue(state.byItemId[domItemId.value].pageUrl));
        if p.Some? {
          return p;
        }
      }
      if !Falsy(state.activeItemId) && state.activeItemId.value in state.byItemId {
        var p := validators.pageUrl(OptValue(state.byItemId[state.activeItemId.value].pageUrl));
        if p.Some? {
          return p;
        }
      }
      if normalizedDomUrl.Some? {
        return normalizedDomUrl;
      }
      if state.latest.Some? {
        var p := validators.pageUrl(OptValue(state.latest.value.pageUrl));
        if p.Some? {
          return p;
        }
      }
      return None;
    }

    /** The tab-removed listener: the tab's state leaves the cache and storage. */
    method RemoveTab(tab: int)
      requires Valid()
      modifies this
      ensures Valid()
      ensures cache == old(cache) - {tab} && session == old(session) - {tab}
    {
      cache := cache - {tab};
      session := session - {tab};
    }
  }

  /**
   * The record an upsert has just merged is the newest in the tab, so it
   * survives the trim when every other record is older than now.
   */
  lemma MergedRecordSurvives(vs: Validators, s: CaptureState, patch: CapturePatch, now: real, r: map<string, CaptureRecord>)
    requires HasRecordPatch(patch) && UpsertMerge(vs, s, patch, now).Some?
    requires !Falsy(UpsertMerge(vs, s, patch, now).value.itemId)
    requires forall k :: k in s.byItemId ==> s.byItemId[k].ts < now
    requires TrimmedFrom(Upserted(vs, s, patch, now).byItemId, r, MaxItems)
    ensures var merged := UpsertMerge(vs, s, patch, now).value;
      merged.itemId.value in r && r[merged.itemId.value] == merged
  {
    UpsertRecord(vs, s, patch, now);
    var merged := UpsertMerge(vs, s, patch, now).value;
    var next := Upserted(vs, s, patch, now).byItemId;
    forall j | j in next && j != merged.itemId.value
      ensures next[j].ts < next[merged.itemId.value].ts
    {
    }
    NewestSurvives(next, r, MaxItems, merged.itemId.value);
  }
}
