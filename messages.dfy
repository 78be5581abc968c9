/**
 * The runtime messages exchanged between the content scripts, the popup
 * and the background worker, and the type guards that decide whether an
 * untyped message is one of them (`src/lib/messages.ts`).
 */
module Messages {
  import opened Wrappers
  import opened Text
  import opened Json

  const SendQuick := "lce/send-quick"
  const SendCompose := "lce/send-compose"
  const GetComposeState := "lce/get-compose-state"
  const GetActiveMediaUrl := "lce/get-active-media-url"
  const TikTokSyncActiveItem := "lce/tiktok-sync-active-item"
  const TikTokGetCapturedUrl := "lce/tiktok-get-captured-url"
  const ShowToast := "lce/show-toast"

  /** The request types the background worker answers, in the order its guard tries them. */
  const RequestTypes: seq<string> :=
    [SendQuick, SendCompose, GetComposeState, GetActiveMediaUrl, TikTokSyncActiveItem, TikTokGetCapturedUrl]

  const ToastLevels: set<string> := {"success", "error", "info"}

  /** `isRecord(value) && value.type === t`. */
  predicate HasType(v: Value, t: string)
  {
    IsRecord(v) && Get(v, "type") == Str(t)
  }

  /** `asNullableTrimmedString`: null and undefined give null, anything else goes through the string guard. */
  function AsNullableTrimmedString(v: Value): (r: Option<string>)
    ensures r == AsNonEmptyString(v)
  {
    if v.Null? || v.Undefined? then None else AsNonEmptyString(v)
  }

  predicate IsSendQuickRequest(v: Value)
  {
    HasType(v, SendQuick) && AsNonEmptyString(Get(v, "url")).Some?
  }

  predicate IsSendComposeRequest(v: Value)
  {
    HasType(v, SendCompose) && AsNonEmptyString(Get(v, "url")).Some?
  }

  predicate IsGetComposeStateRequest(v: Value)
  {
    HasType(v, GetComposeState)
  }

  predicate IsGetActiveMediaUrlRequest(v: Value)
  {
    HasType(v, GetActiveMediaUrl)
  }

  /** The field tests as written: each accepts null or a string, which is all the string guard can return. */
  predicate IsTikTokSyncActiveItemRequest(v: Value)
  {
    HasType(v, TikTokSyncActiveItem)
    && var itemId := AsNullableTrimmedString(Get(v, "itemId"));
       var url := AsNullableTrimmedString(Get(v, "url"));
       (itemId.None? || itemId.Some?) && (url.None? || url.Some?)
  }

  predicate IsTikTokGetCapturedUrlRequest(v: Value)
  {
    HasType(v, TikTokGetCapturedUrl)
  }

  /** `isBackgroundRequestMessage`: one of the six request guards accepts the value. */
  predicate IsBackgroundRequestMessage(v: Value): (b: bool)
    ensures b ==> IsRecord(v) && Get(v, "type").Str? && Get(v, "type").s in RequestTypes
  {
    IsSendQuickRequest(v) || IsSendComposeRequest(v) || IsGetComposeStateRequest(v)
    || IsGetActiveMediaUrlRequest(v) || IsTikTokSyncActiveItemRequest(v) || IsTikTokGetCapturedUrlRequest(v)
  }

  /** `isShowToastMessage`: the toast type, a non-blank string message and one of the three levels. */
  predicate IsShowToastMessage(v: Value): (b: bool)
    ensures b ==> IsRecord(v) && !IsBackgroundRequestMessage(v)
  {
    ShowToastIsNoRequest();
    HasType(v, ShowToast) && AsNonEmptyString(Get(v, "message")).Some?
    && Get(v, "level").Str? && Get(v, "level").s in ToastLevels
  }

  /** The answers of the six request guards, in the order of `RequestTypes`. */
  function RequestGuards(v: Value): (r: seq<bool>)
    ensures |r| == |RequestTypes|
  {
    [IsSendQuickRequest(v), IsSendComposeRequest(v), IsGetComposeStateRequest(v),
     IsGetActiveMediaUrlRequest(v), IsTikTokSyncActiveItemRequest(v), IsTikTokGetCapturedUrlRequest(v)]
  }

  /** The names whose flag is set, in order. */
  function Picks(flags: seq<bool>, names: seq<string>): seq<string>
    requires |flags| == |names|
  {
    if flags == [] then [] else (if flags[0] then [names[0]] else []) + Picks(flags[1..], names[1..])
  }

  /** The request types whose guard accepts `v`. */
  function AcceptedRequestTypes(v: Value): seq<string>
  {
    Picks(RequestGuards(v), RequestTypes)
  }

  // ---------------------------------------------------------------------
  // What the guards accept
  // ---------------------------------------------------------------------

  /** Null, undefined and every primitive fail every guard. */
  lemma GuardsNeedRecords(v: Value)
    requires !IsRecord(v)
    ensures !IsBackgroundRequestMessage(v) && !IsShowToastMessage(v)
    ensures AcceptedRequestTypes(v) == []
  {
    PicksNone(RequestGuards(v), RequestTypes);
  }

  /** The two send guards: the matching type and a string `url` that is not blank. */
  lemma SendGuardsNeedUrl(v: Value)
    ensures IsSendQuickRequest(v) <==>
      HasType(v, SendQuick) && Get(v, "url").Str? && Trim(Get(v, "url").s) != ""
    ensures IsSendComposeRequest(v) <==>
      HasType(v, SendCompose) && Get(v, "url").Str? && Trim(Get(v, "url").s) != ""
  {
  }

  /** Only `type` and `url` matter to the send guards: `source`, `text` and the rest may hold anything. */
  lemma SendGuardsIgnoreOtherFields(v: Value, key: string, x: Value)
    requires v.Obj? && key != "type" && key != "url"
    ensures IsSendQuickRequest(Obj(v.fields[key := x])) == IsSendQuickRequest(v)
    ensures IsSendComposeRequest(Obj(v.fields[key := x])) == IsSendComposeRequest(v)
  {
    var w := Obj(v.fields[key := x]);
    assert Get(w, "type") == Get(v, "type") && Get(w, "url") == Get(v, "url");
  }

  /** The compose-state, active-media and captured-link guards look at `type` alone: no other field changes them. */
  lemma TypeOnlyGuards(v: Value, key: string, x: Value)
    requires v.Obj? && key != "type"
    ensures IsGetComposeStateRequest(Obj(v.fields[key := x])) == IsGetComposeStateRequest(v)
    ensures IsGetActiveMediaUrlRequest(Obj(v.fields[key := x])) == IsGetActiveMediaUrlRequest(v)
    ensures IsTikTokGetCapturedUrlRequest(Obj(v.fields[key := x])) == IsTikTokGetCapturedUrlRequest(v)
  {
    assert Get(Obj(v.fields[key := x]), "type") == Get(v, "type");
  }

  /** The field conditions of the sync guard always hold: it tests the type alone. */
  lemma SyncGuardIsTypeOnly(v: Value)
    ensures IsTikTokSyncActiveItemRequest(v) <==> HasType(v, TikTokSyncActiveItem)
  {
  }

  /**
   * The request types are pairwise distinct, so at most one guard accepts
   * any value; the background guard holds exactly when one does, and then
   * the value's `type` is that request type.
   */
  lemma AtMostOneRequestGuard(v: Value)
    ensures |AcceptedRequestTypes(v)| <= 1
    ensures IsBackgroundRequestMessage(v) <==> |AcceptedRequestTypes(v)| == 1
    ensures |AcceptedRequestTypes(v)| == 1 ==>
      Get(v, "type") == Str(AcceptedRequestTypes(v)[0]) && AcceptedRequestTypes(v)[0] in RequestTypes
  {
    RequestTypesListed();
    if IsBackgroundRequestMessage(v) {
      SoleAcceptedType(v);
      GuardsCheckType(v);
    } else {
      PicksNone(RequestGuards(v), RequestTypes);
    }
  }

  /** A value some request guard accepts is accepted by that guard alone. */
  lemma SoleAcceptedType(v: Value)
    requires IsBackgroundRequestMessage(v)
    ensures AcceptedRequestTypes(v) == [Get(v, "type").s]
  {
    RequestTypesDistinct();
    GuardsCheckType(v);
    var k :| 0 <= k < |RequestTypes| && RequestGuards(v)[k];
    PicksOfOneName(RequestGuards(v), RequestTypes, Get(v, "type").s, k);
  }

  /** Each request guard checks its own type, and the background guard is one of them. */
  lemma GuardsCheckType(v: Value)
    ensures forall i :: 0 <= i < |RequestTypes| && RequestGuards(v)[i] ==> Get(v, "type") == Str(RequestTypes[i])
    ensures IsBackgroundRequestMessage(v) ==> exists k :: 0 <= k < |RequestTypes| && RequestGuards(v)[k]
  {
    if IsBackgroundRequestMessage(v) {
      var g := RequestGuards(v);
      assert g[0] || g[1] || g[2] || g[3] || g[4] || g[5];
    }
  }

  /** When every set flag names the same string and the names are distinct, that string is the only pick. */
  lemma PicksOfOneName(flags: seq<bool>, names: seq<string>, t: string, k: nat)
    requires |flags| == |names| && k < |flags| && flags[k]
    requires forall i :: 0 <= i < |flags| && flags[i] ==> names[i] == t
    requires forall i, j :: 0 <= i < j < |names| ==> names[i] != names[j]
    ensures Picks(flags, names) == [t]
  {
    forall i | 0 <= i < |flags| && i != k
      ensures !flags[i]
    {
      if i < k { assert names[i] != names[k]; } else { assert names[k] != names[i]; }
    }
    PicksSole(flags, names, k);
  }

  /** With exactly one flag set, the picks are that one name. */
  lemma {:induction false} PicksSole(flags: seq<bool>, names: seq<string>, k: nat)
    requires |flags| == |names| && k < |flags| && flags[k]
    requires forall i :: 0 <= i < |flags| && i != k ==> !flags[i]
    ensures Picks(flags, names) == [names[k]]
  {
    if k == 0 {
      PicksNone(flags[1..], names[1..]);
    } else {
      PicksSole(flags[1..], names[1..], k - 1);
    }
  }

  /** With no flag set, nothing is picked. */
  lemma {:induction false} PicksNone(flags: seq<bool>, names: seq<string>)
    requires |flags| == |names|
    requires forall i :: 0 <= i < |flags| ==> !flags[i]
    ensures Picks(flags, names) == []
  {
    if flags != [] {
      PicksNone(flags[1..], names[1..]);
    }
  }

  /** Each request type is in the list the background guard tries. */
  lemma RequestTypesListed()
    ensures SendQuick in RequestTypes && SendCompose in RequestTypes && GetComposeState in RequestTypes
    ensures GetActiveMediaUrl in RequestTypes && TikTokSyncActiveItem in RequestTypes
    ensures TikTokGetCapturedUrl in RequestTypes
  {
    assert RequestTypes[0] == SendQuick && RequestTypes[1] == SendCompose && RequestTypes[2] == GetComposeState;
    assert RequestTypes[3] == GetActiveMediaUrl && RequestTypes[4] == TikTokSyncActiveItem;
    assert RequestTypes[5] == TikTokGetCapturedUrl;
  }

  /** No two request types are the same string. */
  lemma RequestTypesDistinct()
    ensures forall i, j :: 0 <= i < j < |RequestTypes| ==> RequestTypes[i] != RequestTypes[j]
  {
    var lengths := [14, 16, 21, 24, 27, 27];
    forall i | 0 <= i < |RequestTypes|
      ensures |RequestTypes[i]| == lengths[i]
    {
    }
    assert RequestTypes[4][11] == 's' && RequestTypes[5][11] == 'g';
  }

  /** A record whose `type` is not one of the request types, such as `'lce/other'`, is no background request. */
  lemma UnknownTypeRejected(v: Value)
    requires forall t :: t in RequestTypes ==> Get(v, "type") != Str(t)
    ensures !IsBackgroundRequestMessage(v)
  {
    GuardsCheckType(v);
    forall k | 0 <= k < |RequestTypes|
      ensures !RequestGuards(v)[k]
    {
      assert RequestTypes[k] in RequestTypes;
    }
  }

  /** A toast needs its own type, a message that is not blank and one of the three levels; it is never a request. */
  lemma ToastGuard(v: Value)
    ensures IsShowToastMessage(v) <==>
      HasType(v, ShowToast) && Get(v, "message").Str? && Trim(Get(v, "message").s) != ""
      && Get(v, "level").Str? && Get(v, "level").s in ToastLevels
    ensures IsShowToastMessage(v) ==> !IsBackgroundRequestMessage(v)
  {
    GuardsCheckType(v);
    ShowToastIsNoRequest();
    if IsShowToastMessage(v) {
      forall k | 0 <= k < |RequestTypes|
        ensures !RequestGuards(v)[k]
      {
        assert Str(RequestTypes[k]) != Str(ShowToast);
      }
    }
  }

  /** The toast type is none of the request types. */
  lemma ShowToastIsNoRequest()
    ensures forall i :: 0 <= i < |RequestTypes| ==> RequestTypes[i] != ShowToast
  {
    var lengths := [14, 16, 21, 24, 27, 27];
    forall i | 0 <= i < |RequestTypes|
      ensures |RequestTypes[i]| == lengths[i]
    {
    }
    assert ShowToast[5] == 'h' && RequestTypes[0][5] == 'e';
  }
}
