/**
  The management endpoints that edit the per-key policy list
  (internal/api/handlers/management/api_key_policies.go): PUT replaces the list, PATCH edits,
  adds or removes one entry, DELETE removes every entry of a key. Each successful edit is
  followed by sanitisation and by saving the configuration; saving is not modelled, and a
  successful edit answers Saved. Request bodies arrive already decoded.
*/
module PolicyManagement {
  import opened Wrappers
  import opened Strings
  import opened Http
  import opened ApiKeyConfig

  /** What a handler answers: the list was edited and saved, or an error status and message. */
  datatype Reply = Saved | Failed(status: int, message: string)

  const ConfigUnavailable := "config unavailable"
  const InvalidBody := "invalid body"
  const APIKeyRequired := "api-key is required"
  const APIKeyCannotBeEmpty := "api-key cannot be empty"
  const ItemNotFound := "item not found"
  const MissingAPIKey := "missing api-key"

  // ---------------------------------------------------------------------------------------
  // PUT
  // ---------------------------------------------------------------------------------------

  /**
    A PUT body as JSON decoding sees it: a bare array of policies, an object (whose "items"
    member, when missing, decodes to the empty list), or neither.
  */
  datatype PutPayload =
    | PolicyArray(policies: seq<APIKeyPolicy>)
    | ItemsObject(items: seq<APIKeyPolicy>)
    | Undecodable

  /** The list a PUT installs: the array, or the object's items; nothing for any other body. */
  function PutItems(payload: PutPayload): (r: Option<seq<APIKeyPolicy>>)
    ensures r.None? <==> payload.Undecodable?
    ensures payload.PolicyArray? ==> r == Some(payload.policies)
    ensures payload.ItemsObject? ==> r == Some(payload.items)
  {
    match payload
    case PolicyArray(policies) => Some(policies)
    case ItemsObject(items) => Some(items)
    case Undecodable => None
  }

  /** PUT: replace the whole list with the decoded one and sanitise it; 400 for any other body. */
  method PutAPIKeyPolicies(cfg: Config?, payload: PutPayload, normalizeExcluded: seq<string> -> seq<string>)
    returns (reply: Reply)
    modifies cfg
    ensures cfg == null ==> reply == Failed(StatusBadRequest, ConfigUnavailable)
    ensures cfg != null && PutItems(payload).None? ==>
      reply == Failed(StatusBadRequest, InvalidBody) && cfg.apiKeyPolicies == old(cfg.apiKeyPolicies)
    ensures cfg != null && PutItems(payload).Some? ==>
      reply == Saved && Sanitized(PutItems(payload).value, cfg.apiKeyPolicies, normalizeExcluded)
  {
    if cfg == null {
      return Failed(StatusBadRequest, ConfigUnavailable);
    }
    var items := PutItems(payload);
    if items.None? {
      return Failed(StatusBadRequest, InvalidBody);
    }
    cfg.apiKeyPolicies := items.value;
    cfg.SanitizeAPIKeyPolicies(normalizeExcluded);
    return Saved;
  }

  // ---------------------------------------------------------------------------------------
  // PATCH
  // ---------------------------------------------------------------------------------------

  /** The fields a PATCH value may carry; an absent field is None. */
  datatype PolicyPatch = PolicyPatch(
    excludedModels: Option<seq<string>>,
    allowClaudeOpus46: Option<bool>,
    dailyLimits: Option<map<string, int>>,
    dailyBudgetMicroUSD: Option<int>,
    apiKey: Option<string>)

  /** A decoded PATCH body: the top-level api-key ("" when absent) and the value object. */
  datatype PatchBody = PatchBody(apiKey: string, value: Option<PolicyPatch>)

  /** The entry PATCH starts from for a key that has no policy yet. */
  function NewPolicy(key: string): (p: APIKeyPolicy)
    ensures p.apiKey == key && p.excludedModels == [] && p.dailyLimits == map[]
    ensures p.allowClaudeOpus46.None? && p.dailyBudgetMicroUSD == 0
    ensures !p.failover.claude.enabled && p.failover.claude.rules == []
  {
    APIKeyPolicy(key, [], APIKeyFailoverPolicy(ProviderFailoverPolicy(false, "", [])), None, map[], 0)
  }

  /**
    The entry after applying the present fields of a patch: a present field replaces the
    stored one (excluded models after normalisation, a new key after trimming), an absent
    field keeps it, and the failover settings are never touched.
  */
  function ApplyPatch(entry: APIKeyPolicy, v: PolicyPatch, normalizeExcluded: seq<string> -> seq<string>)
    : (r: APIKeyPolicy)
    ensures r.failover == entry.failover
    ensures r.apiKey == (if v.apiKey.Some? then TrimSpace(v.apiKey.value) else entry.apiKey)
    ensures r.excludedModels ==
      (if v.excludedModels.Some? then normalizeExcluded(v.excludedModels.value) else entry.excludedModels)
    ensures v.allowClaudeOpus46.Some? ==> r.allowClaudeOpus46 == v.allowClaudeOpus46
    ensures v.allowClaudeOpus46.None? ==> r.allowClaudeOpus46 == entry.allowClaudeOpus46
    ensures r.dailyLimits == (if v.dailyLimits.Some? then v.dailyLimits.value else entry.dailyLimits)
    ensures r.dailyBudgetMicroUSD ==
      (if v.dailyBudgetMicroUSD.Some? then v.dailyBudgetMicroUSD.value else entry.dailyBudgetMicroUSD)
  {
    var e1 := if v.apiKey.Some? then entry.(apiKey := TrimSpace(v.apiKey.value)) else entry;
    var e2 := if v.excludedModels.Some? then e1.(excludedModels := normalizeExcluded(v.excludedModels.value)) else e1;
    var e3 := if v.allowClaudeOpus46.Some? then e2.(allowClaudeOpus46 := v.allowClaudeOpus46) else e2;
    var e4 := if v.dailyLimits.Some? then e3.(dailyLimits := v.dailyLimits.value) else e3;
    if v.dailyBudgetMicroUSD.Some? then e4.(dailyBudgetMicroUSD := v.dailyBudgetMicroUSD.value) else e4
  }

  /** A patch with no fields leaves an entry as it is. */
  lemma EmptyPatchKeepsEntry(entry: APIKeyPolicy, normalizeExcluded: seq<string> -> seq<string>)
    ensures ApplyPatch(entry, PolicyPatch(None, None, None, None, None), normalizeExcluded) == entry
  {
  }

  /** Whether a patch value asks for its key's entry to be removed: a present but blank api-key. */
  predicate RemovesEntry(v: PolicyPatch) {
    v.apiKey.Some? && TrimSpace(v.apiKey.value) == ""
  }

  /**
    PATCH on the list before sanitisation: the edited list, or the error reply. The entry
    edited is the first one whose trimmed key is the trimmed top-level api-key.
  */
  function PatchStep(ps: seq<APIKeyPolicy>, body: Option<PatchBody>, normalizeExcluded: seq<string> -> seq<string>)
    : (r: Result<seq<APIKeyPolicy>, Reply>)
    ensures body.None? || body.value.value.None? ==> r == Err(Failed(StatusBadRequest, InvalidBody))
    ensures body.Some? && body.value.value.Some? && IsBlank(body.value.apiKey) ==>
      r == Err(Failed(StatusBadRequest, APIKeyRequired))
    ensures body.Some? && body.value.value.Some? && !IsBlank(body.value.apiKey) ==>
      var key, v := TrimSpace(body.value.apiKey), body.value.value.value;
      var t := PolicyIndex(ps, key);
      if RemovesEntry(v) then
        (if t < |ps| then r == Ok(ps[..t] + ps[t + 1..])
         else r == Err(Failed(StatusBadRequest, APIKeyCannotBeEmpty)))
      else if t < |ps| then
        r.Ok? && |r.value| == |ps| && r.value[t] == ApplyPatch(ps[t], v, normalizeExcluded)
        && (forall j :: 0 <= j < |ps| && j != t ==> r.value[j] == ps[j])
      else r == Ok(ps + [ApplyPatch(NewPolicy(key), v, normalizeExcluded)])
  {
    if body.None? || body.value.value.None? then Err(Failed(StatusBadRequest, InvalidBody))
    else
      var key := TrimSpace(body.value.apiKey);
      var v := body.value.value.value;
      if key == "" then Err(Failed(StatusBadRequest, APIKeyRequired))
      else
        var t := PolicyIndex(ps, key);
        if RemovesEntry(v) then
          if t < |ps| then Ok(ps[..t] + ps[t + 1..]) else Err(Failed(StatusBadRequest, APIKeyCannotBeEmpty))
        else if t < |ps| then Ok(ps[t := ApplyPatch(ps[t], v, normalizeExcluded)])
        else Ok(ps + [ApplyPatch(NewPolicy(key), v, normalizeExcluded)])
  }

  /** Every PATCH error is a 400. */
  lemma PatchErrorsAreBadRequests(ps: seq<APIKeyPolicy>, body: Option<PatchBody>,
                                  normalizeExcluded: seq<string> -> seq<string>)
    ensures var r := PatchStep(ps, body, normalizeExcluded);
      r.Err? ==> r.error.Failed? && r.error.status == StatusBadRequest
  {
  }

  /**
    PATCH with a top-level api-key and a value: the first policy with that trimmed key, or
    -1 when there is none, found by the handler's scan.
  */
  method FindTargetIndex(ps: seq<APIKeyPolicy>, key: string) returns (targetIndex: int)
    ensures targetIndex == (if PolicyIndex(ps, key) < |ps| then PolicyIndex(ps, key) else -1)
  {
    targetIndex := -1;
    var i := 0;
    while i < |ps|
      invariant 0 <= i <= |ps|
      invariant forall j :: 0 <= j < i ==> TrimSpace(ps[j].apiKey) != key
    {
      if TrimSpace(ps[i].apiKey) == key {
        targetIndex := i;
        break;
      }
      i := i + 1;
    }
  }

  /**
    PATCH: edit the entry of the top-level key in place, remove it, or append a new one, and
    sanitise; an error leaves the list as it was.
  */
  method PatchAPIKeyPolicies(cfg: Config?, body: Option<PatchBody>, normalizeExcluded: seq<string> -> seq<string>)
    returns (reply: Reply)
    modifies cfg
    ensures cfg == null ==> reply == Failed(StatusBadRequest, ConfigUnavailable)
    ensures cfg != null ==>
      match PatchStep(old(cfg.apiKeyPolicies), body, normalizeExcluded)
      case Ok(edited) => reply == Saved && Sanitized(edited, cfg.apiKeyPolicies, normalizeExcluded)
      case Err(failure) => reply == failure && cfg.apiKeyPolicies == old(cfg.apiKeyPolicies)
  {
    if cfg == null {
      return Failed(StatusBadRequest, ConfigUnavailable);
    }
    if body.None? || body.value.value.None? {
      return Failed(StatusBadRequest, InvalidBody);
    }
    var apiKey := TrimSpace(body.value.apiKey);
    if apiKey == "" {
      return Failed(StatusBadRequest, APIKeyRequired);
    }
    var v := body.value.value.value;
    var ps := cfg.apiKeyPolicies;
    var targetIndex := FindTargetIndex(ps, apiKey);
    var entry := NewPolicy(apiKey);
    if targetIndex >= 0 {
      entry := ps[targetIndex];
    }
    if v.apiKey.Some? {
      var trimmed := TrimSpace(v.apiKey.value);
      if trimmed == "" {
        if targetIndex >= 0 {
          cfg.apiKeyPolicies := ps[..targetIndex] + ps[targetIndex + 1..];
          cfg.SanitizeAPIKeyPolicies(normalizeExcluded);
          return Saved;
        }
        return Failed(StatusBadRequest, APIKeyCannotBeEmpty);
      }
    }
    entry := ApplyPatch(entry, v, normalizeExcluded);
    if targetIndex >= 0 {
      cfg.apiKeyPolicies := ps[targetIndex := entry];
    } else {
      cfg.apiKeyPolicies := ps + [entry];
    }
    cfg.SanitizeAPIKeyPolicies(normalizeExcluded);
    return Saved;
  }

  /**
    A PATCH that neither renames nor removes, on a list where each key appears at most
    once, leaves the patched entry as the last one with its key: in the slot of the old
    entry, or appended at the end.
  */
  lemma PatchedEntryIsLastOfItsKey(ps: seq<APIKeyPolicy>, body: PatchBody, normalizeExcluded: seq<string> -> seq<string>,
                                   edited: seq<APIKeyPolicy>)
    returns (last: nat)
    requires body.value.Some? && body.value.value.apiKey.None? && !IsBlank(body.apiKey)
    requires forall a, b :: 0 <= a < b < |ps| ==> TrimSpace(ps[a].apiKey) != TrimSpace(ps[b].apiKey)
    requires PatchStep(ps, Some(body), normalizeExcluded) == Ok(edited)
    ensures var key := TrimSpace(body.apiKey);
      var t := PolicyIndex(ps, key);
      var entry := if t < |ps| then ps[t] else NewPolicy(key);
      last < |edited| && edited[last] == ApplyPatch(entry, body.value.value, normalizeExcluded)
      && TrimSpace(edited[last].apiKey) == key
      && forall j :: last < j < |edited| ==> TrimSpace(edited[j].apiKey) != key
  {
    var key := TrimSpace(body.apiKey);
    var t := PolicyIndex(ps, key);
    TrimSpaceIdempotent(body.apiKey);
    last := if t < |ps| then t else |ps|;
    forall i | last < i < |edited|
      ensures TrimSpace(edited[i].apiKey) != key
    {
      assert edited[i] == ps[i];
    }
  }

  /**
    After a PATCH that neither renames nor removes, on a list where each key appears at most
    once, looking the key up in the sanitised list finds the patched entry, cleaned.
  */
  lemma PatchedEntryIsFound(ps: seq<APIKeyPolicy>, body: PatchBody, normalizeExcluded: seq<string> -> seq<string>,
                            edited: seq<APIKeyPolicy>, after: seq<APIKeyPolicy>)
    requires body.value.Some? && body.value.value.apiKey.None? && !IsBlank(body.apiKey)
    requires forall a, b :: 0 <= a < b < |ps| ==> TrimSpace(ps[a].apiKey) != TrimSpace(ps[b].apiKey)
    requires PatchStep(ps, Some(body), normalizeExcluded) == Ok(edited)
    requires Sanitized(edited, after, normalizeExcluded)
    ensures var key := TrimSpace(body.apiKey);
      var t := PolicyIndex(ps, key);
      var entry := if t < |ps| then ps[t] else NewPolicy(key);
      var found := FindAPIKeyPolicy(after, body.apiKey);
      found.Some? && CleanedEntry(ApplyPatch(entry, body.value.value, normalizeExcluded), found.value, normalizeExcluded)
  {
    var last := PatchedEntryIsLastOfItsKey(ps, body, normalizeExcluded, edited);
    LookupFindsLastMatch(edited, after, normalizeExcluded, body.apiKey, last);
  }

  /**
    When position i of a list holds the last policy with a key, looking the key up after
    sanitisation finds that policy, cleaned.
  */
  lemma LookupFindsLastMatch(before: seq<APIKeyPolicy>, after: seq<APIKeyPolicy>,
                             normalizeExcluded: seq<string> -> seq<string>, apiKey: string, i: nat)
    requires Sanitized(before, after, normalizeExcluded) && !IsBlank(apiKey)
    requires i < |before| && TrimSpace(before[i].apiKey) == TrimSpace(apiKey)
    requires forall j :: i < j < |before| ==> TrimSpace(before[j].apiKey) != TrimSpace(apiKey)
    ensures var found := FindAPIKeyPolicy(after, apiKey);
      found.Some? && CleanedEntry(before[i], found.value, normalizeExcluded)
  {
    assert LastIndexUpTo(before, |before|, TrimSpace(apiKey)) == i;
    SanitizedLookupFindsLast(before, after, normalizeExcluded, apiKey);
  }

  // ---------------------------------------------------------------------------------------
  // DELETE
  // ---------------------------------------------------------------------------------------

  /** The list with every policy whose trimmed key is key left out, in the original order. */
  function WithoutKey(ps: seq<APIKeyPolicy>, key: string): (r: seq<APIKeyPolicy>)
    ensures |r| <= |ps|
    ensures forall j :: 0 <= j < |r| ==> TrimSpace(r[j].apiKey) != key
    ensures forall j :: 0 <= j < |ps| && TrimSpace(ps[j].apiKey) != key ==> ps[j] in r
    ensures |r| == |ps| <==> forall j :: 0 <= j < |ps| ==> TrimSpace(ps[j].apiKey) != key
  {
    if ps == [] then []
    else
      var init := WithoutKey(ps[..|ps| - 1], key);
      assert forall j :: 0 <= j < |ps| - 1 ==> ps[..|ps| - 1][j] == ps[j];
      if TrimSpace(ps[|ps| - 1].apiKey) == key then init else init + [ps[|ps| - 1]]
  }

  /**
    Dropping the key's policies works piece by piece: the survivors of a + b are the
    survivors of a followed by those of b. With the one-element case (a single policy
    survives exactly when its key differs), WithoutKey is the order-preserving filter.
  */
  lemma {:induction false} WithoutKeyOfConcat(a: seq<APIKeyPolicy>, b: seq<APIKeyPolicy>, key: string)
    ensures WithoutKey(a + b, key) == WithoutKey(a, key) + WithoutKey(b, key)
    decreases |b|
  {
    if b == [] {
      assert a + b == a;
    } else {
      var init, last := b[..|b| - 1], b[|b| - 1];
      assert (a + b)[..|a + b| - 1] == a + init;
      assert (a + b)[|a + b| - 1] == last;
      WithoutKeyOfConcat(a, init, key);
    }
  }

  /** The key a DELETE names: the trimmed api-key query parameter, else the trimmed apiKey one. */
  function DeleteKey(apiKeyParam: string, apiKeyAltParam: string): (key: string)
    ensures key == "" <==> IsBlank(apiKeyParam) && IsBlank(apiKeyAltParam)
    ensures !IsBlank(apiKeyParam) ==> key == TrimSpace(apiKeyParam)
    ensures IsBlank(apiKeyParam) ==> key == TrimSpace(apiKeyAltParam)
  {
    var key := TrimSpace(apiKeyParam);
    if key == "" then TrimSpace(apiKeyAltParam) else key
  }

  /**
    DELETE on the list before sanitisation: the list without the named key's policies; 404
    when none had that key and 400 when no key is named.
  */
  function DeleteStep(ps: seq<APIKeyPolicy>, apiKeyParam: string, apiKeyAltParam: string)
    : (r: Result<seq<APIKeyPolicy>, Reply>)
    ensures var key := DeleteKey(apiKeyParam, apiKeyAltParam);
      if key == "" then r == Err(Failed(StatusBadRequest, MissingAPIKey))
      else if forall j :: 0 <= j < |ps| ==> TrimSpace(ps[j].apiKey) != key then
        r == Err(Failed(StatusNotFound, ItemNotFound))
      else r == Ok(WithoutKey(ps, key)) && |r.value| < |ps|
  {
    var key := DeleteKey(apiKeyParam, apiKeyAltParam);
    if key == "" then Err(Failed(StatusBadRequest, MissingAPIKey))
    else
      var out := WithoutKey(ps, key);
      if |out| == |ps| then Err(Failed(StatusNotFound, ItemNotFound)) else Ok(out)
  }

  /** The handler's filter loop: the policies whose trimmed key is not key, in order. */
  method KeepOtherKeys(ps: seq<APIKeyPolicy>, key: string) returns (out: seq<APIKeyPolicy>)
    ensures out == WithoutKey(ps, key)
  {
    out := [];
    var i := 0;
    while i < |ps|
      invariant 0 <= i <= |ps|
      invariant out == WithoutKey(ps[..i], key)
    {
      assert ps[..i + 1][..i] == ps[..i];
      if TrimSpace(ps[i].apiKey) != key {
        out := out + [ps[i]];
      }
      i := i + 1;
    }
    assert ps[..i] == ps;
  }

  /** DELETE: filter the named key out of the list and sanitise; an error leaves the list alone. */
  method DeleteAPIKeyPolicies(cfg: Config?, apiKeyParam: string, apiKeyAltParam: string,
                              normalizeExcluded: seq<string> -> seq<string>)
    returns (reply: Reply)
    modifies cfg
    ensures cfg == null ==> reply == Failed(StatusBadRequest, ConfigUnavailable)
    ensures cfg != null ==>
      match DeleteStep(old(cfg.apiKeyPolicies), apiKeyParam, apiKeyAltParam)
      case Ok(kept) => reply == Saved && Sanitized(kept, cfg.apiKeyPolicies, normalizeExcluded)
      case Err(failure) => reply == failure && cfg.apiKeyPolicies == old(cfg.apiKeyPolicies)
  {
    if cfg == null {
      return Failed(StatusBadRequest, ConfigUnavailable);
    }
    var apiKey := TrimSpace(apiKeyParam);
    if apiKey == "" {
      apiKey := TrimSpace(apiKeyAltParam);
    }
    if apiKey != "" {
      var ps := cfg.apiKeyPolicies;
      var out := KeepOtherKeys(ps, apiKey);
      if |out| == |ps| {
        return Failed(StatusNotFound, ItemNotFound);
      }
      cfg.apiKeyPolicies := out;
      cfg.SanitizeAPIKeyPolicies(normalizeExcluded);
      return Saved;
    }
    return Failed(StatusBadRequest, MissingAPIKey);
  }

  /** After a successful DELETE and sanitisation, the deleted key has no policy any more. */
  lemma DeletedKeyIsGone(ps: seq<APIKeyPolicy>, apiKeyParam: string, apiKeyAltParam: string,
                         normalizeExcluded: seq<string> -> seq<string>, kept: seq<APIKeyPolicy>,
                         after: seq<APIKeyPolicy>)
    requires DeleteStep(ps, apiKeyParam, apiKeyAltParam) == Ok(kept)
    requires Sanitized(kept, after, normalizeExcluded)
    ensures FindAPIKeyPolicy(after, DeleteKey(apiKeyParam, apiKeyAltParam)).None?
  {
    var key := DeleteKey(apiKeyParam, apiKeyAltParam);
    assert key != "" && kept == WithoutKey(ps, key);
    assert forall i :: 0 <= i < |kept| ==> TrimSpace(kept[i].apiKey) != key;
    TrimSpaceIdempotent(key);
    SanitizedLookupFindsLast(kept, after, normalizeExcluded, key);
  }
}
