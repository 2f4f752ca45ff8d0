/**
  Per-client-key policies of the configuration (internal/config/api_key_policies.go): the
  accessors the middleware and the handlers read, and the sanitisation that runs after the
  configuration is loaded or edited. The daily budget is carried in integer micro-USD.
*/
module ApiKeyConfig {
  import opened Wrappers
  import opened Strings
  import opened PolicyModel

  /** A model-specific failover target. */
  datatype ModelFailoverRule = ModelFailoverRule(fromModel: string, targetModel: string)

  /** Failover settings for one provider. */
  datatype ProviderFailoverPolicy =
    ProviderFailoverPolicy(enabled: bool, targetModel: string, rules: seq<ModelFailoverRule>)

  /** Failover settings per provider; only Claude has any. */
  datatype APIKeyFailoverPolicy = APIKeyFailoverPolicy(claude: ProviderFailoverPolicy)

  /**
    The restrictions and quotas of one client API key. An unset allow-claude-opus-4-6 flag
    is None; a nil daily-limits map is the empty map.
  */
  datatype APIKeyPolicy = APIKeyPolicy(
    apiKey: string,
    excludedModels: seq<string>,
    failover: APIKeyFailoverPolicy,
    allowClaudeOpus46: Option<bool>,
    dailyLimits: map<string, int>,
    dailyBudgetMicroUSD: int)

  const DefaultClaudeFailoverTarget := "gpt-5.2(high)"

  /** Whether claude-opus-4-6 may be used: yes unless the policy sets the flag to false. */
  function AllowsClaudeOpus46(p: Option<APIKeyPolicy>): (r: bool)
    ensures !r <==> p.Some? && p.value.allowClaudeOpus46 == Some(false)
  {
    if p.None? || p.value.allowClaudeOpus46.None? then true
    else p.value.allowClaudeOpus46.value
  }

  predicate ClaudeFailoverEnabled(p: Option<APIKeyPolicy>) {
    p.Some? && p.value.failover.claude.enabled
  }

  /**
    The Claude failover target: ("", false) when failover is off, otherwise the trimmed
    configured target or, when that is blank, the default target.
  */
  function ClaudeFailoverTargetModel(p: Option<APIKeyPolicy>): (r: (string, bool))
    ensures r.1 <==> ClaudeFailoverEnabled(p)
    ensures !r.1 ==> r.0 == ""
    ensures r.1 ==> r.0 != "" && TrimSpace(r.0) == r.0
    ensures r.1 ==> var t := TrimSpace(p.value.failover.claude.targetModel);
      r.0 == (if t == "" then DefaultClaudeFailoverTarget else t)
  {
    if !ClaudeFailoverEnabled(p) then ("", false)
    else
      var target := TrimSpace(p.value.failover.claude.targetModel);
      TrimSpaceIdempotent(p.value.failover.claude.targetModel);
      TrimSpaceOfTrimmed(DefaultClaudeFailoverTarget);
      if target == "" then (DefaultClaudeFailoverTarget, true) else (target, true)
  }

  /** A rule applies to a normalised request key when its from-model matches and its target is set. */
  predicate RuleFires(rule: ModelFailoverRule, requestKey: string) {
    var from := ToLower(TrimSpace(rule.fromModel));
    from != "" && MatchWildcard(from, requestKey) && TrimSpace(rule.targetModel) != ""
  }

  /** The position of the first rule that fires, or |rules| when none does. */
  function FirstFiringRule(rules: seq<ModelFailoverRule>, requestKey: string): (i: nat)
    ensures i <= |rules|
    ensures forall j :: 0 <= j < i ==> !RuleFires(rules[j], requestKey)
    ensures i < |rules| ==> RuleFires(rules[i], requestKey)
  {
    if rules == [] then 0
    else if RuleFires(rules[0], requestKey) then 0
    else
      var i := FirstFiringRule(rules[1..], requestKey);
      assert forall j :: 1 <= j <= |rules[1..]| ==> rules[1..][j - 1] == rules[j];
      1 + i
  }

  /**
    The Claude failover target for one request: the trimmed target of the first rule, in
    list order, that fires for the normalised request key; otherwise the policy-wide target.
  */
  function ClaudeFailoverTargetModelFor(p: Option<APIKeyPolicy>, requestedModel: string): (r: (string, bool))
    ensures !ClaudeFailoverEnabled(p) ==> r == ("", false)
    ensures ClaudeFailoverEnabled(p) ==>
      var rules, key := p.value.failover.claude.rules, NormaliseModelKey(requestedModel);
      var i := FirstFiringRule(rules, key);
      if key != "" && i < |rules| then r == (TrimSpace(rules[i].targetModel), true)
      else r == ClaudeFailoverTargetModel(p)
    ensures r.1 <==> ClaudeFailoverEnabled(p)
    ensures r.1 ==> r.0 != "" && TrimSpace(r.0) == r.0
  {
    if !ClaudeFailoverEnabled(p) then ("", false)
    else
      var rules := p.value.failover.claude.rules;
      var key := NormaliseModelKey(requestedModel);
      var i := FirstFiringRule(rules, key);
      if key != "" && i < |rules| then
        TrimSpaceIdempotent(rules[i].targetModel);
        (TrimSpace(rules[i].targetModel), true)
      else ClaudeFailoverTargetModel(p)
  }

  /**
    A rule whose from-model is "*" and whose target is set catches every request with a
    non-blank model key, unless an earlier rule fires first.
  */
  lemma CatchAllRuleFires(rule: ModelFailoverRule, requestKey: string)
    requires ToLower(TrimSpace(rule.fromModel)) == "*" && TrimSpace(rule.targetModel) != ""
    requires requestKey != "" && IsNormalisedKey(requestKey)
    ensures RuleFires(rule, requestKey)
  {
    assert !IsBlank(requestKey);
    StarMatchesEverything(requestKey);
  }

  /** The position of the first policy whose trimmed key is key, or |ps| when there is none. */
  function PolicyIndex(ps: seq<APIKeyPolicy>, key: string): (i: nat)
    ensures i <= |ps|
    ensures forall j :: 0 <= j < i ==> TrimSpace(ps[j].apiKey) != key
    ensures i < |ps| ==> TrimSpace(ps[i].apiKey) == key
  {
    if ps == [] then 0
    else if TrimSpace(ps[0].apiKey) == key then 0
    else 1 + PolicyIndex(ps[1..], key)
  }

  /**
    The policy of a client key: none for a blank key, otherwise the first policy whose
    trimmed key equals the trimmed input. A nil configuration is the empty list.
  */
  function FindAPIKeyPolicy(ps: seq<APIKeyPolicy>, apiKey: string): (r: Option<APIKeyPolicy>)
    ensures IsBlank(apiKey) ==> r.None?
    ensures !IsBlank(apiKey) ==>
      (r.Some? <==> exists j :: 0 <= j < |ps| && TrimSpace(ps[j].apiKey) == TrimSpace(apiKey))
    ensures r.Some? ==> r.value == ps[PolicyIndex(ps, TrimSpace(apiKey))]
  {
    var key := TrimSpace(apiKey);
    if key == "" || |ps| == 0 then None
    else
      var i := PolicyIndex(ps, key);
      if i < |ps| then Some(ps[i]) else None
  }

  // ---------------------------------------------------------------------------------------
  // Sanitisation
  // ---------------------------------------------------------------------------------------

  /** The kept failover rules of a list: both fields trimmed, rules with a blank field dropped. */
  function CleanedRules(rules: seq<ModelFailoverRule>): (r: seq<ModelFailoverRule>)
    ensures |r| <= |rules|
    ensures forall j :: 0 <= j < |r| ==>
      r[j].fromModel != "" && r[j].targetModel != ""
      && TrimSpace(r[j].fromModel) == r[j].fromModel && TrimSpace(r[j].targetModel) == r[j].targetModel
    ensures |rules| == 1 ==>
      var rule := ModelFailoverRule(TrimSpace(rules[0].fromModel), TrimSpace(rules[0].targetModel));
      r == if rule.fromModel == "" || rule.targetModel == "" then [] else [rule]
  {
    if rules == [] then []
    else
      var rest := CleanedRules(rules[..|rules| - 1]);
      var last := rules[|rules| - 1];
      var rule := ModelFailoverRule(TrimSpace(last.fromModel), TrimSpace(last.targetModel));
      if rule.fromModel == "" || rule.targetModel == "" then rest
      else
        TrimSpaceIdempotent(last.fromModel);
        TrimSpaceIdempotent(last.targetModel);
        rest + [rule]
  }

  /** A non-empty b is its prefix followed by its last element, also after a. */
  lemma SplitLast<T>(a: seq<T>, b: seq<T>)
    requires b != []
    ensures b == b[..|b| - 1] + [b[|b| - 1]]
    ensures a + b == (a + b[..|b| - 1]) + [b[|b| - 1]]
  {
  }

  /** Concatenation associates. */
  lemma AppendAssociates<T>(x: seq<T>, y: seq<T>, z: seq<T>)
    ensures (x + y) + z == x + (y + z)
  {
  }

  /** Appending one rule appends its cleaned form, or nothing when a trimmed field is blank. */
  lemma CleanedRulesSnoc(rules: seq<ModelFailoverRule>, x: ModelFailoverRule)
    ensures CleanedRules(rules + [x]) == CleanedRules(rules) + CleanedRules([x])
  {
    assert (rules + [x])[..|rules + [x]| - 1] == rules;
  }

  /** Cleaning works rule by rule: the kept rules of a + b are those of a, then those of b. */
  lemma {:induction false} CleanedRulesOfConcat(a: seq<ModelFailoverRule>, b: seq<ModelFailoverRule>)
    ensures CleanedRules(a + b) == CleanedRules(a) + CleanedRules(b)
  {
    if b == [] {
      assert a + b == a;
    } else {
      var init, last := b[..|b| - 1], b[|b| - 1];
      CleanedRulesOfConcat(a, init);
      SplitLast(a, b);
      CleanedRulesSnoc(a + init, last);
      CleanedRulesSnoc(init, last);
      AppendAssociates(CleanedRules(a), CleanedRules(init), CleanedRules([last]));
    }
  }

  /** Cleaning a cleaned rule list changes nothing. */
  lemma {:induction false} CleanedRulesIdempotent(rules: seq<ModelFailoverRule>)
    ensures CleanedRules(CleanedRules(rules)) == CleanedRules(rules)
  {
    if rules != [] {
      var rest := CleanedRules(rules[..|rules| - 1]);
      CleanedRulesIdempotent(rules[..|rules| - 1]);
      var last := rules[|rules| - 1];
      TrimSpaceIdempotent(last.fromModel);
      TrimSpaceIdempotent(last.targetModel);
      var r := CleanedRules(rules);
      if r != rest {
        assert r[..|r| - 1] == rest;
      }
    }
  }

  /** The canonical form of a daily-limit key: trimmed and lowercased. */
  function LimitKey(modelID: string): string {
    ToLower(TrimSpace(modelID))
  }

  /** A daily-limit entry survives sanitisation when its key is not blank and its limit positive. */
  predicate KeptLimit(limits: map<string, int>, modelID: string) {
    modelID in limits && LimitKey(modelID) != "" && limits[modelID] > 0
  }

  /**
    `n` is what the cleanup loop has built after visiting the keys in `done`: one entry per
    canonical key of a kept entry, each holding the limit of some kept entry with that
    canonical key (when two keys collide, which one wins depends on map iteration order).
  */
  ghost predicate CleanedLimitsFrom(limits: map<string, int>, done: set<string>, n: map<string, int>) {
    (forall m :: m in n ==>
      exists k :: k in done && KeptLimit(limits, k) && LimitKey(k) == m && limits[k] == n[m])
    && (forall k :: k in done && KeptLimit(limits, k) ==> LimitKey(k) in n)
  }

  ghost predicate CleanedLimits(limits: map<string, int>, n: map<string, int>) {
    CleanedLimitsFrom(limits, limits.Keys, n)
  }

  /** Every sanitised limit is positive and its key is non-blank, trimmed and lowercase. */
  lemma CleanedLimitsAreCanonical(limits: map<string, int>, n: map<string, int>)
    requires CleanedLimits(limits, n)
    ensures forall m :: m in n ==> m != "" && n[m] > 0 && LimitKey(m) == m
  {
    forall m | m in n
      ensures m != "" && n[m] > 0 && LimitKey(m) == m
    {
      var k :| k in limits && KeptLimit(limits, k) && LimitKey(k) == m && limits[k] == n[m];
      LowerTrimCommute(TrimSpace(k));
      TrimSpaceIdempotent(k);
      ToLowerIdempotent(TrimSpace(k));
    }
  }

  /** Without colliding keys the sanitised limits are determined: each kept limit under its canonical key. */
  lemma CleanedLimitsWithoutCollisions(limits: map<string, int>, n: map<string, int>)
    requires CleanedLimits(limits, n)
    requires forall a, b :: KeptLimit(limits, a) && KeptLimit(limits, b) && LimitKey(a) == LimitKey(b) ==> a == b
    ensures forall k :: KeptLimit(limits, k) ==> LimitKey(k) in n && n[LimitKey(k)] == limits[k]
  {
  }

  /** Drops blank and non-positive daily limits and canonicalises the keys of the rest. */
  method NormalizeLimits(limits: map<string, int>) returns (normalized: map<string, int>)
    ensures CleanedLimits(limits, normalized)
  {
    normalized := map[];
    var todo := limits.Keys;
    while todo != {}
      invariant todo <= limits.Keys
      invariant CleanedLimitsFrom(limits, limits.Keys - todo, normalized)
      decreases |todo|
    {
      var modelID :| modelID in todo;
      var m := LimitKey(modelID);
      if m != "" && limits[modelID] > 0 {
        normalized := normalized[m := limits[modelID]];
      }
      todo := todo - {modelID};
    }
  }

  /** Removes failover rules with a blank from-model or target and trims the kept ones. */
  method SanitizeRules(rules: seq<ModelFailoverRule>) returns (out: seq<ModelFailoverRule>)
    ensures out == CleanedRules(rules)
  {
    out := [];
    var i := 0;
    while i < |rules|
      invariant 0 <= i <= |rules|
      invariant out == CleanedRules(rules[..i])
    {
      assert rules[..i + 1][..i] == rules[..i];
      var rule := ModelFailoverRule(TrimSpace(rules[i].fromModel), TrimSpace(rules[i].targetModel));
      if rule.fromModel != "" && rule.targetModel != "" {
        out := out + [rule];
      }
      i := i + 1;
    }
    assert rules[..|rules|] == rules;
  }

  /**
    `c` is `e` sanitised: key and failover target trimmed, excluded models normalised by the
    configuration's normaliser, failover rules and daily limits cleaned, and a non-positive
    budget set to 0; the opus flag is kept.
  */
  ghost predicate CleanedEntry(e: APIKeyPolicy, c: APIKeyPolicy, normalizeExcluded: seq<string> -> seq<string>) {
    c.apiKey == TrimSpace(e.apiKey)
    && c.excludedModels == normalizeExcluded(e.excludedModels)
    && c.failover.claude == ProviderFailoverPolicy(
         e.failover.claude.enabled, TrimSpace(e.failover.claude.targetModel),
         CleanedRules(e.failover.claude.rules))
    && c.allowClaudeOpus46 == e.allowClaudeOpus46
    && CleanedLimits(e.dailyLimits, c.dailyLimits)
    && c.dailyBudgetMicroUSD == (if e.dailyBudgetMicroUSD <= 0 then 0 else e.dailyBudgetMicroUSD)
  }

  /** Sanitises one policy entry. */
  method CleanEntry(e: APIKeyPolicy, normalizeExcluded: seq<string> -> seq<string>) returns (c: APIKeyPolicy)
    ensures CleanedEntry(e, c, normalizeExcluded)
  {
    var rules := e.failover.claude.rules;
    if |rules| > 0 {
      rules := SanitizeRules(rules);
    }
    var limits := e.dailyLimits;
    if |limits| > 0 {
      limits := NormalizeLimits(limits);
    }
    var budget := if e.dailyBudgetMicroUSD <= 0 then 0 else e.dailyBudgetMicroUSD;
    var claude := e.failover.claude.(targetModel := TrimSpace(e.failover.claude.targetModel), rules := rules);
    c := e.(apiKey := TrimSpace(e.apiKey), excludedModels := normalizeExcluded(e.excludedModels),
            failover := APIKeyFailoverPolicy(claude), dailyLimits := limits, dailyBudgetMicroUSD := budget);
  }

  /** The distinct non-blank trimmed keys of the first n policies, in order of first occurrence. */
  function KeysUpTo(ps: seq<APIKeyPolicy>, n: nat): (r: seq<string>)
    requires n <= |ps|
    ensures forall a, b :: 0 <= a < b < |r| ==> r[a] != r[b]
    ensures forall k :: k in r <==> k != "" && exists i :: 0 <= i < n && TrimSpace(ps[i].apiKey) == k
  {
    if n == 0 then []
    else
      var keys := KeysUpTo(ps, n - 1);
      var k := TrimSpace(ps[n - 1].apiKey);
      if k == "" || k in keys then keys else keys + [k]
  }

  /** The position of the last of the first n policies whose trimmed key is k, or -1. */
  function LastIndexUpTo(ps: seq<APIKeyPolicy>, n: nat, k: string): (r: int)
    requires n <= |ps|
    ensures -1 <= r < n
    ensures r >= 0 ==> TrimSpace(ps[r].apiKey) == k
    ensures forall i :: r < i < n ==> TrimSpace(ps[i].apiKey) != k
  {
    if n == 0 then -1
    else if TrimSpace(ps[n - 1].apiKey) == k then n - 1
    else LastIndexUpTo(ps, n - 1, k)
  }

  /**
    `after` is the first n policies of `before` sanitised: one slot per distinct non-blank
    trimmed key, in order of first occurrence, holding the last entry with that key, cleaned.
  */
  ghost predicate SanitizedUpTo(before: seq<APIKeyPolicy>, n: nat, after: seq<APIKeyPolicy>,
                                normalizeExcluded: seq<string> -> seq<string>)
    requires n <= |before|
  {
    var keys := KeysUpTo(before, n);
    |after| == |keys|
    && forall j :: 0 <= j < |after| ==>
         var last := LastIndexUpTo(before, n, keys[j]);
         0 <= last && CleanedEntry(before[last], after[j], normalizeExcluded)
  }

  /** A policy with a blank key is skipped. */
  lemma SanitizeSkipsBlank(ps: seq<APIKeyPolicy>, i: nat, out: seq<APIKeyPolicy>,
                           f: seq<string> -> seq<string>)
    requires i < |ps| && SanitizedUpTo(ps, i, out, f) && TrimSpace(ps[i].apiKey) == ""
    ensures KeysUpTo(ps, i + 1) == KeysUpTo(ps, i)
    ensures SanitizedUpTo(ps, i + 1, out, f)
  {
    var keys := KeysUpTo(ps, i);
    assert KeysUpTo(ps, i + 1) == keys;
    forall j | 0 <= j < |out|
      ensures LastIndexUpTo(ps, i + 1, keys[j]) == LastIndexUpTo(ps, i, keys[j])
    {
      assert keys[j] in keys;
    }
  }

  /** A policy whose key was seen before replaces the earlier entry in its slot. */
  lemma SanitizeReplacesDuplicate(ps: seq<APIKeyPolicy>, i: nat, out: seq<APIKeyPolicy>,
                                  f: seq<string> -> seq<string>, slot: nat, entry: APIKeyPolicy)
    requires i < |ps| && SanitizedUpTo(ps, i, out, f)
    requires slot < |KeysUpTo(ps, i)| && KeysUpTo(ps, i)[slot] == TrimSpace(ps[i].apiKey)
    requires CleanedEntry(ps[i], entry, f)
    ensures KeysUpTo(ps, i + 1) == KeysUpTo(ps, i)
    ensures SanitizedUpTo(ps, i + 1, out[slot := entry], f)
  {
    var keys := KeysUpTo(ps, i);
    assert keys[slot] in keys;
    assert KeysUpTo(ps, i + 1) == keys;
    forall j | 0 <= j < |out| && j != slot
      ensures LastIndexUpTo(ps, i + 1, keys[j]) == LastIndexUpTo(ps, i, keys[j])
    {
    }
  }

  /** A policy with a new key is appended. */
  lemma SanitizeAppendsNewKey(ps: seq<APIKeyPolicy>, i: nat, out: seq<APIKeyPolicy>,
                              f: seq<string> -> seq<string>, entry: APIKeyPolicy)
    requires i < |ps| && SanitizedUpTo(ps, i, out, f)
    requires TrimSpace(ps[i].apiKey) != "" && TrimSpace(ps[i].apiKey) !in KeysUpTo(ps, i)
    requires CleanedEntry(ps[i], entry, f)
    ensures KeysUpTo(ps, i + 1) == KeysUpTo(ps, i) + [TrimSpace(ps[i].apiKey)]
    ensures SanitizedUpTo(ps, i + 1, out + [entry], f)
  {
    var keys := KeysUpTo(ps, i);
    assert KeysUpTo(ps, i + 1) == keys + [TrimSpace(ps[i].apiKey)];
    forall j | 0 <= j < |out|
      ensures LastIndexUpTo(ps, i + 1, keys[j]) == LastIndexUpTo(ps, i, keys[j])
    {
      assert keys[j] in keys;
    }
  }

  ghost predicate Sanitized(before: seq<APIKeyPolicy>, after: seq<APIKeyPolicy>,
                            normalizeExcluded: seq<string> -> seq<string>)
  {
    SanitizedUpTo(before, |before|, after, normalizeExcluded)
  }

  /**
    After sanitisation every key is non-blank and trimmed, no two policies share a key, and
    the policies keep the order in which their keys first appeared.
  */
  lemma SanitizedKeysUnique(before: seq<APIKeyPolicy>, after: seq<APIKeyPolicy>,
                            normalizeExcluded: seq<string> -> seq<string>)
    requires Sanitized(before, after, normalizeExcluded)
    ensures forall j :: 0 <= j < |after| ==> after[j].apiKey == KeysUpTo(before, |before|)[j]
    ensures forall j :: 0 <= j < |after| ==> after[j].apiKey != "" && TrimSpace(after[j].apiKey) == after[j].apiKey
    ensures forall a, b :: 0 <= a < b < |after| ==> after[a].apiKey != after[b].apiKey
  {
    var keys := KeysUpTo(before, |before|);
    forall j | 0 <= j < |after|
      ensures after[j].apiKey == keys[j]
      ensures after[j].apiKey != "" && TrimSpace(after[j].apiKey) == after[j].apiKey
    {
      var last := LastIndexUpTo(before, |before|, keys[j]);
      assert keys[j] in keys;
      TrimSpaceIdempotent(before[last].apiKey);
    }
  }

  /**
    Looking a key up after sanitisation finds exactly the keys that some policy had before,
    and yields the last such policy, cleaned.
  */
  lemma SanitizedLookupFindsLast(before: seq<APIKeyPolicy>, after: seq<APIKeyPolicy>,
                                 normalizeExcluded: seq<string> -> seq<string>, apiKey: string)
    requires Sanitized(before, after, normalizeExcluded) && !IsBlank(apiKey)
    ensures var key := TrimSpace(apiKey);
      var r := FindAPIKeyPolicy(after, apiKey);
      (r.Some? <==> exists i :: 0 <= i < |before| && TrimSpace(before[i].apiKey) == key)
      && (r.Some? ==>
            var last := LastIndexUpTo(before, |before|, key);
            0 <= last && CleanedEntry(before[last], r.value, normalizeExcluded))
  {
    var key := TrimSpace(apiKey);
    var keys := KeysUpTo(before, |before|);
    SanitizedKeysUnique(before, after, normalizeExcluded);
    var r := FindAPIKeyPolicy(after, apiKey);
    if r.Some? {
      var j := PolicyIndex(after, key);
      TrimSpaceIdempotent(after[j].apiKey);
      assert keys[j] == key;
    }
    if exists i :: 0 <= i < |before| && TrimSpace(before[i].apiKey) == key {
      assert key in keys;
      var j :| 0 <= j < |keys| && keys[j] == key;
      TrimSpaceIdempotent(after[j].apiKey);
      assert TrimSpace(after[j].apiKey) == key;
    }
  }

  /** The part of the configuration that holds the per-key policies. */
  class Config {
    var apiKeyPolicies: seq<APIKeyPolicy>

    constructor (policies: seq<APIKeyPolicy>)
      ensures apiKeyPolicies == policies
    {
      apiKeyPolicies := policies;
    }

    /**
      Trims keys, normalises excluded models, drops invalid rules and limits and merges
      duplicate keys: a later duplicate replaces the earlier one in the earlier slot.
    */
    method SanitizeAPIKeyPolicies(normalizeExcluded: seq<string> -> seq<string>)
      modifies this
      ensures Sanitized(old(apiKeyPolicies), apiKeyPolicies, normalizeExcluded)
    {
      var ps := apiKeyPolicies;
      if |ps| == 0 {
        return;
      }
      var seen: map<string, nat> := map[];
      var out: seq<APIKeyPolicy> := [];
      var i := 0;
      while i < |ps|
        invariant 0 <= i <= |ps|
        invariant SanitizedUpTo(ps, i, out, normalizeExcluded)
        invariant forall k :: k in seen <==> k in KeysUpTo(ps, i)
        invariant forall k :: k in seen ==> seen[k] < |out| && KeysUpTo(ps, i)[seen[k]] == k
      {
        var key := TrimSpace(ps[i].apiKey);
        if key == "" {
          SanitizeSkipsBlank(ps, i, out, normalizeExcluded);
        } else {
          var entry := CleanEntry(ps[i], normalizeExcluded);
          if key in seen {
            SanitizeReplacesDuplicate(ps, i, out, normalizeExcluded, seen[key], entry);
            out := out[seen[key] := entry];
          } else {
            SanitizeAppendsNewKey(ps, i, out, normalizeExcluded, entry);
            seen := seen[key := |out|];
            out := out + [entry];
          }
        }
        i := i + 1;
      }
      apiKeyPolicies := out;
    }
  }
}
