# CLIProxyAPI policy and billing core in Dafny

CLIProxyAPI is an API proxy. It sits in front of several model providers: Claude, Codex, Gemini and others. Each client key can carry a policy:

- excluded models, matched with `*` wildcards;
- a ban on claude-opus-4-6, which transparently downgrades the request to claude-opus-4-5-20251101;
- per-model daily request limits;
- a daily spending budget;
- Claude failover to another model.

Every finished request is priced in integer micro-USD per million tokens and added to per-day usage counters. A small Python script queries Claude OAuth usage through the proxy's management API.

This project models that core in Dafny and proves its contracts:

- `policy_model.dfy` (`PolicyModel`): model-key normalisation, the opus-4-6 downgrade, the wildcard matcher and the `-thinking` variant. These are pure string functions.
- `daily_limiter.dfy` (`DailyLimiter`): the daily request limiter. It is a class whose counter table is a map that `Consume` updates with a conditional upsert.
- `api_key_config.dfy` (`ApiKeyConfig`): policy accessors, failover-target resolution, policy lookup and `SanitizeAPIKeyPolicies`. The last is an imperative loop on a `Config` object.
- `policy_middleware.dfy` (`PolicyMiddleware`): the enforcement middleware.
  - The fixed order of checks (budget, downgrade, exclusions, daily limit, body rewrite) is a decision function over the limiter's counter table.
  - Methods run the same steps on the limiter object.
- `policy_management.dfy` (`PolicyManagement`): the PUT, PATCH and DELETE handlers. Each edits the policy list in place and then sanitises it.
- `billing_types.dfy` (`BillingTypes`): the billing value types, the built-in price table and integer cost rounding.
- `billing_store.dfy` (`BillingStore`): the price and usage tables as maps in a `SQLiteStore` class.
  - Operations: price upsert, delete, resolution and listing; usage accumulation; daily cost; daily report.
- `usage_persist.dfy` (`UsagePersist`): turning a usage record into a priced delta and booking it.
- `handlers.dfy` (`Handlers`): the SDK handler helpers.
  - Error-body building and failover eligibility.
  - Provider routing and retry/keep-alive settings.
  - The response-log append and the non-streaming failover decision.
- `usage_script.dfy` (`UsageScript`): the usage script's data shaping.
  - Field-synonym probing and auth-files unwrapping.
  - Index selectors and entry selection.
  - Envelope body unwrapping and summary ordering.
- `strings.dfy`, `json.dfy`, `http.dfy` and `wrappers.dfy` are support modules.
  - They hold Go/Python string operations (`strings.TrimSpace`, `ToLower`, `Split`, `str.rstrip`, byte-wise ordering, sorting).
  - They also hold a JSON value type, HTTP status constants and Option/Result.

Collaborators the core calls but that are not part of this model are parameters:

- JSON validation and decoding: a partial `parse` function.
- The auth manager's executor.
- The model registry.
- `config.NormalizeExcludedModels`.
- The cost reader.
- The clock: the day key and timestamps.

## Model

| member | source | states |
|---|---|---|
| PolicyModel.ParseSuffix | internal/policy/model.go:17 | splits a trailing "(raw)" off a name exactly when the name contains "(" and ends in ")", the raw part being after the last "("; otherwise the name is returned whole with no suffix |
| PolicyModel.ParseSuffixOfBuilt | internal/policy/model.go:28 | parsing base + "(" + raw + ")" with no "(" in raw gives back base and raw |
| PolicyModel.LastIndexOfChar | internal/policy/model.go:17 | the position of the last occurrence of a character, -1 exactly when it does not occur |
| PolicyModel.ParseSuffixKeepsPrefix | internal/policy/model.go:17-18 | a "("-free prefix of a name is still a prefix of the parsed model name |
| PolicyModel.NormaliseModelKey | internal/policy/model.go:16-19 | the key is trimmed and contains no upper-case letter |
| PolicyModel.NormaliseDropsSuffix | internal/policy/model.go:16-19 | the key of base + "(raw)" is the lowercased trimmed base, e.g. "claude-opus-4-6(8192)" gives "claude-opus-4-6" |
| PolicyModel.NormalisePlainKey | internal/policy/model.go:16-19 | a trimmed lowercase name without "(" is its own key |
| PolicyModel.NormaliseKeepsPrefix | internal/policy/model.go:16-19 | a lowercase, "("-free prefix of a name survives normalisation |
| PolicyModel.DowngradeClaudeOpus46 | internal/policy/model.go:23-46 | the changed flag equals IsClaudeOpus46 of the input; when unchanged the input comes back exactly; when changed the result is claude-opus-4-5-20251101 + the remainder of the base after the 15-character prefix + "(raw)" when the input had a suffix |
| PolicyModel.IsClaudeOpus46 | internal/policy/model.go:48-51 | every name spelled with the claude-opus-4-6 prefix is a claude-opus-4-6 variant |
| PolicyModel.Opus46IgnoresBudget | internal/policy/model.go:48-51 | with a "(budget)" suffix, a name is a claude-opus-4-6 variant exactly when its trimmed, lowercased base starts with claude-opus-4-6 |
| PolicyModel.DowngradeStartsWithFallback | internal/policy/model.go:41-45 | a downgraded name starts with claude-opus-4-5-20251101 |
| PolicyModel.DowngradeLandsOnFallback | internal/policy/model.go:23-51 | a downgraded name's key starts with claude-opus-4-5-20251101, it is no longer an opus-4-6 model, and downgrading it again changes nothing |
| PolicyModel.FallbackNameHasFallbackKey | internal/policy/model.go:16-19 | any name starting with claude-opus-4-5-20251101 has a key starting with it |
| PolicyModel.FallbackKeyIsNotOpus46 | internal/policy/model.go:49-51 | a name whose key starts with the fallback prefix is not an opus-4-6 model |
| PolicyModel.NotOpus46IsKept | internal/policy/model.go:24-33 | a model that is not an opus-4-6 model is returned unchanged with changed=false |
| PolicyModel.FallbackIsNotOpus46 | internal/policy/model.go:10-11 | no key starts with both claude-opus-4-5-20251101 and claude-opus-4-6 |
| PolicyModel.MatchSegmentsIsInOrder | internal/policy/model.go:78-88 | the leftmost-first segment search succeeds exactly when the segments occur in the value in order without overlapping |
| PolicyModel.LeftmostOccurrenceSuffices | internal/policy/model.go:83-87 | advancing past the leftmost occurrence of a segment loses no in-order match |
| PolicyModel.EmptySegmentInOrder | internal/policy/model.go:80-82 | an empty middle segment constrains nothing |
| PolicyModel.MatchWildcard | internal/policy/model.go:55-90 | false for a blank pattern or value; without "*" true exactly when the trimmed lowercased pattern and value are equal |
| PolicyModel.MatchAroundStarsMeaning | internal/policy/model.go:65-89 | with stars, matching holds exactly when the value starts with the first segment, ends with the last, and has the middle segments in order in between, non-overlapping |
| PolicyModel.MatchWildcardUnfold | internal/policy/model.go:61-65 | a pattern with "*" is matched around the stars of its split |
| PolicyModel.MatchWildcardSegments | internal/policy/model.go:65-89 | the full prefix/suffix/in-order characterisation of a starred pattern in terms of the pattern and value given |
| PolicyModel.StarMatchesEverything | internal/policy/model.go:55-90 | the pattern "*" matches every non-blank value |
| PolicyModel.StripThinkingVariant | internal/policy/model.go:94-97 | the result is the lowercased trimmed key with one trailing "-thinking" removed, and the key itself when it has none |
| PolicyModel.ThinkingVariantSharesBase | internal/policy/model.go:94-97 | for a normalised key k without "-thinking", k + "-thinking" and k both strip to k |
| PolicyModel.TrimAppendedSuffix | internal/policy/model.go:95-96 | a plain lowercase suffix appended to a normalised key is trimmed off again exactly |
| DailyLimiter.UpsertBelowLimit | internal/policy/sqlite_daily_limiter.go:115-131 | the upsert allows exactly when the stored count (0 for no row) is below the limit, then raising that one counter by one and returning the new count; otherwise the table is unchanged and the answer is (limit, false) |
| DailyLimiter.ConsumeStep | internal/policy/sqlite_daily_limiter.go:99-132 | a blank trimmed key, model or day is an error with no change; a limit of 0 or less gives (0, false) with no change; otherwise the request is allowed exactly when the trimmed, lowercased key's count is below the limit, raising only that counter by one and returning it, and a denial answers (limit, false) with no change |
| DailyLimiter.UpsertBounds | internal/policy/sqlite_daily_limiter.go:115-121 | after an upsert the counter never exceeds the limit and every other counter is untouched |
| DailyLimiter.ConsumeSharesCaseVariants | internal/policy/sqlite_daily_limiter.go:104 | model names that differ only in case or outer whitespace address the same counter |
| DailyLimiter.UpsertLimitTwo | internal/policy/sqlite_daily_limiter_test.go:23-31 | with limit 2 and no row, three calls give counts 1 and 2 and then a denial, with the stored count left at 2 |
| DailyLimiter.SQLiteDailyLimiter.constructor | internal/policy/sqlite_daily_limiter.go:33-68 | a limiter opened over a new, empty database file holds no counters |
| DailyLimiter.SQLiteDailyLimiter.Consume | internal/policy/sqlite_daily_limiter.go:97-132 | the new table and the result are ConsumeStep of the old table |
| ApiKeyConfig.AllowsClaudeOpus46 | internal/config/api_key_policies.go:63-68 | false exactly when a policy exists and sets the flag to false |
| ApiKeyConfig.ClaudeFailoverTargetModel | internal/config/api_key_policies.go:73-85 | ("", false) unless a policy exists with Claude failover enabled; then the trimmed target, or "gpt-5.2(high)" when that is blank |
| ApiKeyConfig.FirstFiringRule | internal/config/api_key_policies.go:99-112 | the first rule in list order whose lowercased non-blank from-model wildcard-matches the key and whose target is non-blank |
| ApiKeyConfig.ClaudeFailoverTargetModelFor | internal/config/api_key_policies.go:89-116 | ("", false) when failover is off; otherwise the trimmed target of the first firing rule for the normalised request key, else the fallback target |
| ApiKeyConfig.CatchAllRuleFires | internal/config/api_key_policies.go:100-111 | a "*" rule with a target fires for every non-blank key |
| ApiKeyConfig.PolicyIndex | internal/config/api_key_policies.go:128-133 | the first position whose trimmed key equals the key, or the list length |
| ApiKeyConfig.FindAPIKeyPolicy | internal/config/api_key_policies.go:120-134 | none for a blank key; otherwise the first policy whose trimmed key equals the trimmed input, none when there is no such policy |
| ApiKeyConfig.CleanedRules | internal/config/api_key_policies.go:159-170 | no more rules than given, each with both fields trimmed and non-blank; a single rule is kept, trimmed, exactly when neither trimmed field is blank |
| ApiKeyConfig.CleanedRulesOfConcat | internal/config/api_key_policies.go:159-170 | the kept rules of a + b are those of a followed by those of b, so every rule with non-blank trimmed fields is kept in order |
| ApiKeyConfig.CleanedRulesIdempotent | internal/config/api_key_policies.go:159-170 | cleaning the rules twice is cleaning them once |
| ApiKeyConfig.CleanedLimitsAreCanonical | internal/config/api_key_policies.go:172-189 | every sanitised limit is positive under a non-blank, trimmed, lowercase key |
| ApiKeyConfig.CleanedLimitsWithoutCollisions | internal/config/api_key_policies.go:174-183 | without two kept keys that collide after lowercasing, each kept limit appears under its canonical key |
| ApiKeyConfig.NormalizeLimits | internal/config/api_key_policies.go:172-189 | the result holds exactly the canonical keys of kept limits, each with the limit of one of its source keys |
| ApiKeyConfig.SanitizeRules | internal/config/api_key_policies.go:159-170 | the loop's output is CleanedRules of the input |
| ApiKeyConfig.CleanEntry | internal/config/api_key_policies.go:149-193 | the entry with trimmed key, normalised exclusions, trimmed failover target, cleaned rules and limits, and a non-positive budget set to 0 |
| ApiKeyConfig.KeysUpTo | internal/config/api_key_policies.go:195-201 | the non-blank trimmed keys of a list prefix, each exactly once |
| ApiKeyConfig.LastIndexUpTo | internal/config/api_key_policies.go:196-197 | the last position in a list prefix holding a key |
| ApiKeyConfig.SanitizeSkipsBlank | internal/config/api_key_policies.go:150-153 | a blank-key policy leaves the output and the seen keys unchanged |
| ApiKeyConfig.SanitizeReplacesDuplicate | internal/config/api_key_policies.go:195-198 | a policy whose key was seen replaces the earlier entry in its slot |
| ApiKeyConfig.SanitizeAppendsNewKey | internal/config/api_key_policies.go:200-201 | a policy with a new key is appended |
| ApiKeyConfig.SanitizedKeysUnique | internal/config/api_key_policies.go:148-204 | the sanitised list holds, slot by slot, the distinct non-blank trimmed keys of the input, so no key appears twice |
| ApiKeyConfig.SanitizedLookupFindsLast | internal/config/api_key_policies.go:120-205 | after sanitising, a key is found exactly when some policy had it, and the policy found is the last one with it, cleaned |
| ApiKeyConfig.Config.SanitizeAPIKeyPolicies | internal/config/api_key_policies.go:137-205 | the new list stands in the sanitised relation to the old one: one cleaned entry per key, first-occurrence order, last duplicate wins |
| PolicyMiddleware.ResolveDailyLimit | internal/api/middleware/api_key_policy.go:167-185 | the exact lowercased key's positive limit; else, for a "-thinking" key, the base key's positive limit reported under the base key; else (0, "") |
| PolicyMiddleware.ThinkingSharesBaseLimit | internal/api/middleware/api_key_policy.go:178-182 | a "-thinking" model with no limit of its own uses its base model's limit and counter key |
| PolicyMiddleware.BodyModelHasField | internal/api/middleware/api_key_policy.go:93-97 | a non-blank body model means the body is an object with a "model" field |
| PolicyMiddleware.IsSkippedMethod | internal/api/middleware/api_key_policy.go:54-60 | only the exact, upper-case method names GET, HEAD and OPTIONS skip the checks; a lower-case spelling does not |
| PolicyMiddleware.SkippedMethodPassesUntouched | internal/api/middleware/api_key_policy.go:54-60 | a GET, HEAD or OPTIONS request passes with its body and every counter unchanged, whatever the configuration, key and policy |
| PolicyMiddleware.BodyModel | internal/api/middleware/api_key_policy.go:93 | the body model is trimmed; it is empty without a body or a "model" field, and a string field gives its trimmed text |
| PolicyMiddleware.Denied | internal/api/middleware/api_key_policy.go:109-118 | a denial needs a policy and a model whose normalised key is not blank |
| PolicyMiddleware.ExcludedStarDeniesEveryModel | internal/api/middleware/api_key_policy.go:109-118 | an excluded "*" denies every model whose normalised key is not blank |
| PolicyMiddleware.BudgetVerdict | internal/api/middleware/api_key_policy.go:61-84 | with a positive budget, a missing or failing cost reader gives 500 and a spend at or over the budget gives 429 "daily budget exceeded"; otherwise no verdict |
| PolicyMiddleware.EffectiveModel | internal/api/middleware/api_key_policy.go:99-106 | the body model, downgraded when the key may not use opus-4-6, so it is then never an opus-4-6 model |
| PolicyMiddleware.LimitVerdict | internal/api/middleware/api_key_policy.go:126-152 | no verdict and no change without a positive limit; with one, a missing limiter gives 500 "daily limiter unavailable", invalid counter inputs give the limiter's 500, and otherwise the request passes exactly when its counter is below the limit, raising only that counter by one, and is answered 429 "daily model limit exceeded" with no change when it is not; a rejection changes no counter |
| PolicyMiddleware.ForwardedBody | internal/api/middleware/api_key_policy.go:154-161 | the body is forwarded as it is unless the model changed, in which case only its "model" field holds the effective model |
| PolicyMiddleware.CheckModel | internal/api/middleware/api_key_policy.go:93-161 | a body without a model passes as it is; the request is rejected with 403 "model access denied" exactly when the effective (possibly downgraded) model matches an excluded pattern, before the daily limit is consulted; a rejection (403, 429 or 500) leaves the counters unchanged |
| PolicyMiddleware.CheckModelReachesLimit | internal/api/middleware/api_key_policy.go:126-161 | a request with a model that is not excluded is decided by the daily limit and then forwarded (LimitThenForward) |
| PolicyMiddleware.CheckModelForwardsDowngrade | internal/api/middleware/api_key_policy.go:101-161 | for a key that may not use claude-opus-4-6, a claude-opus-4-6 request that passes is forwarded with the downgraded model in its body |
| PolicyMiddleware.CheckPolicy | internal/api/middleware/api_key_policy.go:61-161 | a budget verdict (500 or 429) is the outcome before the model is looked at, with no counter moved; without one, an excluded model gets 403; a rejection has one of the three statuses and changes no counter |
| PolicyMiddleware.LimitThenForward | internal/api/middleware/api_key_policy.go:126-163 | the counters are LimitVerdict's; the request passes exactly when LimitVerdict gives no verdict, and is then forwarded with ForwardedBody of the effective model; otherwise LimitVerdict's rejection (429 or 500) is the outcome with the counters unchanged |
| PolicyMiddleware.Decide | internal/api/middleware/api_key_policy.go:27-164 | no configuration, a blank client key or GET/HEAD/OPTIONS passes the body untouched; otherwise, under the policy found for the trimmed key, a budget verdict is the outcome first, then an excluded model gets 403; a rejection changes no counter |
| PolicyMiddleware.DecideForwardsDowngrade | internal/api/middleware/api_key_policy.go:27-164 | through the whole middleware, a claude-opus-4-6 request of a key that may not use it is forwarded, when it passes, with the downgraded model in its body |
| PolicyMiddleware.CheckModelRewritesOnlyByDowngrade | internal/api/middleware/api_key_policy.go:99-161 | after the budget step, a forwarded body differs from the request only for a key that may not use opus-4-6, and then holds the downgraded model |
| PolicyMiddleware.OnlyTheDowngradeRewritesTheBody | internal/api/middleware/api_key_policy.go:99-161 | a forwarded body differs from the request only when the key may not use opus-4-6, and then its model is the downgraded one |
| PolicyMiddleware.DecideReachesLimit | internal/api/middleware/api_key_policy.go:61-152 | a request past the budget with a non-excluded model is decided by the daily-limit step on the downgraded model |
| PolicyMiddleware.LimitOfOneAtLimitStep | internal/api/middleware/api_key_policy.go:126-152 | with limit 1 and no counter, the limit step lets the first request through and answers the second 429 without a change |
| PolicyMiddleware.LimitOfOneAllowsOneRequest | internal/api/middleware/api_key_policy_test.go:78-122 | with limit 1 the first request through the whole middleware passes and the second gets 429 |
| PolicyMiddleware.AnyExcludedMatch | internal/api/middleware/api_key_policy.go:109-117 | the loop reports a denial exactly when some excluded pattern matches the model key |
| PolicyMiddleware.ApplyDailyLimit | internal/api/middleware/api_key_policy.go:126-152 | the limiter's new table and the verdict are LimitVerdict of the old table |
| PolicyMiddleware.CheckModelOn | internal/api/middleware/api_key_policy.go:93-161 | the limiter's new table and the outcome are CheckModel of the old table |
| PolicyMiddleware.APIKeyPolicyMiddleware | internal/api/middleware/api_key_policy.go:26-165 | the limiter's new table and the outcome are Decide of the old table |
| PolicyManagement.PutItems | internal/api/handlers/management/api_key_policies.go:32-42 | a bare array or an {"items": ...} object gives its list; anything else gives nothing |
| PolicyManagement.PutAPIKeyPolicies | internal/api/handlers/management/api_key_policies.go:20-47 | no config or an undecodable body gives 400 and no change; otherwise the list becomes the decoded list, sanitised |
| PolicyManagement.NewPolicy | internal/api/handlers/management/api_key_policies.go:85 | a new entry has only its key set |
| PolicyManagement.ApplyPatch | internal/api/handlers/management/api_key_policies.go:90-117 | each field present in the patch replaces the entry's field (key trimmed, exclusions normalised), every absent field is kept |
| PolicyManagement.EmptyPatchKeepsEntry | internal/api/handlers/management/api_key_policies.go:105-117 | a patch with no fields leaves the entry unchanged |
| PolicyManagement.PatchStep | internal/api/handlers/management/api_key_policies.go:66-123 | no body or value gives 400 "invalid body"; a blank key gives 400 "api-key is required"; a blank value.api-key removes the first matching entry, or gives 400 when none matches; otherwise the first matching entry is patched in its slot with the others unchanged, or a new entry is appended |
| PolicyManagement.PatchErrorsAreBadRequests | internal/api/handlers/management/api_key_policies.go:66-101 | every PATCH error is a 400 |
| PolicyManagement.FindTargetIndex | internal/api/handlers/management/api_key_policies.go:77-83 | the scan returns the first matching position, or -1 |
| PolicyManagement.PatchAPIKeyPolicies | internal/api/handlers/management/api_key_policies.go:49-126 | on success the list is PatchStep's list, sanitised; on error the reply is PatchStep's error and the list is unchanged |
| PolicyManagement.PatchedEntryIsLastOfItsKey | internal/api/handlers/management/api_key_policies.go:119-123 | on a list with distinct keys the patched entry is the last one with its key |
| PolicyManagement.PatchedEntryIsFound | internal/api/handlers/management/api_key_policies.go:119-125 | after a plain PATCH and sanitising, looking the key up finds the patched entry, cleaned |
| PolicyManagement.LookupFindsLastMatch | internal/config/api_key_policies.go:195-201 | the last policy with a key is the one found after sanitising |
| PolicyManagement.WithoutKey | internal/api/handlers/management/api_key_policies.go:139-145 | drops every policy whose trimmed key is the key and keeps every other one; shorter exactly when one matched; a single policy survives exactly when its key differs |
| PolicyManagement.WithoutKeyOfConcat | internal/api/handlers/management/api_key_policies.go:139-145 | the survivors of a + b are the survivors of a followed by those of b, so the original order is kept |
| PolicyManagement.DeleteKey | internal/api/handlers/management/api_key_policies.go:134-137 | the trimmed api-key parameter, else the trimmed apiKey parameter |
| PolicyManagement.DeleteStep | internal/api/handlers/management/api_key_policies.go:134-156 | no key gives 400; no match gives 404; otherwise the list without the key's policies |
| PolicyManagement.KeepOtherKeys | internal/api/handlers/management/api_key_policies.go:139-145 | the filter loop's output is WithoutKey |
| PolicyManagement.DeleteAPIKeyPolicies | internal/api/handlers/management/api_key_policies.go:128-157 | on success the list is the filtered list, sanitised; an error leaves it unchanged |
| PolicyManagement.DeletedKeyIsGone | internal/api/handlers/management/api_key_policies.go:139-152 | after a successful DELETE the key is no longer found |
| BillingTypes.DefaultPriceKeyIsNormalised | internal/billing/default_prices.go:7-9 | the built-in table's key is NormaliseModelKey("claude-opus-4-5-20251101"), a normalised key |
| BillingTypes.CostMicroUSD | internal/billing/cost.go:37-43 | 0 for non-positive tokens or price; otherwise tokens times price divided by one million, rounded half-up to the micro-USD |
| BillingTypes.CostMonotone | internal/billing/cost.go:37-43 | at a fixed price more tokens never cost less |
| BillingTypes.TwoTokensAtOneDollar | internal/billing/sqlite_store_test.go:65-84 | 2 tokens at 1,000,000 micro-USD per 1M cost 2 micro-USD |
| BillingTypes.Max64 | internal/billing/sqlite_store.go:378-383 | the larger of the two |
| BillingTypes.BoolToInt64 | internal/billing/usage_persist_plugin.go:75-80 | 1 exactly for true, else 0 |
| BillingStore.PriceCandidates | internal/billing/sqlite_store.go:177-203 | the key, then its thinking-stripped base when that is non-blank and different |
| BillingStore.FirstKeyIn | internal/billing/sqlite_store.go:183-203 | the first candidate present in a table, or the candidate count |
| BillingStore.ResolvePriceMicro | internal/billing/sqlite_store.go:176-180 | an error exactly when the normalised model is blank |
| BillingStore.ResolveTakesFirstCandidate | internal/billing/sqlite_store.go:176-205 | saved exact key, saved base key, default exact key, default base key, in that order, else a zero price marked "missing" |
| BillingStore.ResolveAfterUpsert | internal/billing/sqlite_store_test.go:34-47 | after saving a price for a model, resolving the model returns that price marked "saved" |
| BillingStore.DefaultModelResolvesToDefault | internal/billing/sqlite_store_test.go:23-32 | with no saved price, claude-opus-4-5-20251101 resolves to "default" with non-zero prompt and completion |
| BillingStore.ThinkingVariantUsesBasePrice | internal/billing/sqlite_store.go:188-193 | a thinking variant without a saved price takes its base model's saved price |
| BillingStore.PriceEntry | internal/billing/sqlite_store.go:225-251 | the listed line of a model, marked "saved" exactly when a price is saved for it, else "default" |
| BillingStore.SQLiteStore.constructor | internal/billing/sqlite_store.go:28-62 | a store opened over a new, empty database file is valid and holds no prices and no usage rows |
| BillingStore.ListedOnceMeaning | internal/billing/sqlite_store.go:239-258 | every line is a price entry, every default or saved model is listed, and no model is listed twice |
| BillingStore.ListedLineIsEntry | internal/billing/sqlite_store.go:239-258 | every listed line is the price entry of its model |
| BillingStore.EntryIsListed | internal/billing/sqlite_store.go:239-258 | every default or saved model has a listed line |
| BillingStore.AppendDefaultLines | internal/billing/sqlite_store.go:240-252 | the first loop lists each default model once, the saved line winning |
| BillingStore.AppendSavedOnlyLines | internal/billing/sqlite_store.go:253-258 | the second loop adds each saved-only model once, completing the list |
| BillingStore.SQLiteStore.ListModelPrices | internal/billing/sqlite_store.go:207-261 | each model of the union of default and saved keys once, saved winning, sorted ascending by model |
| BillingStore.SQLiteStore.UpsertModelPrice | internal/billing/sqlite_store.go:114-139 | a blank key or a negative component is an error with no change; otherwise the key's saved price is set (inserted or overwritten) |
| BillingStore.SQLiteStore.DeleteModelPrice | internal/billing/sqlite_store.go:141-155 | a blank key is an error; otherwise true exactly when a row existed, and only that row is removed |
| BillingStore.ZeroRow | internal/billing/sqlite_store.go:284 | the row started for a missing key carries that key |
| BillingStore.AddDelta | internal/billing/sqlite_store.go:285-298 | every counter rises by max(0, delta field), the row's key is kept and its timestamp is the new one |
| BillingStore.AddDeltaCommutes | internal/billing/sqlite_store.go:285-294 | two deltas added in either order give the same counters |
| BillingStore.SQLiteStore.AddUsage | internal/billing/sqlite_store.go:263-304 | a blank key, model or day or a negative request delta is an error with no change; otherwise only the (key, model, day) row changes, by AddDelta from its old value or zero |
| BillingStore.AddUsageRaisesDailyCost | internal/billing/sqlite_store.go:285-319 | adding a delta raises the day's summed cost for that key by the delta's clamped cost |
| BillingStore.DayKeys | internal/billing/sqlite_store.go:316-318 | exactly the rows of a key and day |
| BillingStore.SumOverRemove | internal/billing/sqlite_store.go:316 | a sum over rows is one row plus the sum over the others |
| BillingStore.SQLiteStore.GetDailyCostMicroUSD | internal/billing/sqlite_store.go:306-325 | an error for a blank key or day; otherwise the sum of cost over that key's rows for the day, 0 when there are none |
| BillingStore.LeastModel | internal/billing/sqlite_store.go:348 | a non-empty set of rows has one with the least model |
| BillingStore.AddRowKeepsTotals | internal/billing/sqlite_store.go:365-369 | adding a row keeps each total equal to the sum of its field over the rows |
| BillingStore.TakeLeastRow | internal/billing/sqlite_store.go:355-370 | taking the row of the least remaining model keeps the scan's invariant: the listed rows are strictly ascending and below every remaining model, and their sums plus the remaining sums are the day's sums |
| BillingStore.ScanDone | internal/billing/sqlite_store.go:371-375 | when no row remains, the rows are exactly the day's rows and the totals are their sums |
| BillingStore.SQLiteStore.GetDailyUsageReport | internal/billing/sqlite_store.go:327-376 | a blank key or day is an error with no rows; otherwise the rows of that key and day, each once, strictly ascending by model, with cost, request, failure and token totals equal to their sums |
| UsagePersist.BookedModel | internal/billing/usage_persist_plugin.go:28-31 | the normalised model, or "unknown" when that is empty |
| UsagePersist.TotalTokens | internal/billing/usage_persist_plugin.go:39-45 | a positive total is kept, a negative one becomes 0, and the result is never negative |
| UsagePersist.MissingTotalIsSumOfParts | internal/billing/usage_persist_plugin.go:40-42 | a zero total becomes input + output + reasoning + cached |
| UsagePersist.PromptTokens | internal/billing/usage_persist_plugin.go:47-50 | max(0, input - cached) |
| UsagePersist.RequestCost | internal/billing/usage_persist_plugin.go:57-60 | the cost is at least each of its three rounded parts and never negative |
| UsagePersist.OneRateBillsOnePart | internal/billing/usage_persist_plugin.go:47-60 | priced at the prompt, cached or completion rate alone, a request costs the rounded part of uncached input, cached input or output plus reasoning at that rate |
| UsagePersist.RatesBillIndependently | internal/billing/usage_persist_plugin.go:57-60 | the cost is the sum of the three single-rate costs, so with OneRateBillsOnePart it is the sum of the three rounded parts |
| UsagePersist.ReasoningBilledAsOutput | internal/billing/usage_persist_plugin.go:51-60 | reasoning tokens cost what output tokens cost: moving them into the output count leaves the cost unchanged |
| UsagePersist.CachedInputBilledOnce | internal/billing/usage_persist_plugin.go:47-50 | when cache hits cover part of the input, prompt and cached tokens split the input exactly |
| UsagePersist.FreeRequest | internal/billing/usage_persist_plugin.go:57-60 | no tokens or a zero price cost nothing |
| UsagePersist.RequestCostMonotone | internal/billing/usage_persist_plugin.go:57-60 | at a fixed price, more of every kind of token never costs less |
| UsagePersist.UsageDelta | internal/billing/usage_persist_plugin.go:62-71 | one request; failed counter 1 for a failed record and 0 otherwise; each token counter is the record's value, or 0 when that is negative; the total and cost as computed; no key, model, day or timestamp of its own |
| UsagePersist.PlanUsage | internal/billing/usage_persist_plugin.go:24-56 | something is booked exactly when the api key is non-blank and the booked model has a key |
| UsagePersist.PlannedAtResolvedPrice | internal/billing/usage_persist_plugin.go:53-71 | a booked record is charged at its model's resolved price |
| UsagePersist.UnpricedUnknownModelIsFree | internal/billing/usage_persist_plugin.go:28-60 | a record without a model is booked under "unknown" and, without a saved price for it, costs nothing |
| UsagePersist.HandleUsage | internal/billing/usage_persist_plugin.go:20-73 | no store, a blank key, an unresolvable model or a blank day changes nothing; otherwise the booked row is raised by the delta and the day's summed cost by the request's cost |
| Handlers.ErrString | sdk/api/handlers/handlers.go:302-307 | "" for no error; the text is always trimmed |
| Handlers.StatusFromError | sdk/api/handlers/handlers.go:1117-1127 | the error's positive status code, else 0 |
| Handlers.EnvelopeString | sdk/api/handlers/handlers.go:236-239 | a missing field decodes to ""; a string field gives its text |
| Handlers.EnvelopeMessages | sdk/api/handlers/handlers.go:192-239 | null decodes to two empty messages and any other non-object fails; the outer message is the "message" string ("" when absent or null); the inner one is error.message when "error" is an object and "" when it is absent or null; an "error" of any other kind fails |
| Handlers.ExtractErrorMessage | sdk/api/handlers/handlers.go:228-247 | "" exactly for blank input; trimmed; non-JSON input comes back trimmed |
| Handlers.EnvelopeMessageIsExtracted | sdk/api/handlers/handlers.go:240-242 | an envelope's non-blank error.message is the extracted message |
| Handlers.ErrorTypeAndCode | sdk/api/handlers/handlers.go:74-94 | 401, 403, 429, 404 and 500 or more get their fixed type and code; every other status gives invalid_request_error with an empty code |
| Handlers.BuildErrorResponseBody | sdk/api/handlers/handlers.go:61-107 | status 0 or less counts as 500, blank text becomes Go's registered status text, trimmed JSON text is returned as it is, anything else is wrapped with the status's type and code |
| Handlers.BlankTextUsesRegisteredText | sdk/api/handlers/handlers.go:61-94 | a blank text with status 405 gives an invalid_request_error body saying "Method Not Allowed" |
| Handlers.MissingStatusAndTextIsServerError | sdk/api/handlers/handlers.go:62-94 | no status and no text give a server_error "Internal Server Error" body |
| Handlers.ClaudeFailoverEligible | sdk/api/handlers/handlers.go:249-300 | true exactly for 429/401/402/403, a 500 naming unavailable auth, a 502 naming an unknown provider and a model, or a 400 naming an account or credential word |
| Handlers.SilentErrorsNeedAQuotaStatus | sdk/api/handlers/handlers.go:254-281 | without an error message only 429/401/402/403 are eligible |
| Handlers.BootstrapEligible | sdk/api/handlers/handlers.go:995-1007 | false exactly for a positive status below 500 that is not 401, 402, 403, 408 or 429 |
| Handlers.QuotaStatusesAllowBootstrapRetry | sdk/api/handlers/handlers.go:995-1007 | the quota and auth statuses make a failure both failover- and retry-eligible |
| Handlers.AnyProviderIs | sdk/api/handlers/handlers.go:321-326 | some provider, trimmed and lowercased, is the wanted one |
| Handlers.ContainsProvider | sdk/api/handlers/handlers.go:316-327 | false for a blank provider; otherwise some listed provider equals it case-insensitively after trimming |
| Handlers.HeuristicProvider | sdk/api/handlers/handlers.go:1159-1175 | none exactly when no route prefix starts the trimmed lowercased base model; otherwise a provider whose route prefix starts it |
| Handlers.RoutingIsUnambiguous | sdk/api/handlers/handlers.go:1161-1174 | any matching route prefix determines the provider, so the order of the checks does not matter |
| Handlers.RoutesFollowLeadingChars | sdk/api/handlers/handlers.go:1162-1173 | every route prefix's first two characters determine its provider |
| Handlers.GetRequestDetails | sdk/api/handlers/handlers.go:1129-1184 | a 502 "unknown provider for model" exactly when neither the registry (base or full name) nor the heuristic gives a provider; otherwise the providers and the resolved name, the heuristic's provider when the registry knows neither name |
| Handlers.RegistryProvidersComeFirst | sdk/api/handlers/handlers.go:1143-1154 | the registry's providers for the base model are used when it has any, else, when the base differs from the resolved name, those for the resolved name |
| Handlers.ResolvedModelName | sdk/api/handlers/handlers.go:1130-1141 | a model other than "auto" (with or without a suffix) is resolved whole; a bare "auto" resolves through the registry's auto resolution |
| Handlers.AutoKeepsSuffix | sdk/api/handlers/handlers.go:1130-1141 | an "auto(raw)" model is resolved on its base and carries the same "(raw)" suffix, which parses back unchanged |
| Handlers.SeemsClaudeModel | sdk/api/handlers/handlers.go:309-314 | every model that resolves to a name starting with "claude-" seems to be Claude |
| Handlers.StreamingKeepAliveInterval | sdk/api/handlers/handlers.go:111-120 | 0 for no config or non-positive seconds, else the seconds in nanoseconds |
| Handlers.NonStreamingKeepAliveInterval | sdk/api/handlers/handlers.go:124-133 | 0 for no config or a non-positive interval, else the seconds in nanoseconds |
| Handlers.StreamingBootstrapRetries | sdk/api/handlers/handlers.go:136-145 | the configured count, 0 when unset or negative |
| Handlers.AppendedLog | sdk/api/handlers/handlers.go:541-554 | empty log: the data; otherwise the log, a newline unless it already ends in one, then the data |
| Handlers.AppendNewlineTerminated | sdk/api/handlers/handlers.go:541-554 | appending a newline-terminated chunk and then another is appending their concatenation |
| Handlers.AppendAPIResponse | sdk/api/handlers/handlers.go:531-555 | nothing for no context or empty data; otherwise the first chunk's time is kept and the log becomes AppendedLog |
| Handlers.ExecOnce | sdk/api/handlers/handlers.go:613-631 | the executor's payload, or its error with its status (500 when it reports none) |
| Handlers.RewriteModelField | sdk/api/handlers/handlers.go:329-342 | the body with its top-level "model" set to the trimmed model, when both exist, every other field unchanged; otherwise the body as it is |
| Handlers.Route | sdk/api/handlers/handlers.go:561-595 | a routable model is sent as it is; an unroutable one is redirected to the failover target exactly when failover is enabled, the target differs, the model looks like Claude, the routing error is eligible and the target routes, with the body's model rewritten; every routing error is a 502, the target's when the redirect was attempted and the model's otherwise |
| Handlers.FailoverRetry | sdk/api/handlers/handlers.go:638-685 | a retry is made only for a call that went to Claude, with failover enabled and a target other than the call's model, and it is the target's routing with the payload's model rewritten; FailoverRetryRetriesOnTarget states exactly when it is made |
| Handlers.FailoverCall | sdk/api/handlers/handlers.go:651-659 | present exactly when the target routes; then it goes to the target's providers and model with the payload's model rewritten to the target |
| Handlers.FailoverRetryRetriesOnTarget | sdk/api/handlers/handlers.go:638-659 | after a failed execution a retry call exists exactly when the call went to Claude, failover is enabled with a target other than the call's model, the error (with its status, or the one derived from the error when it has none) is eligible and the target routes; the retry is the target's routing with the payload's model rewritten |
| Handlers.ExecuteRouted | sdk/api/handlers/handlers.go:633-687 | the call is executed first; a second call happens exactly when the first fails and the retry gives a call for its error, and it is that call; the result is that of the last call: the first result when it succeeds or has no retry, otherwise the retry's |
| Handlers.ExecuteWithAuthManager | sdk/api/handlers/handlers.go:559-688 | the outcome is executing Route's result: a routing error is returned with no executor call; a routed call is executed and its failure is retried once with the call FailoverRetry gives for the error, the last call deciding the result; a successful first execution is the result without a retry |
| Handlers.ExecutesRouteRetriesOnTarget | sdk/api/handlers/handlers.go:633-687 | for a routed call, the first executor call is that call; a second call happens exactly when the failed first execution is eligible for Claude failover and the target routes; it is the target's routing with the body's model rewritten; the result is that of the last call |
| Handlers.ExecutesOnceWithoutFailover | sdk/api/handlers/handlers.go:638-645 | with failover disabled the outcome is the routing error with no call, or the single execution of the routed call |
| Handlers.NoRetryWithoutFailover | sdk/api/handlers/handlers.go:645 | a key without Claude failover never gets a retry call |
| UsageScript.NormalizeBaseUrl | scripts/claude_oauth_usage.py:37-38 | the URL without its trailing slashes: a prefix not ending in "/", followed only by slashes |
| UsageScript.NormalizeBaseUrlIdempotent | scripts/claude_oauth_usage.py:37-38 | normalising twice is normalising once |
| UsageScript.FirstFieldWhere | scripts/claude_oauth_usage.py:42-44 | the first key in the list whose value passes the test, no earlier key passing |
| UsageScript.PickAuthIndex | scripts/claude_oauth_usage.py:41-45 | the first non-null of auth_index, authIndex, index, as text; else the entry's position |
| UsageScript.ExtractProvider | scripts/claude_oauth_usage.py:48-53 | the first of provider, auth_provider, authProvider that holds a string, as it is; none when no key does |
| UsageScript.DisplayName | scripts/claude_oauth_usage.py:56-61 | the stripped value of the first of account, email, name, username, id that holds a non-blank string; "unknown" when none does; never empty |
| UsageScript.UnwrapApiCallBody | scripts/claude_oauth_usage.py:64-79 | a non-object passes through; otherwise body (or the whole envelope): containers as they are, a blank string gives null, a string gives its decoding or, when not JSON, its stripped text, other scalars unchanged |
| UsageScript.BareStringIsABody | scripts/claude_oauth_usage.py:190 | a bare string response is read as the body of an envelope |
| UsageScript.ResponseBody | scripts/claude_oauth_usage.py:190 | an object response is unwrapped as it is; a bare list, number, boolean or null response is its own body |
| UsageScript.AuthFilesList | scripts/claude_oauth_usage.py:131-141 | a bare list, else the first of files, data, items, auth_files, authFiles holding a list; nothing otherwise |
| UsageScript.SelectorsOf | scripts/claude_oauth_usage.py:148-151 | exactly the non-empty stripped comma-separated parts |
| UsageScript.SelectorsAreSingleIndexes | scripts/claude_oauth_usage.py:144-151 | every wanted index is non-empty, stripped and comma-free |
| UsageScript.WantedAuthIndexes | scripts/claude_oauth_usage.py:144-151 | the loop collects exactly the selectors of all arguments |
| UsageScript.Selected | scripts/claude_oauth_usage.py:153-162 | at most one selected pair per entry |
| UsageScript.SelectedInListOrder | scripts/claude_oauth_usage.py:153-162 | each selected pair is the (index, entry) of a kept entry, at increasing list positions |
| UsageScript.SelectedIsComplete | scripts/claude_oauth_usage.py:153-162 | every kept entry is selected |
| UsageScript.SelectEntries | scripts/claude_oauth_usage.py:153-162 | the loop keeps object entries whose stripped lowercased provider is the requested one and whose index is wanted (when any is), in list order |
| UsageScript.ExitCode | scripts/claude_oauth_usage.py:139-172 | 3 for an unexpected auth-files type, 4 for no entries |
| UsageScript.ChooseEntries | scripts/claude_oauth_usage.py:131-172 | exit 3 exactly when no list is found; otherwise the selected entries, or exit 4 naming the provider and, when given, the wanted indexes |
| UsageScript.FieldNames | scripts/claude_oauth_usage.py:213 | the object's key names in order |
| UsageScript.NotPreferred | scripts/claude_oauth_usage.py:214 | the names other than five_hour and seven_day, with their multiplicities |
| UsageScript.SummaryKeys | scripts/claude_oauth_usage.py:212-214 | five_hour first and seven_day second |
| UsageScript.SummaryKeysOrder | scripts/claude_oauth_usage.py:212-214 | after those two, every other key, sorted, each as often as it occurs |
| UsageScript.WindowLines | scripts/claude_oauth_usage.py:215-221 | every listed key whose value is an object with utilization gets its LineOf, and every line is the LineOf of such a key; for a single key exactly that line or none |
| UsageScript.LineOf | scripts/claude_oauth_usage.py:216-221 | a window's line carries its name, its utilization and its resets_at, null when that is missing |
| UsageScript.WindowLinesOfConcat | scripts/claude_oauth_usage.py:215-221 | the lines of keys a + b are the lines of a followed by those of b, so the lines follow the key order |
| UsageScript.Summary | scripts/claude_oauth_usage.py:207-221 | no lines for a non-object body; otherwise the lines of five_hour and seven_day followed by the lines of the other keys in sorted order |
| UsageScript.FiveHourComesFirst | scripts/claude_oauth_usage.py:212-221 | a body with a five_hour window is summarised starting with it |
| UsageScript.WindowLinesStartWith | scripts/claude_oauth_usage.py:215-221 | a window at the head of the keys gives the first line |

## Left out

- Persistence: opening the database files, schema creation, `Close`, DSN pragmas and row scanning are I/O.
  - Both tables are maps, and the SQL upsert semantics are the model.
  - Database, row-scan and transport errors are not modelled, except where a failure is an input: the cost reader's and the executor's errors.
- DailyLimiter.SQLiteDailyLimiter.constructor: models opening a new, empty database file only. Reopening an existing file, whose counters survive a process restart, is not modelled.
- BillingStore.SQLiteStore.constructor: models opening a new, empty database file only. Reopening an existing file, whose prices and usage rows survive a restart, is not modelled.
- Clock and time zones: `DayKeyChina`, `nowUnixUTC` and `time.Now`.
  - Day keys and timestamps are inputs.
  - HandleUsage does not model the zero-`RequestedAt` fallback to the current time.
- Floating point: the USD fields of `ModelPrice` and `DailyUsageReport` and the USD↔micro-USD conversions in cost.go.
  - The middleware's `DailyBudgetUSD * 1_000_000` rounding is also left out.
  - Budgets are carried as integer micro-USD, and a ModelPrice carries its micro-USD components.
- Integer width: counters, costs, token sums and nanosecond durations are unbounded integers. The Go int64 overflow and wrap-around are not modelled.
- BillingTypes.CostMicroUSD: the int64 product `tokens*price` is taken as exact. It does not model overflow for products beyond 2^63.
- Go map iteration order:
  - When two daily-limit keys collide after lowercasing, Sanitize keeps one of them nondeterministically.
  - The model states that one of the colliding limits survives and proves the result exact when there is no collision.
  - ListModelPrices's intermediate order is likewise nondeterministic; only the sorted result is specified.
- `thinking.ParseSuffix` is not part of this model. It is modelled as splitting off the text after the last "(" of a name that ends in ")".
- `util.ResolveAutoModel` and `util.GetProviderName` are not part of this model. They are the fields of a registry parameter.
- `config.NormalizeExcludedModels` is not part of this model. It is a function parameter.
- gjson, sjson, `json.Valid`, `json.Unmarshal` and Python's `json.loads` are modelled by a JSON value type and a partial `parse` parameter. An sjson write error is not modelled.
- JSON objects with duplicate keys are not distinguished.
  - Lookups take the first occurrence.
  - Go's case-insensitive struct decoding is not modelled.
  - A PUT or PATCH body arrives already decoded.
- Text is treated as ASCII:
  - Lowercasing maps A-Z only.
  - Whitespace is the ASCII whitespace plus U+0085 and U+00A0.
  - Go's `EqualFold` and Python's Unicode `lower`/`strip` are approximated by that.
- Handler glue is not modelled:
  - `GetAPIKeyPolicies` only copies the list into a response.
  - `persist`, `c.JSON`, header copying, `WriteErrorResponse` rendering, logging and execution metadata (idempotency keys, header add-ons).
  - The management handlers for model prices and api-key usage are thin HTTP wrappers over the store.
- Middleware paths that do not decide anything:
  - A nil context or request.
  - A body that cannot be read, which skips to the next handler.
- Concurrency: the streaming execution path and its retry loop, the keep-alive goroutines and context cancellation.
  - BootstrapEligible is modelled as a classifier only.
- GjsonString: gjson's String() of a nested object or array is its raw JSON text, and of a fractional number its decimal text; JSON numbers are integers here, and a nested value reads as "". BodyModel reads the "model" field through it, so a body such as {"model": {"a": 1}} passes the model check here, where a key that excludes "*" is refused with 403 by the proxy. ExtractErrorMessage decodes into the Go error struct (EnvelopeMessages) and RewriteModelField only tests that the field exists, so neither depends on this.
- BodyModel: a "model" value that is a nested object or array, or a fractional number, is not read as the proxy reads it (see GjsonString).
- Handlers.ExecuteWithAuthManager: the list of executor calls is a ghost output. Response-model masquerading is not part of this model.
- The usage script's transport:
  - The HTTP calls, the environment variables (the missing-key exit 2), argparse and all printing, including `--json` and `--pretty-body`.
  - The summary is returned as lines rather than printed.
- UsageScript.PickAuthIndex: Python's `str()` of a list, an object or a float index value is not rendered the way Python renders it.
- UsageScript.ChooseEntries: the exit-4 message carries the wanted indexes as a set, not Python's sorted-list rendering.
