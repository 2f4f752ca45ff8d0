/**
  The per-key policy middleware (internal/api/middleware/api_key_policy.go): for a request
  from an authenticated client key it checks, in this order, the daily budget, the opus-4-6
  downgrade, the excluded models and the daily model limit, and forwards the request body
  with the downgraded model written back. A rejection is the status and message the
  handler's error body (Handlers.BuildErrorResponseBody) is built from.
*/
module PolicyMiddleware {
  import opened Wrappers
  import opened Strings
  import opened JsonValue
  import opened Http
  import opened PolicyModel
  import opened ApiKeyConfig
  import opened DailyLimiter

  /** What the middleware does with a request: let it through with a body, or answer it. */
  datatype Outcome =
    | Pass(body: Option<Json>)
    | Reject(status: int, message: string)

  /**
    The billing store's GetDailyCostMicroUSD for (api key, day): the spent micro-USD, or
    the store's error text.
  */
  type CostReader = (string, string) -> Result<int, string>

  const BillingStoreUnavailable := "billing store unavailable"
  const DailyBudgetExceeded := "daily budget exceeded"
  const ModelAccessDenied := "model access denied by api key policy"
  const DailyLimiterUnavailable := "daily limiter unavailable"
  const DailyModelLimitExceeded := "daily model limit exceeded"

  /** A limit entry that is present and positive. */
  predicate PositiveLimit(limits: map<string, int>, key: string) {
    key in limits && limits[key] > 0
  }

  /**
    The daily limit that applies to a model key and the counter key it is counted under:
    the exact lowercased key's positive limit, else, for a "-thinking" key, its base's
    positive limit (counted under the base), else (0, "").
  */
  function ResolveDailyLimit(p: Option<APIKeyPolicy>, modelKey: string): (r: (int, string))
    ensures r.0 >= 0 && (r.0 == 0 ==> r.1 == "")
    ensures var key := ToLower(TrimSpace(modelKey));
      var base := StripThinkingVariant(modelKey);
      (r.0 > 0 <==>
         (p.Some? && key != "" &&
          (PositiveLimit(p.value.dailyLimits, key)
           || (HasSuffix(key, ClaudeThinkingSuffix) && PositiveLimit(p.value.dailyLimits, base)))))
      && (r.0 > 0 ==> r.1 in p.value.dailyLimits && p.value.dailyLimits[r.1] == r.0)
      && (r.0 > 0 && PositiveLimit(p.value.dailyLimits, key) ==> r.1 == key)
      && (r.0 > 0 && !PositiveLimit(p.value.dailyLimits, key) ==> r.1 == base)
  {
    if p.None? || |p.value.dailyLimits| == 0 then (0, "")
    else
      var limits := p.value.dailyLimits;
      var key := ToLower(TrimSpace(modelKey));
      if key == "" then (0, "")
      else if PositiveLimit(limits, key) then (limits[key], key)
      else if HasSuffix(key, ClaudeThinkingSuffix) then
        var base := TrimSuffix(key, ClaudeThinkingSuffix);
        if PositiveLimit(limits, base) then (limits[base], base) else (0, "")
      else (0, "")
  }

  /**
    A "-thinking" model without a limit of its own is limited, and counted, under its base
    model's limit.
  */
  lemma ThinkingSharesBaseLimit(p: APIKeyPolicy, base: string)
    requires base != [] && !IsSpace(base[0]) && ToLower(base) == base
    requires PositiveLimit(p.dailyLimits, base)
    requires !PositiveLimit(p.dailyLimits, base + ClaudeThinkingSuffix)
    ensures ResolveDailyLimit(Some(p), base + ClaudeThinkingSuffix) == (p.dailyLimits[base], base)
  {
    var m := base + ClaudeThinkingSuffix;
    assert m[0] == base[0] && m[|m| - 1] == 'g';
    TrimSpaceOfTrimmed(m);
    ToLowerOfConcat(base, ClaudeThinkingSuffix);
    assert ToLower(ClaudeThinkingSuffix) == ClaudeThinkingSuffix;
    assert m[|base|..] == ClaudeThinkingSuffix;
    assert StripThinkingVariant(m) + ClaudeThinkingSuffix == m;
    assert StripThinkingVariant(m) == m[..|base|] == base;
  }

  /**
    GET, HEAD and OPTIONS requests carry no model and skip every check. The method is
    compared exactly, so only the upper-case spellings skip.
  */
  predicate IsSkippedMethod(httpMethod: string)
    ensures IsSkippedMethod(httpMethod) ==>
      httpMethod != "" && forall i :: 0 <= i < |httpMethod| ==> 'A' <= httpMethod[i] <= 'Z'
  {
    httpMethod == "GET" || httpMethod == "HEAD" || httpMethod == "OPTIONS"
  }

  /** The trimmed gjson text of the body's "model" field; "" for a body that is not JSON. */
  function BodyModel(body: Option<Json>): (r: string)
    ensures TrimSpace(r) == r
    ensures body.None? || !HasKey(body.value, "model") ==> r == ""
    ensures body.Some? && HasKey(body.value, "model") && Get(body.value, "model").value.JString? ==>
      r == TrimSpace(Get(body.value, "model").value.s)
  {
    var text := GjsonString(if body.Some? then Get(body.value, "model") else None);
    TrimSpaceIdempotent(text);
    TrimSpace(text)
  }

  /** A non-blank model means the body is a JSON object with a "model" field. */
  lemma BodyModelHasField(body: Option<Json>)
    requires BodyModel(body) != ""
    ensures body.Some? && body.value.JObject? && Lookup(body.value.fields, "model").Some?
  {
    assert GjsonString(if body.Some? then Get(body.value, "model") else None) != "";
  }

  /**
    Step 0, the daily budget: with a positive budget, a missing cost reader or a failing
    one gives 500, and a spend at or over the budget gives 429; otherwise the request
    goes on (None).
  */
  function BudgetVerdict(p: Option<APIKeyPolicy>, apiKey: string, costReader: Option<CostReader>,
                         dayKey: string): (r: Option<Outcome>)
    ensures r.Some? <==>
      (p.Some? && p.value.dailyBudgetMicroUSD > 0 &&
       (costReader.None? || costReader.value(apiKey, dayKey).Err? ||
        costReader.value(apiKey, dayKey).value >= p.value.dailyBudgetMicroUSD))
    ensures r.Some? ==> r.value.Reject? && r.value.status in {StatusTooManyRequests, StatusInternalServerError}
    ensures r == Some(Reject(StatusTooManyRequests, DailyBudgetExceeded)) <==>
      p.Some? && p.value.dailyBudgetMicroUSD > 0 && costReader.Some? &&
      costReader.value(apiKey, dayKey).Ok? &&
      costReader.value(apiKey, dayKey).value >= p.value.dailyBudgetMicroUSD
  {
    if p.None? || p.value.dailyBudgetMicroUSD <= 0 then None
    else if costReader.None? then Some(Reject(StatusInternalServerError, BillingStoreUnavailable))
    else match costReader.value(apiKey, dayKey)
      case Err(e) => Some(Reject(StatusInternalServerError, e))
      case Ok(spent) =>
        if spent >= p.value.dailyBudgetMicroUSD then Some(Reject(StatusTooManyRequests, DailyBudgetExceeded))
        else None
  }

  /**
    Step 1, the downgrade: a key that may not use claude-opus-4-6 gets the downgraded
    model; every later step sees this effective model, in which no opus-4-6 is left.
  */
  function EffectiveModel(p: Option<APIKeyPolicy>, model: string): (r: string)
    ensures AllowsClaudeOpus46(p) ==> r == model
    ensures !AllowsClaudeOpus46(p) ==> r == DowngradeClaudeOpus46(model).0 && !IsClaudeOpus46(r)
  {
    if !AllowsClaudeOpus46(p) then
      var (rewritten, changed) := DowngradeClaudeOpus46(model);
      if changed then
        DowngradeLandsOnFallback(model);
        rewritten
      else model
    else model
  }

  /** Step 2, the exclusions: some excluded pattern matches the normalised effective model. */
  function Denied(p: Option<APIKeyPolicy>, effectiveModel: string): (r: bool)
    ensures r ==> p.Some? && !IsBlank(NormaliseModelKey(effectiveModel))
  {
    p.Some? &&
    exists i :: 0 <= i < |p.value.excludedModels| &&
                MatchWildcard(p.value.excludedModels[i], NormaliseModelKey(effectiveModel))
  }

  /** Excluding "*" denies every model whose key is not blank. */
  lemma ExcludedStarDeniesEveryModel(p: Option<APIKeyPolicy>, effectiveModel: string)
    requires p.Some? && "*" in p.value.excludedModels
    requires !IsBlank(NormaliseModelKey(effectiveModel))
    ensures Denied(p, effectiveModel)
  {
    var i :| 0 <= i < |p.value.excludedModels| && p.value.excludedModels[i] == "*";
    StarMatchesEverything(NormaliseModelKey(effectiveModel));
  }

  /**
    Step 3, the daily limit, as a value over the limiter's counter table: a positive limit
    consults the limiter once; a missing limiter or a limiter error gives 500 and a denial
    429. A rejection leaves every counter as it was, and a request let through has raised
    at most its own counter, by one, from below the limit.
  */
  function LimitVerdict(p: Option<APIKeyPolicy>, apiKey: string, effectiveModel: string, dayKey: string,
                        hasLimiter: bool, counts: map<CounterKey, CounterRow>, now: int)
    : (r: (map<CounterKey, CounterRow>, Option<Outcome>))
    ensures r.1.Some? ==>
      r.0 == counts && r.1.value.Reject?
      && r.1.value.status in {StatusTooManyRequests, StatusInternalServerError}
    ensures var (limit, limitKey) := ResolveDailyLimit(p, NormaliseModelKey(effectiveModel));
      var k := KeyOf(apiKey, limitKey, dayKey);
      (limit == 0 ==> r == (counts, None))
      && (r.0 != counts ==>
            r.1.None? && CountOf(counts, k) < limit
            && r.0 == counts[k := CounterRow(CountOf(counts, k) + 1, now)])
    ensures var (limit, limitKey) := ResolveDailyLimit(p, NormaliseModelKey(effectiveModel));
      limit > 0 && !hasLimiter ==> r == (counts, Some(Reject(StatusInternalServerError, DailyLimiterUnavailable)))
    ensures var (limit, limitKey) := ResolveDailyLimit(p, NormaliseModelKey(effectiveModel));
      var k := KeyOf(apiKey, limitKey, dayKey);
      limit > 0 && hasLimiter && !ValidKey(k) ==>
        r == (counts, Some(Reject(StatusInternalServerError, InvalidInputsMessage)))
    ensures var (limit, limitKey) := ResolveDailyLimit(p, NormaliseModelKey(effectiveModel));
      var k := KeyOf(apiKey, limitKey, dayKey);
      limit > 0 && hasLimiter && ValidKey(k) ==>
        (r.1.None? <==> CountOf(counts, k) < limit)
        && (r.1.None? ==> r.0 == counts[k := CounterRow(CountOf(counts, k) + 1, now)])
        && (r.1.Some? ==> r == (counts, Some(Reject(StatusTooManyRequests, DailyModelLimitExceeded))))
  {
    var (limit, limitKey) := ResolveDailyLimit(p, NormaliseModelKey(effectiveModel));
    if p.None? || |p.value.dailyLimits| == 0 || limit <= 0 then (counts, None)
    else if !hasLimiter then (counts, Some(Reject(StatusInternalServerError, DailyLimiterUnavailable)))
    else
      var (after, res) := ConsumeStep(counts, apiKey, limitKey, dayKey, limit, now);
      match res
      case ConsumeError(msg) => (after, Some(Reject(StatusInternalServerError, msg)))
      case Consumed(_, allowed) =>
        if allowed then (after, None)
        else (after, Some(Reject(StatusTooManyRequests, DailyModelLimitExceeded)))
  }

  /**
    The body passed on: the original one unless the model was rewritten, in which case the
    "model" field holds the effective model and every other field is kept.
  */
  function ForwardedBody(body: Option<Json>, effectiveModel: string): (r: Option<Json>)
    requires BodyModel(body) != ""
    ensures effectiveModel == BodyModel(body) ==> r == body
    ensures effectiveModel != BodyModel(body) ==>
      r.Some? && Get(r.value, "model") == Some(JString(effectiveModel))
      && forall k :: k != "model" ==> Get(r.value, k) == Get(body.value, k)
  {
    if effectiveModel == BodyModel(body) then body
    else
      BodyModelHasField(body);
      Some(JObject(SetField(body.value.fields, "model", JString(effectiveModel))))
  }

  /**
    Steps 1 to 3 and the body rewrite, for a request whose budget check passed: the
    effective model is checked against the exclusions and the daily limit, and the body is
    forwarded with it. A rejection changes no counter.
  */
  function CheckModel(p: Option<APIKeyPolicy>, key: string, body: Option<Json>, dayKey: string,
                      hasLimiter: bool, counts: map<CounterKey, CounterRow>, now: int)
    : (r: (map<CounterKey, CounterRow>, Outcome))
    ensures BodyModel(body) == "" ==> r == (counts, Pass(body))
    ensures BodyModel(body) != "" && Denied(p, EffectiveModel(p, BodyModel(body))) ==>
      r == (counts, Reject(StatusForbidden, ModelAccessDenied))
    ensures r.1.Reject? ==>
      r.0 == counts
      && r.1.status in {StatusForbidden, StatusTooManyRequests, StatusInternalServerError}
    ensures r.1 == Reject(StatusForbidden, ModelAccessDenied) <==>
      BodyModel(body) != "" && Denied(p, EffectiveModel(p, BodyModel(body)))
  {
    var model := BodyModel(body);
    if model == "" then (counts, Pass(body))
    else
      var effective := EffectiveModel(p, model);
      if Denied(p, effective) then (counts, Reject(StatusForbidden, ModelAccessDenied))
      else
        LimitThenForward(p, key, body, effective, dayKey, hasLimiter, counts, now)
  }

  /** Step 3, then the body rewrite when the limit let the request through. */
  function LimitThenForward(p: Option<APIKeyPolicy>, key: string, body: Option<Json>, effective: string,
                            dayKey: string, hasLimiter: bool, counts: map<CounterKey, CounterRow>, now: int)
    : (r: (map<CounterKey, CounterRow>, Outcome))
    requires BodyModel(body) != ""
    ensures r.1.Reject? ==>
      r.0 == counts && r.1.status in {StatusTooManyRequests, StatusInternalServerError}
    ensures var limited := LimitVerdict(p, key, effective, dayKey, hasLimiter, counts, now);
      r.0 == limited.0 && (r.1.Pass? <==> limited.1.None?)
      && (r.1.Reject? ==> limited.1 == Some(r.1))
    ensures r.1.Pass? ==> r.1.body == ForwardedBody(body, effective)
  {
    var (after, limited) := LimitVerdict(p, key, effective, dayKey, hasLimiter, counts, now);
    if limited.Some? then (after, limited.value)
    else (after, Pass(ForwardedBody(body, effective)))
  }

  /** Step 0 and then the rest, for a request from a client key with a configuration. */
  function CheckPolicy(p: Option<APIKeyPolicy>, key: string, body: Option<Json>,
                       costReader: Option<CostReader>, dayKey: string, hasLimiter: bool,
                       counts: map<CounterKey, CounterRow>, now: int)
    : (r: (map<CounterKey, CounterRow>, Outcome))
    ensures BudgetVerdict(p, key, costReader, dayKey).Some? ==>
      r == (counts, BudgetVerdict(p, key, costReader, dayKey).value)
    ensures BudgetVerdict(p, key, costReader, dayKey).None? && BodyModel(body) != ""
            && Denied(p, EffectiveModel(p, BodyModel(body))) ==>
      r == (counts, Reject(StatusForbidden, ModelAccessDenied))
    ensures r.1.Reject? ==>
      r.0 == counts
      && r.1.status in {StatusForbidden, StatusTooManyRequests, StatusInternalServerError}
  {
    var budget := BudgetVerdict(p, key, costReader, dayKey);
    if budget.Some? then (counts, budget.value)
    else CheckModel(p, key, body, dayKey, hasLimiter, counts, now)
  }

  /**
    The middleware on one request, as a value over the limiter's counter table: the new
    table and the outcome. A request without a configuration or a client key, or with a
    GET, HEAD or OPTIONS method, passes untouched, and a rejection changes no counter.
  */
  function Decide(cfg: Option<seq<APIKeyPolicy>>, apiKey: string, httpMethod: string, body: Option<Json>,
                  costReader: Option<CostReader>, dayKey: string, hasLimiter: bool,
                  counts: map<CounterKey, CounterRow>, now: int)
    : (r: (map<CounterKey, CounterRow>, Outcome))
    ensures cfg.None? || IsBlank(apiKey) || IsSkippedMethod(httpMethod) ==> r == (counts, Pass(body))
    ensures cfg.Some? && !IsBlank(apiKey) && !IsSkippedMethod(httpMethod) ==>
      var p, key := FindAPIKeyPolicy(cfg.value, apiKey), TrimSpace(apiKey);
      (BudgetVerdict(p, key, costReader, dayKey).Some? ==>
         r == (counts, BudgetVerdict(p, key, costReader, dayKey).value))
      && (BudgetVerdict(p, key, costReader, dayKey).None? && BodyModel(body) != ""
          && Denied(p, EffectiveModel(p, BodyModel(body))) ==>
         r == (counts, Reject(StatusForbidden, ModelAccessDenied)))
    ensures r.1.Reject? ==>
      r.0 == counts
      && r.1.status in {StatusForbidden, StatusTooManyRequests, StatusInternalServerError}
  {
    var key := TrimSpace(apiKey);
    if cfg.None? || key == "" || IsSkippedMethod(httpMethod) then (counts, Pass(body))
    else
      TrimSpaceIdempotent(apiKey);
      assert FindAPIKeyPolicy(cfg.value, key) == FindAPIKeyPolicy(cfg.value, apiKey);
      CheckPolicy(FindAPIKeyPolicy(cfg.value, key), key, body, costReader, dayKey, hasLimiter, counts, now)
  }

  /** After the budget check, a body is only ever rewritten with the downgraded model. */
  lemma CheckModelRewritesOnlyByDowngrade(p: Option<APIKeyPolicy>, key: string, body: Option<Json>,
                                          dayKey: string, hasLimiter: bool,
                                          counts: map<CounterKey, CounterRow>, now: int)
    ensures var r := CheckModel(p, key, body, dayKey, hasLimiter, counts, now);
      r.1.Pass? && r.1.body != body ==>
        !AllowsClaudeOpus46(p) && r.1.body.Some?
        && Get(r.1.body.value, "model") == Some(JString(DowngradeClaudeOpus46(BodyModel(body)).0))
  {
    var model := BodyModel(body);
    if model != "" {
      var effective := EffectiveModel(p, model);
      if !Denied(p, effective) {
        assert CheckModel(p, key, body, dayKey, hasLimiter, counts, now)
            == LimitThenForward(p, key, body, effective, dayKey, hasLimiter, counts, now);
      }
    }
  }

  /**
    After the budget check, a request with a model that is not excluded is decided by the
    daily limit and then forwarded.
  */
  lemma CheckModelReachesLimit(p: Option<APIKeyPolicy>, key: string, body: Option<Json>, dayKey: string,
                               hasLimiter: bool, counts: map<CounterKey, CounterRow>, now: int)
    requires BodyModel(body) != "" && !Denied(p, EffectiveModel(p, BodyModel(body)))
    ensures CheckModel(p, key, body, dayKey, hasLimiter, counts, now)
            == LimitThenForward(p, key, body, EffectiveModel(p, BodyModel(body)), dayKey, hasLimiter, counts, now)
  {
  }

  /**
    For a key that may not use claude-opus-4-6, a claude-opus-4-6 request that is let
    through is forwarded with the downgraded model in its body.
  */
  lemma CheckModelForwardsDowngrade(p: Option<APIKeyPolicy>, key: string, body: Option<Json>, dayKey: string,
                                    hasLimiter: bool, counts: map<CounterKey, CounterRow>, now: int)
    requires !AllowsClaudeOpus46(p) && IsClaudeOpus46(BodyModel(body))
    ensures var r := CheckModel(p, key, body, dayKey, hasLimiter, counts, now);
      r.1.Pass? ==>
        r.1.body.Some? && Get(r.1.body.value, "model") == Some(JString(DowngradeClaudeOpus46(BodyModel(body)).0))
  {
    var model := BodyModel(body);
    var effective := EffectiveModel(p, model);
    assert model != "";
    assert effective != model by {
      assert !IsClaudeOpus46(effective);
    }
    if !Denied(p, effective) {
      CheckModelReachesLimit(p, key, body, dayKey, hasLimiter, counts, now);
    }
  }

  /**
    A GET, HEAD or OPTIONS request passes the whole middleware untouched, whatever the
    configuration, the key, its policy and the counters.
  */
  lemma SkippedMethodPassesUntouched(cfg: Option<seq<APIKeyPolicy>>, apiKey: string, httpMethod: string,
                                     body: Option<Json>, costReader: Option<CostReader>, dayKey: string,
                                     hasLimiter: bool, counts: map<CounterKey, CounterRow>, now: int)
    requires IsSkippedMethod(httpMethod)
    ensures Decide(cfg, apiKey, httpMethod, body, costReader, dayKey, hasLimiter, counts, now) == (counts, Pass(body))
  {
  }

  /** The same through the whole middleware, for a request that gets past its early exits. */
  lemma DecideForwardsDowngrade(cfg: seq<APIKeyPolicy>, apiKey: string, httpMethod: string,
                                body: Option<Json>, costReader: Option<CostReader>, dayKey: string,
                                hasLimiter: bool, counts: map<CounterKey, CounterRow>, now: int)
    requires !IsBlank(apiKey) && !IsSkippedMethod(httpMethod)
    requires !AllowsClaudeOpus46(FindAPIKeyPolicy(cfg, apiKey)) && IsClaudeOpus46(BodyModel(body))
    requires Decide(Some(cfg), apiKey, httpMethod, body, costReader, dayKey, hasLimiter, counts, now).1.Pass?
    ensures var r := Decide(Some(cfg), apiKey, httpMethod, body, costReader, dayKey, hasLimiter, counts, now);
      r.1.body.Some? && Get(r.1.body.value, "model") == Some(JString(DowngradeClaudeOpus46(BodyModel(body)).0))
  {
    var key := TrimSpace(apiKey);
    TrimSpaceIdempotent(apiKey);
    var p := FindAPIKeyPolicy(cfg, key);
    assert FindAPIKeyPolicy(cfg, apiKey) == p;
    assert Decide(Some(cfg), apiKey, httpMethod, body, costReader, dayKey, hasLimiter, counts, now)
        == CheckModel(p, key, body, dayKey, hasLimiter, counts, now);
    CheckModelForwardsDowngrade(p, key, body, dayKey, hasLimiter, counts, now);
  }

  /**
    The only change the middleware ever makes to a body it lets through is the downgraded
    model, and only for a key that may not use claude-opus-4-6.
  */
  lemma OnlyTheDowngradeRewritesTheBody(cfg: Option<seq<APIKeyPolicy>>, apiKey: string, httpMethod: string,
                                        body: Option<Json>, costReader: Option<CostReader>, dayKey: string,
                                        hasLimiter: bool, counts: map<CounterKey, CounterRow>, now: int)
    ensures var r := Decide(cfg, apiKey, httpMethod, body, costReader, dayKey, hasLimiter, counts, now);
      r.1.Pass? && r.1.body != body ==>
        cfg.Some? && !AllowsClaudeOpus46(FindAPIKeyPolicy(cfg.value, apiKey)) && r.1.body.Some?
        && Get(r.1.body.value, "model") == Some(JString(DowngradeClaudeOpus46(BodyModel(body)).0))
  {
    var key := TrimSpace(apiKey);
    if cfg.Some? && key != "" && !IsSkippedMethod(httpMethod) {
      TrimSpaceIdempotent(apiKey);
      var p := FindAPIKeyPolicy(cfg.value, key);
      assert FindAPIKeyPolicy(cfg.value, apiKey) == p;
      if BudgetVerdict(p, key, costReader, dayKey).None? {
        assert Decide(cfg, apiKey, httpMethod, body, costReader, dayKey, hasLimiter, counts, now)
            == CheckModel(p, key, body, dayKey, hasLimiter, counts, now);
        CheckModelRewritesOnlyByDowngrade(p, key, body, dayKey, hasLimiter, counts, now);
      }
    }
  }

  /**
    A request that passes the budget check with a model that is not excluded is decided by
    the daily limit (and then forwarded).
  */
  lemma DecideReachesLimit(cfg: seq<APIKeyPolicy>, apiKey: string, httpMethod: string,
                           body: Option<Json>, costReader: Option<CostReader>, dayKey: string,
                           hasLimiter: bool, counts: map<CounterKey, CounterRow>, now: int)
    requires !IsBlank(apiKey) && !IsSkippedMethod(httpMethod)
    requires var p := FindAPIKeyPolicy(cfg, apiKey);
      BudgetVerdict(p, TrimSpace(apiKey), costReader, dayKey).None?
      && BodyModel(body) != "" && !Denied(p, EffectiveModel(p, BodyModel(body)))
    ensures var p := FindAPIKeyPolicy(cfg, apiKey);
      Decide(Some(cfg), apiKey, httpMethod, body, costReader, dayKey, hasLimiter, counts, now)
      == LimitThenForward(p, TrimSpace(apiKey), body, EffectiveModel(p, BodyModel(body)),
                          dayKey, hasLimiter, counts, now)
  {
    var key := TrimSpace(apiKey);
    TrimSpaceIdempotent(apiKey);
    var p := FindAPIKeyPolicy(cfg, key);
    assert FindAPIKeyPolicy(cfg, apiKey) == p;
    assert Decide(Some(cfg), apiKey, httpMethod, body, costReader, dayKey, hasLimiter, counts, now)
        == CheckModel(p, key, body, dayKey, hasLimiter, counts, now);
  }

  /**
    With a daily limit of 1 and no counter yet, the limit step lets the first request
    through, raising the counter, and answers the same request again with 429.
  */
  lemma LimitOfOneAtLimitStep(p: Option<APIKeyPolicy>, key: string, effective: string, dayKey: string,
                              counts: map<CounterKey, CounterRow>, t1: int, t2: int)
    requires var (limit, limitKey) := ResolveDailyLimit(p, NormaliseModelKey(effective));
      limit == 1 && ValidKey(KeyOf(key, limitKey, dayKey)) && KeyOf(key, limitKey, dayKey) !in counts
    ensures var (c1, r1) := LimitVerdict(p, key, effective, dayKey, true, counts, t1);
      var (c2, r2) := LimitVerdict(p, key, effective, dayKey, true, c1, t2);
      r1.None? && r2 == Some(Reject(StatusTooManyRequests, DailyModelLimitExceeded)) && c2 == c1
  {
    var (limit, limitKey) := ResolveDailyLimit(p, NormaliseModelKey(effective));
    var k := KeyOf(key, limitKey, dayKey);
    var c1 := LimitVerdict(p, key, effective, dayKey, true, counts, t1).0;
    assert CountOf(c1, k) == 1;
  }

  /**
    With a daily limit of 1 for the model and no counter yet, the first request passes and
    the same request again is answered 429.
  */
  lemma LimitOfOneAllowsOneRequest(cfg: seq<APIKeyPolicy>, apiKey: string, httpMethod: string,
                                   body: Option<Json>, costReader: Option<CostReader>, dayKey: string,
                                   counts: map<CounterKey, CounterRow>, t1: int, t2: int)
    requires !IsBlank(apiKey) && !IsSkippedMethod(httpMethod)
    requires var p := FindAPIKeyPolicy(cfg, apiKey);
      BudgetVerdict(p, TrimSpace(apiKey), costReader, dayKey).None?
      && BodyModel(body) != "" && !Denied(p, EffectiveModel(p, BodyModel(body)))
      && var (limit, limitKey) := ResolveDailyLimit(p, NormaliseModelKey(EffectiveModel(p, BodyModel(body))));
         var k := KeyOf(TrimSpace(apiKey), limitKey, dayKey);
         limit == 1 && ValidKey(k) && k !in counts
    ensures var (c1, o1) := Decide(Some(cfg), apiKey, httpMethod, body, costReader, dayKey, true, counts, t1);
      var (c2, o2) := Decide(Some(cfg), apiKey, httpMethod, body, costReader, dayKey, true, c1, t2);
      o1.Pass? && o2 == Reject(StatusTooManyRequests, DailyModelLimitExceeded) && c2 == c1
  {
    var p := FindAPIKeyPolicy(cfg, apiKey);
    var key := TrimSpace(apiKey);
    var effective := EffectiveModel(p, BodyModel(body));
    LimitOfOneAtLimitStep(p, key, effective, dayKey, counts, t1, t2);
    var c1 := LimitVerdict(p, key, effective, dayKey, true, counts, t1).0;
    DecideReachesLimit(cfg, apiKey, httpMethod, body, costReader, dayKey, true, counts, t1);
    DecideReachesLimit(cfg, apiKey, httpMethod, body, costReader, dayKey, true, c1, t2);
  }

  /**
    Step 2 as the source loops it: scan the excluded patterns until one matches the
    normalised effective model.
  */
  method AnyExcludedMatch(patterns: seq<string>, modelKey: string) returns (denied: bool)
    ensures denied <==> exists i :: 0 <= i < |patterns| && MatchWildcard(patterns[i], modelKey)
  {
    denied := false;
    var i := 0;
    while i < |patterns|
      invariant 0 <= i <= |patterns|
      invariant forall j :: 0 <= j < i ==> !MatchWildcard(patterns[j], modelKey)
    {
      if MatchWildcard(patterns[i], modelKey) {
        denied := true;
        break;
      }
      i := i + 1;
    }
  }

  /** Step 3 on the limiter object: consults and raises its counter as LimitVerdict says. */
  method ApplyDailyLimit(p: Option<APIKeyPolicy>, key: string, effectiveModel: string,
                         limiter: SQLiteDailyLimiter?, dayKey: string, now: int)
    returns (rejection: Option<Outcome>)
    modifies limiter
    ensures var (after, r) := LimitVerdict(p, key, effectiveModel, dayKey, limiter != null,
                                           if limiter != null then old(limiter.counts) else map[], now);
      rejection == r && (limiter != null ==> limiter.counts == after)
  {
    if p.Some? && |p.value.dailyLimits| > 0 {
      var (limit, limitKey) := ResolveDailyLimit(p, NormaliseModelKey(effectiveModel));
      if limit > 0 {
        if limiter == null {
          return Some(Reject(StatusInternalServerError, DailyLimiterUnavailable));
        }
        var res := limiter.Consume(key, limitKey, dayKey, limit, now);
        if res.ConsumeError? {
          return Some(Reject(StatusInternalServerError, res.message));
        }
        if !res.allowed {
          return Some(Reject(StatusTooManyRequests, DailyModelLimitExceeded));
        }
      }
    }
    return None;
  }

  /** Steps 1 to 3 and the body rewrite on the limiter object, as CheckModel says. */
  method CheckModelOn(p: Option<APIKeyPolicy>, key: string, body: Option<Json>,
                      limiter: SQLiteDailyLimiter?, dayKey: string, now: int)
    returns (outcome: Outcome)
    modifies limiter
    ensures var (after, o) := CheckModel(p, key, body, dayKey, limiter != null,
                                         if limiter != null then old(limiter.counts) else map[], now);
      outcome == o && (limiter != null ==> limiter.counts == after)
  {
    ghost var counts := if limiter != null then limiter.counts else map[];
    var model := BodyModel(body);
    if model == "" {
      return Pass(body);
    }
    var effectiveModel := model;

    // 1) Downgrade.
    if p.Some? && !AllowsClaudeOpus46(p) {
      var (rewritten, changed) := DowngradeClaudeOpus46(effectiveModel);
      if changed {
        effectiveModel := rewritten;
      }
    }
    assert effectiveModel == EffectiveModel(p, model);

    // 2) Exclusions.
    if p.Some? && |p.value.excludedModels| > 0 {
      var denied := AnyExcludedMatch(p.value.excludedModels, NormaliseModelKey(effectiveModel));
      if denied {
        assert Denied(p, effectiveModel);
        return Reject(StatusForbidden, ModelAccessDenied);
      }
    }
    assert !Denied(p, effectiveModel);
    assert CheckModel(p, key, body, dayKey, limiter != null, counts, now)
        == LimitThenForward(p, key, body, effectiveModel, dayKey, limiter != null, counts, now);

    // 3) Daily limit.
    var rejection := ApplyDailyLimit(p, key, effectiveModel, limiter, dayKey, now);
    if rejection.Some? {
      return rejection.value;
    }

    // The rewritten model goes back into the body.
    outcome := Pass(ForwardedBody(body, effectiveModel));
  }

  /**
    The middleware as the proxy runs it: the policy checks in order, consulting (and
    raising) the limiter's counter at most once, and the body forwarded with the
    downgraded model. The configuration is what getConfig returned, the day key and the
    time are the clock's.
  */
  method APIKeyPolicyMiddleware(cfg: Option<seq<APIKeyPolicy>>, limiter: SQLiteDailyLimiter?,
                                costReader: Option<CostReader>, apiKey: string, httpMethod: string,
                                body: Option<Json>, dayKey: string, now: int)
    returns (outcome: Outcome)
    modifies limiter
    ensures var (after, o) := Decide(cfg, apiKey, httpMethod, body, costReader, dayKey, limiter != null,
                                     if limiter != null then old(limiter.counts) else map[], now);
      outcome == o && (limiter != null ==> limiter.counts == after)
  {
    if cfg.None? {
      return Pass(body);
    }
    var key := TrimSpace(apiKey);
    if key == "" {
      return Pass(body);
    }
    var p := FindAPIKeyPolicy(cfg.value, key);
    if IsSkippedMethod(httpMethod) {
      return Pass(body);
    }
    TrimSpaceIdempotent(apiKey);
    ghost var counts := if limiter != null then limiter.counts else map[];
    assert Decide(cfg, apiKey, httpMethod, body, costReader, dayKey, limiter != null, counts, now)
        == CheckPolicy(p, key, body, costReader, dayKey, limiter != null, counts, now);

    // 0) Daily budget.
    if p.Some? && p.value.dailyBudgetMicroUSD > 0 {
      if costReader.None? {
        return Reject(StatusInternalServerError, BillingStoreUnavailable);
      }
      var spent := costReader.value(key, dayKey);
      if spent.Err? {
        return Reject(StatusInternalServerError, spent.error);
      }
      if spent.value >= p.value.dailyBudgetMicroUSD {
        return Reject(StatusTooManyRequests, DailyBudgetExceeded);
      }
    }
    assert BudgetVerdict(p, key, costReader, dayKey).None?;
    assert CheckPolicy(p, key, body, costReader, dayKey, limiter != null, counts, now)
        == CheckModel(p, key, body, dayKey, limiter != null, counts, now);

    outcome := CheckModelOn(p, key, body, limiter, dayKey, now);
  }
}
