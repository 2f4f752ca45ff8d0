/**
  The usage persistence plugin (internal/billing/usage_persist_plugin.go): every finished
  request's usage record is priced and added to the per-day usage counters of its api key
  and model. The request's day key and the current time are inputs: the clock and the
  China-time day formatting are not part of this model.
*/
module UsagePersist {
  import opened Wrappers
  import opened Strings
  import opened PolicyModel
  import opened BillingTypes
  import opened BillingStore

  /** The token counts a provider reported for one request. */
  datatype UsageDetail = UsageDetail(inputTokens: int, outputTokens: int, reasoningTokens: int,
                                     cachedTokens: int, totalTokens: int)

  /** One finished request as the usage pipeline reports it. */
  datatype UsageRecord = UsageRecord(apiKey: string, model: string, failed: bool, detail: UsageDetail)

  const UnknownModel := "unknown"

  /** The model the usage is booked under: its normalised key, or "unknown" when that is empty. */
  function BookedModel(model: string): (r: string)
    ensures r != ""
    ensures NormaliseModelKey(model) != "" ==> r == NormaliseModelKey(model)
  {
    var key := NormaliseModelKey(model);
    if key == "" then UnknownModel else key
  }

  /**
    The total token count: a reported total is kept, a zero total is replaced by the sum of
    the parts, and a negative result is clamped to zero.
  */
  function TotalTokens(d: UsageDetail): (t: int)
    ensures t >= 0
    ensures d.totalTokens > 0 ==> t == d.totalTokens
    ensures d.totalTokens < 0 ==> t == 0
  {
    var total := if d.totalTokens == 0
      then d.inputTokens + d.outputTokens + d.reasoningTokens + d.cachedTokens
      else d.totalTokens;
    if total < 0 then 0 else total
  }

  /** When no total is reported and no part is negative, the total is the sum of the parts. */
  lemma MissingTotalIsSumOfParts(d: UsageDetail)
    requires d.totalTokens == 0
    requires d.inputTokens >= 0 && d.outputTokens >= 0 && d.reasoningTokens >= 0 && d.cachedTokens >= 0
    ensures TotalTokens(d) == d.inputTokens + d.outputTokens + d.reasoningTokens + d.cachedTokens
  {
  }

  /** The input tokens billed at the prompt rate: those that were not served from cache. */
  function PromptTokens(d: UsageDetail): (t: int)
    ensures t >= 0 && t >= d.inputTokens - d.cachedTokens
    ensures t == 0 || t == d.inputTokens - d.cachedTokens
  {
    if d.inputTokens - d.cachedTokens < 0 then 0 else d.inputTokens - d.cachedTokens
  }

  /** The tokens billed at the completion rate: output and reasoning. */
  function CompletionTokens(d: UsageDetail): int {
    d.outputTokens + d.reasoningTokens
  }

  /**
    Reasoning tokens cost what output tokens cost: moving them into the output count leaves
    the cost of the request unchanged.
  */
  lemma ReasoningBilledAsOutput(d: UsageDetail, price: PriceMicroUSDPer1M)
    ensures RequestCost(d, price)
            == RequestCost(d.(outputTokens := d.outputTokens + d.reasoningTokens, reasoningTokens := 0), price)
  {
  }

  /**
    The cost of one request: uncached input at the prompt rate, cached input at the cached
    rate and output plus reasoning at the completion rate, each rounded on its own.
  */
  function RequestCost(d: UsageDetail, price: PriceMicroUSDPer1M): (c: int)
    ensures c >= 0
    ensures c >= CostMicroUSD(PromptTokens(d), price.prompt)
    ensures c >= CostMicroUSD(d.cachedTokens, price.cached)
    ensures c >= CostMicroUSD(CompletionTokens(d), price.completion)
  {
    CostMicroUSD(PromptTokens(d), price.prompt)
    + CostMicroUSD(d.cachedTokens, price.cached)
    + CostMicroUSD(CompletionTokens(d), price.completion)
  }

  /** Priced at one rate only, a request costs the rounded part billed at that rate. */
  lemma OneRateBillsOnePart(d: UsageDetail, price: PriceMicroUSDPer1M)
    ensures RequestCost(d, price.(cached := 0, completion := 0)) == CostMicroUSD(PromptTokens(d), price.prompt)
    ensures RequestCost(d, price.(prompt := 0, completion := 0)) == CostMicroUSD(d.cachedTokens, price.cached)
    ensures RequestCost(d, price.(prompt := 0, cached := 0)) == CostMicroUSD(CompletionTokens(d), price.completion)
  {
  }

  /** The three rates bill independently: the cost is the sum of the single-rate costs. */
  lemma RatesBillIndependently(d: UsageDetail, price: PriceMicroUSDPer1M)
    ensures RequestCost(d, price)
            == RequestCost(d, price.(cached := 0, completion := 0))
               + RequestCost(d, price.(prompt := 0, completion := 0))
               + RequestCost(d, price.(prompt := 0, cached := 0))
  {
    OneRateBillsOnePart(d, price);
  }

  /**
    Cached input is billed once, at the cached rate: when the cache hits cover part of the
    input, the prompt and cached token counts split the input exactly.
  */
  lemma CachedInputBilledOnce(d: UsageDetail)
    requires 0 <= d.cachedTokens <= d.inputTokens
    ensures PromptTokens(d) + d.cachedTokens == d.inputTokens
  {
  }

  /** A request with no tokens, or one priced at zero, costs nothing. */
  lemma FreeRequest(d: UsageDetail, price: PriceMicroUSDPer1M)
    requires (d.inputTokens <= 0 && d.cachedTokens == 0 && CompletionTokens(d) <= 0)
          || price == ZeroPrice
    ensures RequestCost(d, price) == 0
  {
  }

  /** At a fixed price, using more of every kind of token never costs less. */
  lemma RequestCostMonotone(d1: UsageDetail, d2: UsageDetail, price: PriceMicroUSDPer1M)
    requires PromptTokens(d1) <= PromptTokens(d2)
    requires d1.cachedTokens <= d2.cachedTokens
    requires CompletionTokens(d1) <= CompletionTokens(d2)
    ensures RequestCost(d1, price) <= RequestCost(d2, price)
  {
    CostMonotone(PromptTokens(d1), PromptTokens(d2), price.prompt);
    CostMonotone(d1.cachedTokens, d2.cachedTokens, price.cached);
    CostMonotone(CompletionTokens(d1), CompletionTokens(d2), price.completion);
  }

  /** The counters one request adds: one request, its failure flag, its clamped tokens and cost. */
  function UsageDelta(record: UsageRecord, price: PriceMicroUSDPer1M): (delta: DailyUsageRow)
    ensures delta.apiKey == "" && delta.model == "" && delta.day == "" && delta.updatedAt == 0
    ensures delta.requests == 1
    ensures delta.failedRequests == (if record.failed then 1 else 0)
    ensures delta.inputTokens == (if record.detail.inputTokens < 0 then 0 else record.detail.inputTokens)
    ensures delta.outputTokens == (if record.detail.outputTokens < 0 then 0 else record.detail.outputTokens)
    ensures delta.reasoningTokens == (if record.detail.reasoningTokens < 0 then 0 else record.detail.reasoningTokens)
    ensures delta.cachedTokens == (if record.detail.cachedTokens < 0 then 0 else record.detail.cachedTokens)
    ensures delta.totalTokens == TotalTokens(record.detail)
    ensures delta.costMicroUSD == RequestCost(record.detail, price)
  {
    var d := record.detail;
    DailyUsageRow("", "", "", 1, BoolToInt64(record.failed),
                  Max64(0, d.inputTokens), Max64(0, d.outputTokens), Max64(0, d.reasoningTokens),
                  Max64(0, d.cachedTokens), Max64(0, TotalTokens(d)),
                  Max64(0, RequestCost(d, price)), 0)
  }

  /**
    What the plugin books for a record: nothing for a blank api key or a model whose booked
    name has no price key; otherwise the delta at the resolved price.
  */
  function PlanUsage(prices: map<string, SavedPrice>, record: UsageRecord): (r: Option<DailyUsageRow>)
    ensures r.Some? <==> !IsBlank(record.apiKey) && NormaliseModelKey(BookedModel(record.model)) != ""
  {
    if TrimSpace(record.apiKey) == "" then None
    else
      match ResolvePriceMicro(Some(prices), BookedModel(record.model))
      case Err(_) => None
      case Ok(p) => Some(UsageDelta(record, p.price))
  }

  /** A booked record is charged at the price its booked model resolves to. */
  lemma PlannedAtResolvedPrice(prices: map<string, SavedPrice>, record: UsageRecord, p: ResolvedPrice)
    requires !IsBlank(record.apiKey)
    requires ResolvePriceMicro(Some(prices), BookedModel(record.model)) == Ok(p)
    ensures PlanUsage(prices, record) == Some(UsageDelta(record, p.price))
  {
  }

  /**
    A record whose model has no key is booked under "unknown"; with no saved price for
    "unknown" it resolves to the missing (zero) price and is booked at no cost.
  */
  lemma UnpricedUnknownModelIsFree(prices: map<string, SavedPrice>, record: UsageRecord)
    requires !IsBlank(record.apiKey) && NormaliseModelKey(record.model) == "" && UnknownModel !in prices
    ensures NormaliseModelKey(BookedModel(record.model)) == UnknownModel
    ensures PlanUsage(prices, record).Some? && PlanUsage(prices, record).value.costMicroUSD == 0
  {
    NormalisePlainKey(UnknownModel);
    TrimRightOfNonSpaceEnd(UnknownModel);
    assert TrimSpace(UnknownModel) == UnknownModel;
    assert ToLower(UnknownModel) == UnknownModel;
    assert StripThinkingVariant(UnknownModel) == UnknownModel;
    var r := ResolvePriceMicro(Some(prices), UnknownModel);
    assert r == Ok(ResolvedPrice(ZeroPrice, SourceMissing, 0));
    PlannedAtResolvedPrice(prices, record, r.value);
    FreeRequest(record.detail, ZeroPrice);
  }

  /** The usage row a record is booked under. */
  function BookedKey(record: UsageRecord, dayKey: string): UsageKey {
    UsageKey(TrimSpace(record.apiKey), NormaliseModelKey(BookedModel(record.model)), TrimSpace(dayKey))
  }

  /**
    Book one request's usage: with no store, a blank api key or a model that does not
    resolve, nothing changes; otherwise the planned delta is added to the row of the
    (api key, model, day), whose day's summed cost rises by the request's cost.
  */
  method HandleUsage(store: SQLiteStore?, record: UsageRecord, dayKey: string, now: int)
    requires store != null ==> store.Valid()
    modifies store
    ensures store != null ==> store.Valid() && store.prices == old(store.prices)
    ensures store != null ==>
      var k := BookedKey(record, dayKey);
      match PlanUsage(old(store.prices), record)
      case None => store.usage == old(store.usage)
      case Some(delta) =>
        if k.day == "" then store.usage == old(store.usage)
        else
          store.usage == old(store.usage)[k := AddDelta(if k in old(store.usage) then old(store.usage)[k] else ZeroRow(k), delta, now)]
          && SumOver(store.usage, DayKeys(store.usage, k.apiKey, k.day), Cost)
             == SumOver(old(store.usage), DayKeys(old(store.usage), k.apiKey, k.day), Cost) + delta.costMicroUSD
  {
    if store == null {
      return;
    }
    var apiKey := TrimSpace(record.apiKey);
    if apiKey == "" {
      return;
    }
    var modelKey := NormaliseModelKey(record.model);
    if modelKey == "" {
      modelKey := UnknownModel;
    }
    var resolved := ResolvePriceMicro(Some(store.prices), modelKey);
    if resolved.Err? {
      return;
    }
    var delta := UsageDelta(record, resolved.value.price);
    TrimSpaceIdempotent(record.apiKey);
    ghost var before := store.usage;
    var _ := store.AddUsage(apiKey, modelKey, dayKey, delta, now);
    ghost var k := BookedKey(record, dayKey);
    if k.day != "" {
      AddUsageRaisesDailyCost(before, k, delta, now);
    }
  }
}
