/**
  The value types of the billing layer (internal/billing/types.go), the built-in price table
  (internal/billing/default_prices.go) and the integer cost rounding (internal/billing/cost.go).
  Prices are integer micro-USD per one million tokens; the float USD views of them are not
  part of this model, so a ModelPrice carries the micro-USD components instead.
*/
module BillingTypes {
  import opened Strings
  import opened PolicyModel

  const TokensPerMillion := 1_000_000

  /** A price in micro-USD per 1M tokens: $5 per 1M is 5,000,000. */
  datatype PriceMicroUSDPer1M = PriceMicroUSDPer1M(prompt: int, completion: int, cached: int)

  const SourceSaved := "saved"
  const SourceDefault := "default"
  const SourceMissing := "missing"

  /** One line of the price list: a model, its price and where the price comes from. */
  datatype ModelPrice = ModelPrice(model: string, price: PriceMicroUSDPer1M, source: string, updatedAt: int)

  /** The usage counters of one (api key, model, day). */
  datatype DailyUsageRow = DailyUsageRow(
    apiKey: string,
    model: string,
    day: string,
    requests: int,
    failedRequests: int,
    inputTokens: int,
    outputTokens: int,
    reasoningTokens: int,
    cachedTokens: int,
    totalTokens: int,
    costMicroUSD: int,
    updatedAt: int)

  /** The usage of one api key on one day: its rows by model and their totals. */
  datatype DailyUsageReport = DailyUsageReport(
    apiKey: string,
    day: string,
    totalCostMicro: int,
    totalRequests: int,
    totalFailed: int,
    totalTokens: int,
    models: seq<DailyUsageRow>,
    generatedAtUnix: int)

  /**
    The key of the one built-in price. The table is keyed by the normalised
    claude-opus-4-5-20251101, which is that name itself (DefaultPriceKeyIsNormalised).
  */
  const DefaultPriceKey := "claude-opus-4-5-20251101"

  /** The built-in fallback prices, keyed by normalised model. */
  const DefaultPrices: map<string, PriceMicroUSDPer1M> :=
    map[DefaultPriceKey := PriceMicroUSDPer1M(5_000_000, 25_000_000, 500_000)]

  /** The built-in key is the normalised claude-opus-4-5-20251101, a normalised key. */
  lemma DefaultPriceKeyIsNormalised()
    ensures NormaliseModelKey(ClaudeOpus45FallbackPrefix) == DefaultPriceKey
    ensures IsNormalisedKey(DefaultPriceKey) && HasPrefix(DefaultPriceKey, ClaudeOpus45FallbackPrefix)
  {
    NormalisePlainKey(ClaudeOpus45FallbackPrefix);
  }

  /**
    The cost in micro-USD of tokens at a price per 1M tokens, rounded to the nearest
    micro-USD with halves rounded up; nothing is charged for non-positive tokens or price.
    The int64 product is taken as exact.
  */
  function CostMicroUSD(tokens: int, microUSDPer1M: int): (r: int)
    ensures r >= 0
    ensures tokens <= 0 || microUSDPer1M <= 0 ==> r == 0
    ensures tokens > 0 && microUSDPer1M > 0 ==>
      r * TokensPerMillion <= tokens * microUSDPer1M + TokensPerMillion / 2 < (r + 1) * TokensPerMillion
  {
    if tokens <= 0 || microUSDPer1M <= 0 then 0
    else (tokens * microUSDPer1M + TokensPerMillion / 2) / TokensPerMillion
  }

  /** For a fixed price, more tokens never cost less. */
  lemma CostMonotone(t1: int, t2: int, microUSDPer1M: int)
    requires t1 <= t2
    ensures CostMicroUSD(t1, microUSDPer1M) <= CostMicroUSD(t2, microUSDPer1M)
  {
    if t1 > 0 && microUSDPer1M > 0 {
      MulMonotone(t1, t2, microUSDPer1M);
    }
  }

  lemma MulMonotone(a: int, b: int, c: int)
    requires a <= b && c >= 0
    ensures a * c <= b * c
  {
    assert b * c - a * c == (b - a) * c;
  }

  /** Two tokens at $1 per 1M cost exactly 2 micro-USD. */
  lemma TwoTokensAtOneDollar()
    ensures CostMicroUSD(2, 1_000_000) == 2
  {
  }

  /** The larger of two counters. */
  function Max64(a: int, b: int): (r: int)
    ensures r >= a && r >= b
    ensures r == a || r == b
  {
    if a > b then a else b
  }

  /** A flag as a 0/1 counter. */
  function BoolToInt64(v: bool): (r: int)
    ensures 0 <= r <= 1
    ensures r == 1 <==> v
  {
    if v then 1 else 0
  }
}
