/**
  The billing store (internal/billing/sqlite_store.go): the model_prices table of saved price
  overrides and the api_key_model_daily_usage table of per-day usage counters, each an
  in-memory map of the store object. Timestamps are inputs; database and scan errors are not
  part of this model.
*/
module BillingStore {
  import opened Wrappers
  import opened Strings
  import opened PolicyModel
  import opened BillingTypes

  const ErrModelRequired := "billing sqlite: model is required"
  const ErrInvalidPrice := "billing sqlite: invalid price"
  const ErrInvalidInputs := "billing sqlite: invalid inputs"
  const ErrInvalidRequestDeltas := "billing sqlite: invalid request deltas"
  const ErrReportKeyRequired := "billing sqlite: api_key and day are required"

  /** A row of model_prices: the saved price and when it was saved. */
  datatype SavedPrice = SavedPrice(price: PriceMicroUSDPer1M, updatedAt: int)

  /** The primary key of api_key_model_daily_usage. */
  datatype UsageKey = UsageKey(apiKey: string, model: string, day: string)

  /** A resolved price, where it came from, and when it was saved (0 unless saved). */
  datatype ResolvedPrice = ResolvedPrice(price: PriceMicroUSDPer1M, source: string, updatedAt: int)

  const ZeroPrice := PriceMicroUSDPer1M(0, 0, 0)

  // ---------------------------------------------------------------------------------------
  // Price resolution
  // ---------------------------------------------------------------------------------------

  /** The keys a price is looked up under, in order: the model key, then its non-thinking base. */
  function PriceCandidates(modelKey: string): (cs: seq<string>)
    ensures 1 <= |cs| <= 2 && cs[0] == modelKey
    ensures |cs| == 2 <==> StripThinkingVariant(modelKey) != "" && StripThinkingVariant(modelKey) != modelKey
    ensures |cs| == 2 ==> cs[1] == StripThinkingVariant(modelKey)
  {
    var base := StripThinkingVariant(modelKey);
    if base != "" && base != modelKey then [modelKey, base] else [modelKey]
  }

  /** The position of the first candidate that has an entry in m, or |cs| when none has. */
  function FirstKeyIn<V>(cs: seq<string>, m: map<string, V>): (i: nat)
    ensures i <= |cs|
    ensures forall j :: 0 <= j < i ==> cs[j] !in m
    ensures i < |cs| ==> cs[i] in m
  {
    if cs == [] then 0
    else if cs[0] in m then 0
    else 1 + FirstKeyIn(cs[1..], m)
  }

  /**
    The price of a model: a saved price for the key or, failing that, for its non-thinking
    base; then a built-in price in the same order; otherwise a zero price marked missing.
    A nil store (None) has no saved prices. A model that normalises to "" is an error.
  */
  function ResolvePriceMicro(saved: Option<map<string, SavedPrice>>, model: string): (r: Result<ResolvedPrice, string>)
    ensures r.Err? <==> NormaliseModelKey(model) == ""
    ensures r.Err? ==> r.error == ErrModelRequired
  {
    var modelKey := NormaliseModelKey(model);
    if modelKey == "" then Err(ErrModelRequired)
    else
      var baseKey := StripThinkingVariant(modelKey);
      if saved.Some? && modelKey in saved.value then
        Ok(ResolvedPrice(saved.value[modelKey].price, SourceSaved, saved.value[modelKey].updatedAt))
      else if saved.Some? && baseKey != "" && baseKey != modelKey && baseKey in saved.value then
        Ok(ResolvedPrice(saved.value[baseKey].price, SourceSaved, saved.value[baseKey].updatedAt))
      else if modelKey in DefaultPrices then Ok(ResolvedPrice(DefaultPrices[modelKey], SourceDefault, 0))
      else if baseKey != "" && baseKey != modelKey && baseKey in DefaultPrices then
        Ok(ResolvedPrice(DefaultPrices[baseKey], SourceDefault, 0))
      else Ok(ResolvedPrice(ZeroPrice, SourceMissing, 0))
  }

  /**
    Resolution is a search over the candidate keys: the first candidate with a saved price
    wins; with none saved, the first candidate with a built-in price; otherwise missing.
  */
  lemma ResolveTakesFirstCandidate(saved: Option<map<string, SavedPrice>>, model: string, r: ResolvedPrice)
    requires ResolvePriceMicro(saved, model) == Ok(r)
    ensures var cs := PriceCandidates(NormaliseModelKey(model));
      var s := if saved.Some? then saved.value else map[];
      var i, j := FirstKeyIn(cs, s), FirstKeyIn(cs, DefaultPrices);
      if i < |cs| then r == ResolvedPrice(s[cs[i]].price, SourceSaved, s[cs[i]].updatedAt)
      else if j < |cs| then r == ResolvedPrice(DefaultPrices[cs[j]], SourceDefault, 0)
      else r == ResolvedPrice(ZeroPrice, SourceMissing, 0)
  {
    var cs := PriceCandidates(NormaliseModelKey(model));
    var s := if saved.Some? then saved.value else map[];
    if |cs| == 2 {
      assert FirstKeyIn(cs, s) == if cs[0] in s then 0 else 1 + FirstKeyIn(cs[1..], s);
      assert FirstKeyIn(cs, DefaultPrices) == if cs[0] in DefaultPrices then 0 else 1 + FirstKeyIn(cs[1..], DefaultPrices);
    }
  }

  /** Once a price is saved for a model, resolving that model gives the saved price. */
  lemma ResolveAfterUpsert(saved: map<string, SavedPrice>, model: string, price: PriceMicroUSDPer1M, now: int)
    requires NormaliseModelKey(model) != ""
    ensures ResolvePriceMicro(Some(saved[NormaliseModelKey(model) := SavedPrice(price, now)]), model)
         == Ok(ResolvedPrice(price, SourceSaved, now))
  {
    var cs := PriceCandidates(NormaliseModelKey(model));
    assert FirstKeyIn(cs, saved[NormaliseModelKey(model) := SavedPrice(price, now)]) == 0;
  }

  /**
    With no saved price for it, claude-opus-4-5-20251101 resolves to its built-in price,
    whose prompt and completion components are not zero.
  */
  lemma DefaultModelResolvesToDefault(saved: Option<map<string, SavedPrice>>)
    requires saved.Some? ==> forall c :: c in PriceCandidates(DefaultPriceKey) ==> c !in saved.value
    ensures var r := ResolvePriceMicro(saved, ClaudeOpus45FallbackPrefix);
      r.Ok? && r.value.source == SourceDefault
      && r.value.price.prompt != 0 && r.value.price.completion != 0
  {
    DefaultPriceKeyIsNormalised();
    var cs := PriceCandidates(DefaultPriceKey);
    var s := if saved.Some? then saved.value else map[];
    assert FirstKeyIn(cs, s) == |cs|;
    assert FirstKeyIn(cs, DefaultPrices) == 0;
  }

  /** The saved price of a thinking variant without a price of its own is its base model's. */
  lemma ThinkingVariantUsesBasePrice(saved: map<string, SavedPrice>, model: string)
    requires var key := NormaliseModelKey(model);
      var base := StripThinkingVariant(key);
      key != "" && key !in saved && base != "" && base != key && base in saved
    ensures var base := StripThinkingVariant(NormaliseModelKey(model));
      ResolvePriceMicro(Some(saved), model) == Ok(ResolvedPrice(saved[base].price, SourceSaved, saved[base].updatedAt))
  {
    var cs := PriceCandidates(NormaliseModelKey(model));
    assert FirstKeyIn(cs, saved) == 1 by {
      assert FirstKeyIn(cs, saved) == 1 + FirstKeyIn(cs[1..], saved);
    }
  }

  // ---------------------------------------------------------------------------------------
  // Price list
  // ---------------------------------------------------------------------------------------

  /** The models the price list shows: the built-in ones and the saved ones. */
  function ListedModels(saved: map<string, SavedPrice>): set<string> {
    DefaultPrices.Keys + saved.Keys
  }

  /** The price list line of a model: the saved price wins over the built-in one. */
  function PriceEntry(saved: map<string, SavedPrice>, k: string): (e: ModelPrice)
    requires k in ListedModels(saved)
    ensures e.model == k
    ensures e.source == (if k in saved then SourceSaved else SourceDefault)
  {
    if k in saved then ModelPrice(k, saved[k].price, SourceSaved, saved[k].updatedAt)
    else ModelPrice(k, DefaultPrices[k], SourceDefault, 0)
  }

  /** x is the price list line of one of the listed models. */
  predicate IsPriceEntry(saved: map<string, SavedPrice>, x: ModelPrice) {
    x.model in ListedModels(saved) && x == PriceEntry(saved, x.model)
  }

  function ModelOf(m: ModelPrice): string {
    m.model
  }

  /** merged holds each listed model's line exactly once and nothing else. */
  ghost predicate ListsEachOnce(saved: map<string, SavedPrice>, merged: seq<ModelPrice>) {
    forall x :: multiset(merged)[x] == (if IsPriceEntry(saved, x) then 1 else 0)
  }

  /** Two positions holding the same value make it count at least twice. */
  lemma RepeatedValueCountsTwice<T>(s: seq<T>, i: nat, j: nat)
    requires i < j < |s| && s[i] == s[j]
    ensures multiset(s)[s[i]] >= 2
  {
    assert s == s[..j] + s[j..];
    assert s[..j][i] == s[i];
    assert s[j..][0] == s[j];
    assert multiset(s) == multiset(s[..j]) + multiset(s[j..]);
  }

  /**
    A list that holds each listed model's line once shows every listed model at exactly one
    position, with the saved price where there is one.
  */
  lemma ListedOnceMeaning(saved: map<string, SavedPrice>, merged: seq<ModelPrice>)
    requires ListsEachOnce(saved, merged)
    ensures forall i :: 0 <= i < |merged| ==> IsPriceEntry(saved, merged[i])
    ensures forall k :: k in ListedModels(saved) ==> exists i :: 0 <= i < |merged| && merged[i].model == k
    ensures forall i, j :: 0 <= i < j < |merged| ==> merged[i].model != merged[j].model
  {
    forall i | 0 <= i < |merged| ensures IsPriceEntry(saved, merged[i]) {
      ListedLineIsEntry(saved, merged, i);
    }
    forall k | k in ListedModels(saved)
      ensures exists i :: 0 <= i < |merged| && merged[i].model == k
    {
      EntryIsListed(saved, merged, k);
    }
    forall i, j | 0 <= i < j < |merged|
      ensures merged[i].model != merged[j].model
    {
      if merged[i].model == merged[j].model {
        ListedLineIsEntry(saved, merged, i);
        ListedLineIsEntry(saved, merged, j);
        RepeatedValueCountsTwice(merged, i, j);
      }
    }
  }

  lemma ListedLineIsEntry(saved: map<string, SavedPrice>, merged: seq<ModelPrice>, i: nat)
    requires ListsEachOnce(saved, merged) && i < |merged|
    ensures IsPriceEntry(saved, merged[i])
  {
    assert multiset(merged)[merged[i]] > 0;
  }

  lemma EntryIsListed(saved: map<string, SavedPrice>, merged: seq<ModelPrice>, k: string)
    requires ListsEachOnce(saved, merged) && k in ListedModels(saved)
    ensures exists i :: 0 <= i < |merged| && merged[i].model == k
  {
    var e := PriceEntry(saved, k);
    assert multiset(merged)[e] == 1;
    assert e in merged;
    var i :| 0 <= i < |merged| && merged[i] == e;
  }

  /** merged holds the line of each model of done exactly once and nothing else. */
  ghost predicate ListsOnceFrom(saved: map<string, SavedPrice>, merged: seq<ModelPrice>, done: set<string>) {
    forall x :: multiset(merged)[x] == (if x.model in done && IsPriceEntry(saved, x) then 1 else 0)
  }

  /** Appending the line of a model not yet listed. */
  lemma AppendEntry(saved: map<string, SavedPrice>, merged: seq<ModelPrice>, done: set<string>, k: string)
    requires ListsOnceFrom(saved, merged, done) && k in ListedModels(saved) && k !in done
    ensures ListsOnceFrom(saved, merged + [PriceEntry(saved, k)], done + {k})
  {
    var e := PriceEntry(saved, k);
    assert multiset(merged + [e]) == multiset(merged) + multiset{e};
  }

  /** The first loop of ListModelPrices: one line per built-in model, the saved price winning. */
  method AppendDefaultLines(saved: map<string, SavedPrice>) returns (merged: seq<ModelPrice>)
    ensures ListsOnceFrom(saved, merged, DefaultPrices.Keys)
  {
    merged := [];
    var todo := DefaultPrices.Keys;
    while todo != {}
      invariant todo <= DefaultPrices.Keys
      invariant ListsOnceFrom(saved, merged, DefaultPrices.Keys - todo)
      decreases |todo|
    {
      var k :| k in todo;
      AppendEntry(saved, merged, DefaultPrices.Keys - todo, k);
      assert DefaultPrices.Keys - todo + {k} == DefaultPrices.Keys - (todo - {k});
      if k in saved {
        merged := merged + [ModelPrice(k, saved[k].price, SourceSaved, saved[k].updatedAt)];
      } else {
        merged := merged + [ModelPrice(k, DefaultPrices[k], SourceDefault, 0)];
      }
      todo := todo - {k};
    }
    assert DefaultPrices.Keys - {} == DefaultPrices.Keys;
  }

  /** Moving k from the work list to the done part of a loop over s after d. */
  lemma DoneGrows(d: set<string>, s: set<string>, todo: set<string>, k: string)
    requires k in todo && k in s
    ensures d + (s - todo) + {k} == d + (s - (todo - {k}))
  {
  }

  /** One step of the second loop: a saved-only model gets its line, a built-in one is already listed. */
  lemma SavedOnlyStep(saved: map<string, SavedPrice>, merged: seq<ModelPrice>, todo: set<string>, k: string)
    requires k in todo && todo <= saved.Keys
    requires ListsOnceFrom(saved, merged, DefaultPrices.Keys + (saved.Keys - todo))
    ensures var next := DefaultPrices.Keys + (saved.Keys - (todo - {k}));
      (k !in DefaultPrices ==> ListsOnceFrom(saved, merged + [ModelPrice(k, saved[k].price, SourceSaved, saved[k].updatedAt)], next))
      && (k in DefaultPrices ==> ListsOnceFrom(saved, merged, next))
  {
    var done := DefaultPrices.Keys + (saved.Keys - todo);
    DoneGrows(DefaultPrices.Keys, saved.Keys, todo, k);
    if k !in DefaultPrices {
      AppendEntry(saved, merged, done, k);
    } else {
      assert done + {k} == done;
    }
  }

  /** The second loop of ListModelPrices: one line per saved model that has no built-in price. */
  method AppendSavedOnlyLines(saved: map<string, SavedPrice>, merged0: seq<ModelPrice>) returns (merged: seq<ModelPrice>)
    requires ListsOnceFrom(saved, merged0, DefaultPrices.Keys)
    ensures ListsEachOnce(saved, merged)
  {
    merged := merged0;
    var todo := saved.Keys;
    while todo != {}
      invariant todo <= saved.Keys
      invariant ListsOnceFrom(saved, merged, DefaultPrices.Keys + (saved.Keys - todo))
      decreases |todo|
    {
      var k :| k in todo;
      SavedOnlyStep(saved, merged, todo, k);
      if k !in DefaultPrices {
        merged := merged + [ModelPrice(k, saved[k].price, SourceSaved, saved[k].updatedAt)];
      }
      todo := todo - {k};
    }
    assert DefaultPrices.Keys + (saved.Keys - {}) == ListedModels(saved);
  }

  // ---------------------------------------------------------------------------------------
  // Usage counters
  // ---------------------------------------------------------------------------------------

  function RowKey(r: DailyUsageRow): UsageKey {
    UsageKey(r.apiKey, r.model, r.day)
  }

  /** A fresh row for a key: every counter zero. */
  function ZeroRow(k: UsageKey): (r: DailyUsageRow)
    ensures RowKey(r) == k
  {
    DailyUsageRow(k.apiKey, k.model, k.day, 0, 0, 0, 0, 0, 0, 0, 0, 0)
  }

  /**
    The row after the upsert's DO UPDATE: every counter rises by the delta's counter when
    that is positive and is otherwise kept; the key stays and the timestamp is now.
  */
  function AddDelta(row: DailyUsageRow, delta: DailyUsageRow, now: int): (r: DailyUsageRow)
    ensures RowKey(r) == RowKey(row) && r.updatedAt == now
    ensures r.requests == row.requests + Max64(0, delta.requests)
    ensures r.failedRequests == row.failedRequests + Max64(0, delta.failedRequests)
    ensures r.inputTokens == row.inputTokens + Max64(0, delta.inputTokens)
    ensures r.outputTokens == row.outputTokens + Max64(0, delta.outputTokens)
    ensures r.reasoningTokens == row.reasoningTokens + Max64(0, delta.reasoningTokens)
    ensures r.cachedTokens == row.cachedTokens + Max64(0, delta.cachedTokens)
    ensures r.totalTokens == row.totalTokens + Max64(0, delta.totalTokens)
    ensures r.costMicroUSD == row.costMicroUSD + Max64(0, delta.costMicroUSD)
  {
    row.(requests := row.requests + Max64(0, delta.requests),
         failedRequests := row.failedRequests + Max64(0, delta.failedRequests),
         inputTokens := row.inputTokens + Max64(0, delta.inputTokens),
         outputTokens := row.outputTokens + Max64(0, delta.outputTokens),
         reasoningTokens := row.reasoningTokens + Max64(0, delta.reasoningTokens),
         cachedTokens := row.cachedTokens + Max64(0, delta.cachedTokens),
         totalTokens := row.totalTokens + Max64(0, delta.totalTokens),
         costMicroUSD := row.costMicroUSD + Max64(0, delta.costMicroUSD),
         updatedAt := now)
  }

  /** Two deltas add up to the same counters in either order. */
  lemma AddDeltaCommutes(row: DailyUsageRow, d1: DailyUsageRow, d2: DailyUsageRow, t1: int, t2: int)
    ensures AddDelta(AddDelta(row, d1, t1), d2, t2) == AddDelta(AddDelta(row, d2, t2), d1, t1).(updatedAt := t2)
  {
  }

  /** The quantities a report sums. */
  datatype Metric = Cost | Requests | Failed | Tokens

  function Measure(r: DailyUsageRow, m: Metric): int {
    match m
    case Cost => r.costMicroUSD
    case Requests => r.requests
    case Failed => r.failedRequests
    case Tokens => r.totalTokens
  }

  /** The rows of one api key on one day. */
  function DayKeys(usage: map<UsageKey, DailyUsageRow>, apiKey: string, day: string): (ks: set<UsageKey>)
    ensures ks <= usage.Keys
    ensures forall k :: k in ks <==> k in usage && k.apiKey == apiKey && k.day == day
  {
    set k | k in usage && k.apiKey == apiKey && k.day == day
  }

  /** SQL SUM of a metric over a set of rows: no order is implied. */
  ghost function SumOver(usage: map<UsageKey, DailyUsageRow>, ks: set<UsageKey>, m: Metric): int
    requires ks <= usage.Keys
    decreases |ks|
  {
    if ks == {} then 0
    else
      var k :| k in ks;
      Measure(usage[k], m) + SumOver(usage, ks - {k}, m)
  }

  /** Any row of the set can be taken out of the sum first. */
  lemma {:induction false} SumOverRemove(usage: map<UsageKey, DailyUsageRow>, ks: set<UsageKey>, k: UsageKey, m: Metric)
    requires ks <= usage.Keys && k in ks
    ensures SumOver(usage, ks, m) == Measure(usage[k], m) + SumOver(usage, ks - {k}, m)
    decreases |ks|
  {
    var j :| j in ks && SumOver(usage, ks, m) == Measure(usage[j], m) + SumOver(usage, ks - {j}, m);
    if j != k {
      SumOverRemove(usage, ks - {j}, k, m);
      SumOverRemove(usage, ks - {k}, j, m);
      assert ks - {j} - {k} == ks - {k} - {j};
    }
  }

  /** Sums over rows two tables agree on are equal. */
  lemma {:induction false} SumOverAgree(u1: map<UsageKey, DailyUsageRow>, u2: map<UsageKey, DailyUsageRow>,
                                        ks: set<UsageKey>, m: Metric)
    requires ks <= u1.Keys && ks <= u2.Keys
    requires forall k :: k in ks ==> u1[k] == u2[k]
    ensures SumOver(u1, ks, m) == SumOver(u2, ks, m)
    decreases |ks|
  {
    if ks != {} {
      var k :| k in ks;
      SumOverRemove(u1, ks, k, m);
      SumOverRemove(u2, ks, k, m);
      SumOverAgree(u1, u2, ks - {k}, m);
    }
  }

  /** The sum of a metric over a list of rows. */
  function SumRows(rows: seq<DailyUsageRow>, m: Metric): int {
    if rows == [] then 0 else SumRows(rows[..|rows| - 1], m) + Measure(rows[|rows| - 1], m)
  }

  lemma SumRowsSnoc(rows: seq<DailyUsageRow>, r: DailyUsageRow, m: Metric)
    ensures SumRows(rows + [r], m) == SumRows(rows, m) + Measure(r, m)
  {
    assert (rows + [r])[..|rows|] == rows;
  }

  /** A least model among a non-empty set of rows. */
  lemma {:induction false} LeastModel(ks: set<UsageKey>) returns (k: UsageKey)
    requires ks != {}
    ensures k in ks && forall o :: o in ks ==> StrLe(k.model, o.model)
    decreases |ks|
  {
    var x :| x in ks;
    var rest := ks - {x};
    if rest == {} {
      k := x;
      assert ks == {x};
    } else {
      var m := LeastModel(rest);
      StrLessTotal(x.model, m.model);
      if x.model == m.model || StrLess(x.model, m.model) {
        k := x;
        forall o | o in ks ensures StrLe(x.model, o.model) {
          if o != x {
            assert o in rest;
            StrLeTransitive(x.model, m.model, o.model);
          }
        }
      } else {
        k := m;
        forall o | o in ks ensures StrLe(m.model, o.model) {
          if o != x { assert o in rest; }
        }
      }
    }
  }

  /** rows lists the rows of keys ks of the table once each, strictly ascending by model. */
  ghost predicate ReportsRows(usage: map<UsageKey, DailyUsageRow>, ks: set<UsageKey>, rows: seq<DailyUsageRow>) {
    ks <= usage.Keys
    && (forall i, j :: 0 <= i < j < |rows| ==> StrLess(rows[i].model, rows[j].model))
    && (forall i :: 0 <= i < |rows| ==> RowKey(rows[i]) in ks && usage[RowKey(rows[i])] == rows[i])
    && (forall k :: k in ks ==> exists i :: 0 <= i < |rows| && RowKey(rows[i]) == k)
  }

  /** The store: the model_prices table and the api_key_model_daily_usage table. */
  class SQLiteStore {
    var prices: map<string, SavedPrice>
    var usage: map<UsageKey, DailyUsageRow>

    /** Every usage row sits under its own key. */
    ghost predicate Valid()
      reads this
    {
      forall k :: k in usage ==> RowKey(usage[k]) == k
    }

    constructor ()
      ensures Valid() && prices == map[] && usage == map[]
    {
      prices := map[];
      usage := map[];
    }

    /** Save (insert or overwrite) the price of a model under its normalised key. */
    method UpsertModelPrice(model: string, price: PriceMicroUSDPer1M, now: int) returns (err: Option<string>)
      modifies this
      ensures usage == old(usage)
      ensures NormaliseModelKey(model) == "" ==> err == Some(ErrModelRequired) && prices == old(prices)
      ensures NormaliseModelKey(model) != "" && (price.prompt < 0 || price.completion < 0 || price.cached < 0) ==>
        err == Some(ErrInvalidPrice) && prices == old(prices)
      ensures NormaliseModelKey(model) != "" && price.prompt >= 0 && price.completion >= 0 && price.cached >= 0 ==>
        err.None? && prices == old(prices)[NormaliseModelKey(model) := SavedPrice(price, now)]
    {
      var key := NormaliseModelKey(model);
      if key == "" {
        return Some(ErrModelRequired);
      }
      if price.prompt < 0 || price.completion < 0 || price.cached < 0 {
        return Some(ErrInvalidPrice);
      }
      prices := prices[key := SavedPrice(price, now)];
      return None;
    }

    /** Remove the saved price of a model; the result says whether there was one. */
    method DeleteModelPrice(model: string) returns (r: Result<bool, string>)
      modifies this
      ensures usage == old(usage)
      ensures NormaliseModelKey(model) == "" ==> r == Err(ErrModelRequired) && prices == old(prices)
      ensures NormaliseModelKey(model) != "" ==>
        r == Ok(NormaliseModelKey(model) in old(prices)) && prices == old(prices) - {NormaliseModelKey(model)}
    {
      var key := NormaliseModelKey(model);
      if key == "" {
        return Err(ErrModelRequired);
      }
      var existed := key in prices;
      prices := prices - {key};
      return Ok(existed);
    }

    /**
      The price list: every built-in and every saved model once, the saved price winning,
      sorted by model.
    */
    method ListModelPrices() returns (merged: seq<ModelPrice>)
      ensures ListsEachOnce(prices, merged)
      ensures SortedBy(merged, ModelOf)
    {
      merged := AppendDefaultLines(prices);
      merged := AppendSavedOnlyLines(prices, merged);
      merged := SortBy(merged, ModelOf);
    }

    /**
      Add a delta to the (key, normalised model, day) counters, starting a missing row at
      zero; blank inputs and negative request deltas are errors and change nothing.
    */
    method AddUsage(apiKey: string, model: string, dayKey: string, delta: DailyUsageRow, now: int)
      returns (err: Option<string>)
      requires Valid()
      modifies this
      ensures Valid() && prices == old(prices)
      ensures var k := UsageKey(TrimSpace(apiKey), NormaliseModelKey(model), TrimSpace(dayKey));
        if k.apiKey == "" || k.model == "" || k.day == "" then
          err == Some(ErrInvalidInputs) && usage == old(usage)
        else if delta.requests < 0 || delta.failedRequests < 0 then
          err == Some(ErrInvalidRequestDeltas) && usage == old(usage)
        else
          err.None? && usage == old(usage)[k := AddDelta(if k in old(usage) then old(usage)[k] else ZeroRow(k), delta, now)]
    {
      var key := TrimSpace(apiKey);
      var modelKey := NormaliseModelKey(model);
      var day := TrimSpace(dayKey);
      if key == "" || modelKey == "" || day == "" {
        return Some(ErrInvalidInputs);
      }
      if delta.requests < 0 || delta.failedRequests < 0 {
        return Some(ErrInvalidRequestDeltas);
      }
      var k := UsageKey(key, modelKey, day);
      var row := if k in usage then usage[k] else ZeroRow(k);
      usage := usage[k := AddDelta(row, delta, now)];
      return None;
    }

    /** The summed cost of one api key on one day over all models; blank inputs are errors. */
    method GetDailyCostMicroUSD(apiKey: string, dayKey: string) returns (r: Result<int, string>)
      ensures var key, day := TrimSpace(apiKey), TrimSpace(dayKey);
        if key == "" || day == "" then r == Err(ErrInvalidInputs)
        else r == Ok(SumOver(usage, DayKeys(usage, key, day), Cost))
    {
      var key := TrimSpace(apiKey);
      var day := TrimSpace(dayKey);
      if key == "" || day == "" {
        return Err(ErrInvalidInputs);
      }
      var all := DayKeys(usage, key, day);
      var todo := all;
      var total := 0;
      while todo != {}
        invariant todo <= all
        invariant total + SumOver(usage, todo, Cost) == SumOver(usage, all, Cost)
        decreases |todo|
      {
        var k :| k in todo;
        SumOverRemove(usage, todo, k, Cost);
        total := total + usage[k].costMicroUSD;
        todo := todo - {k};
      }
      return Ok(total);
    }

    /**
      The usage of one api key on one day: its rows ascending by model, and the totals of
      cost, requests, failed requests and tokens over them.
    */
    method GetDailyUsageReport(apiKey: string, dayKey: string, now: int) returns (report: DailyUsageReport, err: Option<string>)
      requires Valid()
      ensures report.apiKey == TrimSpace(apiKey) && report.day == TrimSpace(dayKey) && report.generatedAtUnix == now
      ensures report.apiKey == "" || report.day == "" ==> err == Some(ErrReportKeyRequired) && report.models == []
      ensures report.apiKey != "" && report.day != "" ==>
        var ks := DayKeys(usage, report.apiKey, report.day);
        err.None? && ReportsRows(usage, ks, report.models)
        && report.totalCostMicro == SumRows(report.models, Cost) == SumOver(usage, ks, Cost)
        && report.totalRequests == SumRows(report.models, Requests) == SumOver(usage, ks, Requests)
        && report.totalFailed == SumRows(report.models, Failed) == SumOver(usage, ks, Failed)
        && report.totalTokens == SumRows(report.models, Tokens) == SumOver(usage, ks, Tokens)
    {
      var key := TrimSpace(apiKey);
      var day := TrimSpace(dayKey);
      report := DailyUsageReport(key, day, 0, 0, 0, 0, [], now);
      if key == "" || day == "" {
        return report, Some(ErrReportKeyRequired);
      }
      var all := DayKeys(usage, key, day);
      ScanStart(usage, all);
      var todo := all;
      while todo != {}
        invariant todo <= all
        invariant report.apiKey == key && report.day == day && report.generatedAtUnix == now
        invariant ScanState(usage, all, todo, report.models)
        invariant TotalsMatch(report)
        decreases |todo|
      {
        ghost var least := LeastModel(todo);
        var k :| k in todo && forall o :: o in todo ==> StrLe(k.model, o.model);
        TakeLeastRow(usage, all, todo, k, report.models);
        AddRowKeepsTotals(report, usage[k]);
        report := AddRow(report, usage[k]);
        todo := todo - {k};
      }
      ScanDone(usage, all, report.models);
      return report, None;
    }
  }

  /** The report with one more row, its totals raised by that row's counters. */
  function AddRow(report: DailyUsageReport, row: DailyUsageRow): DailyUsageReport {
    report.(totalCostMicro := report.totalCostMicro + row.costMicroUSD,
            totalRequests := report.totalRequests + row.requests,
            totalFailed := report.totalFailed + row.failedRequests,
            totalTokens := report.totalTokens + row.totalTokens,
            models := report.models + [row])
  }

  /** The totals of a report are the sums over its rows. */
  predicate TotalsMatch(report: DailyUsageReport) {
    report.totalCostMicro == SumRows(report.models, Cost)
    && report.totalRequests == SumRows(report.models, Requests)
    && report.totalFailed == SumRows(report.models, Failed)
    && report.totalTokens == SumRows(report.models, Tokens)
  }

  lemma AddRowKeepsTotals(report: DailyUsageReport, row: DailyUsageRow)
    requires TotalsMatch(report)
    ensures var r := AddRow(report, row);
      TotalsMatch(r) && r.models == report.models + [row]
      && r.apiKey == report.apiKey && r.day == report.day && r.generatedAtUnix == report.generatedAtUnix
  {
    SumRowsSnoc(report.models, row, Cost);
    SumRowsSnoc(report.models, row, Requests);
    SumRowsSnoc(report.models, row, Failed);
    SumRowsSnoc(report.models, row, Tokens);
  }

  /**
    The report scan part-way: rows lists the rows of all - todo once each, strictly
    ascending by model and below every model still to come, and its sums plus the sums over
    todo are the sums over all.
  */
  ghost predicate ScanState(usage: map<UsageKey, DailyUsageRow>, all: set<UsageKey>, todo: set<UsageKey>,
                            rows: seq<DailyUsageRow>)
  {
    todo <= all <= usage.Keys
    && (forall i :: 0 <= i < |rows| ==> RowKey(rows[i]) in all - todo && usage[RowKey(rows[i])] == rows[i])
    && (forall k :: k in all - todo ==> exists i :: 0 <= i < |rows| && RowKey(rows[i]) == k)
    && (forall i, j :: 0 <= i < j < |rows| ==> StrLess(rows[i].model, rows[j].model))
    && (forall i, o :: 0 <= i < |rows| && o in todo ==> StrLess(rows[i].model, o.model))
    && (forall m :: SumRows(rows, m) + SumOver(usage, todo, m) == SumOver(usage, all, m))
  }

  /** The scan starts with nothing listed. */
  lemma ScanStart(usage: map<UsageKey, DailyUsageRow>, all: set<UsageKey>)
    requires all <= usage.Keys
    ensures ScanState(usage, all, all, [])
  {
  }

  /** One step of the report scan: appending the row of the least remaining model. */
  lemma TakeLeastRow(usage: map<UsageKey, DailyUsageRow>, all: set<UsageKey>, todo: set<UsageKey>,
                     k: UsageKey, rows: seq<DailyUsageRow>)
    requires ScanState(usage, all, todo, rows)
    requires k in todo && RowKey(usage[k]) == k
    requires forall o :: o in all ==> o.apiKey == k.apiKey && o.day == k.day
    requires forall o :: o in todo ==> StrLe(k.model, o.model)
    ensures ScanState(usage, all, todo - {k}, rows + [usage[k]])
  {
    var row := usage[k];
    var rows' := rows + [row];
    forall o | o in todo - {k} ensures StrLess(row.model, o.model) {
      assert o.model != k.model;
    }
    forall m ensures SumRows(rows', m) + SumOver(usage, todo - {k}, m) == SumOver(usage, all, m) {
      SumRowsSnoc(rows, row, m);
      SumOverRemove(usage, todo, k, m);
    }
    forall i | 0 <= i < |rows'| ensures RowKey(rows'[i]) in all - (todo - {k}) && usage[RowKey(rows'[i])] == rows'[i] {
      if i < |rows| { assert rows'[i] == rows[i]; }
    }
    forall o | o in all - (todo - {k}) ensures exists i :: 0 <= i < |rows'| && RowKey(rows'[i]) == o {
      if o == k {
        assert RowKey(rows'[|rows|]) == o;
      } else {
        assert o in all - todo;
        var i :| 0 <= i < |rows| && RowKey(rows[i]) == o;
        assert rows'[i] == rows[i];
      }
    }
  }

  /** A finished scan lists exactly the rows, and its sums are the sums over all of them. */
  lemma ScanDone(usage: map<UsageKey, DailyUsageRow>, all: set<UsageKey>, rows: seq<DailyUsageRow>)
    requires ScanState(usage, all, {}, rows)
    ensures ReportsRows(usage, all, rows)
    ensures forall m :: SumRows(rows, m) == SumOver(usage, all, m)
  {
    assert all - {} == all;
    forall m ensures SumRows(rows, m) == SumOver(usage, all, m) {
      assert SumOver(usage, {}, m) == 0;
    }
  }

  /** Adding usage raises the day's summed cost of that api key by the clamped cost delta. */
  lemma AddUsageRaisesDailyCost(usage: map<UsageKey, DailyUsageRow>, k: UsageKey, delta: DailyUsageRow, now: int)
    ensures var after := usage[k := AddDelta(if k in usage then usage[k] else ZeroRow(k), delta, now)];
      SumOver(after, DayKeys(after, k.apiKey, k.day), Cost)
      == SumOver(usage, DayKeys(usage, k.apiKey, k.day), Cost) + Max64(0, delta.costMicroUSD)
  {
    var row := if k in usage then usage[k] else ZeroRow(k);
    var after := usage[k := AddDelta(row, delta, now)];
    var ks, ks' := DayKeys(usage, k.apiKey, k.day), DayKeys(after, k.apiKey, k.day);
    assert ks' == ks + {k};
    SumOverRemove(after, ks', k, Cost);
    assert ks' - {k} == ks - {k};
    SumOverAgree(after, usage, ks - {k}, Cost);
    if k in usage {
      SumOverRemove(usage, ks, k, Cost);
    } else {
      assert ks - {k} == ks;
    }
  }
}
