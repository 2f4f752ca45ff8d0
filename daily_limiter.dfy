/**
  The persistent daily request limiter (internal/policy/sqlite_daily_limiter.go): one
  counter per (api key, lowercased model, day) that a conditional upsert raises by one only
  while it is below the limit. The SQLite table is the `counts` map of the limiter object;
  the current time is an input.
*/
module DailyLimiter {
  import opened Strings

  /** The primary key of the api_model_daily_usage table. */
  datatype CounterKey = CounterKey(apiKey: string, model: string, day: string)

  /** The stored columns of one counter row. */
  datatype CounterRow = CounterRow(count: int, updatedAt: int)

  /** The outcome of Consume: the counter and whether the request may go ahead, or an error. */
  datatype ConsumeResult =
    | Consumed(count: int, allowed: bool)
    | ConsumeError(message: string)

  const InvalidInputsMessage := "sqlite limiter: invalid inputs"

  /** The key a Consume call addresses: trimmed key and day, trimmed and lowercased model. */
  function KeyOf(apiKey: string, model: string, dayKey: string): CounterKey {
    CounterKey(TrimSpace(apiKey), ToLower(TrimSpace(model)), TrimSpace(dayKey))
  }

  predicate ValidKey(k: CounterKey) {
    k.apiKey != "" && k.model != "" && k.day != ""
  }

  /** The stored count for k; a missing row counts as zero. */
  function CountOf(counts: map<CounterKey, CounterRow>, k: CounterKey): int {
    if k in counts then counts[k].count else 0
  }

  /**
    The INSERT ... ON CONFLICT DO UPDATE ... WHERE count < limit RETURNING count statement
    on the counter table as a value, for a valid key: a missing row is inserted with count
    1, a row below the limit is raised by one, and a row at or above it is left alone and
    reported as a denial at the limit.
  */
  function UpsertBelowLimit(counts: map<CounterKey, CounterRow>, k: CounterKey, limit: int, now: int)
    : (r: (map<CounterKey, CounterRow>, ConsumeResult))
    requires limit > 0
    ensures r.1.Consumed?
    ensures r.1.allowed <==> CountOf(counts, k) < limit
    ensures r.1.allowed ==>
      r.1.count == CountOf(counts, k) + 1 && r.0 == counts[k := CounterRow(r.1.count, now)]
    ensures !r.1.allowed ==> r == (counts, Consumed(limit, false))
  {
    if k !in counts then (counts[k := CounterRow(1, now)], Consumed(1, true))
    else if counts[k].count < limit then
      (counts[k := CounterRow(counts[k].count + 1, now)], Consumed(counts[k].count + 1, true))
    else (counts, Consumed(limit, false))
  }

  /** One Consume call on the counter table as a value, with its early returns. */
  function ConsumeStep(counts: map<CounterKey, CounterRow>, apiKey: string, model: string,
                       dayKey: string, limit: int, now: int): (r: (map<CounterKey, CounterRow>, ConsumeResult))
    ensures var k := KeyOf(apiKey, model, dayKey);
      !ValidKey(k) ==> r == (counts, ConsumeError(InvalidInputsMessage))
    ensures var k := KeyOf(apiKey, model, dayKey);
      ValidKey(k) && limit <= 0 ==> r == (counts, Consumed(0, false))
    ensures var k := KeyOf(apiKey, model, dayKey);
      ValidKey(k) && limit > 0 ==>
        r.1.Consumed? && (r.1.allowed <==> CountOf(counts, k) < limit)
        && (r.1.allowed ==> r == (counts[k := CounterRow(CountOf(counts, k) + 1, now)], Consumed(CountOf(counts, k) + 1, true)))
        && (!r.1.allowed ==> r == (counts, Consumed(limit, false)))
  {
    var k := KeyOf(apiKey, model, dayKey);
    if !ValidKey(k) then (counts, ConsumeError(InvalidInputsMessage))
    else if limit <= 0 then (counts, Consumed(0, false))
    else UpsertBelowLimit(counts, k, limit, now)
  }

  /**
    The upsert touches only the addressed counter, never lowers it, raises it by at most
    one, and never raises it past the limit.
  */
  lemma UpsertBounds(counts: map<CounterKey, CounterRow>, k: CounterKey, limit: int, now: int)
    requires limit > 0
    ensures var after := UpsertBelowLimit(counts, k, limit, now).0;
      (forall o :: o != k ==> (o in after <==> o in counts) && CountOf(after, o) == CountOf(counts, o))
      && CountOf(counts, k) <= CountOf(after, k) <= CountOf(counts, k) + 1
      && (CountOf(counts, k) <= limit ==> CountOf(after, k) <= limit)
  {
  }

  /** Model names that differ only in case or outer whitespace share one counter. */
  lemma ConsumeSharesCaseVariants(counts: map<CounterKey, CounterRow>, apiKey: string,
                                  m1: string, m2: string, dayKey: string, limit: int, now: int)
    requires ToLower(TrimSpace(m1)) == ToLower(TrimSpace(m2))
    ensures ConsumeStep(counts, apiKey, m1, dayKey, limit, now)
         == ConsumeStep(counts, apiKey, m2, dayKey, limit, now)
  {
    assert KeyOf(apiKey, m1, dayKey) == KeyOf(apiKey, m2, dayKey);
  }

  /**
    With a limit of 2 and no counter yet, three upserts give 1 (allowed), 2 (allowed) and a
    denial that reports the limit, leaving the counter at 2.
  */
  lemma UpsertLimitTwo(counts: map<CounterKey, CounterRow>, k: CounterKey, t1: int, t2: int, t3: int)
    requires k !in counts
    ensures var (c1, r1) := UpsertBelowLimit(counts, k, 2, t1);
      var (c2, r2) := UpsertBelowLimit(c1, k, 2, t2);
      var (c3, r3) := UpsertBelowLimit(c2, k, 2, t3);
      r1 == Consumed(1, true) && r2 == Consumed(2, true) && r3 == Consumed(2, false)
      && CountOf(c3, k) == 2
  {
    var (c1, r1) := UpsertBelowLimit(counts, k, 2, t1);
    assert CountOf(c1, k) == 1;
  }

  /** The limiter: the api_model_daily_usage table, as a map from key to row. */
  class SQLiteDailyLimiter {
    var counts: map<CounterKey, CounterRow>

    constructor ()
      ensures counts == map[]
    {
      counts := map[];
    }

    /** Raise the counter for (apiKey, model, dayKey) by one if it is below limit. */
    method Consume(apiKey: string, model: string, dayKey: string, limit: int, now: int)
      returns (res: ConsumeResult)
      modifies this
      ensures (counts, res) == ConsumeStep(old(counts), apiKey, model, dayKey, limit, now)
    {
      var k := KeyOf(apiKey, model, dayKey);
      if !ValidKey(k) {
        return ConsumeError(InvalidInputsMessage);
      }
      if limit <= 0 {
        return Consumed(0, false);
      }
      assert ConsumeStep(old(counts), apiKey, model, dayKey, limit, now)
          == UpsertBelowLimit(old(counts), k, limit, now);
      if k !in counts {
        counts := counts[k := CounterRow(1, now)];
        return Consumed(1, true);
      }
      if counts[k].count < limit {
        var count := counts[k].count + 1;
        counts := counts[k := CounterRow(count, now)];
        return Consumed(count, true);
      }
      return Consumed(limit, false);
    }
  }
}
