/**
  Model-name policy (internal/policy/model.go): the normalised key under which limits,
  exclusions and prices are looked up, the claude-opus-4-6 downgrade rewrite, the `*`
  wildcard matcher and the `-thinking` variant stripper.
*/
module PolicyModel {
  import opened Strings

  const ClaudeOpus46Prefix := "claude-opus-4-6"
  const ClaudeOpus45FallbackPrefix := "claude-opus-4-5-20251101"
  const ClaudeThinkingSuffix := "-thinking"

  /** A model name split into its base and an optional trailing "(budget)" suffix. */
  datatype SuffixResult = SuffixResult(modelName: string, rawSuffix: string, hasSuffix: bool)

  /** The position of the last c in s, or -1. */
  function LastIndexOfChar(s: string, c: char): (r: int)
    ensures -1 <= r < |s|
    ensures r >= 0 ==> s[r] == c && c !in s[r + 1..]
    ensures r < 0 ==> c !in s
  {
    if s == [] then -1
    else if s[|s| - 1] == c then |s| - 1
    else
      var r := LastIndexOfChar(s[..|s| - 1], c);
      assert r >= 0 ==> s[r + 1..] == s[..|s| - 1][r + 1..] + [s[|s| - 1]];
      assert s == s[..|s| - 1] + [s[|s| - 1]];
      r
  }

  /**
    The thinking-budget suffix parser the policy code delegates to: a name ending in ")"
    that contains a "(" is split at its last "(" into the base name and the text between
    the parentheses; any other name has no suffix.
  */
  function ParseSuffix(model: string): (r: SuffixResult)
    ensures r.hasSuffix ==> model == r.modelName + "(" + r.rawSuffix + ")" && '(' !in r.rawSuffix
    ensures !r.hasSuffix ==> r == SuffixResult(model, "", false)
    ensures !r.hasSuffix <==> '(' !in model || !HasSuffix(model, ")")
  {
    var open := LastIndexOfChar(model, '(');
    if open < 0 || model == [] || model[|model| - 1] != ')' then SuffixResult(model, "", false)
    else
      var r := SuffixResult(model[..open], model[open + 1..|model| - 1], true);
      assert model == r.modelName + "(" + r.rawSuffix + ")";
      assert r.rawSuffix == model[open + 1..][..|model| - 1 - (open + 1)];
      r
  }

  /** The parser recovers the parts of a name built as base + "(" + raw + ")". */
  lemma {:induction false} ParseSuffixOfBuilt(base: string, raw: string)
    requires '(' !in raw
    ensures ParseSuffix(base + "(" + raw + ")") == SuffixResult(base, raw, true)
  {
    var s := base + "(" + raw + ")";
    var open := LastIndexOfChar(s, '(');
    assert s[|base|] == '(';
    assert s[|base| + 1..|s| - 1] == raw;
  }

  /** A name with a prefix free of "(" keeps that prefix in its parsed base. */
  lemma ParseSuffixKeepsPrefix(s: string, f: string)
    requires HasPrefix(s, f) && '(' !in f
    ensures HasPrefix(ParseSuffix(s).modelName, f)
  {
    var r := ParseSuffix(s);
    if r.hasSuffix {
      var open := |r.modelName|;
      assert s[open] == '(';
      assert s[..open] == r.modelName;
    }
  }

  /** A trimmed key: lower case, with no outer whitespace. */
  predicate IsNormalisedKey(k: string) {
    ToLower(k) == k && TrimSpace(k) == k
  }

  /** The lookup key of a model: trimmed, without its "(budget)" suffix, lowercased. */
  function NormaliseModelKey(model: string): (r: string)
    ensures IsNormalisedKey(r)
  {
    var r := ToLower(TrimSpace(ParseSuffix(TrimSpace(model)).modelName));
    LowerTrimCommute(ParseSuffix(TrimSpace(model)).modelName);
    TrimSpaceIdempotent(ToLower(ParseSuffix(TrimSpace(model)).modelName));
    ToLowerIdempotent(TrimSpace(ParseSuffix(TrimSpace(model)).modelName));
    r
  }

  /** A trimmed, lowercase name without "(" is its own key. */
  lemma NormalisePlainKey(s: string)
    requires s != [] && !IsSpace(s[0]) && !IsSpace(s[|s| - 1]) && '(' !in s
    requires forall i :: 0 <= i < |s| ==> !('A' <= s[i] <= 'Z')
    ensures NormaliseModelKey(s) == s
  {
    TrimRightOfNonSpaceEnd(s);
    assert TrimSpace(s) == s;
    assert ToLower(s) == s;
  }

  /** The two ways of building a name with a "(budget)" suffix agree. */
  lemma BuiltAssoc(a: string, raw: string)
    ensures a + "(" + raw + ")" == a + ("(" + raw + ")")
  {
  }

  /**
    NormaliseModelKey drops a trailing "(budget)" suffix: the key of base + "(" + raw + ")"
    is the key of base alone, trimmed and lowercased.
  */
  lemma {:induction false} NormaliseDropsSuffix(base: string, raw: string)
    requires '(' !in raw
    ensures NormaliseModelKey(base + "(" + raw + ")") == ToLower(TrimSpace(base))
  {
    var b := TrimLeft(base);
    BuiltAssoc(base, raw);
    TrimSpaceOfConcat(base, "(" + raw + ")");
    BuiltAssoc(b, raw);
    ParseSuffixOfBuilt(b, raw);
    assert TrimLeft(b) == b;
  }

  /** A key with a lowercase prefix that has no "(" and no outer space keeps that prefix. */
  lemma {:induction false} NormaliseKeepsPrefix(s: string, f: string)
    requires HasPrefix(s, f) && f != [] && !IsSpace(f[0]) && !IsSpace(f[|f| - 1])
    requires '(' !in f && ToLower(f) == f
    ensures HasPrefix(NormaliseModelKey(s), f)
  {
    TrimSpaceKeepsPrefix(s, f);
    ParseSuffixKeepsPrefix(TrimSpace(s), f);
    var m := ParseSuffix(TrimSpace(s)).modelName;
    TrimSpaceKeepsPrefix(m, f);
    LowerKeepsPrefix(TrimSpace(m), f);
  }

  /** A name that starts with claude-opus-4-6 has a key that starts with it. */
  lemma Opus46NameHasOpus46Key(model: string)
    ensures HasPrefix(model, ClaudeOpus46Prefix) ==> HasPrefix(NormaliseModelKey(model), ClaudeOpus46Prefix)
  {
    if HasPrefix(model, ClaudeOpus46Prefix) {
      NormaliseKeepsPrefix(model, ClaudeOpus46Prefix);
    }
  }

  /**
    The model is a claude-opus-4-6 variant once its key is normalised; in particular every
    name spelled with that prefix is one.
  */
  function IsClaudeOpus46(model: string): (r: bool)
    ensures HasPrefix(model, ClaudeOpus46Prefix) ==> r
  {
    Opus46NameHasOpus46Key(model);
    HasPrefix(NormaliseModelKey(model), ClaudeOpus46Prefix)
  }

  /**
    The "(budget)" suffix plays no part: base + "(" + raw + ")" is a claude-opus-4-6 variant
    exactly when the trimmed, lowercased base starts with claude-opus-4-6.
  */
  lemma Opus46IgnoresBudget(base: string, raw: string)
    requires '(' !in raw
    ensures IsClaudeOpus46(base + "(" + raw + ")") <==> HasPrefix(ToLower(TrimSpace(base)), ClaudeOpus46Prefix)
  {
    NormaliseDropsSuffix(base, raw);
  }

  /**
    Rewrites a claude-opus-4-6 model to claude-opus-4-5-20251101, keeping what followed the
    prefix and the "(budget)" suffix; reports whether it rewrote.
  */
  function DowngradeClaudeOpus46(model: string): (r: (string, bool))
    ensures r.1 == IsClaudeOpus46(model)
    ensures !r.1 ==> r.0 == model
    ensures r.1 ==>
      var p := ParseSuffix(TrimSpace(model));
      |ClaudeOpus46Prefix| <= |p.modelName| &&
      var rest := p.modelName[|ClaudeOpus46Prefix|..];
      r.0 == if p.hasSuffix then ClaudeOpus45FallbackPrefix + rest + "(" + p.rawSuffix + ")"
             else ClaudeOpus45FallbackPrefix + rest
  {
    var trimmed := TrimSpace(model);
    if trimmed == "" then
      assert NormaliseModelKey(model) == "";
      (model, false)
    else
      var parsed := ParseSuffix(trimmed);
      var base := parsed.modelName;
      var baseLower := ToLower(TrimSpace(base));
      if !HasPrefix(baseLower, ClaudeOpus46Prefix) then (model, false)
      else
        var remainder := if |base| >= |ClaudeOpus46Prefix| then base[|ClaudeOpus46Prefix|..] else "";
        var rewritten := ClaudeOpus45FallbackPrefix + remainder;
        if parsed.hasSuffix then (rewritten + "(" + parsed.rawSuffix + ")", true)
        else (rewritten, true)
  }

  /** A downgraded name starts with claude-opus-4-5-20251101. */
  lemma DowngradeStartsWithFallback(model: string)
    requires DowngradeClaudeOpus46(model).1
    ensures HasPrefix(DowngradeClaudeOpus46(model).0, ClaudeOpus45FallbackPrefix)
  {
    var f := ClaudeOpus45FallbackPrefix;
    var p := ParseSuffix(TrimSpace(model));
    var rest := p.modelName[|ClaudeOpus46Prefix|..];
    PrefixOfConcat(f, rest);
    if p.hasSuffix {
      PrefixOfLonger(f + rest, f, "(");
      PrefixOfLonger(f + rest + "(", f, p.rawSuffix);
      PrefixOfLonger(f + rest + "(" + p.rawSuffix, f, ")");
    }
  }

  /** Any name starting with claude-opus-4-5-20251101 has a key starting with it. */
  lemma FallbackNameHasFallbackKey(name: string)
    requires HasPrefix(name, ClaudeOpus45FallbackPrefix)
    ensures HasPrefix(NormaliseModelKey(name), ClaudeOpus45FallbackPrefix)
  {
    NormaliseKeepsPrefix(name, ClaudeOpus45FallbackPrefix);
  }

  /**
    A downgraded model is priced and limited as claude-opus-4-5-20251101 and is never
    downgraded again.
  */
  lemma {:induction false} DowngradeLandsOnFallback(model: string)
    requires DowngradeClaudeOpus46(model).1
    ensures HasPrefix(NormaliseModelKey(DowngradeClaudeOpus46(model).0), ClaudeOpus45FallbackPrefix)
    ensures !IsClaudeOpus46(DowngradeClaudeOpus46(model).0)
    ensures !DowngradeClaudeOpus46(DowngradeClaudeOpus46(model).0).1
  {
    DowngradeStartsWithFallback(model);
    var out := DowngradeClaudeOpus46(model).0;
    FallbackNameHasFallbackKey(out);
    FallbackKeyIsNotOpus46(out);
    NotOpus46IsKept(out);
  }

  lemma FallbackKeyIsNotOpus46(name: string)
    requires HasPrefix(NormaliseModelKey(name), ClaudeOpus45FallbackPrefix)
    ensures !IsClaudeOpus46(name)
  {
    FallbackIsNotOpus46(NormaliseModelKey(name));
  }

  /** A model that is not a claude-opus-4-6 variant is left as it is. */
  lemma NotOpus46IsKept(name: string)
    requires !IsClaudeOpus46(name)
    ensures DowngradeClaudeOpus46(name) == (name, false)
  {
  }

  /** No key starts with both claude-opus-4-5-20251101 and claude-opus-4-6. */
  lemma FallbackIsNotOpus46(k: string)
    requires HasPrefix(k, ClaudeOpus45FallbackPrefix)
    ensures !HasPrefix(k, ClaudeOpus46Prefix)
  {
    assert k[14] == ClaudeOpus45FallbackPrefix[14];
  }

  /**
    The middle segments of a wildcard pattern occur in v in order, without overlapping:
    the reference meaning of the matcher's segment loop.
  */
  ghost predicate InOrder(segs: seq<string>, v: string)
    decreases |segs|
  {
    segs == [] || exists k :: OccursAt(v, segs[0], k) && InOrder(segs[1..], v[k + |segs[0]|..])
  }

  /** The matcher's loop: each non-empty segment is found leftmost and the cursor moves past it. */
  function MatchSegments(segs: seq<string>, v: string): bool
    decreases |segs|
  {
    if segs == [] then true
    else if segs[0] == "" then MatchSegments(segs[1..], v)
    else
      var idx := Index(v, segs[0]);
      if idx < 0 then false else MatchSegments(segs[1..], v[idx + |segs[0]|..])
  }

  /** Segments found in order in a suffix of v are found in order in v. */
  lemma InOrderWiden(segs: seq<string>, v: string, a: int)
    requires 0 <= a <= |v| && InOrder(segs, v[a..])
    ensures InOrder(segs, v)
  {
    if segs != [] {
      var w := v[a..];
      var k :| OccursAt(w, segs[0], k) && InOrder(segs[1..], w[k + |segs[0]|..]);
      assert v[a + k..a + k + |segs[0]|] == w[k..k + |segs[0]|];
      assert v[a + k + |segs[0]|..] == w[k + |segs[0]|..];
      assert OccursAt(v, segs[0], a + k);
    }
  }

  /** An empty segment occurs anywhere: it constrains nothing. */
  lemma EmptySegmentInOrder(segs: seq<string>, v: string)
    requires segs != [] && segs[0] == ""
    ensures InOrder(segs, v) <==> InOrder(segs[1..], v)
  {
    if InOrder(segs, v) {
      var k :| OccursAt(v, segs[0], k) && InOrder(segs[1..], v[k + |segs[0]|..]);
      InOrderWiden(segs[1..], v, k);
    } else {
      assert OccursAt(v, segs[0], 0);
      assert v[0..] == v;
    }
  }

  /** Taking the leftmost occurrence of the first segment loses no match. */
  lemma LeftmostOccurrenceSuffices(segs: seq<string>, v: string, idx: int)
    requires segs != [] && OccursAt(v, segs[0], idx)
    requires forall k :: 0 <= k < idx ==> !OccursAt(v, segs[0], k)
    ensures InOrder(segs, v) <==> InOrder(segs[1..], v[idx + |segs[0]|..])
  {
    var s0 := segs[0];
    if InOrder(segs, v) {
      var k :| OccursAt(v, s0, k) && InOrder(segs[1..], v[k + |s0|..]);
      var u := v[idx + |s0|..];
      assert u[k - idx..] == v[k + |s0|..];
      InOrderWiden(segs[1..], u, k - idx);
    }
  }

  /** Leftmost-first search finds the segments exactly when they occur in order. */
  lemma {:induction false} MatchSegmentsIsInOrder(segs: seq<string>, v: string)
    ensures MatchSegments(segs, v) <==> InOrder(segs, v)
    decreases |segs|
  {
    if segs != [] {
      if segs[0] == "" {
        MatchSegmentsIsInOrder(segs[1..], v);
        EmptySegmentInOrder(segs, v);
      } else {
        var idx := Index(v, segs[0]);
        if idx >= 0 {
          MatchSegmentsIsInOrder(segs[1..], v[idx + |segs[0]|..]);
          LeftmostOccurrenceSuffices(segs, v, idx);
        }
      }
    }
  }

  /**
    Case-insensitive matching of a trimmed value against a trimmed pattern in which `*`
    stands for any substring; blank patterns and blank values never match.
  */
  function MatchWildcard(pattern: string, value: string): (r: bool)
    ensures IsBlank(pattern) || IsBlank(value) ==> !r
    ensures '*' !in ToLower(TrimSpace(pattern)) ==>
      (r <==> !IsBlank(value) && ToLower(TrimSpace(pattern)) == ToLower(TrimSpace(value)))
  {
    var p := ToLower(TrimSpace(pattern));
    var v := ToLower(TrimSpace(value));
    if p == "" || v == "" then false
    else if '*' !in p then p == v
    else MatchAroundStars(Split(p, '*'), v)
  }

  /**
    The pattern split at its stars: the value must start with the first part, end with the
    last one, and hold the middle parts in order in what lies between.
  */
  function MatchAroundStars(parts: seq<string>, v: string): bool
    requires |parts| >= 2
  {
    var prefix := parts[0];
    if prefix != "" && !HasPrefix(v, prefix) then false
    else
      var v1 := if prefix != "" then v[|prefix|..] else v;
      var suffix := parts[|parts| - 1];
      if suffix != "" && !HasSuffix(v1, suffix) then false
      else
        var v2 := if suffix != "" then v1[..|v1| - |suffix|] else v1;
        MatchSegments(parts[1..|parts| - 1], v2)
  }

  /**
    Matching around the stars means: the value starts with the first part and ends with the
    last, the two do not overlap, and the middle parts occur in order in between.
  */
  lemma {:induction false} MatchAroundStarsMeaning(parts: seq<string>, v: string)
    requires |parts| >= 2
    ensures var first, last := parts[0], parts[|parts| - 1];
      MatchAroundStars(parts, v) <==>
        |first| + |last| <= |v| && HasPrefix(v, first) && HasSuffix(v, last)
        && InOrder(parts[1..|parts| - 1], v[|first|..|v| - |last|])
  {
    var first, last := parts[0], parts[|parts| - 1];
    if HasPrefix(v, first) {
      var v1 := v[|first|..];
      assert (if first != "" then v[|first|..] else v) == v1;
      if |first| + |last| <= |v| {
        CutBothEnds(v, |first|, |last|);
      }
      if HasSuffix(v1, last) {
        var v2 := v1[..|v1| - |last|];
        assert (if last != "" then v1[..|v1| - |last|] else v1) == v2;
        MatchSegmentsIsInOrder(parts[1..|parts| - 1], v2);
      }
    }
  }

  /** Matching with a `*` in the pattern is matching around the stars of the split pattern. */
  lemma MatchWildcardUnfold(pattern: string, value: string)
    requires '*' in ToLower(TrimSpace(pattern))
    ensures var p, v := ToLower(TrimSpace(pattern)), ToLower(TrimSpace(value));
      |Split(p, '*')| >= 2 &&
      (MatchWildcard(pattern, value) <==> v != "" && MatchAroundStars(Split(p, '*'), v))
  {
  }

  /**
    With a `*` in the normalised pattern p, the normalised value v matches exactly when it
    starts with the first segment, ends with the last one (without the two overlapping),
    and holds the middle segments in order between them.
  */
  lemma MatchWildcardSegments(pattern: string, value: string, p: string, v: string, parts: seq<string>)
    requires p == ToLower(TrimSpace(pattern)) && v == ToLower(TrimSpace(value))
    requires '*' in p && parts == Split(p, '*')
    ensures |parts| >= 2
    ensures var first, last := parts[0], parts[|parts| - 1];
      MatchWildcard(pattern, value) <==>
        v != "" && |first| + |last| <= |v| && HasPrefix(v, first) && HasSuffix(v, last)
        && InOrder(parts[1..|parts| - 1], v[|first|..|v| - |last|])
  {
    MatchWildcardUnfold(pattern, value);
    MatchAroundStarsMeaning(parts, v);
  }

  /** The pattern "*" matches every non-blank value. */
  lemma StarMatchesEverything(value: string)
    requires !IsBlank(value)
    ensures MatchWildcard("*", value)
  {
    TrimSpaceOfTrimmed("*");
    assert ToLower("*") == "*";
    assert Split("*", '*') == ["", ""] by {
      assert Split([], '*') == [[]];
    }
    assert TrimSpace(value) != "";
  }

  /** The base of a "-thinking" model, so limits can be shared with the non-thinking variant. */
  function StripThinkingVariant(modelKey: string): (r: string)
    ensures var t := ToLower(TrimSpace(modelKey));
      (HasSuffix(t, ClaudeThinkingSuffix) ==> r + ClaudeThinkingSuffix == t)
      && (!HasSuffix(t, ClaudeThinkingSuffix) ==> r == t)
  {
    TrimSuffix(ToLower(TrimSpace(modelKey)), ClaudeThinkingSuffix)
  }

  /** A normalised key has no leading space to trim. */
  lemma NormalisedKeyTrimLeft(k: string)
    requires TrimSpace(k) == k
    ensures TrimLeft(k) == k
  {
    TrimLeftShape(k);
    TrimRightShape(TrimLeft(k));
    TrimSpaceIsTrimBoth(k);
  }

  /** Appending a plain lowercase suffix to a normalised key and trimming it off again. */
  lemma TrimAppendedSuffix(k: string, suf: string)
    requires IsNormalisedKey(k)
    requires suf != [] && !IsSpace(suf[0]) && !IsSpace(suf[|suf| - 1]) && ToLower(suf) == suf
    ensures TrimSuffix(ToLower(TrimSpace(k + suf)), suf) == k
  {
    var t := k + suf;
    NormalisedKeyTrimLeft(k);
    TrimSpaceOfConcat(k, suf);
    assert TrimSpace(t) == t;
    ToLowerOfConcat(k, suf);
    assert ToLower(t) == t;
    assert HasSuffix(t, suf);
    assert t[..|t| - |suf|] == k;
  }

  /**
    A normalised key and its "-thinking" variant strip to the same base, so limits set on
    the base apply to both.
  */
  lemma ThinkingVariantSharesBase(k: string)
    requires IsNormalisedKey(k) && !HasSuffix(k, ClaudeThinkingSuffix)
    ensures StripThinkingVariant(k + ClaudeThinkingSuffix) == k
    ensures StripThinkingVariant(k) == k
  {
    assert ToLower(ClaudeThinkingSuffix) == ClaudeThinkingSuffix;
    TrimAppendedSuffix(k, ClaudeThinkingSuffix);
    assert ToLower(TrimSpace(k)) == k;
  }
}
