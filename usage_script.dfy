/**
  The data shaping of the Claude OAuth usage script (scripts/claude_oauth_usage.py): reading
  the management API's auth-file list, choosing the auth entries to query, unwrapping the
  api-call responses and ordering the usage windows of the summary. HTTP, argument parsing,
  environment lookups and printing are not part of this model; the responses they produce
  are inputs, and json.loads is a Parser argument.
*/
module UsageScript {
  import opened Wrappers
  import opened Strings
  import opened JsonValue

  // ---------------------------------------------------------------------------------------
  // Entry fields
  // ---------------------------------------------------------------------------------------

  /** _normalize_base_url: the base URL without its trailing slashes. */
  function NormalizeBaseUrl(baseUrl: string): (r: string)
    ensures HasPrefix(baseUrl, r) && (r != [] ==> r[|r| - 1] != '/')
    ensures forall i :: |r| <= i < |baseUrl| ==> baseUrl[i] == '/'
  {
    RStrip(baseUrl, '/')
  }

  /** Normalising a base URL twice is normalising it once. */
  lemma NormalizeBaseUrlIdempotent(baseUrl: string)
    ensures NormalizeBaseUrl(NormalizeBaseUrl(baseUrl)) == NormalizeBaseUrl(baseUrl)
  {
    var r := NormalizeBaseUrl(baseUrl);
    if r != [] {
      assert r[|r| - 1] != '/';
    }
  }

  /**
    The first of the keys whose value in the object passes ok, with its position; None when
    no key does (and always for a value that is not an object).
  */
  function FirstFieldWhere(v: Json, keys: seq<string>, ok: Json -> bool): (r: Option<(nat, Json)>)
    ensures r.Some? ==> r.value.0 < |keys| && Get(v, keys[r.value.0]) == Some(r.value.1) && ok(r.value.1)
    ensures r.Some? ==> forall j :: 0 <= j < r.value.0 ==> Get(v, keys[j]).None? || !ok(Get(v, keys[j]).value)
    ensures r.None? ==> forall j :: 0 <= j < |keys| ==> Get(v, keys[j]).None? || !ok(Get(v, keys[j]).value)
    decreases |keys|
  {
    if keys == [] then None
    else
      var g := Get(v, keys[0]);
      if g.Some? && ok(g.value) then Some((0, g.value))
      else
        match FirstFieldWhere(v, keys[1..], ok)
        case None => None
        case Some((i, x)) => Some((i + 1, x))
  }

  predicate IsSet(v: Json) { !v.JNull? }
  predicate IsString(v: Json) { v.JString? }
  predicate IsNonBlankString(v: Json) { v.JString? && !IsBlank(v.s) }
  predicate IsList(v: Json) { v.JArray? }

  const AuthIndexKeys := ["auth_index", "authIndex", "index"]
  const ProviderKeys := ["provider", "auth_provider", "authProvider"]
  const DisplayKeys := ["account", "email", "name", "username", "id"]

  /**
    _pick_auth_index: the text of the first of auth_index, authIndex and index that is set
    and not null; otherwise the entry's position in the list.
  */
  function PickAuthIndex(entry: Json, fallbackIndex: nat): (r: string)
    ensures var f := FirstFieldWhere(entry, AuthIndexKeys, IsSet);
      (f.None? ==> r == NatToString(fallbackIndex)) && (f.Some? ==> r == PyStr(f.value.1))
    ensures (forall j :: 0 <= j < |AuthIndexKeys| ==> Get(entry, AuthIndexKeys[j]).None? || Get(entry, AuthIndexKeys[j]) == Some(JNull))
            ==> r == NatToString(fallbackIndex)
  {
    match FirstFieldWhere(entry, AuthIndexKeys, IsSet)
    case Some((_, v)) => PyStr(v)
    case None => NatToString(fallbackIndex)
  }

  /** _extract_provider: the first of provider, auth_provider and authProvider holding a string. */
  function ExtractProvider(entry: Json): (r: Option<string>)
    ensures r.Some? <==> exists j :: 0 <= j < |ProviderKeys| && Get(entry, ProviderKeys[j]).Some? && Get(entry, ProviderKeys[j]).value.JString?
    ensures r.Some? ==> exists j :: 0 <= j < |ProviderKeys| && Get(entry, ProviderKeys[j]) == Some(JString(r.value))
    ensures forall j :: 0 <= j < |ProviderKeys| && Get(entry, ProviderKeys[j]).Some? && IsString(Get(entry, ProviderKeys[j]).value)
                        && (forall i :: 0 <= i < j ==> Get(entry, ProviderKeys[i]).None? || !IsString(Get(entry, ProviderKeys[i]).value))
                        ==> r == Some(Get(entry, ProviderKeys[j]).value.s)
  {
    match FirstFieldWhere(entry, ProviderKeys, IsString)
    case Some((i, v)) => Some(v.s)
    case None => None
  }

  /**
    _display_name: the first of account, email, name, username and id holding a non-blank
    string, stripped; otherwise "unknown".
  */
  function DisplayName(entry: Json): (r: string)
    ensures r != ""
    ensures r == "unknown" || exists j :: 0 <= j < |DisplayKeys| && Get(entry, DisplayKeys[j]).Some?
                                          && Get(entry, DisplayKeys[j]).value.JString?
                                          && r == TrimSpace(Get(entry, DisplayKeys[j]).value.s)
    ensures (forall j :: 0 <= j < |DisplayKeys| ==> Get(entry, DisplayKeys[j]).None? || !Get(entry, DisplayKeys[j]).value.JString?
                                                    || IsBlank(Get(entry, DisplayKeys[j]).value.s))
            ==> r == "unknown"
    ensures forall j :: 0 <= j < |DisplayKeys| && Get(entry, DisplayKeys[j]).Some? && IsNonBlankString(Get(entry, DisplayKeys[j]).value)
                        && (forall i :: 0 <= i < j ==> Get(entry, DisplayKeys[i]).None? || !IsNonBlankString(Get(entry, DisplayKeys[i]).value))
                        ==> r == TrimSpace(Get(entry, DisplayKeys[j]).value.s)
  {
    match FirstFieldWhere(entry, DisplayKeys, IsNonBlankString)
    case Some((i, v)) => TrimSpace(v.s)
    case None => "unknown"
  }

  // ---------------------------------------------------------------------------------------
  // Responses
  // ---------------------------------------------------------------------------------------

  /**
    _unwrap_api_call_body: a non-object passes through; otherwise its "body" (or the whole
    envelope when there is none) is returned when it is an object or a list, decoded when it
    is a JSON string, kept trimmed when it is any other string, None (null) when that string
    is blank, and returned as it is when it is any other value.
  */
  function UnwrapApiCallBody(resp: Json, parse: Parser): (r: Json)
    ensures !resp.JObject? ==> r == resp
    ensures resp.JObject? ==>
      var body := if HasKey(resp, "body") then Get(resp, "body").value else resp;
      (body.JObject? || body.JArray? ==> r == body)
      && (body.JString? && IsBlank(body.s) ==> r == JNull)
      && (body.JString? && !IsBlank(body.s) ==>
            r == (match parse(TrimSpace(body.s)) case Some(v) => v case None => JString(TrimSpace(body.s))))
      && (!body.JObject? && !body.JArray? && !body.JString? ==> r == body)
  {
    if !resp.JObject? then resp
    else
      var body := if HasKey(resp, "body") then Get(resp, "body").value else resp;
      if body.JObject? || body.JArray? then body
      else if body.JString? then
        var bodyStr := TrimSpace(body.s);
        if bodyStr == "" then JNull
        else match parse(bodyStr)
          case Some(v) => v
          case None => JString(bodyStr)
      else body
  }

  /** The usage body of an api-call response: a non-object response is treated as the body of an envelope. */
  function ResponseBody(wrapped: Json, parse: Parser): (r: Json)
    ensures wrapped.JObject? ==> r == UnwrapApiCallBody(wrapped, parse)
    ensures !wrapped.JObject? && !wrapped.JString? ==> r == wrapped
  {
    var envelope := if wrapped.JObject? then wrapped else JObject([("body", wrapped)]);
    assert !wrapped.JObject? ==> Get(envelope, "body") == Some(wrapped);
    UnwrapApiCallBody(envelope, parse)
  }

  /** A bare string response is read exactly like an envelope whose body is that string. */
  lemma BareStringIsABody(s: string, parse: Parser)
    ensures ResponseBody(JString(s), parse) == ResponseBody(JObject([("body", JString(s))]), parse)
    ensures IsBlank(s) ==> ResponseBody(JString(s), parse) == JNull
    ensures !IsBlank(s) && parse(TrimSpace(s)).None? ==> ResponseBody(JString(s), parse) == JString(TrimSpace(s))
  {
    var e := JObject([("body", JString(s))]);
    assert Get(e, "body") == Some(JString(s));
  }

  const AuthFilesKeys := ["files", "data", "items", "auth_files", "authFiles"]

  /**
    The auth-file list of the /auth-files response: the response itself when it is a list,
    else the first of files, data, items, auth_files and authFiles holding a list; None when
    there is no list (the script exits with status 3).
  */
  function AuthFilesList(raw: Json): (r: Option<seq<Json>>)
    ensures raw.JArray? ==> r == Some(raw.items)
    ensures !raw.JArray? ==>
      var f := FirstFieldWhere(raw, AuthFilesKeys, IsList);
      (r.None? <==> f.None?) && (r.Some? ==> r.value == f.value.1.items)
    ensures r.None? ==> !raw.JArray? && forall j :: 0 <= j < |AuthFilesKeys| ==>
      Get(raw, AuthFilesKeys[j]).None? || !Get(raw, AuthFilesKeys[j]).value.JArray?
  {
    if raw.JArray? then Some(raw.items)
    else match FirstFieldWhere(raw, AuthFilesKeys, IsList)
      case Some((_, v)) => Some(v.items)
      case None => None
  }

  /** Python's type(x).__name__ for a decoded JSON value. */
  function TypeName(v: Json): string {
    match v
    case JNull => "NoneType"
    case JBool(_) => "bool"
    case JNumber(_) => "int"
    case JString(_) => "str"
    case JArray(_) => "list"
    case JObject(_) => "dict"
  }

  // ---------------------------------------------------------------------------------------
  // Auth index selectors
  // ---------------------------------------------------------------------------------------

  /** The non-empty trimmed comma-separated parts of one --auth-index argument. */
  function SelectorsOf(raw: string): (r: set<string>)
    ensures forall x :: x in r <==> x != "" && exists p :: p in Split(raw, ',') && TrimSpace(p) == x
  {
    set p | p in Split(raw, ',') && TrimSpace(p) != "" :: TrimSpace(p)
  }

  /** The wanted auth indexes: the selectors of every --auth-index argument. */
  function Selectors(args: seq<string>): set<string> {
    if args == [] then {} else Selectors(args[..|args| - 1]) + SelectorsOf(args[|args| - 1])
  }

  /** Every selector is one trimmed, non-empty index without a comma. */
  lemma {:induction false} SelectorsAreSingleIndexes(args: seq<string>, x: string)
    requires x in Selectors(args)
    ensures x != "" && TrimSpace(x) == x && ',' !in x
  {
    var n := |args| - 1;
    if x in Selectors(args[..n]) {
      SelectorsAreSingleIndexes(args[..n], x);
    } else {
      var p :| p in Split(args[n], ',') && TrimSpace(p) == x;
      TrimSpaceIdempotent(p);
      TrimSpaceIsPartOf(p);
    }
  }

  /** A trimmed string is a contiguous part of the string, so it has no character the string lacks. */
  lemma TrimSpaceIsPartOf(s: string)
    ensures forall c :: c in TrimSpace(s) ==> c in s
  {
    var l := TrimLeft(s);
    TrimLeftShape(s);
    TrimRightShape(l);
    forall c | c in TrimSpace(s) ensures c in s {
      var i :| 0 <= i < |TrimSpace(s)| && TrimSpace(s)[i] == c;
      assert TrimSpace(s) == TrimRight(l);
      assert c == l[i];
      assert l[i] == s[|s| - |l| + i];
    }
  }

  /** The main loop that gathers the wanted auth indexes; empty arguments are skipped. */
  method WantedAuthIndexes(args: seq<string>) returns (wanted: set<string>)
    ensures wanted == Selectors(args)
  {
    wanted := {};
    for k := 0 to |args|
      invariant wanted == Selectors(args[..k])
    {
      assert args[..k + 1][..k] == args[..k];
      var raw := args[k];
      if raw == "" {
        assert Split(raw, ',') == [[]];
        continue;
      }
      var parts := Split(raw, ',');
      var got: set<string> := {};
      for i := 0 to |parts|
        invariant got == set p | p in parts[..i] && TrimSpace(p) != "" :: TrimSpace(p)
      {
        assert parts[..i + 1] == parts[..i] + [parts[i]];
        var part := TrimSpace(parts[i]);
        if part != "" {
          got := got + {part};
        }
      }
      assert parts[..|parts|] == parts;
      wanted := wanted + got;
    }
    assert args[..|args|] == args;
  }

  // ---------------------------------------------------------------------------------------
  // Auth entry selection
  // ---------------------------------------------------------------------------------------

  /** The provider an entry reports, lowercased and trimmed; "" when it reports none. */
  function EntryProvider(entry: Json): string {
    TrimSpace(ToLower(match ExtractProvider(entry) case Some(p) => p case None => ""))
  }

  /**
    Whether the entry at position idx is queried: it is an object of the wanted provider and,
    when auth indexes are given, its auth index is one of them.
  */
  predicate Keeps(entry: Json, idx: nat, provider: string, wanted: set<string>) {
    entry.JObject? && EntryProvider(entry) == provider && (wanted == {} || PickAuthIndex(entry, idx) in wanted)
  }

  /** The (auth index, entry) pair queried for the entry at position idx. */
  function Target(entry: Json, idx: nat): (string, Json) {
    (PickAuthIndex(entry, idx), entry)
  }

  /** Whether the entry at a list position is queried. */
  type KeepTest = (Json, nat) -> bool
  /** The (auth index, entry) pair queried for the entry at a list position. */
  type TargetOf = (Json, nat) -> (string, Json)

  /** The targets of the entries keep accepts, in list order. */
  function Selected(files: seq<Json>, keep: KeepTest, target: TargetOf): (r: seq<(string, Json)>)
    ensures |r| <= |files|
  {
    if files == [] then []
    else
      var n := |files| - 1;
      var rest := Selected(files[..n], keep, target);
      if keep(files[n], n) then rest + [target(files[n], n)] else rest
  }

  /** x is the target of the kept entry at position j of the list. */
  predicate KeptAt(files: seq<Json>, j: nat, keep: KeepTest, target: TargetOf, x: (string, Json)) {
    j < |files| && keep(files[j], j) && x == target(files[j], j)
  }

  /** pos gives, for each selected pair, the increasing list position of its entry. */
  predicate PositionsOf(files: seq<Json>, keep: KeepTest, target: TargetOf, r: seq<(string, Json)>, pos: seq<nat>) {
    |pos| == |r|
    && (forall k :: 0 <= k < |pos| ==> KeptAt(files, pos[k], keep, target, r[k]))
    && (forall k, l :: 0 <= k < l < |pos| ==> pos[k] < pos[l])
  }

  /** Every selected pair is the target of a kept entry, and they come in list order. */
  lemma {:induction false} SelectedInListOrder(files: seq<Json>, keep: KeepTest, target: TargetOf)
    returns (pos: seq<nat>)
    ensures PositionsOf(files, keep, target, Selected(files, keep, target), pos)
    ensures forall k :: 0 <= k < |pos| ==> pos[k] < |files|
  {
    if files == [] {
      pos := [];
    } else {
      var n := |files| - 1;
      var init := files[..n];
      var rest := Selected(init, keep, target);
      var before := SelectedInListOrder(init, keep, target);
      forall k | 0 <= k < |before| ensures KeptAt(files, before[k], keep, target, rest[k]) {
        assert init[before[k]] == files[before[k]];
      }
      if keep(files[n], n) {
        pos := before + [n];
        assert PositionsOf(files, keep, target, rest + [target(files[n], n)], pos);
      } else {
        pos := before;
      }
    }
  }

  /** Every kept entry is selected. */
  lemma {:induction false} SelectedIsComplete(files: seq<Json>, keep: KeepTest, target: TargetOf, j: nat)
    requires j < |files| && keep(files[j], j)
    ensures target(files[j], j) in Selected(files, keep, target)
  {
    var n := |files| - 1;
    var init := files[..n];
    var rest := Selected(init, keep, target);
    if j < n {
      assert init[j] == files[j];
      SelectedIsComplete(init, keep, target, j);
      assert target(files[j], j) in rest;
      assert Selected(files, keep, target) == rest || Selected(files, keep, target) == rest + [target(files[n], n)];
    } else {
      assert Selected(files, keep, target) == rest + [target(files[n], n)];
    }
  }

  /** The acceptance test of the main loop for a provider and the wanted auth indexes. */
  function KeepFor(provider: string, wanted: set<string>): KeepTest {
    (entry: Json, idx: nat) => Keeps(entry, idx, provider, wanted)
  }

  /** The main loop that collects the entries to query, in list order. */
  method SelectEntries(files: seq<Json>, provider: string, wanted: set<string>) returns (entries: seq<(string, Json)>)
    ensures entries == Selected(files, KeepFor(provider, wanted), Target)
  {
    entries := [];
    for idx := 0 to |files|
      invariant entries == Selected(files[..idx], KeepFor(provider, wanted), Target)
    {
      assert files[..idx + 1][..idx] == files[..idx];
      var entry := files[idx];
      if !entry.JObject? {
        continue;
      }
      var p := EntryProvider(entry);
      if p == provider {
        var authIndex := PickAuthIndex(entry, idx);
        if wanted != {} && authIndex !in wanted {
          continue;
        }
        entries := entries + [Target(entry, idx)];
      }
      assert KeepFor(provider, wanted)(entry, idx) == Keeps(entry, idx, provider, wanted);
    }
    assert files[..|files|] == files;
  }

  /** Why the script stops before querying usage. */
  datatype Failure =
    | UnexpectedAuthFilesType(typeName: string)
    | NoEntriesForProvider(provider: string)
    | NoEntriesForAuthIndexes(provider: string, wanted: set<string>)

  /** The exit status of a failure. */
  function ExitCode(f: Failure): (code: int)
    ensures code == 3 <==> f.UnexpectedAuthFilesType?
    ensures code == 4 <==> !f.UnexpectedAuthFilesType?
  {
    if f.UnexpectedAuthFilesType? then 3 else 4
  }

  /**
    The entries the script queries for a provider argument and the --auth-index arguments,
    or why it stops: an /auth-files response without a list (3), or no matching entry (4,
    naming the indexes when some were given).
  */
  method ChooseEntries(authFilesRaw: Json, providerArg: string, indexArgs: seq<string>)
    returns (r: Result<seq<(string, Json)>, Failure>)
    ensures AuthFilesList(authFilesRaw).None? <==> r == Err(UnexpectedAuthFilesType(TypeName(authFilesRaw)))
    ensures AuthFilesList(authFilesRaw).Some? ==>
      var chosen := Selected(AuthFilesList(authFilesRaw).value, KeepFor(TrimSpace(ToLower(providerArg)), Selectors(indexArgs)), Target);
      (chosen != [] ==> r == Ok(chosen))
      && (chosen == [] && Selectors(indexArgs) == {} ==> r == Err(NoEntriesForProvider(providerArg)))
      && (chosen == [] && Selectors(indexArgs) != {} ==> r == Err(NoEntriesForAuthIndexes(providerArg, Selectors(indexArgs))))
  {
    var files := AuthFilesList(authFilesRaw);
    if files.None? {
      return Err(UnexpectedAuthFilesType(TypeName(authFilesRaw)));
    }
    var provider := TrimSpace(ToLower(providerArg));
    var wanted := WantedAuthIndexes(indexArgs);
    var entries := SelectEntries(files.value, provider, wanted);
    if |entries| == 0 {
      if wanted != {} {
        return Err(NoEntriesForAuthIndexes(providerArg, wanted));
      }
      return Err(NoEntriesForProvider(providerArg));
    }
    return Ok(entries);
  }

  // ---------------------------------------------------------------------------------------
  // Summary
  // ---------------------------------------------------------------------------------------

  const PreferredWindows := ["five_hour", "seven_day"]

  /** The field names of an object, in order. */
  function FieldNames(fields: seq<(string, Json)>): (r: seq<string>)
    ensures |r| == |fields| && forall i :: 0 <= i < |fields| ==> r[i] == fields[i].0
  {
    seq(|fields|, i requires 0 <= i < |fields| => fields[i].0)
  }

  /** The windows the summary shows first. */
  predicate IsPreferred(name: string) {
    name == "five_hour" || name == "seven_day"
  }

  /** The names that are not preferred windows, in order. */
  function NotPreferred(names: seq<string>): (r: seq<string>)
    ensures forall x :: multiset(r)[x] == if IsPreferred(x) then 0 else multiset(names)[x]
  {
    if names == [] then []
    else
      assert names == [names[0]] + names[1..];
      (if IsPreferred(names[0]) then [] else [names[0]]) + NotPreferred(names[1..])
  }

  /** Window names sort by themselves. */
  function NameKey(name: string): string {
    name
  }

  /** The order the summary visits windows in: five_hour, seven_day, then every other key sorted. */
  function SummaryKeys(body: Json): (r: seq<string>)
    requires body.JObject?
    ensures |r| >= 2 && r[0] == "five_hour" && r[1] == "seven_day"
  {
    PreferredWindows + SortBy(NotPreferred(FieldNames(body.fields)), NameKey)
  }

  /**
    After the two preferred windows come the body's other keys, each as often as it occurs,
    in sorted order.
  */
  lemma SummaryKeysOrder(body: Json)
    requires body.JObject?
    ensures var rest := SummaryKeys(body)[2..];
      SortedBy(rest, NameKey)
      && forall x :: multiset(rest)[x] == if IsPreferred(x) then 0 else multiset(FieldNames(body.fields))[x]
  {
    var others := NotPreferred(FieldNames(body.fields));
    assert SummaryKeys(body)[2..] == SortBy(others, NameKey);
  }

  /** One line of the summary: a window's name, its utilization and its reset time (null when unset). */
  datatype WindowLine = WindowLine(name: string, utilization: Json, resetsAt: Json)

  /** The line for a window: its name, its utilization and its reset time, null when it has none. */
  function LineOf(body: Json, k: string): (line: WindowLine)
    requires HasWindow(body, k)
    ensures line.name == k
    ensures Get(Get(body, k).value, "utilization") == Some(line.utilization)
    ensures HasKey(Get(body, k).value, "resets_at") ==> Get(Get(body, k).value, "resets_at") == Some(line.resetsAt)
    ensures !HasKey(Get(body, k).value, "resets_at") ==> line.resetsAt == JNull
  {
    var w := Get(body, k).value;
    WindowLine(k, Get(w, "utilization").value, match Get(w, "resets_at") case Some(t) => t case None => JNull)
  }

  /** The lines for the windows named by keys that are objects with a utilization, in key order. */
  function WindowLines(body: Json, keys: seq<string>): (r: seq<WindowLine>)
    ensures |r| <= |keys|
    ensures forall i :: 0 <= i < |r| ==> r[i].name in keys && HasWindow(body, r[i].name)
                                         && r[i] == LineOf(body, r[i].name)
    ensures forall j :: 0 <= j < |keys| && HasWindow(body, keys[j]) ==> LineOf(body, keys[j]) in r
    ensures |keys| == 1 ==> r == if HasWindow(body, keys[0]) then [LineOf(body, keys[0])] else []
  {
    if keys == [] then []
    else
      var init := keys[..|keys| - 1];
      var k := keys[|keys| - 1];
      var rest := WindowLines(body, init);
      if HasWindow(body, k) then rest + [LineOf(body, k)] else rest
  }

  /**
    The lines of a + b are the lines of a followed by those of b. With the one-element case,
    WindowLines keeps the windows among the keys, one line per key, in key order.
  */
  lemma {:induction false} WindowLinesOfConcat(body: Json, a: seq<string>, b: seq<string>)
    ensures WindowLines(body, a + b) == WindowLines(body, a) + WindowLines(body, b)
    decreases |b|
  {
    if b == [] {
      assert a + b == a;
    } else {
      var init := b[..|b| - 1];
      assert (a + b)[..|a + b| - 1] == a + init;
      assert (a + b)[|a + b| - 1] == b[|b| - 1];
      WindowLinesOfConcat(body, a, init);
    }
  }

  /** The key names a window: an object value with a utilization field. */
  predicate HasWindow(body: Json, k: string) {
    Get(body, k).Some? && Get(body, k).value.JObject? && HasKey(Get(body, k).value, "utilization")
  }

  /** The summary of a usage body: nothing for a non-object, else its window lines in summary order. */
  function Summary(body: Json): (r: seq<WindowLine>)
    ensures !body.JObject? ==> r == []
    ensures body.JObject? ==>
      r == WindowLines(body, PreferredWindows)
           + WindowLines(body, SortBy(NotPreferred(FieldNames(body.fields)), NameKey))
  {
    if !body.JObject? then []
    else
      WindowLinesOfConcat(body, PreferredWindows, SortBy(NotPreferred(FieldNames(body.fields)), NameKey));
      WindowLines(body, SummaryKeys(body))
  }

  /** When the body has a five_hour window, the summary starts with it. */
  lemma FiveHourComesFirst(body: Json)
    requires body.JObject? && HasWindow(body, "five_hour")
    ensures Summary(body) != [] && Summary(body)[0].name == "five_hour"
  {
    var keys := SummaryKeys(body);
    WindowLinesStartWith(body, keys);
  }

  /** A window at the head of the key list gives the first line. */
  lemma {:induction false} WindowLinesStartWith(body: Json, keys: seq<string>)
    requires keys != [] && HasWindow(body, keys[0])
    ensures WindowLines(body, keys) != [] && WindowLines(body, keys)[0].name == keys[0]
    decreases |keys|
  {
    if |keys| > 1 {
      var init := keys[..|keys| - 1];
      assert init[0] == keys[0];
      WindowLinesStartWith(body, init);
    }
  }
}
