/**
  The request-handling helpers of the API handlers (sdk/api/handlers/handlers.go): the
  OpenAI-style error body, the classification of upstream errors (Claude failover and
  streaming bootstrap retries), the heuristic model-to-provider routing, the keep-alive
  settings, the captured response log, and the non-streaming execution with its single
  Claude failover.

  The auth manager's executor, the model registry (ResolveAutoModel, GetProviderName) and
  JSON validity are parameters. Response bytes are modelled as strings, one char per byte.
*/
module Handlers {
  import opened Wrappers
  import opened Strings
  import opened JsonValue
  import opened Http
  import opened PolicyModel
  import opened ApiKeyConfig

  // ---------------------------------------------------------------------------------------
  // Errors
  // ---------------------------------------------------------------------------------------

  /** A Go error: its text and, when it has a StatusCode method, the code it reports. */
  datatype GoError = GoError(text: string, statusCode: Option<int>)

  /** interfaces.ErrorMessage without its extra headers. */
  datatype ErrorMessage = ErrorMessage(statusCode: int, error: Option<GoError>)

  /** The trimmed text of an error; "" for no error. */
  function ErrString(err: Option<GoError>): (r: string)
    ensures err.None? ==> r == ""
    ensures TrimSpace(r) == r
  {
    if err.None? then "" else
      TrimSpaceIdempotent(err.value.text);
      TrimSpace(err.value.text)
  }

  /** The status an error reports through a StatusCode method; 0 when there is none or it is not positive. */
  function StatusFromError(err: Option<GoError>): (r: int)
    ensures r >= 0
    ensures r > 0 <==> err.Some? && err.value.statusCode.Some? && err.value.statusCode.value > 0
    ensures r > 0 ==> r == err.value.statusCode.value
  {
    if err.Some? && err.value.statusCode.Some? && err.value.statusCode.value > 0 then err.value.statusCode.value
    else 0
  }

  /**
    A string field of the error envelope as json.Unmarshal fills it: absent or null gives
    "", a string gives itself, and any other value makes the decoding fail (None).
  */
  function EnvelopeString(v: Json, key: string): (r: Option<string>)
    ensures Get(v, key).None? ==> r == Some("")
    ensures (exists s :: Get(v, key) == Some(JString(s))) ==> r.Some? && Get(v, key) == Some(JString(r.value))
  {
    match Get(v, key)
    case None => Some("")
    case Some(JNull) => Some("")
    case Some(JString(s)) => Some(s)
    case Some(_) => None
  }

  /**
    Decoding a JSON value into the error envelope {"error": {"message", "type", "code"},
    "message"}: the two messages, or None when json.Unmarshal reports an error (a value that
    is neither an object nor null, or a field of the wrong kind).
  */
  function EnvelopeMessages(v: Json): (r: Option<(string, string)>)
    ensures v.JNull? ==> r == Some(("", ""))
    ensures !v.JObject? && !v.JNull? ==> r.None?
    ensures v.JObject? && r.Some? ==>
      (Get(v, "message").None? || Get(v, "message") == Some(JNull) || Get(v, "message") == Some(JString(r.value.1)))
      && (Get(v, "message").None? || Get(v, "message") == Some(JNull) ==> r.value.1 == "")
    ensures v.JObject? && r.Some? ==>
      (Get(v, "error").None? || Get(v, "error") == Some(JNull) ==> r.value.0 == "")
      && (Get(v, "error").Some? && Get(v, "error").value.JObject? ==>
            EnvelopeString(Get(v, "error").value, "message") == Some(r.value.0))
    ensures v.JObject? && Get(v, "error").Some? && !Get(v, "error").value.JObject? && !Get(v, "error").value.JNull? ==> r.None?
  {
    match v
    case JNull => Some(("", ""))
    case JObject(_) =>
      var inner: Option<string> :=
        match Get(v, "error")
        case None => Some("")
        case Some(JNull) => Some("")
        case Some(JObject(f)) =>
          var e := JObject(f);
          if EnvelopeString(e, "type").Some? && EnvelopeString(e, "code").Some? then EnvelopeString(e, "message")
          else None
        case Some(_) => None;
      var outer := EnvelopeString(v, "message");
      if inner.Some? && outer.Some? then Some((inner.value, outer.value)) else None
    case _ => None
  }

  /**
    The human-readable message of an upstream error text: the trimmed error.message of a
    JSON error envelope, else its trimmed top-level message, else the trimmed text itself.
  */
  function ExtractErrorMessage(raw: string, parse: Parser): (r: string)
    ensures r == "" <==> IsBlank(raw)
    ensures TrimSpace(r) == r
    ensures parse(TrimSpace(raw)).None? ==> r == TrimSpace(raw)
  {
    var t := TrimSpace(raw);
    TrimSpaceIdempotent(raw);
    if t == "" then ""
    else match parse(t)
      case None => t
      case Some(v) =>
        match EnvelopeMessages(v)
        case None => t
        case Some((inner, outer)) =>
          TrimSpaceIdempotent(inner);
          TrimSpaceIdempotent(outer);
          if TrimSpace(inner) != "" then TrimSpace(inner)
          else if TrimSpace(outer) != "" then TrimSpace(outer)
          else t
  }

  /** A JSON error envelope's error.message is what the message extraction finds. */
  lemma EnvelopeMessageIsExtracted(raw: string, parse: Parser, m: string)
    requires !IsBlank(raw) && !IsBlank(m)
    requires parse(TrimSpace(raw)) == Some(JObject([("error", JObject([("message", JString(m))]))]))
    ensures ExtractErrorMessage(raw, parse) == TrimSpace(m)
  {
    var e := JObject([("message", JString(m))]);
    assert Get(e, "type").None? && Get(e, "code").None?;
    assert EnvelopeString(e, "message") == Some(m);
    var v := JObject([("error", e)]);
    assert Get(v, "error") == Some(e);
    assert Get(v, "message").None?;
    assert EnvelopeMessages(v) == Some((m, ""));
  }

  // ---------------------------------------------------------------------------------------
  // Error response body
  // ---------------------------------------------------------------------------------------

  /** An error response body: upstream JSON passed on verbatim, or an OpenAI-style error object. */
  datatype ErrorBody =
    | RawJson(text: string)
    | Structured(message: string, errType: string, code: string)

  /** The OpenAI error type and code of a status. */
  function ErrorTypeAndCode(status: int): (r: (string, string))
    ensures r.0 == "authentication_error" <==> status == StatusUnauthorized
    ensures r.0 == "permission_error" <==> status == StatusForbidden
    ensures r.0 == "rate_limit_error" <==> status == StatusTooManyRequests
    ensures r.0 == "server_error" <==> status >= StatusInternalServerError
    ensures r.0 == "invalid_request_error" <==>
      status < StatusInternalServerError && status !in {StatusUnauthorized, StatusForbidden, StatusTooManyRequests}
    ensures r.1 == "" <==>
      status < StatusInternalServerError && status !in {StatusUnauthorized, StatusForbidden, StatusTooManyRequests, StatusNotFound}
    ensures status == StatusNotFound ==> r == ("invalid_request_error", "model_not_found")
    ensures status >= StatusInternalServerError ==> r.1 == "internal_server_error"
  {
    if status == StatusUnauthorized then ("authentication_error", "invalid_api_key")
    else if status == StatusForbidden then ("permission_error", "insufficient_quota")
    else if status == StatusTooManyRequests then ("rate_limit_error", "rate_limit_exceeded")
    else if status == StatusNotFound then ("invalid_request_error", "model_not_found")
    else if status >= StatusInternalServerError then ("server_error", "internal_server_error")
    else ("invalid_request_error", "")
  }

  /**
    The error body for a status and error text: a non-positive status counts as 500, a
    blank text is replaced by the status text, and a text that is JSON once trimmed is sent
    as it is; otherwise the text is wrapped with the status's error type and code.
  */
  function BuildErrorResponseBody(status: int, errText: string, parse: Parser): (r: ErrorBody)
    ensures var s := if status <= 0 then StatusInternalServerError else status;
      var text := if IsBlank(errText) then StatusText(s) else errText;
      (r.RawJson? <==> !IsBlank(text) && parse(TrimSpace(text)).Some?)
      && (r.RawJson? ==> r.text == TrimSpace(text) && r.text != "")
      && (r.Structured? ==> r.message == text && (r.errType, r.code) == ErrorTypeAndCode(s))
  {
    var s := if status <= 0 then StatusInternalServerError else status;
    var text := if IsBlank(errText) then StatusText(s) else errText;
    var trimmed := TrimSpace(text);
    if trimmed != "" && parse(trimmed).Some? then RawJson(trimmed)
    else
      var tc := ErrorTypeAndCode(s);
      Structured(text, tc.0, tc.1)
  }

  /** A blank text with status 405 is reported with Go's registered text for it. */
  lemma BlankTextUsesRegisteredText(errText: string, parse: Parser)
    requires IsBlank(errText)
    requires parse("Method Not Allowed").None?
    ensures BuildErrorResponseBody(405, errText, parse)
         == Structured("Method Not Allowed", "invalid_request_error", "")
  {
    assert StatusText(405) == "Method Not Allowed";
    TrimSpaceOfTrimmed("Method Not Allowed");
  }

  /**
    An error with no status and no text is reported as a server error whose message is
    "Internal Server Error" (when that text is not itself JSON).
  */
  lemma MissingStatusAndTextIsServerError(status: int, errText: string, parse: Parser)
    requires status <= 0 && IsBlank(errText)
    requires parse("Internal Server Error").None?
    ensures BuildErrorResponseBody(status, errText, parse)
         == Structured("Internal Server Error", "server_error", "internal_server_error")
  {
    assert StatusText(StatusInternalServerError) == "Internal Server Error";
    TrimSpaceOfTrimmed("Internal Server Error");
  }

  // ---------------------------------------------------------------------------------------
  // Error classification
  // ---------------------------------------------------------------------------------------

  /** Some word of the list occurs in the message. */
  predicate MentionsAny(msg: string, words: seq<string>) {
    exists i :: 0 <= i < |words| && Contains(msg, words[i])
  }

  const AuthUnavailableWords := ["auth_unavailable", "auth_not_found", "no auth available"]
  const AccountScopedWords := ["account", "token", "oauth", "credential", "session", "login"]

  /**
    Whether an upstream failure of a Claude request may be retried on the failover target:
    quota and auth statuses always; a 500 that says no Claude auth is available; a 502 for
    an unknown provider of the model; a 400 that looks account- or credential-scoped.
  */
  function ClaudeFailoverEligible(status: int, err: Option<GoError>, parse: Parser): (r: bool)
    ensures var msg := ToLower(ExtractErrorMessage(ErrString(err), parse));
      r <==>
        status in {StatusTooManyRequests, StatusUnauthorized, StatusPaymentRequired, StatusForbidden}
        || (status == StatusInternalServerError && MentionsAny(msg, AuthUnavailableWords))
        || (status == StatusBadGateway && Contains(msg, "unknown provider") && Contains(msg, "model"))
        || (status == StatusBadRequest && MentionsAny(msg, AccountScopedWords))
  {
    var msg := ToLower(ExtractErrorMessage(ErrString(err), parse));
    if status == StatusTooManyRequests || status == StatusUnauthorized || status == StatusPaymentRequired
       || status == StatusForbidden then
      true
    else if status == StatusInternalServerError then
      if msg == "" then
        NothingInEmpty(AuthUnavailableWords);
        false
      else
        var w := AuthUnavailableWords;
        MentionsOneOfThree(msg, w);
        Contains(msg, w[0]) || Contains(msg, w[1]) || Contains(msg, w[2])
    else if status == StatusBadGateway then
      if msg == "" then
        NothingInEmpty(["unknown provider"]);
        false
      else Contains(msg, "unknown provider") && Contains(msg, "model")
    else if status == StatusBadRequest then
      if msg == "" then
        NothingInEmpty(AccountScopedWords);
        false
      else
        var w := AccountScopedWords;
        MentionsOneOfSix(msg, w);
        if Contains(msg, w[0]) then true
        else Contains(msg, w[1]) || Contains(msg, w[2]) || Contains(msg, w[3])
             || Contains(msg, w[4]) || Contains(msg, w[5])
    else false
  }

  lemma MentionsOneOfThree(msg: string, w: seq<string>)
    requires |w| == 3
    ensures MentionsAny(msg, w) <==> Contains(msg, w[0]) || Contains(msg, w[1]) || Contains(msg, w[2])
  {
  }

  lemma MentionsOneOfSix(msg: string, w: seq<string>)
    requires |w| == 6
    ensures MentionsAny(msg, w) <==> Contains(msg, w[0]) || Contains(msg, w[1]) || Contains(msg, w[2])
                                     || Contains(msg, w[3]) || Contains(msg, w[4]) || Contains(msg, w[5])
  {
  }

  /** No non-empty word occurs in the empty message. */
  lemma NothingInEmpty(words: seq<string>)
    requires forall i :: 0 <= i < |words| ==> words[i] != ""
    ensures !MentionsAny("", words)
  {
  }

  /** Without an error message, only the quota and auth statuses are failover-eligible. */
  lemma SilentErrorsNeedAQuotaStatus(status: int, parse: Parser)
    ensures ClaudeFailoverEligible(status, None, parse) <==>
      status in {StatusTooManyRequests, StatusUnauthorized, StatusPaymentRequired, StatusForbidden}
  {
    var msg := ToLower(ExtractErrorMessage(ErrString(None), parse));
    assert msg == "";
    forall w: string | w != "" ensures !Contains(msg, w) {
    }
  }

  /**
    Whether a streaming failure before the first byte may be retried: an error without a
    status, an auth, quota or timeout status, or a server error.
  */
  function BootstrapEligible(err: Option<GoError>): (r: bool)
    ensures !r <==> (0 < StatusFromError(err) < StatusInternalServerError
                     && StatusFromError(err) !in {StatusUnauthorized, StatusForbidden, StatusPaymentRequired,
                                                   StatusRequestTimeout, StatusTooManyRequests})
  {
    var status := StatusFromError(err);
    if status == 0 then true
    else if status in {StatusUnauthorized, StatusForbidden, StatusPaymentRequired,
                       StatusRequestTimeout, StatusTooManyRequests} then true
    else status >= StatusInternalServerError
  }

  /** Every status that makes a Claude failure failover-eligible on its own also allows a bootstrap retry. */
  lemma QuotaStatusesAllowBootstrapRetry(err: Option<GoError>, parse: Parser)
    requires StatusFromError(err) > 0
    requires StatusFromError(err) in {StatusTooManyRequests, StatusUnauthorized, StatusPaymentRequired, StatusForbidden}
    ensures ClaudeFailoverEligible(StatusFromError(err), err, parse) && BootstrapEligible(err)
  {
  }

  // ---------------------------------------------------------------------------------------
  // Providers and routing
  // ---------------------------------------------------------------------------------------

  /** Some provider, trimmed, equals the wanted one ignoring case. */
  function AnyProviderIs(providers: seq<string>, wanted: string): (r: bool)
    ensures r <==> exists i :: 0 <= i < |providers| && ToLower(TrimSpace(providers[i])) == wanted
  {
    if providers == [] then false
    else if ToLower(TrimSpace(providers[0])) == wanted then true
    else
      var r := AnyProviderIs(providers[1..], wanted);
      assert r ==> exists i :: 1 <= i < |providers| && ToLower(TrimSpace(providers[i])) == wanted by {
        if r {
          var j :| 0 <= j < |providers[1..]| && ToLower(TrimSpace(providers[1..][j])) == wanted;
          assert providers[j + 1] == providers[1..][j];
        }
      }
      assert (exists i :: 1 <= i < |providers| && ToLower(TrimSpace(providers[i])) == wanted) ==> r by {
        if exists i :: 1 <= i < |providers| && ToLower(TrimSpace(providers[i])) == wanted {
          var i :| 1 <= i < |providers| && ToLower(TrimSpace(providers[i])) == wanted;
          assert providers[1..][i - 1] == providers[i];
        }
      }
      r
  }

  /** Whether the provider list names a provider, compared trimmed and case-insensitively. */
  function ContainsProvider(providers: seq<string>, provider: string): (r: bool)
    ensures var wanted := TrimSpace(ToLower(provider));
      r <==> wanted != "" && exists i :: 0 <= i < |providers| && ToLower(TrimSpace(providers[i])) == wanted
  {
    var wanted := TrimSpace(ToLower(provider));
    if wanted == "" || |providers| == 0 then false
    else AnyProviderIs(providers, wanted)
  }

  /** The heuristic routes used when the registry knows no provider: model prefix to provider. */
  const HeuristicRoutes: seq<(string, string)> := [
    ("claude-", "claude"),
    ("gpt-", "codex"), ("o1", "codex"), ("o3", "codex"), ("o4", "codex"), ("chatgpt-", "codex"),
    ("gemini", "gemini"), ("models/gemini", "gemini"), ("vertex", "gemini"), ("aistudio", "gemini"),
    ("qwen", "qwen"), ("kimi", "kimi"), ("iflow", "iflow")
  ]

  /** Some route's prefix starts the name and that route leads to the provider. */
  predicate RoutedBy(lower: string, provider: string) {
    exists i :: 0 <= i < |HeuristicRoutes| && HasPrefix(lower, HeuristicRoutes[i].0) && HeuristicRoutes[i].1 == provider
  }

  /** The provider a model name's prefix suggests, on the trimmed lowercased base model. */
  function HeuristicProvider(baseModel: string): (r: Option<string>)
    ensures var lower := ToLower(TrimSpace(baseModel));
      (r.None? <==> forall i :: 0 <= i < |HeuristicRoutes| ==> !HasPrefix(lower, HeuristicRoutes[i].0))
      && (r.Some? ==> RoutedBy(lower, r.value))
  {
    var lower := ToLower(TrimSpace(baseModel));
    var R := HeuristicRoutes;
    if HasPrefix(lower, "claude-") then
      assert HasPrefix(lower, R[0].0);
      Some("claude")
    else if HasPrefix(lower, "gpt-") || HasPrefix(lower, "o1") || HasPrefix(lower, "o3")
            || HasPrefix(lower, "o4") || HasPrefix(lower, "chatgpt-") then
      assert HasPrefix(lower, R[1].0) || HasPrefix(lower, R[2].0) || HasPrefix(lower, R[3].0)
          || HasPrefix(lower, R[4].0) || HasPrefix(lower, R[5].0);
      Some("codex")
    else if HasPrefix(lower, "gemini") || HasPrefix(lower, "models/gemini") || HasPrefix(lower, "vertex")
            || HasPrefix(lower, "aistudio") then
      assert HasPrefix(lower, R[6].0) || HasPrefix(lower, R[7].0) || HasPrefix(lower, R[8].0)
          || HasPrefix(lower, R[9].0);
      Some("gemini")
    else if HasPrefix(lower, "qwen") then
      assert HasPrefix(lower, R[10].0);
      Some("qwen")
    else if HasPrefix(lower, "kimi") then
      assert HasPrefix(lower, R[11].0);
      Some("kimi")
    else if HasPrefix(lower, "iflow") then
      assert HasPrefix(lower, R[12].0);
      Some("iflow")
    else
      None
  }

  /**
    No name starts with the prefixes of two routes to different providers, so the order of
    the route checks does not matter: the suggested provider is the one every matching
    route leads to.
  */
  lemma RoutingIsUnambiguous(baseModel: string, i: nat)
    requires i < |HeuristicRoutes| && HasPrefix(ToLower(TrimSpace(baseModel)), HeuristicRoutes[i].0)
    ensures HeuristicProvider(baseModel) == Some(HeuristicRoutes[i].1)
  {
    var lower := ToLower(TrimSpace(baseModel));
    RoutesFollowLeadingChars();
    FirstTwoChars(lower, HeuristicRoutes[i].0);
    var r := HeuristicProvider(baseModel);
    var j :| 0 <= j < |HeuristicRoutes| && HasPrefix(lower, HeuristicRoutes[j].0) && HeuristicRoutes[j].1 == r.value;
    FirstTwoChars(lower, HeuristicRoutes[j].0);
  }

  /** The provider the first two characters of a route prefix determine. */
  function ProviderOfLead(a: char, b: char): string {
    if a == 'c' && b == 'l' then "claude"
    else if (a == 'g' && b == 'p') || a == 'o' || (a == 'c' && b == 'h') then "codex"
    else if (a == 'g' && b == 'e') || a == 'm' || a == 'v' || a == 'a' then "gemini"
    else if a == 'q' then "qwen"
    else if a == 'k' then "kimi"
    else if a == 'i' then "iflow"
    else ""
  }

  /** Every route prefix has two or more characters, and its first two determine its provider. */
  lemma RoutesFollowLeadingChars()
    ensures forall j :: 0 <= j < |HeuristicRoutes| ==>
      |HeuristicRoutes[j].0| >= 2 && ProviderOfLead(HeuristicRoutes[j].0[0], HeuristicRoutes[j].0[1]) == HeuristicRoutes[j].1
  {
  }

  /** A string with a prefix of two or more characters starts with that prefix's first two. */
  lemma FirstTwoChars(s: string, p: string)
    requires HasPrefix(s, p) && |p| >= 2
    ensures |s| >= 2 && s[0] == p[0] && s[1] == p[1]
  {
    assert s[..|p|] == p;
    assert s[0] == s[..|p|][0] && s[1] == s[..|p|][1];
  }

  /** The model registry: auto-model resolution and the providers registered for a model. */
  datatype Registry = Registry(resolveAuto: string -> string, providersOf: string -> seq<string>)

  const UnknownProviderPrefix := "unknown provider for model "

  /**
    The model name a request runs under: "auto" (with or without a "(budget)" suffix) is
    resolved through the registry and keeps its suffix; any other name is passed through
    the registry's resolution as a whole.
  */
  function ResolvedModelName(reg: Registry, modelName: string): (r: string)
    ensures ParseSuffix(modelName).modelName != "auto" ==> r == reg.resolveAuto(modelName)
    ensures modelName == "auto" ==> r == reg.resolveAuto("auto")
  {
    var initial := ParseSuffix(modelName);
    if initial.modelName == "auto" then
      var resolvedBase := reg.resolveAuto(initial.modelName);
      if initial.hasSuffix then resolvedBase + "(" + initial.rawSuffix + ")" else resolvedBase
    else reg.resolveAuto(modelName)
  }

  /** An "auto(raw)" model resolves its base and keeps the same "(raw)" suffix. */
  lemma AutoKeepsSuffix(reg: Registry, modelName: string)
    requires ParseSuffix(modelName).modelName == "auto" && ParseSuffix(modelName).hasSuffix
    ensures ParseSuffix(ResolvedModelName(reg, modelName))
            == SuffixResult(reg.resolveAuto("auto"), ParseSuffix(modelName).rawSuffix, true)
  {
    ParseSuffixOfBuilt(reg.resolveAuto("auto"), ParseSuffix(modelName).rawSuffix);
  }

  /**
    The providers and model name a request is executed with: the registry's providers of
    the trimmed base model, else of the full resolved name, else the heuristic route; with
    none of them, a 502 "unknown provider" error.
  */
  function GetRequestDetails(reg: Registry, modelName: string): (r: Result<(seq<string>, string), ErrorMessage>)
    ensures var resolved := ResolvedModelName(reg, modelName);
      var base := TrimSpace(ParseSuffix(resolved).modelName);
      (r.Err? <==> reg.providersOf(base) == [] && reg.providersOf(resolved) == [] && HeuristicProvider(base).None?)
      && (r.Err? ==> r.error == ErrorMessage(StatusBadGateway, Some(GoError(UnknownProviderPrefix + modelName, None))))
      && (r.Ok? ==> r.value.1 == resolved && r.value.0 != [])
      && (r.Ok? && reg.providersOf(base) == [] && reg.providersOf(resolved) == [] ==>
            r.value.0 == [HeuristicProvider(base).value])
  {
    var resolved := ResolvedModelName(reg, modelName);
    var base := TrimSpace(ParseSuffix(resolved).modelName);
    var fromRegistry :=
      if reg.providersOf(base) == [] && base != resolved then reg.providersOf(resolved) else reg.providersOf(base);
    var providers :=
      if fromRegistry != [] then fromRegistry
      else match HeuristicProvider(base)
        case Some(p) => [p]
        case None => [];
    if providers == [] then Err(ErrorMessage(StatusBadGateway, Some(GoError(UnknownProviderPrefix + modelName, None))))
    else Ok((providers, resolved))
  }

  /**
    The registry decides first: the providers registered for the base model, else, when the
    base differs from the resolved name, those registered for the resolved name.
  */
  lemma RegistryProvidersComeFirst(reg: Registry, modelName: string)
    ensures var resolved := ResolvedModelName(reg, modelName);
      var base := TrimSpace(ParseSuffix(resolved).modelName);
      (reg.providersOf(base) != [] ==>
         GetRequestDetails(reg, modelName) == Ok((reg.providersOf(base), resolved)))
      && (reg.providersOf(base) == [] && base != resolved && reg.providersOf(resolved) != [] ==>
         GetRequestDetails(reg, modelName) == Ok((reg.providersOf(resolved), resolved)))
  {
    var resolved := ResolvedModelName(reg, modelName);
    var base := TrimSpace(ParseSuffix(resolved).modelName);
    if reg.providersOf(base) != [] {
      assert GetRequestDetails(reg, modelName) == Ok((reg.providersOf(base), resolved));
    } else if base != resolved && reg.providersOf(resolved) != [] {
      assert GetRequestDetails(reg, modelName) == Ok((reg.providersOf(resolved), resolved));
    }
  }

  /** Whether a request's model, once resolved and without its suffix, is a claude- model. */
  function SeemsClaudeModel(reg: Registry, modelName: string): (r: bool)
    ensures HasPrefix(reg.resolveAuto(modelName), "claude-") ==> r
  {
    ClaudeNameSeemsClaude(reg.resolveAuto(modelName));
    HasPrefix(ToLower(TrimSpace(ParseSuffix(reg.resolveAuto(modelName)).modelName)), "claude-")
  }

  /** A resolved name spelled with the claude- prefix keeps it through suffix parsing, trimming and lowercasing. */
  lemma ClaudeNameSeemsClaude(resolved: string)
    ensures HasPrefix(resolved, "claude-") ==> HasPrefix(ToLower(TrimSpace(ParseSuffix(resolved).modelName)), "claude-")
  {
    if HasPrefix(resolved, "claude-") {
      var m := ParseSuffix(resolved).modelName;
      ParseSuffixKeepsPrefix(resolved, "claude-");
      TrimSpaceKeepsPrefix(m, "claude-");
      LowerKeepsPrefix(TrimSpace(m), "claude-");
    }
  }

  // ---------------------------------------------------------------------------------------
  // Keep-alive and retry settings
  // ---------------------------------------------------------------------------------------

  /** The streaming part of the SDK configuration. */
  datatype SDKConfig = SDKConfig(keepAliveSeconds: int, nonStreamKeepAliveInterval: int, bootstrapRetries: int)

  const NanosPerSecond := 1_000_000_000

  /** The SSE keep-alive interval in nanoseconds; 0 (disabled) unless configured positive. */
  function StreamingKeepAliveInterval(cfg: Option<SDKConfig>): (d: int)
    ensures d >= 0
    ensures d == 0 <==> cfg.None? || cfg.value.keepAliveSeconds <= 0
    ensures d > 0 ==> d == cfg.value.keepAliveSeconds * NanosPerSecond
  {
    var seconds := if cfg.Some? then cfg.value.keepAliveSeconds else 0;
    if seconds <= 0 then 0 else seconds * NanosPerSecond
  }

  /** The non-streaming keep-alive interval in nanoseconds; 0 (disabled) unless configured positive. */
  function NonStreamingKeepAliveInterval(cfg: Option<SDKConfig>): (d: int)
    ensures d >= 0
    ensures d == 0 <==> cfg.None? || cfg.value.nonStreamKeepAliveInterval <= 0
    ensures d > 0 ==> d == cfg.value.nonStreamKeepAliveInterval * NanosPerSecond
  {
    var seconds := if cfg.Some? then cfg.value.nonStreamKeepAliveInterval else 0;
    if seconds <= 0 then 0 else seconds * NanosPerSecond
  }

  /** How often a stream may be retried before its first byte: the configured count, never negative. */
  function StreamingBootstrapRetries(cfg: Option<SDKConfig>): (n: int)
    ensures n >= 0
    ensures cfg.Some? && cfg.value.bootstrapRetries >= 0 ==> n == cfg.value.bootstrapRetries
    ensures cfg.None? || cfg.value.bootstrapRetries < 0 ==> n == 0
  {
    var retries := if cfg.Some? then cfg.value.bootstrapRetries else 0;
    if retries < 0 then 0 else retries
  }

  // ---------------------------------------------------------------------------------------
  // Captured response log
  // ---------------------------------------------------------------------------------------

  /** The log after appending data: a newline separates it from a previous log that lacks one. */
  function AppendedLog(existing: Option<string>, data: string): (r: string)
    ensures existing.None? || existing.value == [] ==> r == data
    ensures existing.Some? && existing.value != [] ==>
      var e := existing.value;
      HasPrefix(r, e) && HasSuffix(r, data)
      && |r| == |e| + |data| + (if e[|e| - 1] == '\n' then 0 else 1)
      && (e[|e| - 1] != '\n' ==> r[|e|] == '\n')
  {
    if existing.None? || existing.value == [] then data
    else
      var e := existing.value;
      var r := if e[|e| - 1] == '\n' then e + data else e + "\n" + data;
      assert r[..|e|] == e;
      assert r[|r| - |data|..] == data;
      r
  }

  /**
    Appending chunks that end in a newline is appending their concatenation: the log is the
    chunks one after the other, separated exactly where a chunk lacks its newline.
  */
  lemma AppendNewlineTerminated(existing: Option<string>, a: string, b: string)
    requires a != [] && a[|a| - 1] == '\n'
    ensures AppendedLog(Some(AppendedLog(existing, a)), b) == AppendedLog(existing, a + b)
  {
    if existing.None? || existing.value == [] {
      assert AppendedLog(existing, a) == a;
      assert AppendedLog(Some(a), b) == a + b;
    } else {
      var e := existing.value;
      var sep := if e[|e| - 1] == '\n' then "" else "\n";
      var r := e + sep + a;
      assert AppendedLog(existing, a) == r;
      assert r[|r| - 1] == a[|a| - 1];
      assert AppendedLog(Some(r), b) == r + b;
      assert r + b == e + sep + (a + b);
    }
  }

  /** The request context entries the response log lives in. */
  class GinContext {
    var apiResponse: Option<string>
    var apiResponseTimestamp: Option<int>

    constructor ()
      ensures apiResponse.None? && apiResponseTimestamp.None?
    {
      apiResponse := None;
      apiResponseTimestamp := None;
    }
  }

  /**
    Record a chunk of upstream response: nothing for no context or empty data; otherwise
    the first chunk's time is kept and the chunk is appended to the log.
  */
  method AppendAPIResponse(c: GinContext?, data: string, now: int)
    modifies c
    ensures c != null && data == [] ==> c.apiResponse == old(c.apiResponse)
                                        && c.apiResponseTimestamp == old(c.apiResponseTimestamp)
    ensures c != null && data != [] ==>
      c.apiResponse == Some(AppendedLog(old(c.apiResponse), data))
      && c.apiResponseTimestamp == (if old(c.apiResponseTimestamp).None? then Some(now) else old(c.apiResponseTimestamp))
  {
    if c == null || |data| == 0 {
      return;
    }
    if c.apiResponseTimestamp.None? {
      c.apiResponseTimestamp := Some(now);
    }
    if c.apiResponse.Some? && |c.apiResponse.value| > 0 {
      var existing := c.apiResponse.value;
      var combined := existing;
      if existing[|existing| - 1] != '\n' {
        combined := combined + "\n";
      }
      combined := combined + data;
      c.apiResponse := Some(combined);
      return;
    }
    c.apiResponse := Some(data);
  }

  // ---------------------------------------------------------------------------------------
  // Non-streaming execution with Claude failover
  // ---------------------------------------------------------------------------------------

  /** The auth manager's Execute: providers, model and payload to a response payload or an error. */
  type Executor = (seq<string>, string, Option<Json>) -> Result<string, GoError>

  /** One call of the executor. */
  datatype Call = Call(providers: seq<string>, model: string, payload: Option<Json>)

  /** One execution: the payload, or the error with its status (500 when it reports none). */
  function ExecOnce(exec: Executor, call: Call): (r: Result<string, ErrorMessage>)
    ensures r.Err? ==> r.error.statusCode > 0 && r.error.error.Some?
    ensures r.Err? ==> exec(call.providers, call.model, call.payload).Err?
    ensures r.Ok? ==> exec(call.providers, call.model, call.payload) == Ok(r.value)
  {
    match exec(call.providers, call.model, call.payload)
    case Ok(payload) => Ok(payload)
    case Err(e) =>
      var code := StatusFromError(Some(e));
      Err(ErrorMessage(if code > 0 then code else StatusInternalServerError, Some(e)))
  }

  /** The body with its top-level "model" field set to the trimmed model, when it has one. */
  function RewriteModelField(body: Option<Json>, model: string): (r: Option<Json>)
    ensures TrimSpace(model) == "" || body.None? || !HasKey(body.value, "model") ==> r == body
    ensures TrimSpace(model) != "" && body.Some? && HasKey(body.value, "model") ==>
      r.Some? && r.value.JObject? && Lookup(r.value.fields, "model") == Some(JString(TrimSpace(model)))
      && forall k :: k != "model" ==> Lookup(r.value.fields, k) == Lookup(body.value.fields, k)
  {
    var m := TrimSpace(model);
    if body.None? || m == "" || !HasKey(body.value, "model") then body
    else Some(JObject(SetField(body.value.fields, "model", JString(m))))
  }

  /**
    Routing failed for the requested model, and the key's Claude failover applies: failover is
    enabled, the target differs from the model, the model looks like a Claude model and the
    routing error is eligible.
  */
  predicate PreExecFailoverApplies(reg: Registry, policy: Option<APIKeyPolicy>, modelName: string, parse: Parser)
  {
    var details := GetRequestDetails(reg, modelName);
    var target := ClaudeFailoverTargetModel(policy);
    details.Err? && target.1 && target.0 != modelName && SeemsClaudeModel(reg, modelName)
    && ClaudeFailoverEligible(details.error.statusCode, details.error.error, parse)
  }

  /**
    The first execution, of call, failed in a way that is retried on the failover target: the
    call went to Claude, failover is enabled with a target other than the call's model, the
    error (with its status, or the one derived from the error when it has none) is eligible
    and the target can be routed.
  */
  predicate PostExecFailoverApplies(reg: Registry, policy: Option<APIKeyPolicy>, call: Call,
                                    result: Result<string, ErrorMessage>, parse: Parser)
  {
    var target := ClaudeFailoverTargetModel(policy);
    result.Err? && target.1 && target.0 != call.model && ContainsProvider(call.providers, "claude")
    && ClaudeFailoverEligible(if result.error.statusCode <= 0 then StatusFromError(result.error.error)
                              else result.error.statusCode, result.error.error, parse)
    && GetRequestDetails(reg, target.0).Ok?
  }

  /**
    After a failed execution of call: the retry on the failover target, when the call went to
    Claude, failover is enabled with a target other than the call's model, the error (with
    its status, or the one derived from the error when it has none) is eligible and the
    target can be routed.
  */
  function FailoverRetry(reg: Registry, policy: Option<APIKeyPolicy>, call: Call, execErr: ErrorMessage,
                         parse: Parser): (r: Option<Call>)
    ensures r.Some? ==>
      ContainsProvider(call.providers, "claude") && ClaudeFailoverTargetModel(policy).1
      && ClaudeFailoverTargetModel(policy).0 != call.model
      && r == FailoverCall(reg, ClaudeFailoverTargetModel(policy).0, call.payload)
  {
    var target := ClaudeFailoverTargetModel(policy);
    if !(target.1 && ContainsProvider(call.providers, "claude") && TrimSpace(target.0) != ""
         && target.0 != call.model) then None
    else
      var status := if execErr.statusCode <= 0 then StatusFromError(execErr.error) else execErr.statusCode;
      if !ClaudeFailoverEligible(status, execErr.error, parse) then None
      else FailoverCall(reg, target.0, call.payload)
  }

  /**
    FailoverRetry gives a call exactly when the failed first execution is retried
    (PostExecFailoverApplies), and that call is the target's routing with the payload's model
    rewritten.
  */
  lemma FailoverRetryRetriesOnTarget(reg: Registry, policy: Option<APIKeyPolicy>, call: Call,
                                     execErr: ErrorMessage, parse: Parser)
    ensures FailoverRetry(reg, policy, call, execErr, parse).Some?
            <==> PostExecFailoverApplies(reg, policy, call, Err(execErr), parse)
    ensures FailoverRetry(reg, policy, call, execErr, parse).Some? ==>
      FailoverRetry(reg, policy, call, execErr, parse)
      == FailoverCall(reg, ClaudeFailoverTargetModel(policy).0, call.payload)
  {
    var target := ClaudeFailoverTargetModel(policy);
    var status := if execErr.statusCode <= 0 then StatusFromError(execErr.error) else execErr.statusCode;
    if target.1 && ContainsProvider(call.providers, "claude") && target.0 != call.model
       && ClaudeFailoverEligible(status, execErr.error, parse) {
      assert TrimSpace(target.0) != "";
      assert FailoverRetry(reg, policy, call, execErr, parse)
             == FailoverCall(reg, target.0, call.payload);
    } else {
      assert FailoverRetry(reg, policy, call, execErr, parse).None?;
      assert !PostExecFailoverApplies(reg, policy, call, Err(execErr), parse);
    }
  }

  /** A key without Claude failover never retries. */
  lemma NoRetryWithoutFailover(reg: Registry, policy: Option<APIKeyPolicy>, call: Call,
                               execErr: ErrorMessage, parse: Parser)
    requires !ClaudeFailoverTargetModel(policy).1
    ensures FailoverRetry(reg, policy, call, execErr, parse).None?
  {
  }

  /** The call that sends payload, with its model rewritten, to the failover target. */
  function FailoverCall(reg: Registry, target: string, payload: Option<Json>): (r: Option<Call>)
    ensures r.Some? <==> GetRequestDetails(reg, target).Ok?
    ensures r.Some? ==> GetRequestDetails(reg, target) == Ok((r.value.providers, r.value.model))
                        && r.value.payload == RewriteModelField(payload, target)
  {
    match GetRequestDetails(reg, target)
    case Ok(d) => Some(Call(d.0, d.1, RewriteModelField(payload, target)))
    case Err(_) => None
  }

  /**
    Route a non-streaming request before its first execution. When the model has no
    provider, a Claude request of a key with failover enabled is redirected to the failover
    target, with the body's model rewritten.
  */
  function Route(reg: Registry, policy: Option<APIKeyPolicy>, modelName: string,
                 rawJSON: Option<Json>, parse: Parser): (route: Result<Call, ErrorMessage>)
    ensures GetRequestDetails(reg, modelName).Ok? ==>
      route == Ok(Call(GetRequestDetails(reg, modelName).value.0, GetRequestDetails(reg, modelName).value.1, rawJSON))
    ensures GetRequestDetails(reg, modelName).Err? ==>
      (route.Ok? <==> PreExecFailoverApplies(reg, policy, modelName, parse)
                      && GetRequestDetails(reg, ClaudeFailoverTargetModel(policy).0).Ok?)
    ensures GetRequestDetails(reg, modelName).Err? && route.Ok? ==>
      Some(route.value) == FailoverCall(reg, ClaudeFailoverTargetModel(policy).0, rawJSON)
    ensures route.Err? ==>
      route.error.statusCode == StatusBadGateway
      && route == Err(if PreExecFailoverApplies(reg, policy, modelName, parse)
                      then GetRequestDetails(reg, ClaudeFailoverTargetModel(policy).0).error
                      else GetRequestDetails(reg, modelName).error)
  {
    var details := GetRequestDetails(reg, modelName);
    if details.Ok? then Ok(Call(details.value.0, details.value.1, rawJSON))
    else
      var errMsg := details.error;
      var target := ClaudeFailoverTargetModel(policy);
      if policy.None? then Err(errMsg)
      else if !(target.1 && TrimSpace(target.0) != "" && target.0 != modelName && SeemsClaudeModel(reg, modelName)
                && ClaudeFailoverEligible(errMsg.statusCode, errMsg.error, parse)) then Err(errMsg)
      else
        var failoverPayload := RewriteModelField(rawJSON, target.0);
        var failoverDetails := GetRequestDetails(reg, target.0);
        if failoverDetails.Err? then Err(failoverDetails.error)
        else Ok(Call(failoverDetails.value.0, failoverDetails.value.1, failoverPayload))
  }

  /**
    Execute a routed call and, when that fails, execute once more the call that retry gives
    for its error, if any. calls lists the executor calls made, in order.
  */
  method ExecuteRouted(call: Call, exec: Executor, retry: ErrorMessage -> Option<Call>)
    returns (out: Result<string, ErrorMessage>, ghost calls: seq<Call>)
    ensures 1 <= |calls| <= 2 && calls[0] == call
    ensures out == ExecOnce(exec, calls[|calls| - 1])
    ensures |calls| == 2 <==> ExecOnce(exec, call).Err? && retry(ExecOnce(exec, call).error).Some?
    ensures |calls| == 2 ==> Some(calls[1]) == retry(ExecOnce(exec, call).error)
    ensures ExecOnce(exec, call).Ok? ==> out == ExecOnce(exec, call)
    ensures ExecOnce(exec, call).Err? ==>
      out == match retry(ExecOnce(exec, call).error)
             case None => ExecOnce(exec, call)
             case Some(next) => ExecOnce(exec, next)
  {
    calls := [call];
    out := ExecOnce(exec, call);
    if out.Ok? {
      return;
    }
    var next := retry(out.error);
    if next.Some? {
      calls := calls + [next.value];
      out := ExecOnce(exec, next.value);
    }
  }

  /**
    calls and out are what executing call gives when a failure is retried with retry: the call
    is executed, and when that fails and retry holds a call, that call is executed once more
    and its result is the outcome.
  */
  ghost predicate ExecutesCall(call: Call, exec: Executor, retry: Option<Call>,
                               out: Result<string, ErrorMessage>, calls: seq<Call>)
  {
    calls == (if ExecOnce(exec, call).Ok? || retry.None? then [call] else [call, retry.value])
    && out == ExecOnce(exec, calls[|calls| - 1])
  }

  /**
    The outcome of executing route. A routing error is returned without calling the
    executor. A routed call is executed, and a failure is retried with the call FailoverRetry
    gives for its error. calls lists the executor calls made, in order.
  */
  ghost predicate ExecutesRoute(reg: Registry, policy: Option<APIKeyPolicy>, route: Result<Call, ErrorMessage>,
                                exec: Executor, parse: Parser, out: Result<string, ErrorMessage>, calls: seq<Call>)
  {
    match route
    case Err(e) => calls == [] && out == Err(e)
    case Ok(c) =>
      var first := ExecOnce(exec, c);
      ExecutesCall(c, exec, if first.Ok? then None else FailoverRetry(reg, policy, c, first.error, parse), out, calls)
  }

  /** What ExecuteRouted ensures for a retry function is executing the call with its retry. */
  lemma RoutedCallIsExecuted(call: Call, exec: Executor, retry: Option<Call>,
                             out: Result<string, ErrorMessage>, calls: seq<Call>)
    requires 1 <= |calls| <= 2 && calls[0] == call
    requires out == ExecOnce(exec, calls[|calls| - 1])
    requires |calls| == 2 <==> ExecOnce(exec, call).Err? && retry.Some?
    requires |calls| == 2 ==> Some(calls[1]) == retry
    ensures ExecutesCall(call, exec, retry, out, calls)
  {
    if |calls| == 2 {
      assert calls == [call, retry.value];
    }
  }

  /**
    A routed call is retried exactly when PostExecFailoverApplies to its failed execution,
    and the retry is the failover target's routing with the payload's model rewritten.
  */
  lemma ExecutesRouteRetriesOnTarget(reg: Registry, policy: Option<APIKeyPolicy>, call: Call,
                                     exec: Executor, parse: Parser, out: Result<string, ErrorMessage>,
                                     calls: seq<Call>)
    requires ExecutesRoute(reg, policy, Ok(call), exec, parse, out, calls)
    ensures 1 <= |calls| <= 2 && calls[0] == call && out == ExecOnce(exec, calls[|calls| - 1])
    ensures |calls| == 2 <==> PostExecFailoverApplies(reg, policy, call, ExecOnce(exec, call), parse)
    ensures |calls| == 2 ==>
      Some(calls[1]) == FailoverCall(reg, ClaudeFailoverTargetModel(policy).0, call.payload)
  {
    var first := ExecOnce(exec, call);
    if first.Err? {
      FailoverRetryRetriesOnTarget(reg, policy, call, first.error, parse);
    }
  }

  /** Without Claude failover the routed call is executed once and its result is the outcome. */
  lemma ExecutesOnceWithoutFailover(reg: Registry, policy: Option<APIKeyPolicy>, route: Result<Call, ErrorMessage>,
                                    exec: Executor, parse: Parser, out: Result<string, ErrorMessage>, calls: seq<Call>)
    requires ExecutesRoute(reg, policy, route, exec, parse, out, calls)
    requires !ClaudeFailoverTargetModel(policy).1
    ensures out == match route
                   case Err(e) => Err(e)
                   case Ok(c) => ExecOnce(exec, c)
    ensures |calls| == (if route.Ok? then 1 else 0)
  {
    if route.Ok? && ExecOnce(exec, route.value).Err? {
      NoRetryWithoutFailover(reg, policy, route.value, ExecOnce(exec, route.value).error, parse);
    }
  }

  /**
    Execute a non-streaming request: route it (Route), execute it, and when the execution
    fails, retry it once on the failover target when FailoverRetry gives a call for the
    error (ExecuteRouted).
  */
  method ExecuteWithAuthManager(reg: Registry, policy: Option<APIKeyPolicy>, modelName: string,
                                rawJSON: Option<Json>, exec: Executor, parse: Parser)
    returns (out: Result<string, ErrorMessage>, ghost calls: seq<Call>)
    ensures ExecutesRoute(reg, policy, Route(reg, policy, modelName, rawJSON, parse), exec, parse, out, calls)
    ensures Route(reg, policy, modelName, rawJSON, parse).Err? ==>
      out == Err(Route(reg, policy, modelName, rawJSON, parse).error)
    ensures Route(reg, policy, modelName, rawJSON, parse).Ok?
            && ExecOnce(exec, Route(reg, policy, modelName, rawJSON, parse).value).Ok? ==>
      out == ExecOnce(exec, Route(reg, policy, modelName, rawJSON, parse).value)
  {
    var route := Route(reg, policy, modelName, rawJSON, parse);
    if route.Err? {
      return Err(route.error), [];
    }
    var call := route.value;
    var retry := e => FailoverRetry(reg, policy, call, e, parse);
    out, calls := ExecuteRouted(call, exec, retry);
    ghost var first := ExecOnce(exec, call);
    ghost var next := if first.Ok? then None else FailoverRetry(reg, policy, call, first.error, parse);
    assert first.Err? ==> retry(first.error) == next;
    RoutedCallIsExecuted(call, exec, next, out, calls);
  }
}
