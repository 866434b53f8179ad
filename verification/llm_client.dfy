/** The diagnosis client: configuration, prompt construction, the three
    language-model backends with their reply normalisation, and the dispatch
    on the configured provider name. The backends' network calls and
    `json.loads` are oracles carried by `Services`. */
module LlmClient {
  import opened Optional
  import opened PyText
  import opened PyValue

  // ---------------------------------------------------------------------
  // Configuration
  // ---------------------------------------------------------------------

  const DefaultProvider: string := "gemini"
  const DefaultFastRouterEndpoint: string := "https://go.fastrouter.ai/api/v1"

  /** The configuration record, one field per environment variable read. */
  datatype Config = Config(
    geminiApiKey: Option<string>,
    llamaApiKey: Option<string>,
    llamaEndpoint: Option<string>,
    activeLlmProvider: string,
    fastrouterApiKey: Option<string>,
    fastrouterEndpoint: Option<string>)

  /** `os.getenv(name)`. */
  function GetEnv(env: map<string, string>, name: string): Option<string>
  {
    if name in env then Some(env[name]) else None
  }

  /** Reads the configuration from the environment. The provider name is
      lowered and defaults to Gemini; the FastRouter endpoint has a default. */
  function LoadConfig(env: map<string, string>): (c: Config)
    ensures "ACTIVE_LLM_PROVIDER" !in env ==> c.activeLlmProvider == DefaultProvider
    ensures "ACTIVE_LLM_PROVIDER" in env ==> |c.activeLlmProvider| == |env["ACTIVE_LLM_PROVIDER"]|
    ensures forall i :: 0 <= i < |c.activeLlmProvider| ==> !IsUpperAscii(c.activeLlmProvider[i])
    ensures "FASTRTR_ENDPOINT" !in env ==> c.fastrouterEndpoint == Some(DefaultFastRouterEndpoint)
    ensures "FASTRTR_ENDPOINT" in env ==> c.fastrouterEndpoint == Some(env["FASTRTR_ENDPOINT"])
    ensures "ACTIVE_LLM_PROVIDER" in env ==> c.activeLlmProvider == Lower(env["ACTIVE_LLM_PROVIDER"])
    ensures c.geminiApiKey.Some? <==> "GEMINI_API_KEY" in env
    ensures c.llamaApiKey.Some? <==> "LLAMA_API_KEY" in env
    ensures c.llamaEndpoint.Some? <==> "LLAMA_ENDPOINT" in env
    ensures c.fastrouterApiKey.Some? <==> "FASTRTR_API_KEY" in env
    ensures "GEMINI_API_KEY" in env ==> c.geminiApiKey.value == env["GEMINI_API_KEY"]
    ensures "LLAMA_API_KEY" in env ==> c.llamaApiKey.value == env["LLAMA_API_KEY"]
    ensures "LLAMA_ENDPOINT" in env ==> c.llamaEndpoint.value == env["LLAMA_ENDPOINT"]
    ensures "FASTRTR_API_KEY" in env ==> c.fastrouterApiKey.value == env["FASTRTR_API_KEY"]
  {
    Config(
      GetEnv(env, "GEMINI_API_KEY"),
      GetEnv(env, "LLAMA_API_KEY"),
      GetEnv(env, "LLAMA_ENDPOINT"),
      Lower(GetEnv(env, "ACTIVE_LLM_PROVIDER").GetOr(DefaultProvider)),
      GetEnv(env, "FASTRTR_API_KEY"),
      Some(GetEnv(env, "FASTRTR_ENDPOINT").GetOr(DefaultFastRouterEndpoint)))
  }

  /** Python truthiness of a setting: unset (`None`) and empty are both false. */
  predicate Configured(v: Option<string>)
  {
    v.Some? && v.value != ""
  }

  // ---------------------------------------------------------------------
  // Provider dispatch
  // ---------------------------------------------------------------------

  datatype Provider = Gemini | Llama | FastRouter | Unknown(name: string)

  /** `name.lower().strip()`. */
  function NormalizeProvider(name: string): (n: string)
    ensures Trimmed(n) && |n| <= |name|
    ensures forall i :: 0 <= i < |n| ==> !IsUpperAscii(n[i])
    ensures n == [] <==> AllSpace(name)
  {
    StripKeepsLowerCase(Lower(name));
    LowerKeepsSpace(name);
    Strip(Lower(name))
  }

  /** The backend an already normalised provider name selects. */
  function ClassifyName(n: string): (p: Provider)
    ensures p == Gemini <==> n == "gemini"
    ensures p == Llama <==> n == "llama"
    ensures p == FastRouter <==> StartsWith(n, "fastrouter")
    ensures p.Unknown? <==> n != "gemini" && n != "llama" && !StartsWith(n, "fastrouter")
    ensures p.Unknown? ==> p.name == n
  {
    if n == "gemini" then Gemini
    else if n == "llama" then Llama
    else if n == "fastrouter" || StartsWith(n, "fastrouter") then FastRouter
    else Unknown(n)
  }

  /** The backend a configured provider name selects. */
  function ClassifyProvider(configured: string): (p: Provider)
    ensures var n := NormalizeProvider(configured);
      && (p == Gemini <==> n == "gemini")
      && (p == Llama <==> n == "llama")
      && (p == FastRouter <==> StartsWith(n, "fastrouter"))
      && (p.Unknown? <==> n != "gemini" && n != "llama" && !StartsWith(n, "fastrouter"))
      && (p.Unknown? ==> p.name == n)
  {
    ClassifyName(NormalizeProvider(configured))
  }

  function ActiveProvider(env: map<string, string>): Provider
  {
    ClassifyProvider(LoadConfig(env).activeLlmProvider)
  }

  /** The settings the selected backend needs before it calls out. */
  predicate CredentialsPresent(c: Config, p: Provider)
  {
    match p
    case Gemini => Configured(c.geminiApiKey)
    case Llama => Configured(c.llamaApiKey) && Configured(c.llamaEndpoint)
    case FastRouter => Configured(c.fastrouterApiKey) && Configured(c.fastrouterEndpoint)
    case Unknown(_) => false
  }

  // ---------------------------------------------------------------------
  // Prompt construction
  // ---------------------------------------------------------------------

  /** The seven values the prompt interpolates, already rendered with `str`. */
  datatype PromptFields = PromptFields(
    name: string, id: string, image: string, slo: string,
    metrics: string, traces: string, logs: string)

  const Preamble: string :=
    "You are a Senior Site Reliability Engineer (SRE) named OpsMedic. Your task is to analyze system incidents and recommend the best course of action.\n"
  const ObservabilityHeader: string := "**Observability Context:**\n"
  const Instructions: string :=
    "Analyze the provided context and determine the most likely root cause. Then, recommend one of the following actions in JSON format: 'RESTART', 'SCALE_OUT', 'IGNORE'. If 'RESTART', provide a brief justification.\n"
  const ExampleResponse: string :=
    "Example Response:\n{\"root_cause\": \"Likely memory leak due to X\", \"recommended_action\": \"RESTART\", \"justification\": \"To reclaim leaked memory and restore service health.\"}"
  const NotAvailable: string := "N/A"

  function IncidentLine(f: PromptFields): string
  {
    "An incident has occurred for container '" + f.name + "' (ID: " + f.id + ", Image: " + f.image + ").\n"
  }

  function SloLine(f: PromptFields): string { "**SLO Breached:** " + f.slo + "\n" }
  function MetricsLine(f: PromptFields): string { "Metrics Snapshot: " + f.metrics + "\n" }
  function TracesLine(f: PromptFields): string { "Trace IDs: " + f.traces + "\n" }
  function LogsLine(f: PromptFields): string { "Correlated Logs: " + f.logs + "\n\n" }

  function PromptParts(f: PromptFields): seq<string>
  {
    [Preamble, IncidentLine(f), SloLine(f), ObservabilityHeader,
     MetricsLine(f), TracesLine(f), LogsLine(f), Instructions, ExampleResponse]
  }

  function Concat(parts: seq<string>): string
  {
    if parts == [] then "" else parts[0] + Concat(parts[1..])
  }

  /** The f-string: the nine template pieces, in order; it opens with the
      persona. */
  function RenderPrompt(f: PromptFields): (r: string)
    ensures StartsWith(r, Preamble)
  {
    var parts := PromptParts(f);
    assert Concat(parts) == Preamble + Concat(parts[1..]);
    Concat(parts)
  }

  /** What the payload must hold for the prompt to be built: a dict with a
      `container_info` dict carrying `name`, `id` and `image`, a
      `breached_slo`, and an `observability_context` dict. */
  predicate PromptInputsPresent(p: Json)
  {
    && Has(p, "container_info")
    && Has(Field(p, "container_info"), "name")
    && Has(Field(p, "container_info"), "id")
    && Has(Field(p, "container_info"), "image")
    && Has(p, "breached_slo")
    && Has(p, "observability_context")
    && Field(p, "observability_context").JObject?
  }

  /** `str(obs.get(key, 'N/A'))`. */
  function ObservedOrNA(obs: Json, key: string): string
  {
    if Has(obs, key) then PyStr(Field(obs, key)) else NotAvailable
  }

  /** Reads the prompt's values from the payload in the order the f-string
      evaluates them; a missing key or a non-dict raises. */
  function PromptFieldsOf(payload: Json): (r: Result<PromptFields>)
    ensures r.Ok? <==> PromptInputsPresent(payload)
    ensures r.Ok? ==>
      var ci := Field(payload, "container_info");
      var obs := Field(payload, "observability_context");
      r.value == PromptFields(
        PyStr(Field(ci, "name")), PyStr(Field(ci, "id")), PyStr(Field(ci, "image")),
        PyStr(Field(payload, "breached_slo")),
        ObservedOrNA(obs, "metrics_snapshot"), ObservedOrNA(obs, "trace_ids"),
        ObservedOrNA(obs, "correlated_logs"))
  {
    var ci :- Subscript(payload, "container_info");
    var name :- Subscript(ci, "name");
    var id :- Subscript(ci, "id");
    var image :- Subscript(ci, "image");
    var slo :- Subscript(payload, "breached_slo");
    var obs :- Subscript(payload, "observability_context");
    var metrics :- Get(obs, "metrics_snapshot", JString(NotAvailable));
    // `obs` answered `get` once, so it is a dict and answers it again
    var traces := Get(obs, "trace_ids", JString(NotAvailable)).value;
    var logs := Get(obs, "correlated_logs", JString(NotAvailable)).value;
    Ok(PromptFields(PyStr(name), PyStr(id), PyStr(image), PyStr(slo),
                    PyStr(metrics), PyStr(traces), PyStr(logs)))
  }

  function ConstructPrompt(payload: Json): (r: Result<string>)
    ensures r.Ok? <==> PromptInputsPresent(payload)
  {
    var f :- PromptFieldsOf(payload);
    Ok(RenderPrompt(f))
  }

  // ---------------------------------------------------------------------
  // Backends
  // ---------------------------------------------------------------------

  const GeminiModel: string := "gemini-1.5-flash"
  const MaxTokens: nat := 512
  const TimeoutSeconds: nat := 30

  datatype GeminiRequest = GeminiRequest(apiKey: string, model: string, prompt: string)

  /** What `generate_content` yields: the reply text, or an exception's message. */
  datatype GeminiReply = GeminiFailed(message: string) | GeminiText(text: string)

  datatype HttpRequest = HttpRequest(
    endpoint: string, authorization: string, contentType: string,
    prompt: string, maxTokens: nat, timeoutSeconds: nat)

  /** What `requests.post` + `raise_for_status` + `response.json()` yield:
      the decoded body, or a `RequestException`'s message. */
  datatype HttpReply = HttpFailed(message: string) | HttpBody(body: Json)

  /** The outside world the client talks to: the Gemini SDK, HTTP POST, and
      `json.loads` (`None` where it raises `JSONDecodeError`). */
  datatype Services = Services(
    gemini: GeminiRequest -> GeminiReply,
    post: HttpRequest -> HttpReply,
    decode: string -> Option<Json>)

  /** The one call a diagnosis makes to the outside world. */
  datatype Sent = ToGemini(g: GeminiRequest) | ToHttp(h: HttpRequest) {
    function Prompt(): string
    {
      match this
      case ToGemini(g) => g.prompt
      case ToHttp(h) => h.prompt
    }
  }

  /** A diagnosis: the returned value (or the exception that escaped) and
      the call made to a backend, if any. */
  datatype Diagnosed = Diagnosed(result: Result<Json>, sent: Option<Sent>)

  function ErrorObject(message: string): Json
  {
    JObject([Member("error", JString(message))])
  }

  function WrappedText(text: string): Json
  {
    JObject([Member("diagnosis", JString(text))])
  }

  /** `json.loads(text)`, or `{"diagnosis": text}` when it does not decode. */
  function ParseOrWrap(decode: string -> Option<Json>, text: string): (r: Json)
    ensures decode(text).Some? ==> r == decode(text).value
    ensures decode(text).None? ==> r.JObject? && Has(r, "diagnosis") && Field(r, "diagnosis") == JString(text)
    ensures decode(text).None? ==> forall k :: k != "diagnosis" ==> !Has(r, k)
  {
    match decode(text)
    case Some(v) => v
    case None => WrappedText(text)
  }

  /** `json.loads(v)` on the `text` of a choice, which must be a string. */
  function LoadsText(v: Json, decode: string -> Option<Json>): Result<Json>
  {
    match v
    case JString(t) => Ok(ParseOrWrap(decode, t))
    case _ => Raise(TypeError)
  }

  function CallGemini(prompt: string, apiKey: Option<string>, svc: Services): (d: Diagnosed)
    ensures d.result.Ok?
    ensures d.sent.Some? <==> Configured(apiKey)
    ensures !Configured(apiKey) ==> d.result.value == ErrorObject(GeminiKeyMissing)
    ensures Configured(apiKey) ==>
      var req := GeminiRequest(apiKey.value, GeminiModel, prompt);
      && d.sent == Some(ToGemini(req))
      && (svc.gemini(req).GeminiFailed? ==> d.result.value == ErrorObject(svc.gemini(req).message))
      && (svc.gemini(req).GeminiText? ==> d.result.value == ParseOrWrap(svc.decode, svc.gemini(req).text))
  {
    if !Configured(apiKey) then
      Diagnosed(Ok(ErrorObject(GeminiKeyMissing)), None)
    else
      var req := GeminiRequest(apiKey.value, GeminiModel, prompt);
      match svc.gemini(req)
      case GeminiFailed(m) => Diagnosed(Ok(ErrorObject(m)), Some(ToGemini(req)))
      case GeminiText(t) => Diagnosed(Ok(ParseOrWrap(svc.decode, t)), Some(ToGemini(req)))
  }

  /** A container that holds nothing: `len(v) == 0`. */
  predicate IsEmptyContainer(v: Json)
  {
    v == JString("") || v == JArray([]) || v == JObject([])
  }

  /** Bodies handed back untouched: a dict without `choices` or with an empty
      one, a list without the element "choices", a string without the
      substring "choices". */
  predicate PassesThrough(body: Json)
  {
    match body
    case JObject(_) => !Has(body, "choices") || IsEmptyContainer(Field(body, "choices"))
    case JArray(items) => JString("choices") !in items
    case JString(s) => !IsSubstring("choices", s)
    case _ => false
  }

  /** The completion shape: a dict whose `choices` is a non-empty list whose
      first entry is a dict with a string `text`, or with no `text` at all. */
  predicate IsCompletion(body: Json)
  {
    && Has(body, "choices")
    && Field(body, "choices").JArray?
    && |Field(body, "choices").items| > 0
    && var first := Field(body, "choices").items[0];
    && first.JObject?
    && (Has(first, "text") ==> Field(first, "text").JString?)
  }

  function CompletionText(body: Json): string
    requires IsCompletion(body)
  {
    var first := Field(body, "choices").items[0];
    if Has(first, "text") then Field(first, "text").s else ""
  }

  /** The reply normalisation shared by the Llama and FastRouter backends. */
  function NormalizeCompletion(body: Json, decode: string -> Option<Json>): (r: Result<Json>)
    ensures PassesThrough(body) ==> r == Ok(body)
    ensures IsCompletion(body) ==> r == Ok(ParseOrWrap(decode, CompletionText(body)))
    ensures r.Raise? <==> !PassesThrough(body) && !IsCompletion(body)
  {
    var hasChoices :- Contains(body, "choices");
    if !hasChoices then Ok(body)
    else
      var choices :- Subscript(body, "choices");
      var nonEmpty :- LenPositive(choices);
      if !nonEmpty then Ok(body)
      else
        var first :- First(choices);
        var text :- Get(first, "text", JString(""));
        LoadsText(text, decode)
  }

  const GeminiKeyMissing: string := "Gemini API key not configured"
  const LlamaSettingsMissing: string := "Llama API key or endpoint not configured"
  const FastRouterSettingsMissing: string := "FastRouter API key or endpoint not configured"

  /** The error a provider reports when it cannot be used as configured. */
  function ConfigurationError(p: Provider): string
  {
    match p
    case Gemini => GeminiKeyMissing
    case Llama => LlamaSettingsMissing
    case FastRouter => FastRouterSettingsMissing
    case Unknown(name) => "Invalid LLM provider: " + name
  }

  /** The Llama and FastRouter backends, which differ only in their
      configuration error and in the settings they are given. */
  function CallHttpBackend(missing: string, prompt: string, apiKey: Option<string>,
                           endpoint: Option<string>, svc: Services): (d: Diagnosed)
    ensures d.sent.Some? <==> Configured(apiKey) && Configured(endpoint)
    ensures d.sent.None? ==> d.result == Ok(ErrorObject(missing))
    ensures d.sent.Some? ==>
      var req := HttpRequest(endpoint.value, "Bearer " + apiKey.value, "application/json",
                             prompt, MaxTokens, TimeoutSeconds);
      && d.sent == Some(ToHttp(req))
      && (svc.post(req).HttpFailed? ==> d.result == Ok(ErrorObject(svc.post(req).message)))
      && (svc.post(req).HttpBody? ==> d.result == NormalizeCompletion(svc.post(req).body, svc.decode))
  {
    if !Configured(apiKey) || !Configured(endpoint) then
      Diagnosed(Ok(ErrorObject(missing)), None)
    else
      var req := HttpRequest(endpoint.value, "Bearer " + apiKey.value, "application/json",
                             prompt, MaxTokens, TimeoutSeconds);
      match svc.post(req)
      case HttpFailed(m) => Diagnosed(Ok(ErrorObject(m)), Some(ToHttp(req)))
      case HttpBody(b) => Diagnosed(NormalizeCompletion(b, svc.decode), Some(ToHttp(req)))
  }

  // ---------------------------------------------------------------------
  // Dispatch
  // ---------------------------------------------------------------------

  /** Sends the prompt to the backend the configuration selects. */
  function Dispatch(prompt: string, config: Config, svc: Services): (d: Diagnosed)
    ensures var p := ClassifyProvider(config.activeLlmProvider);
      && (d.sent.Some? <==> CredentialsPresent(config, p))
      && (d.sent.Some? ==> d.sent.value.Prompt() == prompt)
      && (d.sent.Some? ==> (d.sent.value.ToGemini? <==> p == Gemini))
      && (d.sent.Some? && p == Llama ==> d.sent.value.h.endpoint == config.llamaEndpoint.value)
      && (d.sent.Some? && p == FastRouter ==> d.sent.value.h.endpoint == config.fastrouterEndpoint.value)
      && (d.sent.None? ==> d.result == Ok(ErrorObject(ConfigurationError(p))))
      && (p.Unknown? ==> ConfigurationError(p) == "Invalid LLM provider: " + NormalizeProvider(config.activeLlmProvider))
      && (d.result.Raise? ==> d.sent.Some? && d.sent.value.ToHttp?)
      && (p == Gemini ==> d == CallGemini(prompt, config.geminiApiKey, svc))
      && (p == Llama ==> d == CallHttpBackend(LlamaSettingsMissing, prompt, config.llamaApiKey, config.llamaEndpoint, svc))
      && (p == FastRouter ==>
            d == CallHttpBackend(FastRouterSettingsMissing, prompt, config.fastrouterApiKey, config.fastrouterEndpoint, svc))
  {
    match ClassifyProvider(config.activeLlmProvider)
    case Gemini => CallGemini(prompt, config.geminiApiKey, svc)
    case Llama => CallHttpBackend(LlamaSettingsMissing, prompt, config.llamaApiKey, config.llamaEndpoint, svc)
    case FastRouter =>
      CallHttpBackend(FastRouterSettingsMissing, prompt, config.fastrouterApiKey, config.fastrouterEndpoint, svc)
    case Unknown(name) => Diagnosed(Ok(ErrorObject("Invalid LLM provider: " + name)), None)
  }

  /** `diagnose_incident`: loads the configuration, builds the prompt (which
      may raise) and dispatches it. */
  function Diagnose(payload: Json, env: map<string, string>, svc: Services): (d: Diagnosed)
    ensures ConstructPrompt(payload).Raise? ==> d == Diagnosed(Raise(ConstructPrompt(payload).fault), None)
    ensures d.sent.Some? ==> ConstructPrompt(payload).Ok? && d.sent.value.Prompt() == ConstructPrompt(payload).value
    ensures ConstructPrompt(payload).Ok? ==> (d.sent.Some? <==> CredentialsPresent(LoadConfig(env), ActiveProvider(env)))
    ensures ConstructPrompt(payload).Ok? && d.sent.None? ==>
      d.result == Ok(ErrorObject(ConfigurationError(ActiveProvider(env))))
    ensures d.result.Raise? ==> ConstructPrompt(payload).Raise? || (d.sent.Some? && d.sent.value.ToHttp?)
    ensures d.sent.Some? ==> (d.sent.value.ToGemini? <==> ActiveProvider(env) == Gemini)
  {
    var config := LoadConfig(env);
    match ConstructPrompt(payload)
    case Raise(f) => Diagnosed(Raise(f), None)
    case Ok(prompt) => Dispatch(prompt, config, svc)
  }
}
