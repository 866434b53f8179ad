# OpsMedic agent core in Dafny

OpsMedic is a small self-healing agent. Its `POST /alert` handler does four
things:

- It takes an incident alert (container info, the breached SLO and an
  observability context).
- It asks a language-model backend for a diagnosis: Gemini, Llama or
  FastRouter, whichever `ACTIVE_LLM_PROVIDER` selects.
- It restarts the container through Docker, but only when the diagnosis
  recommends exactly `"RESTART"` and the container's name is on a fixed
  allow-list.
- It appends one record to an in-memory incident list, which `GET /incidents`
  returns.

This project models that core as pure functions and proves properties of it.
It has three parts:

- The diagnosis client:
  - configuration loading;
  - provider-name normalisation and dispatch;
  - the prompt;
  - how each backend's outcome is normalised into a result dict.
- The remediation gate `restart_container`.
- The two HTTP handlers.

Python behaviour the core depends on is modelled explicitly (modules
`PyText`, `PyRepr`, `PyValue`):

- Dict lookup, where the last duplicate key wins.
- The exceptions that `[]`, `.get`, `in` and `len` raise on the wrong type.
- `str.lower` / `str.strip`.
- `str()` of the values an f-string interpolates.

Everything outside the process is a parameter:

- The environment variables are a `map`.
- The Gemini SDK, the HTTP `POST` and `json.loads` are oracle functions in
  `Services`. Their replies are abstract outcomes: a failure with its
  message, a text, or a decoded body.
- The Docker daemon is a reachability flag plus lookup and restart oracles
  keyed by container id.

Each operation records which outside call it made: the backend request, the
gate call, and whether `restart()` ran. Contracts can therefore speak about
effects, not only return values.

Modules: `Optional`, `PyText`, `PyRepr`, `PyValue`, `LlmClient` (with
`LlmClientProps`), `DockerActions`, `Agent` (with `AgentProps`).

Facts of the code that the model follows:

- The incident list has no capacity bound. Nothing evicts old records.
- There is no authentication on either route.
- The route is `/alert`.
- The alert body is not validated against a schema. Some keys are read by
  subscript: `container_info` with its `name`, `id` and `image`,
  `breached_slo` and `observability_context`. A missing one surfaces as the
  exception the handler raises (HTTP 500), and nothing is recorded. The other
  keys are read with a default. A missing `incident_id` or `timestamp` is
  recorded as null, and a missing `metrics_snapshot`, `trace_ids` or
  `correlated_logs` shows as "N/A" in the prompt.
- The allow-list is only checked when it is non-empty. It is checked against
  the name the daemon reports for the id, not against anything in the alert.
- A payload whose `container_info` lacks `image` raises `KeyError` while the
  prompt is built, and the alert is not recorded
  (`AgentProps.MissingImageIsNotRecorded`).

## Model

All paths are under `opsmedic_project/opsmedic_agent/`, written out in full.

| member | source | states |
|---|---|---|
| PyText.Lower | opsmedic_project/opsmedic_agent/ai_core/llm_client.py:17 | Same length; each ASCII capital is replaced by its lower-case letter and every other character is kept. |
| PyText.Strip | opsmedic_project/opsmedic_agent/ai_core/llm_client.py:116 | The result has no whitespace at either end and is no longer than the input; it is empty exactly when the input is all whitespace. |
| PyText.StripUnique | opsmedic_project/opsmedic_agent/ai_core/llm_client.py:116 | Stripping whitespace padding on both sides of a trimmed name gives back exactly that name. |
| PyText.LowerIdempotent | opsmedic_project/opsmedic_agent/ai_core/llm_client.py:116 | Lowering a lowered name changes nothing, so the second `.lower()` in dispatch is harmless. |
| PyRepr.QuoteFor | opsmedic_project/opsmedic_agent/ai_core/llm_client.py:31-33 | `repr` picks a double quote exactly when the text has a single quote and no double quote. |
| PyRepr.ReprStringRoundTrip | opsmedic_project/opsmedic_agent/ai_core/llm_client.py:31-33 | The quoted, escaped form of a string inside an interpolated list or dict can be read back to the original string. |
| PyValue.Lookup | opsmedic_project/opsmedic_agent/ai_core/llm_client.py:28-33 | A key is found exactly when some member carries it, and the value found is that of the last member carrying it. |
| PyValue.Insert | opsmedic_project/opsmedic_agent/ai_core/llm_client.py:52 | `d[k] = v` while a dict is decoded: afterwards `k` maps to `v` and every other key keeps its value; distinct keys stay distinct, and no entry is invented. |
| PyValue.InsertPlacement | opsmedic_project/opsmedic_agent/ai_core/llm_client.py:52 | A new key is appended at the end of the dict. For an existing key the dict keeps its length and every position keeps its key, so the key stays in its place. |
| PyValue.FirstIndexFound | opsmedic_project/opsmedic_agent/ai_core/llm_client.py:52 | A key has a first occurrence in an object exactly when a lookup finds it. |
| PyValue.FirstIndexIsFirst | opsmedic_project/opsmedic_agent/ai_core/llm_client.py:52 | The first occurrence of a key carries that key, and no earlier member does. |
| PyValue.Entries | opsmedic_project/opsmedic_agent/ai_core/llm_client.py:52 | The dict a decoded object denotes: its keys are distinct, every key maps to the value the object's last member with that key gives, and every entry comes from the object. |
| PyValue.EntriesFirstOccurrenceOrder | opsmedic_project/opsmedic_agent/ai_core/llm_client.py:52 | The keys of the decoded dict are ordered by where each key first occurs in the object. |
| PyValue.EntriesOfDistinct | opsmedic_project/opsmedic_agent/ai_core/llm_client.py:52 | An object whose keys are already distinct is its own dict, in its own order. |
| PyValue.RepeatedKeyKeepsFirstPlaceAndLastValue | opsmedic_project/opsmedic_agent/ai_core/llm_client.py:52 | `{"a": 1, "b": 2, "a": 3}` becomes the dict `{"a": 3, "b": 2}`: the repeated key stays in its first place with its last value. |
| PyValue.Subscript | opsmedic_project/opsmedic_agent/main.py:32-33 | `v[k]` succeeds exactly when `v` is a dict holding `k`; otherwise it raises `KeyError` for a dict and `TypeError` for anything else. |
| PyValue.Get | opsmedic_project/opsmedic_agent/main.py:23-25 | `v.get(k, d)` succeeds exactly on a dict, giving the field or the default; it raises `AttributeError` on any other value. |
| PyValue.Contains | opsmedic_project/opsmedic_agent/ai_core/llm_client.py:73 | `k in v`: key membership for a dict, element equality for a list, substring for a string; `TypeError` otherwise. |
| PyValue.LenPositive | opsmedic_project/opsmedic_agent/ai_core/llm_client.py:73 | `len(v) > 0` raises `TypeError` exactly on null, booleans and numbers; a string or list is non-empty when it has an element, and a dict when it has an entry. |
| PyValue.First | opsmedic_project/opsmedic_agent/ai_core/llm_client.py:74 | `v[0]` yields the first element of a non-empty list or the first character of a non-empty string; otherwise it raises `IndexError` for an empty list or string, `KeyError` for a dict, and `TypeError` for anything else. |
| PyValue.Repr | opsmedic_project/opsmedic_agent/ai_core/llm_client.py:28-33 | `repr` prints None, True and False by name. An integer prints as decimal digits, with a leading minus when negative, that read back to the same integer. A string is printed in a form that reads back to the same string. A list is bracketed and a dict braced. |
| PyValue.NatToDecimal | opsmedic_project/opsmedic_agent/ai_core/llm_client.py:31-33 | A natural number prints as a non-empty string of digits, with no leading zero unless it is 0, whose decimal value is the number. |
| PyValue.IntToDecimal | opsmedic_project/opsmedic_agent/ai_core/llm_client.py:31-33 | An integer's decimal text reads back to the same integer. It starts with a minus exactly when the integer is negative and has no leading zero, except for 0 itself. |
| PyValue.ReprListShowsItems | opsmedic_project/opsmedic_agent/ai_core/llm_client.py:32 | A printed list contains the printed form of each of its elements. |
| PyValue.ReprDictShowsEntries | opsmedic_project/opsmedic_agent/ai_core/llm_client.py:31-33 | A printed dict contains `'key': value` for every key it holds, with the value the key's last member gives. |
| PyValue.ReprIgnoresRepeatedKeys | opsmedic_project/opsmedic_agent/ai_core/llm_client.py:28-33 | A decoded object prints exactly like the dict it denotes, so a repeated key is printed once. |
| PyValue.RepeatedKeyPrintsOnce | opsmedic_project/opsmedic_agent/ai_core/llm_client.py:31 | `{"cpu": 1, "cpu": 2}` interpolated into the prompt prints as `{'cpu': 2}`. |
| PyValue.PyStr | opsmedic_project/opsmedic_agent/ai_core/llm_client.py:28-33 | `{v}` in an f-string inserts a string as it is and anything else as its non-empty `repr`. |
| LlmClient.LoadConfig | opsmedic_project/opsmedic_agent/ai_core/llm_client.py:11-22 | The provider is the lower-cased variable, or "gemini" when unset. The FastRouter endpoint defaults to the public URL and otherwise is the variable as set. Each key or endpoint is present exactly when its variable is set, and then equals it. |
| LlmClient.NormalizeProvider | opsmedic_project/opsmedic_agent/ai_core/llm_client.py:116 | The normalised name has no surrounding whitespace and no capitals, is no longer than the configured name, and is empty exactly when that name is all whitespace. |
| LlmClient.ClassifyProvider | opsmedic_project/opsmedic_agent/ai_core/llm_client.py:116-128 | The normalised name selects Gemini exactly when it is "gemini" and Llama exactly when it is "llama". FastRouter is selected exactly when the name starts with "fastrouter". Any other name is Unknown and carries the normalised name. |
| LlmClient.PromptFieldsOf | opsmedic_project/opsmedic_agent/ai_core/llm_client.py:24-33 | The prompt's values can be read exactly when the payload has the container's name, id and image, the SLO and an observability dict. They are the `str` of those values, and each observability entry falls back to "N/A". |
| LlmClient.RenderPrompt | opsmedic_project/opsmedic_agent/ai_core/llm_client.py:26-27 | The prompt opens with the SRE persona sentence. |
| LlmClientProps.PartOfPrompt | opsmedic_project/opsmedic_agent/ai_core/llm_client.py:26-37 | Each of the nine template pieces occurs in the rendered prompt. |
| LlmClient.ConstructPrompt | opsmedic_project/opsmedic_agent/ai_core/llm_client.py:24-38 | The prompt is built exactly when the payload has every key it interpolates; otherwise the lookup's exception escapes. |
| LlmClient.ParseOrWrap | opsmedic_project/opsmedic_agent/ai_core/llm_client.py:51-54 | Text that decodes gives the decoded value; any other text gives a dict whose only key is "diagnosis", holding the text. |
| LlmClient.CallGemini | opsmedic_project/opsmedic_agent/ai_core/llm_client.py:40-58 | Never raises. A request is sent exactly when the key is non-empty, and it uses gemini-1.5-flash and the prompt. Without a key the result is the fixed error dict. An SDK failure gives `{"error": message}`. Otherwise the result is the decoded text, or `{"diagnosis": text}` when the text is not JSON. |
| LlmClient.NormalizeCompletion | opsmedic_project/opsmedic_agent/ai_core/llm_client.py:71-79 | A completion-shaped body gives the decoded text of its first choice, or `{"diagnosis": text}`. Completion-shaped means a dict whose `choices` is a non-empty list and whose first choice is a dict with a string `text` or no `text`. A body without choices passes through unchanged: a dict without the key or with an empty one, or a list or string not containing "choices". Every other body makes the normalisation raise. |
| LlmClient.CallHttpBackend | opsmedic_project/opsmedic_agent/ai_core/llm_client.py:60-106 | A request is sent exactly when both key and endpoint are non-empty. It carries the Bearer key, the JSON content type, the prompt, 512 tokens and a 30 s timeout. Missing settings give the backend's error dict, and a request failure gives `{"error": message}`. A reply body goes through the completion normalisation. |
| LlmClient.Dispatch | opsmedic_project/opsmedic_agent/ai_core/llm_client.py:116-128 | The provider selects the backend: Gemini with the Gemini key, Llama and FastRouter with their key and endpoint. A backend is called exactly when its settings are present, and always with the prompt. Without a call the result is the provider's configuration error, including "Invalid LLM provider: " with the normalised name. Only an HTTP backend can raise. |
| LlmClient.Diagnose | opsmedic_project/opsmedic_agent/ai_core/llm_client.py:108-128 | If the prompt cannot be built, its exception escapes before any backend is called. Otherwise a backend is called, with that prompt, exactly when the active provider's settings are present, and without a call the result is that provider's configuration error. A request goes to Gemini exactly when Gemini is the active provider. An exception escapes only from the prompt or from an HTTP backend. |
| LlmClientProps.FastRouterClaudeIsFastRouter | opsmedic_project/opsmedic_agent/tests/test_llm_client.py:31-37 | The provider name "fastrouter_claude" from the repository's unit test is routed to FastRouter. |
| LlmClientProps.PaddedCapitalGeminiIsGemini | opsmedic_project/opsmedic_agent/ai_core/llm_client.py:116-121 | Case and surrounding whitespace in the provider name do not matter. |
| LlmClientProps.GeminiProIsUnknown | opsmedic_project/opsmedic_agent/ai_core/llm_client.py:120-128 | A name that only starts with "gemini" is not accepted. |
| LlmClientProps.DefaultProviderIsGemini | opsmedic_project/opsmedic_agent/ai_core/llm_client.py:17 | With `ACTIVE_LLM_PROVIDER` unset, the agent uses Gemini. |
| LlmClientProps.LoadLowerIsRedundant | opsmedic_project/opsmedic_agent/ai_core/llm_client.py:17 | Lowering the name at load time does not change which provider is chosen. |
| LlmClientProps.NormalizedNameIsCanonical | opsmedic_project/opsmedic_agent/ai_core/llm_client.py:116 | Normalising a provider name twice gives the same name as once. |
| LlmClientProps.StripIsSlice | opsmedic_project/opsmedic_agent/ai_core/llm_client.py:116 | Every character left after stripping comes from the configured name. |
| LlmClientProps.RenderMentionsFields | opsmedic_project/opsmedic_agent/ai_core/llm_client.py:26-37 | The rendered prompt contains the container name, id and image, and the SLO, metrics, trace and log lines. |
| LlmClientProps.PromptMentionsIncident | opsmedic_project/opsmedic_agent/tests/test_llm_client.py:61-66 | For any payload with the prompt's keys, the prompt contains the `str` of the container's name, id and image. It also contains the SLO line and the metrics, trace and log lines, with "N/A" for a missing observability entry. |
| LlmClientProps.TraceIdsShowInPrompt | opsmedic_project/opsmedic_agent/ai_core/llm_client.py:32 | When the trace ids are a list, the printed form of every id occurs in the prompt. |
| LlmClientProps.PromptIgnoresUnusedKeys | opsmedic_project/opsmedic_agent/ai_core/llm_client.py:24-38 | Adding a top-level key other than the three the prompt reads does not change the prompt or its exception. |
| LlmClientProps.MissingCredentialsSendNothing | opsmedic_project/opsmedic_agent/ai_core/llm_client.py:42-44 | Without the selected provider's settings, no backend is called and the diagnosis is the provider's configuration error. |
| LlmClientProps.EmptyFastRouterEndpointDisables | opsmedic_project/opsmedic_agent/ai_core/llm_client.py:84-88 | An empty `FASTRTR_ENDPOINT` overrides the default and disables FastRouter. |
| LlmClientProps.UnknownProviderIgnoresServices | opsmedic_project/opsmedic_agent/ai_core/llm_client.py:126-128 | With an unrecognised provider, no service is called and the diagnosis is the same whatever the services would answer. |
| LlmClientProps.GeminiNeverRaises | opsmedic_project/opsmedic_agent/ai_core/llm_client.py:40-58 | With Gemini selected, the diagnosis is a value exactly when the prompt can be built. |
| LlmClientProps.GeminiReplyIsDiagnosis | opsmedic_project/opsmedic_agent/ai_core/llm_client.py:40-58 | With Gemini selected and its key set, the request goes to Gemini with that key, gemini-1.5-flash and the prompt. An SDK failure gives `{"error": message}`, and a reply text gives its decoded value or `{"diagnosis": text}`. |
| LlmClientProps.HttpFailureIsErrorDiagnosis | opsmedic_project/opsmedic_agent/ai_core/llm_client.py:68-82 | With Llama or FastRouter configured, a failed request gives `{"error": message}` and nothing escapes. |
| LlmClientProps.CompletionReturnsDecodedChoice | opsmedic_project/opsmedic_agent/ai_core/llm_client.py:92-100 | With Llama or FastRouter configured, the backend sends one request built from the configured key and endpoint; when that request is answered in completion shape and the first choice's text decodes to `v`, the diagnosis is `v`. |
| DockerActions.Gate | opsmedic_project/opsmedic_agent/remediation_executor/docker_actions.py:7-21 | A restart is attempted exactly when the container is found and its looked-up name passes the allow-list, or no allow-list is in force. Success means the restart completed. Each failure carries its message: not allowed, not found, or the error text. |
| DockerActions.RestartContainer | opsmedic_project/opsmedic_agent/remediation_executor/docker_actions.py:4-21 | Only an unreachable daemon makes the call raise, because connecting happens outside the `try`. Otherwise the answer is the gate applied to the daemon's lookup of the id and its restart of it; a restart is attempted only for a found container whose looked-up name is admitted, and success means the daemon restarted it. |
| DockerActions.GateRefusesUnlisted | opsmedic_project/opsmedic_agent/remediation_executor/docker_actions.py:9-11 | When a non-empty allow-list is in force, a container whose name is not on it is refused with the not-allowed message and is not restarted. |
| DockerActions.EmptyAllowListRestarts | opsmedic_project/opsmedic_agent/remediation_executor/docker_actions.py:9 | With no allow-list or an empty one, every found container is restarted, and it reports success exactly when the restart succeeds. |
| DockerActions.NotFoundIgnoresAllowList | opsmedic_project/opsmedic_agent/remediation_executor/docker_actions.py:16-18 | A container that is not found gives the same answer whatever the allow-list. |
| DockerActions.GateSeesOnlyLookedUpName | opsmedic_project/opsmedic_agent/remediation_executor/docker_actions.py:8-9 | Two ids the daemon resolves identically get identical answers: the gate judges the reported name, not the id. |
| Agent.ReadVerdict | opsmedic_project/opsmedic_agent/main.py:23-25 | The three fields are read exactly when the diagnosis is a dict, each with its default "Unknown", "IGNORE" or "No justification provided."; anything else raises `AttributeError`. |
| Agent.ContainerId | opsmedic_project/opsmedic_agent/main.py:32-33 | The id is read exactly when `container_info` holds both `id` and `name`, and it is `container_info.id`. |
| Agent.Remediate | opsmedic_project/opsmedic_agent/main.py:30-36 | Anything but exactly "RESTART" takes no action. The gate is called exactly on "RESTART" with a readable id, using the fixed allow-list. On "RESTART" without a readable id or name, the lookup's exception escapes before any gate call. A restart is recorded exactly when the gate ran `restart()`. A restart runs only for the container named "buggy-app-v2". The status is SUCCESS or FAILED according to the gate's answer. |
| Agent.BuildRecord | opsmedic_project/opsmedic_agent/main.py:39-48 | The record is built exactly for a dict payload. It copies four payload fields, using null when one is missing, along with the defaulted diagnosis fields and the status. |
| Agent.AfterDiagnosis | opsmedic_project/opsmedic_agent/main.py:22-51 | A reply comes back exactly when one record is appended, and an exception appends nothing. The gate always gets the fixed allow-list. A restart is recorded exactly when the gate ran `restart()`, and it only ever hits "buggy-app-v2". The recorded status is the reply's status, and it is "No action taken." exactly when the gate was not called. |
| Agent.Alert | opsmedic_project/opsmedic_agent/main.py:16-51 | An answered request grows the list by exactly one record at the end. A failed request leaves the list unchanged. The old list is always kept as a prefix. The backend call recorded is the diagnosis's call, and a restart is recorded exactly when the gate ran `restart()`. |
| Agent.GetIncidents | opsmedic_project/opsmedic_agent/main.py:53-55 | The response holds the whole list, of the same length and in the same order. |
| AgentProps.AlertIsAfterDiagnosis | opsmedic_project/opsmedic_agent/main.py:18-22 | A request is the diagnosis followed by the rest of the handler: its reply, records, gate call and restart are those of the rest of the handler, and its backend call is the diagnosis's. A diagnosis that came back at all means the payload had every key the prompt reads. |
| AgentProps.GateCalledIffRestart | opsmedic_project/opsmedic_agent/main.py:31-34 | For a dict diagnosis, the gate is called exactly when the recommended action is "RESTART". It is called with `container_info.id` and the allow-list ["buggy-app-v2"]. |
| AgentProps.DictDiagnosisIsRecorded | opsmedic_project/opsmedic_agent/main.py:22-51 | A dict diagnosis fails only on "RESTART" with the daemon unreachable. Otherwise the reply carries the diagnosis unchanged, and exactly one record is appended with the payload's fields and the defaulted verdict. |
| AgentProps.StatusFollowsGate | opsmedic_project/opsmedic_agent/main.py:30-35 | In an answered request, the status is "No action taken." without a gate call, and otherwise SUCCESS or FAILED according to the gate's answer. |
| AgentProps.ErrorDiagnosisTakesNoAction | opsmedic_project/opsmedic_agent/main.py:23-49 | An `{"error": ...}` diagnosis is answered and recorded with "Unknown", "IGNORE", the default justification and "No action taken.", and nothing is restarted. |
| AgentProps.NonDictDiagnosisIsNotRecorded | opsmedic_project/opsmedic_agent/main.py:23 | A diagnosis that is not a dict makes `.get` raise `AttributeError`. No gate is called and nothing is recorded. |
| AgentProps.MissingImageIsNotRecorded | opsmedic_project/opsmedic_agent/ai_core/llm_client.py:28 | A payload whose container info lacks `image` fails with `KeyError`. No backend call, no restart, no record. |
| AgentProps.RestartOnlyAllowListed | opsmedic_project/opsmedic_agent/main.py:34 | Whatever the diagnosis says, the only container ever restarted is one the daemon names "buggy-app-v2". |
| AgentProps.AlertIgnoresHistory | opsmedic_project/opsmedic_agent/main.py:49 | What a request appends and answers does not depend on the records already in the list. |
| AgentProps.RunAppendsInOrder | opsmedic_project/opsmedic_agent/main.py:14-49 | After any sequence of requests, the list is the old list followed by each request's own contribution, in arrival order. |
| AgentProps.ContributedCount | opsmedic_project/opsmedic_agent/main.py:49 | The number of records added equals the number of answered requests. |
| AgentProps.IncidentsKeepEverything | opsmedic_project/opsmedic_agent/main.py:53-55 | `GET /incidents` returns every record ever appended, oldest first, with no capacity bound. |

## Left out

- Networking and SDKs: the Gemini SDK, `requests` and the FastAPI server are abstract oracles. Their internals, retries and HTTP status codes are not modelled; a 4xx or 5xx reply, which `raise_for_status` turns into an exception, is one of the `HttpFailed` outcomes. A 3xx reply that is not followed does not raise; its body is one of the `HttpBody` outcomes.
- JSON text: `json.loads` is an oracle from text to a value or a decode error. The request body arrives as a decoded value, because `request.json()` belongs to the framework.
- Numbers: floats are not among the modelled JSON values.
- Exception texts: the text of an exception (`str(e)`) is carried as an opaque message chosen by the oracle.
- HTTP status: a failing `response.json()` is treated as a request failure. This holds for `requests` 2.27 and later, where its decode error is a `RequestException`.
- Side effects of no interest: logging, `load_dotenv` and `genai.configure` are left out.
- Concurrency: requests are modelled one at a time. Handlers running concurrently on the shared list are not modelled.
- Not part of this model: the demo service `buggy_app_v2/app.py` and the dashboard `opsmedic_dashboard/app.py`.
- PyText.Lower: lower-cases ASCII letters only, because provider names are ASCII. Python's `str.lower` also maps non-ASCII letters.
- PyRepr.EscapeChar: escapes, and so `PyRepr.ReprString`, follow `repr` for Latin-1 characters only. Non-printable characters beyond Latin-1 are kept as they are, whereas Python would escape them.
- DockerActions.RestartContainer: a failing `containers.get` or `restart()` is an outcome chosen by the oracle, since the daemon is not modelled. The one exception that escapes is the connection failure in `docker.from_env()`.
- Agent.Alert: the incident list is the list passed in, where the real handler uses a process-global list. The list has no bound in either.
