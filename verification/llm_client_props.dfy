/** Properties of the diagnosis client: how provider names are read, what
    the prompt always carries, and what each backend does before and after
    it calls out. */
module LlmClientProps {
  import opened Optional
  import opened PyText
  import opened PyValue
  import opened LlmClient

  // ---------------------------------------------------------------------
  // Provider names
  // ---------------------------------------------------------------------

  /** The configured name of the FastRouter test: any name with the prefix
      `fastrouter` goes to FastRouter. */
  lemma FastRouterClaudeIsFastRouter()
    ensures ClassifyProvider("fastrouter_claude") == FastRouter
  {
    FastRouterClaudeNormalized();
    FastRouterClaudeHasPrefix();
  }

  lemma FastRouterClaudeNormalized()
    ensures NormalizeProvider("fastrouter_claude") == "fastrouter_claude"
  {
    NormalizedAlready("fastrouter_claude");
  }

  lemma FastRouterClaudeHasPrefix()
    ensures StartsWith("fastrouter_claude", "fastrouter")
  {
  }

  /** Case and surrounding whitespace do not matter. */
  lemma PaddedCapitalGeminiIsGemini()
    ensures ClassifyProvider(" Gemini\n") == Gemini
  {
    var s := " Gemini\n";
    var l := Lower(s);
    assert l == " " + "gemini" + "\n" by {
      var want := " " + "gemini" + "\n";
      assert |l| == |want| == 8;
      forall i | 0 <= i < 8 ensures l[i] == want[i] {
        assert l[i] == LowerChar(s[i]);
      }
    }
    assert Trimmed("gemini");
    StripUnique(" ", "gemini", "\n");
    assert NormalizeProvider(s) == Strip(l) == "gemini";
  }

  /** Only the exact names and the `fastrouter` prefix are recognised. */
  lemma GeminiProIsUnknown()
    ensures ClassifyProvider("gemini-pro") == Unknown("gemini-pro")
  {
    NormalizedAlready("gemini-pro");
  }

  /** With `ACTIVE_LLM_PROVIDER` unset the agent diagnoses with Gemini. */
  lemma DefaultProviderIsGemini(env: map<string, string>)
    requires "ACTIVE_LLM_PROVIDER" !in env
    ensures ActiveProvider(env) == Gemini
  {
    StripUnique("", "gemini", "");
  }

  /** Lowering the name when the configuration is loaded and lowering it
      again at dispatch select the same backend as lowering it once. */
  lemma {:induction false} LoadLowerIsRedundant(raw: string)
    ensures NormalizeProvider(Lower(raw)) == NormalizeProvider(raw)
    ensures ClassifyProvider(Lower(raw)) == ClassifyProvider(raw)
  {
    LowerIdempotent(raw);
  }

  /** A name without ASCII capitals is its own lower-case form. */
  lemma LowerFixesLowerCase(s: string)
    requires forall i :: 0 <= i < |s| ==> !IsUpperAscii(s[i])
    ensures Lower(s) == s
  {
  }

  lemma StripTrimmed(t: string)
    requires Trimmed(t)
    ensures Strip(t) == t
  {
    StripUnique("", t, "");
    assert "" + t + "" == t;
  }

  /** A trimmed name without capitals is already normalised. */
  lemma NormalizedAlready(s: string)
    requires Trimmed(s)
    requires forall i :: 0 <= i < |s| ==> !IsUpperAscii(s[i])
    ensures NormalizeProvider(s) == s
  {
    LowerFixesLowerCase(s);
    StripTrimmed(s);
  }

  /** The name reported in "Invalid LLM provider: ..." is already
      normalised: normalising it again changes nothing. */
  lemma {:induction false} NormalizedNameIsCanonical(raw: string)
    ensures NormalizeProvider(NormalizeProvider(raw)) == NormalizeProvider(raw)
  {
    var n := NormalizeProvider(raw);
    var l := Lower(raw);
    assert forall i :: 0 <= i < |l| ==> !IsUpperAscii(l[i]);
    assert forall i :: 0 <= i < |n| ==> !IsUpperAscii(n[i]) by {
      StripIsSlice(l);
    }
    NormalizedAlready(n);
  }

  /** Every character `strip` keeps comes from its input. */
  lemma {:induction false} StripIsSlice(s: string)
    ensures forall c :: c in Strip(s) ==> c in s
  {
    var t := TrimStart(s);
    assert forall c :: c in t ==> c in s by {
      forall c | c in t ensures c in s {
        var k :| 0 <= k < |t| && t[k] == c;
        assert s[|s| - |t| + k] == c;
      }
    }
    assert Strip(s) == TrimEnd(t);
    assert forall c :: c in TrimEnd(t) ==> c in t by {
      forall c | c in TrimEnd(t) ensures c in t {
        var k :| 0 <= k < |TrimEnd(t)| && TrimEnd(t)[k] == c;
        assert t[k] == c;
      }
    }
  }

  // ---------------------------------------------------------------------
  // Prompt
  // ---------------------------------------------------------------------

  lemma {:induction false} ConcatSplit(parts: seq<string>, k: nat)
    requires k < |parts|
    ensures Concat(parts) == Concat(parts[..k]) + parts[k] + Concat(parts[k + 1..])
  {
    if k == 0 {
      assert parts[..0] == [];
    } else {
      ConcatSplit(parts[1..], k - 1);
      assert parts[1..][..k - 1] == parts[1..k];
      assert parts[1..][k - 1] == parts[k];
      assert parts[1..][k..] == parts[k + 1..];
      assert parts[..k][1..] == parts[1..k];
    }
  }

  lemma PartOfPrompt(f: PromptFields, k: nat)
    requires k < |PromptParts(f)|
    ensures IsSubstring(PromptParts(f)[k], RenderPrompt(f))
  {
    var ps := PromptParts(f);
    ConcatSplit(ps, k);
    SubstringOfConcat(Concat(ps[..k]), ps[k], Concat(ps[k + 1..]));
  }

  /** The container line names the container, its id and its image. */
  lemma IncidentLineMentionsContainer(f: PromptFields)
    ensures IsSubstring(f.name, IncidentLine(f))
    ensures IsSubstring(f.id, IncidentLine(f))
    ensures IsSubstring(f.image, IncidentLine(f))
  {
    var a := "An incident has occurred for container '";
    var line := IncidentLine(f);
    assert line == a + f.name + ("' (ID: " + f.id + ", Image: " + f.image + ").\n");
    SubstringOfConcat(a, f.name, "' (ID: " + f.id + ", Image: " + f.image + ").\n");
    assert line == (a + f.name + "' (ID: ") + f.id + (", Image: " + f.image + ").\n");
    SubstringOfConcat(a + f.name + "' (ID: ", f.id, ", Image: " + f.image + ").\n");
    assert line == (a + f.name + "' (ID: " + f.id + ", Image: ") + f.image + ").\n";
    SubstringOfConcat(a + f.name + "' (ID: " + f.id + ", Image: ", f.image, ").\n");
  }

  lemma RenderMentionsFields(f: PromptFields)
    ensures IsSubstring(f.name, RenderPrompt(f))
    ensures IsSubstring(f.id, RenderPrompt(f))
    ensures IsSubstring(f.image, RenderPrompt(f))
    ensures IsSubstring(SloLine(f), RenderPrompt(f))
    ensures IsSubstring(MetricsLine(f), RenderPrompt(f))
    ensures IsSubstring(TracesLine(f), RenderPrompt(f))
    ensures IsSubstring("Correlated Logs: " + f.logs + "\n", RenderPrompt(f))
  {
    var prompt := RenderPrompt(f);
    PartOfPrompt(f, 1);
    PartOfPrompt(f, 2);
    PartOfPrompt(f, 4);
    PartOfPrompt(f, 5);
    PartOfPrompt(f, 6);
    IncidentLineMentionsContainer(f);
    SubstringTransitive(f.name, IncidentLine(f), prompt);
    SubstringTransitive(f.id, IncidentLine(f), prompt);
    SubstringTransitive(f.image, IncidentLine(f), prompt);
    var logs := "Correlated Logs: " + f.logs + "\n";
    assert LogsLine(f) == "" + logs + "\n";
    SubstringOfConcat("", logs, "\n");
    SubstringTransitive(logs, LogsLine(f), prompt);
  }

  /** The prompt names the container, its id and image, the breached SLO, and
      each observability field, with "N/A" standing for an absent one. */
  lemma PromptMentionsIncident(p: Json)
    requires PromptInputsPresent(p)
    ensures ConstructPrompt(p).Ok?
    ensures var prompt := ConstructPrompt(p).value;
      var ci := Field(p, "container_info");
      var obs := Field(p, "observability_context");
      && IsSubstring(PyStr(Field(ci, "name")), prompt)
      && IsSubstring(PyStr(Field(ci, "id")), prompt)
      && IsSubstring(PyStr(Field(ci, "image")), prompt)
      && IsSubstring("**SLO Breached:** " + PyStr(Field(p, "breached_slo")) + "\n", prompt)
      && IsSubstring("Metrics Snapshot: " + ObservedOrNA(obs, "metrics_snapshot") + "\n", prompt)
      && IsSubstring("Trace IDs: " + ObservedOrNA(obs, "trace_ids") + "\n", prompt)
      && IsSubstring("Correlated Logs: " + ObservedOrNA(obs, "correlated_logs") + "\n", prompt)
  {
    var f := PromptFieldsOf(p).value;
    assert ConstructPrompt(p) == Ok(RenderPrompt(f));
    RenderMentionsFields(f);
  }

  /** When the alert carries its trace ids as a list, every id reaches the
      prompt as Python prints it. */
  lemma TraceIdsShowInPrompt(p: Json, k: nat)
    requires PromptInputsPresent(p)
    requires Has(Field(p, "observability_context"), "trace_ids")
    requires Field(Field(p, "observability_context"), "trace_ids").JArray?
    requires k < |Field(Field(p, "observability_context"), "trace_ids").items|
    ensures IsSubstring(Repr(Field(Field(p, "observability_context"), "trace_ids").items[k]),
                        ConstructPrompt(p).value)
  {
    var obs := Field(p, "observability_context");
    var ids := Field(obs, "trace_ids");
    var line := "Trace IDs: " + ObservedOrNA(obs, "trace_ids") + "\n";
    PromptMentionsIncident(p);
    assert ObservedOrNA(obs, "trace_ids") == Repr(ids);
    ReprListShowsItems(ids.items, k);
    SubstringOfConcat("Trace IDs: ", Repr(ids), "\n");
    SubstringTransitive(Repr(ids.items[k]), Repr(ids), line);
    SubstringTransitive(Repr(ids.items[k]), line, ConstructPrompt(p).value);
  }

  /** The prompt reads only the container, SLO and observability context:
      setting any other key of the payload (the incident id, the timestamp)
      leaves it byte for byte the same. */
  lemma PromptIgnoresUnusedKeys(p: Json, k: string, x: Json)
    requires p.JObject?
    requires k != "container_info" && k != "breached_slo" && k != "observability_context"
    ensures ConstructPrompt(With(p, k, x)) == ConstructPrompt(p)
  {
    var q := With(p, k, x);
    assert Subscript(q, "container_info") == Subscript(p, "container_info");
    assert Subscript(q, "breached_slo") == Subscript(p, "breached_slo");
    assert Subscript(q, "observability_context") == Subscript(p, "observability_context");
  }

  // ---------------------------------------------------------------------
  // Backends and dispatch
  // ---------------------------------------------------------------------

  /** A backend without its settings reports a configuration error and calls
      nothing; an unknown provider name does the same. */
  lemma MissingCredentialsSendNothing(payload: Json, env: map<string, string>, svc: Services)
    requires PromptInputsPresent(payload)
    requires !CredentialsPresent(LoadConfig(env), ActiveProvider(env))
    ensures Diagnose(payload, env, svc) == Diagnosed(Ok(ErrorObject(ConfigurationError(ActiveProvider(env)))), None)
  {
    var prompt := ConstructPrompt(payload).value;
    var config := LoadConfig(env);
    assert Diagnose(payload, env, svc) == Dispatch(prompt, config, svc);
  }

  /** FastRouter's endpoint has a default, but setting it to the empty
      string disables the backend just as unsetting the key does. */
  lemma EmptyFastRouterEndpointDisables(payload: Json, env: map<string, string>, svc: Services)
    requires PromptInputsPresent(payload)
    requires ActiveProvider(env) == FastRouter
    requires "FASTRTR_ENDPOINT" in env && env["FASTRTR_ENDPOINT"] == ""
    ensures Diagnose(payload, env, svc)
      == Diagnosed(Ok(ErrorObject(FastRouterSettingsMissing)), None)
  {
    MissingCredentialsSendNothing(payload, env, svc);
  }

  /** When the provider name is not recognised, what the backends would have
      answered makes no difference: none of them is asked. */
  lemma UnknownProviderIgnoresServices(payload: Json, env: map<string, string>, s1: Services, s2: Services)
    requires ActiveProvider(env).Unknown?
    ensures Diagnose(payload, env, s1) == Diagnose(payload, env, s2)
    ensures Diagnose(payload, env, s1).sent.None?
  {
  }

  /** The Gemini backend never lets an exception escape: once the prompt is
      built, its diagnosis is always a value. */
  lemma GeminiNeverRaises(payload: Json, env: map<string, string>, svc: Services)
    requires ActiveProvider(env) == Gemini
    ensures Diagnose(payload, env, svc).result.Ok? <==> PromptInputsPresent(payload)
  {
  }

  /** With Gemini selected and its key set, the one request goes to Gemini
      with that key, the model gemini-1.5-flash and the prompt. An SDK
      failure becomes `{"error": message}`; a reply text is decoded, or
      wrapped as `{"diagnosis": text}` when it is not JSON. */
  lemma GeminiReplyIsDiagnosis(payload: Json, env: map<string, string>, svc: Services)
    requires PromptInputsPresent(payload)
    requires ActiveProvider(env) == Gemini
    requires "GEMINI_API_KEY" in env && env["GEMINI_API_KEY"] != ""
    ensures var req := GeminiRequest(env["GEMINI_API_KEY"], GeminiModel, ConstructPrompt(payload).value);
      var d := Diagnose(payload, env, svc);
      && d.sent == Some(ToGemini(req))
      && (svc.gemini(req).GeminiFailed? ==> d.result == Ok(ErrorObject(svc.gemini(req).message)))
      && (svc.gemini(req).GeminiText? ==> d.result == Ok(ParseOrWrap(svc.decode, svc.gemini(req).text)))
  {
    var prompt := ConstructPrompt(payload).value;
    assert Diagnose(payload, env, svc) == Dispatch(prompt, LoadConfig(env), svc);
  }

  /** The request the Llama or FastRouter backend posts for this payload. */
  function CompletionRequest(payload: Json, env: map<string, string>): HttpRequest
    requires PromptInputsPresent(payload)
    requires ActiveProvider(env) == Llama || ActiveProvider(env) == FastRouter
    requires CredentialsPresent(LoadConfig(env), ActiveProvider(env))
  {
    var c := LoadConfig(env);
    var llama := ActiveProvider(env) == Llama;
    var key := if llama then c.llamaApiKey.value else c.fastrouterApiKey.value;
    var endpoint := if llama then c.llamaEndpoint.value else c.fastrouterEndpoint.value;
    HttpRequest(endpoint, "Bearer " + key, "application/json",
                ConstructPrompt(payload).value, MaxTokens, TimeoutSeconds)
  }

  /** When the one request the backend sends is answered with a completion
      whose first choice's text decodes, the diagnosis is that value. */
  lemma CompletionReturnsDecodedChoice(payload: Json, env: map<string, string>, svc: Services, v: Json)
    requires PromptInputsPresent(payload)
    requires ActiveProvider(env) == Llama || ActiveProvider(env) == FastRouter
    requires CredentialsPresent(LoadConfig(env), ActiveProvider(env))
    requires var reply := svc.post(CompletionRequest(payload, env));
      reply.HttpBody? && IsCompletion(reply.body) && svc.decode(CompletionText(reply.body)) == Some(v)
    ensures Diagnose(payload, env, svc).sent == Some(ToHttp(CompletionRequest(payload, env)))
    ensures Diagnose(payload, env, svc).result == Ok(v)
  {
    var prompt := ConstructPrompt(payload).value;
    assert Diagnose(payload, env, svc) == Dispatch(prompt, LoadConfig(env), svc);
  }

  /** When the Llama or FastRouter request fails (a connection error, a
      timeout, a 4xx or 5xx status, or a body that is not JSON), the
      diagnosis is `{"error": message}` and nothing escapes. */
  lemma HttpFailureIsErrorDiagnosis(payload: Json, env: map<string, string>, svc: Services)
    requires PromptInputsPresent(payload)
    requires ActiveProvider(env) == Llama || ActiveProvider(env) == FastRouter
    requires CredentialsPresent(LoadConfig(env), ActiveProvider(env))
    requires svc.post(CompletionRequest(payload, env)).HttpFailed?
    ensures Diagnose(payload, env, svc).sent == Some(ToHttp(CompletionRequest(payload, env)))
    ensures Diagnose(payload, env, svc).result == Ok(ErrorObject(svc.post(CompletionRequest(payload, env)).message))
  {
    var prompt := ConstructPrompt(payload).value;
    assert Diagnose(payload, env, svc) == Dispatch(prompt, LoadConfig(env), svc);
  }
}
