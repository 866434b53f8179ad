/** Properties of the alert handler and the incident list. */
module AgentProps {
  import opened Optional
  import opened PyValue
  import opened LlmClient
  import opened DockerActions
  import opened Agent

  /** The diagnosis the handler works from. */
  function DiagnosisOf(payload: Json, w: World): Result<Json>
  {
    Diagnose(payload, w.env, w.services).result
  }

  /** A request is the diagnosis followed by the rest of the handler, on top
      of whatever the list already holds, and the backend call it records is
      the diagnosis's own; a diagnosis that came back at all
      was built from a prompt, so the payload holds every key the prompt
      reads. */
  lemma AlertIsAfterDiagnosis(incidents: seq<Record>, payload: Json, w: World)
    ensures var h := Alert(incidents, payload, w);
      var o := AfterDiagnosis(payload, DiagnosisOf(payload, w), w.docker);
      && h.reply == o.reply && h.incidents == incidents + o.appended
      && h.gateCall == o.gateCall && h.restartInvoked == o.restartInvoked
    ensures Alert(incidents, payload, w).sent == Diagnose(payload, w.env, w.services).sent
    ensures DiagnosisOf(payload, w).Ok? ==> PromptInputsPresent(payload)
  {
  }

  /** Once the prompt was built, the container id read by the handler is
      the payload's `container_info.id`, and the record can be built. */
  lemma PromptPayloadHasContainer(payload: Json)
    requires PromptInputsPresent(payload)
    ensures ContainerId(payload) == Ok(Field(Field(payload, "container_info"), "id"))
    ensures payload.JObject?
  {
  }

  /** The gate is called exactly when the diagnosis recommends "RESTART"
      (the exact, case-sensitive string), with the payload's container id
      and the fixed allow-list. */
  lemma GateCalledIffRestart(payload: Json, diagnosis: Json, docker: Docker)
    requires PromptInputsPresent(payload) && diagnosis.JObject?
    ensures var o := AfterDiagnosis(payload, Ok(diagnosis), docker);
      var v := ReadVerdict(diagnosis).value;
      && (o.gateCall.Some? <==> v.recommendedAction == RestartAction)
      && (o.gateCall.Some? ==>
            o.gateCall.value == GateCall(Field(Field(payload, "container_info"), "id"), Some(["buggy-app-v2"])))
  {
    PromptPayloadHasContainer(payload);
  }

  /** A diagnosis that is a dict is always answered and recorded, whatever
      it recommends: only a failure to reach the Docker daemon on a restart
      stops the record. The record copies the payload's identifying fields
      and the defaulted diagnosis fields, and the response carries the
      diagnosis as the backend returned it. */
  lemma DictDiagnosisIsRecorded(payload: Json, diagnosis: Json, docker: Docker)
    requires PromptInputsPresent(payload) && diagnosis.JObject?
    ensures var o := AfterDiagnosis(payload, Ok(diagnosis), docker);
      var v := ReadVerdict(diagnosis).value;
      && (o.reply.ServerError? <==> v.recommendedAction == RestartAction && !docker.reachable)
      && (o.reply.Responded? ==>
            && o.reply.body.diagnosis == diagnosis
            && o.appended == [Record(
                 Copied(payload, "incident_id"), Copied(payload, "timestamp"),
                 Copied(payload, "container_info"), Copied(payload, "breached_slo"),
                 v.rootCause, v.recommendedAction, o.reply.body.remediation, v.justification)])
  {
    PromptPayloadHasContainer(payload);
  }

  /** "SUCCESS" exactly when the gate reports success, "FAILED" when it was
      called and did not, "No action taken." when it was not called. */
  lemma StatusFollowsGate(payload: Json, diagnosis: Result<Json>, docker: Docker)
    requires AfterDiagnosis(payload, diagnosis, docker).reply.Responded?
    ensures var o := AfterDiagnosis(payload, diagnosis, docker);
      var status := o.reply.body.remediation;
      && (o.gateCall.None? ==> status == NoActionTaken)
      && (o.gateCall.Some? ==>
            var g := RestartContainer(docker, o.gateCall.value.containerId, o.gateCall.value.allowed);
            g.Ok? && status == (if g.value.success then Success else Failed))
  {
  }

  /** A backend error, a missing credential or an unknown provider yields a
      diagnosis holding only "error": the defaults apply, nothing is
      remediated, and the incident is still recorded. */
  lemma ErrorDiagnosisTakesNoAction(payload: Json, docker: Docker, message: string)
    requires PromptInputsPresent(payload)
    ensures var o := AfterDiagnosis(payload, Ok(ErrorObject(message)), docker);
      && o.reply == Responded(AlertResponse(AlertReceived, ErrorObject(message), NoActionTaken))
      && o.gateCall.None? && !o.restartInvoked
      && o.appended == [Record(
           Copied(payload, "incident_id"), Copied(payload, "timestamp"),
           Copied(payload, "container_info"), Copied(payload, "breached_slo"),
           JString("Unknown"), JString("IGNORE"), "No action taken.",
           JString("No justification provided."))]
  {
    PromptPayloadHasContainer(payload);
    assert ReadVerdict(ErrorObject(message)) == Ok(Verdict(UnknownRootCause, IgnoreAction, NoJustification));
  }

  /** A backend whose text decodes to something other than a dict (a list, a
      bare string) makes the handler's `get` raise: the request fails and
      nothing is recorded. */
  lemma NonDictDiagnosisIsNotRecorded(payload: Json, diagnosis: Json, docker: Docker)
    requires !diagnosis.JObject?
    ensures AfterDiagnosis(payload, Ok(diagnosis), docker) == Outcome(ServerError(AttributeError), [], None, false)
  {
  }

  /** A payload whose `container_info` lacks `image` fails while the
      prompt is built: the request raises KeyError, no backend is called, nothing is
      restarted and nothing is recorded. */
  lemma MissingImageIsNotRecorded(incidents: seq<Record>, payload: Json, w: World)
    requires Has(payload, "container_info")
    requires Field(payload, "container_info").JObject?
    requires Has(Field(payload, "container_info"), "name") && Has(Field(payload, "container_info"), "id")
    requires !Has(Field(payload, "container_info"), "image")
    ensures var h := Alert(incidents, payload, w);
      && h.reply == ServerError(KeyError) && h.incidents == incidents
      && h.sent.None? && h.gateCall.None? && !h.restartInvoked
  {
    var ci := Field(payload, "container_info");
    assert PromptFieldsOf(payload) == Raise(KeyError) by {
      assert Subscript(payload, "container_info") == Ok(ci);
      assert Subscript(ci, "image") == Raise(KeyError);
    }
  }

  /** Safety: whatever the diagnosis says, the agent restarts only a
      container the daemon names "buggy-app-v2". */
  lemma RestartOnlyAllowListed(incidents: seq<Record>, payload: Json, w: World)
    requires Alert(incidents, payload, w).restartInvoked
    ensures var id := Alert(incidents, payload, w).gateCall.value.containerId;
      w.docker.lookup(id) == Found("buggy-app-v2")
  {
  }

  // ---------------------------------------------------------------------
  // The incident list over many requests
  // ---------------------------------------------------------------------

  /** One request to `POST /alert`, with the world as it stood at the time. */
  datatype Delivery = Delivery(payload: Json, world: World)

  /** The incident list after one delivery. */
  function Step(incidents: seq<Record>, d: Delivery): seq<Record>
  {
    Alert(incidents, d.payload, d.world).incidents
  }

  /** What one delivery appends to an empty list. */
  function Appended(d: Delivery): seq<Record>
  {
    Step([], d)
  }

  /** The incident list after handling the deliveries in order. */
  function Run(incidents: seq<Record>, ds: seq<Delivery>): seq<Record>
    decreases |ds|
  {
    if ds == [] then incidents
    else Run(Step(incidents, ds[0]), ds[1..])
  }

  /** The records the deliveries contribute on their own: one for each
      delivery that is answered, none for one that fails. */
  function Contributed(ds: seq<Delivery>): seq<Record>
    decreases |ds|
  {
    if ds == [] then []
    else Appended(ds[0]) + Contributed(ds[1..])
  }

  function CountAnswered(ds: seq<Delivery>): nat
    decreases |ds|
  {
    if ds == [] then 0
    else (if Alert([], ds[0].payload, ds[0].world).reply.Responded? then 1 else 0) + CountAnswered(ds[1..])
  }

  /** What a request appends does not depend on what the list already holds. */
  lemma AlertIgnoresHistory(incidents: seq<Record>, payload: Json, w: World)
    ensures Alert(incidents, payload, w).incidents == incidents + Alert([], payload, w).incidents
    ensures Alert(incidents, payload, w).reply == Alert([], payload, w).reply
  {
  }

  lemma StepAppends(incidents: seq<Record>, d: Delivery)
    ensures Step(incidents, d) == incidents + Appended(d)
  {
    AlertIgnoresHistory(incidents, d.payload, d.world);
  }

  lemma AppendAssociative<T>(x: seq<T>, y: seq<T>, z: seq<T>)
    ensures (x + y) + z == x + (y + z)
  {
  }

  lemma ContributedFirst(ds: seq<Delivery>)
    requires ds != []
    ensures Contributed(ds) == Appended(ds[0]) + Contributed(ds[1..])
  {
  }

  /** The list only grows at its end: after any sequence of requests it is
      the old list followed by one record per answered request, in order. */
  lemma {:induction false} RunAppendsInOrder(incidents: seq<Record>, ds: seq<Delivery>)
    ensures Run(incidents, ds) == incidents + Contributed(ds)
    decreases |ds|
  {
    if ds != [] {
      var a := Appended(ds[0]);
      var next := Step(incidents, ds[0]);
      var rest := Contributed(ds[1..]);
      assert Run(incidents, ds) == Run(next, ds[1..]);
      RunAppendsInOrder(next, ds[1..]);
      StepAppends(incidents, ds[0]);
      ContributedFirst(ds);
      AppendAssociative(incidents, a, rest);
    }
  }

  lemma {:induction false} ContributedCount(ds: seq<Delivery>)
    ensures |Contributed(ds)| == CountAnswered(ds)
    decreases |ds|
  {
    if ds != [] {
      ContributedCount(ds[1..]);
    }
  }

  /** `GET /incidents` returns every record ever appended, oldest first,
      with no capacity bound. */
  lemma IncidentsKeepEverything(incidents: seq<Record>, ds: seq<Delivery>)
    ensures GetIncidents(Run(incidents, ds)).incidents == incidents + Contributed(ds)
    ensures |GetIncidents(Run(incidents, ds)).incidents| == |incidents| + CountAnswered(ds)
  {
    RunAppendsInOrder(incidents, ds);
    ContributedCount(ds);
    var r := GetIncidents(Run(incidents, ds)).incidents;
    assert r == Run(incidents, ds);
  }
}
