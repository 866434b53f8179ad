/** The agent's HTTP handlers: `POST /alert` diagnoses the incident, applies
    the remediation gate when a restart is recommended, and appends one
    record to the in-memory incident list; `GET /incidents` returns that list. */
module Agent {
  import opened Optional
  import opened PyValue
  import opened LlmClient
  import opened DockerActions

  const RestartAction: Json := JString("RESTART")
  const AllowedContainerNames: seq<string> := ["buggy-app-v2"]
  const NoActionTaken: string := "No action taken."
  const Success: string := "SUCCESS"
  const Failed: string := "FAILED"
  const AlertReceived: string := "alert received"

  const UnknownRootCause: Json := JString("Unknown")
  const IgnoreAction: Json := JString("IGNORE")
  const NoJustification: Json := JString("No justification provided.")

  /** The three diagnosis fields the handler reads, with their defaults filled in. */
  datatype Verdict = Verdict(rootCause: Json, recommendedAction: Json, justification: Json)

  /** `diagnosis.get(key, default)` for the three keys; only a dict has `get`. */
  function ReadVerdict(diagnosis: Json): (r: Result<Verdict>)
    ensures r.Ok? <==> diagnosis.JObject?
    ensures r.Raise? ==> r.fault == AttributeError
    ensures r.Ok? ==>
      && r.value.rootCause == (if Has(diagnosis, "root_cause") then Field(diagnosis, "root_cause") else UnknownRootCause)
      && r.value.recommendedAction == (if Has(diagnosis, "recommended_action") then Field(diagnosis, "recommended_action") else IgnoreAction)
      && r.value.justification == (if Has(diagnosis, "justification") then Field(diagnosis, "justification") else NoJustification)
  {
    var rootCause :- Get(diagnosis, "root_cause", UnknownRootCause);
    // `diagnosis` answered `get` once, so it is a dict and answers it again
    var action := Get(diagnosis, "recommended_action", IgnoreAction).value;
    var justification := Get(diagnosis, "justification", NoJustification).value;
    Ok(Verdict(rootCause, action, justification))
  }

  /** The arguments `restart_container` was called with. */
  datatype GateCall = GateCall(containerId: Json, allowed: Option<seq<string>>)

  /** The remediation step: the status it settles on (or the exception that
      escaped), the gate call if one was made, and whether a restart ran. */
  datatype Remediation = Remediation(status: Result<string>, call: Option<GateCall>, restartInvoked: bool)

  /** `payload["container_info"]["id"]`, followed by the read of the name
      that the handler only logs. */
  function ContainerId(payload: Json): (r: Result<Json>)
    ensures r.Ok? <==> Has(payload, "container_info")
                       && Has(Field(payload, "container_info"), "id")
                       && Has(Field(payload, "container_info"), "name")
    ensures r.Ok? ==> r.value == Field(Field(payload, "container_info"), "id")
  {
    var info :- Subscript(payload, "container_info");
    var id :- Subscript(info, "id");
    var name :- Subscript(info, "name");
    Ok(id)
  }

  /** Runs the gate when, and only when, the recommended action is exactly
      the string "RESTART", always against the fixed allow-list. */
  function Remediate(payload: Json, action: Json, docker: Docker): (m: Remediation)
    ensures action != RestartAction ==> m == Remediation(Ok(NoActionTaken), None, false)
    ensures m.call.Some? <==> action == RestartAction && ContainerId(payload).Ok?
    ensures action == RestartAction && ContainerId(payload).Raise? ==>
      m == Remediation(Raise(ContainerId(payload).fault), None, false)
    ensures m.call.Some? ==> m.call.value == GateCall(ContainerId(payload).value, Some(AllowedContainerNames))
    ensures m.restartInvoked ==> m.call.Some? && docker.lookup(m.call.value.containerId) == Found("buggy-app-v2")
    ensures m.call.Some? ==>
      var g := RestartContainer(docker, m.call.value.containerId, m.call.value.allowed);
      m.restartInvoked == (g.Ok? && g.value.restartInvoked)
    ensures m.status.Ok? ==> m.status.value in {NoActionTaken, Success, Failed}
    ensures m.status.Ok? && m.call.Some? ==>
      var g := RestartContainer(docker, m.call.value.containerId, m.call.value.allowed);
      g.Ok? && (m.status.value == Success <==> g.value.success) && m.status.value != NoActionTaken
    ensures m.status.Raise? && m.call.Some? ==> m.status.fault == DockerException && !m.restartInvoked
  {
    if action != RestartAction then Remediation(Ok(NoActionTaken), None, false)
    else
      match ContainerId(payload)
      case Raise(f) => Remediation(Raise(f), None, false)
      case Ok(id) =>
        var call := GateCall(id, Some(AllowedContainerNames));
        match RestartContainer(docker, id, call.allowed)
        case Raise(f) => Remediation(Raise(f), Some(call), false)
        case Ok(g) => Remediation(Ok(if g.success then Success else Failed), Some(call), g.restartInvoked)
  }

  /** One entry of the incident list. */
  datatype Record = Record(
    incidentId: Json,
    timestamp: Json,
    containerInfo: Json,
    breachedSlo: Json,
    rootCause: Json,
    recommendedAction: Json,
    remediationStatus: string,
    aiJustification: Json)

  /** `payload.get(key)`: the value, or `None` when the key is absent. */
  function Copied(payload: Json, key: string): Json
  {
    if Has(payload, key) then Field(payload, key) else JNull
  }

  /** The record the handler stores: four payload fields copied with
      `get`, the defaulted diagnosis fields and the remediation status. */
  function BuildRecord(payload: Json, v: Verdict, status: string): (r: Result<Record>)
    ensures r.Ok? <==> payload.JObject?
    ensures r.Ok? ==> r.value == Record(
      Copied(payload, "incident_id"), Copied(payload, "timestamp"),
      Copied(payload, "container_info"), Copied(payload, "breached_slo"),
      v.rootCause, v.recommendedAction, status, v.justification)
  {
    var incidentId :- Get(payload, "incident_id", JNull);
    // `payload` answered `get` once, so it is a dict and answers it again
    var timestamp := Get(payload, "timestamp", JNull).value;
    var containerInfo := Get(payload, "container_info", JNull).value;
    var breachedSlo := Get(payload, "breached_slo", JNull).value;
    Ok(Record(incidentId, timestamp, containerInfo, breachedSlo,
              v.rootCause, v.recommendedAction, status, v.justification))
  }

  datatype AlertResponse = AlertResponse(status: string, diagnosis: Json, remediation: string)

  /** The HTTP outcome: the JSON response, or an exception that escaped the
      handler (answered by the framework as a server error). */
  datatype Reply = Responded(body: AlertResponse) | ServerError(fault: Fault)

  /** What one request does once the diagnosis is in: the reply, the
      records it appends (none or one), and the gate call and restart it made. */
  datatype Outcome = Outcome(
    reply: Reply,
    appended: seq<Record>,
    gateCall: Option<GateCall>,
    restartInvoked: bool)

  /** The handler from the diagnosis on: read the verdict, remediate, build
      the record. Every exception on the way escapes and nothing is appended. */
  function AfterDiagnosis(payload: Json, diagnosis: Result<Json>, docker: Docker): (o: Outcome)
    ensures o.reply.Responded? <==> |o.appended| == 1
    ensures o.reply.ServerError? ==> o.appended == []
    ensures o.gateCall.Some? ==> o.gateCall.value.allowed == Some(AllowedContainerNames)
    ensures o.restartInvoked ==>
      o.gateCall.Some? && docker.lookup(o.gateCall.value.containerId) == Found("buggy-app-v2")
    ensures o.gateCall.Some? ==>
      var g := RestartContainer(docker, o.gateCall.value.containerId, o.gateCall.value.allowed);
      o.restartInvoked == (g.Ok? && g.value.restartInvoked)
    ensures o.reply.Responded? ==>
      && o.reply.body.status == AlertReceived
      && o.appended[0].remediationStatus == o.reply.body.remediation
      && (o.reply.body.remediation == NoActionTaken <==> o.gateCall.None?)
  {
    match diagnosis
    case Raise(f) => Outcome(ServerError(f), [], None, false)
    case Ok(d) =>
      match ReadVerdict(d)
      case Raise(f) => Outcome(ServerError(f), [], None, false)
      case Ok(v) =>
        var m := Remediate(payload, v.recommendedAction, docker);
        match m.status
        case Raise(f) => Outcome(ServerError(f), [], m.call, m.restartInvoked)
        case Ok(status) =>
          match BuildRecord(payload, v, status)
          case Raise(f) => Outcome(ServerError(f), [], m.call, m.restartInvoked)
          case Ok(rec) =>
            Outcome(Responded(AlertResponse(AlertReceived, d, status)), [rec], m.call, m.restartInvoked)
  }

  /** The state after one request, with what the request did to the outside
      world: the backend call, the gate call, and whether a restart ran. */
  datatype Handled = Handled(
    reply: Reply,
    incidents: seq<Record>,
    sent: Option<Sent>,
    gateCall: Option<GateCall>,
    restartInvoked: bool)

  /** The environment variables, the diagnosis services and the Docker daemon. */
  datatype World = World(env: map<string, string>, services: Services, docker: Docker)

  /** `POST /alert` with the decoded JSON body `payload`, on top of the
      incident list `incidents`. */
  function Alert(incidents: seq<Record>, payload: Json, w: World): (h: Handled)
    ensures h.reply.Responded? <==> |h.incidents| == |incidents| + 1
    ensures h.reply.ServerError? ==> h.incidents == incidents
    ensures h.incidents[..|incidents|] == incidents
    ensures h.gateCall.Some? ==> h.gateCall.value.allowed == Some(AllowedContainerNames)
    ensures h.restartInvoked ==>
      h.gateCall.Some? && w.docker.lookup(h.gateCall.value.containerId) == Found("buggy-app-v2")
    ensures h.gateCall.Some? ==>
      var g := RestartContainer(w.docker, h.gateCall.value.containerId, h.gateCall.value.allowed);
      h.restartInvoked == (g.Ok? && g.value.restartInvoked)
    ensures h.sent == Diagnose(payload, w.env, w.services).sent
    ensures h.reply.Responded? ==>
      && h.reply.body.status == AlertReceived
      && h.incidents[|incidents|].remediationStatus == h.reply.body.remediation
      && (h.reply.body.remediation == NoActionTaken <==> h.gateCall.None?)
  {
    var d := Diagnose(payload, w.env, w.services);
    var o := AfterDiagnosis(payload, d.result, w.docker);
    Handled(o.reply, incidents + o.appended, d.sent, o.gateCall, o.restartInvoked)
  }

  datatype IncidentsResponse = IncidentsResponse(incidents: seq<Record>)

  /** `GET /incidents`: the whole list, oldest first. */
  function GetIncidents(incidents: seq<Record>): (r: IncidentsResponse)
    ensures |r.incidents| == |incidents|
    ensures forall i :: 0 <= i < |incidents| ==> r.incidents[i] == incidents[i]
  {
    IncidentsResponse(incidents)
  }
}
