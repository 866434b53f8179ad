/** The remediation gate: restart a container by id, unless an allow-list
    is in force and the container's name is not on it. The Docker daemon's
    answers (connection, lookup, restart) are oracles carried by `Docker`. */
module DockerActions {
  import opened Optional
  import opened PyValue

  /** What `containers.get(id)` yields: the container (by its name), the
      daemon's `NotFound`, or any other exception's message. */
  datatype LookupReply = Found(name: string) | NotFound | LookupFailed(message: string)

  /** What `container.restart()` yields. */
  datatype RestartReply = Restarted | RestartNotFound | RestartFailed(message: string)

  /** The Docker daemon as the agent sees it: whether `docker.from_env()`
      connects, and how lookups and restarts of a container id turn out. */
  datatype Docker = Docker(
    reachable: bool,
    lookup: Json -> LookupReply,
    restart: Json -> RestartReply)

  /** The gate's answer `(success, message)`, and whether `restart()` ran. */
  datatype GateRun = GateRun(success: bool, message: string, restartInvoked: bool)

  const NotFoundMessage: string := "Container not found."

  function NotAllowedMessage(name: string): string
  {
    "Container " + name + " is not allowed to be restarted."
  }

  function RestartedMessage(name: string): string
  {
    "Container " + name + " restarted successfully."
  }

  /** The allow-list is checked only when it is given and non-empty. */
  predicate Enforced(allowed: Option<seq<string>>)
  {
    allowed.Some? && allowed.value != []
  }

  /** The gate lets a container of this name through. */
  predicate Admits(allowed: Option<seq<string>>, name: string)
  {
    !Enforced(allowed) || name in allowed.value
  }

  /** The decision of `restart_container` once the client is connected. */
  function Gate(lookup: LookupReply, allowed: Option<seq<string>>, restart: RestartReply): (g: GateRun)
    ensures g.restartInvoked <==> lookup.Found? && Admits(allowed, lookup.name)
    ensures g.success <==> g.restartInvoked && restart == Restarted
    ensures g.success ==> g.message == RestartedMessage(lookup.name)
    ensures lookup == NotFound ==> g.message == NotFoundMessage
    ensures lookup.LookupFailed? ==> g.message == lookup.message
    ensures lookup.Found? && !Admits(allowed, lookup.name) ==> g.message == NotAllowedMessage(lookup.name)
    ensures g.restartInvoked && restart == RestartNotFound ==> g.message == NotFoundMessage
    ensures g.restartInvoked && restart.RestartFailed? ==> g.message == restart.message
  {
    match lookup
    case NotFound => GateRun(false, NotFoundMessage, false)
    case LookupFailed(m) => GateRun(false, m, false)
    case Found(name) =>
      if Enforced(allowed) && name !in allowed.value then
        GateRun(false, NotAllowedMessage(name), false)
      else
        match restart
        case Restarted => GateRun(true, RestartedMessage(name), true)
        case RestartNotFound => GateRun(false, NotFoundMessage, true)
        case RestartFailed(m) => GateRun(false, m, true)
  }

  /** `restart_container(id, allowed)`. Connecting to the daemon happens
      before the `try`, so a failure there escapes to the caller. */
  function RestartContainer(docker: Docker, id: Json, allowed: Option<seq<string>>): (r: Result<GateRun>)
    ensures r.Raise? <==> !docker.reachable
    ensures r.Raise? ==> r.fault == DockerException
    ensures r.Ok? && r.value.restartInvoked ==>
      docker.lookup(id).Found? && Admits(allowed, docker.lookup(id).name)
    ensures r.Ok? && r.value.success ==> docker.restart(id) == Restarted
    ensures r.Ok? ==> r.value == Gate(docker.lookup(id), allowed, docker.restart(id))
  {
    if !docker.reachable then Raise(DockerException)
    else Ok(Gate(docker.lookup(id), allowed, docker.restart(id)))
  }

  /** Safety: with an allow-list in force, a container whose looked-up name
      is not on it is refused by name and never restarted. */
  lemma GateRefusesUnlisted(lookup: LookupReply, allowed: Option<seq<string>>, restart: RestartReply)
    requires Enforced(allowed) && lookup.Found? && lookup.name !in allowed.value
    ensures Gate(lookup, allowed, restart) == GateRun(false, NotAllowedMessage(lookup.name), false)
  {
  }

  /** With no allow-list or an empty one, a container that is found is
      always restarted. */
  lemma EmptyAllowListRestarts(name: string, allowed: Option<seq<string>>, restart: RestartReply)
    requires allowed == None || allowed == Some([])
    ensures Gate(Found(name), allowed, restart).restartInvoked
    ensures Gate(Found(name), allowed, restart).success <==> restart == Restarted
  {
  }

  /** The lookup comes first: a container that is not found is reported as
      such whatever the allow-list says, and nothing is restarted. */
  lemma NotFoundIgnoresAllowList(a1: Option<seq<string>>, a2: Option<seq<string>>, r1: RestartReply, r2: RestartReply)
    ensures Gate(NotFound, a1, r1) == Gate(NotFound, a2, r2) == GateRun(false, NotFoundMessage, false)
  {
  }

  /** The gate judges the name the daemon reports, not the id it was given:
      two ids naming the same container get the same verdict. */
  lemma GateSeesOnlyLookedUpName(docker: Docker, id1: Json, id2: Json, allowed: Option<seq<string>>)
    requires docker.lookup(id1) == docker.lookup(id2)
    requires docker.restart(id1) == docker.restart(id2)
    ensures RestartContainer(docker, id1, allowed) == RestartContainer(docker, id2, allowed)
  {
  }
}
