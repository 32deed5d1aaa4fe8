/**
 The state that all relay handlers share, and the regions of code that run under `Service.mu`.
 Agent objects are named by the `RegisterAgent` call that made them and session objects by their
 `Connect` call, so that an object outlives its map entry exactly as it does in the program.
 */
module RelayShared {
  import opened Base

  datatype Code =
    | Ok | FailedPrecondition | InvalidArgument | ResourceExhausted | AlreadyExists | Unavailable
    | Internal | DeadlineExceeded | Cancelled | NotFound | StreamBroken

  datatype Config = Config(maxAgents: nat, maxTunnels: nat)

  /** `NewService`: limits that are not positive are replaced by the defaults. */
  function NewConfig(maxAgents: int, maxTunnels: int): (cfg: Config)
    ensures cfg.maxAgents > 0 && cfg.maxTunnels > 0
    ensures if maxAgents > 0 then cfg.maxAgents == maxAgents else cfg.maxAgents == 1000
    ensures if maxTunnels > 0 then cfg.maxTunnels == maxTunnels else cfg.maxTunnels == 128
  {
    Config(if maxAgents <= 0 then 1000 else maxAgents, if maxTunnels <= 0 then 128 else maxTunnels)
  }

  datatype AgentState = AgentState(route: Bytes, active: int, done: bool)

  datatype SessionState = SessionState(sid: Bytes, agent: nat, cancelled: bool, ready: bool, hello: Bytes)

  datatype Shared = Shared(
    agents: map<Bytes, nat>,
    sessions: map<Bytes, nat>,
    agentObjs: map<nat, AgentState>,
    sessionObjs: map<nat, SessionState>,
    agentGauge: int,
    tunnelGauge: int)

  const NO_HANDLERS := Shared(map[], map[], map[], map[], 0, 0)

  /** `RegisterAgent`, first region: capacity, then duplicates, then insertion. */
  function RegisterRegion(cfg: Config, sh: Shared, r: nat, route: Bytes): (Shared, Code) {
    if |sh.agents| >= cfg.maxAgents then (sh, ResourceExhausted)
    else if route in sh.agents then (sh, AlreadyExists)
    else (sh.(agents := sh.agents[route := r],
              agentObjs := sh.agentObjs[r := AgentState(route, 0, false)],
              agentGauge := sh.agentGauge + 1), Ok)
  }

  /** The session object `c` is the one stored in the sessions map under its own identifier. */
  predicate Listed(sessions: map<Bytes, nat>, objs: map<nat, SessionState>, c: nat) {
    c in objs && objs[c].sid in sessions && sessions[objs[c].sid] == c
  }

  /** Cancel every listed session of agent object `r`. */
  function CancelListed(sessions: map<Bytes, nat>, objs: map<nat, SessionState>, r: nat): map<nat, SessionState> {
    map c | c in objs ::
      if Listed(sessions, objs, c) && objs[c].agent == r then objs[c].(cancelled := true) else objs[c]
  }

  /** `RegisterAgent`, deferred region: unlist the agent, close `done`, cancel its listed sessions. */
  function CleanupRegion(sh: Shared, r: nat): Shared
    requires r in sh.agentObjs
  {
    var route := sh.agentObjs[r].route;
    var own := route in sh.agents && sh.agents[route] == r;
    sh.(agents := if own then sh.agents - {route} else sh.agents,
        agentGauge := if own then sh.agentGauge - 1 else sh.agentGauge,
        agentObjs := sh.agentObjs[r := sh.agentObjs[r].(done := true)],
        sessionObjs := CancelListed(sh.sessions, sh.sessionObjs, r))
  }

  /** `reserveAgent`. */
  function ReserveRegion(cfg: Config, sh: Shared, route: Bytes): (Shared, Option<nat>, Code) {
    if route !in sh.agents || sh.agents[route] !in sh.agentObjs then (sh, None, Unavailable)
    else
      var a := sh.agents[route];
      if sh.agentObjs[a].active >= cfg.maxTunnels then (sh, None, ResourceExhausted)
      else (sh.(agentObjs := sh.agentObjs[a := sh.agentObjs[a].(active := sh.agentObjs[a].active + 1)]), Some(a), Ok)
  }

  /** `releaseAgent`. */
  function ReleaseRegion(sh: Shared, a: nat): Shared
    requires a in sh.agentObjs
  {
    sh.(agentObjs := sh.agentObjs[a := sh.agentObjs[a].(active := sh.agentObjs[a].active - 1)])
  }

  /** `Connect`: list the session object of call `c`. */
  function InsertRegion(sh: Shared, c: nat): Shared
    requires c in sh.sessionObjs
  {
    sh.(sessions := sh.sessions[sh.sessionObjs[c].sid := c])
  }

  /** `Connect`, deferred: remove whatever is listed under this session's identifier. */
  function DeleteRegion(sh: Shared, c: nat): Shared
    requires c in sh.sessionObjs
  {
    sh.(sessions := sh.sessions - {sh.sessionObjs[c].sid})
  }

  /** `sess.cancel()`. */
  function CancelSession(sh: Shared, c: nat): Shared
    requires c in sh.sessionObjs
  {
    sh.(sessionObjs := sh.sessionObjs[c := sh.sessionObjs[c].(cancelled := true)])
  }

  /** `Accept`: look the session up and, the first time only, store the hello and close `ready`. */
  function AttachRegion(sh: Shared, sid: Bytes, hello: Bytes): (Shared, Option<nat>) {
    if sid !in sh.sessions || sh.sessions[sid] !in sh.sessionObjs then (sh, None)
    else
      var c := sh.sessions[sid];
      var o := sh.sessionObjs[c];
      (if o.ready then sh
       else sh.(sessionObjs := sh.sessionObjs[c := o.(ready := true, hello := hello)]), Some(c))
  }
}
