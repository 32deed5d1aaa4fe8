/**
 The `Service` object itself: maps of agent and session objects updated in place under the mutex.
 Each method is one locked region (or one object creation) and is proved to change the shared state
 exactly as the corresponding function of `RelayShared`, which is what the transition system uses.
 */
module RelayService {
  import opened Base
  import opened RelayShared

  class Agent {
    const id: nat
    const route: Bytes
    var active: int
    var done: bool

    constructor (id: nat, route: Bytes)
      ensures this.id == id && this.route == route && active == 0 && !done
    {
      this.id, this.route, active, done := id, route, 0, false;
    }
  }

  class Session {
    const id: nat
    const sid: Bytes
    const agent: Agent
    var cancelled: bool
    var ready: bool
    var agentHello: Bytes

    constructor (id: nat, sid: Bytes, agent: Agent)
      ensures this.id == id && this.sid == sid && this.agent == agent && !cancelled && !ready && agentHello == []
    {
      this.id, this.sid, this.agent, cancelled, ready, agentHello := id, sid, agent, false, false, [];
    }
  }

  class Service {
    const cfg: Config
    var agents: map<Bytes, Agent>
    var sessions: map<Bytes, Session>
    var agentGauge: int
    var tunnelGauge: int
    ghost var agentObjs: map<nat, Agent>      // every agent object ever listed
    ghost var sessionObjs: map<nat, Session>  // every session object ever made

    constructor (maxAgents: int, maxTunnels: int)
      ensures Valid() && View() == NO_HANDLERS
      ensures cfg == NewConfig(maxAgents, maxTunnels)
      ensures agentObjs == map[] && sessionObjs == map[]
    {
      cfg := NewConfig(maxAgents, maxTunnels);
      agents, sessions, agentGauge, tunnelGauge := map[], map[], 0, 0;
      agentObjs, sessionObjs := map[], map[];
    }

    ghost predicate Known(a: Agent)
      reads this
    {
      a.id in agentObjs && agentObjs[a.id] == a
    }

    ghost predicate KnownSession(o: Session)
      reads this
    {
      o.id in sessionObjs && sessionObjs[o.id] == o
    }

    ghost predicate Valid()
      reads this
    {
      && (forall r :: r in agentObjs ==> agentObjs[r].id == r)
      && (forall c :: c in sessionObjs ==> sessionObjs[c].id == c && Known(sessionObjs[c].agent))
      && (forall route :: route in agents ==> Known(agents[route]))
      && (forall sid :: sid in sessions ==> KnownSession(sessions[sid]) && sessions[sid].sid == sid)
    }

    ghost function AgentView(a: Agent): AgentState
      reads a
    {
      AgentState(a.route, a.active, a.done)
    }

    ghost function SessionView(o: Session): SessionState
      reads o
    {
      SessionState(o.sid, o.agent.id, o.cancelled, o.ready, o.agentHello)
    }

    ghost function AgentIds(): map<Bytes, nat>
      reads this`agents
    {
      map route | route in agents :: agents[route].id
    }

    ghost function SessionIds(): map<Bytes, nat>
      reads this`sessions
    {
      map sid | sid in sessions :: sessions[sid].id
    }

    ghost function AgentStates(): map<nat, AgentState>
      reads this`agentObjs, agentObjs.Values
    {
      map r | r in agentObjs :: AgentView(agentObjs[r])
    }

    ghost function SessionStates(): map<nat, SessionState>
      reads this`sessionObjs, sessionObjs.Values
    {
      map c | c in sessionObjs :: SessionView(sessionObjs[c])
    }

    /** The shared state of the transition system that this object represents. */
    ghost function View(): Shared
      reads this, agentObjs.Values, sessionObjs.Values
    {
      Shared(AgentIds(), SessionIds(), AgentStates(), SessionStates(), agentGauge, tunnelGauge)
    }

    /** Store a new agent object under its route. */
    method PutAgent(a: Agent)
      requires Valid() && a.id !in agentObjs
      modifies this`agents, this`agentObjs, this`agentGauge
      ensures Valid() && agentObjs == old(agentObjs)[a.id := a] && agentGauge == old(agentGauge) + 1
      ensures AgentIds() == old(AgentIds())[a.route := a.id]
      ensures AgentStates() == old(AgentStates())[a.id := AgentView(a)]
    {
      agentGauge := agentGauge + 1;
      agentObjs := agentObjs[a.id := a];
      assert Valid();
      agents := agents[a.route := a];
    }

    /** `RegisterAgent`, first region. */
    method ListAgent(a: Agent) returns (code: Code)
      requires Valid() && a.id !in agentObjs && a.active == 0 && !a.done
      modifies this`agents, this`agentObjs, this`agentGauge
      ensures Valid() && (View(), code) == RegisterRegion(cfg, old(View()), a.id, a.route)
      ensures agentObjs == if code == Ok then old(agentObjs)[a.id := a] else old(agentObjs)
    {
      hide SessionIds, SessionStates, SessionView;
      assert AgentIds().Keys == agents.Keys;
      if |agents| >= cfg.maxAgents { return ResourceExhausted; }
      if a.route in agents { return AlreadyExists; }
      hide Valid;
      PutAgent(a);
      code := Ok;
    }

    /** The loop of the deferred region: cancel every listed session of an agent. */
    method CancelLoop(a: Agent)
      requires Valid()
      modifies sessionObjs.Values`cancelled
      ensures forall c :: c in sessionObjs ==>
        var o := sessionObjs[c];
        o.cancelled == (old(o.cancelled) || (o.agent == a && o.sid in sessions && sessions[o.sid] == o))
    {
      var left := sessions.Keys;
      while left != {}
        invariant left <= sessions.Keys
        invariant forall c :: c in sessionObjs ==>
          var o := sessionObjs[c];
          o.cancelled == (old(o.cancelled) || (o.agent == a && o.sid in sessions.Keys - left && sessions[o.sid] == o))
      {
        var sid :| sid in left;
        var sess := sessions[sid];
        assert sessionObjs[sess.id] == sess;
        if sess.agent == a { sess.cancelled := true; }
        left := left - {sid};
      }
    }

    lemma ListedMeans(a: Agent, c: nat)
      requires Valid() && Known(a) && c in sessionObjs
      ensures var o := sessionObjs[c];
        && (Listed(SessionIds(), SessionStates(), c) <==> (o.sid in sessions && sessions[o.sid] == o))
        && (SessionStates()[c].agent == a.id <==> o.agent == a)
    {
      var o := sessionObjs[c];
      assert o.sid in sessions ==> KnownSession(sessions[o.sid]);
    }

    method CancelSessionsOf(a: Agent)
      requires Valid() && Known(a)
      modifies sessionObjs.Values`cancelled
      ensures SessionStates() == CancelListed(SessionIds(), old(SessionStates()), a.id)
    {
      hide Listed, Valid, Known, SessionIds;
      forall c | c in sessionObjs
        ensures var o := sessionObjs[c];
          && (Listed(SessionIds(), SessionStates(), c) <==> (o.sid in sessions && sessions[o.sid] == o))
          && (SessionStates()[c].agent == a.id <==> o.agent == a)
      {
        ListedMeans(a, c);
      }
      CancelLoop(a);
    }

    /** Remove an agent's own entry and close its `done` channel. */
    method CloseAgent(a: Agent)
      requires Valid() && Known(a)
      modifies this`agents, this`agentGauge, a`done
      ensures Valid()
      ensures var own := a.route in old(AgentIds()) && old(AgentIds())[a.route] == a.id;
        && AgentIds() == (if own then old(AgentIds()) - {a.route} else old(AgentIds()))
        && agentGauge == (if own then old(agentGauge) - 1 else old(agentGauge))
      ensures a.id in old(AgentStates()) && old(AgentStates())[a.id].route == a.route
      ensures AgentStates() == old(AgentStates())[a.id := old(AgentStates())[a.id].(done := true)]
    {
      hide SessionIds, SessionStates, SessionView;
      assert a.route in agents ==> agentObjs[agents[a.route].id] == agents[a.route];
      if a.route in agents && agents[a.route] == a {
        agents := agents - {a.route};
        agentGauge := agentGauge - 1;
      }
      a.done := true;
    }

    /** `RegisterAgent`, deferred region. */
    method UnlistAgent(a: Agent)
      requires Valid() && Known(a)
      modifies this`agents, this`agentGauge, a`done, sessionObjs.Values`cancelled
      ensures Valid() && View() == CleanupRegion(old(View()), a.id)
    {
      hide CancelListed, Valid, AgentIds, SessionIds, AgentStates, SessionStates, AgentView;
      CloseAgent(a);
      CancelSessionsOf(a);
    }

    /** `reserveAgent`. */
    method ReserveAgent(route: Bytes) returns (a: Agent?, code: Code)
      requires Valid()
      modifies agentObjs.Values`active
      ensures Valid() && unchanged(this)
      ensures (View(), if a == null then None else Some(a.id), code) == ReserveRegion(cfg, old(View()), route)
      ensures a != null ==> Known(a)
    {
      if route !in agents { return null, Unavailable; }
      a := agents[route];
      assert agentObjs[a.id] == a;
      if a.active >= cfg.maxTunnels { return null, ResourceExhausted; }
      a.active := a.active + 1;
      code := Ok;
      assert AgentStates() == old(AgentStates())[a.id := AgentView(a)];
    }

    /** `releaseAgent`. */
    method ReleaseAgent(a: Agent)
      requires Valid() && Known(a)
      modifies a`active
      ensures Valid() && unchanged(this) && View() == ReleaseRegion(old(View()), a.id)
    {
      a.active := a.active - 1;
      assert AgentStates() == old(AgentStates())[a.id := AgentView(a)];
    }

    /** `Connect`: make the session object of a call. */
    method NewSession(c: nat, sid: Bytes, a: Agent) returns (sess: Session)
      requires Valid() && Known(a) && c !in sessionObjs
      modifies this`sessionObjs
      ensures Valid() && fresh(sess) && KnownSession(sess) && sess.id == c
      ensures View() == old(View()).(sessionObjs := old(View()).sessionObjs[c := SessionState(sid, a.id, false, false,
        [])])
    {
      hide AgentIds, AgentStates, AgentView, SessionIds;
      sess := new Session(c, sid, a);
      sessionObjs := sessionObjs[c := sess];
      assert SessionStates() == old(SessionStates())[c := SessionView(sess)];
    }

    /** `Connect`: list a session. */
    method InsertSession(sess: Session)
      requires Valid() && KnownSession(sess)
      modifies this`sessions
      ensures Valid() && View() == InsertRegion(old(View()), sess.id)
    {
      hide AgentIds, AgentStates, AgentView;
      sessions := sessions[sess.sid := sess];
      assert SessionIds() == old(SessionIds())[sess.sid := sess.id];
    }

    /** `Connect`, deferred: unlist a session. */
    method DeleteSession(sess: Session)
      requires Valid() && KnownSession(sess)
      modifies this`sessions
      ensures Valid() && View() == DeleteRegion(old(View()), sess.id)
    {
      hide AgentIds, AgentStates, AgentView;
      sessions := sessions - {sess.sid};
      assert SessionIds() == old(SessionIds()) - {sess.sid};
    }

    /** `sess.cancel()`. */
    method Cancel(sess: Session)
      requires Valid() && KnownSession(sess)
      modifies sess`cancelled
      ensures Valid() && unchanged(this) && View() == CancelSession(old(View()), sess.id)
    {
      hide AgentIds, AgentStates, AgentView, SessionIds;
      sess.cancelled := true;
      assert SessionStates() == old(SessionStates())[sess.id := SessionView(sess)];
    }

    /** `Accept`: find the session and, through the once-flag, complete its handshake. */
    method Attach(sid: Bytes, hello: Bytes) returns (sess: Session?)
      requires Valid()
      modifies sessionObjs.Values
      ensures Valid() && unchanged(this)
      ensures (View(), if sess == null then None else Some(sess.id)) == AttachRegion(old(View()), sid, hello)
      ensures sess != null ==> KnownSession(sess)
    {
      hide AgentIds, AgentStates, AgentView;
      if sid !in sessions { return null; }
      sess := sessions[sid];
      assert sessionObjs[sess.id] == sess;
      if !sess.ready {
        sess.agentHello := hello;
        sess.ready := true;
      }
      assert SessionStates() == old(SessionStates())[sess.id := SessionView(sess)];
    }
  }
}
