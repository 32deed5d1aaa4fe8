/** Who is let in: what `RegisterAgent`, `reserveAgent` and `Accept` answer, in terms of the calls under way. */
module BrokerAdmission {
  import opened Base
  import opened Messages
  import opened RelayShared
  import opened RelayHandlers
  import opened Broker
  import opened BrokerInvariants
  import opened BrokerSafety
  import opened BrokerTheorems
  import opened BrokerFlowSafety

  /** The `RegisterAgent` calls between insertion and clean-up. */
  function RegisteredCalls(regs: Regs): set<nat> {
    set r | r in regs && Registered(regs[r].pc)
  }

  /** Call `r` is registered for `route`. */
  predicate Serves(s: State, r: nat, route: Bytes) {
    r in s.regs && Registered(s.regs[r].pc) && s.regs[r].request.routeId == route
  }

  /** A map with different values has as many entries as values. */
  lemma {:induction false} SameSize(m: map<Bytes, nat>, calls: set<nat>)
    requires forall k :: k in m ==> m[k] in calls
    requires forall j, k :: j in m && k in m && m[j] == m[k] ==> j == k
    requires forall r :: r in calls ==> exists k :: k in m && m[k] == r
    ensures |m| == |calls|
    decreases calls
  {
    if calls == {} {
      assert m == map[];
    } else {
      var r :| r in calls;
      var k :| k in m && m[k] == r;
      var n := m - {k};
      forall q | q in calls - {r} ensures exists j :: j in n && n[j] == q {
        var j :| j in m && m[j] == q;
        assert j in n && n[j] == q;
      }
      SameSize(n, calls - {r});
      assert n.Keys == m.Keys - {k};
    }
  }

  lemma AgentsCount(cfg: Config, s: State)
    requires Reachable(cfg, s)
    ensures |s.sh.agents| == |RegisteredCalls(s.regs)|
    ensures forall route :: route in s.sh.agents <==> exists r :: Serves(s, r, route)
    ensures forall route :: route in s.sh.agents ==> Serves(s, s.sh.agents[route], route)
    ensures forall r, route :: Serves(s, r, route) ==> route in s.sh.agents && s.sh.agents[route] == r
  {
    hide Reachable;
    RegistrationUnique(cfg, s);
    forall route | route in s.sh.agents ensures Serves(s, s.sh.agents[route], route) {}
    forall r | r in RegisteredCalls(s.regs) ensures exists k :: k in s.sh.agents && s.sh.agents[k] == r {
      var k := s.regs[r].request.routeId;
      assert k in s.sh.agents && s.sh.agents[k] == r;
    }
    SameSize(s.sh.agents, RegisteredCalls(s.regs));
  }

  /**
   What a `RegisterAgent` call is answered, for every reachable state and every request: the version is
   checked first, then the route, then the capacity, then whether the route is taken.
   */
  lemma RegisterIff(cfg: Config, s: State, r: nat)
    requires Reachable(cfg, s) && r in s.regs && s.regs[r].pc.RegStart?
    ensures Step(cfg, s, Register(r)).Some? && r in Step(cfg, s, Register(r)).value.regs
    ensures var pc := Step(cfg, s, Register(r)).value.regs[r].pc;
      var req := s.regs[r].request;
      var valid := req.version == 1 && |req.routeId| == 16;
      var full := |RegisteredCalls(s.regs)| >= cfg.maxAgents;
      var taken := exists q :: Serves(s, q, req.routeId);
      && (pc == RegReturned(FailedPrecondition) <==> req.version != 1)
      && (pc == RegReturned(InvalidArgument) <==> req.version == 1 && |req.routeId| != 16)
      && (pc == RegReturned(ResourceExhausted) <==> valid && full)
      && (pc == RegReturned(AlreadyExists) <==> valid && !full && taken)
      && (pc == RegLoop <==> valid && !full && !taken)
      && (pc == RegLoop ==> Serves(Step(cfg, s, Register(r)).value, r, req.routeId))
  {
    hide Reachable, Inv;
    AgentsCount(cfg, s);
    ReachableInv(cfg, s);
    RegFacts(cfg, s, r);
  }

  /** Nobody is registered for the route. */
  ghost predicate Offline(s: State, route: Bytes) {
    forall r :: !Serves(s, r, route)
  }

  /** The agent registered for the route is held by as many calls as the limit allows. */
  ghost predicate Full(cfg: Config, s: State, route: Bytes) {
    exists r :: Serves(s, r, route) && |Holders(s.conns, r)| >= cfg.maxTunnels
  }

  /** An agent is registered for the route and held by fewer calls. */
  ghost predicate HasRoom(cfg: Config, s: State, route: Bytes) {
    exists r :: Serves(s, r, route) && |Holders(s.conns, r)| < cfg.maxTunnels
  }

  /**
   What a `Connect` call that asks for a route gets, for every reachable state: the agent registered for
   the route, if fewer calls than the limit hold it.
   */
  lemma ReserveIff(cfg: Config, s: State, c: nat)
    requires Reachable(cfg, s) && c in s.conns && s.conns[c].pc.Reserving?
    ensures |s.conns[c].recvd| > 0 && s.conns[c].recvd[0].ClientOpen?
    ensures Step(cfg, s, Reserve(c)).Some? && c in Step(cfg, s, Reserve(c)).value.conns
    ensures var l := Step(cfg, s, Reserve(c)).value.conns[c];
      var route := s.conns[c].recvd[0].routeId;
      && (l.pc == Returned(Unavailable) <==> Offline(s, route))
      && (l.pc == Returned(ResourceExhausted) <==> Full(cfg, s, route))
      && (l.pc.Counting? <==> HasRoom(cfg, s, route))
      && (l.pc.Counting? ==> Serves(s, l.agent, route))
  {
    hide Reachable, Inv, Holders, Serves;
    AgentsCount(cfg, s);
    ReachableInv(cfg, s);
    ConnFacts(cfg, s, c);
    AskedFor(cfg, s, c);
    var route := s.conns[c].recvd[0].routeId;
    if route in s.sh.agents {
      var a := s.sh.agents[route];
      ServingAgent(cfg, s, a, route);
      forall r | Serves(s, r, route) ensures r == a {}
    } else {
      forall r ensures !Serves(s, r, route) {}
    }
  }

  lemma AskedFor(cfg: Config, s: State, c: nat)
    requires Inv(cfg, s) && c in s.conns && s.conns[c].pc.Reserving?
    ensures |s.conns[c].recvd| > 0 && ValidOpen(s.conns[c].recvd[0])
  {
    hide SessionsExact, AgentsExact, CountersExact, NoOrphans, Routing;
    assert ConnObjects(s.sh.agentObjs, s.sh.sessionObjs, c, s.conns[c]);
  }

  lemma ServingAgent(cfg: Config, s: State, a: nat, route: Bytes)
    requires Reachable(cfg, s) && Serves(s, a, route)
    ensures a in s.sh.agentObjs && s.sh.agentObjs[a].active == |Holders(s.conns, a)|
  {
    hide Reachable, Inv, Holders;
    ExactAccounting(cfg, s);
    ReachableInv(cfg, s);
    RegFacts(cfg, s, a);
  }

  /** Call `c` has session `sid` listed. */
  predicate Lists(s: State, c: nat, sid: Bytes) {
    c in s.conns && InMap(s.conns[c].pc) && s.conns[c].sid == sid
  }

  /**
   What an `Accept` call for a session finds, for every reachable state: the `Connect` call that has it
   listed, or nothing exactly if there is none.
   */
  lemma AttachIff(cfg: Config, s: State, x: nat)
    requires Reachable(cfg, s) && x in s.accs && s.accs[x].pc.Attaching?
    ensures Step(cfg, s, Attach(x)).Some? && x in Step(cfg, s, Attach(x)).value.accs
    ensures var b := Step(cfg, s, Attach(x)).value.accs[x];
      var sid := s.accs[x].pc.sid;
      && (b.pc == AccReturned(NotFound) <==> forall c :: !Lists(s, c, sid))
      && (b.pc == AccForwarding <==> exists c :: Lists(s, c, sid))
      && (b.pc == AccForwarding ==> b.session.Some? && Lists(s, b.session.value, sid) && b.port.pump == Receiving)
  {
    hide Reachable, Inv;
    ReachableInv(cfg, s);
    var sid := s.accs[x].pc.sid;
    AttachSid(cfg, s, sid);
    ListedExactly(cfg, s, sid);
  }

  lemma ListedExactly(cfg: Config, s: State, sid: Bytes)
    requires Reachable(cfg, s)
    ensures sid in s.sh.sessions <==> exists c :: Lists(s, c, sid)
    ensures sid in s.sh.sessions ==> Lists(s, s.sh.sessions[sid], sid)
  {
    hide Reachable;
    ExactAccounting(cfg, s);
    forall c | Lists(s, c, sid) ensures sid in s.sh.sessions && s.sh.sessions[sid] == c {}
    if sid in s.sh.sessions { assert Lists(s, s.sh.sessions[sid], sid); }
  }
}
