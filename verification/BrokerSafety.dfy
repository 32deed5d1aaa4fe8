/** Every action of the relay keeps the invariants, so they hold in every reachable state. */
module BrokerSafety {
  import opened Base
  import opened Messages
  import opened RelayShared
  import opened RelayHandlers
  import opened Broker
  import opened BrokerInvariants

  // ---- RegisterAgent ----

  /** A change of one registration record that neither registers nor unregisters it. */
  lemma AgentsMove(cfg: Config, regs: Regs, agents: map<Bytes, nat>, agentObjs: AgentObjs, gauge: int, r: nat, g: Reg)
    requires AgentsExact(cfg, regs, agents, agentObjs, gauge)
    requires r in regs ==> g.request == regs[r].request && (Registered(g.pc) <==> Registered(regs[r].pc))
    requires r !in regs ==> !Registered(g.pc)
    requires g.pc.RegStart? ==> r !in agentObjs && g.taken == [] && g.sent == []
    ensures AgentsExact(cfg, regs[r := g], agents, agentObjs, gauge)
  {
    assert r in regs ==> RegObject(agents, agentObjs, r, regs[r]);
    forall q | q in regs && q != r ensures RegObject(agents, agentObjs, q, regs[q]) {}
  }

  lemma AgentsInsert(cfg: Config, regs: Regs, agents: map<Bytes, nat>, agentObjs: AgentObjs, gauge: int, r: nat)
    requires AgentsExact(cfg, regs, agents, agentObjs, gauge)
    requires r in regs && regs[r].pc.RegStart? && r !in agentObjs
    requires var route := regs[r].request.routeId; route !in agents && |route| == ROUTE_ID_SIZE
    requires |agents| < cfg.maxAgents
    ensures var route := regs[r].request.routeId;
      AgentsExact(cfg, regs[r := regs[r].(pc := RegLoop)], agents[route := r],
        agentObjs[r := AgentState(route, 0, false)], gauge + 1)
  {
    var route := regs[r].request.routeId;
    var objs := agentObjs[r := AgentState(route, 0, false)];
    forall q | q in regs && q != r ensures RegObject(agents[route := r], objs, q, regs[q]) {
      assert RegObject(agents, agentObjs, q, regs[q]);
    }
    assert RegObject(agents[route := r], objs, r, regs[r].(pc := RegLoop));
    hide RegObject;
  }

  lemma AgentsRemove(cfg: Config, regs: Regs, agents: map<Bytes, nat>, agentObjs: AgentObjs, gauge: int, r: nat,
    code: Code)
    requires AgentsExact(cfg, regs, agents, agentObjs, gauge)
    requires r in regs && regs[r].pc.RegCleanup?
    ensures r in agentObjs
    ensures var route := agentObjs[r].route;
      && route in agents && agents[route] == r && !agentObjs[r].done
      && AgentsExact(cfg, regs[r := regs[r].(pc := RegReturned(code))], agents - {route},
        agentObjs[r := agentObjs[r].(done := true)], gauge - 1)
  {
    assert RegObject(agents, agentObjs, r, regs[r]);
    var route := agentObjs[r].route;
    assert |agents - {route}| == |agents| - 1 by {
      assert (agents - {route}).Keys == agents.Keys - {route};
    }
    forall q | q in regs && q != r
      ensures RegObject(agents - {route}, agentObjs[r := agentObjs[r].(done := true)], q, regs[q]) {
      assert RegObject(agents, agentObjs, q, regs[q]);
    }
  }

  lemma NewAgentHasNoHolders(cfg: Config, conns: Conns, agentObjs: AgentObjs, sessionObjs: SessionObjs, gauge: int,
    r: nat, route: Bytes)
    requires Objects(conns, agentObjs, sessionObjs) && CountersExact(cfg, conns, agentObjs, gauge) && r !in agentObjs
    ensures CountersExact(cfg, conns, agentObjs[r := AgentState(route, 0, false)], gauge)
  {
    forall c | c in conns ensures c !in Holders(conns, r) {
      assert ConnObjects(agentObjs, sessionObjs, c, conns[c]);
    }
    assert Holders(conns, r) == {};
  }

  lemma OrphansGrow(conns: Conns, agentObjs: AgentObjs, sessionObjs: SessionObjs, agentObjs': AgentObjs)
    requires NoOrphans(conns, agentObjs, sessionObjs)
    requires forall a :: Live(agentObjs, a) ==> Live(agentObjs', a)
    ensures NoOrphans(conns, agentObjs', sessionObjs)
  {
    forall d | d in conns ensures ConnNotified(agentObjs', sessionObjs, d, conns[d]) {
      assert ConnNotified(agentObjs, sessionObjs, d, conns[d]);
    }
  }

  lemma RoutingReg(conns: Conns, regs: Regs, r: nat, g: Reg)
    requires Routing(conns, regs) && RegRouting(conns, r, g)
    requires r in regs ==> regs[r].taken <= g.taken
    ensures Routing(conns, regs[r := g])
  {
    forall q | q in regs && q != r ensures RegRouting(conns, q, regs[q]) {}
    forall c | c in conns && conns[c].notified
      ensures conns[c].agent in regs[r := g] && c in regs[r := g][conns[c].agent].taken {
      assert c in regs[conns[c].agent].taken;
    }
  }

  lemma RegFacts(cfg: Config, s: State, r: nat)
    requires Inv(cfg, s) && r in s.regs
    ensures RegObject(s.sh.agents, s.sh.agentObjs, r, s.regs[r]) && RegRouting(s.conns, r, s.regs[r])
  {
    hide Objects, NoOrphans, SessionsExact, CountersExact;
  }

  lemma StepRegisterInv(cfg: Config, s: State, r: nat)
    requires Inv(cfg, s) && StepRegister(cfg, s, r).Some?
    ensures Inv(cfg, StepRegister(cfg, s, r).value)
  {
    hide Objects, NoOrphans, SessionsExact, CountersExact, AgentsExact, Routing;
    var g := s.regs[r];
    var t := StepRegister(cfg, s, r).value;
    RegFacts(cfg, s, r);
    if t.regs[r].pc.RegReturned? {
      RegRecordInv(cfg, s, r, t.regs[r]);
    } else {
      RoutingReg(s.conns, s.regs, r, t.regs[r]);
      RegisterInserts(cfg, s, r);
    }
  }

  lemma RegisterInserts(cfg: Config, s: State, r: nat)
    requires Inv(cfg, s) && r in s.regs && s.regs[r].pc.RegStart? && r !in s.sh.agentObjs
    requires var route := s.regs[r].request.routeId; route !in s.sh.agents && |route| == ROUTE_ID_SIZE
    requires |s.sh.agents| < cfg.maxAgents
    ensures var route := s.regs[r].request.routeId; var objs := s.sh.agentObjs[r := AgentState(route, 0, false)];
      && Objects(s.conns, objs, s.sh.sessionObjs)
      && AgentsExact(cfg, s.regs[r := s.regs[r].(pc := RegLoop)], s.sh.agents[route := r], objs, s.sh.agentGauge + 1)
      && CountersExact(cfg, s.conns, objs, s.sh.tunnelGauge)
      && NoOrphans(s.conns, objs, s.sh.sessionObjs)
  {
    hide Objects, NoOrphans, SessionsExact, AgentsExact, CountersExact, Routing;
    var objs := s.sh.agentObjs[r := AgentState(s.regs[r].request.routeId, 0, false)];
    ObjectsRelabel(s.conns, s.sh.agentObjs, s.sh.sessionObjs, objs, s.sh.sessionObjs);
    AgentsInsert(cfg, s.regs, s.sh.agents, s.sh.agentObjs, s.sh.agentGauge, r);
    NewAgentHasNoHolders(cfg, s.conns, s.sh.agentObjs, s.sh.sessionObjs, s.sh.tunnelGauge, r,
      s.regs[r].request.routeId);
    OrphansGrow(s.conns, s.sh.agentObjs, s.sh.sessionObjs, objs);
  }

  /** Cleanup: every listed session of the agent is cancelled, so no notified call is left orphaned. */
  lemma OrphansAfterCleanup(s: State, r: nat)
    requires Objects(s.conns, s.sh.agentObjs, s.sh.sessionObjs) && SessionsExact(s.conns, s.sh.sessions)
    requires NoOrphans(s.conns, s.sh.agentObjs, s.sh.sessionObjs) && r in s.sh.agentObjs
    ensures var sh := CleanupRegion(s.sh, r); NoOrphans(s.conns, sh.agentObjs, sh.sessionObjs)
  {
    var sh := CleanupRegion(s.sh, r);
    forall d | d in s.conns ensures ConnNotified(sh.agentObjs, sh.sessionObjs, d, s.conns[d]) {
      var k := s.conns[d];
      assert ConnNotified(s.sh.agentObjs, s.sh.sessionObjs, d, k)
        && ConnObjects(s.sh.agentObjs, s.sh.sessionObjs, d, k);
      if InMap(k.pc) {
        assert SessionObject(s.conns, s.sh.agentObjs, d, s.sh.sessionObjs[d]);
        assert Listed(s.sh.sessions, s.sh.sessionObjs, d);
      }
    }
  }

  lemma CountersAfterCleanup(cfg: Config, conns: Conns, agentObjs: AgentObjs, gauge: int, r: nat)
    requires CountersExact(cfg, conns, agentObjs, gauge) && r in agentObjs
    ensures CountersExact(cfg, conns, agentObjs[r := agentObjs[r].(done := true)], gauge)
  {
  }

  lemma StepCleanupInv(cfg: Config, s: State, r: nat)
    requires Inv(cfg, s) && StepCleanup(s, r).Some?
    ensures Inv(cfg, StepCleanup(s, r).value)
  {
    hide Objects, NoOrphans, SessionsExact, CountersExact, AgentsExact;
    var g := s.regs[r];
    var sh := CleanupRegion(s.sh, r);
    AgentsRemove(cfg, s.regs, s.sh.agents, s.sh.agentObjs, s.sh.agentGauge, r, g.pc.rcode);
    ObjectsRelabel(s.conns, s.sh.agentObjs, s.sh.sessionObjs, sh.agentObjs, sh.sessionObjs);
    OrphansAfterCleanup(s, r);
    CountersAfterCleanup(cfg, s.conns, s.sh.agentObjs, s.sh.tunnelGauge, r);
    assert RegRouting(s.conns, r, g);
    RoutingReg(s.conns, s.regs, r, g.(pc := RegReturned(g.pc.rcode)));
  }

  lemma RegRecordInv(cfg: Config, s: State, r: nat, g: Reg)
    requires Inv(cfg, s)
    requires r in s.regs ==>
      g.request == s.regs[r].request && (Registered(g.pc) <==> Registered(s.regs[r].pc)) && s.regs[r].taken <= g.taken
    requires r !in s.regs ==> g.pc.RegStart? && g.taken == [] && g.sent == []
    requires g.pc.RegStart? ==> r !in s.sh.agentObjs && g.taken == [] && g.sent == []
    requires RegRouting(s.conns, r, g)
    ensures Inv(cfg, s.(regs := s.regs[r := g]))
  {
    hide Objects, NoOrphans, SessionsExact, CountersExact, AgentsExact, Routing;
    AgentsMove(cfg, s.regs, s.sh.agents, s.sh.agentObjs, s.sh.agentGauge, r, g);
    RoutingReg(s.conns, s.regs, r, g);
  }

  lemma StepRegInv(cfg: Config, s: State, r: nat, ev: RegEvent)
    requires Inv(cfg, s) && StepReg(s, r, ev).Some?
    ensures Inv(cfg, StepReg(s, r, ev).value)
  {
    hide Objects, NoOrphans, SessionsExact, CountersExact, AgentsExact, Routing;
    RegFacts(cfg, s, r);
    RegRecordInv(cfg, s, r, RegLocal(s.regs[r], ev).value);
  }

  // ---- Connect ----

  lemma NewConnectInv(cfg: Config, s: State, c: nat)
    requires Inv(cfg, s) && c !in s.conns
    ensures Inv(cfg, s.(conns := s.conns[c := NEW_CONN]))
  {
    hide Objects, Routing, AgentsExact, CountersExact;
    NewConnObjects(s.conns, s.sh.agentObjs, s.sh.sessionObjs, c);
    NewConnRouting(s.conns, s.regs, c);
    NewConnCounters(cfg, s.conns, s.sh.agentObjs, s.sh.tunnelGauge, c);
  }

  lemma NewConnCounters(cfg: Config, conns: Conns, agentObjs: AgentObjs, gauge: int, c: nat)
    requires CountersExact(cfg, conns, agentObjs, gauge) && c !in conns
    ensures CountersExact(cfg, conns[c := NEW_CONN], agentObjs, gauge)
  {
    forall a ensures Holders(conns[c := NEW_CONN], a) == Holders(conns, a) {}
    assert CountedCalls(conns[c := NEW_CONN]) == CountedCalls(conns);
  }

  lemma NewConnObjects(conns: Conns, agentObjs: AgentObjs, sessionObjs: SessionObjs, c: nat)
    requires Objects(conns, agentObjs, sessionObjs) && c !in conns
    ensures Objects(conns[c := NEW_CONN], agentObjs, sessionObjs)
  {
    forall d | d in sessionObjs ensures d != c {
      assert SessionObject(conns, agentObjs, d, sessionObjs[d]);
    }
    forall d | d in sessionObjs ensures SessionObject(conns[c := NEW_CONN], agentObjs, d, sessionObjs[d]) {
      assert SessionObject(conns, agentObjs, d, sessionObjs[d]);
    }
  }

  lemma NewConnRouting(conns: Conns, regs: Regs, c: nat)
    requires Routing(conns, regs) && c !in conns
    ensures Routing(conns[c := NEW_CONN], regs)
  {
    forall r | r in regs ensures RegRouting(conns[c := NEW_CONN], r, regs[r]) {
      assert RegRouting(conns, r, regs[r]);
    }
  }

  lemma ConnFacts(cfg: Config, s: State, c: nat)
    requires Inv(cfg, s) && c in s.conns
    ensures ConnObjects(s.sh.agentObjs, s.sh.sessionObjs, c, s.conns[c])
    ensures ConnNotified(s.sh.agentObjs, s.sh.sessionObjs, c, s.conns[c])
    ensures c in s.sh.sessionObjs ==> SessionObject(s.conns, s.sh.agentObjs, c, s.sh.sessionObjs[c])
  {
    hide Routing, AgentsExact, CountersExact, SessionsExact;
  }

  /** A call changes together with `active` and `done`-preserving updates of agent objects. */
  lemma ConnAgentInv(cfg: Config, s: State, c: nat, l: Conn, agentObjs': AgentObjs)
    requires Inv(cfg, s) && c in s.conns
    requires s.sh.agentObjs.Keys == agentObjs'.Keys
    requires forall a ::
      a in agentObjs' ==> agentObjs'[a].route == s.sh.agentObjs[a].route && agentObjs'[a].done == s.sh.agentObjs[a].done
    requires s.conns[c].sid == l.sid && s.conns[c].recvd <= l.recvd && s.conns[c].notified == l.notified
    requires !InMap(l.pc) && !InMap(s.conns[c].pc)
    requires s.conns[c].agent == l.agent || (c !in s.sh.sessionObjs && !l.notified)
    requires s.conns[c].clientHello == l.clientHello
    requires ConnObjects(agentObjs', s.sh.sessionObjs, c, l) && ConnNotified(agentObjs', s.sh.sessionObjs, c, l)
    ensures Objects(s.conns[c := l], agentObjs', s.sh.sessionObjs)
    ensures SessionsExact(s.conns[c := l], s.sh.sessions)
    ensures AgentsExact(cfg, s.regs, s.sh.agents, agentObjs', s.sh.agentGauge)
    ensures NoOrphans(s.conns[c := l], agentObjs', s.sh.sessionObjs)
    ensures Routing(s.conns[c := l], s.regs)
  {
    hide Objects, Routing, CountersExact, NoOrphans, SessionsExact, AgentsExact;
    ObjectsUpdate(s.conns, s.sh.agentObjs, s.sh.sessionObjs, c, l, agentObjs');
    SessionsUpdate(s.conns, s.sh.sessions, c, l);
    OrphansUpdate(s.conns, s.sh.agentObjs, s.sh.sessionObjs, c, l, agentObjs');
    RoutingUpdate(s.conns, s.regs, c, l);
    AgentsRelabel(cfg, s.regs, s.sh.agents, s.sh.agentObjs, s.sh.agentGauge, agentObjs');
  }

  lemma AgentsRelabel(cfg: Config, regs: Regs, agents: map<Bytes, nat>, agentObjs: AgentObjs, gauge: int,
    agentObjs': AgentObjs)
    requires AgentsExact(cfg, regs, agents, agentObjs, gauge)
    requires agentObjs.Keys == agentObjs'.Keys
    requires forall a ::
      a in agentObjs' ==> agentObjs'[a].route == agentObjs[a].route && agentObjs'[a].done == agentObjs[a].done
    ensures AgentsExact(cfg, regs, agents, agentObjs', gauge)
  {
    forall r | r in regs ensures RegObject(agents, agentObjs', r, regs[r]) {
      assert RegObject(agents, agentObjs, r, regs[r]);
    }
  }

  /** A reservation taken or given back: `active` follows the set of holders. */
  lemma CountersTransfer(cfg: Config, conns: Conns, agentObjs: AgentObjs, gauge: int, c: nat, l: Conn, a: nat,
    delta: int)
    requires CountersExact(cfg, conns, agentObjs, gauge) && c in conns && a in agentObjs
    requires Counted(conns[c].pc) <==> Counted(l.pc)
    requires delta == 1 ==> !Holds(conns[c].pc) && Holds(l.pc) && l.agent == a && agentObjs[a].active < cfg.maxTunnels
    requires delta == -1 ==> Holds(conns[c].pc) && conns[c].agent == a && !Holds(l.pc)
    requires delta == 1 || delta == -1
    ensures CountersExact(cfg, conns[c := l], agentObjs[a := agentObjs[a].(active := agentObjs[a].active + delta)],
      gauge)
  {
    hide Holds, Counted;
    forall b ensures |Holders(conns[c := l], b)| == |Holders(conns, b)| + (if b == a then delta else 0) {
      HoldersAfter(conns, c, l, b);
    }
    CountedAfter(conns, c, l);
  }

  lemma StepReserveInv(cfg: Config, s: State, c: nat)
    requires Inv(cfg, s) && StepReserve(cfg, s, c).Some?
    ensures Inv(cfg, StepReserve(cfg, s, c).value)
  {
    hide Objects, Routing, CountersExact, NoOrphans, SessionsExact, AgentsExact;
    var t := StepReserve(cfg, s, c).value;
    var l := t.conns[c];
    ConnFacts(cfg, s, c);
    if l.pc.Returned? {
      MoveKeepsInv(cfg, s, c, l);
    } else {
      ReservedRoute(cfg, s, s.conns[c].recvd[0].routeId);
      ConnAgentInv(cfg, s, c, l, t.sh.agentObjs);
      CountersTransfer(cfg, s.conns, s.sh.agentObjs, s.sh.tunnelGauge, c, l, l.agent, 1);
    }
  }

  lemma ReservedRoute(cfg: Config, s: State, route: Bytes)
    requires Inv(cfg, s)
    ensures route in s.sh.agents ==>
      s.sh.agents[route] in s.sh.agentObjs && s.sh.agentObjs[s.sh.agents[route]].route == route
  {
    hide Objects, Routing, CountersExact, NoOrphans, SessionsExact;
    if route in s.sh.agents {
      var r := s.sh.agents[route];
      assert RegObject(s.sh.agents, s.sh.agentObjs, r, s.regs[r]);
    }
  }

  lemma CountersGauge(cfg: Config, conns: Conns, agentObjs: AgentObjs, gauge: int, c: nat, l: Conn)
    requires CountersExact(cfg, conns, agentObjs, gauge) && c in conns
    requires (Holds(conns[c].pc) <==> Holds(l.pc)) && l.agent == conns[c].agent
    ensures CountersExact(cfg, conns[c := l], agentObjs,
              gauge + (if Counted(l.pc) && !Counted(conns[c].pc) then 1 else if Counted(conns[c].pc) && !Counted(l.pc)
                then -1 else 0))
  {
    hide Holds, Counted;
    forall b ensures |Holders(conns[c := l], b)| == |Holders(conns, b)| { HoldersAfter(conns, c, l, b); }
    CountedAfter(conns, c, l);
  }

  lemma StepGaugeInv(cfg: Config, s: State, c: nat)
    requires Inv(cfg, s)
    ensures StepCount(s, c).Some? ==> Inv(cfg, StepCount(s, c).value)
    ensures StepUncount(s, c).Some? ==> Inv(cfg, StepUncount(s, c).value)
  {
    hide Objects, Routing, CountersExact, NoOrphans, SessionsExact, AgentsExact;
    if StepCount(s, c).Some? {
      ConnFacts(cfg, s, c);
      var l := StepCount(s, c).value.conns[c];
      ConnAgentInv(cfg, s, c, l, s.sh.agentObjs);
      CountersGauge(cfg, s.conns, s.sh.agentObjs, s.sh.tunnelGauge, c, l);
    }
    if StepUncount(s, c).Some? {
      ConnFacts(cfg, s, c);
      var l := StepUncount(s, c).value.conns[c];
      ConnAgentInv(cfg, s, c, l, s.sh.agentObjs);
      CountersGauge(cfg, s.conns, s.sh.agentObjs, s.sh.tunnelGauge, c, l);
    }
  }

  lemma StepReleaseInv(cfg: Config, s: State, c: nat)
    requires Inv(cfg, s) && StepRelease(s, c).Some?
    ensures Inv(cfg, StepRelease(s, c).value)
  {
    hide Objects, Routing, CountersExact, NoOrphans, SessionsExact, AgentsExact;
    var t := StepRelease(s, c).value;
    ConnFacts(cfg, s, c);
    ConnAgentInv(cfg, s, c, t.conns[c], t.sh.agentObjs);
    CountersTransfer(cfg, s.conns, s.sh.agentObjs, s.sh.tunnelGauge, c, t.conns[c], t.conns[c].agent, -1);
  }

  // ---- Session objects ----

  lemma OrphansSessions(conns: Conns, agentObjs: AgentObjs, sessionObjs: SessionObjs, sessionObjs': SessionObjs)
    requires NoOrphans(conns, agentObjs, sessionObjs)
    requires sessionObjs.Keys <= sessionObjs'.Keys
    requires forall d ::
      d in conns && Uncancelled(sessionObjs', d) ==> Uncancelled(sessionObjs, d) || !InMap(conns[d].pc)
    ensures NoOrphans(conns, agentObjs, sessionObjs')
  {
    forall d | d in conns ensures ConnNotified(agentObjs, sessionObjs', d, conns[d]) {
      assert ConnNotified(agentObjs, sessionObjs, d, conns[d]);
    }
  }

  /** Cancelling a session, or completing its handshake, keeps every invariant. */
  lemma SessionRelabelInv(cfg: Config, s: State, c: nat, o: SessionState)
    requires Inv(cfg, s) && c in s.sh.sessionObjs
    requires o.sid == s.sh.sessionObjs[c].sid && o.agent == s.sh.sessionObjs[c].agent
    requires s.sh.sessionObjs[c].cancelled ==> o.cancelled
    ensures Inv(cfg, s.(sh := s.sh.(sessionObjs := s.sh.sessionObjs[c := o])))
  {
    hide Objects, Routing, CountersExact, NoOrphans, SessionsExact, AgentsExact;
    ObjectsRelabel(s.conns, s.sh.agentObjs, s.sh.sessionObjs, s.sh.agentObjs, s.sh.sessionObjs[c := o]);
    OrphansSessions(s.conns, s.sh.agentObjs, s.sh.sessionObjs, s.sh.sessionObjs[c := o]);
  }

  lemma CancelMove(k: Conn)
    requires k.pc.Cancelling?
    ensures LocalMove(k, k.(pc := Releasing(k.pc.code)))
  {
  }

  lemma StepCancelConnInv(cfg: Config, s: State, c: nat)
    requires Inv(cfg, s) && StepCancelConn(s, c).Some?
    ensures Inv(cfg, StepCancelConn(s, c).value)
  {
    hide Objects, Routing, CountersExact, NoOrphans, SessionsExact, AgentsExact, LocalMove;
    var k := s.conns[c];
    CancelMove(k);
    MoveKeepsInv(cfg, s, c, k.(pc := Releasing(k.pc.code)));
    SessionRelabelInv(cfg, s.(conns := s.conns[c := k.(pc := Releasing(k.pc.code))]), c,
      s.sh.sessionObjs[c].(cancelled := true));
  }

  lemma ObjectsAllocate(conns: Conns, agentObjs: AgentObjs, sessionObjs: SessionObjs, c: nat, sid: Bytes)
    requires Objects(conns, agentObjs, sessionObjs) && c in conns && conns[c].pc.Allocating?
    requires |sid| == SESSION_ID_SIZE && forall d :: d in sessionObjs ==> sessionObjs[d].sid != sid
    ensures Objects(conns[c := conns[c].(pc := SendAssigned, sid := sid)], agentObjs,
                    sessionObjs[c := SessionState(sid, conns[c].agent, false, false, [])])
  {
    assert ConnObjects(agentObjs, sessionObjs, c, conns[c]);
    forall d | d in sessionObjs ensures d != c && SessionObject(conns, agentObjs, d, sessionObjs[d]) {}
    forall d | d in conns && d != c
      ensures ConnObjects(agentObjs, sessionObjs[c := SessionState(sid, conns[c].agent, false, false, [])], d,
        conns[d]) {
      assert ConnObjects(agentObjs, sessionObjs, d, conns[d]);
    }
  }

  lemma StepAllocateInv(cfg: Config, s: State, c: nat, sid: Bytes)
    requires Inv(cfg, s) && StepAllocate(s, c, sid).Some?
    ensures Inv(cfg, StepAllocate(s, c, sid).value)
  {
    hide Objects, Routing, CountersExact, NoOrphans, SessionsExact, AgentsExact;
    var t := StepAllocate(s, c, sid).value;
    var l := t.conns[c];
    ConnFacts(cfg, s, c);
    ObjectsAllocate(s.conns, s.sh.agentObjs, s.sh.sessionObjs, c, sid);
    SessionsUpdate(s.conns, s.sh.sessions, c, l);
    RoutingUpdate(s.conns, s.regs, c, l);
    CountersGauge(cfg, s.conns, s.sh.agentObjs, s.sh.tunnelGauge, c, l);
    OrphansUpdate(s.conns, s.sh.agentObjs, s.sh.sessionObjs, c, l, s.sh.agentObjs);
    OrphansSessions(s.conns[c := l], s.sh.agentObjs, s.sh.sessionObjs, t.sh.sessionObjs);
  }

  /** Listed calls have session objects, so their identifiers differ. */
  lemma SidsDiffer(conns: Conns, agentObjs: AgentObjs, sessionObjs: SessionObjs, c: nat, d: nat)
    requires Objects(conns, agentObjs, sessionObjs) && c in sessionObjs && c in conns && d in conns
    requires InMap(conns[d].pc) && c != d
    ensures conns[d].sid != conns[c].sid
  {
    assert SessionObject(conns, agentObjs, c, sessionObjs[c]);
    assert ConnObjects(agentObjs, sessionObjs, d, conns[d]);
    assert SessionObject(conns, agentObjs, d, sessionObjs[d]);
  }

  lemma SessionsInsert(conns: Conns, agentObjs: AgentObjs, sessionObjs: SessionObjs, sessions: map<Bytes, nat>, c: nat,
    l: Conn)
    requires Objects(conns, agentObjs, sessionObjs) && SessionsExact(conns, sessions)
    requires c in sessionObjs && c in conns && !InMap(conns[c].pc) && InMap(l.pc) && l.sid == conns[c].sid
    ensures SessionsExact(conns[c := l], sessions[l.sid := c])
  {
    hide Objects, InMap;
    forall d | d in conns && InMap(conns[d].pc) ensures conns[d].sid != l.sid {
      SidsDiffer(conns, agentObjs, sessionObjs, c, d);
    }
  }

  lemma StepInsertInv(cfg: Config, s: State, c: nat)
    requires Inv(cfg, s) && StepInsert(s, c).Some?
    ensures Inv(cfg, StepInsert(s, c).value)
  {
    hide Objects, Routing, CountersExact, NoOrphans, SessionsExact, AgentsExact;
    var l := s.conns[c].(pc := Notifying);
    ConnFacts(cfg, s, c);
    ObjectsUpdate(s.conns, s.sh.agentObjs, s.sh.sessionObjs, c, l, s.sh.agentObjs);
    SessionsInsert(s.conns, s.sh.agentObjs, s.sh.sessionObjs, s.sh.sessions, c, l);
    RoutingUpdate(s.conns, s.regs, c, l);
    CountersGauge(cfg, s.conns, s.sh.agentObjs, s.sh.tunnelGauge, c, l);
    OrphansUpdate(s.conns, s.sh.agentObjs, s.sh.sessionObjs, c, l, s.sh.agentObjs);
  }

  lemma SessionsRemove(conns: Conns, sessions: map<Bytes, nat>, c: nat, l: Conn)
    requires SessionsExact(conns, sessions) && c in conns && InMap(conns[c].pc) && !InMap(l.pc)
    ensures SessionsExact(conns[c := l], sessions - {conns[c].sid})
  {
  }

  lemma StepDeleteInv(cfg: Config, s: State, c: nat)
    requires Inv(cfg, s) && StepDelete(s, c).Some?
    ensures Inv(cfg, StepDelete(s, c).value)
  {
    hide Objects, Routing, CountersExact, NoOrphans, SessionsExact, AgentsExact;
    var l := s.conns[c].(pc := Cancelling(s.conns[c].pc.code));
    ConnFacts(cfg, s, c);
    ObjectsUpdate(s.conns, s.sh.agentObjs, s.sh.sessionObjs, c, l, s.sh.agentObjs);
    SessionsRemove(s.conns, s.sh.sessions, c, l);
    RoutingUpdate(s.conns, s.regs, c, l);
    CountersGauge(cfg, s.conns, s.sh.agentObjs, s.sh.tunnelGauge, c, l);
    OrphansUpdate(s.conns, s.sh.agentObjs, s.sh.sessionObjs, c, l, s.sh.agentObjs);
  }

  lemma RoutingNotify(conns: Conns, regs: Regs, c: nat)
    requires Routing(conns, regs) && c in conns && !conns[c].notified
    requires conns[c].agent in regs && regs[conns[c].agent].pc.RegLoop?
    ensures var k := conns[c]; var g := regs[k.agent];
      Routing(conns[c := k.(pc := AwaitReady, notified := true)],
              regs[k.agent := g.(pc := RegSending(Note(k)), taken := g.taken + [c])])
  {
    var k := conns[c];
    var g := regs[k.agent];
    var h := g.(pc := RegSending(Note(k)), taken := g.taken + [c]);
    var conns' := conns[c := k.(pc := AwaitReady, notified := true)];
    forall r | r in regs ensures RegRouting(conns', r, regs[r]) {
      assert RegRouting(conns, r, regs[r]);
    }
    assert RegRouting(conns', k.agent, h);
    forall d | d in conns' && conns'[d].notified
      ensures conns'[d].agent in regs && d in regs[k.agent := h][conns'[d].agent].taken {
      if d == c { assert h.taken[|g.taken|] == c; } else { assert d in regs[conns[d].agent].taken; }
    }
  }

  lemma StepNotifyInv(cfg: Config, s: State, c: nat)
    requires Inv(cfg, s) && StepNotify(s, c).Some?
    ensures Inv(cfg, StepNotify(s, c).value)
  {
    hide Objects, Routing, CountersExact, NoOrphans, SessionsExact, AgentsExact;
    var k := s.conns[c];
    var t := StepNotify(s, c).value;
    ConnFacts(cfg, s, c);
    RegFacts(cfg, s, k.agent);
    ObjectsUpdate(s.conns, s.sh.agentObjs, s.sh.sessionObjs, c, t.conns[c], s.sh.agentObjs);
    SessionsUpdate(s.conns, s.sh.sessions, c, t.conns[c]);
    AgentsMove(cfg, s.regs, s.sh.agents, s.sh.agentObjs, s.sh.agentGauge, k.agent, t.regs[k.agent]);
    CountersGauge(cfg, s.conns, s.sh.agentObjs, s.sh.tunnelGauge, c, t.conns[c]);
    OrphansUpdate(s.conns, s.sh.agentObjs, s.sh.sessionObjs, c, t.conns[c], s.sh.agentObjs);
    RoutingNotify(s.conns, s.regs, c);
  }

  // ---- Accept ----

  lemma AcceptorMove(k: Conn, x: nat)
    ensures LocalMove(k, k.(acceptors := k.acceptors + [x]))
  {
  }

  lemma StepAttachInv(cfg: Config, s: State, x: nat)
    requires Inv(cfg, s) && StepAttach(s, x).Some?
    ensures Inv(cfg, StepAttach(s, x).value)
  {
    hide Objects, Routing, CountersExact, NoOrphans, SessionsExact, AgentsExact, LocalMove;
    var t := StepAttach(s, x).value;
    if t.accs[x].session.Some? && t.accs[x].pc.AccForwarding? {
      var c := t.accs[x].session.value;
      AcceptorMove(s.conns[c], x);
      MoveKeepsInv(cfg, s, c, t.conns[c]);
      SessionRelabelInv(cfg, s.(conns := t.conns), c, t.sh.sessionObjs[c]);
    }
  }

  lemma StepCancelAccInv(cfg: Config, s: State, x: nat)
    requires Inv(cfg, s) && StepCancelAcc(s, x).Some?
    ensures Inv(cfg, StepCancelAcc(s, x).value)
  {
    hide Objects, Routing, CountersExact, NoOrphans, SessionsExact, AgentsExact;
    var c := s.accs[x].session.value;
    SessionRelabelInv(cfg, s, c, s.sh.sessionObjs[c].(cancelled := true));
  }

  lemma HandMove(k: Conn)
    ensures k.port.pump.Offering? && ConnSane(k) ==>
      LocalMove(k, k.(port := k.port.(pump := Tallying(k.port.pump.payload))))
    ensures k.port.pump.Tallying? && ConnSane(k) ==> LocalMove(k, k.(port := k.port.(pump := Receiving)))
    ensures k.pc.Forwarding? ==> forall b :: LocalMove(k, k.(pc := SendPayload(b)))
  {
  }

  lemma StepHandInv(cfg: Config, s: State, c: nat, x: nat)
    requires Inv(cfg, s)
    ensures StepHandToAgent(s, c, x).Some? ==> Inv(cfg, StepHandToAgent(s, c, x).value)
    ensures StepHandToClient(s, c, x).Some? ==> Inv(cfg, StepHandToClient(s, c, x).value)
  {
    hide Objects, Routing, CountersExact, NoOrphans, SessionsExact, AgentsExact, LocalMove;
    if c in s.conns { ConnFacts(cfg, s, c); HandMove(s.conns[c]); }
    if StepHandToAgent(s, c, x).Some? { MoveKeepsInv(cfg, s, c, StepHandToAgent(s, c, x).value.conns[c]); }
    if StepHandToClient(s, c, x).Some? { MoveKeepsInv(cfg, s, c, StepHandToClient(s, c, x).value.conns[c]); }
  }

  lemma StepTallyInv(cfg: Config, s: State, c: nat)
    requires Inv(cfg, s) && StepTallyToAgent(s, c).Some?
    ensures Inv(cfg, StepTallyToAgent(s, c).value)
  {
    hide Objects, Routing, CountersExact, NoOrphans, SessionsExact, AgentsExact, LocalMove;
    ConnFacts(cfg, s, c);
    HandMove(s.conns[c]);
    MoveKeepsInv(cfg, s, c, StepTallyToAgent(s, c).value.conns[c]);
  }

  // ---- All actions, all runs ----

  lemma NewRegisterInv(cfg: Config, s: State, r: nat, request: RegisterRequest)
    requires Inv(cfg, s) && r !in s.regs
    ensures Inv(cfg, s.(regs := s.regs[r := Reg(request, RegStart, false, [], [])]))
  {
    NewRegisterFresh(cfg, s, r);
    RegRecordInv(cfg, s, r, Reg(request, RegStart, false, [], []));
  }

  lemma NewRegisterFresh(cfg: Config, s: State, r: nat)
    requires Inv(cfg, s) && r !in s.regs
    ensures r !in s.sh.agentObjs
  {
    hide Objects, Routing, CountersExact, NoOrphans, SessionsExact;
  }

  lemma StepAccFrame(s: State, x: nat, ev: AccEvent)
    requires StepAcc(s, x, ev).Some?
    ensures var t := StepAcc(s, x, ev).value; t.sh == s.sh && t.regs == s.regs && t.conns == s.conns
  {
    hide AccLocal;
  }

  lemma StepInv(cfg: Config, s: State, act: Action)
    requires Inv(cfg, s) && Step(cfg, s, act).Some?
    ensures Inv(cfg, Step(cfg, s, act).value)
  {
    hide Objects, Routing, CountersExact, NoOrphans, SessionsExact, AgentsExact, StepRegister, StepReg, StepCleanup,
      StepConn, StepReserve, StepCount, StepAllocate, StepInsert, StepNotify, StepDelete, StepCancelConn, StepRelease,
      StepUncount, StepAcc, StepAttach, StepCancelAcc, StepHandToAgent, StepHandToClient, StepTallyToAgent;
    match act
    case NewRegister(r, req) => NewRegisterInv(cfg, s, r, req);
    case Register(r) => StepRegisterInv(cfg, s, r);
    case RegStep(r, ev) => StepRegInv(cfg, s, r, ev);
    case Cleanup(r) => StepCleanupInv(cfg, s, r);
    case NewConnect(c) => NewConnectInv(cfg, s, c);
    case ConnStep(c, ev) => StepConnInv(cfg, s, c, ev);
    case Reserve(c) => StepReserveInv(cfg, s, c);
    case Count(c) => StepGaugeInv(cfg, s, c);
    case Allocate(c, sid) => StepAllocateInv(cfg, s, c, sid);
    case Insert(c) => StepInsertInv(cfg, s, c);
    case Notify(c) => StepNotifyInv(cfg, s, c);
    case Delete(c) => StepDeleteInv(cfg, s, c);
    case CancelConn(c) => StepCancelConnInv(cfg, s, c);
    case Release(c) => StepReleaseInv(cfg, s, c);
    case Uncount(c) => StepGaugeInv(cfg, s, c);
    case NewAccept(x) =>
    case AccStep(x, ev) => StepAccFrame(s, x, ev);
    case Attach(x) => StepAttachInv(cfg, s, x);
    case CancelAcc(x) => StepCancelAccInv(cfg, s, x);
    case HandToAgent(c, x) => StepHandInv(cfg, s, c, x);
    case HandToClient(c, x) => StepHandInv(cfg, s, c, x);
    case TallyToAgent(c) => StepTallyInv(cfg, s, c);
    case TallyToClient(x) =>
  }

  lemma InitInv(cfg: Config)
    ensures Inv(cfg, INITIAL)
  {
    forall a ensures Holders(INITIAL.conns, a) == {} {}
    assert CountedCalls(INITIAL.conns) == {};
  }

  lemma {:induction false} RunInv(cfg: Config, acts: seq<Action>)
    ensures Run(cfg, INITIAL, acts).Some? ==> Inv(cfg, Run(cfg, INITIAL, acts).value)
  {
    hide Inv, Step;
    if acts == [] {
      InitInv(cfg);
    } else {
      RunInv(cfg, acts[..|acts| - 1]);
      var t := Run(cfg, INITIAL, acts[..|acts| - 1]);
      if t.Some? && Step(cfg, t.value, acts[|acts| - 1]).Some? {
        StepInv(cfg, t.value, acts[|acts| - 1]);
      }
    }
  }
}
