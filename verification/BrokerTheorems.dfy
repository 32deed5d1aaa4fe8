/** The main results about registration, accounting and notification, over every run of the relay. */
module BrokerTheorems {
  import opened Base
  import opened Messages
  import opened RelayShared
  import opened RelayHandlers
  import opened Broker
  import opened BrokerInvariants
  import opened BrokerSafety

  lemma ReachableInv(cfg: Config, s: State)
    requires Reachable(cfg, s)
    ensures Inv(cfg, s)
  {
    hide Inv, Run;
    var acts :| Run(cfg, INITIAL, acts) == Some(s);
    RunInv(cfg, acts);
  }

  lemma ReachableStep(cfg: Config, s: State, act: Action)
    requires Reachable(cfg, s) && Step(cfg, s, act).Some?
    ensures Reachable(cfg, Step(cfg, s, act).value)
  {
    hide Step;
    var acts :| Run(cfg, INITIAL, acts) == Some(s);
    var more := acts + [act];
    assert more[..|more| - 1] == acts;
    assert Run(cfg, INITIAL, more) == Step(cfg, s, act);
  }

  lemma {:induction false} ReachableRun(cfg: Config, s: State, acts: seq<Action>)
    requires Reachable(cfg, s) && Run(cfg, s, acts).Some?
    ensures Reachable(cfg, Run(cfg, s, acts).value)
  {
    hide Reachable, Step;
    if acts != [] {
      ReachableRun(cfg, s, acts[..|acts| - 1]);
      ReachableStep(cfg, Run(cfg, s, acts[..|acts| - 1]).value, acts[|acts| - 1]);
    }
  }

  /** A shared step of one `Connect` call changes no other, and no port. */
  lemma SharedTouchesOne(cfg: Config, s: State, act: Action)
    requires Step(cfg, s, act).Some? && SharedConn(act)
    ensures var t := Step(cfg, s, act).value;
      && act.c in s.conns && act.c in t.conns && t.conns == s.conns[act.c := t.conns[act.c]]
      && t.conns[act.c].port == s.conns[act.c].port
  {
    hide ReserveRegion, ReleaseRegion, InsertRegion, DeleteRegion, CancelSession, FreshSid, ValidOpen, Note,
      StepRegister, StepReg, StepCleanup, StepConn, StepAcc, StepAttach, StepCancelAcc, StepHandToAgent,
      StepHandToClient, StepTallyToAgent, StepTallyToClient;
  }

  /** The actions that change a `RegisterAgent` call. */
  predicate OfRegistration(act: Action) {
    act.Register? || act.RegStep? || act.Cleanup? || act.Notify?
  }

  lemma OthersKeepRegs(cfg: Config, s: State, act: Action)
    requires Step(cfg, s, act).Some? && !OfRegistration(act) && !act.NewRegister?
    ensures Step(cfg, s, act).value.regs == s.regs
  {
    hide ConnLocal, AccLocal, ReserveRegion, AttachRegion, ReleaseRegion, InsertRegion, DeleteRegion, CancelSession,
      FreshSid, ValidOpen, StepRegister, StepReg, StepCleanup, StepNotify;
  }

  /** Exact accounting, also for agent objects that have left the agents map. */
  lemma ExactAccounting(cfg: Config, s: State)
    requires Reachable(cfg, s)
    ensures forall a :: a in s.sh.agentObjs ==> 0 <= s.sh.agentObjs[a].active == |Holders(s.conns, a)| <= cfg.maxTunnels
    ensures forall c :: c in s.conns && Holds(s.conns[c].pc) ==> s.conns[c].agent in s.sh.agentObjs
    ensures s.sh.tunnelGauge == |set c | c in s.conns && Counted(s.conns[c].pc)|
    ensures forall sid, c ::
      (sid in s.sh.sessions && s.sh.sessions[sid] == c)
        <==> (c in s.conns && InMap(s.conns[c].pc) && s.conns[c].sid == sid)
  {
    ReachableInv(cfg, s);
    hide Reachable, Routing, AgentsExact, NoOrphans;
    assert CountedCalls(s.conns) == set c | c in s.conns && Counted(s.conns[c].pc);
    forall c | c in s.conns && Holds(s.conns[c].pc) ensures s.conns[c].agent in s.sh.agentObjs {
      assert ConnObjects(s.sh.agentObjs, s.sh.sessionObjs, c, s.conns[c]);
    }
  }

  /** The agents map is in bijection with the registered calls, bounded, and equal to its gauge. */
  lemma RegistrationUnique(cfg: Config, s: State)
    requires Reachable(cfg, s)
    ensures forall route, r :: (route in s.sh.agents && s.sh.agents[route] == r) <==>
              (r in s.regs && Registered(s.regs[r].pc) && s.regs[r].request.routeId == route)
    ensures s.sh.agentGauge == |s.sh.agents| <= cfg.maxAgents
    ensures forall r :: r in s.regs && Registered(s.regs[r].pc) ==> |s.regs[r].request.routeId| == ROUTE_ID_SIZE
  {
    ReachableInv(cfg, s);
    hide Reachable, Routing, CountersExact, NoOrphans, Objects, SessionsExact;
    forall r | r in s.regs ensures RegObject(s.sh.agents, s.sh.agentObjs, r, s.regs[r]) {}
  }

  /** The deferred cleanup always finds its own entry, and never closes `done` twice. */
  lemma CleanupGuardTrue(cfg: Config, s: State, r: nat)
    requires Reachable(cfg, s) && r in s.regs && s.regs[r].pc.RegCleanup?
    ensures r in s.sh.agentObjs && !s.sh.agentObjs[r].done
    ensures var route := s.regs[r].request.routeId; route in s.sh.agents && s.sh.agents[route] == r
    ensures StepCleanup(s, r).Some?
    ensures StepCleanup(s, r).value.sh.agents == s.sh.agents - {s.regs[r].request.routeId}
  {
    ReachableInv(cfg, s);
    hide Reachable, Routing, CountersExact, NoOrphans, Objects, SessionsExact, AgentsExact;
    RegFacts(cfg, s, r);
  }

  /** No orphan tunnels: a listed call past notification, not cancelled, has a registered agent. */
  lemma NoOrphanTunnels(cfg: Config, s: State, c: nat)
    requires Reachable(cfg, s) && c in s.conns && InMap(s.conns[c].pc) && s.conns[c].notified
    requires !SessionOf(s, c).cancelled
    ensures var a := s.conns[c].agent;
      && a in s.regs && Registered(s.regs[a].pc)
      && s.regs[a].request.routeId in s.sh.agents && s.sh.agents[s.regs[a].request.routeId] == a
  {
    ReachableInv(cfg, s);
    hide Reachable, CountersExact, NoOrphans, Objects, SessionsExact;
    ConnFacts(cfg, s, c);
    RegFacts(cfg, s, s.conns[c].agent);
  }

  /** A call that was notified holds its agent's route: the one it asked for in its first frame. */
  lemma NotificationsFollowRoutes(cfg: Config, s: State, r: nat, i: nat)
    requires Reachable(cfg, s) && r in s.regs && i < |s.regs[r].sent|
    ensures i < |s.regs[r].taken|
    ensures var c := s.regs[r].taken[i];
      && c in s.conns && s.conns[c].agent == r
      && |s.conns[c].recvd| > 0 && s.conns[c].recvd[0] == ClientOpen(PROTOCOL_VERSION, s.regs[r].request.routeId)
      && s.regs[r].sent[i] == Notification(PROTOCOL_VERSION, s.conns[c].sid, s.conns[c].clientHello)
      && forall j :: 0 <= j < i ==> s.regs[r].taken[j] != c
  {
    ReachableInv(cfg, s);
    hide Reachable, CountersExact, SessionsExact, AgentsExact, NoOrphans, Objects;
    RegFacts(cfg, s, r);
    var c := s.regs[r].taken[i];
    ConnFacts(cfg, s, c);
  }

  lemma NoAgentsLeft(cfg: Config, regs: Regs, agents: map<Bytes, nat>, agentObjs: AgentObjs, gauge: int)
    requires AgentsExact(cfg, regs, agents, agentObjs, gauge) && forall r :: r in regs ==> regs[r].pc.RegReturned?
    ensures agents == map[] && gauge == 0 && forall a :: a in agentObjs ==> agentObjs[a].done
  {
    assert agents == map[];
    forall a | a in agentObjs ensures agentObjs[a].done { assert RegObject(agents, agentObjs, a, regs[a]); }
  }

  lemma NoCountsLeft(cfg: Config, conns: Conns, agentObjs: AgentObjs, gauge: int)
    requires CountersExact(cfg, conns, agentObjs, gauge) && forall c :: c in conns ==> conns[c].pc.Returned?
    ensures gauge == 0 && forall a :: a in agentObjs ==> agentObjs[a].active == 0
  {
    assert CountedCalls(conns) == {};
    forall a | a in agentObjs ensures agentObjs[a].active == 0 { assert Holders(conns, a) == {}; }
  }

  lemma NoSessionsLeft(conns: Conns, sessions: map<Bytes, nat>)
    requires SessionsExact(conns, sessions) && forall c :: c in conns ==> conns[c].pc.Returned?
    ensures sessions == map[]
  {
  }

  /** When every call has returned, both maps and every counter are back to zero. */
  lemma QuiescentIsEmpty(cfg: Config, s: State)
    requires Reachable(cfg, s)
    requires forall r :: r in s.regs ==> s.regs[r].pc.RegReturned?
    requires forall c :: c in s.conns ==> s.conns[c].pc.Returned?
    ensures s.sh.agents == map[] && s.sh.sessions == map[]
    ensures s.sh.agentGauge == 0 && s.sh.tunnelGauge == 0
    ensures forall a :: a in s.sh.agentObjs ==> s.sh.agentObjs[a].active == 0 && s.sh.agentObjs[a].done
  {
    hide Reachable, Objects, NoOrphans, Routing, AgentsExact, CountersExact, SessionsExact;
    ReachableInv(cfg, s);
    NoAgentsLeft(cfg, s.regs, s.sh.agents, s.sh.agentObjs, s.sh.agentGauge);
    NoCountsLeft(cfg, s.conns, s.sh.agentObjs, s.sh.tunnelGauge);
    NoSessionsLeft(s.conns, s.sh.sessions);
  }
}
