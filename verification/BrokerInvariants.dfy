/** What every reachable state of the relay satisfies: accounting, registration, routing, orphans. */
module BrokerInvariants {
  import opened Base
  import opened Messages
  import opened RelayShared
  import opened RelayHandlers
  import opened Broker

  type Conns = map<nat, Conn>
  type Regs = map<nat, Reg>
  type AgentObjs = map<nat, AgentState>
  type SessionObjs = map<nat, SessionState>

  // ---- Where a Connect call is ----

  predicate BeforeSession(pc: ConnPc) {
    pc.RecvOpen? || pc.Reserving? || pc.Counting? || pc.Allocating?
  }

  predicate BeforeNotify(pc: ConnPc) {
    BeforeSession(pc) || pc.SendAssigned? || pc.RecvHandshake? || pc.Inserting? || pc.Notifying?
  }

  predicate BeforeForwarding(pc: ConnPc) {
    BeforeNotify(pc) || pc.AwaitReady? || pc.SendAccept?
  }

  predicate PastNotify(pc: ConnPc) {
    pc.AwaitReady? || pc.SendAccept? || pc.Forwarding? || pc.SendPayload?
  }

  // ---- Objects: what a call knows agrees with the objects it made or reserved ----

  /** Call `k` asked for, and reserved, the agent object named in its record. */
  predicate Reserved(agentObjs: AgentObjs, k: Conn) {
    && k.agent in agentObjs
    && |k.recvd| > 0 && ValidOpen(k.recvd[0])
    && agentObjs[k.agent].route == k.recvd[0].routeId
  }

  predicate ConnObjects(agentObjs: AgentObjs, sessionObjs: SessionObjs, c: nat, k: Conn) {
    && (k.pc.Reserving? ==> |k.recvd| > 0 && ValidOpen(k.recvd[0]))
    && (Holds(k.pc) ==> Reserved(agentObjs, k))
    && (HasSession(k.pc) ==> c in sessionObjs)
    && (BeforeSession(k.pc) ==> c !in sessionObjs)
    && (k.pc.RecvOpen? ==> k.recvd == [])
    && (BeforeForwarding(k.pc) ==> k.port == NEW_PORT)
  }

  predicate SessionObject(conns: Conns, agentObjs: AgentObjs, c: nat, o: SessionState) {
    && c in conns
    && o.sid == conns[c].sid && |o.sid| == SESSION_ID_SIZE
    && o.agent == conns[c].agent
    && Reserved(agentObjs, conns[c])
  }

  ghost predicate Objects(conns: Conns, agentObjs: AgentObjs, sessionObjs: SessionObjs) {
    && (forall c :: c in conns ==> ConnObjects(agentObjs, sessionObjs, c, conns[c]))
    && (forall c :: c in sessionObjs ==> SessionObject(conns, agentObjs, c, sessionObjs[c]))
    && (forall c, d :: c in sessionObjs && d in sessionObjs && sessionObjs[c].sid == sessionObjs[d].sid ==> c == d)
  }

  // ---- The sessions map ----

  /** The sessions map lists exactly the `Connect` calls between insertion and deferred delete. */
  ghost predicate SessionsExact(conns: Conns, sessions: map<Bytes, nat>) {
    && (forall sid :: sid in sessions ==>
          sessions[sid] in conns && InMap(conns[sessions[sid]].pc) && conns[sessions[sid]].sid == sid)
    && (forall c :: c in conns && InMap(conns[c].pc) ==> conns[c].sid in sessions && sessions[conns[c].sid] == c)
  }

  // ---- The agents map ----

  /** A `RegisterAgent` call between insertion and deferred cleanup. */
  predicate Registered(pc: RegPc) {
    pc.RegLoop? || pc.RegSending? || pc.RegCleanup?
  }

  predicate RegObject(agents: map<Bytes, nat>, agentObjs: AgentObjs, r: nat, g: Reg) {
    && (r in agentObjs ==>
          && agentObjs[r].route == g.request.routeId
          && |g.request.routeId| == ROUTE_ID_SIZE
          && (Registered(g.pc) <==> !agentObjs[r].done))
    && (g.pc.RegStart? ==> r !in agentObjs && g.taken == [] && g.sent == [])
    && (Registered(g.pc) ==>
          r in agentObjs && g.request.routeId in agents && agents[g.request.routeId] == r)
  }

  /** Map entries and registered calls are in bijection; an object is done exactly after cleanup. */
  ghost predicate AgentsExact(cfg: Config, regs: Regs, agents: map<Bytes, nat>, agentObjs: AgentObjs, gauge: int) {
    && (forall r :: r in regs ==> RegObject(agents, agentObjs, r, regs[r]))
    && (forall r :: r in agentObjs ==> r in regs)
    && (forall route :: route in agents ==>
          agents[route] in regs && Registered(regs[agents[route]].pc) && regs[agents[route]].request.routeId == route)
    && gauge == |agents| <= cfg.maxAgents
  }

  // ---- Counters ----

  /** The `Connect` calls holding a reservation of agent object `a`. */
  function Holders(conns: Conns, a: nat): set<nat> {
    set c | c in conns && Holds(conns[c].pc) && conns[c].agent == a
  }

  function CountedCalls(conns: Conns): set<nat> {
    set c | c in conns && Counted(conns[c].pc)
  }

  ghost predicate CountersExact(cfg: Config, conns: Conns, agentObjs: AgentObjs, gauge: int) {
    && (forall a :: a in agentObjs ==> agentObjs[a].active == |Holders(conns, a)| <= cfg.maxTunnels)
    && gauge == |CountedCalls(conns)|
  }

  // ---- Notification ----

  predicate Live(agentObjs: AgentObjs, a: nat) {
    a in agentObjs && !agentObjs[a].done
  }

  predicate Uncancelled(sessionObjs: SessionObjs, c: nat) {
    c in sessionObjs && !sessionObjs[c].cancelled
  }

  /** No orphans: a listed, notified call whose session is not cancelled has a live agent. */
  predicate ConnNotified(agentObjs: AgentObjs, sessionObjs: SessionObjs, c: nat, k: Conn) {
    && (PastNotify(k.pc) ==> k.notified)
    && (BeforeNotify(k.pc) ==> !k.notified)
    && (k.notified ==> c in sessionObjs)
    && (InMap(k.pc) && k.notified && Uncancelled(sessionObjs, c) ==> Live(agentObjs, k.agent))
  }

  ghost predicate NoOrphans(conns: Conns, agentObjs: AgentObjs, sessionObjs: SessionObjs) {
    forall c :: c in conns ==> ConnNotified(agentObjs, sessionObjs, c, conns[c])
  }

  /**
   The notifications an agent's loop took, in order, each from a different call that reserved this
   agent; all of them were sent except possibly the last.
   */
  ghost predicate RegRouting(conns: Conns, r: nat, g: Reg) {
    && (forall i :: 0 <= i < |g.taken| ==>
      g.taken[i] in conns && conns[g.taken[i]].notified && conns[g.taken[i]].agent == r)
    && (forall i, j :: 0 <= i < j < |g.taken| ==> g.taken[i] != g.taken[j])
    && |g.sent| <= |g.taken| <= |g.sent| + 1
    && (g.pc.RegLoop? ==> |g.sent| == |g.taken|)
    && (g.pc.RegSending? ==> |g.taken| == |g.sent| + 1 && g.pc.note == Note(conns[g.taken[|g.sent|]]))
    && (forall i :: 0 <= i < |g.sent| ==> g.sent[i] == Note(conns[g.taken[i]]))
  }

  ghost predicate Routing(conns: Conns, regs: Regs) {
    && (forall r :: r in regs ==> RegRouting(conns, r, regs[r]))
    && (forall c :: c in conns && conns[c].notified ==> conns[c].agent in regs && c in regs[conns[c].agent].taken)
  }

  ghost predicate Inv(cfg: Config, s: State) {
    && Objects(s.conns, s.sh.agentObjs, s.sh.sessionObjs)
    && SessionsExact(s.conns, s.sh.sessions)
    && AgentsExact(cfg, s.regs, s.sh.agents, s.sh.agentObjs, s.sh.agentGauge)
    && CountersExact(cfg, s.conns, s.sh.agentObjs, s.sh.tunnelGauge)
    && NoOrphans(s.conns, s.sh.agentObjs, s.sh.sessionObjs)
    && Routing(s.conns, s.regs)
  }

  // ---- A step that changes one Connect record and nothing shared ----

  /** What a local step never changes about a call. */
  predicate SameRole(k: Conn, l: Conn) {
    && (Holds(k.pc) <==> Holds(l.pc)) && (Counted(k.pc) <==> Counted(l.pc)) && (InMap(k.pc) <==> InMap(l.pc))
    && k.agent == l.agent && k.sid == l.sid && k.notified == l.notified
  }

  /** How far a local step can move a call. */
  predicate LocalMove(k: Conn, l: Conn) {
    && SameRole(k, l)
    && k.recvd <= l.recvd
    && (l.pc.RecvOpen? ==> k.pc.RecvOpen? && l.recvd == k.recvd)
    && (l.pc.Reserving? ==> k.pc.Reserving? || (|k.recvd| == 0 && |l.recvd| > 0 && ValidOpen(l.recvd[0])))
    && (HasSession(l.pc) ==> HasSession(k.pc))
    && (BeforeSession(l.pc) ==> BeforeSession(k.pc))
    && (PastNotify(l.pc) ==> PastNotify(k.pc))
    && (BeforeNotify(l.pc) ==> BeforeNotify(k.pc))
    && (BeforeForwarding(l.pc) ==> BeforeForwarding(k.pc) && l.port == k.port)
    && (k.notified ==> k.clientHello == l.clientHello)
  }

  /** Facts about a call that bound where a local step can take it. */
  predicate ConnSane(k: Conn) {
    && (k.pc.RecvOpen? ==> k.recvd == [])
    && (BeforeForwarding(k.pc) ==> k.port == NEW_PORT)
    && (BeforeNotify(k.pc) ==> !k.notified)
  }

  lemma ConnRecvMove(k: Conn, f: ConnectRequest)
    requires ConnSane(k)
    ensures ConnRecv(k, f).Some? ==> LocalMove(k, ConnRecv(k, f).value)
  {
  }

  lemma ConnSendMove(k: Conn, o: SessionState)
    requires ConnSane(k)
    ensures ConnSendOk(k, o).Some? ==> LocalMove(k, ConnSendOk(k, o).value)
    ensures ConnSendError(k).Some? ==> LocalMove(k, ConnSendError(k).value)
  {
  }

  lemma ConnPumpMove(k: Conn, f: ConnectRequest)
    requires ConnSane(k)
    ensures ConnPump(k, f).Some? ==> LocalMove(k, ConnPump(k, f).value)
  {
  }

  lemma ConnLocalMove(k: Conn, o: SessionState, agentDone: bool, ev: ConnEvent)
    requires ConnSane(k) && ConnLocal(k, o, agentDone, ev).Some?
    ensures LocalMove(k, ConnLocal(k, o, agentDone, ev).value)
  {
    hide ConnRecv, ConnSendOk, ConnSendError, ConnPump;
    match ev
    case RecvFrame(f) => ConnRecvMove(k, f);
    case SendOk => ConnSendMove(k, o);
    case SendError => ConnSendMove(k, o);
    case PumpFrame(f) => ConnPumpMove(k, f);
    case _ =>
  }

  // ---- One Connect record changes ----

  /** The object conditions survive a change of call `c` and of the agent objects' other fields. */
  lemma ObjectsUpdate(conns: Conns, agentObjs: AgentObjs, sessionObjs: SessionObjs, c: nat, l: Conn,
    agentObjs': AgentObjs)
    requires Objects(conns, agentObjs, sessionObjs) && c in conns
    requires forall a :: a in agentObjs ==> a in agentObjs' && agentObjs'[a].route == agentObjs[a].route
    requires conns[c].sid == l.sid && conns[c].recvd <= l.recvd
    requires conns[c].agent == l.agent || c !in sessionObjs
    requires ConnObjects(agentObjs', sessionObjs, c, l)
    ensures Objects(conns[c := l], agentObjs', sessionObjs)
  {
    forall d | d in conns && d != c ensures ConnObjects(agentObjs', sessionObjs, d, conns[d]) {
      assert ConnObjects(agentObjs, sessionObjs, d, conns[d]);
    }
    forall d | d in sessionObjs ensures SessionObject(conns[c := l], agentObjs', d, sessionObjs[d]) {
      assert SessionObject(conns, agentObjs, d, sessionObjs[d]);
    }
  }

  /** They also survive any change of the session objects that keeps their identity. */
  lemma ObjectsRelabel(conns: Conns, agentObjs: AgentObjs, sessionObjs: SessionObjs, agentObjs': AgentObjs,
    sessionObjs': SessionObjs)
    requires Objects(conns, agentObjs, sessionObjs)
    requires forall a :: a in agentObjs ==> a in agentObjs' && agentObjs'[a].route == agentObjs[a].route
    requires sessionObjs.Keys == sessionObjs'.Keys
    requires forall c ::
      c in sessionObjs ==> sessionObjs'[c].sid == sessionObjs[c].sid && sessionObjs'[c].agent == sessionObjs[c].agent
    ensures Objects(conns, agentObjs', sessionObjs')
  {
    forall d | d in conns ensures ConnObjects(agentObjs', sessionObjs', d, conns[d]) {
      assert ConnObjects(agentObjs, sessionObjs, d, conns[d]);
    }
    forall d | d in sessionObjs' ensures SessionObject(conns, agentObjs', d, sessionObjs'[d]) {
      assert SessionObject(conns, agentObjs, d, sessionObjs[d]);
    }
  }

  /** Two sets that agree except possibly about `c`. */
  lemma CardinalityAfter(before: set<nat>, after: set<nat>, c: nat)
    requires before - {c} == after - {c}
    ensures |after| == |before|
      + (if c in after && c !in before then 1 else if c in before && c !in after then -1 else 0)
  {
    assert c in after ==> after == (after - {c}) + {c};
    assert c in before ==> before == (before - {c}) + {c};
    assert c !in after ==> after == after - {c};
    assert c !in before ==> before == before - {c};
  }

  lemma HoldersAfter(conns: Conns, c: nat, l: Conn, a: nat)
    requires c in conns
    ensures var was := Holds(conns[c].pc) && conns[c].agent == a;
            var now := Holds(l.pc) && l.agent == a;
            |Holders(conns[c := l], a)|
              == |Holders(conns, a)| + (if now && !was then 1 else if was && !now then -1 else 0)
  {
    hide Holds;
    CardinalityAfter(Holders(conns, a), Holders(conns[c := l], a), c);
  }

  lemma CountedAfter(conns: Conns, c: nat, l: Conn)
    requires c in conns
    ensures var was := Counted(conns[c].pc); var now := Counted(l.pc);
            |CountedCalls(conns[c := l])|
              == |CountedCalls(conns)| + (if now && !was then 1 else if was && !now then -1 else 0)
  {
    hide Counted;
    CardinalityAfter(CountedCalls(conns), CountedCalls(conns[c := l]), c);
  }

  lemma CountersMove(cfg: Config, conns: Conns, agentObjs: AgentObjs, gauge: int, c: nat, l: Conn)
    requires CountersExact(cfg, conns, agentObjs, gauge) && c in conns && SameRole(conns[c], l)
    ensures CountersExact(cfg, conns[c := l], agentObjs, gauge)
  {
    forall a ensures |Holders(conns[c := l], a)| == |Holders(conns, a)| { HoldersAfter(conns, c, l, a); }
    CountedAfter(conns, c, l);
  }

  lemma OrphansUpdate(conns: Conns, agentObjs: AgentObjs, sessionObjs: SessionObjs, c: nat, l: Conn,
    agentObjs': AgentObjs)
    requires NoOrphans(conns, agentObjs, sessionObjs) && c in conns
    requires forall a :: Live(agentObjs, a) ==> Live(agentObjs', a)
    requires ConnNotified(agentObjs', sessionObjs, c, l)
    ensures NoOrphans(conns[c := l], agentObjs', sessionObjs)
  {
    forall d | d in conns && d != c ensures ConnNotified(agentObjs', sessionObjs, d, conns[d]) {
      assert ConnNotified(agentObjs, sessionObjs, d, conns[d]);
    }
  }

  lemma RoutingUpdate(conns: Conns, regs: Regs, c: nat, l: Conn)
    requires Routing(conns, regs) && c in conns && l.notified == conns[c].notified
    requires conns[c].notified ==> conns[c].agent == l.agent && Note(l) == Note(conns[c])
    ensures Routing(conns[c := l], regs)
  {
    forall r | r in regs ensures RegRouting(conns[c := l], r, regs[r]) {
      assert RegRouting(conns, r, regs[r]);
    }
  }

  lemma SessionsUpdate(conns: Conns, sessions: map<Bytes, nat>, c: nat, l: Conn)
    requires SessionsExact(conns, sessions) && c in conns
    requires InMap(l.pc) <==> InMap(conns[c].pc)
    requires InMap(l.pc) ==> l.sid == conns[c].sid
    ensures SessionsExact(conns[c := l], sessions)
  {
  }

  lemma MoveKeepsInv(cfg: Config, s: State, c: nat, l: Conn)
    requires Inv(cfg, s) && c in s.conns && LocalMove(s.conns[c], l)
    ensures Inv(cfg, s.(conns := s.conns[c := l]))
  {
    hide AgentsExact, CountersExact, SessionsExact, Routing;
    var k := s.conns[c];
    assert ConnObjects(s.sh.agentObjs, s.sh.sessionObjs, c, k) && ConnNotified(s.sh.agentObjs, s.sh.sessionObjs, c, k);
    ObjectsUpdate(s.conns, s.sh.agentObjs, s.sh.sessionObjs, c, l, s.sh.agentObjs);
    SessionsUpdate(s.conns, s.sh.sessions, c, l);
    CountersMove(cfg, s.conns, s.sh.agentObjs, s.sh.tunnelGauge, c, l);
    OrphansUpdate(s.conns, s.sh.agentObjs, s.sh.sessionObjs, c, l, s.sh.agentObjs);
    RoutingUpdate(s.conns, s.regs, c, l);
  }

  lemma StepConnMove(s: State, c: nat, ev: ConnEvent)
    requires Objects(s.conns, s.sh.agentObjs, s.sh.sessionObjs) && NoOrphans(s.conns, s.sh.agentObjs, s.sh.sessionObjs)
    requires StepConn(s, c, ev).Some?
    ensures var t := StepConn(s, c, ev).value;
      && c in s.conns && c in t.conns && LocalMove(s.conns[c], t.conns[c])
      && t == s.(conns := s.conns[c := t.conns[c]])
  {
    hide LocalMove, ConnLocal;
    assert ConnObjects(s.sh.agentObjs, s.sh.sessionObjs, c, s.conns[c])
      && ConnNotified(s.sh.agentObjs, s.sh.sessionObjs, c, s.conns[c]);
    ConnLocalMove(s.conns[c], SessionOf(s, c), AgentDone(s, s.conns[c].agent), ev);
  }

  lemma StepConnInv(cfg: Config, s: State, c: nat, ev: ConnEvent)
    requires Inv(cfg, s) && StepConn(s, c, ev).Some?
    ensures Inv(cfg, StepConn(s, c, ev).value)
  {
    hide StepConn, Objects, NoOrphans, Routing, SessionsExact, AgentsExact, CountersExact, LocalMove;
    StepConnMove(s, c, ev);
    MoveKeepsInv(cfg, s, c, StepConn(s, c, ev).value.conns[c]);
  }
}
