/** One run of the relay: a tunnel opened and a first payload on its way, the counter still behind. */
module BrokerExample {
  import opened Base
  import opened Messages
  import opened RelayShared
  import opened RelayHandlers
  import opened Broker
  import opened BrokerInvariants
  import opened BrokerTheorems
  import opened BrokerFlow
  import opened BrokerBytes
  import opened Sums
  import N = Noise
  import B = Bridge
  import P = Progress
  import Relayed

  const ROUTE: Bytes := [0, 0, 0, 0, 0, 0, 0, 0, 0, 0, 0, 0, 0, 0, 0, 0]
  const SID: Bytes := [1, 1, 1, 1, 1, 1, 1, 1, 1, 1, 1, 1, 1, 1, 1, 1]
  const HELLO: Bytes := [2]
  const PAYLOAD: Bytes := [7]
  const OPEN := ClientOpen(PROTOCOL_VERSION, ROUTE)
  const ACCEPT := AgentAccept(PROTOCOL_VERSION, SID, HELLO)

  /** The shared state from reservation on, up to what the tunnel changes. */
  function Sharing(active: int, gauge: int, sessions: map<Bytes, nat>, objs: SessionObjs): Shared {
    Shared(map[ROUTE := 0], sessions, map[0 := AgentState(ROUTE, active, false)], objs, 1, gauge)
  }

  function Example(sh: Shared, reg: RegPc, taken: seq<nat>, conns: Conns, accs: Accs, toAgent: seq<Hand>): State {
    State(sh, map[0 := Reg(RegisterRequest(PROTOCOL_VERSION, ROUTE), reg, false, taken, [])], conns, accs, toAgent, [],
      0, 0)
  }

  function Calling(pc: ConnPc, recvd: seq<ConnectRequest>, sent: seq<ConnectResponse>, sid: Bytes, hello: Bytes): Conn {
    Conn(pc, false, recvd, sent, 0, sid, hello, NEW_PORT, [], [], false)
  }

  lemma Same<K, V>(k: K, a: V, b: V)
    ensures map[k := a][k := b] == map[k := b]
  {
  }

  const REGISTERED := Example(Sharing(0, 0, map[], map[]), RegLoop, [], map[], map[], [])

  lemma RegisteredReachable(cfg: Config)
    requires cfg.maxAgents > 0
    ensures Reachable(cfg, REGISTERED)
  {
    hide Reachable, StepConn, StepAcc;
    var a := INITIAL.(regs := map[0 := Reg(RegisterRequest(PROTOCOL_VERSION, ROUTE), RegStart, false, [], [])]);
    assert Reachable(cfg, INITIAL) by { InitialReachable(cfg); }
    assert Step(cfg, INITIAL, NewRegister(0, RegisterRequest(PROTOCOL_VERSION, ROUTE))) == Some(a);
    ReachableStep(cfg, INITIAL, NewRegister(0, RegisterRequest(PROTOCOL_VERSION, ROUTE)));
    Same(0, a.regs[0], REGISTERED.regs[0]);
    assert Step(cfg, a, Register(0)) == Some(REGISTERED);
    ReachableStep(cfg, a, Register(0));
  }

  lemma InitialReachable(cfg: Config)
    ensures Reachable(cfg, INITIAL)
  {
    assert Run(cfg, INITIAL, []) == Some(INITIAL);
  }

  const ASSIGNED := SessionAssigned(SID)
  const FRESH := SessionState(SID, 0, false, false, [])
  const ALLOCATED := Example(Sharing(1, 1, map[], map[0 := FRESH]), RegLoop, [],
    map[0 := Calling(SendAssigned, [OPEN], [], SID, [])], map[], [])

  lemma AllocatedReachable(cfg: Config)
    requires cfg.maxAgents > 0 && cfg.maxTunnels > 0
    ensures Reachable(cfg, ALLOCATED)
  {
    hide Reachable, StepRegister, StepAcc;
    RegisteredReachable(cfg);
    var a := REGISTERED.(conns := map[0 := NEW_CONN]);
    assert Step(cfg, REGISTERED, NewConnect(0)) == Some(a);
    ReachableStep(cfg, REGISTERED, NewConnect(0));
    var b := REGISTERED.(conns := map[0 := Calling(Reserving, [OPEN], [], [], [])]);
    Same(0, a.conns[0], b.conns[0]);
    assert [] + [OPEN] == [OPEN];
    assert Step(cfg, a, ConnStep(0, RecvFrame(OPEN))) == Some(b);
    ReachableStep(cfg, a, ConnStep(0, RecvFrame(OPEN)));
    var d := Example(Sharing(1, 0, map[], map[]), RegLoop, [], map[0 := Calling(Counting, [OPEN], [], [], [])], map[],
      []);
    Same(0, b.conns[0], d.conns[0]);
    Same(0, b.sh.agentObjs[0], d.sh.agentObjs[0]);
    assert Step(cfg, b, Reserve(0)) == Some(d);
    ReachableStep(cfg, b, Reserve(0));
    var e := Example(Sharing(1, 1, map[], map[]), RegLoop, [], map[0 := Calling(Allocating, [OPEN], [], [], [])], map[],
      []);
    Same(0, d.conns[0], e.conns[0]);
    assert Step(cfg, d, Count(0)) == Some(e);
    ReachableStep(cfg, d, Count(0));
    Same(0, e.conns[0], ALLOCATED.conns[0]);
    assert Step(cfg, e, Allocate(0, SID)) == Some(ALLOCATED);
    ReachableStep(cfg, e, Allocate(0, SID));
  }

  const GREETED := [OPEN, ClientHandshake(HELLO)]
  const LISTED := Sharing(1, 1, map[SID := 0], map[0 := FRESH])
  const NOTED := Example(LISTED, RegSending(Notification(PROTOCOL_VERSION, SID, HELLO)), [0],
                         map[0 := Calling(AwaitReady, GREETED, [ASSIGNED], SID, HELLO).(notified := true)], map[], [])

  lemma NotedReachable(cfg: Config)
    requires cfg.maxAgents > 0 && cfg.maxTunnels > 0
    ensures Reachable(cfg, NOTED)
  {
    hide Reachable, StepRegister, StepAcc;
    AllocatedReachable(cfg);
    var a := ALLOCATED.(conns := map[0 := Calling(RecvHandshake, [OPEN], [ASSIGNED], SID, [])]);
    Same(0, ALLOCATED.conns[0], a.conns[0]);
    assert [] + [ASSIGNED] == [ASSIGNED];
    assert Step(cfg, ALLOCATED, ConnStep(0, SendOk)) == Some(a);
    ReachableStep(cfg, ALLOCATED, ConnStep(0, SendOk));
    var b := ALLOCATED.(conns := map[0 := Calling(Inserting, GREETED, [ASSIGNED], SID, HELLO)]);
    Same(0, a.conns[0], b.conns[0]);
    assert [OPEN] + [ClientHandshake(HELLO)] == GREETED;
    assert Step(cfg, a, ConnStep(0, RecvFrame(ClientHandshake(HELLO)))) == Some(b);
    ReachableStep(cfg, a, ConnStep(0, RecvFrame(ClientHandshake(HELLO))));
    var d := Example(LISTED, RegLoop, [], map[0 := Calling(Notifying, GREETED, [ASSIGNED], SID, HELLO)], map[], []);
    Same(0, b.conns[0], d.conns[0]);
    assert Step(cfg, b, Insert(0)) == Some(d);
    ReachableStep(cfg, b, Insert(0));
    Same(0, d.conns[0], NOTED.conns[0]);
    Same(0, d.regs[0], NOTED.regs[0]);
    assert [] + [0] == [0];
    assert Step(cfg, d, Notify(0)) == Some(NOTED);
    ReachableStep(cfg, d, Notify(0));
  }

  const JOINED := Sharing(1, 1, map[SID := 0], map[0 := FRESH.(ready := true, hello := HELLO)])
  const WAITING := NOTED.conns[0].(acceptors := [0])
  const SERVING := Acc(AccForwarding, [ACCEPT], [], Some(0), NEW_PORT.(pump := Receiving), [])
  const ATTACHED := NOTED.(sh := JOINED, conns := map[0 := WAITING], accs := map[0 := SERVING])

  lemma AttachedReachable(cfg: Config)
    requires cfg.maxAgents > 0 && cfg.maxTunnels > 0
    ensures Reachable(cfg, ATTACHED)
  {
    hide Reachable, StepRegister, StepConn;
    NotedReachable(cfg);
    var a := NOTED.(accs := map[0 := NEW_ACC]);
    assert Step(cfg, NOTED, NewAccept(0)) == Some(a);
    ReachableStep(cfg, NOTED, NewAccept(0));
    var b := NOTED.(accs := map[0 := NEW_ACC.(pc := Attaching(SID, HELLO), recvd := [ACCEPT])]);
    Same(0, a.accs[0], b.accs[0]);
    assert [] + [ACCEPT] == [ACCEPT];
    assert Step(cfg, a, AccStep(0, AccFrame(ACCEPT))) == Some(b);
    ReachableStep(cfg, a, AccStep(0, AccFrame(ACCEPT)));
    Same(0, b.accs[0], ATTACHED.accs[0]);
    Same(0, b.conns[0], ATTACHED.conns[0]);
    Same(0, FRESH, JOINED.sessionObjs[0]);
    assert [] + [0] == [0];
    assert Step(cfg, b, Attach(0)) == Some(ATTACHED);
    ReachableStep(cfg, b, Attach(0));
  }

  const ACCEPTED := [ASSIGNED, AgentAccepted(PROTOCOL_VERSION, SID, HELLO)]
  const PUMPING := WAITING.(pc := Forwarding, sent := ACCEPTED)

  /** The acceptance is sent and nothing has been forwarded. */
  const READY := ATTACHED.(conns := map[0 := PUMPING.(port := NEW_PORT.(pump := Receiving))])

  lemma ReadyReachable(cfg: Config)
    requires cfg.maxAgents > 0 && cfg.maxTunnels > 0
    ensures Reachable(cfg, READY)
  {
    hide Reachable, StepRegister;
    AttachedReachable(cfg);
    var a := ATTACHED.(conns := map[0 := WAITING.(pc := SendAccept)]);
    Same(0, ATTACHED.conns[0], a.conns[0]);
    assert Step(cfg, ATTACHED, ConnStep(0, ReadySeen)) == Some(a);
    ReachableStep(cfg, ATTACHED, ConnStep(0, ReadySeen));
    Same(0, a.conns[0], READY.conns[0]);
    assert [ASSIGNED] + [ACCEPTED[1]] == ACCEPTED;
    assert Step(cfg, a, ConnStep(0, SendOk)) == Some(READY);
    ReachableStep(cfg, a, ConnStep(0, SendOk));
  }

  /** The client's port after it received one payload. */
  function Loaded(pump: Pump): Conn {
    PUMPING.(recvd := GREETED + [ClientCiphertext(PAYLOAD)], port := Port(pump, None, [PAYLOAD], []))
  }

  const BEHIND := ATTACHED.(conns := map[0 := Loaded(Tallying(PAYLOAD))], accs := map[0 := SERVING.(sent := [PAYLOAD])],
                            toAgent := [Hand(0, 0, PAYLOAD)])

  lemma BehindReachable(cfg: Config)
    requires cfg.maxAgents > 0 && cfg.maxTunnels > 0
    ensures Reachable(cfg, BEHIND)
  {
    hide Reachable, StepRegister;
    ReadyReachable(cfg);
    var d := ATTACHED.(conns := map[0 := Loaded(Offering(PAYLOAD))]);
    Same(0, READY.conns[0], d.conns[0]);
    assert [] + [PAYLOAD] == [PAYLOAD];
    assert Step(cfg, READY, ConnStep(0, PumpFrame(ClientCiphertext(PAYLOAD)))) == Some(d);
    ReachableStep(cfg, READY, ConnStep(0, PumpFrame(ClientCiphertext(PAYLOAD))));
    Handing(cfg, d);
  }

  lemma Handing(cfg: Config, d: State)
    requires Reachable(cfg, d) && d == ATTACHED.(conns := map[0 := Loaded(Offering(PAYLOAD))])
    ensures Reachable(cfg, BEHIND)
  {
    hide Reachable, StepRegister, StepConn;
    var e := BEHIND.(accs := map[0 := SERVING.(pc := AccSending(PAYLOAD))]);
    Same(0, d.conns[0], e.conns[0]);
    Same(0, d.accs[0], e.accs[0]);
    assert [] + [Hand(0, 0, PAYLOAD)] == [Hand(0, 0, PAYLOAD)];
    assert Step(cfg, d, HandToAgent(0, 0)) == Some(e);
    ReachableStep(cfg, d, HandToAgent(0, 0));
    Same(0, e.accs[0], BEHIND.accs[0]);
    assert [] + [PAYLOAD] == [PAYLOAD];
    assert Step(cfg, e, AccStep(0, AccSendOk)) == Some(BEHIND);
    ReachableStep(cfg, e, AccStep(0, AccSendOk));
  }

  /** The counters are not always exact: here the agent has been sent a byte that is not counted. */
  lemma CounterCanLag(cfg: Config)
    requires cfg.maxAgents > 0 && cfg.maxTunnels > 0
    ensures Reachable(cfg, BEHIND) && BEHIND.accs[0].sent == [PAYLOAD]
    ensures BEHIND.bytesToAgent == 0 && Sum(TakenByAccs(BEHIND)) == 1
  {
    hide Reachable, TakenByAccs, TakenByConns, UncountedToClient, Sum;
    BehindReachable(cfg);
    CountersMatchHandovers(cfg, BEHIND);
    LengthOne(PAYLOAD);
    SumZero(map[]);
    assert UncountedToAgent(BEHIND) == map[0 := 1];
    SumUpdate(map[], 0, 1);
    assert map[][0 := 1] == map[0 := 1];
  }

  /** Two complementary transports. */
  const NEAR := N.Transport(N.CipherState(N.ToAgentKey([], [], 0, 0), 0), N.CipherState(N.ToClientKey([], [], 0, 0), 0))
  const FAR := N.Transport(NEAR.recv, NEAR.send)

  /** A fresh tunnel over the relay, as the theorems about relayed bridges start from. */
  lemma FreshTunnelExists(cfg: Config)
    requires cfg.maxAgents > 0 && cfg.maxTunnels > 0
    ensures Relayed.Fresh(cfg, Relayed.Ids(0, 0), Relayed.Tunnel(ATTACHED, B.NewEndpoint(NEAR), B.NewEndpoint(FAR)))
  {
    hide Reachable;
    AttachedReachable(cfg);
    var start := P.Pair(B.NewEndpoint(NEAR), B.NewEndpoint(FAR));
    assert P.Complementary(NEAR, FAR);
    assert P.Run(start, []) == Some(start);
    assert Relayed.Ahead(start.l, start.r);
  }
}
