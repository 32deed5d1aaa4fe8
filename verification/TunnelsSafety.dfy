/** What client, relay and agent together keep, over every run. */
module TunnelsSafety {
  import opened Base
  import opened Messages
  import opened RelayShared
  import opened RelayHandlers
  import opened Broker
  import opened BrokerInvariants
  import opened BrokerSafety
  import opened BrokerTheorems
  import opened BrokerFlow
  import opened BrokerFlowSafety
  import opened BrokerFlowTheorems
  import opened Noise
  import opened Tunnels

  // ---- What a relay step does to one call ----

  predicate BadPump(p: Port) {
    p.pump == Reporting(BadFrame) || p.pump == Exited(BadFrame) || p.errCh == Some(BadFrame)
  }

  /** A `Connect` call that took an "invalid frame" branch. */
  predicate ConnTroubled(k: Conn) {
    BadPump(k.port) || (Unwinding(k.pc) && k.pc.code == InvalidArgument)
  }

  predicate AccTroubled(a: Acc) {
    BadPump(a.port) || (a.pc.AccCancelling? && a.pc.acode == InvalidArgument)
      || (a.pc.AccReturned? && a.pc.acode == InvalidArgument)
  }

  predicate RegTroubled(g: Reg) {
    g.pc == RegReturned(InvalidArgument) || g.pc == RegReturned(FailedPrecondition)
      || g.pc == RegCleanup(InvalidArgument) || g.pc == RegCleanup(FailedPrecondition)
  }

  /** The session protocol of a client: an open, a handshake, then ciphertexts. */
  predicate ClientInOrder(i: nat, f: ConnectRequest) {
    if i == 0 then ValidOpen(f) else if i == 1 then ValidHandshake(f) else f.ClientCiphertext?
  }

  predicate AgentInOrder(i: nat, f: AcceptRequest) {
    if i == 0 then ValidAccept(f) else f.AgentCiphertext?
  }

  /** What one step may do to a `Connect` record that receives `f` in it, if anything. */
  predicate ConnKept(k: Conn, l: Conn, f: Option<ConnectRequest>) {
    && k.sent <= l.sent
    && (k.sent != [] ==> l.sid == k.sid)
    && l.recvd == (if f.Some? then k.recvd + [f.value] else k.recvd)
    && (!ConnTroubled(k) && (f.Some? ==> ClientInOrder(|k.recvd|, f.value)) ==> !ConnTroubled(l))
  }

  predicate AccKept(a: Acc, b: Acc, f: Option<AcceptRequest>) {
    && b.recvd == (if f.Some? then a.recvd + [f.value] else a.recvd)
    && (!AccTroubled(a) && (f.Some? ==> AgentInOrder(|a.recvd|, f.value)) ==> !AccTroubled(b))
  }

  predicate RegKept(g: Reg, h: Reg) {
    && g.request == h.request && g.sent <= h.sent
    && (!RegTroubled(g) && g.request.version == PROTOCOL_VERSION && |g.request.routeId| == ROUTE_ID_SIZE ==>
      !RegTroubled(h))
  }

  lemma ConnFrameKept(k: Conn, f: ConnectRequest)
    requires ConnInput(k)
    ensures ConnRecv(k, f).Some? ==> ConnKept(k, ConnRecv(k, f).value, Some(f))
    ensures ConnPump(k, f).Some? ==> ConnKept(k, ConnPump(k, f).value, Some(f))
  {
  }

  lemma ConnLocalKept(k: Conn, o: SessionState, agentDone: bool, ev: ConnEvent)
    requires ConnLocal(k, o, agentDone, ev).Some? && !ev.RecvFrame? && !ev.PumpFrame?
    ensures ConnKept(k, ConnLocal(k, o, agentDone, ev).value, None)
  {
    hide ConnRecv, ConnPump;
  }

  predicate Unwinds(act: Action) {
    act.Delete? || act.CancelConn? || act.Release? || act.Uncount?
  }

  lemma ConnUnwindKept(cfg: Config, s: State, act: Action, c: nat)
    requires c in s.conns && Step(cfg, s, act).Some? && Unwinds(act)
    ensures c in Step(cfg, s, act).value.conns
    ensures ConnKept(s.conns[c], Step(cfg, s, act).value.conns[c], None)
  {
    hide ReleaseRegion, DeleteRegion, CancelSession, StepRegister, StepReg, StepCleanup, StepConn, StepReserve,
      StepCount, StepAllocate, StepInsert, StepNotify, StepAcc, StepAttach, StepCancelAcc, StepHandToAgent,
      StepHandToClient;
  }

  predicate Enters(act: Action) {
    act.Reserve? || act.Count? || act.Allocate? || act.Insert? || act.Notify?
  }

  lemma ConnEnterKept(cfg: Config, s: State, act: Action, c: nat)
    requires c in s.conns && Step(cfg, s, act).Some? && Enters(act)
    requires s.conns[c].pc.Allocating? ==> s.conns[c].sent == []
    ensures c in Step(cfg, s, act).value.conns
    ensures ConnKept(s.conns[c], Step(cfg, s, act).value.conns[c], None)
  {
    hide InsertRegion, FreshSid, ValidOpen, Note, StepRegister, StepReg, StepCleanup, StepConn, StepDelete,
      StepCancelConn, StepRelease, StepUncount, StepAcc, StepAttach, StepCancelAcc, StepHandToAgent, StepHandToClient;
  }

  /** Steps that are not local to call `c`. */
  lemma ConnSharedKept(cfg: Config, s: State, act: Action, c: nat)
    requires c in s.conns && Step(cfg, s, act).Some? && (act.ConnStep? ==> act.c != c)
    requires s.conns[c].pc.Allocating? ==> s.conns[c].sent == []
    ensures c in Step(cfg, s, act).value.conns
    ensures ConnKept(s.conns[c], Step(cfg, s, act).value.conns[c], None)
  {
    hide ConnLocal, AccLocal, RegLocal, RegisterRegion, CleanupRegion, AttachRegion, CancelSession, StepReserve,
      StepCount, StepAllocate, StepInsert, StepNotify, StepDelete, StepCancelConn, StepRelease, StepUncount;
    if Unwinds(act) {
      hide Step, ConnKept;
      ConnUnwindKept(cfg, s, act, c);
    } else if Enters(act) {
      hide Step, ConnKept;
      ConnEnterKept(cfg, s, act, c);
    }
  }

  lemma ConnStepKept(cfg: Config, s: State, act: Action, c: nat)
    requires Reachable(cfg, s) && c in s.conns && Step(cfg, s, act).Some?
    ensures c in Step(cfg, s, act).value.conns
    ensures ConnKept(s.conns[c], Step(cfg, s, act).value.conns[c], ConnFrame(act, c))
  {
    hide Reachable, ConnKept, Inv, FlowInv, ConnLocal, ConnFlow;
    ReachableFlow(cfg, s);
    ConnOkFacts(cfg, s, c);
    if act.ConnStep? && act.c == c {
      hide ConnInput, ConnOutput;
      StepConnKept(s, c, act.cev);
    } else {
      hide Step;
      ConnSharedKept(cfg, s, act, c);
    }
  }

  lemma StepConnKept(s: State, c: nat, ev: ConnEvent)
    requires c in s.conns && ConnInput(s.conns[c]) && StepConn(s, c, ev).Some?
    ensures c in StepConn(s, c, ev).value.conns
    ensures ConnKept(s.conns[c], StepConn(s, c, ev).value.conns[c], ConnFrame(ConnStep(c, ev), c))
  {
    hide ConnKept, ConnInput, ConnRecv, ConnPump, ConnSendOk, ConnSendError;
    if ev.RecvFrame? || ev.PumpFrame? {
      ConnFrameKept(s.conns[c], ev.frame);
    } else {
      ConnLocalKept(s.conns[c], SessionOf(s, c), AgentDone(s, s.conns[c].agent), ev);
    }
  }

  lemma AccLocalKept(a: Acc, ctxDone: bool, ev: AccEvent)
    requires AccInput(a) && AccLocal(a, ctxDone, ev).Some?
    ensures AccKept(a, AccLocal(a, ctxDone, ev).value,
      if ev.AccFrame? then Some(ev.frame) else if ev.AccPumpFrame? then Some(ev.frame) else None)
  {
  }

  lemma AccSharedKept(cfg: Config, s: State, act: Action, x: nat)
    requires x in s.accs && Step(cfg, s, act).Some? && (act.AccStep? ==> act.x != x)
    ensures x in Step(cfg, s, act).value.accs
    ensures AccKept(s.accs[x], Step(cfg, s, act).value.accs[x], None)
  {
    hide ConnLocal, AccLocal, RegLocal, RegisterRegion, CleanupRegion, ReserveRegion, AttachRegion, ReleaseRegion,
      InsertRegion, DeleteRegion, CancelSession, FreshSid, ValidOpen, Note;
  }

  lemma AccStepKept(cfg: Config, s: State, act: Action, x: nat)
    requires Reachable(cfg, s) && x in s.accs && Step(cfg, s, act).Some?
    ensures x in Step(cfg, s, act).value.accs
    ensures AccKept(s.accs[x], Step(cfg, s, act).value.accs[x], AcceptFrame(act, x))
  {
    hide Reachable, Inv, FlowInv, AccFlow;
    ReachableFlow(cfg, s);
    AccFacts(s, x);
    hide AccKept, AccInput, AccLocal;
    if act.AccStep? && act.x == x {
      AccLocalKept(s.accs[x], s.accs[x].session.Some? && SessionDone(s, s.accs[x].session.value), act.aev);
    } else {
      hide Step;
      AccSharedKept(cfg, s, act, x);
    }
  }

  lemma RegActionKept(cfg: Config, s: State, act: Action, r: nat)
    requires r in s.regs && Step(cfg, s, act).Some? && OfRegistration(act)
    ensures r in Step(cfg, s, act).value.regs
    ensures RegKept(s.regs[r], Step(cfg, s, act).value.regs[r])
  {
    hide CleanupRegion, Note, StepConn, StepReserve, StepCount, StepAllocate, StepInsert, StepDelete, StepCancelConn,
      StepRelease, StepUncount, StepAcc, StepAttach, StepCancelAcc, StepHandToAgent, StepHandToClient;
  }

  lemma RegStepKept(cfg: Config, s: State, act: Action, r: nat)
    requires r in s.regs && Step(cfg, s, act).Some?
    ensures r in Step(cfg, s, act).value.regs
    ensures RegKept(s.regs[r], Step(cfg, s, act).value.regs[r])
  {
    if act.NewRegister? {
    } else {
      hide Step;
      if OfRegistration(act) { RegActionKept(cfg, s, act, r); } else { OthersKeepRegs(cfg, s, act); }
    }
  }

  // ---- The invariant ----

  function ClientHandshakeOf(c: nat, cl: Client, k: Conn): (Hello, Handshake) {
    StartInitiator(cl.psk, cl.route, k.sid, c)
  }

  /** Where the client program is, against the frames it has sent and received. */
  predicate ClientAt(codec: Codec, c: nat, cl: Client, k: Conn) {
    match cl.pc
    case AwaitAssigned => |cl.sent| == 1 && cl.got == 0
    case GotSession(sid) => |cl.sent| == 1 && cl.got == 1 && sid == k.sid
    case AwaitAccept(hs) => |cl.sent| == 2 && cl.got == 1 && hs == ClientHandshakeOf(c, cl, k).1
    case Bridging(t) =>
      && |cl.sent| >= 2 && cl.got >= 2 && |k.sent| >= 2 && k.sent[1].AgentAccepted?
      && Finish(ClientHandshakeOf(c, cl, k).1, codec.decode(k.sent[1].agentHello)) == Some(t)
    case ClientFailed(_) => false
    case ClientEnded => true
  }

  /** One client and its `Connect` call: no frame is lost or out of order, and neither end is in trouble. */
  ghost predicate ClientOk(codec: Codec, c: nat, cl: Client, k: Conn) {
    && k.recvd <= cl.sent && cl.got <= |k.sent|
    && |cl.sent| >= 1 && cl.sent[0] == ClientOpen(PROTOCOL_VERSION, cl.route) && |cl.route| == ROUTE_ID_SIZE
    && (|cl.sent| >= 2 ==> |k.sent| >= 1 && cl.sent[1] == ClientHandshake(codec.encode(ClientHandshakeOf(c, cl, k).0)))
    && (forall i :: 2 <= i < |cl.sent| ==> cl.sent[i].ClientCiphertext?)
    && ClientAt(codec, c, cl, k)
    && !ConnTroubled(k)
  }

  predicate AgentOk(ag: Agent, g: Reg) {
    && g.request == RegisterRequest(PROTOCOL_VERSION, ag.route) && |ag.route| == ROUTE_ID_SIZE
    && ag.heard <= |g.sent| && !RegTroubled(g)
  }

  /** The notification a tunnel handles is the one its registration received at that position. */
  predicate TunnelHeard(tu: Tunnel, ag: Agent, g: Reg) {
    && tu.index < ag.heard <= |g.sent| && tu.note == g.sent[tu.index]
    && |tu.note.sessionId| == SESSION_ID_SIZE
  }

  ghost predicate TunnelReplied(codec: Codec, x: nat, tu: Tunnel, ag: Agent) {
    && (tu.pc.TunnelFailed? ==> tu.pc.fault == HandshakeFailed && Response(codec, x, ag, tu.note).None?)
    && (tu.pc.Notified? ==> tu.reply.None?) && (tu.pc.Serving? ==> tu.reply.Some?)
    && (if tu.reply.None? then tu.sent == [] else
          && Response(codec, x, ag, tu.note) == tu.reply
          && |tu.sent| >= 1
          && tu.sent[0] == AgentAccept(PROTOCOL_VERSION, tu.note.sessionId, codec.encode(tu.reply.value.0))
          && forall i :: 1 <= i < |tu.sent| ==> tu.sent[i].AgentCiphertext?)
  }

  predicate TunnelStream(tu: Tunnel, accs: Accs, x: nat) {
    && (x in accs <==> tu.reply.Some?)
    && (x in accs ==> accs[x].recvd <= tu.sent && !AccTroubled(accs[x]))
  }

  ghost predicate TunnelOk(codec: Codec, n: Net, x: nat, tu: Tunnel) {
    && tu.reg in n.agents && tu.reg in n.relay.regs
    && TunnelHeard(tu, n.agents[tu.reg], n.relay.regs[tu.reg])
    && TunnelReplied(codec, x, tu, n.agents[tu.reg])
    && TunnelStream(tu, n.relay.accs, x)
  }

  ghost predicate ClientsOk(codec: Codec, n: Net) {
    && (forall c :: c in n.clients <==> c in n.relay.conns)
    && (forall c :: c in n.clients ==> ClientOk(codec, c, n.clients[c], n.relay.conns[c]))
  }

  ghost predicate AgentsOk(n: Net) {
    && (forall r :: r in n.agents <==> r in n.relay.regs)
    && (forall r :: r in n.agents ==> AgentOk(n.agents[r], n.relay.regs[r]))
  }

  ghost predicate TunnelsOk(codec: Codec, n: Net) {
    && (forall x :: x in n.relay.accs ==> x in n.tunnels)
    && (forall x :: x in n.tunnels ==> TunnelOk(codec, n, x, n.tunnels[x]))
    && (forall x, y ::
          && x in n.tunnels && y in n.tunnels
          && n.tunnels[x].reg == n.tunnels[y].reg && n.tunnels[x].index == n.tunnels[y].index
          ==> x == y)
  }

  ghost predicate NetInv(cfg: Config, codec: Codec, n: Net) {
    Reachable(cfg, n.relay) && ClientsOk(codec, n) && AgentsOk(n) && TunnelsOk(codec, n)
  }

  // ---- Steps of the relay ----

  lemma RelayClient(codec: Codec, c: nat, cl: Client, k: Conn, l: Conn, f: Option<ConnectRequest>)
    requires ClientOk(codec, c, cl, k) && ConnKept(k, l, f) && Lossless(codec)
    requires f.Some? ==> IsNext(cl.sent, |k.recvd|, f.value)
    ensures ClientOk(codec, c, cl, l)
  {
    hide ConnTroubled;
    if f.Some? {
      assert ClientInOrder(|k.recvd|, f.value);
      assert k.recvd + [f.value] <= cl.sent;
    }
    assert k.sent != [] ==> ClientHandshakeOf(c, cl, l) == ClientHandshakeOf(c, cl, k);
    assert |k.sent| >= 2 ==> l.sent[1] == k.sent[1];
  }

  lemma RelayTunnel(codec: Codec, tu: Tunnel, ag: Agent, accs: Accs, accs': Accs, x: nat, f: Option<AcceptRequest>)
    requires TunnelStream(tu, accs, x) && TunnelReplied(codec, x, tu, ag) && |tu.note.sessionId| == SESSION_ID_SIZE
    requires Lossless(codec)
    requires x in accs <==> x in accs'
    requires x in accs ==> AccKept(accs[x], accs'[x], f) && (f.Some? ==> IsNext(tu.sent, |accs[x].recvd|, f.value))
    ensures TunnelStream(tu, accs', x)
  {
    hide AccTroubled;
    if x in accs && f.Some? {
      assert AgentInOrder(|accs[x].recvd|, f.value);
      assert accs[x].recvd + [f.value] <= tu.sent;
    }
  }

  /** Which calls exist changes only when a call is made. */
  lemma SameCalls(cfg: Config, s: State, act: Action)
    requires Step(cfg, s, act).Some?
    ensures var t := Step(cfg, s, act).value;
      && (!act.NewConnect? ==> t.conns.Keys == s.conns.Keys)
      && (!act.NewAccept? ==> t.accs.Keys == s.accs.Keys)
      && (!act.NewRegister? ==> t.regs.Keys == s.regs.Keys)
  {
    hide ConnLocal, AccLocal, RegLocal, RegisterRegion, CleanupRegion, ReserveRegion, AttachRegion, ReleaseRegion,
      InsertRegion, DeleteRegion, CancelSession, FreshSid, ValidOpen, Note;
  }

  lemma RelayClientStep(cfg: Config, codec: Codec, n: Net, act: Action, c: nat)
    requires NetInv(cfg, codec, n) && Lossless(codec) && Step(cfg, n.relay, act).Some? && c in n.clients
    requires ConnFrame(act, c).Some? ==> IsNext(n.clients[c].sent, |n.relay.conns[c].recvd|, ConnFrame(act, c).value)
    ensures var t := Step(cfg, n.relay, act).value; c in t.conns && ClientOk(codec, c, n.clients[c], t.conns[c])
  {
    hide Reachable, Step, ClientOk, ConnKept, TunnelsOk, AgentsOk, ConnFrame, IsNext, Lossless;
    ConnStepKept(cfg, n.relay, act, c);
    RelayClient(codec, c, n.clients[c], n.relay.conns[c], Step(cfg, n.relay, act).value.conns[c], ConnFrame(act, c));
  }

  lemma RelayAgentStep(cfg: Config, codec: Codec, n: Net, act: Action, r: nat)
    requires NetInv(cfg, codec, n) && Step(cfg, n.relay, act).Some? && r in n.agents
    ensures var t := Step(cfg, n.relay, act).value;
      r in t.regs && AgentOk(n.agents[r], t.regs[r]) && n.relay.regs[r].sent <= t.regs[r].sent
  {
    hide Reachable, Step, TunnelsOk, ClientsOk;
    RegStepKept(cfg, n.relay, act, r);
  }

  lemma RelayTunnelStep(cfg: Config, codec: Codec, n: Net, act: Action, x: nat)
    requires NetInv(cfg, codec, n) && Lossless(codec) && Step(cfg, n.relay, act).Some? && x in n.tunnels
    requires act != NewAccept(x)
    requires AcceptFrame(act, x).Some? ==>
      x in n.relay.accs && IsNext(n.tunnels[x].sent, |n.relay.accs[x].recvd|, AcceptFrame(act, x).value)
    ensures TunnelOk(codec, n.(relay := Step(cfg, n.relay, act).value), x, n.tunnels[x])
  {
    hide Reachable, Step, AccKept, TunnelReplied, TunnelStream, ClientsOk, AgentOk, AcceptFrame, IsNext, Lossless;
    var tu := n.tunnels[x];
    var t := Step(cfg, n.relay, act).value;
    RelayAgentStep(cfg, codec, n, act, tu.reg);
    SameAcc(cfg, n.relay, act, x);
    if x in n.relay.accs { AccStepKept(cfg, n.relay, act, x); }
    RelayTunnel(codec, tu, n.agents[tu.reg], n.relay.accs, t.accs, x, AcceptFrame(act, x));
  }

  lemma SameAcc(cfg: Config, s: State, act: Action, x: nat)
    requires Step(cfg, s, act).Some? && act != NewAccept(x)
    ensures x in s.accs <==> x in Step(cfg, s, act).value.accs
  {
    if act.NewAccept? {
    } else {
      hide Step;
      SameCalls(cfg, s, act);
    }
  }

  lemma RelayFrames(n: Net, act: Action, c: nat, x: nat)
    requires Delivers(n, act)
    ensures c in n.clients && c in n.relay.conns && ConnFrame(act, c).Some? ==>
      IsNext(n.clients[c].sent, |n.relay.conns[c].recvd|, ConnFrame(act, c).value)
    ensures x in n.tunnels && AcceptFrame(act, x).Some? ==>
      x in n.relay.accs && IsNext(n.tunnels[x].sent, |n.relay.accs[x].recvd|, AcceptFrame(act, x).value)
    ensures act != NewAccept(x) && !act.NewConnect? && !act.NewAccept? && !act.NewRegister?
  {
    hide IsNext;
  }

  lemma RelayOk(cfg: Config, codec: Codec, n: Net, act: Action)
    requires NetInv(cfg, codec, n) && Lossless(codec) && DoRelay(cfg, n, act).Some?
    ensures NetInv(cfg, codec, DoRelay(cfg, n, act).value)
  {
    hide Reachable, Step, TunnelOk, ClientOk, AgentOk, Lossless, IsNext, Delivers, ConnFrame, AcceptFrame;
    var t := Step(cfg, n.relay, act).value;
    ReachableStep(cfg, n.relay, act);
    RelayFrames(n, act, 0, 0);
    SameCalls(cfg, n.relay, act);
    forall c | c in n.clients ensures c in t.conns && ClientOk(codec, c, n.clients[c], t.conns[c]) {
      RelayFrames(n, act, c, 0);
      RelayClientStep(cfg, codec, n, act, c);
    }
    forall r | r in n.agents ensures r in t.regs && AgentOk(n.agents[r], t.regs[r]) {
      RelayAgentStep(cfg, codec, n, act, r);
    }
    forall x | x in n.tunnels ensures TunnelOk(codec, n.(relay := t), x, n.tunnels[x]) {
      RelayFrames(n, act, 0, x);
      RelayTunnelStep(cfg, codec, n, act, x);
    }
  }

  // ---- Steps of the client ----

  lemma NewClientOk(codec: Codec, c: nat, route: Bytes, psk: Bytes)
    requires |route| == ROUTE_ID_SIZE
    ensures ClientOk(codec, c, Client(psk, route, AwaitAssigned, [ClientOpen(PROTOCOL_VERSION, route)], 0), NEW_CONN)
  {
  }

  lemma NewCalls(cfg: Config, s: State, c: nat, x: nat, r: nat, request: RegisterRequest)
    ensures c !in s.conns ==> Step(cfg, s, NewConnect(c)) == Some(s.(conns := s.conns[c := NEW_CONN]))
    ensures c in s.conns ==> Step(cfg, s, NewConnect(c)).None?
    ensures x !in s.accs ==> Step(cfg, s, NewAccept(x)) == Some(s.(accs := s.accs[x := NEW_ACC]))
    ensures x in s.accs ==> Step(cfg, s, NewAccept(x)).None?
    ensures r !in s.regs ==>
      Step(cfg, s, NewRegister(r, request)) == Some(s.(regs := s.regs[r := Reg(request, RegStart, false, [], [])]))
    ensures r in s.regs ==> Step(cfg, s, NewRegister(r, request)).None?
  {
  }

  lemma OpenOk(cfg: Config, codec: Codec, n: Net, c: nat, route: Bytes, psk: Bytes)
    requires NetInv(cfg, codec, n) && DoOpen(cfg, n, c, route, psk).Some?
    ensures NetInv(cfg, codec, DoOpen(cfg, n, c, route, psk).value)
  {
    hide Reachable, Step, ClientOk, AgentOk, TunnelHeard, TunnelReplied, TunnelStream;
    NewCalls(cfg, n.relay, c, 0, 0, RegisterRequest(0, []));
    NewClientOk(codec, c, route, psk);
    ReachableStep(cfg, n.relay, NewConnect(c));
    var m := DoOpen(cfg, n, c, route, psk).value;
    forall x | x in m.tunnels ensures TunnelOk(codec, m, x, m.tunnels[x]) {
      assert TunnelOk(codec, n, x, n.tunnels[x]);
    }
  }

  /** Replacing one client record. */
  lemma ClientReplaced(cfg: Config, codec: Codec, n: Net, c: nat, cl: Client)
    requires NetInv(cfg, codec, n) && c in n.clients && ClientOk(codec, c, cl, n.relay.conns[c])
    ensures NetInv(cfg, codec, n.(clients := n.clients[c := cl]))
  {
    hide Reachable, ClientOk, AgentOk, TunnelHeard, TunnelReplied, TunnelStream;
    var m := n.(clients := n.clients[c := cl]);
    forall x | x in m.tunnels ensures TunnelOk(codec, m, x, m.tunnels[x]) {
      assert TunnelOk(codec, n, x, n.tunnels[x]);
    }
  }

  /** The client's side of what the relay sends it. */
  lemma ClientRecvOk(codec: Codec, c: nat, cl: Client, k: Conn, o: SessionState)
    requires ClientOk(codec, c, cl, k) && ConnOutput(k, o) && cl.got < |k.sent|
    requires cl.pc.AwaitAssigned? || cl.pc.AwaitAccept? || cl.pc.Bridging?
    requires |k.sent| >= 2 ==>
      k.sent[1].AgentAccepted? && Finish(ClientHandshakeOf(c, cl, k).1, codec.decode(k.sent[1].agentHello)).Some?
    ensures ClientOk(codec, c, cl.(got := cl.got + 1, pc := AfterFrame(codec, cl.pc, k.sent[cl.got])), k)
  {
    hide ConnTroubled, Finish;
  }

  lemma SendHelloOk(codec: Codec, c: nat, cl: Client, k: Conn)
    requires ClientOk(codec, c, cl, k) && cl.pc.GotSession?
    ensures var (hello, hs) := StartInitiator(cl.psk, cl.route, cl.pc.sid, c);
      ClientOk(codec, c, cl.(pc := AwaitAccept(hs), sent := cl.sent + [ClientHandshake(codec.encode(hello))]), k)
  {
    hide ConnTroubled, Finish;
  }

  lemma ClientDataOk(codec: Codec, c: nat, cl: Client, k: Conn, payload: Bytes)
    requires ClientOk(codec, c, cl, k) && cl.pc.Bridging?
    ensures ClientOk(codec, c, cl.(sent := cl.sent + [ClientCiphertext(payload)]), k)
  {
    hide ConnTroubled, Finish;
  }

  // ---- The first acceptance reaches the client it was made for ----

  /** A notification names the session and hello of exactly one `Connect` call. */
  lemma NoteIsFrom(cfg: Config, s: State, r: nat, i: nat, c: nat)
    requires Inv(cfg, s) && r in s.regs && i < |s.regs[r].sent| && c in s.sh.sessionObjs
    requires s.regs[r].sent[i].sessionId == s.sh.sessionObjs[c].sid
    ensures i < |s.regs[r].taken| && s.regs[r].taken[i] == c && c in s.conns && s.conns[c].agent == r
    ensures s.conns[c].notified
    ensures s.regs[r].sent[i] == Note(s.conns[c])
  {
    hide CountersExact, SessionsExact, AgentsExact, ConnObjects;
    assert RegRouting(s.conns, r, s.regs[r]);
    var d := s.regs[r].taken[i];
    assert d in s.conns && s.conns[d].notified;
    assert ConnNotified(s.sh.agentObjs, s.sh.sessionObjs, d, s.conns[d]);
    assert SessionObject(s.conns, s.sh.agentObjs, d, s.sh.sessionObjs[d]);
  }

  /** What the client is sent as acceptance is the reply some tunnel made to this client's own hello. */
  lemma AcceptedBy(cfg: Config, codec: Codec, n: Net, c: nat)
    requires NetInv(cfg, codec, n) && c in n.relay.conns && |n.relay.conns[c].sent| >= 2
    ensures var k := n.relay.conns[c]; |k.acceptors| > 0 && k.acceptors[0] in n.tunnels
    ensures var k := n.relay.conns[c]; var tu := n.tunnels[k.acceptors[0]];
      && tu.reply.Some? && tu.reg == k.agent && tu.note == Note(k) && k.agent in n.agents
      && k.sent[1] == AgentAccepted(PROTOCOL_VERSION, k.sid, codec.encode(tu.reply.value.0))
      && Response(codec, k.acceptors[0], n.agents[k.agent], tu.note) == tu.reply
  {
    hide Reachable, Inv, FlowInv, ClientsOk, AgentsOk, TunnelReplied, AccTroubled;
    var k := n.relay.conns[c];
    FirstAcceptWins(cfg, n.relay, c);
    ReachableFlow(cfg, n.relay);
    AcceptedSession(cfg, n.relay, c);
    var x := k.acceptors[0];
    assert TunnelOk(codec, n, x, n.tunnels[x]);
    FirstFrame(codec, x, n.tunnels[x], n.agents[n.tunnels[x].reg]);
    NoteIsFrom(cfg, n.relay, n.tunnels[x].reg, n.tunnels[x].index, c);
  }

  lemma AcceptedSession(cfg: Config, s: State, c: nat)
    requires Inv(cfg, s) && FlowInv(s) && c in s.conns && |s.conns[c].sent| >= 2
    ensures c in s.sh.sessionObjs && s.sh.sessionObjs[c].sid == s.conns[c].sid
  {
    hide FlowInv, Inv, ConnFlow, ConnInput;
    ConnOkFacts(cfg, s, c);
    ConnFacts(cfg, s, c);
  }

  lemma FirstFrame(codec: Codec, x: nat, tu: Tunnel, ag: Agent)
    requires TunnelReplied(codec, x, tu, ag) && tu.reply.Some?
    ensures |tu.sent| >= 1
    ensures tu.sent[0] == AgentAccept(PROTOCOL_VERSION, tu.note.sessionId, codec.encode(tu.reply.value.0))
    ensures Response(codec, x, ag, tu.note) == tu.reply
  {
  }

  /** The handshake of a client whose acceptance came back completes, with keys that fit the tunnel's. */
  lemma FinishWorks(cfg: Config, codec: Codec, n: Net, c: nat)
    requires NetInv(cfg, codec, n) && Lossless(codec) && c in n.clients && |n.relay.conns[c].sent| >= 2
    ensures var k := n.relay.conns[c];
      && |k.acceptors| > 0 && k.acceptors[0] in n.tunnels && n.tunnels[k.acceptors[0]].reply.Some?
      && k.sent[1].AgentAccepted?
      && var far := n.tunnels[k.acceptors[0]].reply.value.1;
      Finish(ClientHandshakeOf(c, n.clients[c], k).1, codec.decode(k.sent[1].agentHello))
        == Some(Transport(far.recv, far.send))
  {
    hide Reachable, AgentsOk, TunnelsOk;
    AcceptedBy(cfg, codec, n, c);
    HelloReceived(cfg, n.relay, c);
    var cl, k := n.clients[c], n.relay.conns[c];
    assert ClientOk(codec, c, cl, k);
    assert codec.decode(k.clientHello) == ClientHandshakeOf(c, cl, k).0;
  }

  lemma HelloReceived(cfg: Config, s: State, c: nat)
    requires Reachable(cfg, s) && c in s.conns && |s.conns[c].sent| >= 2
    ensures |s.conns[c].recvd| >= 2 && s.conns[c].recvd[1] == ClientHandshake(s.conns[c].clientHello)
  {
    hide Reachable, FlowInv, Inv, ConnFlow;
    ReachableFlow(cfg, s);
    ConnOkFacts(cfg, s, c);
  }

  lemma ClientMoveOk(cfg: Config, codec: Codec, n: Net, m: Move)
    requires NetInv(cfg, codec, n) && Lossless(codec) && Next(cfg, codec, n, m).Some?
    requires m.ClientRecv? || m.SendHello? || m.ClientData? || m.EndClient?
    ensures NetInv(cfg, codec, Next(cfg, codec, n, m).value)
  {
    hide Reachable, AgentsOk, TunnelsOk, ClientOk, Finish, AfterFrame;
    var c := m.c;
    var cl, k := n.clients[c], n.relay.conns[c];
    assert ClientOk(codec, c, cl, k);
    match m
    case ClientRecv(_) =>
      ClientReceives(cfg, codec, n, c);
      ClientReplaced(cfg, codec, n, c, Next(cfg, codec, n, m).value.clients[c]);
    case SendHello(_) =>
      SendHelloOk(codec, c, cl, k);
      ClientReplaced(cfg, codec, n, c, Next(cfg, codec, n, m).value.clients[c]);
    case ClientData(_, payload) =>
      ClientDataOk(codec, c, cl, k, payload);
      ClientReplaced(cfg, codec, n, c, Next(cfg, codec, n, m).value.clients[c]);
    case EndClient(_) =>
      EndClientOk(codec, c, cl, k);
      ClientReplaced(cfg, codec, n, c, Next(cfg, codec, n, m).value.clients[c]);
  }

  lemma EndClientOk(codec: Codec, c: nat, cl: Client, k: Conn)
    requires ClientOk(codec, c, cl, k)
    ensures ClientOk(codec, c, cl.(pc := ClientEnded), k)
  {
  }

  lemma ClientReceives(cfg: Config, codec: Codec, n: Net, c: nat)
    requires NetInv(cfg, codec, n) && Lossless(codec) && DoClientRecv(codec, n, c).Some?
    ensures ClientOk(codec, c, DoClientRecv(codec, n, c).value.clients[c], n.relay.conns[c])
  {
    hide Reachable, AgentsOk, TunnelsOk, ClientOk, AfterFrame, Finish, Inv, FlowInv, ConnInput, ConnFlow, ConnOutput;
    ReachableFlow(cfg, n.relay);
    ConnOkFacts(cfg, n.relay, c);
    if |n.relay.conns[c].sent| >= 2 { FinishWorks(cfg, codec, n, c); }
    ClientRecvOk(codec, c, n.clients[c], n.relay.conns[c], SessionOf(n.relay, c));
  }

  // ---- Steps of the agent ----

  lemma EnrolOk(cfg: Config, codec: Codec, n: Net, r: nat, route: Bytes, psk: Bytes)
    requires NetInv(cfg, codec, n) && DoEnrol(cfg, n, r, route, psk).Some?
    ensures NetInv(cfg, codec, DoEnrol(cfg, n, r, route, psk).value)
  {
    hide Reachable, Step, ClientOk, TunnelHeard, TunnelReplied, TunnelStream;
    var request := RegisterRequest(PROTOCOL_VERSION, route);
    NewCalls(cfg, n.relay, 0, 0, r, request);
    ReachableStep(cfg, n.relay, NewRegister(r, request));
    var m := DoEnrol(cfg, n, r, route, psk).value;
    forall x | x in m.tunnels ensures TunnelOk(codec, m, x, m.tunnels[x]) {
      assert TunnelOk(codec, n, x, n.tunnels[x]);
    }
  }

  /** Replacing one tunnel record that keeps its notification. */
  lemma TunnelReplaced(cfg: Config, codec: Codec, n: Net, x: nat, tu: Tunnel)
    requires NetInv(cfg, codec, n) && x in n.tunnels && TunnelOk(codec, n, x, tu)
    requires tu.reg == n.tunnels[x].reg && tu.index == n.tunnels[x].index
    ensures NetInv(cfg, codec, n.(tunnels := n.tunnels[x := tu]))
  {
    hide Reachable, ClientsOk, AgentsOk, TunnelHeard, TunnelReplied, TunnelStream;
    var m := n.(tunnels := n.tunnels[x := tu]);
    forall y | y in m.tunnels
      ensures TunnelOk(codec, m, y, m.tunnels[y]) { if y != x { assert TunnelOk(codec, n, y, n.tunnels[y]); } }
    SameClientsAgents(codec, n, m);
  }

  lemma SameClientsAgents(codec: Codec, n: Net, m: Net)
    requires ClientsOk(codec, n) && m.clients == n.clients && m.relay.conns == n.relay.conns
    ensures ClientsOk(codec, m)
    ensures AgentsOk(n) && m.agents == n.agents && m.relay.regs == n.relay.regs ==> AgentsOk(m)
  {
    hide ClientOk, AgentOk;
  }

  /** Every notification names a 16-byte session. */
  lemma NoteValid(cfg: Config, s: State, r: nat, i: nat)
    requires Reachable(cfg, s) && r in s.regs && i < |s.regs[r].sent|
    ensures s.regs[r].sent[i].version == PROTOCOL_VERSION && |s.regs[r].sent[i].sessionId| == SESSION_ID_SIZE
  {
    hide Reachable, Inv;
    NotificationsFollowRoutes(cfg, s, r, i);
    ReachableInv(cfg, s);
    var c := s.regs[r].taken[i];
    NoteOwner(cfg, s, r, i);
    ConnFacts(cfg, s, c);
  }

  lemma NoteOwner(cfg: Config, s: State, r: nat, i: nat)
    requires Inv(cfg, s) && r in s.regs && i < |s.regs[r].taken|
    ensures s.regs[r].taken[i] in s.conns && s.conns[s.regs[r].taken[i]].notified
  {
    hide CountersExact, SessionsExact, AgentsExact, Objects, NoOrphans;
    assert RegRouting(s.conns, r, s.regs[r]);
  }

  lemma HearOk(cfg: Config, codec: Codec, n: Net, r: nat, x: nat)
    requires NetInv(cfg, codec, n) && DoHear(n, r, x).Some?
    ensures NetInv(cfg, codec, DoHear(n, r, x).value)
  {
    hide Reachable, ClientsOk;
    var m := DoHear(n, r, x).value;
    NoteValid(cfg, n.relay, r, n.agents[r].heard);
    forall y | y in m.tunnels ensures TunnelOk(codec, m, y, m.tunnels[y]) {
      if y != x { HeardMore(codec, n, y, r); }
    }
    hide TunnelOk;
    SameClientsAgents(codec, n, m);
    HearUnique(codec, n, r, x);
  }

  lemma HeardMore(codec: Codec, n: Net, y: nat, r: nat)
    requires TunnelsOk(codec, n) && AgentsOk(n) && y in n.tunnels && r in n.agents
    requires n.agents[r].heard < |n.relay.regs[r].sent|
    ensures var m := n.(agents := n.agents[r := n.agents[r].(heard := n.agents[r].heard + 1)]);
      TunnelOk(codec, m, y, n.tunnels[y])
  {
    hide AgentOk, TunnelStream;
    assert TunnelOk(codec, n, y, n.tunnels[y]);
  }

  lemma HearUnique(codec: Codec, n: Net, r: nat, x: nat)
    requires TunnelsOk(codec, n) && DoHear(n, r, x).Some?
    ensures var ts := DoHear(n, r, x).value.tunnels;
      forall y, z :: y in ts && z in ts && ts[y].reg == ts[z].reg && ts[y].index == ts[z].index ==> y == z
  {
    hide TunnelReplied, TunnelStream;
    forall y | y in n.tunnels ensures n.tunnels[y].reg != r || n.tunnels[y].index < n.agents[r].heard {
      assert TunnelOk(codec, n, y, n.tunnels[y]);
    }
  }

  lemma ReplyRecord(codec: Codec, n: Net, x: nat, reply: (Hello, Transport))
    requires TunnelsOk(codec, n) && x in n.tunnels && n.tunnels[x].pc.Notified?
    requires n.tunnels[x].reg in n.agents
    requires Response(codec, x, n.agents[n.tunnels[x].reg], n.tunnels[x].note) == Some(reply)
    ensures x !in n.relay.accs
    ensures var first := AgentAccept(PROTOCOL_VERSION, n.tunnels[x].note.sessionId, codec.encode(reply.0));
      var tu := n.tunnels[x].(pc := Serving, reply := Some(reply), sent := [first]);
      TunnelReplied(codec, x, tu, n.agents[tu.reg]) && TunnelStream(tu, n.relay.accs[x := NEW_ACC], x)
  {
    hide Respond;
    assert TunnelOk(codec, n, x, n.tunnels[x]);
  }

  lemma ReplyTunnels(codec: Codec, n: Net, x: nat, tu: Tunnel)
    requires TunnelsOk(codec, n) && x in n.tunnels && n.tunnels[x].reg in n.agents
    requires tu == n.tunnels[x].(pc := tu.pc, reply := tu.reply, sent := tu.sent)
    requires TunnelReplied(codec, x, tu, n.agents[tu.reg]) && TunnelStream(tu, n.relay.accs[x := NEW_ACC], x)
    ensures TunnelsOk(codec, n.(relay := n.relay.(accs := n.relay.accs[x := NEW_ACC]), tunnels := n.tunnels[x := tu]))
  {
    hide TunnelReplied, AccTroubled;
    var m := n.(relay := n.relay.(accs := n.relay.accs[x := NEW_ACC]), tunnels := n.tunnels[x := tu]);
    assert TunnelOk(codec, m, x, tu) by { assert TunnelOk(codec, n, x, n.tunnels[x]); }
    forall y | y in n.tunnels && y != x ensures TunnelOk(codec, m, y, n.tunnels[y]) {
      hide TunnelHeard;
      assert TunnelOk(codec, n, y, n.tunnels[y]);
    }
    hide TunnelOk;
  }

  lemma ReplyOk(cfg: Config, codec: Codec, n: Net, x: nat)
    requires NetInv(cfg, codec, n) && DoReply(cfg, codec, n, x).Some?
    ensures NetInv(cfg, codec, DoReply(cfg, codec, n, x).value)
  {
    hide Reachable, ClientsOk, AgentsOk, Step, Response, TunnelsOk, TunnelReplied, TunnelStream, TunnelHeard;
    var tu := n.tunnels[x];
    var reply := Response(codec, x, n.agents[tu.reg], tu.note);
    var m := DoReply(cfg, codec, n, x).value;
    if reply.None? {
      RefusedRecord(codec, n, x);
      TunnelReplaced(cfg, codec, n, x, m.tunnels[x]);
    } else {
      NewCalls(cfg, n.relay, 0, x, 0, RegisterRequest(0, []));
      ReplyRecord(codec, n, x, reply.value);
      ReplyTunnels(codec, n, x, m.tunnels[x]);
      ReachableStep(cfg, n.relay, NewAccept(x));
      SameClientsAgents(codec, n, m);
    }
  }

  lemma RefusedRecord(codec: Codec, n: Net, x: nat)
    requires TunnelsOk(codec, n) && x in n.tunnels && n.tunnels[x].pc.Notified?
    requires n.tunnels[x].reg in n.agents && Response(codec, x, n.agents[n.tunnels[x].reg], n.tunnels[x].note).None?
    ensures TunnelOk(codec, n, x, n.tunnels[x].(pc := TunnelFailed(HandshakeFailed)))
  {
    hide Respond;
    assert TunnelOk(codec, n, x, n.tunnels[x]);
  }

  lemma TunnelMoveRecord(codec: Codec, n: Net, x: nat, payload: Bytes)
    requires TunnelsOk(codec, n) && x in n.tunnels
    ensures TunnelOk(codec, n, x, n.tunnels[x].(pc := TunnelEnded))
    ensures n.tunnels[x].pc.Serving? ==>
      TunnelOk(codec, n, x, n.tunnels[x].(sent := n.tunnels[x].sent + [AgentCiphertext(payload)]))
  {
    hide Response;
    assert TunnelOk(codec, n, x, n.tunnels[x]);
  }

  lemma TunnelMoveOk(cfg: Config, codec: Codec, n: Net, m: Move)
    requires NetInv(cfg, codec, n) && Next(cfg, codec, n, m).Some? && (m.TunnelData? || m.EndTunnel?)
    ensures NetInv(cfg, codec, Next(cfg, codec, n, m).value)
  {
    hide Reachable, ClientsOk, AgentsOk, TunnelsOk, TunnelOk;
    TunnelMoveRecord(codec, n, m.x, if m.TunnelData? then m.payload else []);
    TunnelReplaced(cfg, codec, n, m.x, Next(cfg, codec, n, m).value.tunnels[m.x]);
  }

  // ---- All moves, all runs ----

  lemma NextOk(cfg: Config, codec: Codec, n: Net, m: Move)
    requires NetInv(cfg, codec, n) && Lossless(codec) && Next(cfg, codec, n, m).Some?
    ensures NetInv(cfg, codec, Next(cfg, codec, n, m).value)
  {
    hide NetInv, Lossless, DoOpen, DoEnrol, DoHear, DoReply, DoRelay;
    match m
    case OpenClient(c, route, psk) => OpenOk(cfg, codec, n, c, route, psk);
    case Enrol(r, route, psk) => EnrolOk(cfg, codec, n, r, route, psk);
    case Hear(r, x) => HearOk(cfg, codec, n, r, x);
    case Reply(x) => ReplyOk(cfg, codec, n, x);
    case RelayStep(act) => RelayOk(cfg, codec, n, act);
    case _ => if m.TunnelData? || m.EndTunnel? {
      TunnelMoveOk(cfg, codec, n, m);
    } else {
      ClientMoveOk(cfg, codec, n, m);
    }
  }

  lemma EmptyOk(cfg: Config, codec: Codec)
    ensures NetInv(cfg, codec, EMPTY)
  {
    assert Run(cfg, INITIAL, []) == Some(INITIAL);
  }

  lemma {:induction false} NetRunOk(cfg: Config, codec: Codec, moves: seq<Move>)
    requires Lossless(codec)
    ensures RunNet(cfg, codec, moves).Some? ==> NetInv(cfg, codec, RunNet(cfg, codec, moves).value)
  {
    hide NetInv, Next, Lossless;
    if moves == [] {
      EmptyOk(cfg, codec);
    } else {
      var most := moves[..|moves| - 1];
      NetRunOk(cfg, codec, most);
      var t := RunNet(cfg, codec, most);
      if t.Some? && Next(cfg, codec, t.value, moves[|moves| - 1]).Some? {
        NextOk(cfg, codec, t.value, moves[|moves| - 1]);
      }
    }
  }
}
