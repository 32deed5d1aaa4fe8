/** The main results about client, relay and agent together. */
module TunnelsTheorems {
  import opened Base
  import opened Messages
  import opened RelayShared
  import opened RelayHandlers
  import opened Broker
  import opened BrokerInvariants
  import opened BrokerTheorems
  import opened BrokerFlow
  import opened BrokerFlowSafety
  import opened BrokerFlowTheorems
  import opened Noise
  import opened Tunnels
  import opened TunnelsSafety

  lemma NetReachableInv(cfg: Config, codec: Codec, n: Net)
    requires NetReachable(cfg, codec, n) && Lossless(codec)
    ensures NetInv(cfg, codec, n)
  {
    hide NetInv, RunNet, Lossless;
    var moves :| RunNet(cfg, codec, moves) == Some(n);
    NetRunOk(cfg, codec, moves);
  }

  /**
   The three programs respect the session protocol among themselves: no client and no relay handler
   ever takes an invalid-frame branch, and an agent tunnel fails only on the handshake.
   */
  lemma SessionProtocolRespected(cfg: Config, codec: Codec, n: Net)
    requires NetReachable(cfg, codec, n) && Lossless(codec)
    ensures forall c :: c in n.clients ==> !n.clients[c].pc.ClientFailed?
    ensures forall x :: x in n.tunnels && n.tunnels[x].pc.TunnelFailed? ==> n.tunnels[x].pc.fault == HandshakeFailed
    ensures forall c :: c in n.relay.conns ==> !ConnTroubled(n.relay.conns[c])
    ensures forall x :: x in n.relay.accs ==> !AccTroubled(n.relay.accs[x])
    ensures forall r :: r in n.relay.regs ==> !RegTroubled(n.relay.regs[r])
  {
    NetReachableInv(cfg, codec, n);
    hide NetReachable, Reachable, Lossless, ConnTroubled, AccTroubled, RegTroubled, Response;
    forall x | x in n.tunnels ensures TunnelOk(codec, n, x, n.tunnels[x]) {}
  }

  /**
   Each tunnel serves one client that asked for this agent's route. Answering that client's hello works
   exactly if the keys agree: a tunnel that has answered shares its key, one that has failed does not.
   */
  lemma ReplyIff(cfg: Config, codec: Codec, n: Net, x: nat)
    requires NetReachable(cfg, codec, n) && Lossless(codec) && x in n.tunnels
    ensures exists c :: c in n.clients && ServesClient(codec, n, x, c)
  {
    NetReachableInv(cfg, codec, n);
    hide NetReachable, Reachable, Lossless;
    var tu := n.tunnels[x];
    assert TunnelOk(codec, n, x, tu);
    assert AgentOk(n.agents[tu.reg], n.relay.regs[tu.reg]);
    hide TunnelsOk, AgentsOk;
    NotificationsFollowRoutes(cfg, n.relay, tu.reg, tu.index);
    var c := n.relay.regs[tu.reg].taken[tu.index];
    NotifiedHello(cfg, n.relay, tu.reg, tu.index);
    Served(codec, n, x, c);
  }

  ghost predicate ServesClient(codec: Codec, n: Net, x: nat, c: nat)
    requires x in n.tunnels && c in n.clients
  {
    var tu, cl := n.tunnels[x], n.clients[c];
    && c in n.relay.conns && tu.note == Note(n.relay.conns[c])
    && tu.reg in n.agents && n.agents[tu.reg].route == cl.route
    && (Response(codec, x, n.agents[tu.reg], tu.note).Some? <==> cl.psk == n.agents[tu.reg].psk)
    && (tu.reply.Some? ==> cl.psk == n.agents[tu.reg].psk)
    && (tu.pc.TunnelFailed? ==> cl.psk != n.agents[tu.reg].psk)
  }

  lemma NotifiedHello(cfg: Config, s: State, r: nat, i: nat)
    requires Reachable(cfg, s) && r in s.regs && i < |s.regs[r].taken|
    ensures var c := s.regs[r].taken[i];
      c in s.conns && |s.conns[c].recvd| >= 2 && s.conns[c].recvd[1] == ClientHandshake(s.conns[c].clientHello)
  {
    hide Reachable, Inv, FlowInv, ConnFlow, ConnOutput;
    ReachableFlow(cfg, s);
    NoteOwner(cfg, s, r, i);
    ConnOkFacts(cfg, s, s.regs[r].taken[i]);
  }

  lemma Served(codec: Codec, n: Net, x: nat, c: nat)
    requires ClientsOk(codec, n) && Lossless(codec) && x in n.tunnels && c in n.relay.conns
    requires n.tunnels[x].note == Note(n.relay.conns[c])
    requires |n.relay.conns[c].recvd| >= 2 && n.relay.conns[c].recvd[1] == ClientHandshake(n.relay.conns[c].clientHello)
    requires n.tunnels[x].reg in n.agents && TunnelReplied(codec, x, n.tunnels[x], n.agents[n.tunnels[x].reg])
    requires n.relay.conns[c].recvd[0] == ClientOpen(PROTOCOL_VERSION, n.agents[n.tunnels[x].reg].route)
    ensures c in n.clients && ServesClient(codec, n, x, c)
  {
    hide ConnTroubled, ClientAt;
    var cl, k, ag := n.clients[c], n.relay.conns[c], n.agents[n.tunnels[x].reg];
    assert ClientOk(codec, c, cl, k);
    assert cl.sent[0] == k.recvd[0] && cl.sent[1] == k.recvd[1];
    assert codec.decode(k.clientHello) == ClientHandshakeOf(c, cl, k).0;
    RespondAcceptsIff(cl.psk, cl.route, k.sid, c, ag.psk, ag.route, k.sid, x);
  }

  /** A client that runs its bridge has an agent tunnel at the other end with complementary keys. */
  lemma BridgesPaired(cfg: Config, codec: Codec, n: Net, c: nat)
    requires NetReachable(cfg, codec, n) && Lossless(codec) && c in n.clients && n.clients[c].pc.Bridging?
    ensures c in n.relay.conns && |n.relay.conns[c].acceptors| > 0
    ensures var x := n.relay.conns[c].acceptors[0];
      && x in n.tunnels && n.tunnels[x].reply.Some?
      && var far := n.tunnels[x].reply.value.1;
      n.clients[c].pc.crypt == Transport(far.recv, far.send)
  {
    NetReachableInv(cfg, codec, n);
    hide NetReachable, Reachable, Lossless, ConnTroubled, Finish, TunnelsOk, AgentsOk;
    assert ClientOk(codec, c, n.clients[c], n.relay.conns[c]);
    FinishWorks(cfg, codec, n, c);
  }

  // ---- One agent tunnel per session ----

  /** The session an `Accept` call is attached to is the one its tunnel was notified of. */
  lemma AttachedNote(cfg: Config, codec: Codec, n: Net, x: nat, c: nat)
    requires NetInv(cfg, codec, n) && x in n.relay.accs && n.relay.accs[x].session == Some(c)
    ensures c in n.relay.conns && x in n.tunnels && n.tunnels[x].reg in n.relay.regs
    ensures n.tunnels[x].index < |n.relay.regs[n.tunnels[x].reg].taken|
    ensures n.relay.regs[n.tunnels[x].reg].taken[n.tunnels[x].index] == c && n.relay.conns[c].agent == n.tunnels[x].reg
  {
    hide Reachable, Inv, FlowInv, ClientsOk, AgentsOk, AccTroubled;
    ReachableFlow(cfg, n.relay);
    AttachedFrame(cfg, n.relay, x);
    var tu := n.tunnels[x];
    assert TunnelOk(codec, n, x, tu);
    NoteIsFrom(cfg, n.relay, tu.reg, tu.index, c);
  }

  lemma AttachedFrame(cfg: Config, s: State, x: nat)
    requires Inv(cfg, s) && FlowInv(s) && x in s.accs && s.accs[x].session.Some?
    ensures var c := s.accs[x].session.value;
      && c in s.conns && c in s.sh.sessionObjs
      && |s.accs[x].recvd| > 0 && s.accs[x].recvd[0].AgentAccept?
      && s.accs[x].recvd[0].sessionId == s.sh.sessionObjs[c].sid
  {
    hide AccFlow, ConnFlow, ConnInput, ConnOutput, Flow, Frames, SessionsExact, CountersExact, AgentsExact, Routing,
      NoOrphans, ConnObjects;
    var c := s.accs[x].session.value;
    assert AccAttached(s.conns, x, s.accs[x]);
    assert ConnAcceptors(s.accs, s.sh.sessionObjs, c, s.conns[c]);
    assert SessionObject(s.conns, s.sh.agentObjs, c, s.sh.sessionObjs[c]);
  }

  /** Honest agents attach at most one `Accept` call to a session. */
  lemma OneAcceptPerSession(cfg: Config, codec: Codec, n: Net, x: nat, y: nat)
    requires NetReachable(cfg, codec, n) && Lossless(codec)
    requires x in n.relay.accs && y in n.relay.accs && n.relay.accs[x].session.Some?
    requires n.relay.accs[x].session == n.relay.accs[y].session
    ensures x == y
  {
    NetReachableInv(cfg, codec, n);
    hide NetReachable, Reachable, Lossless, ClientsOk, AgentsOk, TunnelOk;
    var c := n.relay.accs[x].session.value;
    AttachedNote(cfg, codec, n, x, c);
    AttachedNote(cfg, codec, n, y, c);
    TakenOnce(cfg, n.relay, n.relay.conns[c].agent, n.tunnels[x].index, n.tunnels[y].index);
  }

  lemma TakenOnce(cfg: Config, s: State, r: nat, i: nat, j: nat)
    requires Reachable(cfg, s) && r in s.regs && i < |s.regs[r].taken| && j < |s.regs[r].taken|
    requires s.regs[r].taken[i] == s.regs[r].taken[j]
    ensures i == j
  {
    hide Reachable, SessionsExact, CountersExact, AgentsExact, NoOrphans, Objects;
    ReachableInv(cfg, s);
    assert RegRouting(s.conns, r, s.regs[r]);
  }

  // ---- Payloads end to end ----

  function Somes(xs: seq<Option<Bytes>>): seq<Bytes> {
    if xs == [] then [] else
    var last := xs[|xs| - 1];
    Somes(xs[..|xs| - 1]) + (if last.Some? then [last.value] else [])
  }

  function ClientPayload(f: ConnectRequest): Option<Bytes> {
    if f.ClientCiphertext? then Some(f.payload) else None
  }

  function AgentPayload(f: AcceptRequest): Option<Bytes> {
    if f.AgentCiphertext? then Some(f.payload) else None
  }

  /** The ciphertexts a client has sent, in order. */
  function ClientPayloads(sent: seq<ConnectRequest>): seq<Bytes> {
    Somes(seq(|sent|, i requires 0 <= i < |sent| => ClientPayload(sent[i])))
  }

  /** The ciphertexts an agent tunnel has sent, in order. */
  function AgentPayloads(sent: seq<AcceptRequest>): seq<Bytes> {
    Somes(seq(|sent|, i requires 0 <= i < |sent| => AgentPayload(sent[i])))
  }

  lemma {:induction false} SomesNone(xs: seq<Option<Bytes>>)
    requires forall i :: 0 <= i < |xs| ==> xs[i].None?
    ensures Somes(xs) == []
  {
    if xs != [] { SomesNone(xs[..|xs| - 1]); }
  }

  /** Payloads that follow `skip` other frames come out in order. */
  lemma {:induction false} SomesFrom(xs: seq<Option<Bytes>>, skip: nat, got: seq<Bytes>)
    requires skip + |got| <= |xs|
    requires forall i :: 0 <= i < skip ==> xs[i].None?
    requires forall i :: skip <= i < skip + |got| ==> xs[i] == Some(got[i - skip])
    ensures got <= Somes(xs)
    ensures |xs| == skip + |got| ==> got == Somes(xs)
  {
    var n := |xs| - 1;
    if |xs| > skip + |got| {
      SomesFrom(xs[..n], skip, got);
    } else if got == [] {
      SomesNone(xs);
    } else {
      SomesFrom(xs[..n], skip, got[..|got| - 1]);
    }
  }

  /** What the client's pump got is a prefix of the ciphertexts the client sent. */
  lemma ClientPumped(cfg: Config, codec: Codec, n: Net, c: nat)
    requires NetInv(cfg, codec, n) && c in n.relay.conns
    ensures c in n.clients && n.relay.conns[c].port.got <= ClientPayloads(n.clients[c].sent)
  {
    hide Reachable, Inv, FlowInv, TunnelsOk, AgentsOk, ConnOutput, ConnInput, ConnFlow, ConnSane, ClientAt,
      ConnTroubled, ClientPayloads;
    ReachableFlow(cfg, n.relay);
    ConnOkFacts(cfg, n.relay, c);
    assert ClientOk(codec, c, n.clients[c], n.relay.conns[c]);
    ClientFrames(n.relay.conns[c], n.clients[c].sent, ByConn(n.relay.toAgent, c), ByConn(n.relay.toClient, c));
  }

  lemma ClientFrames(k: Conn, sent: seq<ConnectRequest>, ta: seq<Bytes>, tc: seq<Bytes>)
    requires ConnInput(k) && k.recvd <= sent && ConnFlow(k, ta, tc)
    requires |sent| > 0 && !sent[0].ClientCiphertext? && (|sent| > 1 ==> !sent[1].ClientCiphertext?)
    ensures k.port.got <= ClientPayloads(sent)
  {
    hide Somes, Delivered;
    if !k.port.pump.Idle? {
      var got := k.port.got;
      var xs := seq(|sent|, i requires 0 <= i < |sent| => ClientPayload(sent[i]));
      forall i | 2 <= i < 2 + |got| ensures xs[i] == Some(got[i - 2]) {
        assert k.recvd[2 + (i - 2)] == ClientCiphertext(got[i - 2]);
      }
      SomesFrom(xs, 2, got);
    }
  }

  lemma AgentPumped(cfg: Config, codec: Codec, n: Net, x: nat)
    requires NetInv(cfg, codec, n) && x in n.relay.accs
    ensures x in n.tunnels && n.relay.accs[x].port.got <= AgentPayloads(n.tunnels[x].sent)
  {
    hide Reachable, Inv, FlowInv, ClientsOk, AgentsOk, AccTroubled, TunnelHeard, AccInput, AccFlow, AgentPayloads;
    ReachableFlow(cfg, n.relay);
    AccFacts(n.relay, x);
    assert TunnelOk(codec, n, x, n.tunnels[x]);
    AgentFrames(n.relay.accs[x], n.tunnels[x].sent, ByAcc(n.relay.toAgent, x), ByAcc(n.relay.toClient, x));
  }

  lemma AgentFrames(a: Acc, sent: seq<AcceptRequest>, ta: seq<Bytes>, tc: seq<Bytes>)
    requires AccInput(a) && a.recvd <= sent && AccFlow(a, ta, tc) && |sent| > 0 && !sent[0].AgentCiphertext?
    ensures a.port.got <= AgentPayloads(sent)
  {
    hide Somes;
    if !a.port.pump.Idle? {
      var got := a.port.got;
      var xs := seq(|sent|, i requires 0 <= i < |sent| => AgentPayload(sent[i]));
      forall i | 1 <= i < 1 + |got| ensures xs[i] == Some(got[i - 1]) {
        assert a.recvd[1 + (i - 1)] == AgentCiphertext(got[i - 1]);
      }
      SomesFrom(xs, 1, got);
    }
  }

  /**
   From client to agent and back the relay is a FIFO: what an agent's tunnel is sent is a prefix of the
   client's ciphertexts, and what the client is sent is a prefix of the tunnel's.
   */
  lemma TunnelIsFifo(cfg: Config, codec: Codec, n: Net, x: nat, c: nat)
    requires NetReachable(cfg, codec, n) && Lossless(codec) && x in n.relay.accs && n.relay.accs[x].session == Some(c)
    ensures c in n.clients && c in n.relay.conns && x in n.tunnels
    ensures n.relay.accs[x].sent <= ClientPayloads(n.clients[c].sent)
    ensures Delivered(n.relay.conns[c].sent) <= AgentPayloads(n.tunnels[x].sent)
  {
    hide NetReachable, Reachable, Lossless, NetInv, Delivered, ClientPayloads, AgentPayloads;
    NetReachableInv(cfg, codec, n);
    AttachedNote(cfg, codec, n, x, c);
    forall y | y in n.relay.accs && n.relay.accs[y].session == Some(c) ensures y == x {
      OneAcceptPerSession(cfg, codec, n, x, y);
    }
    InvReachable(cfg, codec, n);
    SingleAcceptIsFifo(cfg, n.relay, c, x);
    ClientPumped(cfg, codec, n, c);
    AgentPumped(cfg, codec, n, x);
  }

  lemma InvReachable(cfg: Config, codec: Codec, n: Net)
    requires NetInv(cfg, codec, n)
    ensures Reachable(cfg, n.relay)
  {
  }
}
