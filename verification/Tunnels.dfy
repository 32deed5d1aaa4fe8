/**
 The relay together with the programs it serves: any number of `handleClientTunnel` and
 `handleAgentTunnel` processes over the relay of `Broker`. Streams are reliable and ordered and may
 end at any time; each end may stop at any time. Pre-shared keys need not match.
 */
module Tunnels {
  import opened Base
  import opened Messages
  import opened RelayShared
  import opened Broker
  import opened Noise

  /** Hello messages as bytes on the wire. */
  datatype Codec = Codec(encode: Hello -> Bytes, decode: Bytes -> Hello)

  ghost predicate Lossless(codec: Codec) {
    forall h :: |codec.encode(h)| > 0 && codec.decode(codec.encode(h)) == h
  }

  /** The error branches of the two session programs, other than a stream that ends. */
  datatype Fault = InvalidSession | InvalidAgentHandshake | UnexpectedFrame | InvalidNotification | HandshakeFailed

  datatype ClientPc =
    | AwaitAssigned | GotSession(sid: Bytes) | AwaitAccept(hs: Handshake) | Bridging(crypt: Transport)
    | ClientFailed(fault: Fault) | ClientEnded

  /** A client tunnel: the frames it sent, and how many of the relay's frames it has received. */
  datatype Client = Client(psk: Bytes, route: Bytes, pc: ClientPc, sent: seq<ConnectRequest>, got: nat)

  datatype TunnelPc = Notified | Serving | TunnelFailed(fault: Fault) | TunnelEnded

  /** An agent tunnel: the notification it handles, by registration and position, its reply, the frames it sent. */
  datatype Tunnel = Tunnel(
    reg: nat, index: nat, note: Notification, pc: TunnelPc, reply: Option<(Hello, Transport)>, sent: seq<AcceptRequest>)

  /** One registration of an agent: its key and how many notifications it has received. */
  datatype Agent = Agent(psk: Bytes, route: Bytes, heard: nat)

  datatype Net = Net(relay: State, clients: map<nat, Client>, tunnels: map<nat, Tunnel>, agents: map<nat, Agent>)

  const EMPTY := Net(INITIAL, map[], map[], map[])

  datatype Move =
    | OpenClient(c: nat, route: Bytes, psk: Bytes) | ClientRecv(c: nat) | SendHello(c: nat)
    | ClientData(c: nat, payload: Bytes) | EndClient(c: nat)
    | Enrol(r: nat, route: Bytes, psk: Bytes) | Hear(r: nat, x: nat) | Reply(x: nat)
    | TunnelData(x: nat, payload: Bytes) | EndTunnel(x: nat)
    | RelayStep(act: Action)

  // ---- The client ----

  /** Open the stream and send the first frame. */
  function DoOpen(cfg: Config, n: Net, c: nat, route: Bytes, psk: Bytes): Option<Net> {
    if c in n.clients || |route| != ROUTE_ID_SIZE then None else
    var t := Step(cfg, n.relay, NewConnect(c));
    if t.None? then None else
    Some(n.(relay := t.value,
      clients := n.clients[c := Client(psk, route, AwaitAssigned, [ClientOpen(PROTOCOL_VERSION, route)], 0)]))
  }

  /** What the client does with the frame it just received. */
  function AfterFrame(codec: Codec, pc: ClientPc, f: ConnectResponse): ClientPc {
    match pc
    case AwaitAssigned =>
      if f.SessionAssigned? && |f.sessionId| == SESSION_ID_SIZE then GotSession(f.sessionId)
        else ClientFailed(InvalidSession)
    case AwaitAccept(hs) => (
      if !f.AgentAccepted? then ClientFailed(InvalidAgentHandshake) else
      var t := Finish(hs, codec.decode(f.agentHello));
      if t.Some? then Bridging(t.value) else ClientFailed(HandshakeFailed))
    case Bridging(_) => if f.ToClient? then pc else ClientFailed(UnexpectedFrame)
    case _ => pc
  }

  function DoClientRecv(codec: Codec, n: Net, c: nat): Option<Net> {
    if c !in n.clients || c !in n.relay.conns then None else
    var cl, k := n.clients[c], n.relay.conns[c];
    if cl.got >= |k.sent| || !(cl.pc.AwaitAssigned? || cl.pc.AwaitAccept? || cl.pc.Bridging?) then None else
    Some(n.(clients := n.clients[c := cl.(got := cl.got + 1, pc := AfterFrame(codec, cl.pc, k.sent[cl.got]))]))
  }

  function DoSendHello(codec: Codec, n: Net, c: nat): Option<Net> {
    if c !in n.clients || !n.clients[c].pc.GotSession? then None else
    var cl := n.clients[c];
    var (hello, hs) := StartInitiator(cl.psk, cl.route, cl.pc.sid, c);
    Some(n.(clients := n.clients[c := cl.(pc := AwaitAccept(hs),
      sent := cl.sent + [ClientHandshake(codec.encode(hello))])]))
  }

  function DoClientData(n: Net, c: nat, payload: Bytes): Option<Net> {
    if c !in n.clients || !n.clients[c].pc.Bridging? then None else
    Some(n.(clients := n.clients[c := n.clients[c].(sent := n.clients[c].sent + [ClientCiphertext(payload)])]))
  }

  // ---- The agent ----

  function DoEnrol(cfg: Config, n: Net, r: nat, route: Bytes, psk: Bytes): Option<Net> {
    if r in n.agents || |route| != ROUTE_ID_SIZE then None else
    var t := Step(cfg, n.relay, NewRegister(r, RegisterRequest(PROTOCOL_VERSION, route)));
    if t.None? then None else Some(n.(relay := t.value, agents := n.agents[r := Agent(psk, route, 0)]))
  }

  /** `registerOnce` receives a notification and starts a tunnel, which checks it. */
  function DoHear(n: Net, r: nat, x: nat): Option<Net> {
    if r !in n.agents || r !in n.relay.regs || x in n.tunnels then None else
    var i := n.agents[r].heard;
    if i >= |n.relay.regs[r].sent| then None else
    var note := n.relay.regs[r].sent[i];
    var pc := if note.version == PROTOCOL_VERSION && |note.sessionId| == SESSION_ID_SIZE then Notified
      else TunnelFailed(InvalidNotification);
    Some(n.(agents := n.agents[r := n.agents[r].(heard := i + 1)],
      tunnels := n.tunnels[x := Tunnel(r, i, note, pc, None, [])]))
  }

  function Response(codec: Codec, x: nat, ag: Agent, note: Notification): Option<(Hello, Transport)> {
    Respond(ag.psk, ag.route, note.sessionId, codec.decode(note.clientHello), x)
  }

  /** Answer the client's hello; if that works, open the `Accept` stream and send its first frame. */
  function DoReply(cfg: Config, codec: Codec, n: Net, x: nat): Option<Net> {
    if x !in n.tunnels || !n.tunnels[x].pc.Notified? || n.tunnels[x].reg !in n.agents then None else
    var tu := n.tunnels[x];
    var reply := Response(codec, x, n.agents[tu.reg], tu.note);
    if reply.None? then Some(n.(tunnels := n.tunnels[x := tu.(pc := TunnelFailed(HandshakeFailed))])) else
    var t := Step(cfg, n.relay, NewAccept(x));
    if t.None? then None else
    var first := AgentAccept(PROTOCOL_VERSION, tu.note.sessionId, codec.encode(reply.value.0));
    Some(n.(relay := t.value, tunnels := n.tunnels[x := tu.(pc := Serving, reply := reply, sent := [first])]))
  }

  function DoTunnelData(n: Net, x: nat, payload: Bytes): Option<Net> {
    if x !in n.tunnels || !n.tunnels[x].pc.Serving? then None else
    Some(n.(tunnels := n.tunnels[x := n.tunnels[x].(sent := n.tunnels[x].sent + [AgentCiphertext(payload)])]))
  }

  // ---- The relay ----

  /** The frame an action makes `Connect` call `c` receive. */
  function ConnFrame(act: Action, c: nat): Option<ConnectRequest> {
    if act.ConnStep? && act.c == c && act.cev.RecvFrame? then Some(act.cev.frame)
    else if act.ConnStep? && act.c == c && act.cev.PumpFrame? then Some(act.cev.frame)
    else None
  }

  function AcceptFrame(act: Action, x: nat): Option<AcceptRequest> {
    if act.AccStep? && act.x == x && act.aev.AccFrame? then Some(act.aev.frame)
    else if act.AccStep? && act.x == x && act.aev.AccPumpFrame? then Some(act.aev.frame)
    else None
  }

  /** Element `i` of a stream is the next to be received. */
  predicate IsNext<T(==)>(sent: seq<T>, i: nat, f: T) {
    i < |sent| && sent[i] == f
  }

  /** The relay receives from each stream what was sent on it, in order, and makes no calls of its own. */
  predicate Delivers(n: Net, act: Action) {
    match act
    case NewConnect(_) => false
    case NewAccept(_) => false
    case NewRegister(_, _) => false
    case ConnStep(c, _) =>
      var f := ConnFrame(act, c);
      f.Some? ==> c in n.clients && c in n.relay.conns && IsNext(n.clients[c].sent, |n.relay.conns[c].recvd|, f.value)
    case AccStep(x, _) =>
      var f := AcceptFrame(act, x);
      f.Some? ==> x in n.tunnels && x in n.relay.accs && IsNext(n.tunnels[x].sent, |n.relay.accs[x].recvd|, f.value)
    case _ => true
  }

  function DoRelay(cfg: Config, n: Net, act: Action): Option<Net> {
    if !Delivers(n, act) then None else
    var t := Step(cfg, n.relay, act);
    if t.None? then None else Some(n.(relay := t.value))
  }

  function Next(cfg: Config, codec: Codec, n: Net, m: Move): Option<Net> {
    match m
    case OpenClient(c, route, psk) => DoOpen(cfg, n, c, route, psk)
    case ClientRecv(c) => DoClientRecv(codec, n, c)
    case SendHello(c) => DoSendHello(codec, n, c)
    case ClientData(c, payload) => DoClientData(n, c, payload)
    case EndClient(c) =>
      if c !in n.clients then None else Some(n.(clients := n.clients[c := n.clients[c].(pc := ClientEnded)]))
    case Enrol(r, route, psk) => DoEnrol(cfg, n, r, route, psk)
    case Hear(r, x) => DoHear(n, r, x)
    case Reply(x) => DoReply(cfg, codec, n, x)
    case TunnelData(x, payload) => DoTunnelData(n, x, payload)
    case EndTunnel(x) =>
      if x !in n.tunnels then None else Some(n.(tunnels := n.tunnels[x := n.tunnels[x].(pc := TunnelEnded)]))
    case RelayStep(act) => DoRelay(cfg, n, act)
  }

  function RunNet(cfg: Config, codec: Codec, moves: seq<Move>): Option<Net> {
    if moves == [] then Some(EMPTY) else
    var t := RunNet(cfg, codec, moves[..|moves| - 1]);
    if t.None? then None else Next(cfg, codec, t.value, moves[|moves| - 1])
  }

  ghost predicate NetReachable(cfg: Config, codec: Codec, n: Net) {
    exists moves :: RunNet(cfg, codec, moves) == Some(n)
  }
}
