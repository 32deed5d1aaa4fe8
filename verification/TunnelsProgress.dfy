/** Whatever else is under way, a client and a listening agent with room and the same key can be joined. */
module TunnelsProgress {
  import opened Base
  import opened Messages
  import opened RelayShared
  import opened RelayHandlers
  import opened Broker
  import opened BrokerInvariants
  import opened BrokerAdmission
  import opened Noise
  import opened Tunnels
  import opened TunnelsSafety
  import opened TunnelsTheorems

  /** What the programs do from net `n` on. */
  function RunFrom(cfg: Config, codec: Codec, n: Net, moves: seq<Move>): Option<Net> {
    if moves == [] then Some(n) else
    var t := RunFrom(cfg, codec, n, moves[..|moves| - 1]);
    if t.None? then None else Next(cfg, codec, t.value, moves[|moves| - 1])
  }

  lemma RunMore(cfg: Config, codec: Codec, n: Net, moves: seq<Move>, m: Move)
    requires RunFrom(cfg, codec, n, moves).Some?
    ensures RunFrom(cfg, codec, n, moves + [m]) == Next(cfg, codec, RunFrom(cfg, codec, n, moves).value, m)
  {
    hide Next;
    var all := moves + [m];
    assert all[..|all| - 1] == moves;
  }

  // ---- One client, one registration and one agent tunnel in a net ----

  datatype Ids = Ids(c: nat, r: nat, x: nat)

  datatype View = View(cl: Client, k: Conn, ag: Agent, g: Reg, tu: Option<Tunnel>, a: Option<Acc>)

  predicate Sees(n: Net, i: Ids, v: View) {
    && i.c in n.clients && n.clients[i.c] == v.cl && i.c in n.relay.conns && n.relay.conns[i.c] == v.k
    && i.r in n.agents && n.agents[i.r] == v.ag && i.r in n.relay.regs && n.relay.regs[i.r] == v.g
    && (if v.tu.Some? then i.x in n.tunnels && n.tunnels[i.x] == v.tu.value else i.x !in n.tunnels)
    && (if v.a.Some? then i.x in n.relay.accs && n.relay.accs[i.x] == v.a.value else i.x !in n.relay.accs)
  }

  predicate SeesSession(n: Net, i: Ids, o: SessionState) {
    i.c in n.relay.sh.sessionObjs && n.relay.sh.sessionObjs[i.c] == o
  }

  predicate SeesListed(n: Net, i: Ids, sid: Bytes) {
    sid in n.relay.sh.sessions && n.relay.sh.sessions[sid] == i.c
  }

  /** The net after a move that is enabled. */
  predicate Goes(cfg: Config, codec: Codec, n: Net, m: Move, t: Net) {
    Next(cfg, codec, n, m) == Some(t)
  }

  // ---- Moves ----

  /** The relay receives the next frame of the client. */
  lemma FrameMove(cfg: Config, codec: Codec, n: Net, i: Ids, v: View) returns (m: Move, t: Net)
    requires Sees(n, i, v) && |v.k.recvd| < |v.cl.sent| && ConnRecv(v.k, v.cl.sent[|v.k.recvd|]).Some?
    ensures Goes(cfg, codec, n, m, t) && t.relay.sh == n.relay.sh
    ensures Sees(t, i, v.(k := ConnRecv(v.k, v.cl.sent[|v.k.recvd|]).value))
  {
    hide ConnRecv;
    m := RelayStep(ConnStep(i.c, RecvFrame(v.cl.sent[|v.k.recvd|])));
    t := Next(cfg, codec, n, m).value;
  }

  /** A send of the relay to the client succeeds. */
  lemma SendMove(cfg: Config, codec: Codec, n: Net, i: Ids, v: View, o: SessionState) returns (m: Move, t: Net)
    requires Sees(n, i, v) && SeesSession(n, i, o) && ConnSendOk(v.k, o).Some?
    ensures Goes(cfg, codec, n, m, t) && t.relay.sh == n.relay.sh
    ensures Sees(t, i, v.(k := ConnSendOk(v.k, o).value))
  {
    hide ConnSendOk;
    m := RelayStep(ConnStep(i.c, SendOk));
    t := Next(cfg, codec, n, m).value;
  }

  lemma ReadyMove(cfg: Config, codec: Codec, n: Net, i: Ids, v: View, o: SessionState) returns (m: Move, t: Net)
    requires Sees(n, i, v) && SeesSession(n, i, o) && v.k.pc.AwaitReady? && o.ready
    ensures Goes(cfg, codec, n, m, t) && t.relay.sh == n.relay.sh
    ensures Sees(t, i, v.(k := v.k.(pc := SendAccept)))
  {
    m := RelayStep(ConnStep(i.c, ReadySeen));
    t := Next(cfg, codec, n, m).value;
  }

  /** Open, and hand the first frame to the relay. */
  lemma OpenMove(cfg: Config, codec: Codec, n: Net, i: Ids, route: Bytes, psk: Bytes) returns (m: Move, t: Net, v: View)
    requires NetReachable(cfg, codec, n) && Lossless(codec) && |route| == 16
    requires i.c !in n.clients && i.x !in n.tunnels && i.r in n.agents
    ensures Goes(cfg, codec, n, m, t) && t.relay.sh == n.relay.sh && Sees(t, i, v) && m == OpenClient(i.c, route, psk)
    ensures i.r in n.relay.regs && v.g == n.relay.regs[i.r] && v.ag == n.agents[i.r] && v.tu == None && v.a == None
    ensures v.cl == Client(psk, route, AwaitAssigned, [ClientOpen(1, route)], 0) && v.k == NEW_CONN
  {
    NetReachableInv(cfg, codec, n);
    hide NetReachable, Reachable, Lossless, ClientOk, AgentOk, TunnelOk;
    m := OpenClient(i.c, route, psk);
    t := Next(cfg, codec, n, m).value;
    v := View(t.clients[i.c], t.relay.conns[i.c], t.agents[i.r], t.relay.regs[i.r], None, None);
  }

  lemma ReserveMove(cfg: Config, codec: Codec, n: Net, i: Ids, v: View, route: Bytes) returns (m: Move, t: Net)
    requires Sees(n, i, v) && v.k.pc.Reserving? && v.k.recvd == [ClientOpen(1, route)] && |route| == 16
    requires route in n.relay.sh.agents && n.relay.sh.agents[route] == i.r
    requires i.r in n.relay.sh.agentObjs && n.relay.sh.agentObjs[i.r].active < cfg.maxTunnels
    ensures Goes(cfg, codec, n, m, t) && t.relay.sh.sessionObjs == n.relay.sh.sessionObjs
    ensures Sees(t, i, v.(k := v.k.(pc := Counting, agent := i.r)))
  {
    m := RelayStep(Reserve(i.c));
    t := Next(cfg, codec, n, m).value;
  }

  lemma CountMove(cfg: Config, codec: Codec, n: Net, i: Ids, v: View) returns (m: Move, t: Net)
    requires Sees(n, i, v) && v.k.pc.Counting?
    ensures Goes(cfg, codec, n, m, t) && t.relay.sh.sessionObjs == n.relay.sh.sessionObjs
    ensures Sees(t, i, v.(k := v.k.(pc := Allocating)))
  {
    m := RelayStep(Count(i.c));
    t := Next(cfg, codec, n, m).value;
  }

  lemma AllocateMove(cfg: Config, codec: Codec, n: Net, i: Ids, v: View, sid: Bytes) returns (m: Move, t: Net)
    requires Sees(n, i, v) && v.k.pc.Allocating? && FreshSid(n.relay, sid)
    ensures Goes(cfg, codec, n, m, t) && Sees(t, i, v.(k := v.k.(pc := SendAssigned, sid := sid)))
    ensures SeesSession(t, i, SessionState(sid, v.k.agent, false, false, []))
  {
    hide FreshSid;
    m := RelayStep(Allocate(i.c, sid));
    t := Next(cfg, codec, n, m).value;
  }

  lemma InsertMove(cfg: Config, codec: Codec, n: Net, i: Ids, v: View, o: SessionState) returns (m: Move, t: Net)
    requires Sees(n, i, v) && v.k.pc.Inserting? && SeesSession(n, i, o)
    ensures Goes(cfg, codec, n, m, t) && Sees(t, i, v.(k := v.k.(pc := Notifying)))
    ensures SeesSession(t, i, o) && SeesListed(t, i, o.sid)
  {
    m := RelayStep(Insert(i.c));
    t := Next(cfg, codec, n, m).value;
  }

  lemma NotifyMove(cfg: Config, codec: Codec, n: Net, i: Ids, v: View) returns (m: Move, t: Net)
    requires Sees(n, i, v) && v.k.pc.Notifying? && v.k.agent == i.r && v.g.pc.RegLoop?
    ensures Goes(cfg, codec, n, m, t) && t.relay.sh == n.relay.sh
    ensures Sees(t, i, v.(k := v.k.(pc := AwaitReady, notified := true),
      g := v.g.(pc := RegSending(Note(v.k)), taken := v.g.taken + [i.c])))
  {
    hide Note;
    m := RelayStep(Notify(i.c));
    t := Next(cfg, codec, n, m).value;
  }

  lemma AnnounceMove(cfg: Config, codec: Codec, n: Net, i: Ids, v: View) returns (m: Move, t: Net)
    requires Sees(n, i, v) && v.g.pc.RegSending?
    ensures Goes(cfg, codec, n, m, t) && t.relay.sh == n.relay.sh
    ensures Sees(t, i, v.(g := v.g.(pc := RegLoop, sent := v.g.sent + [v.g.pc.note])))
  {
    m := RelayStep(RegStep(i.r, RegSendOk));
    t := Next(cfg, codec, n, m).value;
  }

  /** The agent receives its next notification and starts a tunnel for it. */
  lemma HearMove(cfg: Config, codec: Codec, n: Net, i: Ids, v: View, note: Notification) returns (m: Move, t: Net)
    requires Sees(n, i, v) && v.tu.None? && IsNext(v.g.sent, v.ag.heard, note)
    requires note.version == 1 && |note.sessionId| == 16
    ensures Goes(cfg, codec, n, m, t) && t.relay == n.relay
    ensures Sees(t, i, v.(ag := v.ag.(heard := v.ag.heard + 1),
      tu := Some(Tunnel(i.r, v.ag.heard, note, Notified, None, []))))
  {
    m := Hear(i.r, i.x);
    t := Next(cfg, codec, n, m).value;
  }

  lemma ReplyMove(cfg: Config, codec: Codec, n: Net, i: Ids, v: View) returns (m: Move, t: Net)
    requires Sees(n, i, v) && v.tu.Some? && v.tu.value.pc.Notified? && v.tu.value.reg == i.r && v.a.None?
    requires Response(codec, i.x, v.ag, v.tu.value.note).Some?
    ensures Goes(cfg, codec, n, m, t) && t.relay.sh == n.relay.sh
    ensures var reply := Response(codec, i.x, v.ag, v.tu.value.note);
      var first := AgentAccept(1, v.tu.value.note.sessionId, codec.encode(reply.value.0));
      Sees(t, i, v.(tu := Some(v.tu.value.(pc := Serving, reply := reply, sent := [first])), a := Some(NEW_ACC)))
  {
    hide Response;
    m := Reply(i.x);
    t := Next(cfg, codec, n, m).value;
  }

  lemma AcceptMove(cfg: Config, codec: Codec, n: Net, i: Ids, v: View, f: AcceptRequest) returns (m: Move, t: Net)
    requires Sees(n, i, v) && v.tu.Some? && v.tu.value.sent == [f] && v.a == Some(NEW_ACC) && ValidAccept(f)
    ensures Goes(cfg, codec, n, m, t) && t.relay.sh == n.relay.sh
    ensures Sees(t, i, v.(a := Some(NEW_ACC.(pc := Attaching(f.sessionId, f.agentHello), recvd := [f]))))
  {
    hide ValidAccept;
    m := RelayStep(AccStep(i.x, AccFrame(f)));
    t := Next(cfg, codec, n, m).value;
    assert [] + [f] == [f];
  }

  lemma AttachMove(cfg: Config, codec: Codec, n: Net, i: Ids, v: View, o: SessionState) returns (m: Move, t: Net)
    requires Sees(n, i, v) && v.a.Some? && v.a.value.pc.Attaching? && SeesSession(n, i, o)
    requires SeesListed(n, i, v.a.value.pc.sid) && !o.ready
    ensures Goes(cfg, codec, n, m, t) && SeesSession(t, i, o.(ready := true, hello := v.a.value.pc.hello))
    ensures Sees(t, i, v.(k := v.k.(acceptors := v.k.acceptors + [i.x]),
      a := Some(v.a.value.(pc := AccForwarding, session := Some(i.c), port := v.a.value.port.(pump := Receiving)))))
  {
    m := RelayStep(Attach(i.x));
    t := Next(cfg, codec, n, m).value;
  }

  /** The client receives the relay's next frame. */
  lemma ReceiveMove(cfg: Config, codec: Codec, n: Net, i: Ids, v: View, pc: ClientPc) returns (m: Move, t: Net)
    requires Sees(n, i, v) && v.cl.got < |v.k.sent| && (v.cl.pc.AwaitAssigned? || v.cl.pc.AwaitAccept?)
    requires pc == AfterFrame(codec, v.cl.pc, v.k.sent[v.cl.got])
    ensures Goes(cfg, codec, n, m, t) && t.relay == n.relay
    ensures Sees(t, i, v.(cl := v.cl.(got := v.cl.got + 1, pc := pc)))
  {
    hide AfterFrame;
    m := ClientRecv(i.c);
    t := Next(cfg, codec, n, m).value;
  }

  lemma HelloMove(cfg: Config, codec: Codec, n: Net, i: Ids, v: View) returns (m: Move, t: Net)
    requires Sees(n, i, v) && v.cl.pc.GotSession?
    ensures Goes(cfg, codec, n, m, t) && t.relay == n.relay
    ensures var (hello, hs) := StartInitiator(v.cl.psk, v.cl.route, v.cl.pc.sid, i.c);
      Sees(t, i, v.(cl := v.cl.(pc := AwaitAccept(hs), sent := v.cl.sent + [ClientHandshake(codec.encode(hello))])))
  {
    hide StartInitiator;
    m := SendHello(i.c);
    t := Next(cfg, codec, n, m).value;
  }

  // ---- The way to a joined tunnel ----

  lemma Then(cfg: Config, codec: Codec, n: Net, moves: seq<Move>, s: Net, m: Move, t: Net) returns (more: seq<Move>)
    requires RunFrom(cfg, codec, n, moves) == Some(s) && Goes(cfg, codec, s, m, t)
    ensures more == moves + [m] && RunFrom(cfg, codec, n, more) == Some(t)
  {
    RunMore(cfg, codec, n, moves, m);
    more := moves + [m];
  }

  /** The agent is registered, waits for its next notification and is held by fewer calls than the limit. */
  ghost predicate Listening(cfg: Config, n: Net, r: nat) {
    && r in n.agents && r in n.relay.regs && n.relay.regs[r].pc.RegLoop?
    && n.agents[r].heard == |n.relay.regs[r].sent| && |Holders(n.relay.conns, r)| < cfg.maxTunnels
  }

  lemma ListeningAgent(cfg: Config, codec: Codec, n: Net, r: nat)
    requires NetReachable(cfg, codec, n) && Lossless(codec) && Listening(cfg, n, r)
    ensures var route := n.agents[r].route;
      && |route| == 16 && route in n.relay.sh.agents && n.relay.sh.agents[route] == r
      && r in n.relay.sh.agentObjs && n.relay.sh.agentObjs[r].active < cfg.maxTunnels
  {
    NetReachableInv(cfg, codec, n);
    hide NetReachable, Reachable, Lossless, ClientsOk, TunnelsOk, Holders;
    assert AgentOk(n.agents[r], n.relay.regs[r]);
    var route := n.agents[r].route;
    assert Serves(n.relay, r, route);
    AgentsCount(cfg, n.relay);
    ServingAgent(cfg, n.relay, r, route);
  }

  /** The `Connect` call and its client once the client knows its session. */
  function AssignedConn(r: nat, route: Bytes, sid: Bytes): Conn {
    Conn(RecvHandshake, false, [ClientOpen(1, route)], [SessionAssigned(sid)], r, sid, [], NEW_PORT, [], [], false)
  }

  lemma Assigned(cfg: Config, codec: Codec, n: Net, i: Ids, sid: Bytes) returns (moves: seq<Move>, t: Net, v: View)
    requires NetReachable(cfg, codec, n) && Lossless(codec) && Listening(cfg, n, i.r)
    requires i.c !in n.clients && i.x !in n.tunnels && FreshSid(n.relay, sid)
    ensures |moves| == 7 && RunFrom(cfg, codec, n, moves) == Some(t)
    ensures moves[0] == OpenClient(i.c, n.agents[i.r].route, n.agents[i.r].psk)
    ensures Sees(t, i, v) && SeesSession(t, i, SessionState(sid, i.r, false, false, []))
    ensures v.ag == n.agents[i.r] && v.g == n.relay.regs[i.r] && v.tu == None && v.a == None
    ensures v.cl == Client(v.ag.psk, v.ag.route, GotSession(sid), [ClientOpen(1, v.ag.route)], 1)
    ensures v.k == AssignedConn(i.r, v.ag.route, sid)
  {
    hide NetReachable, Lossless, Next, Sees, SeesSession, FreshSid, RunFrom;
    ListeningAgent(cfg, codec, n, i.r);
    var route, psk := n.agents[i.r].route, n.agents[i.r].psk;
    var open := ClientOpen(1, route);
    moves, t := [], n;
    RunNothing(cfg, codec, n);
    var s, m := t, OpenClient(i.c, route, psk);
    m, t, v := OpenMove(cfg, codec, n, i, route, psk);
    moves := Then(cfg, codec, n, moves, s, m, t);
    s := t;
    m, t := FrameMove(cfg, codec, s, i, v);
    moves := Then(cfg, codec, n, moves, s, m, t);
    assert [] + [open] == [open];
    v := v.(k := NEW_CONN.(pc := Reserving, recvd := [open]));
    s := t;
    m, t := ReserveMove(cfg, codec, s, i, v, route);
    moves := Then(cfg, codec, n, moves, s, m, t);
    v := v.(k := v.k.(pc := Counting, agent := i.r));
    s := t;
    m, t := CountMove(cfg, codec, s, i, v);
    moves := Then(cfg, codec, n, moves, s, m, t);
    v := v.(k := v.k.(pc := Allocating));
    SidStillFresh(n.relay, t.relay, sid);
    s := t;
    m, t := AllocateMove(cfg, codec, s, i, v, sid);
    moves := Then(cfg, codec, n, moves, s, m, t);
    v := v.(k := v.k.(pc := SendAssigned, sid := sid));
    s := t;
    var o := SessionState(sid, i.r, false, false, []);
    m, t := SendMove(cfg, codec, s, i, v, o);
    moves := Then(cfg, codec, n, moves, s, m, t);
    SameSession(s, t, i, o);
    assert [] + [SessionAssigned(sid)] == [SessionAssigned(sid)];
    v := v.(k := AssignedConn(i.r, route, sid));
    s := t;
    SidSize(n.relay, sid);
    m, t := ReceiveMove(cfg, codec, s, i, v, GotSession(sid));
    moves := Then(cfg, codec, n, moves, s, m, t);
    SameSession(s, t, i, o);
    v := v.(cl := v.cl.(got := 1, pc := GotSession(sid)));
  }

  lemma RunNothing(cfg: Config, codec: Codec, n: Net)
    ensures RunFrom(cfg, codec, n, []) == Some(n)
  {
  }

  lemma SidStillFresh(s: State, t: State, sid: Bytes)
    requires FreshSid(s, sid) && t.sh.sessionObjs == s.sh.sessionObjs
    ensures FreshSid(t, sid)
  {
  }

  lemma SidSize(s: State, sid: Bytes)
    requires FreshSid(s, sid)
    ensures |sid| == 16
  {
  }

  lemma SameSession(s: Net, t: Net, i: Ids, o: SessionState)
    requires SeesSession(s, i, o) && t.relay.sh == s.relay.sh
    ensures SeesSession(t, i, o)
  {
  }

  function ClientsHello(i: Ids, psk: Bytes, route: Bytes, sid: Bytes): Hello {
    StartInitiator(psk, route, sid, i.c).0
  }

  /** The `Connect` call once the agent's loop has its notification. */
  function AnnouncedConn(r: nat, route: Bytes, sid: Bytes, hello: Bytes): Conn {
    Conn(AwaitReady, false, [ClientOpen(1, route), ClientHandshake(hello)], [SessionAssigned(sid)], r, sid, hello,
      NEW_PORT, [], [], true)
  }

  function GreetingClient(codec: Codec, i: Ids, psk: Bytes, route: Bytes, sid: Bytes): Client {
    var hello := codec.encode(ClientsHello(i, psk, route, sid));
    Client(psk, route, AwaitAccept(StartInitiator(psk, route, sid, i.c).1),
      [ClientOpen(1, route), ClientHandshake(hello)], 1)
  }

  /** The client greets, the relay lists the session and tells the agent, which starts a tunnel. */
  lemma Announced(cfg: Config, codec: Codec, n: Net, i: Ids, was: View, sid: Bytes)
    returns (moves: seq<Move>, t: Net, v: View)
    requires Sees(n, i, was) && Lossless(codec) && SeesSession(n, i, SessionState(sid, i.r, false, false, []))
    requires was.tu == None && was.a == None && was.g.pc.RegLoop? && was.ag.heard == |was.g.sent| && |sid| == 16
    requires was.cl == Client(was.ag.psk, was.ag.route, GotSession(sid), [ClientOpen(1, was.ag.route)], 1)
    requires was.k == AssignedConn(i.r, was.ag.route, sid)
    ensures |moves| == 6 && RunFrom(cfg, codec, n, moves) == Some(t)
    ensures Sees(t, i, v) && SeesSession(t, i, SessionState(sid, i.r, false, false, [])) && SeesListed(t, i, sid)
    ensures v.ag == was.ag.(heard := was.ag.heard + 1) && v.a == None
    ensures v.cl == GreetingClient(codec, i, v.ag.psk, v.ag.route, sid)
    ensures var hello := codec.encode(ClientsHello(i, v.ag.psk, v.ag.route, sid));
      && v.k == AnnouncedConn(i.r, v.ag.route, sid, hello)
      && v.tu == Some(Tunnel(i.r, was.ag.heard, Notification(1, sid, hello), Notified, None, []))
  {
    hide Next, Sees, SeesSession, SeesListed, RunFrom, StartInitiator;
    var route, psk, o := was.ag.route, was.ag.psk, SessionState(sid, i.r, false, false, []);
    var hello := codec.encode(ClientsHello(i, psk, route, sid));
    var greeting, open := ClientHandshake(hello), ClientOpen(1, route);
    assert |hello| > 0 && [open] + [greeting] == [open, greeting];
    hide Lossless;
    v, moves := was, [];
    RunNothing(cfg, codec, n);
    var s, m := n, SendHello(i.c);
    m, t := HelloMove(cfg, codec, s, i, v);
    moves := Then(cfg, codec, n, moves, s, m, t);
    SameSession(s, t, i, o);
    v := v.(cl := GreetingClient(codec, i, psk, route, sid));
    s := t;
    m, t := FrameMove(cfg, codec, s, i, v);
    moves := Then(cfg, codec, n, moves, s, m, t);
    SameSession(s, t, i, o);
    v := v.(k := AnnouncedConn(i.r, route, sid, hello).(pc := Inserting, notified := false));
    s := t;
    m, t := InsertMove(cfg, codec, s, i, v, o);
    moves := Then(cfg, codec, n, moves, s, m, t);
    v := v.(k := v.k.(pc := Notifying));
    s := t;
    m, t := NotifyMove(cfg, codec, s, i, v);
    moves := Then(cfg, codec, n, moves, s, m, t);
    SameSession(s, t, i, o);
    SameListed(s, t, i, sid);
    var note := Notification(1, sid, hello);
    v := v.(k := AnnouncedConn(i.r, route, sid, hello), g := v.g.(pc := RegSending(note), taken := v.g.taken + [i.c]));
    s := t;
    m, t := AnnounceMove(cfg, codec, s, i, v);
    moves := Then(cfg, codec, n, moves, s, m, t);
    SameSession(s, t, i, o);
    SameListed(s, t, i, sid);
    v := v.(g := v.g.(pc := RegLoop, sent := v.g.sent + [note]));
    s := t;
    m, t := HearMove(cfg, codec, s, i, v, note);
    moves := Then(cfg, codec, n, moves, s, m, t);
    SameSession(s, t, i, o);
    SameListed(s, t, i, sid);
    v := v.(ag := v.ag.(heard := v.ag.heard + 1), tu := Some(Tunnel(i.r, v.ag.heard, note, Notified, None, [])));
  }

  lemma SameListed(s: Net, t: Net, i: Ids, sid: Bytes)
    requires SeesListed(s, i, sid) && t.relay.sh == s.relay.sh
    ensures SeesListed(t, i, sid)
  {
  }

  /** Both ends run their bridges, over two calls that forward between them, with complementary keys. */
  predicate JoinedEnds(n: Net, i: Ids) {
    && i.c in n.clients && n.clients[i.c].pc.Bridging? && i.x in n.tunnels && n.tunnels[i.x].pc.Serving?
    && n.tunnels[i.x].reply.Some?
    && var far := n.tunnels[i.x].reply.value.1;
    && n.clients[i.c].pc.crypt == Transport(far.recv, far.send)
    && i.c in n.relay.conns && i.x in n.relay.accs
    && n.relay.conns[i.c].pc.Forwarding? && n.relay.conns[i.c].port.pump.Receiving?
    && n.relay.conns[i.c].acceptors == [i.x]
    && n.relay.accs[i.x].pc.AccForwarding? && n.relay.accs[i.x].port.pump.Receiving?
    && n.relay.accs[i.x].session == Some(i.c)
  }

  lemma Accepted(cfg: Config, codec: Codec, n: Net, i: Ids, was: View, sid: Bytes)
    returns (moves: seq<Move>, t: Net)
    requires Sees(n, i, was) && Lossless(codec) && SeesSession(n, i, SessionState(sid, i.r, false, false, []))
    requires SeesListed(n, i, sid) && |sid| == 16 && was.a == None
    requires was.cl == GreetingClient(codec, i, was.ag.psk, was.ag.route, sid)
    requires var hello := codec.encode(ClientsHello(i, was.ag.psk, was.ag.route, sid));
      && was.k == AnnouncedConn(i.r, was.ag.route, sid, hello)
      && was.tu.Some? && was.tu.value.reg == i.r && was.tu.value.pc.Notified?
      && was.tu.value.note == Notification(1, sid, hello)
    ensures |moves| == 6 && RunFrom(cfg, codec, n, moves) == Some(t) && JoinedEnds(t, i)
  {
    hide Next, Sees, SeesSession, SeesListed, RunFrom;
    var v, o := was, SessionState(sid, i.r, false, false, []);
    var hs := StartInitiator(v.ag.psk, v.ag.route, sid, i.c).1;
    var reply := Response(codec, i.x, v.ag, v.tu.value.note);
    assert reply == Respond(v.ag.psk, v.ag.route, sid, ClientsHello(i, v.ag.psk, v.ag.route, sid), i.x);
    HandshakeCompletes(v.ag.psk, v.ag.route, sid, i.c, i.x);
    var (answer, far) := reply.value;
    var near := Transport(far.recv, far.send);
    assert Finish(hs, answer) == Some(near);
    var text := codec.encode(answer);
    assert |text| > 0 && codec.decode(text) == answer;
    hide Lossless, Response, Respond, StartInitiator, Finish;
    moves := [];
    RunNothing(cfg, codec, n);
    var s, m := n, Reply(i.x);
    m, t := ReplyMove(cfg, codec, s, i, v);
    moves := Then(cfg, codec, n, moves, s, m, t);
    SameSession(s, t, i, o);
    SameListed(s, t, i, sid);
    var first := AgentAccept(1, sid, text);
    v := v.(tu := Some(v.tu.value.(pc := Serving, reply := reply, sent := [first])), a := Some(NEW_ACC));
    s := t;
    m, t := AcceptMove(cfg, codec, s, i, v, first);
    moves := Then(cfg, codec, n, moves, s, m, t);
    SameSession(s, t, i, o);
    SameListed(s, t, i, sid);
    v := v.(a := Some(NEW_ACC.(pc := Attaching(sid, text), recvd := [first])));
    s := t;
    m, t := AttachMove(cfg, codec, s, i, v, o);
    moves := Then(cfg, codec, n, moves, s, m, t);
    o := o.(ready := true, hello := text);
    assert [] + [i.x] == [i.x];
    v := v.(k := v.k.(acceptors := [i.x]),
      a := Some(v.a.value.(pc := AccForwarding, session := Some(i.c), port := NEW_PORT.(pump := Receiving))));
    s := t;
    m, t := ReadyMove(cfg, codec, s, i, v, o);
    moves := Then(cfg, codec, n, moves, s, m, t);
    SameSession(s, t, i, o);
    v := v.(k := v.k.(pc := SendAccept));
    s := t;
    m, t := SendMove(cfg, codec, s, i, v, o);
    moves := Then(cfg, codec, n, moves, s, m, t);
    v := v.(k := ConnSendOk(v.k, o).value);
    s := t;
    m, t := ReceiveMove(cfg, codec, s, i, v, Bridging(near));
    moves := Then(cfg, codec, n, moves, s, m, t);
    v := v.(cl := v.cl.(got := 2, pc := Bridging(near)));
    SeenJoined(t, i, v, reply.value);
  }

  lemma SeenJoined(n: Net, i: Ids, v: View, reply: (Hello, Transport))
    requires Sees(n, i, v) && v.cl.pc == Bridging(Transport(reply.1.recv, reply.1.send))
    requires v.tu.Some? && v.tu.value.pc.Serving? && v.tu.value.reply == Some(reply) && v.a.Some?
    requires v.k.pc.Forwarding? && v.k.port.pump.Receiving? && v.k.acceptors == [i.x]
    requires v.a.value.pc.AccForwarding? && v.a.value.port.pump.Receiving? && v.a.value.session == Some(i.c)
    ensures JoinedEnds(n, i)
  {
  }

  lemma {:induction false} RunsOn(cfg: Config, codec: Codec, n: Net, one: seq<Move>, two: seq<Move>)
    requires RunFrom(cfg, codec, n, one).Some?
    ensures RunFrom(cfg, codec, n, one + two) == RunFrom(cfg, codec, RunFrom(cfg, codec, n, one).value, two)
  {
    hide Next;
    if two == [] {
      assert one + two == one;
    } else {
      var all, most := one + two, two[..|two| - 1];
      assert all[..|all| - 1] == one + most;
      RunsOn(cfg, codec, n, one, most);
    }
  }

  /**
   In every reachable state of the whole system, and whatever its other calls do, a new client that asks for the
   route of a listening agent with its key can be joined to it in nineteen moves.
   */
  lemma TunnelCanBeJoined(cfg: Config, codec: Codec, n: Net, i: Ids, sid: Bytes)
    returns (moves: seq<Move>, t: Net)
    requires NetReachable(cfg, codec, n) && Lossless(codec) && Listening(cfg, n, i.r)
    requires i.c !in n.clients && i.x !in n.tunnels && FreshSid(n.relay, sid)
    ensures |moves| == 19 && RunFrom(cfg, codec, n, moves) == Some(t) && JoinedEnds(t, i)
    ensures moves[0] == OpenClient(i.c, n.agents[i.r].route, n.agents[i.r].psk)
  {
    hide NetReachable, Lossless, RunFrom, JoinedEnds, Sees, SeesSession, SeesListed;
    SidSize(n.relay, sid);
    hide FreshSid;
    var one, s, v := Assigned(cfg, codec, n, i, sid);
    var two, u, w := Announced(cfg, codec, s, i, v, sid);
    var three;
    three, t := Accepted(cfg, codec, u, i, w, sid);
    moves := one + two + three;
    RunsOn(cfg, codec, n, one, two);
    RunsOn(cfg, codec, n, one + two, three);
  }
}
