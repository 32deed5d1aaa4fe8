/**
 What flows through the relay: the frames each call receives and sends, the attachment of `Accept`
 calls to sessions, and the payloads handed between them.
 */
module BrokerFlow {
  import opened Base
  import opened Messages
  import opened RelayShared
  import opened RelayHandlers
  import opened Broker
  import opened BrokerInvariants

  type Accs = map<nat, Acc>

  // ---- Projections of the hand-over histories ----

  /** The payloads handed over by or to `Connect` call `c`, in order. */
  function ByConn(log: seq<Hand>, c: nat): seq<Bytes> {
    if log == [] then [] else
    var last := log[|log| - 1];
    ByConn(log[..|log| - 1], c) + (if last.conn == c then [last.payload] else [])
  }

  /** The payloads handed over by or to `Accept` call `x`, in order. */
  function ByAcc(log: seq<Hand>, x: nat): seq<Bytes> {
    if log == [] then [] else
    var last := log[|log| - 1];
    ByAcc(log[..|log| - 1], x) + (if last.acc == x then [last.payload] else [])
  }

  lemma LogAppend(log: seq<Hand>, h: Hand, c: nat, x: nat)
    ensures ByConn(log + [h], c) == ByConn(log, c) + (if h.conn == c then [h.payload] else [])
    ensures ByAcc(log + [h], x) == ByAcc(log, x) + (if h.acc == x then [h.payload] else [])
  {
    assert (log + [h])[..|log|] == log;
  }

  lemma {:induction false} NoHands(log: seq<Hand>, id: nat)
    ensures (forall i :: 0 <= i < |log| ==> log[i].conn != id) ==> ByConn(log, id) == []
    ensures (forall i :: 0 <= i < |log| ==> log[i].acc != id) ==> ByAcc(log, id) == []
  {
    if log != [] { NoHands(log[..|log| - 1], id); }
  }

  // ---- One pump ----

  function Offered(p: Pump): seq<Bytes> {
    if p.Offering? then [p.payload] else []
  }

  /**
   A pump has handed over everything it received, in order, except the payload it still offers or
   the single one it dropped because the context ended; its error slot is filled at most once.
   */
  predicate PortOk(p: Port, handed: seq<Bytes>) {
    && p.got == handed + Offered(p.pump) + p.dropped
    && (p.dropped != [] ==> |p.dropped| == 1 && (p.pump == Reporting(ContextError) || p.pump == Exited(ContextError)))
    && (p.errCh.Some? ==> p.pump == Exited(p.errCh.value))
    && (p.pump.Idle? ==> p == NEW_PORT)
    && (p.pump.Tallying? ==> |handed| > 0 && handed[|handed| - 1] == p.pump.payload)
  }

  lemma PortStepOk(p: Port, ev: PortEvent, ctxDone: bool, handed: seq<Bytes>)
    requires PortOk(p, handed) && PortStep(p, ev, ctxDone).Some?
    ensures PortOk(PortStep(p, ev, ctxDone).value, handed)
  {
    assert p.dropped == [] ==> handed + Offered(p.pump) + p.dropped == handed + Offered(p.pump);
  }

  lemma PortHandOk(p: Port, handed: seq<Bytes>)
    requires PortOk(p, handed) && p.pump.Offering?
    ensures PortOk(p.(pump := Tallying(p.pump.payload)), handed + [p.pump.payload])
  {
  }

  // ---- One Connect call: frames in, frames out ----

  function Delivered(sent: seq<ConnectResponse>): seq<Bytes> {
    if sent == [] then [] else
    var last := sent[|sent| - 1];
    Delivered(sent[..|sent| - 1]) + (if last.ToClient? then [last.payload] else [])
  }

  lemma DeliveredAppend(sent: seq<ConnectResponse>, f: ConnectResponse)
    ensures Delivered(sent + [f]) == Delivered(sent) + (if f.ToClient? then [f.payload] else [])
  {
    assert (sent + [f])[..|sent|] == sent;
  }

  function Held(pc: ConnPc): seq<Bytes> {
    if pc.SendPayload? then [pc.payload] else []
  }

  predicate Unwinding(pc: ConnPc) {
    pc.Deleting? || pc.Cancelling? || pc.Releasing? || pc.Uncounting? || pc.Returned?
  }

  /**
   The frames sent to the client are a prefix of: the session identifier, one acceptance carrying
   the stored hello, then ciphertexts; the acceptance only after notification and `ready`.
   */
  predicate ConnOutput(k: Conn, o: SessionState) {
    && (BeforeSession(k.pc) || k.pc.SendAssigned? ==> k.sent == [])
    && (k.pc.RecvHandshake? || k.pc.Inserting? || k.pc.Notifying? || k.pc.AwaitReady? || k.pc.SendAccept? ==>
      |k.sent| == 1)
    && (k.pc.Forwarding? || k.pc.SendPayload? ==> |k.sent| >= 2)
    && (k.pc.SendAccept? ==> o.ready)
    && (k.pc.SendAssigned? || |k.sent| > 0 ==> o.sid == k.sid && |k.sid| == SESSION_ID_SIZE)
    && (|k.sent| > 0 ==> k.sent[0] == SessionAssigned(k.sid))
    && (|k.sent| > 1 ==> k.notified && o.ready && k.sent[1] == AgentAccepted(PROTOCOL_VERSION, k.sid, o.hello))
    && (forall i :: 2 <= i < |k.sent| ==> k.sent[i].ToClient?)
  }

  /** The frames received: an open, a handshake, then one ciphertext per payload the pump got. */
  predicate ConnInput(k: Conn) {
    && (k.pc.RecvOpen? ==> k.recvd == [])
    && ((BeforeSession(k.pc) && !k.pc.RecvOpen?) || k.pc.SendAssigned? || k.pc.RecvHandshake? ==> |k.recvd| == 1)
    && (k.pc.Inserting? || InMap(k.pc) ==> |k.recvd| >= 2)
    && (k.notified || k.pc.Inserting? || InMap(k.pc) ==>
      |k.recvd| >= 2 && k.recvd[1] == ClientHandshake(k.clientHello) && |k.clientHello| > 0)
    && (!k.port.pump.Idle? ==> |k.recvd| >= 2)
    && (k.port.pump.Idle? ==> |k.recvd| <= 2)
    && (!k.port.pump.Idle? ==>
          && |k.recvd| == 2 + |k.port.got|
            + (if k.port.pump == Reporting(BadFrame) || k.port.pump == Exited(BadFrame) then 1 else 0)
          && forall i :: 0 <= i < |k.port.got| ==> k.recvd[2 + i] == ClientCiphertext(k.port.got[i]))
  }

  /** Payloads handed to this call were sent to the client, are being sent, or failed to send. */
  predicate ConnFlow(k: Conn, handedToAgent: seq<Bytes>, handedToClient: seq<Bytes>) {
    && PortOk(k.port, handedToAgent)
    && handedToClient == Delivered(k.sent) + Held(k.pc) + k.unsent
    && (k.unsent != [] ==> |k.unsent| == 1 && Unwinding(k.pc))
    && (Unwinding(k.pc) && k.pc.code == Ok ==> k.port.pump == Exited(Eof))
  }

  // ---- One Accept call ----

  function AccHeld(pc: AccPc): seq<Bytes> {
    if pc.AccSending? then [pc.payload] else []
  }

  predicate AccInput(a: Acc) {
    && (a.pc.RecvAccept? ==> a == NEW_ACC)
    && (a.pc.Attaching? ==>
      a.recvd == [AgentAccept(PROTOCOL_VERSION, a.pc.sid, a.pc.hello)] && ValidAccept(a.recvd[0]) && a.session.None?)
    && (a.pc.AccForwarding? || a.pc.AccSending? || a.pc.AccCancelling? ==> a.session.Some?)
    && (a.session.None? <==> a.port.pump.Idle?)
    && (a.session.Some? ==>
          && |a.recvd| == 1 + |a.port.got|
            + (if a.port.pump == Reporting(BadFrame) || a.port.pump == Exited(BadFrame) then 1 else 0)
          && ValidAccept(a.recvd[0])
          && forall i :: 0 <= i < |a.port.got| ==> a.recvd[1 + i] == AgentCiphertext(a.port.got[i]))
  }

  predicate AccFlow(a: Acc, handedToAgent: seq<Bytes>, handedToClient: seq<Bytes>) {
    && PortOk(a.port, handedToClient)
    && handedToAgent == a.sent + AccHeld(a.pc) + a.unsent
    && (a.unsent != [] ==> |a.unsent| == 1 && (a.pc.AccCancelling? || a.pc.AccReturned?))
  }

  // ---- The whole relay ----

  ghost predicate Frames(conns: Conns, sessionObjs: SessionObjs) {
    forall c :: c in conns ==> ConnOutput(conns[c], Object(sessionObjs, c)) && ConnInput(conns[c])
  }

  function Object(sessionObjs: SessionObjs, c: nat): SessionState {
    if c in sessionObjs then sessionObjs[c] else NO_SESSION
  }

  /** The acceptors of a session, in order; the first one set the hello, for good. */
  predicate ConnAcceptors(accs: Accs, sessionObjs: SessionObjs, c: nat, k: Conn) {
    && (forall i :: 0 <= i < |k.acceptors| ==> k.acceptors[i] in accs && accs[k.acceptors[i]].session == Some(c))
    && (k.acceptors != [] ==> c in sessionObjs)
    && (c in sessionObjs ==> (sessionObjs[c].ready <==> k.acceptors != []))
    && (c in sessionObjs && sessionObjs[c].ready ==>
          && |accs[k.acceptors[0]].recvd| > 0
          && accs[k.acceptors[0]].recvd[0] == AgentAccept(PROTOCOL_VERSION, k.sid, sessionObjs[c].hello)
          && |sessionObjs[c].hello| > 0)
  }

  predicate AccAttached(conns: Conns, x: nat, a: Acc) {
    a.session.Some? ==>
      && a.session.value in conns && x in conns[a.session.value].acceptors
      && |a.recvd| > 0 && a.recvd[0].AgentAccept? && a.recvd[0].sessionId == conns[a.session.value].sid
  }

  ghost predicate Attachments(conns: Conns, accs: Accs, sessionObjs: SessionObjs) {
    && (forall c :: c in conns ==> ConnAcceptors(accs, sessionObjs, c, conns[c]))
    && (forall x :: x in accs ==> AccInput(accs[x]) && AccAttached(conns, x, accs[x]))
  }

  predicate HandOk(accs: Accs, conns: Conns, h: Hand) {
    h.conn in conns && h.acc in accs && accs[h.acc].session == Some(h.conn)
  }

  ghost predicate Flow(conns: Conns, accs: Accs, toAgent: seq<Hand>, toClient: seq<Hand>) {
    && (forall i :: 0 <= i < |toAgent| ==> HandOk(accs, conns, toAgent[i]))
    && (forall i :: 0 <= i < |toClient| ==> HandOk(accs, conns, toClient[i]))
    && (forall c :: c in conns ==> ConnFlow(conns[c], ByConn(toAgent, c), ByConn(toClient, c)))
    && (forall x :: x in accs ==> AccFlow(accs[x], ByAcc(toAgent, x), ByAcc(toClient, x)))
  }

  ghost predicate FlowInv(s: State) {
    && Frames(s.conns, s.sh.sessionObjs)
    && Attachments(s.conns, s.accs, s.sh.sessionObjs)
    && Flow(s.conns, s.accs, s.toAgent, s.toClient)
  }

  // ---- Local steps of a Connect call ----

  /** Everything `FlowInv` says about one call on its own. */
  predicate ConnOk(k: Conn, o: SessionState, toAgent: seq<Bytes>, toClient: seq<Bytes>) {
    ConnOutput(k, o) && ConnInput(k) && ConnFlow(k, toAgent, toClient) && ConnSane(k)
  }

  lemma ConnRecvOk(k: Conn, o: SessionState, f: ConnectRequest, ta: seq<Bytes>, tc: seq<Bytes>)
    requires ConnOk(k, o, ta, tc) && ConnRecv(k, f).Some?
    ensures var l := ConnRecv(k, f).value; ConnOutput(l, o) && ConnInput(l) && ConnFlow(l, ta, tc)
  {
  }

  lemma ConnSendOkOutput(k: Conn, o: SessionState)
    requires ConnOutput(k, o) && ConnInput(k) && ConnSane(k) && ConnSendOk(k, o).Some?
    requires k.pc.SendAccept? ==> k.notified
    ensures var l := ConnSendOk(k, o).value; ConnOutput(l, o) && ConnInput(l)
  {
  }

  lemma ConnSendOkFlow(k: Conn, o: SessionState, ta: seq<Bytes>, tc: seq<Bytes>)
    requires ConnFlow(k, ta, tc) && ConnSane(k) && ConnSendOk(k, o).Some?
    ensures ConnFlow(ConnSendOk(k, o).value, ta, tc)
  {
    hide Delivered;
    var l := ConnSendOk(k, o).value;
    DeliveredAppend(k.sent, l.sent[|k.sent|]);
    assert k.unsent == [] && l.unsent == [];
    assert Delivered(l.sent) == Delivered(k.sent) + Held(k.pc);
  }

  lemma ConnSendErrorOk(k: Conn, o: SessionState, ta: seq<Bytes>, tc: seq<Bytes>)
    requires ConnOk(k, o, ta, tc) && ConnSendError(k).Some?
    ensures var l := ConnSendError(k).value; ConnOutput(l, o) && ConnInput(l) && ConnFlow(l, ta, tc)
  {
  }

  lemma ConnPumpOk(k: Conn, o: SessionState, f: ConnectRequest, ta: seq<Bytes>, tc: seq<Bytes>)
    requires ConnOk(k, o, ta, tc) && ConnPump(k, f).Some?
    ensures var l := ConnPump(k, f).value; ConnOutput(l, o) && ConnInput(l) && ConnFlow(l, ta, tc)
  {
    PortStepOk(k.port, if f.ClientCiphertext? then Arrived(f.payload) else ArrivedBad, false, ta);
  }

  lemma ConnOtherFrames(k: Conn, o: SessionState, agentDone: bool, ev: ConnEvent)
    requires ConnOutput(k, o) && ConnInput(k) && ConnSane(k) && ConnLocal(k, o, agentDone, ev).Some?
    requires !ev.RecvFrame? && !ev.SendOk? && !ev.SendError? && !ev.PumpFrame? && !ev.PumpMove?
    ensures var l := ConnLocal(k, o, agentDone, ev).value; ConnOutput(l, o) && ConnInput(l)
  {
    hide ConnRecv, ConnSendOk, ConnSendError, ConnPump, PortStep;
  }

  lemma ConnOtherFlow(k: Conn, o: SessionState, agentDone: bool, ev: ConnEvent, ta: seq<Bytes>, tc: seq<Bytes>)
    requires ConnFlow(k, ta, tc) && ConnLocal(k, o, agentDone, ev).Some?
    requires !ev.RecvFrame? && !ev.SendOk? && !ev.SendError? && !ev.PumpFrame? && !ev.PumpMove?
    ensures ConnFlow(ConnLocal(k, o, agentDone, ev).value, ta, tc)
  {
    hide ConnRecv, ConnSendOk, ConnSendError, ConnPump, PortStep;
  }

  lemma ConnPumpMoveOk(k: Conn, o: SessionState, agentDone: bool, ev: PortEvent, ta: seq<Bytes>, tc: seq<Bytes>)
    requires ConnOk(k, o, ta, tc) && ConnLocal(k, o, agentDone, PumpMove(ev)).Some?
    ensures var l := ConnLocal(k, o, agentDone, PumpMove(ev)).value;
      ConnOutput(l, o) && ConnInput(l) && ConnFlow(l, ta, tc)
  {
    hide ConnRecv, ConnSendOk, ConnSendError, ConnPump;
    PortStepOk(k.port, ev, CtxDone(k, o), ta);
  }

  lemma ConnLocalOk(k: Conn, o: SessionState, agentDone: bool, ev: ConnEvent, ta: seq<Bytes>, tc: seq<Bytes>)
    requires ConnOk(k, o, ta, tc) && ConnLocal(k, o, agentDone, ev).Some?
    requires k.pc.SendAccept? ==> k.notified
    ensures var l := ConnLocal(k, o, agentDone, ev).value;
      ConnOutput(l, o) && ConnInput(l) && ConnFlow(l, ta, tc) && l.acceptors == k.acceptors && l.sid == k.sid
  {
    ConnLocalKeeps(k, o, agentDone, ev);
    hide ConnRecv, ConnSendOk, ConnSendError, ConnPump, ConnFlow, ConnOutput, ConnInput;
    match ev
    case RecvFrame(f) => ConnRecvOk(k, o, f, ta, tc);
    case SendOk => ConnSendOkOutput(k, o); ConnSendOkFlow(k, o, ta, tc);
    case SendError => ConnSendErrorOk(k, o, ta, tc);
    case PumpFrame(f) => ConnPumpOk(k, o, f, ta, tc);
    case PumpMove(pe) => ConnPumpMoveOk(k, o, agentDone, pe, ta, tc);
    case _ => ConnOtherFrames(k, o, agentDone, ev); ConnOtherFlow(k, o, agentDone, ev, ta, tc);
  }

  lemma ConnLocalKeeps(k: Conn, o: SessionState, agentDone: bool, ev: ConnEvent)
    requires ConnLocal(k, o, agentDone, ev).Some?
    ensures var l := ConnLocal(k, o, agentDone, ev).value; l.acceptors == k.acceptors && l.sid == k.sid
  {
  }

  // ---- Local steps of an Accept call ----

  lemma AccLocalOk(a: Acc, ctxDone: bool, ev: AccEvent, ta: seq<Bytes>, tc: seq<Bytes>)
    requires AccInput(a) && AccFlow(a, ta, tc) && AccLocal(a, ctxDone, ev).Some?
    ensures var b := AccLocal(a, ctxDone, ev).value;
      AccInput(b) && AccFlow(b, ta, tc) && b.session == a.session && a.recvd <= b.recvd
  {
    if ev.AccPumpMove? { AccPumpMoveOk(a, ctxDone, ev.ev, ta, tc); }
    else if ev.AccPumpFrame? { AccPumpFrameOk(a, ctxDone, ev.frame, ta, tc); }
    else { AccOtherInput(a, ctxDone, ev); AccOtherFlow(a, ctxDone, ev, ta, tc); }
    hide AccInput, AccFlow;
  }

  lemma AccPumpMoveOk(a: Acc, ctxDone: bool, ev: PortEvent, ta: seq<Bytes>, tc: seq<Bytes>)
    requires AccInput(a) && AccFlow(a, ta, tc) && AccLocal(a, ctxDone, AccPumpMove(ev)).Some?
    ensures var b := AccLocal(a, ctxDone, AccPumpMove(ev)).value; AccInput(b) && AccFlow(b, ta, tc)
  {
    PortStepOk(a.port, ev, ctxDone, tc);
  }

  lemma AccPumpFrameOk(a: Acc, ctxDone: bool, f: AcceptRequest, ta: seq<Bytes>, tc: seq<Bytes>)
    requires AccInput(a) && AccFlow(a, ta, tc) && AccLocal(a, ctxDone, AccPumpFrame(f)).Some?
    ensures var b := AccLocal(a, ctxDone, AccPumpFrame(f)).value; AccInput(b) && AccFlow(b, ta, tc)
  {
    PortStepOk(a.port, if f.AgentCiphertext? then Arrived(f.payload) else ArrivedBad, false, tc);
  }

  lemma AccOtherInput(a: Acc, ctxDone: bool, ev: AccEvent)
    requires AccInput(a) && AccLocal(a, ctxDone, ev).Some? && !ev.AccPumpMove? && !ev.AccPumpFrame?
    ensures AccInput(AccLocal(a, ctxDone, ev).value)
  {
  }

  lemma AccOtherFlow(a: Acc, ctxDone: bool, ev: AccEvent, ta: seq<Bytes>, tc: seq<Bytes>)
    requires AccFlow(a, ta, tc) && AccLocal(a, ctxDone, ev).Some? && !ev.AccPumpMove? && !ev.AccPumpFrame?
    ensures AccFlow(AccLocal(a, ctxDone, ev).value, ta, tc)
  {
  }
}
