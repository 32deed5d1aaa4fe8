/**
 What a `RegisterAgent`, `Connect` or `Accept` call does between two visits to the shared state.
 Every function below is one atomic step of one goroutine: it reads the shared state where a
 `select` does, and changes only the record of its own call.
 */
module RelayHandlers {
  import opened Base
  import opened Messages
  import opened RelayShared

  // ---- recvClient and recvAgent: the pump goroutine of a call and its one-slot error channel ----

  datatype PumpError = Eof | Broken | BadFrame | ContextError

  /** `Tallying` is a pump that has handed its payload over and not yet added its length to the byte counter. */
  datatype Pump = Idle | Receiving | Offering(payload: Bytes) | Tallying(payload: Bytes) | Reporting(err: PumpError)
    | Exited(err: PumpError)

  /** `got` and `dropped` are histories: payloads received, and the one given up when the context ended. */
  datatype Port = Port(pump: Pump, errCh: Option<PumpError>, got: seq<Bytes>, dropped: seq<Bytes>)

  const NEW_PORT := Port(Idle, None, [], [])

  datatype PortEvent = Arrived(payload: Bytes) | ArrivedBad | Ended(eof: bool) | OfferAborted | Reported

  function PortStep(p: Port, ev: PortEvent, ctxDone: bool): Option<Port> {
    match ev
    case Arrived(b) =>
      if p.pump.Receiving? then Some(p.(pump := Offering(b), got := p.got + [b])) else None
    case ArrivedBad =>
      if p.pump.Receiving? then Some(p.(pump := Reporting(BadFrame))) else None
    case Ended(eof) =>
      if p.pump.Receiving? then Some(p.(pump := Reporting(if eof then Eof else Broken))) else None
    case OfferAborted =>
      if p.pump.Offering? && ctxDone
      then Some(p.(pump := Reporting(ContextError), dropped := p.dropped + [p.pump.payload])) else None
    case Reported =>
      if p.pump.Reporting? && p.errCh.None?
      then Some(p.(pump := Exited(p.pump.err), errCh := Some(p.pump.err))) else None
  }

  function PumpCode(e: PumpError): Code {
    match e case Eof => Ok case Broken => StreamBroken case BadFrame => InvalidArgument case ContextError => Cancelled
  }

  // ---- RegisterAgent ----

  datatype RegPc = RegStart | RegLoop | RegSending(note: Notification) | RegCleanup(rcode: Code)
    | RegReturned(rcode: Code)

  /** `taken` is a history: the `Connect` calls whose notification this loop received. */
  datatype Reg = Reg(request: RegisterRequest, pc: RegPc, streamDone: bool, taken: seq<nat>, sent: seq<Notification>)

  datatype RegEvent = RegStreamDone | RegContext | RegSendOk | RegSendError

  function RegLocal(g: Reg, ev: RegEvent): Option<Reg> {
    match ev
    case RegStreamDone => Some(g.(streamDone := true))
    case RegContext =>
      if g.pc.RegLoop? && g.streamDone then Some(g.(pc := RegCleanup(Cancelled))) else None
    case RegSendOk =>
      if g.pc.RegSending? then Some(g.(pc := RegLoop, sent := g.sent + [g.pc.note])) else None
    case RegSendError =>
      if g.pc.RegSending? then Some(g.(pc := RegCleanup(StreamBroken))) else None
  }

  // ---- Connect ----

  datatype ConnPc =
    | RecvOpen | Reserving | Counting | Allocating | SendAssigned | RecvHandshake | Inserting
    | Notifying | AwaitReady | SendAccept | Forwarding | SendPayload(payload: Bytes)
    | Deleting(code: Code) | Cancelling(code: Code) | Releasing(code: Code) | Uncounting(code: Code)
    | Returned(code: Code)

  /**
   `recvd` and `sent` are the frames the call has received and sent. `unsent`, `acceptors` and
   `notified` are histories: a payload whose send failed, the `Accept` calls attached to this
   session in order, and whether the agent's loop has taken the notification.
   */
  datatype Conn = Conn(
    pc: ConnPc, streamDone: bool, recvd: seq<ConnectRequest>, sent: seq<ConnectResponse>,
    agent: nat, sid: Bytes, clientHello: Bytes, port: Port,
    unsent: seq<Bytes>, acceptors: seq<nat>, notified: bool)

  const NEW_CONN := Conn(RecvOpen, false, [], [], 0, [], [], NEW_PORT, [], [], false)

  datatype ConnEvent =
    | StreamDone | RecvFrame(frame: ConnectRequest) | RecvError | RandomFailed | SendOk | SendError
    | AgentGone | ContextDone | TimerFired | ReadySeen | PumpEnded
    | PumpFrame(frame: ConnectRequest) | PumpMove(ev: PortEvent)

  /** The call holds a reservation of its agent. */
  predicate Holds(pc: ConnPc) {
    !(pc.RecvOpen? || pc.Reserving? || pc.Uncounting? || pc.Returned?)
  }

  /** The call is counted in the tunnel gauge. */
  predicate Counted(pc: ConnPc) {
    !(pc.RecvOpen? || pc.Reserving? || pc.Counting? || pc.Returned?)
  }

  /** The call's session object exists and has not been cancelled by its own deferred `cancel`. */
  predicate HasSession(pc: ConnPc) {
    Holds(pc) && !(pc.Counting? || pc.Allocating? || pc.Releasing?)
  }

  /** The call is between listing its session and the deferred delete. */
  predicate InMap(pc: ConnPc) {
    pc.Notifying? || pc.AwaitReady? || pc.SendAccept? || pc.Forwarding? || pc.SendPayload? || pc.Deleting?
  }

  /** The session context, a child of the stream context, is done. */
  predicate CtxDone(k: Conn, o: SessionState) {
    k.streamDone || o.cancelled
  }

  function ConnRecv(k: Conn, f: ConnectRequest): Option<Conn> {
    if k.pc.RecvOpen? then
      Some(k.(recvd := k.recvd + [f], pc := if ValidOpen(f) then Reserving else Returned(InvalidArgument)))
    else if k.pc.RecvHandshake? then
      Some(if ValidHandshake(f)
           then k.(recvd := k.recvd + [f], clientHello := f.clientHello, pc := Inserting)
           else k.(recvd := k.recvd + [f], pc := Cancelling(InvalidArgument)))
    else None
  }

  function ConnSendOk(k: Conn, o: SessionState): Option<Conn> {
    match k.pc
    case SendAssigned => Some(k.(pc := RecvHandshake, sent := k.sent + [SessionAssigned(k.sid)]))
    case SendAccept =>
      Some(k.(pc := Forwarding, port := k.port.(pump := Receiving),
              sent := k.sent + [AgentAccepted(PROTOCOL_VERSION, k.sid, o.hello)]))
    case SendPayload(b) => Some(k.(pc := Forwarding, sent := k.sent + [ToClient(b)]))
    case _ => None
  }

  function ConnSendError(k: Conn): Option<Conn> {
    match k.pc
    case SendAssigned => Some(k.(pc := Cancelling(StreamBroken)))
    case SendAccept => Some(k.(pc := Deleting(StreamBroken)))
    case SendPayload(b) => Some(k.(pc := Deleting(StreamBroken), unsent := k.unsent + [b]))
    case _ => None
  }

  function ConnPump(k: Conn, f: ConnectRequest): Option<Conn> {
    var ev := if f.ClientCiphertext? then Arrived(f.payload) else ArrivedBad;
    var p := PortStep(k.port, ev, false);
    if p.Some? then Some(k.(port := p.value, recvd := k.recvd + [f])) else None
  }

  /** One step of a `Connect` call or its pump that leaves the shared state alone. */
  function ConnLocal(k: Conn, o: SessionState, agentDone: bool, ev: ConnEvent): Option<Conn> {
    match ev
    case StreamDone => Some(k.(streamDone := true))
    case RecvFrame(f) => ConnRecv(k, f)
    case RecvError =>
      if k.pc.RecvOpen? then Some(k.(pc := Returned(StreamBroken)))
      else if k.pc.RecvHandshake? then Some(k.(pc := Cancelling(StreamBroken))) else None
    case RandomFailed => if k.pc.Allocating? then Some(k.(pc := Releasing(Internal))) else None
    case SendOk => ConnSendOk(k, o)
    case SendError => ConnSendError(k)
    case AgentGone => if k.pc.Notifying? && agentDone then Some(k.(pc := Deleting(Unavailable))) else None
    case ContextDone =>
      if (k.pc.Notifying? || k.pc.AwaitReady? || k.pc.Forwarding?) && CtxDone(k, o)
      then Some(k.(pc := Deleting(Cancelled))) else None
    case TimerFired =>
      if k.pc.Notifying? || k.pc.AwaitReady? then Some(k.(pc := Deleting(DeadlineExceeded))) else None
    case ReadySeen => if k.pc.AwaitReady? && o.ready then Some(k.(pc := SendAccept)) else None
    case PumpEnded =>
      if k.pc.Forwarding? && k.port.errCh.Some?
      then Some(k.(pc := Deleting(PumpCode(k.port.errCh.value)), port := k.port.(errCh := None))) else None
    case PumpFrame(f) => ConnPump(k, f)
    case PumpMove(pe) =>
      if pe.Arrived? || pe.ArrivedBad? then None
      else var p := PortStep(k.port, pe, CtxDone(k, o)); if p.Some? then Some(k.(port := p.value)) else None
  }

  // ---- Accept ----

  datatype AccPc =
    | RecvAccept | Attaching(sid: Bytes, hello: Bytes) | AccForwarding | AccSending(payload: Bytes)
    | AccCancelling(acode: Code) | AccReturned(acode: Code)

  datatype Acc = Acc(
    pc: AccPc, recvd: seq<AcceptRequest>, sent: seq<Bytes>, session: Option<nat>, port: Port, unsent: seq<Bytes>)

  const NEW_ACC := Acc(RecvAccept, [], [], None, NEW_PORT, [])

  datatype AccEvent =
    | AccFrame(frame: AcceptRequest) | AccRecvError | AccSendOk | AccSendError | AccContext | AccPumpEnded
    | AccPumpFrame(frame: AcceptRequest) | AccPumpMove(ev: PortEvent)

  /** One step of an `Accept` call or its pump that leaves the shared state alone. */
  function AccLocal(a: Acc, ctxDone: bool, ev: AccEvent): Option<Acc> {
    match ev
    case AccFrame(f) =>
      if !a.pc.RecvAccept? then None
      else Some(a.(recvd := a.recvd + [f],
                   pc := if ValidAccept(f) then Attaching(f.sessionId, f.agentHello) else AccReturned(InvalidArgument)))
    case AccRecvError => if a.pc.RecvAccept? then Some(a.(pc := AccReturned(StreamBroken))) else None
    case AccSendOk => if a.pc.AccSending? then Some(a.(pc := AccForwarding, sent := a.sent + [a.pc.payload])) else None
    case AccSendError =>
      if a.pc.AccSending?
      then Some(a.(pc := AccCancelling(StreamBroken), unsent := a.unsent + [a.pc.payload])) else None
    case AccContext => if a.pc.AccForwarding? && ctxDone then Some(a.(pc := AccCancelling(Ok))) else None
    case AccPumpEnded =>
      if a.pc.AccForwarding? && a.port.errCh.Some?
      then Some(a.(pc := AccCancelling(PumpCode(a.port.errCh.value)), port := a.port.(errCh := None))) else None
    case AccPumpFrame(f) =>
      var p := PortStep(a.port, if f.AgentCiphertext? then Arrived(f.payload) else ArrivedBad, false);
      if p.Some? then Some(a.(port := p.value, recvd := a.recvd + [f])) else None
    case AccPumpMove(pe) =>
      if pe.Arrived? || pe.ArrivedBad? then None
      else var p := PortStep(a.port, pe, ctxDone); if p.Some? then Some(a.(port := p.value)) else None
  }
}
