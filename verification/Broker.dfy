/**
 The relay as a transition system: any number of concurrent `RegisterAgent`, `Connect` and `Accept`
 calls. One action is one locked region, one channel rendezvous, one stream send or receive, one
 `select` exit, or one deferred cleanup.
 */
module Broker {
  import opened Base
  import opened Messages
  import opened RelayShared
  import opened RelayHandlers

  /** A payload handed over a channel: from or to `Connect` call `conn`, to or from `Accept` call `acc`. */
  datatype Hand = Hand(conn: nat, acc: nat, payload: Bytes)

  datatype State = State(
    sh: Shared,
    regs: map<nat, Reg>,
    conns: map<nat, Conn>,
    accs: map<nat, Acc>,
    toAgent: seq<Hand>,       // history of hand-overs on clientToAgent channels
    toClient: seq<Hand>,      // history of hand-overs on agentToClient channels
    bytesToAgent: nat,        // the relayed-bytes counters
    bytesToClient: nat)

  const INITIAL := State(NO_HANDLERS, map[], map[], map[], [], [], 0, 0)

  datatype Action =
    | NewRegister(r: nat, request: RegisterRequest) | Register(r: nat) | RegStep(r: nat, rev: RegEvent)
      | Cleanup(r: nat)
    | NewConnect(c: nat) | ConnStep(c: nat, cev: ConnEvent)
    | Reserve(c: nat) | Count(c: nat) | Allocate(c: nat, sid: Bytes) | Insert(c: nat) | Notify(c: nat)
    | Delete(c: nat) | CancelConn(c: nat) | Release(c: nat) | Uncount(c: nat)
    | NewAccept(x: nat) | AccStep(x: nat, aev: AccEvent) | Attach(x: nat) | CancelAcc(x: nat)
    | HandToAgent(c: nat, x: nat) | HandToClient(c: nat, x: nat) | TallyToAgent(c: nat) | TallyToClient(x: nat)

  /** The steps of a `Connect` call that touch shared state. */
  predicate SharedConn(act: Action) {
    || act.Reserve? || act.Count? || act.Allocate? || act.Insert? || act.Notify?
    || act.Delete? || act.CancelConn? || act.Release? || act.Uncount?
  }

  const NO_SESSION := SessionState([], 0, false, false, [])

  /** The session object a `Connect` call consults; before allocation no event looks at it. */
  function SessionOf(s: State, c: nat): SessionState {
    if c in s.sh.sessionObjs then s.sh.sessionObjs[c] else NO_SESSION
  }

  predicate AgentDone(s: State, a: nat) {
    a in s.sh.agentObjs && s.sh.agentObjs[a].done
  }

  /** The context of session `c`, as seen by an `Accept` call attached to it. */
  predicate SessionDone(s: State, c: nat) {
    && c in s.conns && CtxDone(s.conns[c], SessionOf(s, c))
  }

  function Note(k: Conn): Notification {
    Notification(PROTOCOL_VERSION, k.sid, k.clientHello)
  }

  function StepRegister(cfg: Config, s: State, r: nat): Option<State> {
    if r !in s.regs || !s.regs[r].pc.RegStart? || r in s.sh.agentObjs then None else
    var g := s.regs[r];
    if g.request.version != PROTOCOL_VERSION
      then Some(s.(regs := s.regs[r := g.(pc := RegReturned(FailedPrecondition))]))
    else if |g.request.routeId| != ROUTE_ID_SIZE
      then Some(s.(regs := s.regs[r := g.(pc := RegReturned(InvalidArgument))]))
    else
      var (sh, code) := RegisterRegion(cfg, s.sh, r, g.request.routeId);
      Some(s.(sh := sh, regs := s.regs[r := g.(pc := if code == Ok then RegLoop else RegReturned(code))]))
  }

  function StepReg(s: State, r: nat, ev: RegEvent): Option<State> {
    if r !in s.regs then None else
    var g := RegLocal(s.regs[r], ev);
    if g.Some? then Some(s.(regs := s.regs[r := g.value])) else None
  }

  function StepCleanup(s: State, r: nat): Option<State> {
    if r !in s.regs || !s.regs[r].pc.RegCleanup? || r !in s.sh.agentObjs then None else
    Some(s.(sh := CleanupRegion(s.sh, r), regs := s.regs[r := s.regs[r].(pc := RegReturned(s.regs[r].pc.rcode))]))
  }

  function StepConn(s: State, c: nat, ev: ConnEvent): Option<State> {
    if c !in s.conns then None else
    var k := ConnLocal(s.conns[c], SessionOf(s, c), AgentDone(s, s.conns[c].agent), ev);
    if k.Some? then Some(s.(conns := s.conns[c := k.value])) else None
  }

  function StepReserve(cfg: Config, s: State, c: nat): Option<State> {
    if c !in s.conns || !s.conns[c].pc.Reserving? || |s.conns[c].recvd| == 0 || !ValidOpen(s.conns[c].recvd[0])
      then None else
    var k := s.conns[c];
    var (sh, a, code) := ReserveRegion(cfg, s.sh, k.recvd[0].routeId);
    Some(s.(sh := sh,
            conns := s.conns[c := if a.Some? then k.(pc := Counting, agent := a.value) else k.(pc := Returned(code))]))
  }

  function StepCount(s: State, c: nat): Option<State> {
    if c !in s.conns || !s.conns[c].pc.Counting? then None else
    Some(s.(sh := s.sh.(tunnelGauge := s.sh.tunnelGauge + 1), conns := s.conns[c := s.conns[c].(pc := Allocating)]))
  }

  /** Session identifiers are 16 random bytes; collisions are left out of the model. */
  predicate FreshSid(s: State, sid: Bytes) {
    |sid| == SESSION_ID_SIZE && forall c :: c in s.sh.sessionObjs ==> s.sh.sessionObjs[c].sid != sid
  }

  function StepAllocate(s: State, c: nat, sid: Bytes): Option<State> {
    if c !in s.conns || !s.conns[c].pc.Allocating? || !FreshSid(s, sid) then None else
    var k := s.conns[c];
    Some(s.(sh := s.sh.(sessionObjs := s.sh.sessionObjs[c := SessionState(sid, k.agent, false, false, [])]),
            conns := s.conns[c := k.(pc := SendAssigned, sid := sid)]))
  }

  function StepInsert(s: State, c: nat): Option<State> {
    if c !in s.conns || !s.conns[c].pc.Inserting? || c !in s.sh.sessionObjs then None else
    Some(s.(sh := InsertRegion(s.sh, c), conns := s.conns[c := s.conns[c].(pc := Notifying)]))
  }

  /** The rendezvous on `a.incoming`: the agent's loop must be at its own `select`. */
  function StepNotify(s: State, c: nat): Option<State> {
    if c !in s.conns || !s.conns[c].pc.Notifying? || s.conns[c].agent !in s.regs
      || !s.regs[s.conns[c].agent].pc.RegLoop? then None else
    var k := s.conns[c];
    var g := s.regs[k.agent];
    Some(s.(regs := s.regs[k.agent := g.(pc := RegSending(Note(k)), taken := g.taken + [c])],
            conns := s.conns[c := k.(pc := AwaitReady, notified := true)]))
  }

  function StepDelete(s: State, c: nat): Option<State> {
    if c !in s.conns || !s.conns[c].pc.Deleting? || c !in s.sh.sessionObjs then None else
    Some(s.(sh := DeleteRegion(s.sh, c), conns := s.conns[c := s.conns[c].(pc := Cancelling(s.conns[c].pc.code))]))
  }

  function StepCancelConn(s: State, c: nat): Option<State> {
    if c !in s.conns || !s.conns[c].pc.Cancelling? || c !in s.sh.sessionObjs then None else
    Some(s.(sh := CancelSession(s.sh, c), conns := s.conns[c := s.conns[c].(pc := Releasing(s.conns[c].pc.code))]))
  }

  function StepRelease(s: State, c: nat): Option<State> {
    if c !in s.conns || !s.conns[c].pc.Releasing? || s.conns[c].agent !in s.sh.agentObjs then None else
    Some(s.(sh := ReleaseRegion(s.sh, s.conns[c].agent),
            conns := s.conns[c := s.conns[c].(pc := Uncounting(s.conns[c].pc.code))]))
  }

  function StepUncount(s: State, c: nat): Option<State> {
    if c !in s.conns || !s.conns[c].pc.Uncounting? then None else
    Some(s.(sh := s.sh.(tunnelGauge := s.sh.tunnelGauge - 1),
            conns := s.conns[c := s.conns[c].(pc := Returned(s.conns[c].pc.code))]))
  }

  function StepAcc(s: State, x: nat, ev: AccEvent): Option<State> {
    if x !in s.accs then None else
    var done := s.accs[x].session.Some? && SessionDone(s, s.accs[x].session.value);
    var a := AccLocal(s.accs[x], done, ev);
    if a.Some? then Some(s.(accs := s.accs[x := a.value])) else None
  }

  function StepAttach(s: State, x: nat): Option<State> {
    if x !in s.accs || !s.accs[x].pc.Attaching? then None else
    var a := s.accs[x];
    var (sh, c) := AttachRegion(s.sh, a.pc.sid, a.pc.hello);
    if c.None? || c.value !in s.conns then Some(s.(accs := s.accs[x := a.(pc := AccReturned(NotFound))]))
    else
      var k := s.conns[c.value];
      Some(s.(sh := sh,
              accs := s.accs[x := a.(pc := AccForwarding, session := c, port := a.port.(pump := Receiving))],
              conns := s.conns[c.value := k.(acceptors := k.acceptors + [x])]))
  }

  function StepCancelAcc(s: State, x: nat): Option<State> {
    if x !in s.accs || !s.accs[x].pc.AccCancelling? || s.accs[x].session.None?
      || s.accs[x].session.value !in s.sh.sessionObjs
    then None else
    Some(s.(sh := CancelSession(s.sh, s.accs[x].session.value),
            accs := s.accs[x := s.accs[x].(pc := AccReturned(s.accs[x].pc.acode))]))
  }

  /** The rendezvous on `clientToAgent`: the pump of `c` with an attached `Accept` loop. */
  function StepHandToAgent(s: State, c: nat, x: nat): Option<State> {
    if c !in s.conns || !s.conns[c].port.pump.Offering? || x !in s.accs || !s.accs[x].pc.AccForwarding?
      || s.accs[x].session != Some(c)
    then None else
    var k := s.conns[c];
    var b := k.port.pump.payload;
    Some(s.(conns := s.conns[c := k.(port := k.port.(pump := Tallying(b)))],
            accs := s.accs[x := s.accs[x].(pc := AccSending(b))],
            toAgent := s.toAgent + [Hand(c, x, b)]))
  }

  /** The rendezvous on `agentToClient`: the pump of an attached `Accept` call with the `Connect` loop. */
  function StepHandToClient(s: State, c: nat, x: nat): Option<State> {
    if c !in s.conns || !s.conns[c].pc.Forwarding? || x !in s.accs || !s.accs[x].port.pump.Offering?
      || s.accs[x].session != Some(c)
    then None else
    var a := s.accs[x];
    var b := a.port.pump.payload;
    Some(s.(conns := s.conns[c := s.conns[c].(pc := SendPayload(b))],
            accs := s.accs[x := a.(port := a.port.(pump := Tallying(b)))],
            toClient := s.toClient + [Hand(c, x, b)]))
  }

  /** `recvClient` after the rendezvous: count the payload, then receive again. */
  function StepTallyToAgent(s: State, c: nat): Option<State> {
    if c !in s.conns || !s.conns[c].port.pump.Tallying? then None else
    var k := s.conns[c];
    Some(s.(conns := s.conns[c := k.(port := k.port.(pump := Receiving))],
      bytesToAgent := s.bytesToAgent + |k.port.pump.payload|))
  }

  /** The same in `recvAgent`. */
  function StepTallyToClient(s: State, x: nat): Option<State> {
    if x !in s.accs || !s.accs[x].port.pump.Tallying? then None else
    var a := s.accs[x];
    Some(s.(accs := s.accs[x := a.(port := a.port.(pump := Receiving))],
      bytesToClient := s.bytesToClient + |a.port.pump.payload|))
  }

  /** The state after an action, or `None` when the action is not enabled. */
  function Step(cfg: Config, s: State, act: Action): Option<State> {
    match act
    case NewRegister(r, req) =>
      if r in s.regs then None else Some(s.(regs := s.regs[r := Reg(req, RegStart, false, [], [])]))
    case Register(r) => StepRegister(cfg, s, r)
    case RegStep(r, ev) => StepReg(s, r, ev)
    case Cleanup(r) => StepCleanup(s, r)
    case NewConnect(c) => if c in s.conns then None else Some(s.(conns := s.conns[c := NEW_CONN]))
    case ConnStep(c, ev) => StepConn(s, c, ev)
    case Reserve(c) => StepReserve(cfg, s, c)
    case Count(c) => StepCount(s, c)
    case Allocate(c, sid) => StepAllocate(s, c, sid)
    case Insert(c) => StepInsert(s, c)
    case Notify(c) => StepNotify(s, c)
    case Delete(c) => StepDelete(s, c)
    case CancelConn(c) => StepCancelConn(s, c)
    case Release(c) => StepRelease(s, c)
    case Uncount(c) => StepUncount(s, c)
    case NewAccept(x) => if x in s.accs then None else Some(s.(accs := s.accs[x := NEW_ACC]))
    case AccStep(x, ev) => StepAcc(s, x, ev)
    case Attach(x) => StepAttach(s, x)
    case CancelAcc(x) => StepCancelAcc(s, x)
    case HandToAgent(c, x) => StepHandToAgent(s, c, x)
    case HandToClient(c, x) => StepHandToClient(s, c, x)
    case TallyToAgent(c) => StepTallyToAgent(s, c)
    case TallyToClient(x) => StepTallyToClient(s, x)
  }

  /** The state a sequence of actions leads to, if all of them are enabled in turn. */
  function Run(cfg: Config, s: State, acts: seq<Action>): Option<State> {
    if acts == [] then Some(s)
    else
      var t := Run(cfg, s, acts[..|acts| - 1]);
      if t.None? then None else Step(cfg, t.value, acts[|acts| - 1])
  }

  ghost predicate Reachable(cfg: Config, s: State) {
    exists acts :: Run(cfg, INITIAL, acts) == Some(s)
  }
}
