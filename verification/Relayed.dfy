/**
 Two bridges whose streams are the relay itself: a client at `Connect` call `c` and an agent at the one
 `Accept` call `x` attached to it, on a relay that serves any number of other calls. The relay ends the
 session as soon as one end has closed its stream; nothing fails from outside. The agent's end runs from
 the moment it answered, possibly before the relay has attached it; the client's end from the acceptance.
 */
module Relayed {
  import opened Base
  import opened Messages
  import opened RelayShared
  import opened RelayHandlers
  import opened Broker
  import opened BrokerInvariants
  import opened BrokerSafety
  import opened BrokerTheorems
  import opened BrokerFlow
  import opened BrokerFlowSafety
  import opened BrokerFlowTheorems
  import opened Noise
  import opened PlainFrames
  import B = Bridge
  import P = Progress

  /** Ciphertexts as bytes on the wire. */
  datatype Coding = Coding(encode: Ciphertext -> Bytes, decode: Bytes -> Ciphertext)

  ghost predicate Exact(wire: Coding) {
    forall ct :: wire.decode(wire.encode(ct)) == ct
  }

  function Encoded(wire: Coding, cts: seq<Ciphertext>): (bs: seq<Bytes>)
    ensures |bs| == |cts| && forall i :: 0 <= i < |cts| ==> bs[i] == wire.encode(cts[i])
  {
    seq(|cts|, i requires 0 <= i < |cts| => wire.encode(cts[i]))
  }

  /** The tunnel's two call numbers. */
  datatype Ids = Ids(c: nat, x: nat)

  datatype Tunnel = Tunnel(relay: State, l: B.Endpoint, r: B.Endpoint)

  datatype Move = Left(ev: B.Event) | Right(ev: B.Event) | Relay(act: Action)

  /**
   What an endpoint can see of its stream: `sent` is what the relay has sent it, `over` whether the relay's
   handler has returned, `clean` whether it returned without error.
   */
  predicate EndSees(wire: Coding, e: B.Endpoint, sent: seq<Bytes>, over: bool, clean: bool, ev: B.Event) {
    match ev
    case ReadTcp(_, status) => status.ReadFailed? ==> e.fl.connClosed
    case SendFail => e.fl.streamClosed || over
    case Receive(ct) => e.rcv.rx.n < |sent| && ct == wire.decode(sent[e.rcv.rx.n])
    case ReceiveEnd(eof) => over && e.rcv.rx.n == |sent| && eof == clean
    case WriteFail(_) => e.fl.connClosed
    case Cancel => false
    case _ => true
  }

  /** What the pump of a handler can receive: the peer's frames in order, then its end of stream. */
  predicate PumpSees(got: seq<Bytes>, sent: seq<Bytes>, closed: bool, over: bool, payload: Option<Bytes>,
    end: Option<bool>) {
    && (payload.Some? ==> |got| < |sent| && payload.value == sent[|got|])
    && (end.Some? ==> if end.value then closed && |got| == |sent| else over)
  }

  predicate ConnSees(wire: Coding, k: Conn, l: B.Endpoint, ev: ConnEvent) {
    match ev
    case StreamDone => k.pc.Returned?
    case SendError => false
    case TimerFired => false
    case PumpFrame(f) =>
      f.ClientCiphertext?
        && PumpSees(k.port.got, Encoded(wire, l.snd.sent), l.fl.streamClosed, k.pc.Returned?, Some(f.payload), None)
    case PumpMove(pe) =>
      pe.Ended? ==> PumpSees(k.port.got, Encoded(wire, l.snd.sent), l.fl.streamClosed, k.pc.Returned?, None,
        Some(pe.eof))
    case _ => true
  }

  predicate AccSees(wire: Coding, a: Acc, r: B.Endpoint, ev: AccEvent) {
    match ev
    case AccSendError => false
    case AccPumpFrame(f) =>
      f.AgentCiphertext?
        && PumpSees(a.port.got, Encoded(wire, r.snd.sent), r.fl.streamClosed, a.pc.AccReturned?, Some(f.payload), None)
    case AccPumpMove(pe) =>
      pe.Ended? ==> PumpSees(a.port.got, Encoded(wire, r.snd.sent), r.fl.streamClosed, a.pc.AccReturned?, None,
        Some(pe.eof))
    case _ => true
  }

  /** `Accept` call `y` is about to find session `c`. */
  predicate Finds(s: State, y: nat, c: nat) {
    y in s.accs && s.accs[y].pc.Attaching? && s.accs[y].pc.sid in s.sh.sessions && s.sh.sessions[s.accs[y].pc.sid] == c
  }

  /** The call has not yet sent the acceptance, so its client has not started its bridge. */
  predicate Early(pc: ConnPc) {
    pc.AwaitReady? || pc.SendAccept?
  }

  /** The agent stays registered, no other `Accept` call finds the session, and the streams are these endpoints'. */
  predicate RelaySees(wire: Coding, ids: Ids, t: Tunnel, act: Action)
    requires ids.c in t.relay.conns && ids.x in t.relay.accs
  {
    match act
    case ConnStep(c, ev) => c == ids.c ==> ConnSees(wire, t.relay.conns[c], t.l, ev)
    case AccStep(x, ev) => x == ids.x ==> AccSees(wire, t.relay.accs[x], t.r, ev)
    case Cleanup(r) => r != t.relay.conns[ids.c].agent
    case Attach(y) => !Finds(t.relay, y, ids.c)
    case _ => true
  }

  function ClientSent(k: Conn): seq<Bytes> {
    Delivered(k.sent)
  }

  function Next(cfg: Config, wire: Coding, ids: Ids, t: Tunnel, m: Move): Option<Tunnel> {
    if ids.c !in t.relay.conns || ids.x !in t.relay.accs then None else
    var k, a := t.relay.conns[ids.c], t.relay.accs[ids.x];
    match m
    case Left(ev) =>
      if Early(k.pc) || !EndSees(wire, t.l, ClientSent(k), k.pc.Returned?, k.pc.Returned? && k.pc.code == Ok, ev)
        then None else
      var e := B.Step(t.l, ev);
      if e.None? then None else Some(t.(l := e.value))
    case Right(ev) =>
      if !EndSees(wire, t.r, a.sent, a.pc.AccReturned?, a.pc.AccReturned? && a.pc.acode == Ok, ev) then None else
      var e := B.Step(t.r, ev);
      if e.None? then None else Some(t.(r := e.value))
    case Relay(act) =>
      if !RelaySees(wire, ids, t, act) then None else
      var s := Step(cfg, t.relay, act);
      if s.None? then None else Some(t.(relay := s.value))
  }

  function Run(cfg: Config, wire: Coding, ids: Ids, t: Tunnel, ms: seq<Move>): Option<Tunnel> {
    if ms == [] then Some(t) else
    var u := Run(cfg, wire, ids, t, ms[..|ms| - 1]);
    if u.None? then None else Next(cfg, wire, ids, u.value, ms[|ms| - 1])
  }

  const STARTED := NEW_PORT.(pump := Receiving)

  /** Only call `x` is attached to session `c`. */
  ghost predicate Sole(s: State, ids: Ids) {
    && ids.x in s.accs && s.accs[ids.x].session == Some(ids.c)
    && forall y :: y in s.accs && s.accs[y].session == Some(ids.c) ==> y == ids.x
  }

  /** Two ends of one handshake: the left one has just called `Bridge`, the right one may have run on its own. */
  ghost predicate Ahead(l: B.Endpoint, r: B.Endpoint) {
    exists start: P.Pair, moves :: P.Fresh(start) && start.l == l && P.Run(start, moves) == Some(P.Pair(l, r))
  }

  /** The relay has just attached the agent's call: nothing was received from it, and the acceptance is not sent. */
  ghost predicate Fresh(cfg: Config, ids: Ids, t: Tunnel) {
    && Reachable(cfg, t.relay) && ids.c in t.relay.conns && Sole(t.relay, ids)
    && var k, a := t.relay.conns[ids.c], t.relay.accs[ids.x];
    && k.pc.AwaitReady? && !k.streamDone && !SessionOf(t.relay, ids.c).cancelled
    && a.pc.AccForwarding? && a.port == STARTED && a.unsent == []
    && Ahead(t.l, t.r)
  }

  // ---- The invariant ----

  predicate PumpHas(p: Pump, e: PumpError) {
    p == Reporting(e) || p == Exited(e)
  }

  /** The session is being torn down. */
  predicate Trouble(k: Conn, a: Acc, cancelled: bool) {
    Unwinding(k.pc) || cancelled || a.pc.AccCancelling? || a.pc.AccReturned?
  }

  /** A handler's pump: what it received is what its peer sent first; why it stopped. */
  predicate PumpOk(p: Port, sent: seq<Bytes>, closed: bool, over: bool, trouble: bool) {
    && !p.pump.Idle? && p.got <= sent
    && !PumpHas(p.pump, BadFrame)
    && (PumpHas(p.pump, Broken) ==> over)
    && (PumpHas(p.pump, ContextError) ==> trouble)
    && (PumpHas(p.pump, Eof) ==> closed && |p.got| == |sent|)
  }

  predicate ClientSide(wire: Coding, k: Conn, l: B.Endpoint, trouble: bool) {
    && (Early(k.pc) || k.pc.Forwarding? || k.pc.SendPayload? || Unwinding(k.pc))
    && k.unsent == [] && (k.streamDone ==> k.pc.Returned?)
    && (if Early(k.pc) then k.port == NEW_PORT && l.snd.sent == [] && !l.snd.eof
        else PumpOk(k.port, Encoded(wire, l.snd.sent), l.fl.streamClosed, k.pc.Returned?, trouble))
  }

  predicate AgentSide(wire: Coding, a: Acc, r: B.Endpoint, trouble: bool) {
    && (a.pc.AccForwarding? || a.pc.AccSending? || a.pc.AccCancelling? || a.pc.AccReturned?)
    && a.unsent == []
    && PumpOk(a.port, Encoded(wire, r.snd.sent), r.fl.streamClosed, a.pc.AccReturned?, trouble)
  }

  /** The whole tunnel: teardown begins only when one end has closed its stream and all it sent was received. */
  ghost predicate TunnelOk(cfg: Config, wire: Coding, ids: Ids, t: Tunnel) {
    && Reachable(cfg, t.relay) && ids.c in t.relay.conns && ids.c in t.relay.sh.sessionObjs && Sole(t.relay, ids)
    && var k, a := t.relay.conns[ids.c], t.relay.accs[ids.x];
    && var trouble := Trouble(k, a, t.relay.sh.sessionObjs[ids.c].cancelled);
    && ClientSide(wire, k, t.l, trouble) && AgentSide(wire, a, t.r, trouble)
    && (trouble ==> PumpHas(k.port.pump, Eof) || PumpHas(a.port.pump, Eof))
    && P.PairOk(P.Pair(t.l, t.r))
  }

  // ---- Steps of the relay, on the records of this tunnel ----

  lemma PumpStepOk(p: Port, ev: PortEvent, ctxDone: bool, sent: seq<Bytes>, closed: bool, over: bool, trouble: bool)
    requires PumpOk(p, sent, closed, over, trouble) && PortStep(p, ev, ctxDone).Some? && (ctxDone ==> trouble)
    requires !ev.ArrivedBad?
    requires PumpSees(p.got, sent, closed, over, if ev.Arrived? then Some(ev.payload) else None,
      if ev.Ended? then Some(ev.eof) else None)
    ensures PumpOk(PortStep(p, ev, ctxDone).value, sent, closed, over, trouble)
    ensures PumpHas(p.pump, Eof) ==> PumpHas(PortStep(p, ev, ctxDone).value.pump, Eof)
  {
  }

  /** One local step of the `Connect` call. Before there is trouble it can only begin because its pump saw the end. */
  lemma ConnLocalOk(wire: Coding, k: Conn, l: B.Endpoint, o: SessionState, agentDone: bool, ev: ConnEvent,
    trouble: bool, handed: seq<Bytes>)
    requires ClientSide(wire, k, l, trouble) && ConnSees(wire, k, l, ev) && ConnLocal(k, o, agentDone, ev).Some?
    requires PortOk(k.port, handed)
    requires (o.cancelled ==> trouble) && (Unwinding(k.pc) ==> trouble) && (Early(k.pc) ==> !trouble)
    ensures var m := ConnLocal(k, o, agentDone, ev).value;
      && ClientSide(wire, m, l, trouble)
      && (PumpHas(k.port.pump, Eof) ==> PumpHas(m.port.pump, Eof))
      && (!trouble && Unwinding(m.pc) ==> PumpHas(m.port.pump, Eof))
      && (Unwinding(k.pc) ==> Unwinding(m.pc))
  {
    hide Encoded;
    if ev.PumpFrame? {
      PumpStepOk(k.port, Arrived(ev.frame.payload), false, Encoded(wire, l.snd.sent), l.fl.streamClosed, k.pc.Returned?,
        trouble);
    } else if ev.PumpMove? {
      PumpStepOk(k.port, ev.ev, CtxDone(k, o), Encoded(wire, l.snd.sent), l.fl.streamClosed, k.pc.Returned?, trouble);
    }
  }

  lemma AccLocalOk(wire: Coding, a: Acc, r: B.Endpoint, ctxDone: bool, ev: AccEvent, trouble: bool, handed: seq<Bytes>)
    requires AgentSide(wire, a, r, trouble) && AccSees(wire, a, r, ev) && AccLocal(a, ctxDone, ev).Some?
    requires PortOk(a.port, handed)
    requires (ctxDone ==> trouble) && (a.pc.AccCancelling? || a.pc.AccReturned? ==> trouble)
    ensures var b := AccLocal(a, ctxDone, ev).value;
      && AgentSide(wire, b, r, trouble)
      && (PumpHas(a.port.pump, Eof) ==> PumpHas(b.port.pump, Eof))
      && (!trouble && (b.pc.AccCancelling? || b.pc.AccReturned?) ==> PumpHas(b.port.pump, Eof))
      && (a.pc.AccCancelling? || a.pc.AccReturned? ==> b.pc.AccCancelling? || b.pc.AccReturned?)
  {
    hide Encoded;
    if ev.AccPumpFrame? {
      PumpStepOk(a.port, Arrived(ev.frame.payload), false, Encoded(wire, r.snd.sent), r.fl.streamClosed,
        a.pc.AccReturned?, trouble);
    } else if ev.AccPumpMove? {
      PumpStepOk(a.port, ev.ev, ctxDone, Encoded(wire, r.snd.sent), r.fl.streamClosed, a.pc.AccReturned?, trouble);
    }
  }

  /** Past the handshake a call's shared steps are its deferred ones. */
  lemma SharedUnwinds(cfg: Config, s: State, act: Action)
    requires SharedConn(act) && Step(cfg, s, act).Some? && act.c in s.conns
    requires var pc := s.conns[act.c].pc; Early(pc) || pc.Forwarding? || pc.SendPayload? || Unwinding(pc)
    ensures var t := Step(cfg, s, act).value;
      && act.c in t.conns
      && var pc, qc := s.conns[act.c].pc, t.conns[act.c].pc;
      && t.conns[act.c] == s.conns[act.c].(pc := qc) && Unwinding(pc) && !pc.Returned? && Unwinding(qc)
      && (qc.Releasing? || qc.Uncounting? || qc.Returned? ==>
            || pc.Releasing? || pc.Uncounting?
            || (act.c in t.sh.sessionObjs && t.sh.sessionObjs[act.c].cancelled))
  {
    if act.Delete? || act.CancelConn? || act.Release? || act.Uncount? {
      hide ReleaseRegion, DeleteRegion, StepRegister, StepReg, StepCleanup, StepConn, StepReserve, StepCount,
        StepAllocate, StepInsert, StepNotify, StepAcc, StepAttach, StepCancelAcc, StepHandToAgent, StepHandToClient,
        StepTallyToAgent, StepTallyToClient;
    } else {
      assert false;
    }
  }

  lemma ConnSharedOk(cfg: Config, wire: Coding, s: State, act: Action, c: nat, l: B.Endpoint, trouble: bool)
    requires c in s.conns && ClientSide(wire, s.conns[c], l, trouble) && Step(cfg, s, act).Some?
    requires (Unwinding(s.conns[c].pc) ==> trouble)
    requires SharedConn(act)
    ensures var t := Step(cfg, s, act).value;
      && c in t.conns && ClientSide(wire, t.conns[c], l, trouble)
      && (PumpHas(s.conns[c].port.pump, Eof) ==> PumpHas(t.conns[c].port.pump, Eof))
      && (!trouble ==> !Unwinding(t.conns[c].pc))
      && (Unwinding(s.conns[c].pc) ==> Unwinding(t.conns[c].pc))
  {
    hide Step, PumpHas, PumpOk, Encoded;
    SharedTouchesOne(cfg, s, act);
    if act.c == c {
      SharedUnwinds(cfg, s, act);
      OverOk(s.conns[c].port, Encoded(wire, l.snd.sent), l.fl.streamClosed, s.conns[c].pc.Returned?, trouble);
    }
  }

  lemma OverOk(p: Port, sent: seq<Bytes>, closed: bool, over: bool, trouble: bool)
    requires PumpOk(p, sent, closed, over, trouble)
    ensures PumpOk(p, sent, closed, true, true)
    ensures PumpOk(p, sent, closed, true, trouble)
  {
  }

  lemma ConnOtherOk(cfg: Config, wire: Coding, s: State, act: Action, c: nat, l: B.Endpoint, trouble: bool)
    requires c in s.conns && ClientSide(wire, s.conns[c], l, trouble) && Step(cfg, s, act).Some?
    requires (Unwinding(s.conns[c].pc) ==> trouble)
    requires !(act.ConnStep? && act.c == c) && !(act.Attach? && Finds(s, act.x, c))
    ensures var t := Step(cfg, s, act).value;
      && c in t.conns && ClientSide(wire, t.conns[c], l, trouble)
      && (PumpHas(s.conns[c].port.pump, Eof) ==> PumpHas(t.conns[c].port.pump, Eof))
      && (!trouble ==> !Unwinding(t.conns[c].pc))
      && (Unwinding(s.conns[c].pc) ==> Unwinding(t.conns[c].pc))
  {
    if SharedConn(act) {
      hide Step, ClientSide;
      ConnSharedOk(cfg, wire, s, act, c, l, trouble);
    } else if (act.HandToAgent? || act.HandToClient? || act.TallyToAgent?) && act.c == c {
      hide Encoded;
    } else {
      hide Step, ClientSide;
      ConnUntouched(cfg, s, act, c);
    }
  }

  lemma ConnUntouched(cfg: Config, s: State, act: Action, c: nat)
    requires c in s.conns && Step(cfg, s, act).Some? && !SharedConn(act)
    requires !(act.ConnStep? && act.c == c) && !(act.Attach? && Finds(s, act.x, c))
    requires !((act.HandToAgent? || act.HandToClient? || act.TallyToAgent?) && act.c == c)
    ensures c in Step(cfg, s, act).value.conns && Step(cfg, s, act).value.conns[c] == s.conns[c]
  {
    hide ConnLocal, AccLocal, RegLocal, RegisterRegion, CleanupRegion, CancelSession, StepReserve, StepCount,
      StepAllocate, StepInsert, StepNotify, StepDelete, StepCancelConn, StepRelease, StepUncount;
  }

  lemma AccOtherOk(cfg: Config, wire: Coding, s: State, act: Action, x: nat, r: B.Endpoint, trouble: bool)
    requires x in s.accs && AgentSide(wire, s.accs[x], r, trouble) && Step(cfg, s, act).Some?
    requires s.accs[x].pc.AccCancelling? || s.accs[x].pc.AccReturned? ==> trouble
    requires !(act.AccStep? && act.x == x)
    ensures var t := Step(cfg, s, act).value;
      && x in t.accs && AgentSide(wire, t.accs[x], r, trouble) && t.accs[x].session == s.accs[x].session
      && (PumpHas(s.accs[x].port.pump, Eof) ==> PumpHas(t.accs[x].port.pump, Eof))
      && (!trouble ==> !t.accs[x].pc.AccCancelling? && !t.accs[x].pc.AccReturned?)
      && (s.accs[x].pc.AccCancelling? || s.accs[x].pc.AccReturned? ==>
        t.accs[x].pc.AccCancelling? || t.accs[x].pc.AccReturned?)
  {
    if TouchesAcc(act, x) {
      hide AttachRegion, CancelSession, Encoded;
    } else {
      hide Step, AgentSide;
      AccUntouched(cfg, s, act, x);
    }
  }

  /** Steps of others that change an `Accept` call, and its own that touch shared state. */
  predicate TouchesAcc(act: Action, x: nat) {
    (act.Attach? || act.CancelAcc? || act.HandToAgent? || act.HandToClient? || act.TallyToClient?) && act.x == x
  }

  lemma AccUntouched(cfg: Config, s: State, act: Action, x: nat)
    requires x in s.accs && Step(cfg, s, act).Some? && !TouchesAcc(act, x) && !(act.AccStep? && act.x == x)
    ensures x in Step(cfg, s, act).value.accs && Step(cfg, s, act).value.accs[x] == s.accs[x]
  {
    hide ConnLocal, AccLocal, RegLocal, RegisterRegion, CleanupRegion, ReserveRegion, AttachRegion, ReleaseRegion,
      InsertRegion, DeleteRegion, CancelSession, FreshSid, ValidOpen, Note;
  }

  /**
   A step cancels a session if and only if it is its own call's or an attached call's deferred `cancel`, or the
   clean-up of its agent while it is listed; no step takes that back.
   */
  lemma CancelCause(cfg: Config, s: State, act: Action, c: nat)
    requires Inv(cfg, s) && Step(cfg, s, act).Some? && c in s.conns && c in s.sh.sessionObjs
    ensures var t := Step(cfg, s, act).value;
      && c in t.sh.sessionObjs
      && (t.sh.sessionObjs[c].cancelled <==>
            || s.sh.sessionObjs[c].cancelled
            || (act == CancelConn(c) && s.conns[c].pc.Cancelling?)
            || (act.CancelAcc? && act.x in s.accs && s.accs[act.x].session == Some(c)
              && s.accs[act.x].pc.AccCancelling?)
            || (act.Cleanup? && act.r == s.conns[c].agent && InMap(s.conns[c].pc)))
  {
    hide Inv, Step, InMap, Listed;
    ListedIffInMap(cfg, s, c);
    if act.Cleanup? { CleanupCancels(cfg, s, act.r, c); }
    else if act.Allocate? || act.CancelConn? || act.Attach? || act.CancelAcc? { OneSession(cfg, s, act, c); }
    else { SessionObjsKept(cfg, s, act); }
  }

  lemma CleanupCancels(cfg: Config, s: State, r: nat, c: nat)
    requires Step(cfg, s, Cleanup(r)).Some? && c in s.sh.sessionObjs
    ensures var t := Step(cfg, s, Cleanup(r)).value;
      && c in t.sh.sessionObjs
      && (t.sh.sessionObjs[c].cancelled <==>
        s.sh.sessionObjs[c].cancelled
          || (Listed(s.sh.sessions, s.sh.sessionObjs, c) && s.sh.sessionObjs[c].agent == r))
  {
    hide Listed;
  }

  lemma OneSession(cfg: Config, s: State, act: Action, c: nat)
    requires Step(cfg, s, act).Some? && (act.Allocate? || act.CancelConn? || act.Attach? || act.CancelAcc?)
    requires c in s.conns && c in s.sh.sessionObjs && !s.conns[c].pc.Allocating?
    ensures var t := Step(cfg, s, act).value;
      && c in t.sh.sessionObjs
      && (t.sh.sessionObjs[c].cancelled <==>
            || s.sh.sessionObjs[c].cancelled
            || (act == CancelConn(c) && s.conns[c].pc.Cancelling?)
            || (act.CancelAcc? && act.x in s.accs && s.accs[act.x].session == Some(c)
              && s.accs[act.x].pc.AccCancelling?))
  {
    hide FreshSid;
  }

  lemma ListedIffInMap(cfg: Config, s: State, c: nat)
    requires Inv(cfg, s) && c in s.conns && c in s.sh.sessionObjs
    ensures Listed(s.sh.sessions, s.sh.sessionObjs, c) <==> InMap(s.conns[c].pc)
    ensures s.sh.sessionObjs[c].agent == s.conns[c].agent && !s.conns[c].pc.Allocating?
  {
    ConnFacts(cfg, s, c);
    hide Objects, Routing, AgentsExact, CountersExact, NoOrphans;
  }

  lemma SoleStep(cfg: Config, s: State, act: Action, ids: Ids)
    requires Sole(s, ids) && Step(cfg, s, act).Some? && !(act.Attach? && Finds(s, act.x, ids.c))
    requires !s.accs[ids.x].pc.Attaching?
    ensures Sole(Step(cfg, s, act).value, ids)
  {
    hide ConnLocal, RegLocal, RegisterRegion, CleanupRegion, ReserveRegion, ReleaseRegion, InsertRegion, DeleteRegion,
      CancelSession, FreshSid, ValidOpen, Note, PortStep;
  }

  lemma MoreTrouble(wire: Coding, k: Conn, l: B.Endpoint, a: Acc, r: B.Endpoint, trouble: bool)
    ensures ClientSide(wire, k, l, trouble) ==> ClientSide(wire, k, l, true)
    ensures AgentSide(wire, a, r, trouble) ==> AgentSide(wire, a, r, true)
  {
  }

  /** An end that has closed its stream is complete. */
  lemma ClosedIsComplete(x: B.Endpoint, y: B.Endpoint)
    requires P.Side(x, y) && x.fl.streamClosed
    ensures P.Complete(x)
  {
    hide B.EndpointOk, B.SentOk, P.Channel, P.Smooth, P.Once;
  }

  /** Nothing an end took can come from a peer that sent nothing. */
  lemma TookNothing(x: B.Endpoint, y: B.Endpoint)
    requires P.Side(y, x) && y.snd.sent == []
    ensures x.rcv.rx.n == 0 && x.rcv.got == []
  {
    hide B.EndpointOk, B.SentOk, P.Lifecycle, P.Smooth, P.Once;
  }

  /** Before the client has started, the agent's end cannot have closed, so there is no teardown. */
  lemma EarlyCalm(cfg: Config, wire: Coding, ids: Ids, t: Tunnel)
    requires TunnelOk(cfg, wire, ids, t) && Early(t.relay.conns[ids.c].pc)
    ensures !Trouble(t.relay.conns[ids.c], t.relay.accs[ids.x], t.relay.sh.sessionObjs[ids.c].cancelled)
  {
    hide Reachable, P.Side, Encoded;
    if t.r.fl.streamClosed {
      ClosedIsComplete(t.r, t.l);
      TookNothing(t.r, t.l);
    }
  }

  /** The tunnel's records after any step the relay can take. */
  lemma RecordsOk(cfg: Config, wire: Coding, ids: Ids, t: Tunnel, act: Action)
    requires TunnelOk(cfg, wire, ids, t) && RelaySees(wire, ids, t, act) && Step(cfg, t.relay, act).Some?
    ensures var s := Step(cfg, t.relay, act).value;
      var k, a := t.relay.conns[ids.c], t.relay.accs[ids.x];
      var trouble := Trouble(k, a, t.relay.sh.sessionObjs[ids.c].cancelled);
      && ids.c in s.conns && ids.x in s.accs
      && ClientSide(wire, s.conns[ids.c], t.l, trouble) && AgentSide(wire, s.accs[ids.x], t.r, trouble)
      && (PumpHas(k.port.pump, Eof) ==> PumpHas(s.conns[ids.c].port.pump, Eof))
      && (PumpHas(a.port.pump, Eof) ==> PumpHas(s.accs[ids.x].port.pump, Eof))
      && (!trouble && Unwinding(s.conns[ids.c].pc) ==> PumpHas(s.conns[ids.c].port.pump, Eof))
      && (Unwinding(k.pc) ==> Unwinding(s.conns[ids.c].pc))
      && (!trouble && (s.accs[ids.x].pc.AccCancelling? || s.accs[ids.x].pc.AccReturned?) ==>
        PumpHas(s.accs[ids.x].port.pump, Eof))
      && (a.pc.AccCancelling? || a.pc.AccReturned? ==> s.accs[ids.x].pc.AccCancelling? || s.accs[ids.x].pc.AccReturned?)
  {
    hide Reachable, Inv, FlowInv, ClientSide, AgentSide, ConnSees, AccSees, PumpHas, P.PairOk, ConnLocal, AccLocal,
      ConnOutput, ConnInput, AccInput;
    ReachableFlow(cfg, t.relay);
    ConnOkFacts(cfg, t.relay, ids.c);
    AccFacts(t.relay, ids.x);
    hide ConnFlow, AccFlow;
    RecordConn(cfg, wire, ids, t, act);
    RecordAcc(cfg, wire, ids, t, act);
  }

  lemma RecordConn(cfg: Config, wire: Coding, ids: Ids, t: Tunnel, act: Action)
    requires TunnelOk(cfg, wire, ids, t) && RelaySees(wire, ids, t, act) && Step(cfg, t.relay, act).Some?
    requires PortOk(t.relay.conns[ids.c].port, ByConn(t.relay.toAgent, ids.c))
    ensures var s := Step(cfg, t.relay, act).value;
      var k, a := t.relay.conns[ids.c], t.relay.accs[ids.x];
      var trouble := Trouble(k, a, t.relay.sh.sessionObjs[ids.c].cancelled);
      && ids.c in s.conns && ClientSide(wire, s.conns[ids.c], t.l, trouble)
      && (PumpHas(k.port.pump, Eof) ==> PumpHas(s.conns[ids.c].port.pump, Eof))
      && (!trouble && Unwinding(s.conns[ids.c].pc) ==> PumpHas(s.conns[ids.c].port.pump, Eof))
      && (Unwinding(k.pc) ==> Unwinding(s.conns[ids.c].pc))
  {
    hide Reachable, ClientSide, AgentSide, ConnSees, AccSees, PumpHas, P.PairOk, ConnLocal, PortOk, ByConn, Unwinding;
    var k := t.relay.conns[ids.c];
    var trouble := Trouble(k, t.relay.accs[ids.x], t.relay.sh.sessionObjs[ids.c].cancelled);
    if Early(k.pc) { EarlyCalm(cfg, wire, ids, t); }
    if act.ConnStep? && act.c == ids.c {
      ConnLocalOk(wire, k, t.l, SessionOf(t.relay, ids.c), AgentDone(t.relay, k.agent), act.cev, trouble,
        ByConn(t.relay.toAgent, ids.c));
    } else {
      hide Step;
      ConnOtherOk(cfg, wire, t.relay, act, ids.c, t.l, trouble);
    }
  }

  lemma RecordAcc(cfg: Config, wire: Coding, ids: Ids, t: Tunnel, act: Action)
    requires TunnelOk(cfg, wire, ids, t) && RelaySees(wire, ids, t, act) && Step(cfg, t.relay, act).Some?
    requires PortOk(t.relay.accs[ids.x].port, ByAcc(t.relay.toClient, ids.x))
    ensures var s := Step(cfg, t.relay, act).value;
      var k, a := t.relay.conns[ids.c], t.relay.accs[ids.x];
      var trouble := Trouble(k, a, t.relay.sh.sessionObjs[ids.c].cancelled);
      && ids.x in s.accs && AgentSide(wire, s.accs[ids.x], t.r, trouble)
      && (PumpHas(a.port.pump, Eof) ==> PumpHas(s.accs[ids.x].port.pump, Eof))
      && (!trouble && (s.accs[ids.x].pc.AccCancelling? || s.accs[ids.x].pc.AccReturned?) ==>
        PumpHas(s.accs[ids.x].port.pump, Eof))
      && (a.pc.AccCancelling? || a.pc.AccReturned? ==> s.accs[ids.x].pc.AccCancelling? || s.accs[ids.x].pc.AccReturned?)
  {
    hide Reachable, AgentSide, ConnSees, AccSees, PumpHas, P.PairOk, AccLocal, PortOk, ByAcc, PumpOk;
    var k, a := t.relay.conns[ids.c], t.relay.accs[ids.x];
    var trouble := Trouble(k, a, t.relay.sh.sessionObjs[ids.c].cancelled);
    if act.AccStep? && act.x == ids.x {
      AccLocalOk(wire, a, t.r, SessionDone(t.relay, ids.c), act.aev, trouble, ByAcc(t.relay.toClient, ids.x));
    } else {
      hide Step;
      AccOtherOk(cfg, wire, t.relay, act, ids.x, t.r, trouble);
    }
  }

  lemma RelayOk(cfg: Config, wire: Coding, ids: Ids, t: Tunnel, act: Action)
    requires TunnelOk(cfg, wire, ids, t) && RelaySees(wire, ids, t, act) && Step(cfg, t.relay, act).Some?
    ensures TunnelOk(cfg, wire, ids, t.(relay := Step(cfg, t.relay, act).value))
  {
    hide Reachable, Inv, Step, ClientSide, AgentSide, ConnSees, AccSees, PumpHas, P.PairOk, Finds, Unwinding;
    RecordsOk(cfg, wire, ids, t, act);
    ReachableStep(cfg, t.relay, act);
    ReachableInv(cfg, t.relay);
    CancelCause(cfg, t.relay, act, ids.c);
    NotAttaching(wire, t.relay, ids, t.r);
    SoleStep(cfg, t.relay, act, ids);
    CancelledUnwinds();
    var s := Step(cfg, t.relay, act).value;
    MoreTrouble(wire, s.conns[ids.c], t.l, s.accs[ids.x], t.r, false);
    hide Sole;
  }

  lemma NotAttaching(wire: Coding, s: State, ids: Ids, r: B.Endpoint)
    requires ids.x in s.accs
    ensures forall trouble :: AgentSide(wire, s.accs[ids.x], r, trouble) ==> !s.accs[ids.x].pc.Attaching?
  {
  }

  lemma CancelledUnwinds()
    ensures forall pc: ConnPc :: pc.Cancelling? ==> Unwinding(pc)
  {
  }

  // ---- Steps of an endpoint ----

  /** When the peer is complete, an end still sending is complete too. */
  lemma SendingIsComplete(x: B.Endpoint, y: B.Endpoint)
    requires P.Side(x, y) && P.Side(y, x) && P.Complete(y) && x.snd.pc.Sending?
    ensures P.Complete(x)
  {
    P.SideFacts(x, y);
    P.SideFacts(y, x);
    P.SmoothFacts(x);
    P.SmoothFacts(y);
    hide P.Side, P.Smooth, P.Channel, P.Lifecycle, P.Once, B.SentOk, B.SenderOk;
    assert B.Ends(y.rcv.got);
    P.TakenWasSent(x, y);
    P.SendsAfterSignal(x);
    P.TakenWasSent(y, x);
  }

  lemma PeerEnded(x: B.Endpoint, y: B.Endpoint)
    requires P.Side(x, y) && P.Side(y, x) && P.Complete(y) && x.rcv.rx.n == |y.snd.sent|
    ensures P.Complete(x)
  {
    P.SideFacts(x, y);
    P.SideFacts(y, x);
    P.SmoothFacts(x);
    P.SmoothFacts(y);
    hide P.Side, P.Smooth, P.Channel, P.Lifecycle, P.Once, B.SentOk, B.EndpointOk, P.Complete;
    P.EndTaken(x, y);
  }

  lemma SendFailSends(e: B.Endpoint)
    requires B.Step(e, B.SendFail).Some?
    ensures e.snd.pc.Sending?
  {
  }

  /** Whatever an end sees of its stream while the relay tears the session down, it is no loss. */
  lemma EndSeesLossless(wire: Coding, x: B.Endpoint, y: B.Endpoint, sent: seq<Bytes>, over: bool, clean: bool,
    ev: B.Event)
    requires Exact(wire) && P.Side(x, y) && P.Side(y, x) && EndSees(wire, x, sent, over, clean, ev)
    requires B.Step(x, ev).Some?
    requires sent <= Encoded(wire, y.snd.sent)
    requires over ==> x.fl.streamClosed || (y.fl.streamClosed && |sent| == |y.snd.sent|)
    ensures P.Lossless(x, y, ev)
  {
    hide P.Side, B.Step, P.Complete;
    if over && (ev.ReceiveEnd? || ev.SendFail?) {
      if x.fl.streamClosed {
        ClosedIsComplete(x, y);
      } else {
        ClosedIsComplete(y, x);
        if ev.SendFail? {
          SendFailSends(x);
          SendingIsComplete(x, y);
        } else {
          PeerEnded(x, y);
        }
      }
    }
  }

  /** What an endpoint's step does to its own stream. */
  lemma SentGrows(x: B.Endpoint, ev: B.Event)
    requires B.Step(x, ev).Some?
    ensures var e := B.Step(x, ev).value;
      && x.snd.sent <= e.snd.sent && (x.fl.streamClosed ==> e.fl.streamClosed && e.snd.sent == x.snd.sent)
  {
    hide B.ReceiverStep, Marshal;
  }

  lemma EncodedGrows(wire: Coding, a: seq<Ciphertext>, b: seq<Ciphertext>)
    requires a <= b
    ensures Encoded(wire, a) <= Encoded(wire, b)
  {
  }

  lemma ClientSideGrows(wire: Coding, k: Conn, l: B.Endpoint, ev: B.Event, trouble: bool)
    requires ClientSide(wire, k, l, trouble) && !Early(k.pc) && B.Step(l, ev).Some?
    ensures ClientSide(wire, k, B.Step(l, ev).value, trouble)
  {
    hide B.Step;
    SentGrows(l, ev);
    EncodedGrows(wire, l.snd.sent, B.Step(l, ev).value.snd.sent);
  }

  lemma AgentSideGrows(wire: Coding, a: Acc, r: B.Endpoint, ev: B.Event, trouble: bool)
    requires AgentSide(wire, a, r, trouble) && B.Step(r, ev).Some?
    ensures AgentSide(wire, a, B.Step(r, ev).value, trouble)
  {
    hide B.Step;
    SentGrows(r, ev);
    EncodedGrows(wire, r.snd.sent, B.Step(r, ev).value.snd.sent);
  }

  /** What the two pumps have received of what the ends have sent. */
  lemma PumpFacts(wire: Coding, k: Conn, l: B.Endpoint, a: Acc, r: B.Endpoint, trouble: bool)
    requires ClientSide(wire, k, l, trouble) && AgentSide(wire, a, r, trouble)
    ensures k.port.got <= Encoded(wire, l.snd.sent) && a.port.got <= Encoded(wire, r.snd.sent)
    ensures k.unsent == [] && a.unsent == []
    ensures PumpHas(k.port.pump, Eof) ==> l.fl.streamClosed && |k.port.got| == |l.snd.sent|
    ensures PumpHas(a.port.pump, Eof) ==> r.fl.streamClosed && |a.port.got| == |r.snd.sent|
  {
  }

  /** What each pump has handed over is what the other call took. */
  lemma TakenFacts(cfg: Config, s: State, ids: Ids)
    requires Reachable(cfg, s) && ids.c in s.conns && Sole(s, ids)
    ensures var k, a := s.conns[ids.c], s.accs[ids.x];
      ConnFlow(k, ByConn(s.toAgent, ids.c), ByConn(s.toClient, ids.c))
        && AccFlow(a, ByConn(s.toAgent, ids.c), ByConn(s.toClient, ids.c))
  {
    hide Reachable, Inv, FlowInv, ByConn, ByAcc, ConnFlow, AccFlow;
    ReachableFlow(cfg, s);
    FlowFacts(s, ids.c);
    OnlyAccept(s.toAgent, s.accs, s.conns, ids.c, ids.x);
    OnlyAccept(s.toClient, s.accs, s.conns, ids.c, ids.x);
  }

  /**
   What the relay has sent each end, and that it has sent everything when its handler has returned on the other end's
   close.
   */
  lemma StreamFacts(cfg: Config, wire: Coding, ids: Ids, t: Tunnel)
    requires TunnelOk(cfg, wire, ids, t)
    ensures var k, a := t.relay.conns[ids.c], t.relay.accs[ids.x];
      && ClientSent(k) <= Encoded(wire, t.r.snd.sent) && a.sent <= Encoded(wire, t.l.snd.sent)
      && (k.pc.Returned? ==> t.l.fl.streamClosed || (t.r.fl.streamClosed && |ClientSent(k)| == |t.r.snd.sent|))
      && (a.pc.AccReturned? ==> t.r.fl.streamClosed || (t.l.fl.streamClosed && |a.sent| == |t.l.snd.sent|))
  {
    var k, a := t.relay.conns[ids.c], t.relay.accs[ids.x];
    hide Reachable, Delivered, ByConn, P.PairOk, ClientSide, AgentSide, PumpHas, ConnFlow, AccFlow;
    PumpFacts(wire, k, t.l, a, t.r, Trouble(k, a, t.relay.sh.sessionObjs[ids.c].cancelled));
    SingleAcceptIsFifo(cfg, t.relay, ids.c, ids.x);
    TakenFacts(cfg, t.relay, ids);
    HandedAll(k, a, ByConn(t.relay.toAgent, ids.c), ByConn(t.relay.toClient, ids.c));
  }

  lemma HandedAll(k: Conn, a: Acc, ta: seq<Bytes>, tc: seq<Bytes>)
    requires ConnFlow(k, ta, tc) && AccFlow(a, ta, tc) && k.unsent == [] && a.unsent == []
    ensures PumpHas(a.port.pump, Eof) && k.pc.Returned? ==> ClientSent(k) == a.port.got
    ensures PumpHas(k.port.pump, Eof) && a.pc.AccReturned? ==> a.sent == k.port.got
  {
    hide Delivered;
  }

  lemma LeftOk(cfg: Config, wire: Coding, ids: Ids, t: Tunnel, ev: B.Event)
    requires Exact(wire) && TunnelOk(cfg, wire, ids, t) && Next(cfg, wire, ids, t, Left(ev)).Some?
    ensures P.Move(P.Pair(t.l, t.r), true, ev).Some?
    ensures TunnelOk(cfg, wire, ids, Next(cfg, wire, ids, t, Left(ev)).value)
  {
    hide Reachable, ClientSide, AgentSide, PumpHas, P.Side, B.Step, Exact, Sole, Trouble, EndSees, Step;
    var k, a := t.relay.conns[ids.c], t.relay.accs[ids.x];
    StreamFacts(cfg, wire, ids, t);
    EndSeesLossless(wire, t.l, t.r, ClientSent(k), k.pc.Returned?, k.pc.Returned? && k.pc.code == Ok, ev);
    P.SidesOk(t.l, t.r, ev);
    ClientSideGrows(wire, k, t.l, ev, Trouble(k, a, t.relay.sh.sessionObjs[ids.c].cancelled));
  }

  lemma RightOk(cfg: Config, wire: Coding, ids: Ids, t: Tunnel, ev: B.Event)
    requires Exact(wire) && TunnelOk(cfg, wire, ids, t) && Next(cfg, wire, ids, t, Right(ev)).Some?
    ensures P.Move(P.Pair(t.l, t.r), false, ev).Some?
    ensures TunnelOk(cfg, wire, ids, Next(cfg, wire, ids, t, Right(ev)).value)
  {
    hide Reachable, ClientSide, AgentSide, PumpHas, P.Side, B.Step, Exact, Sole, Trouble, EndSees, Step;
    var k, a := t.relay.conns[ids.c], t.relay.accs[ids.x];
    StreamFacts(cfg, wire, ids, t);
    EndSeesLossless(wire, t.r, t.l, a.sent, a.pc.AccReturned?, a.pc.AccReturned? && a.pc.acode == Ok, ev);
    P.SidesOk(t.r, t.l, ev);
    AgentSideGrows(wire, a, t.r, ev, Trouble(k, a, t.relay.sh.sessionObjs[ids.c].cancelled));
  }

  lemma NextOk(cfg: Config, wire: Coding, ids: Ids, t: Tunnel, m: Move)
    requires Exact(wire) && TunnelOk(cfg, wire, ids, t) && Next(cfg, wire, ids, t, m).Some?
    ensures TunnelOk(cfg, wire, ids, Next(cfg, wire, ids, t, m).value)
  {
    hide TunnelOk, Exact, B.Step, Step, EndSees, RelaySees;
    match m
    case Left(ev) => LeftOk(cfg, wire, ids, t, ev);
    case Right(ev) => RightOk(cfg, wire, ids, t, ev);
    case Relay(act) => RelayOk(cfg, wire, ids, t, act);
  }

  lemma AheadOk(l: B.Endpoint, r: B.Endpoint)
    requires Ahead(l, r)
    ensures P.PairOk(P.Pair(l, r)) && l.snd.sent == [] && !l.snd.eof
  {
    hide P.PairOk, P.Run;
    var start: P.Pair, moves :| P.Fresh(start) && start.l == l && P.Run(start, moves) == Some(P.Pair(l, r));
    P.FreshOk(start);
    P.RunOk(start, moves);
  }

  lemma AwaitFacts(cfg: Config, s: State, c: nat)
    requires Reachable(cfg, s) && c in s.conns && s.conns[c].pc.AwaitReady?
    ensures c in s.sh.sessionObjs && s.conns[c].port == NEW_PORT && s.conns[c].unsent == []
  {
    hide Reachable, Inv, FlowInv, ByConn, Delivered, ConnOutput, ConnInput, PortOk;
    ReachableFlow(cfg, s);
    ConnOkFacts(cfg, s, c);
    ConnFacts(cfg, s, c);
  }

  lemma FreshOk(cfg: Config, wire: Coding, ids: Ids, t: Tunnel)
    requires Fresh(cfg, ids, t)
    ensures TunnelOk(cfg, wire, ids, t)
  {
    hide Reachable, Ahead, P.PairOk;
    AwaitFacts(cfg, t.relay, ids.c);
    AheadOk(t.l, t.r);
  }

  lemma {:induction false} RunOk(cfg: Config, wire: Coding, ids: Ids, t: Tunnel, ms: seq<Move>)
    requires Exact(wire) && TunnelOk(cfg, wire, ids, t)
    ensures Run(cfg, wire, ids, t, ms).Some? ==> TunnelOk(cfg, wire, ids, Run(cfg, wire, ids, t, ms).value)
  {
    hide Exact, TunnelOk, Next;
    if ms != [] {
      RunOk(cfg, wire, ids, t, ms[..|ms| - 1]);
      var u := Run(cfg, wire, ids, t, ms[..|ms| - 1]);
      if u.Some? && Next(cfg, wire, ids, u.value, ms[|ms| - 1]).Some? { NextOk(cfg, wire, ids, u.value, ms[|ms| - 1]); }
    }
  }

  /**
   The relay's teardown loses no data. In every run, with any number of other calls on the relay, an end
   whose bridge has returned has written every byte its peer read, up to end of file, and closed the
   write side.
   */
  lemma TeardownLosesNothing(cfg: Config, wire: Coding, ids: Ids, start: Tunnel, ms: seq<Move>)
    requires Exact(wire) && Fresh(cfg, ids, start) && Run(cfg, wire, ids, start, ms).Some?
    ensures var t := Run(cfg, wire, ids, start, ms).value;
      && (t.l.bpc.BridgeDone? ==> t.l.rcv.written == t.r.snd.input && t.r.snd.eof && t.l.rcv.writeClosed)
      && (t.r.bpc.BridgeDone? ==> t.r.rcv.written == t.l.snd.input && t.l.snd.eof && t.r.rcv.writeClosed)
  {
    hide Exact, Fresh, Run, Reachable, ClientSide, AgentSide, Sole, P.Side;
    FreshOk(cfg, wire, ids, start);
    RunOk(cfg, wire, ids, start, ms);
    var t := Run(cfg, wire, ids, start, ms).value;
    if t.l.bpc.BridgeDone? { P.EndedDelivered(t.l, t.r); }
    if t.r.bpc.BridgeDone? { P.EndedDelivered(t.r, t.l); }
  }
}
