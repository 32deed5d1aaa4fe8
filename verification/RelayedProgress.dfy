/**
 Half-close progress over the relay: once both ends have read end of file, every run of this tunnel's own
 moves ends, and it ends with both bridges and both handlers returned and everything delivered.
 */
module RelayedProgress {
  import opened Base
  import opened Messages
  import opened RelayShared
  import opened RelayHandlers
  import opened Broker
  import opened BrokerInvariants
  import opened BrokerSafety
  import opened BrokerTheorems
  import opened BrokerFlow
  import opened BrokerFlowTheorems
  import T = BrokerTeardown
  import opened Noise
  import B = Bridge
  import P = Progress
  import opened Relayed

  // ---- What the moves need besides safety ----

  predicate ConnLive(k: Conn, cancelled: bool) {
    && (k.pc.Releasing? || k.pc.Uncounting? || k.pc.Returned? ==> cancelled)
    && (!Unwinding(k.pc) && k.port.pump.Exited? ==> k.port.errCh.Some?)
  }

  predicate AccLive(a: Acc, cancelled: bool) {
    && (a.pc.AccReturned? ==> cancelled)
    && ((a.pc.AccForwarding? || a.pc.AccSending?) && a.port.pump.Exited? ==> a.port.errCh.Some?)
  }

  /**
   Neither end has received more than the relay sent it; a handler leaves no session uncancelled and no result
   unread.
   */
  ghost predicate LiveOk(ids: Ids, t: Tunnel) {
    && ids.c in t.relay.conns && ids.x in t.relay.accs && ids.c in t.relay.sh.sessionObjs
    && var cancelled := t.relay.sh.sessionObjs[ids.c].cancelled;
    && ConnLive(t.relay.conns[ids.c], cancelled) && AccLive(t.relay.accs[ids.x], cancelled)
    && t.l.rcv.rx.n <= |ClientSent(t.relay.conns[ids.c])| && t.r.rcv.rx.n <= |t.relay.accs[ids.x].sent|
  }

  lemma {:induction false} DeliveredGrows(a: seq<ConnectResponse>, b: seq<ConnectResponse>)
    requires a <= b
    ensures |Delivered(a)| <= |Delivered(b)|
    decreases |b|
  {
    if |a| < |b| { DeliveredGrows(a, b[..|b| - 1]); } else { assert a == b; }
  }

  lemma ConnLocalLive(k: Conn, o: SessionState, agentDone: bool, ev: ConnEvent)
    requires ConnLive(k, o.cancelled) && ConnLocal(k, o, agentDone, ev).Some?
    requires (Early(k.pc) || k.pc.Forwarding? || k.pc.SendPayload? || Unwinding(k.pc))
    requires Early(k.pc) ==> k.port == NEW_PORT
    ensures var m := ConnLocal(k, o, agentDone, ev).value; ConnLive(m, o.cancelled) && k.sent <= m.sent
  {
  }

  lemma ConnSharedLive(cfg: Config, s: State, act: Action, c: nat)
    requires c in s.conns && c in s.sh.sessionObjs && Step(cfg, s, act).Some?
    requires ConnLive(s.conns[c], s.sh.sessionObjs[c].cancelled)
    requires Early(s.conns[c].pc) || s.conns[c].pc.Forwarding? || s.conns[c].pc.SendPayload? || Unwinding(s.conns[c].pc)
    requires c in Step(cfg, s, act).value.sh.sessionObjs
    requires s.sh.sessionObjs[c].cancelled ==> Step(cfg, s, act).value.sh.sessionObjs[c].cancelled
    requires SharedConn(act)
    ensures var t := Step(cfg, s, act).value;
      c in t.conns && ConnLive(t.conns[c], t.sh.sessionObjs[c].cancelled) && s.conns[c].sent <= t.conns[c].sent
  {
    hide Step;
    SharedTouchesOne(cfg, s, act);
    if act.c == c { SharedUnwinds(cfg, s, act); }
  }

  lemma ConnOtherLive(cfg: Config, s: State, act: Action, c: nat)
    requires c in s.conns && c in s.sh.sessionObjs && Step(cfg, s, act).Some?
    requires ConnLive(s.conns[c], s.sh.sessionObjs[c].cancelled)
    requires Early(s.conns[c].pc) || s.conns[c].pc.Forwarding? || s.conns[c].pc.SendPayload? || Unwinding(s.conns[c].pc)
    requires c in Step(cfg, s, act).value.sh.sessionObjs
    requires s.sh.sessionObjs[c].cancelled ==> Step(cfg, s, act).value.sh.sessionObjs[c].cancelled
    requires !(act.ConnStep? && act.c == c)
    ensures var t := Step(cfg, s, act).value;
      c in t.conns && ConnLive(t.conns[c], t.sh.sessionObjs[c].cancelled) && s.conns[c].sent <= t.conns[c].sent
  {
    if SharedConn(act) {
      hide Step, ConnLive;
      ConnSharedLive(cfg, s, act, c);
    } else if act.Register? || act.RegStep? || act.Cleanup? {
      hide Step;
      RegsKeepConns(cfg, s, act);
    } else {
      hide ConnLocal, AccLocal, AttachRegion, CancelSession, StepReserve, StepCount, StepAllocate, StepInsert,
        StepNotify, StepDelete, StepCancelConn, StepRelease, StepUncount, StepRegister, StepReg, StepCleanup;
    }
  }

  lemma RegsKeepConns(cfg: Config, s: State, act: Action)
    requires Step(cfg, s, act).Some? && (act.Register? || act.RegStep? || act.Cleanup?)
    ensures Step(cfg, s, act).value.conns == s.conns && Step(cfg, s, act).value.accs == s.accs
  {
    hide RegLocal, RegisterRegion, CleanupRegion;
  }

  lemma AccLocalLive(a: Acc, ctxDone: bool, ev: AccEvent, cancelled: bool)
    requires AccLive(a, cancelled) && AccLocal(a, ctxDone, ev).Some? && !a.pc.RecvAccept?
    ensures var b := AccLocal(a, ctxDone, ev).value; AccLive(b, cancelled) && a.sent <= b.sent
  {
  }

  lemma AccOtherLive(cfg: Config, s: State, act: Action, c: nat, x: nat)
    requires x in s.accs && c in s.sh.sessionObjs && Step(cfg, s, act).Some? && !(act.AccStep? && act.x == x)
    requires AccLive(s.accs[x], s.sh.sessionObjs[c].cancelled) && s.accs[x].session == Some(c)
    requires !s.accs[x].pc.Attaching?
    requires c in Step(cfg, s, act).value.sh.sessionObjs
    requires s.sh.sessionObjs[c].cancelled ==> Step(cfg, s, act).value.sh.sessionObjs[c].cancelled
    ensures var t := Step(cfg, s, act).value;
      x in t.accs && AccLive(t.accs[x], t.sh.sessionObjs[c].cancelled) && s.accs[x].sent <= t.accs[x].sent
  {
    hide ConnLocal, AccLocal, RegLocal, RegisterRegion, CleanupRegion, ReserveRegion, AttachRegion, ReleaseRegion,
      InsertRegion, DeleteRegion, FreshSid, ValidOpen, Note, StepRegister, StepReg, StepCleanup;
    if act.Register? || act.RegStep? || act.Cleanup? { RegsKeepConns(cfg, s, act); }
  }

  lemma RelayLiveConn(cfg: Config, wire: Coding, ids: Ids, t: Tunnel, act: Action)
    requires TunnelOk(cfg, wire, ids, t) && LiveOk(ids, t) && Step(cfg, t.relay, act).Some?
    ensures var s := Step(cfg, t.relay, act).value;
      && ids.c in s.conns && ids.c in s.sh.sessionObjs
      && ConnLive(s.conns[ids.c], s.sh.sessionObjs[ids.c].cancelled) && t.relay.conns[ids.c].sent <= s.conns[ids.c].sent
  {
    hide Reachable, Inv, ConnLive, AccLive, AgentSide, Sole, PumpOk, P.PairOk, ConnLocal, Delivered;
    ReachableInv(cfg, t.relay);
    CancelCause(cfg, t.relay, act, ids.c);
    var k := t.relay.conns[ids.c];
    if act.ConnStep? && act.c == ids.c {
      ConnLocalLive(k, SessionOf(t.relay, ids.c), AgentDone(t.relay, k.agent), act.cev);
    } else {
      hide Step;
      ConnOtherLive(cfg, t.relay, act, ids.c);
    }
  }

  lemma RelayLiveAcc(cfg: Config, wire: Coding, ids: Ids, t: Tunnel, act: Action)
    requires TunnelOk(cfg, wire, ids, t) && LiveOk(ids, t) && Step(cfg, t.relay, act).Some?
    ensures var s := Step(cfg, t.relay, act).value;
      && ids.x in s.accs && ids.c in s.sh.sessionObjs
      && AccLive(s.accs[ids.x], s.sh.sessionObjs[ids.c].cancelled) && t.relay.accs[ids.x].sent <= s.accs[ids.x].sent
  {
    hide Reachable, Inv, ConnLive, AccLive, ClientSide, PumpOk, P.PairOk, AccLocal, Delivered;
    ReachableInv(cfg, t.relay);
    CancelCause(cfg, t.relay, act, ids.c);
    var a := t.relay.accs[ids.x];
    if act.AccStep? && act.x == ids.x {
      AccLocalLive(a, SessionDone(t.relay, ids.c), act.aev, t.relay.sh.sessionObjs[ids.c].cancelled);
    } else {
      hide Step;
      AccOtherLive(cfg, t.relay, act, ids.c, ids.x);
    }
  }

  lemma ReceivedGrows(x: B.Endpoint, ev: B.Event)
    requires B.Step(x, ev).Some?
    ensures B.Step(x, ev).value.rcv.rx.n <= x.rcv.rx.n + (if ev.Receive? then 1 else 0)
  {
    hide B.SenderStep;
  }

  lemma LiveNext(cfg: Config, wire: Coding, ids: Ids, t: Tunnel, m: Move)
    requires TunnelOk(cfg, wire, ids, t) && LiveOk(ids, t) && Next(cfg, wire, ids, t, m).Some?
    ensures LiveOk(ids, Next(cfg, wire, ids, t, m).value)
  {
    hide TunnelOk, ConnLive, AccLive, B.Step, Step, RelaySees, Delivered;
    match m
    case Left(ev) => ReceivedGrows(t.l, ev);
    case Right(ev) => ReceivedGrows(t.r, ev);
    case Relay(act) =>
      RelayLiveConn(cfg, wire, ids, t, act);
      RelayLiveAcc(cfg, wire, ids, t, act);
      DeliveredGrows(t.relay.conns[ids.c].sent, Step(cfg, t.relay, act).value.conns[ids.c].sent);
  }

  /** A client that has read end of file has started, so its acceptance was sent. */
  lemma Started(cfg: Config, wire: Coding, ids: Ids, t: Tunnel)
    requires TunnelOk(cfg, wire, ids, t) && t.l.snd.eof
    ensures !Early(t.relay.conns[ids.c].pc)
  {
    hide Reachable, PumpOk, P.PairOk, AgentSide;
  }

  // ---- The tunnel's own moves ----

  /** A move of either end, of the two handlers, or of their pumps. */
  predicate OwnMove(ids: Ids, m: Move) {
    m.Relay? ==>
      || T.OwnConn(m.act, ids.c) || T.OwnAcc(m.act, ids.x) || m.act == HandToAgent(ids.c, ids.x)
      || m.act == HandToClient(ids.c, ids.x)
      || (m.act.ConnStep? && m.act.c == ids.c && m.act.cev.PumpFrame?)
      || (m.act.AccStep? && m.act.x == ids.x && m.act.aev.AccPumpFrame?)
  }

  ghost predicate Possible(cfg: Config, wire: Coding, ids: Ids, t: Tunnel, m: Move) {
    OwnMove(ids, m) && Next(cfg, wire, ids, t, m).Some?
  }

  predicate Cancelled(ids: Ids, t: Tunnel)
    requires ids.c in t.relay.sh.sessionObjs
  {
    t.relay.sh.sessionObjs[ids.c].cancelled
  }

  /** A local step of the `Connect` call is a move of the tunnel. */
  lemma ConnStepPossible(cfg: Config, wire: Coding, ids: Ids, t: Tunnel, ev: ConnEvent)
    requires ids.c in t.relay.conns && ids.x in t.relay.accs && ids.c in t.relay.sh.sessionObjs
    requires ConnSees(wire, t.relay.conns[ids.c], t.l, ev) && !ev.RecvFrame? && !ev.StreamDone?
    requires ConnLocal(t.relay.conns[ids.c], t.relay.sh.sessionObjs[ids.c],
      AgentDone(t.relay, t.relay.conns[ids.c].agent), ev).Some?
    ensures Possible(cfg, wire, ids, t, Relay(ConnStep(ids.c, ev)))
  {
    hide ConnLocal, ConnSees;
  }

  lemma AccStepPossible(cfg: Config, wire: Coding, ids: Ids, t: Tunnel, ev: AccEvent)
    requires ids.c in t.relay.conns && ids.x in t.relay.accs && t.relay.accs[ids.x].session == Some(ids.c)
    requires AccSees(wire, t.relay.accs[ids.x], t.r, ev) && !ev.AccFrame?
    requires AccLocal(t.relay.accs[ids.x], SessionDone(t.relay, ids.c), ev).Some?
    ensures Possible(cfg, wire, ids, t, Relay(AccStep(ids.x, ev)))
  {
    hide AccLocal, AccSees;
  }

  /** The `Connect` handler itself has a step, or has returned, or waits at its `select` with nothing to take. */
  lemma ConnMoves(cfg: Config, wire: Coding, ids: Ids, t: Tunnel) returns (m: Option<Move>)
    requires TunnelOk(cfg, wire, ids, t) && !Early(t.relay.conns[ids.c].pc)
    ensures m.Some? ==> Possible(cfg, wire, ids, t, m.value)
    ensures m.None? ==> var k := t.relay.conns[ids.c];
      k.pc.Returned? || (k.pc.Forwarding? && k.port.errCh.None? && !Cancelled(ids, t))
  {
    hide Reachable, Inv, AgentSide, PumpOk, P.PairOk, Delivered, Possible;
    var k := t.relay.conns[ids.c];
    var ev := if k.pc.SendPayload? then SendOk else if k.port.errCh.Some? then PumpEnded else ContextDone;
    if k.pc.SendPayload? || (k.pc.Forwarding? && (k.port.errCh.Some? || Cancelled(ids, t))) {
      ConnStepPossible(cfg, wire, ids, t, ev);
      return Some(Relay(ConnStep(ids.c, ev)));
    }
    if k.pc.Forwarding? || k.pc.Returned? { return None; }
    var act := if k.pc.Deleting? then Delete(ids.c) else if k.pc.Cancelling? then CancelConn(ids.c)
      else if k.pc.Releasing? then Release(ids.c) else Uncount(ids.c);
    UnwindPossible(cfg, wire, ids, t, act);
    m := Some(Relay(act));
  }

  lemma UnwindPossible(cfg: Config, wire: Coding, ids: Ids, t: Tunnel, act: Action)
    requires TunnelOk(cfg, wire, ids, t) && var k := t.relay.conns[ids.c];
      (k.pc.Deleting? && act == Delete(ids.c)) || (k.pc.Cancelling? && act == CancelConn(ids.c))
        || (k.pc.Releasing? && act == Release(ids.c)) || (k.pc.Uncounting? && act == Uncount(ids.c))
    ensures Possible(cfg, wire, ids, t, Relay(act))
  {
    hide Reachable, Inv, ClientSide, AgentSide, P.PairOk, DeleteRegion, CancelSession, ReleaseRegion;
    ReachableInv(cfg, t.relay);
    ConnFacts(cfg, t.relay, ids.c);
  }

  lemma AccMoves(cfg: Config, wire: Coding, ids: Ids, t: Tunnel) returns (m: Option<Move>)
    requires TunnelOk(cfg, wire, ids, t)
    ensures m.Some? ==> Possible(cfg, wire, ids, t, m.value)
    ensures m.None? ==> var a := t.relay.accs[ids.x];
      a.pc.AccReturned? || (a.pc.AccForwarding? && a.port.errCh.None? && !Cancelled(ids, t))
  {
    hide Reachable, ClientSide, PumpOk, P.PairOk;
    var a := t.relay.accs[ids.x];
    if a.pc.AccCancelling? { return Some(Relay(CancelAcc(ids.x))); }
    var ev := if a.pc.AccSending? then AccSendOk else if a.port.errCh.Some? then AccPumpEnded else AccContext;
    if a.pc.AccSending? || (a.pc.AccForwarding? && (a.port.errCh.Some? || Cancelled(ids, t))) {
      hide Possible;
      AccStepPossible(cfg, wire, ids, t, ev);
      return Some(Relay(AccStep(ids.x, ev)));
    }
    m := None;
  }

  /** A pump has a step, or has exited, or waits for its peer with everything received. */
  ghost predicate PumpWaits(p: Port, sent: nat, closed: bool, over: bool) {
    p.pump.Exited? || (p.pump.Receiving? && |p.got| == sent && !closed && !over)
  }

  /** A pump that has handed over can count; one that offers can hand over to a handler at its `select`. */
  lemma HandsPossible(cfg: Config, wire: Coding, ids: Ids, t: Tunnel)
    requires ids.c in t.relay.conns && ids.x in t.relay.accs && t.relay.accs[ids.x].session == Some(ids.c)
    ensures var k, a := t.relay.conns[ids.c], t.relay.accs[ids.x];
      && (k.port.pump.Tallying? ==> Possible(cfg, wire, ids, t, Relay(TallyToAgent(ids.c))))
      && (a.port.pump.Tallying? ==> Possible(cfg, wire, ids, t, Relay(TallyToClient(ids.x))))
      && (k.port.pump.Offering? && a.pc.AccForwarding? ==>
        Possible(cfg, wire, ids, t, Relay(HandToAgent(ids.c, ids.x))))
      && (a.port.pump.Offering? && k.pc.Forwarding? ==> Possible(cfg, wire, ids, t, Relay(HandToClient(ids.c, ids.x))))
  {
  }

  /** What a pump left alone can do: abort an offer when the context is done, report, or see the end of its stream. */
  lemma PumpExitEnabled(p: Port, ctxDone: bool, closed: bool)
    requires p.pump.Offering? ==> ctxDone
    requires p.pump.Reporting? ==> p.errCh.None?
    ensures p.pump.Offering? ==> PortStep(p, OfferAborted, ctxDone).Some?
    ensures p.pump.Reporting? ==> PortStep(p, Reported, ctxDone).Some?
    ensures p.pump.Receiving? ==> PortStep(p, Ended(closed), ctxDone).Some?
  {
  }

  lemma PumpTakes(p: Port, payload: Bytes)
    requires p.pump.Receiving?
    ensures PortStep(p, Arrived(payload), false).Some?
  {
  }

  lemma ClientPumpMoves(cfg: Config, wire: Coding, ids: Ids, t: Tunnel) returns (m: Option<Move>)
    requires TunnelOk(cfg, wire, ids, t) && LiveOk(ids, t) && !Early(t.relay.conns[ids.c].pc)
    requires t.relay.accs[ids.x].pc.AccForwarding? || t.relay.accs[ids.x].pc.AccReturned?
    ensures m.Some? ==> Possible(cfg, wire, ids, t, m.value)
    ensures m.None? ==> var k := t.relay.conns[ids.c];
      PumpWaits(k.port, |t.l.snd.sent|, t.l.fl.streamClosed, k.pc.Returned?)
  {
    hide Reachable, Inv, FlowInv, AgentSide, P.PairOk, Delivered, ConnLive, Possible, PortStep, ConnRecv, ConnSendOk,
      ConnSendError;
    var k := t.relay.conns[ids.c];
    var p := k.port.pump;
    HandsPossible(cfg, wire, ids, t);
    if p.Tallying? { return Some(Relay(TallyToAgent(ids.c))); }
    if p.Offering? && t.relay.accs[ids.x].pc.AccForwarding? { return Some(Relay(HandToAgent(ids.c, ids.x))); }
    ReachableFlow(cfg, t.relay);
    T.ReportingHasRoom(cfg, t.relay, ids.c);
    if p.Receiving? && |k.port.got| < |t.l.snd.sent| {
      var f := ClientCiphertext(wire.encode(t.l.snd.sent[|k.port.got|]));
      PumpTakes(k.port, f.payload);
      ConnStepPossible(cfg, wire, ids, t, PumpFrame(f));
      return Some(Relay(ConnStep(ids.c, PumpFrame(f))));
    }
    if p.Exited? || (p.Receiving? && !t.l.fl.streamClosed && !k.pc.Returned?) { return None; }
    var pe := if p.Offering? then OfferAborted else if p.Reporting? then Reported else Ended(t.l.fl.streamClosed);
    PumpExitEnabled(k.port, CtxDone(k, t.relay.sh.sessionObjs[ids.c]), t.l.fl.streamClosed);
    ConnStepPossible(cfg, wire, ids, t, PumpMove(pe));
    m := Some(Relay(ConnStep(ids.c, PumpMove(pe))));
  }

  lemma AgentPumpMoves(cfg: Config, wire: Coding, ids: Ids, t: Tunnel) returns (m: Option<Move>)
    requires TunnelOk(cfg, wire, ids, t) && LiveOk(ids, t)
    requires t.relay.conns[ids.c].pc.Forwarding? || t.relay.conns[ids.c].pc.Returned?
    ensures m.Some? ==> Possible(cfg, wire, ids, t, m.value)
    ensures m.None? ==> var a := t.relay.accs[ids.x];
      PumpWaits(a.port, |t.r.snd.sent|, t.r.fl.streamClosed, a.pc.AccReturned?)
  {
    hide Reachable, Inv, FlowInv, ClientSide, P.PairOk, Delivered, AccLive, Possible, PortStep;
    var a := t.relay.accs[ids.x];
    var p := a.port.pump;
    HandsPossible(cfg, wire, ids, t);
    if p.Tallying? { return Some(Relay(TallyToClient(ids.x))); }
    if p.Offering? && t.relay.conns[ids.c].pc.Forwarding? { return Some(Relay(HandToClient(ids.c, ids.x))); }
    ReachableFlow(cfg, t.relay);
    T.ReportingHasRoom(cfg, t.relay, ids.x);
    if p.Receiving? && |a.port.got| < |t.r.snd.sent| {
      var f := AgentCiphertext(wire.encode(t.r.snd.sent[|a.port.got|]));
      PumpTakes(a.port, f.payload);
      AccStepPossible(cfg, wire, ids, t, AccPumpFrame(f));
      return Some(Relay(AccStep(ids.x, AccPumpFrame(f))));
    }
    if p.Exited? || (p.Receiving? && !t.r.fl.streamClosed && !a.pc.AccReturned?) { return None; }
    var pe := if p.Offering? then OfferAborted else if p.Reporting? then Reported else Ended(t.r.fl.streamClosed);
    PumpExitEnabled(a.port, SessionDone(t.relay, ids.c), t.r.fl.streamClosed);
    AccStepPossible(cfg, wire, ids, t, AccPumpMove(pe));
    m := Some(Relay(AccStep(ids.x, AccPumpMove(pe))));
  }

  /** Both handlers have returned and both pumps have exited. */
  predicate HandlersEnded(ids: Ids, t: Tunnel) {
    && ids.c in t.relay.conns && T.ConnEnded(t.relay.conns[ids.c])
    && ids.x in t.relay.accs && T.AccEnded(t.relay.accs[ids.x])
  }

  /** The relay holds nothing of this tunnel and both streams into it are open and empty. */
  predicate HandlersIdle(ids: Ids, t: Tunnel) {
    && ids.c in t.relay.conns && ids.x in t.relay.accs
    && var k, a := t.relay.conns[ids.c], t.relay.accs[ids.x];
    && k.pc.Forwarding? && k.port.pump.Receiving? && |k.port.got| == |t.l.snd.sent| && !t.l.fl.streamClosed
    && a.pc.AccForwarding? && a.port.pump.Receiving? && |a.port.got| == |t.r.snd.sent| && !t.r.fl.streamClosed
  }

  /** The relay's part of the tunnel has a move, unless it is idle or has ended. */
  lemma RelayMoves(cfg: Config, wire: Coding, ids: Ids, t: Tunnel) returns (m: Option<Move>)
    requires TunnelOk(cfg, wire, ids, t) && LiveOk(ids, t) && !Early(t.relay.conns[ids.c].pc)
    ensures m.Some? ==> Possible(cfg, wire, ids, t, m.value)
    ensures m.None? ==> HandlersEnded(ids, t) || HandlersIdle(ids, t)
  {
    hide Possible, Reachable, ClientSide, AgentSide, P.PairOk, Sole;
    m := ConnMoves(cfg, wire, ids, t);
    if m.Some? { return; }
    m := AccMoves(cfg, wire, ids, t);
    if m.Some? { return; }
    hide TunnelOk, Possible;
    m := ClientPumpMoves(cfg, wire, ids, t);
    if m.Some? { return; }
    m := AgentPumpMoves(cfg, wire, ids, t);
    hide ClientSent;
  }

  // ---- Some move is possible until everything has ended ----

  lemma OwnEventSeen(wire: Coding, x: B.Endpoint, sent: seq<Bytes>, over: bool, clean: bool)
    requires P.OwnEvent(x).Some?
    ensures EndSees(wire, x, sent, over, clean, P.OwnEvent(x).value)
  {
  }

  /** An end with no event of its own has returned or waits for its stream. */
  lemma BlockedReceives(x: B.Endpoint, y: B.Endpoint)
    requires P.Side(x, y) && P.OwnEvent(x).None? && x.snd.eof
    ensures x.bpc.BridgeDone? || x.rcv.pc.Receiving?
  {
    hide B.SentOk, P.Channel, P.Smooth;
  }

  lemma ReceiveEnabled(x: B.Endpoint, ct: Ciphertext, clean: bool)
    requires x.rcv.pc.Receiving?
    ensures B.Step(x, B.Receive(ct)).Some? && B.Step(x, B.ReceiveEnd(clean)).Some?
  {
  }

  lemma LeftPossible(cfg: Config, wire: Coding, ids: Ids, t: Tunnel, ev: B.Event)
    requires ids.c in t.relay.conns && ids.x in t.relay.accs && B.Step(t.l, ev).Some? && !Early(t.relay.conns[ids.c].pc)
    requires var k := t.relay.conns[ids.c];
      EndSees(wire, t.l, ClientSent(k), k.pc.Returned?, k.pc.Returned? && k.pc.code == Ok, ev)
    ensures Possible(cfg, wire, ids, t, Left(ev))
  {
    hide B.Step, EndSees;
  }

  lemma RightPossible(cfg: Config, wire: Coding, ids: Ids, t: Tunnel, ev: B.Event)
    requires ids.c in t.relay.conns && ids.x in t.relay.accs && B.Step(t.r, ev).Some?
    requires var a := t.relay.accs[ids.x];
      EndSees(wire, t.r, a.sent, a.pc.AccReturned?, a.pc.AccReturned? && a.pc.acode == Ok, ev)
    ensures Possible(cfg, wire, ids, t, Right(ev))
  {
    hide B.Step, EndSees;
  }

  /** The client's end has a move, has returned, or has received all that the relay sent it and waits. */
  lemma LeftMoves(cfg: Config, wire: Coding, ids: Ids, t: Tunnel) returns (m: Option<Move>)
    requires TunnelOk(cfg, wire, ids, t) && LiveOk(ids, t) && t.l.snd.eof
    ensures m.Some? ==> Possible(cfg, wire, ids, t, m.value)
    ensures m.None? ==> P.OwnEvent(t.l).None?
    ensures m.None? && !t.l.bpc.BridgeDone? ==>
      t.l.rcv.pc.Receiving? && t.l.rcv.rx.n == |ClientSent(t.relay.conns[ids.c])| && !t.relay.conns[ids.c].pc.Returned?
  {
    hide Reachable, ClientSide, AgentSide, Sole, P.Side, P.OwnEvent, Possible, B.Step, Delivered, ConnLive, AccLive;
    var k := t.relay.conns[ids.c];
    Started(cfg, wire, ids, t);
    var clean := k.pc.Returned? && k.pc.code == Ok;
    if P.OwnEvent(t.l).Some? {
      P.SideFacts(t.l, t.r);
      P.OwnEventEnabled(t.l, t.r);
      OwnEventSeen(wire, t.l, ClientSent(k), k.pc.Returned?, clean);
      LeftPossible(cfg, wire, ids, t, P.OwnEvent(t.l).value);
      return Some(Left(P.OwnEvent(t.l).value));
    }
    BlockedReceives(t.l, t.r);
    if t.l.bpc.BridgeDone? { return None; }
    if t.l.rcv.rx.n < |ClientSent(k)| {
      var ct := wire.decode(ClientSent(k)[t.l.rcv.rx.n]);
      ReceiveEnabled(t.l, ct, clean);
      LeftPossible(cfg, wire, ids, t, B.Receive(ct));
      return Some(Left(B.Receive(ct)));
    }
    if !k.pc.Returned? { return None; }
    ReceiveEnabled(t.l, OtherCiphertext(0), clean);
    LeftPossible(cfg, wire, ids, t, B.ReceiveEnd(clean));
    m := Some(Left(B.ReceiveEnd(clean)));
  }

  lemma RightMoves(cfg: Config, wire: Coding, ids: Ids, t: Tunnel) returns (m: Option<Move>)
    requires TunnelOk(cfg, wire, ids, t) && LiveOk(ids, t) && t.r.snd.eof
    ensures m.Some? ==> Possible(cfg, wire, ids, t, m.value)
    ensures m.None? ==> P.OwnEvent(t.r).None?
    ensures m.None? && !t.r.bpc.BridgeDone? ==>
      t.r.rcv.pc.Receiving? && t.r.rcv.rx.n == |t.relay.accs[ids.x].sent| && !t.relay.accs[ids.x].pc.AccReturned?
  {
    hide Reachable, ClientSide, AgentSide, Sole, P.Side, P.OwnEvent, Possible, B.Step, Delivered, ConnLive, AccLive;
    var a := t.relay.accs[ids.x];
    var clean := a.pc.AccReturned? && a.pc.acode == Ok;
    if P.OwnEvent(t.r).Some? {
      P.SideFacts(t.r, t.l);
      P.OwnEventEnabled(t.r, t.l);
      OwnEventSeen(wire, t.r, a.sent, a.pc.AccReturned?, clean);
      RightPossible(cfg, wire, ids, t, P.OwnEvent(t.r).value);
      return Some(Right(P.OwnEvent(t.r).value));
    }
    BlockedReceives(t.r, t.l);
    if t.r.bpc.BridgeDone? { return None; }
    if t.r.rcv.rx.n < |a.sent| {
      var ct := wire.decode(a.sent[t.r.rcv.rx.n]);
      ReceiveEnabled(t.r, ct, clean);
      RightPossible(cfg, wire, ids, t, B.Receive(ct));
      return Some(Right(B.Receive(ct)));
    }
    if !a.pc.AccReturned? { return None; }
    ReceiveEnabled(t.r, OtherCiphertext(0), clean);
    RightPossible(cfg, wire, ids, t, B.ReceiveEnd(clean));
    m := Some(Right(B.ReceiveEnd(clean)));
  }

  /** An idle relay has passed everything on. */
  lemma IdlePassedOn(cfg: Config, wire: Coding, ids: Ids, t: Tunnel)
    requires TunnelOk(cfg, wire, ids, t) && HandlersIdle(ids, t)
    ensures |ClientSent(t.relay.conns[ids.c])| == |t.r.snd.sent| && |t.relay.accs[ids.x].sent| == |t.l.snd.sent|
  {
    hide Reachable, Delivered, ByConn, P.PairOk, ClientSide, AgentSide;
    var k, a := t.relay.conns[ids.c], t.relay.accs[ids.x];
    PumpFacts(wire, k, t.l, a, t.r, Trouble(k, a, t.relay.sh.sessionObjs[ids.c].cancelled));
    TakenFacts(cfg, t.relay, ids);
  }

  predicate AllEnded(ids: Ids, t: Tunnel) {
    t.l.bpc.BridgeDone? && t.r.bpc.BridgeDone? && HandlersEnded(ids, t)
  }

  lemma WaitersBlocked(x: B.Endpoint, y: B.Endpoint, n: nat)
    requires P.OwnEvent(x).None? && n == |y.snd.sent| && !y.fl.streamClosed
    requires (x.bpc.BridgeDone? || (x.rcv.pc.Receiving? && x.rcv.rx.n == n))
    requires P.Side(x, y)
    ensures P.PeerEvent(x, y).None?
  {
    hide B.EndpointOk, B.SentOk, P.Channel, P.Smooth, P.Once, P.OwnEvent;
  }

  /** Once both ends have read end of file, some own move is possible until both ends and both handlers have ended. */
  lemma TunnelNotStuck(cfg: Config, wire: Coding, ids: Ids, t: Tunnel) returns (m: Move)
    requires TunnelOk(cfg, wire, ids, t) && LiveOk(ids, t) && t.l.snd.eof && t.r.snd.eof && !AllEnded(ids, t)
    ensures Possible(cfg, wire, ids, t, m)
  {
    hide Reachable, ClientSide, AgentSide, Sole, P.Side, P.OwnEvent, P.PeerEvent, Possible, Delivered, ConnLive,
      AccLive;
    var a := LeftMoves(cfg, wire, ids, t);
    if a.Some? { return a.value; }
    var b := RightMoves(cfg, wire, ids, t);
    if b.Some? { return b.value; }
    Started(cfg, wire, ids, t);
    var d := RelayMoves(cfg, wire, ids, t);
    if d.Some? { return d.value; }
    if HandlersIdle(ids, t) {
      IdlePassedOn(cfg, wire, ids, t);
      P.DoneClosed(t.l, t.r);
      P.DoneClosed(t.r, t.l);
      WaitersBlocked(t.l, t.r, |t.r.snd.sent|);
      WaitersBlocked(t.r, t.l, |t.l.snd.sent|);
      P.NotBothBlocked(t.l, t.r);
      assert false;
    }
    assert false;
  }

  // ---- Every own move lowers a measure ----

  /** What is left of the relay's part: frames still to be received, and the two handlers' ranks. */
  function RelayRank(k: Conn, a: Acc, sentL: nat, sentR: nat): int {
    4 * (sentL - |k.port.got|) + 4 * (sentR - |a.port.got|) + T.ConnRank(k) + T.AccRank(a)
  }

  ghost function Work(ids: Ids, t: Tunnel): int {
    if ids.c in t.relay.conns && ids.x in t.relay.accs
    then 5 * P.Measure(P.Pair(t.l, t.r))
      + RelayRank(t.relay.conns[ids.c], t.relay.accs[ids.x], |t.l.snd.sent|, |t.r.snd.sent|)
    else 0
  }

  lemma SentByOne(x: B.Endpoint, ev: B.Event)
    requires B.Step(x, ev).Some?
    ensures |B.Step(x, ev).value.snd.sent| <= |x.snd.sent| + 1
  {
    hide B.ReceiverStep;
  }

  lemma LeftDescends(cfg: Config, wire: Coding, ids: Ids, t: Tunnel, ev: B.Event)
    requires Exact(wire) && TunnelOk(cfg, wire, ids, t) && Next(cfg, wire, ids, t, Left(ev)).Some? && t.l.snd.eof
    requires t.r.snd.eof
    ensures var u := Next(cfg, wire, ids, t, Left(ev)).value; Work(ids, u) < Work(ids, t) && u.l.snd.eof && u.r.snd.eof
  {
    hide TunnelOk, Exact, P.PairOk, P.Lossless, P.Measure, B.Step, T.ConnRank, T.AccRank, EndSees;
    LeftOk(cfg, wire, ids, t, ev);
    PairKept(cfg, wire, ids, t);
    P.MoveDescends(P.Pair(t.l, t.r), true, ev);
    SentByOne(t.l, ev);
  }

  lemma RightDescends(cfg: Config, wire: Coding, ids: Ids, t: Tunnel, ev: B.Event)
    requires Exact(wire) && TunnelOk(cfg, wire, ids, t) && Next(cfg, wire, ids, t, Right(ev)).Some? && t.l.snd.eof
    requires t.r.snd.eof
    ensures var u := Next(cfg, wire, ids, t, Right(ev)).value; Work(ids, u) < Work(ids, t) && u.l.snd.eof && u.r.snd.eof
  {
    hide TunnelOk, Exact, P.PairOk, P.Lossless, P.Measure, B.Step, T.ConnRank, T.AccRank, EndSees;
    RightOk(cfg, wire, ids, t, ev);
    PairKept(cfg, wire, ids, t);
    P.MoveDescends(P.Pair(t.l, t.r), false, ev);
    SentByOne(t.r, ev);
  }

  lemma PairKept(cfg: Config, wire: Coding, ids: Ids, t: Tunnel)
    requires TunnelOk(cfg, wire, ids, t)
    ensures P.PairOk(P.Pair(t.l, t.r)) && ids.c in t.relay.conns && ids.x in t.relay.accs
  {
    hide Reachable, ClientSide, AgentSide, P.PairOk;
  }

  lemma ConnRecordDescends(wire: Coding, k: Conn, l: B.Endpoint, o: SessionState, agentDone: bool, ev: ConnEvent)
    requires ConnLocal(k, o, agentDone, ev).Some? && ConnSees(wire, k, l, ev) && !ev.StreamDone? && !ev.RecvFrame?
    requires !k.pc.SendAccept?
    ensures var m := ConnLocal(k, o, agentDone, ev).value;
      T.ConnRank(m) - 4 * |m.port.got| < T.ConnRank(k) - 4 * |k.port.got|
  {
    hide Encoded;
    if ev.PumpFrame? {
    } else {
      T.ConnLocalDescends(k, o, agentDone, ev);
      hide T.ConnRank;
    }
  }

  lemma AccRecordDescends(wire: Coding, a: Acc, r: B.Endpoint, ctxDone: bool, ev: AccEvent)
    requires AccLocal(a, ctxDone, ev).Some? && AccSees(wire, a, r, ev) && !ev.AccFrame?
    ensures var b := AccLocal(a, ctxDone, ev).value; T.AccRank(b) - 4 * |b.port.got| < T.AccRank(a) - 4 * |a.port.got|
  {
    hide Encoded;
    if ev.AccPumpFrame? {
    } else {
      T.AccLocalDescends(a, ctxDone, ev);
      hide T.AccRank;
    }
  }

  lemma ConnActionGot(cfg: Config, s: State, act: Action)
    requires T.ConnAction(act) && Step(cfg, s, act).Some? && act.c in s.conns && act.c in Step(cfg, s, act).value.conns
    ensures Step(cfg, s, act).value.conns[act.c].port.got == s.conns[act.c].port.got
  {
    hide ReserveRegion, ReleaseRegion, InsertRegion, DeleteRegion, CancelSession, FreshSid, ValidOpen, StepRegister,
      StepReg, StepCleanup, StepNotify, StepConn, StepAcc, StepAttach, StepCancelAcc, StepHandToAgent, StepHandToClient,
      StepTallyToClient;
  }

  /** Moves of the `Connect` call or its pump. */
  lemma ConnMoveDescends(cfg: Config, wire: Coding, ids: Ids, t: Tunnel, act: Action)
    requires TunnelOk(cfg, wire, ids, t) && RelaySees(wire, ids, t, act) && Step(cfg, t.relay, act).Some?
    requires !Early(t.relay.conns[ids.c].pc)
    requires T.OwnConn(act, ids.c) || (act.ConnStep? && act.c == ids.c && act.cev.PumpFrame?)
    ensures var s := Step(cfg, t.relay, act).value;
      && ids.c in s.conns && s.accs == t.relay.accs
      && T.ConnRank(s.conns[ids.c]) - 4 * |s.conns[ids.c].port.got|
        < T.ConnRank(t.relay.conns[ids.c]) - 4 * |t.relay.conns[ids.c].port.got|
  {
    hide Reachable, AgentSide, PumpOk, P.PairOk, T.ConnRank, ConnLocal, ConnSees, Delivered;
    if act.ConnStep? {
      var k := t.relay.conns[ids.c];
      ConnRecordDescends(wire, k, t.l, SessionOf(t.relay, ids.c), AgentDone(t.relay, k.agent), act.cev);
    } else {
      hide Step;
      T.ConnActionRecord(cfg, t.relay, act);
      ConnActionGot(cfg, t.relay, act);
    }
  }

  lemma AccMoveDescends(cfg: Config, wire: Coding, ids: Ids, t: Tunnel, act: Action)
    requires TunnelOk(cfg, wire, ids, t) && RelaySees(wire, ids, t, act) && Step(cfg, t.relay, act).Some?
    requires T.OwnAcc(act, ids.x) || (act.AccStep? && act.x == ids.x && act.aev.AccPumpFrame?)
    ensures var s := Step(cfg, t.relay, act).value;
      && ids.x in s.accs && s.conns == t.relay.conns
      && T.AccRank(s.accs[ids.x]) - 4 * |s.accs[ids.x].port.got|
        < T.AccRank(t.relay.accs[ids.x]) - 4 * |t.relay.accs[ids.x].port.got|
  {
    hide Reachable, ClientSide, PumpOk, P.PairOk, AccLocal, AccSees, CancelSession;
    if act.AccStep? {
      hide T.AccRank;
      AccRecordDescends(wire, t.relay.accs[ids.x], t.r, SessionDone(t.relay, ids.c), act.aev);
    }
  }

  lemma HandMoveDescends(cfg: Config, ids: Ids, s: State, act: Action)
    requires (act == HandToAgent(ids.c, ids.x) || act == HandToClient(ids.c, ids.x)) && Step(cfg, s, act).Some?
    requires ids.c in s.conns && ids.x in s.accs
    ensures var t := Step(cfg, s, act).value;
      && ids.c in t.conns && ids.x in t.accs
      && t.conns[ids.c].port.got == s.conns[ids.c].port.got && t.accs[ids.x].port.got == s.accs[ids.x].port.got
      && T.ConnRank(t.conns[ids.c]) + T.AccRank(t.accs[ids.x]) < T.ConnRank(s.conns[ids.c]) + T.AccRank(s.accs[ids.x])
  {
  }

  /** Every own move lowers the work that is left. */
  lemma OwnDescends(cfg: Config, wire: Coding, ids: Ids, t: Tunnel, m: Move)
    requires Exact(wire) && TunnelOk(cfg, wire, ids, t) && Possible(cfg, wire, ids, t, m) && t.l.snd.eof && t.r.snd.eof
    ensures var u := Next(cfg, wire, ids, t, m).value; Work(ids, u) < Work(ids, t) && u.l.snd.eof && u.r.snd.eof
  {
    hide TunnelOk, Exact, T.ConnRank, T.AccRank, P.Measure, Step, RelaySees, EndSees, B.Step;
    PairKept(cfg, wire, ids, t);
    Started(cfg, wire, ids, t);
    if m.Left? {
      LeftDescends(cfg, wire, ids, t, m.ev);
    } else if m.Right? {
      RightDescends(cfg, wire, ids, t, m.ev);
    } else if m.act == HandToAgent(ids.c, ids.x) || m.act == HandToClient(ids.c, ids.x) {
      HandMoveDescends(cfg, ids, t.relay, m.act);
    } else if T.OwnConn(m.act, ids.c) || (m.act.ConnStep? && m.act.c == ids.c && m.act.cev.PumpFrame?) {
      ConnMoveDescends(cfg, wire, ids, t, m.act);
    } else {
      AccMoveDescends(cfg, wire, ids, t, m.act);
    }
  }

  lemma WorkNonNegative(cfg: Config, wire: Coding, ids: Ids, t: Tunnel)
    requires TunnelOk(cfg, wire, ids, t)
    ensures Work(ids, t) >= 0
  {
    hide Reachable, P.Side, P.Rank, T.ConnRank, T.AccRank, ClientSide, AgentSide;
    var k, a := t.relay.conns[ids.c], t.relay.accs[ids.x];
    PumpFacts(wire, k, t.l, a, t.r, Trouble(k, a, t.relay.sh.sessionObjs[ids.c].cancelled));
    P.RankNonNegative(t.l, t.r);
    P.RankNonNegative(t.r, t.l);
  }

  lemma {:induction false} OwnRunBound(cfg: Config, wire: Coding, ids: Ids, t: Tunnel, ms: seq<Move>)
    requires Exact(wire) && TunnelOk(cfg, wire, ids, t) && LiveOk(ids, t) && t.l.snd.eof && t.r.snd.eof
    requires Relayed.Run(cfg, wire, ids, t, ms).Some? && forall i :: 0 <= i < |ms| ==> OwnMove(ids, ms[i])
    ensures var u := Relayed.Run(cfg, wire, ids, t, ms).value;
      TunnelOk(cfg, wire, ids, u) && LiveOk(ids, u) && u.l.snd.eof && u.r.snd.eof && Work(ids, u) + |ms| <= Work(ids, t)
  {
    hide Exact, TunnelOk, LiveOk, Next, Work, OwnMove;
    if ms != [] {
      var most, last := ms[..|ms| - 1], ms[|ms| - 1];
      OwnRunBound(cfg, wire, ids, t, most);
      var u := Relayed.Run(cfg, wire, ids, t, most).value;
      NextOk(cfg, wire, ids, u, last);
      LiveNext(cfg, wire, ids, u, last);
      OwnDescends(cfg, wire, ids, u, last);
    }
  }

  lemma FreshLive(cfg: Config, ids: Ids, t: Tunnel)
    requires Fresh(cfg, ids, t)
    ensures LiveOk(ids, t)
  {
    hide Reachable, Ahead, P.Side;
    AwaitFacts(cfg, t.relay, ids.c);
    AheadOk(t.l, t.r);
    TookNothing(t.r, t.l);
    AheadTookNothing(t.l, t.r);
  }

  lemma AheadTookNothing(l: B.Endpoint, r: B.Endpoint)
    requires Ahead(l, r)
    ensures l.rcv.rx.n == 0
  {
    hide P.Run;
  }

  lemma {:induction false} RunLive(cfg: Config, wire: Coding, ids: Ids, t: Tunnel, ms: seq<Move>)
    requires Exact(wire) && TunnelOk(cfg, wire, ids, t) && LiveOk(ids, t)
    ensures var u := Relayed.Run(cfg, wire, ids, t, ms);
      u.Some? ==> TunnelOk(cfg, wire, ids, u.value) && LiveOk(ids, u.value)
  {
    hide Exact, TunnelOk, LiveOk, Next;
    if ms != [] {
      RunLive(cfg, wire, ids, t, ms[..|ms| - 1]);
      var u := Relayed.Run(cfg, wire, ids, t, ms[..|ms| - 1]);
      if u.Some? && Next(cfg, wire, ids, u.value, ms[|ms| - 1]).Some? {
        NextOk(cfg, wire, ids, u.value, ms[|ms| - 1]);
        LiveNext(cfg, wire, ids, u.value, ms[|ms| - 1]);
      }
    }
  }

  /**
   Half-close progress over the relay. From any state a fresh tunnel can reach, whatever other calls did
   on the relay, once both sides have read end of file: a run of the tunnel's own moves has at most `Work`
   moves, and one that cannot be extended has ended with both bridges and both handlers returned, every
   byte written on the other side, and both write sides closed.
   */
  lemma RelayedTunnelFinishes(cfg: Config, wire: Coding, ids: Ids, start: Tunnel, before: seq<Move>, ms: seq<Move>)
    requires Exact(wire) && Fresh(cfg, ids, start) && Relayed.Run(cfg, wire, ids, start, before).Some?
    requires var p := Relayed.Run(cfg, wire, ids, start, before).value;
      p.l.snd.eof && p.r.snd.eof && Relayed.Run(cfg, wire, ids, p, ms).Some?
    requires forall i :: 0 <= i < |ms| ==> OwnMove(ids, ms[i])
    ensures var p := Relayed.Run(cfg, wire, ids, start, before).value;
      var q := Relayed.Run(cfg, wire, ids, p, ms).value;
      && |ms| <= Work(ids, p)
      && ((forall m :: !Possible(cfg, wire, ids, q, m)) ==>
            && AllEnded(ids, q)
            && q.l.rcv.written == q.r.snd.input && q.r.rcv.written == q.l.snd.input
            && q.l.rcv.writeClosed && q.r.rcv.writeClosed)
  {
    hide Exact, Fresh, Relayed.Run, LiveOk, Work, OwnMove, Possible, P.Side, Reachable, ClientSide, AgentSide, Sole;
    FreshOk(cfg, wire, ids, start);
    FreshLive(cfg, ids, start);
    RunLive(cfg, wire, ids, start, before);
    var p := Relayed.Run(cfg, wire, ids, start, before).value;
    OwnRunBound(cfg, wire, ids, p, ms);
    var q := Relayed.Run(cfg, wire, ids, p, ms).value;
    WorkNonNegative(cfg, wire, ids, q);
    if forall m :: !Possible(cfg, wire, ids, q, m) {
      if !AllEnded(ids, q) { var m := TunnelNotStuck(cfg, wire, ids, q); assert false; }
      P.EndedDelivered(q.l, q.r);
      P.EndedDelivered(q.r, q.l);
    }
  }
}
