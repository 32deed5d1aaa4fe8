/** Every action of the relay keeps the flow invariants of `BrokerFlow`. */
module BrokerFlowSafety {
  import opened Base
  import opened Messages
  import opened RelayShared
  import opened RelayHandlers
  import opened Broker
  import opened BrokerInvariants
  import opened BrokerSafety
  import opened BrokerFlow

  // ---- One record changes ----

  lemma ConnUpdate(s: State, c: nat, l: Conn)
    requires FlowInv(s) && c in s.conns
    requires ConnOutput(l, Object(s.sh.sessionObjs, c)) && ConnInput(l)
    requires ConnFlow(l, ByConn(s.toAgent, c), ByConn(s.toClient, c))
    requires l.acceptors == s.conns[c].acceptors && l.sid == s.conns[c].sid
    ensures FlowInv(s.(conns := s.conns[c := l]))
  {
    hide ConnOutput, ConnInput, ConnFlow, ByConn, ByAcc, AccInput, AccFlow, Delivered, Object;
    forall d | d in s.conns ensures ConnAcceptors(s.accs, s.sh.sessionObjs, d, s.conns[c := l][d]) {
      assert ConnAcceptors(s.accs, s.sh.sessionObjs, d, s.conns[d]);
    }
    forall x | x in s.accs ensures AccAttached(s.conns[c := l], x, s.accs[x]) {
      assert AccAttached(s.conns, x, s.accs[x]);
    }
  }

  lemma AccUpdate(s: State, x: nat, b: Acc)
    requires FlowInv(s) && x in s.accs
    requires AccInput(b) && AccFlow(b, ByAcc(s.toAgent, x), ByAcc(s.toClient, x))
    requires b.session == s.accs[x].session && s.accs[x].recvd <= b.recvd
    ensures FlowInv(s.(accs := s.accs[x := b]))
  {
    hide ConnOutput, ConnInput, ConnFlow, ByConn, ByAcc, AccInput, AccFlow, Delivered, Object;
    forall d | d in s.conns ensures ConnAcceptors(s.accs[x := b], s.sh.sessionObjs, d, s.conns[d]) {
      assert ConnAcceptors(s.accs, s.sh.sessionObjs, d, s.conns[d]);
    }
    AccUpdateAccs(s, x, b);
    AccUpdateFlow(s.conns, s.accs, s.toAgent, s.toClient, x, b);
    hide Flow, ConnAcceptors, AccAttached;
  }

  lemma AccUpdateAccs(s: State, x: nat, b: Acc)
    requires Attachments(s.conns, s.accs, s.sh.sessionObjs) && x in s.accs && AccInput(b)
    requires b.session == s.accs[x].session && s.accs[x].recvd <= b.recvd
    ensures forall y :: y in s.accs ==> AccInput(s.accs[x := b][y]) && AccAttached(s.conns, y, s.accs[x := b][y])
  {
    hide ConnAcceptors, AccInput;
    assert AccAttached(s.conns, x, s.accs[x]);
    assert AccAttached(s.conns, x, b);
  }

  lemma AccUpdateFlow(conns: Conns, accs: Accs, toAgent: seq<Hand>, toClient: seq<Hand>, x: nat, b: Acc)
    requires Flow(conns, accs, toAgent, toClient) && x in accs && b.session == accs[x].session
    requires AccFlow(b, ByAcc(toAgent, x), ByAcc(toClient, x))
    ensures Flow(conns, accs[x := b], toAgent, toClient)
  {
    hide ConnFlow, ByConn, ByAcc, AccFlow;
  }

  /** Cancelling sessions disturbs nothing that flows. */
  lemma ObjectsUpdateFlow(s: State, sh: Shared)
    requires FlowInv(s) && sh.sessionObjs.Keys == s.sh.sessionObjs.Keys
    requires forall c :: c in sh.sessionObjs ==>
      sh.sessionObjs[c] == s.sh.sessionObjs[c].(cancelled := sh.sessionObjs[c].cancelled)
    ensures FlowInv(s.(sh := sh))
  {
    hide ConnInput, ConnFlow, ByConn, ByAcc, AccInput, AccFlow, Delivered;
    forall d | d in s.conns ensures ConnAcceptors(s.accs, sh.sessionObjs, d, s.conns[d]) {
      assert ConnAcceptors(s.accs, s.sh.sessionObjs, d, s.conns[d]);
    }
    forall d | d in s.conns ensures ConnOutput(s.conns[d], Object(sh.sessionObjs, d)) {
      assert ConnOutput(s.conns[d], Object(s.sh.sessionObjs, d));
    }
  }

  /** What `FlowInv` and `Inv` say about one call. */
  lemma ConnOkFacts(cfg: Config, s: State, c: nat)
    requires Inv(cfg, s) && FlowInv(s) && c in s.conns
    ensures ConnOk(s.conns[c], SessionOf(s, c), ByConn(s.toAgent, c), ByConn(s.toClient, c))
    ensures ConnAcceptors(s.accs, s.sh.sessionObjs, c, s.conns[c])
    ensures Object(s.sh.sessionObjs, c) == SessionOf(s, c)
    ensures s.conns[c].pc.SendAccept? ==> s.conns[c].notified
  {
    hide ConnOutput, ConnInput, ConnFlow, Objects, Routing, CountersExact, NoOrphans, SessionsExact, AgentsExact,
      AccInput, AccFlow;
    ConnFacts(cfg, s, c);
  }

  lemma StepConnFlow(cfg: Config, s: State, c: nat, ev: ConnEvent)
    requires Inv(cfg, s) && FlowInv(s) && StepConn(s, c, ev).Some?
    ensures FlowInv(StepConn(s, c, ev).value)
  {
    hide ConnLocal, ConnOutput, ConnInput, ConnFlow, FlowInv, Inv, Object, SessionOf;
    var k := s.conns[c];
    var t := StepConn(s, c, ev).value;
    ConnOkFacts(cfg, s, c);
    ConnLocalOk(k, SessionOf(s, c), AgentDone(s, k.agent), ev, ByConn(s.toAgent, c), ByConn(s.toClient, c));
    ConnUpdate(s, c, t.conns[c]);
  }

  // ---- Actions that only move a Connect call along ----

  predicate Edge(p: ConnPc, q: ConnPc) {
    || (p.Reserving? && (q.Counting? || (q.Returned? && q.code != Ok))) || (p.Counting? && q.Allocating?)
    || (p.Inserting? && q.Notifying?) || (p.Notifying? && q.AwaitReady?)
    || (Unwinding(p) && Unwinding(q) && !q.Deleting? && p.code == q.code)
  }

  predicate PlainMove(k: Conn, l: Conn) {
    && Edge(k.pc, l.pc)
    && l == k.(pc := l.pc, agent := l.agent, notified := l.notified)
    && (l.notified == k.notified || (k.pc.Notifying? && l.notified))
  }

  lemma PlainMoveOk(k: Conn, l: Conn, o: SessionState, ta: seq<Bytes>, tc: seq<Bytes>)
    requires ConnOk(k, o, ta, tc) && PlainMove(k, l)
    ensures ConnOutput(l, o) && ConnInput(l) && ConnFlow(l, ta, tc)
  {
    hide Delivered;
  }

  lemma PlainFlow(cfg: Config, s: State, c: nat, l: Conn)
    requires Inv(cfg, s) && FlowInv(s) && c in s.conns && PlainMove(s.conns[c], l)
    ensures FlowInv(s.(conns := s.conns[c := l]))
  {
    hide Inv, FlowInv, ConnOutput, ConnInput, ConnFlow, Object, SessionOf, Edge;
    ConnOkFacts(cfg, s, c);
    PlainMoveOk(s.conns[c], l, SessionOf(s, c), ByConn(s.toAgent, c), ByConn(s.toClient, c));
    ConnUpdate(s, c, l);
  }

  lemma FlowIgnoresRegs(s: State, sh: Shared, regs: Regs)
    requires FlowInv(s) && sh.sessionObjs == s.sh.sessionObjs
    ensures FlowInv(s.(sh := sh, regs := regs))
  {
    hide Frames, Attachments, Flow;
  }

  lemma StepPlainFlow(cfg: Config, s: State, act: Action)
    requires Inv(cfg, s) && FlowInv(s) && Step(cfg, s, act).Some?
    requires act.Reserve? || act.Count? || act.Insert? || act.Notify? || act.Delete? || act.Release? || act.Uncount?
    ensures FlowInv(Step(cfg, s, act).value)
  {
    hide Inv, FlowInv, StepRegister, StepReg, StepCleanup, StepConn, StepAllocate, StepCancelConn, StepAcc, StepAttach,
      StepCancelAcc, StepHandToAgent, StepHandToClient;
    var t := Step(cfg, s, act).value;
    PlainFlow(cfg, s, act.c, t.conns[act.c]);
    FlowIgnoresRegs(s.(conns := t.conns), t.sh, t.regs);
    assert t == s.(conns := t.conns).(sh := t.sh, regs := t.regs);
  }

  lemma StepCancelFlow(cfg: Config, s: State, c: nat)
    requires Inv(cfg, s) && FlowInv(s) && StepCancelConn(s, c).Some?
    ensures FlowInv(StepCancelConn(s, c).value)
  {
    hide Inv, FlowInv;
    var t := StepCancelConn(s, c).value;
    PlainFlow(cfg, s, c, t.conns[c]);
    ObjectsUpdateFlow(s.(conns := t.conns), t.sh);
    assert t == s.(conns := t.conns).(sh := t.sh);
  }

  lemma StepCleanupFlow(s: State, r: nat)
    requires FlowInv(s) && StepCleanup(s, r).Some?
    ensures FlowInv(StepCleanup(s, r).value)
  {
    hide FlowInv;
    var t := StepCleanup(s, r).value;
    ObjectsUpdateFlow(s, t.sh);
    FlowIgnoresRegs(s.(sh := t.sh), t.sh, t.regs);
    assert t == s.(sh := t.sh).(sh := t.sh, regs := t.regs);
  }

  lemma StepRegisterFlow(cfg: Config, s: State, act: Action)
    requires FlowInv(s) && Step(cfg, s, act).Some? && (act.NewRegister? || act.Register? || act.RegStep?)
    ensures FlowInv(Step(cfg, s, act).value)
  {
    hide FlowInv, StepCleanup, StepConn, StepAllocate, StepCancelConn, StepAcc, StepAttach, StepCancelAcc,
      StepHandToAgent, StepHandToClient, StepReserve, StepCount, StepInsert, StepNotify, StepDelete, StepRelease,
      StepUncount;
    var t := Step(cfg, s, act).value;
    FlowIgnoresRegs(s, t.sh, t.regs);
    assert t == s.(sh := t.sh, regs := t.regs);
  }

  // ---- New calls ----

  lemma NoConnHands(s: State, c: nat)
    requires FlowInv(s)
    ensures c !in s.conns ==> ByConn(s.toAgent, c) == [] && ByConn(s.toClient, c) == []
    ensures c !in s.accs ==> ByAcc(s.toAgent, c) == [] && ByAcc(s.toClient, c) == []
  {
    hide Frames, Attachments, ConnFlow, AccFlow;
    NoHands(s.toAgent, c);
    NoHands(s.toClient, c);
  }

  lemma NewConnFlow(cfg: Config, s: State, c: nat)
    requires Inv(cfg, s) && FlowInv(s) && c !in s.conns
    ensures FlowInv(s.(conns := s.conns[c := NEW_CONN]))
  {
    hide Inv, ByConn, ByAcc, AccInput, AccFlow, ConnOutput, ConnInput, ConnFlow;
    NoConnHands(s, c);
    NewConnFresh(cfg, s, c);
    NewConnRecord(s, c);
    var conns := s.conns[c := NEW_CONN];
    forall d | d in s.conns ensures ConnAcceptors(s.accs, s.sh.sessionObjs, d, s.conns[d]) {}
    forall x | x in s.accs ensures AccAttached(conns, x, s.accs[x]) {
      assert AccAttached(s.conns, x, s.accs[x]);
    }
  }

  lemma NewConnRecord(s: State, c: nat)
    requires FlowInv(s) && c !in s.conns && c !in s.sh.sessionObjs
    ensures ConnOutput(NEW_CONN, Object(s.sh.sessionObjs, c)) && ConnInput(NEW_CONN) && ConnFlow(NEW_CONN, [], [])
    ensures ConnAcceptors(s.accs, s.sh.sessionObjs, c, NEW_CONN)
  {
    hide FlowInv;
  }

  lemma NewConnFresh(cfg: Config, s: State, c: nat)
    requires Inv(cfg, s) && c !in s.conns
    ensures c !in s.sh.sessionObjs
  {
    hide Routing, CountersExact, NoOrphans, SessionsExact, AgentsExact;
    forall d | d in s.sh.sessionObjs ensures d != c {
      assert SessionObject(s.conns, s.sh.agentObjs, d, s.sh.sessionObjs[d]);
    }
  }

  lemma NewAccRecord()
    ensures AccInput(NEW_ACC) && AccFlow(NEW_ACC, [], [])
  {
  }

  lemma NewAccHands(conns: Conns, accs: Accs, toAgent: seq<Hand>, toClient: seq<Hand>, x: nat)
    requires Flow(conns, accs, toAgent, toClient) && x !in accs
    requires AccFlow(NEW_ACC, ByAcc(toAgent, x), ByAcc(toClient, x))
    ensures Flow(conns, accs[x := NEW_ACC], toAgent, toClient)
  {
    hide ByConn, ByAcc, AccFlow, ConnFlow;
  }

  lemma NewAccFlow(s: State, x: nat)
    requires FlowInv(s) && x !in s.accs
    ensures FlowInv(s.(accs := s.accs[x := NEW_ACC]))
  {
    hide ByConn, ByAcc, AccInput, AccFlow, ConnOutput, ConnInput, ConnFlow, Object;
    NoConnHands(s, x);
    NewAccRecord();
    NewAccHands(s.conns, s.accs, s.toAgent, s.toClient, x);
    hide Flow;
    var accs := s.accs[x := NEW_ACC];
    forall d | d in s.conns ensures ConnAcceptors(accs, s.sh.sessionObjs, d, s.conns[d]) {
      assert ConnAcceptors(s.accs, s.sh.sessionObjs, d, s.conns[d]);
    }
  }

  // ---- Allocation and attachment ----

  lemma AllocateRecord(k: Conn, sid: Bytes, ta: seq<Bytes>, tc: seq<Bytes>)
    requires ConnOk(k, NO_SESSION, ta, tc) && k.pc.Allocating? && |sid| == SESSION_ID_SIZE
    ensures var l := k.(pc := SendAssigned, sid := sid); var o := SessionState(sid, k.agent, false, false, []);
      ConnOutput(l, o) && ConnInput(l) && ConnFlow(l, ta, tc)
  {
    hide Delivered;
  }

  lemma AllocateAttachments(conns: Conns, accs: Accs, sessionObjs: SessionObjs, c: nat, sid: Bytes)
    requires Attachments(conns, accs, sessionObjs) && c in conns && c !in sessionObjs
    ensures Attachments(conns[c := conns[c].(pc := SendAssigned, sid := sid)], accs,
                        sessionObjs[c := SessionState(sid, conns[c].agent, false, false, [])])
  {
    hide AccInput;
    var conns' := conns[c := conns[c].(pc := SendAssigned, sid := sid)];
    var objs := sessionObjs[c := SessionState(sid, conns[c].agent, false, false, [])];
    forall d | d in conns' ensures ConnAcceptors(accs, objs, d, conns'[d]) {
      assert ConnAcceptors(accs, sessionObjs, d, conns[d]);
    }
    forall x | x in accs ensures AccAttached(conns', x, accs[x]) {
      assert AccAttached(conns, x, accs[x]);
    }
  }

  lemma StepAllocateFlow(cfg: Config, s: State, c: nat, sid: Bytes)
    requires Inv(cfg, s) && FlowInv(s) && StepAllocate(s, c, sid).Some?
    ensures FlowInv(StepAllocate(s, c, sid).value)
  {
    hide Inv, ByConn, ByAcc, AccFlow, ConnOutput, ConnInput, ConnFlow, Attachments;
    ConnOkFacts(cfg, s, c);
    ConnFacts(cfg, s, c);
    AllocateRecord(s.conns[c], sid, ByConn(s.toAgent, c), ByConn(s.toClient, c));
    AllocateAttachments(s.conns, s.accs, s.sh.sessionObjs, c, sid);
  }

  lemma StepAccFlow(s: State, x: nat, ev: AccEvent)
    requires FlowInv(s) && StepAcc(s, x, ev).Some?
    ensures FlowInv(StepAcc(s, x, ev).value)
  {
    hide FlowInv, AccLocal, AccInput, AccFlow;
    var done := s.accs[x].session.Some? && SessionDone(s, s.accs[x].session.value);
    AccFacts(s, x);
    AccLocalOk(s.accs[x], done, ev, ByAcc(s.toAgent, x), ByAcc(s.toClient, x));
    AccUpdate(s, x, StepAcc(s, x, ev).value.accs[x]);
  }

  lemma AccFacts(s: State, x: nat)
    requires FlowInv(s) && x in s.accs
    ensures AccInput(s.accs[x]) && AccFlow(s.accs[x], ByAcc(s.toAgent, x), ByAcc(s.toClient, x))
    ensures AccAttached(s.conns, x, s.accs[x])
  {
    hide AccInput, AccFlow, AccAttached, Frames, ConnFlow, ByConn, ByAcc, ConnAcceptors, HandOk;
  }

  lemma CancelAccRecord(a: Acc, ta: seq<Bytes>, tc: seq<Bytes>)
    requires AccInput(a) && AccFlow(a, ta, tc) && a.pc.AccCancelling?
    ensures var b := a.(pc := AccReturned(a.pc.acode)); AccInput(b) && AccFlow(b, ta, tc)
  {
  }

  lemma StepCancelAccFlow(s: State, x: nat)
    requires FlowInv(s) && StepCancelAcc(s, x).Some?
    ensures FlowInv(StepCancelAcc(s, x).value)
  {
    hide FlowInv, AccInput, AccFlow;
    var t := StepCancelAcc(s, x).value;
    AccFacts(s, x);
    CancelAccRecord(s.accs[x], ByAcc(s.toAgent, x), ByAcc(s.toClient, x));
    AccUpdate(s, x, t.accs[x]);
    ObjectsUpdateFlow(s.(accs := t.accs), t.sh);
    assert t == s.(accs := t.accs).(sh := t.sh);
  }

  lemma AttachRecord(a: Acc, c: nat, ta: seq<Bytes>, tc: seq<Bytes>)
    requires AccInput(a) && AccFlow(a, ta, tc) && a.pc.Attaching?
    ensures var b := a.(pc := AccForwarding, session := Some(c), port := a.port.(pump := Receiving));
      AccInput(b) && AccFlow(b, ta, tc)
    ensures var b := a.(pc := AccReturned(NotFound)); AccInput(b) && AccFlow(b, ta, tc)
    ensures a.recvd == [AgentAccept(PROTOCOL_VERSION, a.pc.sid, a.pc.hello)] && |a.pc.hello| > 0 && a.session.None?
  {
  }

  /** Becoming ready does not disturb what was sent: nothing past the identifier had been. */
  lemma ReadyOutput(k: Conn, o: SessionState, hello: Bytes, x: nat)
    requires ConnOutput(k, o) && ConnInput(k)
    ensures ConnOutput(k.(acceptors := k.acceptors + [x]), if o.ready then o else o.(ready := true, hello := hello))
    ensures ConnInput(k.(acceptors := k.acceptors + [x]))
  {
  }

  lemma AttachConnAcceptors(s: State, x: nat)
    requires Attachments(s.conns, s.accs, s.sh.sessionObjs) && StepAttach(s, x).Some?
    requires StepAttach(s, x).value.accs[x].pc.AccForwarding?
    requires x in s.accs ==>
      s.accs[x].recvd == [AgentAccept(PROTOCOL_VERSION, s.accs[x].pc.sid, s.accs[x].pc.hello)]
        && |s.accs[x].pc.hello| > 0 && s.accs[x].session.None?
    requires s.accs[x].pc.sid in s.sh.sessions && s.sh.sessions[s.accs[x].pc.sid] in s.conns ==>
      s.conns[s.sh.sessions[s.accs[x].pc.sid]].sid == s.accs[x].pc.sid
    ensures var t := StepAttach(s, x).value;
      forall d :: d in t.conns ==> ConnAcceptors(t.accs, t.sh.sessionObjs, d, t.conns[d])
  {
    hide AccInput, AccAttached;
    var t := StepAttach(s, x).value;
    var c := t.accs[x].session.value;
    assert ConnAcceptors(s.accs, s.sh.sessionObjs, c, s.conns[c]);
    forall d | d in t.conns ensures ConnAcceptors(t.accs, t.sh.sessionObjs, d, t.conns[d]) {
      assert ConnAcceptors(s.accs, s.sh.sessionObjs, d, s.conns[d]);
    }
  }

  lemma AttachFrames(s: State, x: nat)
    requires Frames(s.conns, s.sh.sessionObjs) && StepAttach(s, x).Some?
    requires StepAttach(s, x).value.accs[x].pc.AccForwarding?
    ensures var t := StepAttach(s, x).value; Frames(t.conns, t.sh.sessionObjs)
  {
    hide ConnOutput, ConnInput;
    var t := StepAttach(s, x).value;
    var c := t.accs[x].session.value;
    ReadyOutput(s.conns[c], s.sh.sessionObjs[c], s.accs[x].pc.hello, x);
  }

  lemma AttachFlow(s: State, x: nat)
    requires Flow(s.conns, s.accs, s.toAgent, s.toClient) && StepAttach(s, x).Some?
    requires StepAttach(s, x).value.accs[x].pc.AccForwarding?
    requires s.accs[x].session.None?
    requires AccFlow(StepAttach(s, x).value.accs[x], ByAcc(s.toAgent, x), ByAcc(s.toClient, x))
    ensures var t := StepAttach(s, x).value; Flow(t.conns, t.accs, t.toAgent, t.toClient)
  {
    hide AccFlow, ByConn, ByAcc, PortOk, Delivered;
  }

  lemma AttachSid(cfg: Config, s: State, sid: Bytes)
    requires Inv(cfg, s)
    ensures sid in s.sh.sessions ==>
      s.sh.sessions[sid] in s.conns && s.conns[s.sh.sessions[sid]].sid == sid && s.sh.sessions[sid] in s.sh.sessionObjs
  {
    hide Routing, CountersExact, NoOrphans, AgentsExact;
    if sid in s.sh.sessions {
      assert ConnObjects(s.sh.agentObjs, s.sh.sessionObjs, s.sh.sessions[sid], s.conns[s.sh.sessions[sid]]);
    }
  }

  lemma StepAttachFlow(cfg: Config, s: State, x: nat)
    requires Inv(cfg, s) && FlowInv(s) && StepAttach(s, x).Some?
    ensures FlowInv(StepAttach(s, x).value)
  {
    hide Inv, ConnOutput, ConnInput, AccInput, AccFlow, ByConn, ByAcc, Frames, Flow, ConnAcceptors, HandOk;
    var t := StepAttach(s, x).value;
    AccFacts(s, x);
    var c := if t.accs[x].session.Some? then t.accs[x].session.value else 0;
    AttachRecord(s.accs[x], c, ByAcc(s.toAgent, x), ByAcc(s.toClient, x));
    AttachSid(cfg, s, s.accs[x].pc.sid);
    if t.accs[x].pc.AccForwarding? {
      AttachFrames(s, x);
      AttachConnAcceptors(s, x);
      AttachFlow(s, x);
      AttachAccs(s, x);
    } else {
      AccUpdate(s, x, t.accs[x]);
    }
  }

  lemma AttachAccs(s: State, x: nat)
    requires Attachments(s.conns, s.accs, s.sh.sessionObjs) && StepAttach(s, x).Some?
    requires StepAttach(s, x).value.accs[x].pc.AccForwarding?
    requires AccInput(StepAttach(s, x).value.accs[x])
    requires s.accs[x].recvd == [AgentAccept(PROTOCOL_VERSION, s.accs[x].pc.sid, s.accs[x].pc.hello)]
    requires s.accs[x].pc.sid in s.sh.sessions && s.sh.sessions[s.accs[x].pc.sid] in s.conns ==>
      s.conns[s.sh.sessions[s.accs[x].pc.sid]].sid == s.accs[x].pc.sid
    ensures var t := StepAttach(s, x).value;
      forall y :: y in t.accs ==> AccInput(t.accs[y]) && AccAttached(t.conns, y, t.accs[y])
  {
    hide AccInput, ConnAcceptors;
    var t := StepAttach(s, x).value;
    var c := t.accs[x].session.value;
    assert t.conns[c].acceptors[|s.conns[c].acceptors|] == x;
    forall y | y in t.accs && y != x ensures AccInput(t.accs[y]) && AccAttached(t.conns, y, t.accs[y]) {
      assert AccAttached(s.conns, y, s.accs[y]);
    }
  }

  // ---- Hand-overs ----

  lemma HandToAgentRecords(k: Conn, a: Acc, o: SessionState, ta: seq<Bytes>, tc: seq<Bytes>, ua: seq<Bytes>,
    uc: seq<Bytes>)
    requires ConnOk(k, o, ta, tc) && AccInput(a) && AccFlow(a, ua, uc)
    requires k.port.pump.Offering? && a.pc.AccForwarding?
    ensures var b := k.port.pump.payload;
      var l := k.(port := k.port.(pump := Tallying(b))); var d := a.(pc := AccSending(b));
      && ConnOutput(l, o) && ConnInput(l) && ConnFlow(l, ta + [b], tc)
      && AccInput(d) && AccFlow(d, ua + [b], uc)
  {
    hide Delivered;
    PortHandOk(k.port, ta);
  }

  lemma HandToClientRecords(k: Conn, a: Acc, o: SessionState, ta: seq<Bytes>, tc: seq<Bytes>, ua: seq<Bytes>,
    uc: seq<Bytes>)
    requires ConnOk(k, o, ta, tc) && AccInput(a) && AccFlow(a, ua, uc)
    requires k.pc.Forwarding? && a.port.pump.Offering?
    ensures var b := a.port.pump.payload;
      var l := k.(pc := SendPayload(b)); var d := a.(port := a.port.(pump := Tallying(b)));
      && ConnOutput(l, o) && ConnInput(l) && ConnFlow(l, ta, tc + [b])
      && AccInput(d) && AccFlow(d, ua, uc + [b])
  {
    hide Delivered;
    PortHandOk(a.port, uc);
  }

  /** A hand-over in either direction changes exactly the two projections it belongs to. */
  lemma HandUpdate(s: State, h: Hand, l: Conn, b: Acc, up: bool)
    requires FlowInv(s) && HandOk(s.accs, s.conns, h)
    requires l.acceptors == s.conns[h.conn].acceptors && l.sid == s.conns[h.conn].sid
    requires b.session == s.accs[h.acc].session && b.recvd == s.accs[h.acc].recvd
    requires ConnOutput(l, Object(s.sh.sessionObjs, h.conn)) && ConnInput(l) && AccInput(b)
    requires ConnFlow(l, ByConn(if up then s.toAgent + [h] else s.toAgent, h.conn),
      ByConn(if up then s.toClient else s.toClient + [h], h.conn))
    requires AccFlow(b, ByAcc(if up then s.toAgent + [h] else s.toAgent, h.acc),
      ByAcc(if up then s.toClient else s.toClient + [h], h.acc))
    ensures var t := s.(conns := s.conns[h.conn := l], accs := s.accs[h.acc := b],
                        toAgent := if up then s.toAgent + [h] else s.toAgent, toClient := if up then s.toClient
                          else s.toClient + [h]);
      && Frames(t.conns, t.sh.sessionObjs) && Attachments(t.conns, t.accs, t.sh.sessionObjs)
      && Flow(t.conns, t.accs, t.toAgent, t.toClient)
  {
    hide Flow, Attachments, ConnOutput, ConnInput, AccInput, ConnFlow, AccFlow, ByConn, ByAcc, Object;
    HandUpdateFlow(s, h, l, b, up);
    HandUpdateAttachments(s.conns, s.accs, s.sh.sessionObjs, h, l, b);
  }

  lemma HandUpdateAttachments(conns: Conns, accs: Accs, sessionObjs: SessionObjs, h: Hand, l: Conn, b: Acc)
    requires Attachments(conns, accs, sessionObjs) && HandOk(accs, conns, h) && AccInput(b)
    requires l.acceptors == conns[h.conn].acceptors && l.sid == conns[h.conn].sid
    requires b.session == accs[h.acc].session && b.recvd == accs[h.acc].recvd
    ensures Attachments(conns[h.conn := l], accs[h.acc := b], sessionObjs)
  {
    hide AccInput;
    var conns', accs' := conns[h.conn := l], accs[h.acc := b];
    forall d | d in conns' ensures ConnAcceptors(accs', sessionObjs, d, conns'[d]) {
      assert ConnAcceptors(accs, sessionObjs, d, conns[d]);
    }
    forall y | y in accs' ensures AccInput(accs'[y]) && AccAttached(conns', y, accs'[y]) {
      assert AccAttached(conns, y, accs[y]);
    }
  }

  lemma HandUpdateFlow(s: State, h: Hand, l: Conn, b: Acc, up: bool)
    requires Flow(s.conns, s.accs, s.toAgent, s.toClient) && HandOk(s.accs, s.conns, h)
    requires b.session == s.accs[h.acc].session
    requires ConnFlow(l, ByConn(if up then s.toAgent + [h] else s.toAgent, h.conn),
      ByConn(if up then s.toClient else s.toClient + [h], h.conn))
    requires AccFlow(b, ByAcc(if up then s.toAgent + [h] else s.toAgent, h.acc),
      ByAcc(if up then s.toClient else s.toClient + [h], h.acc))
    ensures Flow(s.conns[h.conn := l], s.accs[h.acc := b], if up then s.toAgent + [h] else s.toAgent,
      if up then s.toClient else s.toClient + [h])
  {
    hide ConnFlow, AccFlow, ByConn, ByAcc;
    forall c, x
      ensures c != h.conn ==>
        ByConn(s.toAgent + [h], c) == ByConn(s.toAgent, c) && ByConn(s.toClient + [h], c) == ByConn(s.toClient, c)
      ensures x != h.acc ==>
        ByAcc(s.toAgent + [h], x) == ByAcc(s.toAgent, x) && ByAcc(s.toClient + [h], x) == ByAcc(s.toClient, x)
    {
      LogAppend(s.toAgent, h, c, x);
      LogAppend(s.toClient, h, c, x);
    }
  }

  lemma StepHandFlow(cfg: Config, s: State, c: nat, x: nat)
    requires Inv(cfg, s) && FlowInv(s)
    ensures StepHandToAgent(s, c, x).Some? ==> FlowInv(StepHandToAgent(s, c, x).value)
    ensures StepHandToClient(s, c, x).Some? ==> FlowInv(StepHandToClient(s, c, x).value)
  {
    hide Inv, Frames, Attachments, Flow, ConnOutput, ConnInput, AccInput, ConnFlow, AccFlow, ByConn, ByAcc, Object,
      SessionOf;
    if c in s.conns && x in s.accs {
      ConnOkFacts(cfg, s, c);
      AccFacts(s, x);
      var k, a := s.conns[c], s.accs[x];
      var o := SessionOf(s, c);
      if StepHandToAgent(s, c, x).Some? {
        var h := Hand(c, x, k.port.pump.payload);
        LogAppend(s.toAgent, h, c, x);
        HandToAgentRecords(k, a, o, ByConn(s.toAgent, c), ByConn(s.toClient, c), ByAcc(s.toAgent, x),
          ByAcc(s.toClient, x));
        HandUpdate(s, h, StepHandToAgent(s, c, x).value.conns[c], StepHandToAgent(s, c, x).value.accs[x], true);
      }
      if StepHandToClient(s, c, x).Some? {
        var h := Hand(c, x, a.port.pump.payload);
        LogAppend(s.toClient, h, c, x);
        HandToClientRecords(k, a, o, ByConn(s.toAgent, c), ByConn(s.toClient, c), ByAcc(s.toAgent, x),
          ByAcc(s.toClient, x));
        HandUpdate(s, h, StepHandToClient(s, c, x).value.conns[c], StepHandToClient(s, c, x).value.accs[x], false);
      }
    }
  }

  lemma TallyRecords(k: Conn, a: Acc, o: SessionState, ta: seq<Bytes>, tc: seq<Bytes>, ua: seq<Bytes>, uc: seq<Bytes>)
    ensures ConnOk(k, o, ta, tc) && k.port.pump.Tallying? ==>
      var l := k.(port := k.port.(pump := Receiving)); ConnOutput(l, o) && ConnInput(l) && ConnFlow(l, ta, tc)
    ensures AccInput(a) && AccFlow(a, ua, uc) && a.port.pump.Tallying? ==>
      var b := a.(port := a.port.(pump := Receiving)); AccInput(b) && AccFlow(b, ua, uc)
  {
    hide Delivered;
  }

  lemma StepTallyFlow(cfg: Config, s: State, id: nat)
    requires Inv(cfg, s) && FlowInv(s)
    ensures StepTallyToAgent(s, id).Some? ==> FlowInv(StepTallyToAgent(s, id).value)
    ensures StepTallyToClient(s, id).Some? ==> FlowInv(StepTallyToClient(s, id).value)
  {
    hide Inv, Frames, Attachments, Flow, ConnOutput, ConnInput, AccInput, ConnFlow, AccFlow, ByConn, ByAcc, Object,
      SessionOf, ConnSane;
    var k := if id in s.conns then s.conns[id] else NEW_CONN;
    var a := if id in s.accs then s.accs[id] else NEW_ACC;
    TallyRecords(k, a, SessionOf(s, id), ByConn(s.toAgent, id), ByConn(s.toClient, id), ByAcc(s.toAgent, id),
      ByAcc(s.toClient, id));
    if StepTallyToAgent(s, id).Some? {
      ConnOkFacts(cfg, s, id);
      ConnUpdate(s, id, StepTallyToAgent(s, id).value.conns[id]);
    }
    if StepTallyToClient(s, id).Some? {
      AccFacts(s, id);
      AccUpdate(s, id, StepTallyToClient(s, id).value.accs[id]);
    }
  }

  // ---- All actions, all runs ----

  lemma StepFlow(cfg: Config, s: State, act: Action)
    requires Inv(cfg, s) && FlowInv(s) && Step(cfg, s, act).Some?
    ensures FlowInv(Step(cfg, s, act).value)
  {
    hide Inv, FlowInv, StepRegister, StepReg, StepCleanup, StepConn, StepReserve, StepCount, StepAllocate, StepInsert,
      StepNotify, StepDelete, StepCancelConn, StepRelease, StepUncount, StepAcc, StepAttach, StepCancelAcc,
      StepHandToAgent, StepHandToClient, StepTallyToAgent, StepTallyToClient;
    match act
    case NewRegister(_, _) => StepRegisterFlow(cfg, s, act);
    case Register(_) => StepRegisterFlow(cfg, s, act);
    case RegStep(_, _) => StepRegisterFlow(cfg, s, act);
    case Cleanup(r) => StepCleanupFlow(s, r);
    case NewConnect(c) => NewConnFlow(cfg, s, c);
    case ConnStep(c, ev) => StepConnFlow(cfg, s, c, ev);
    case Allocate(c, sid) => StepAllocateFlow(cfg, s, c, sid);
    case CancelConn(c) => StepCancelFlow(cfg, s, c);
    case NewAccept(x) => NewAccFlow(s, x);
    case AccStep(x, ev) => StepAccFlow(s, x, ev);
    case Attach(x) => StepAttachFlow(cfg, s, x);
    case CancelAcc(x) => StepCancelAccFlow(s, x);
    case HandToAgent(c, x) => StepHandFlow(cfg, s, c, x);
    case HandToClient(c, x) => StepHandFlow(cfg, s, c, x);
    case TallyToAgent(c) => StepTallyFlow(cfg, s, c);
    case TallyToClient(x) => StepTallyFlow(cfg, s, x);
    case _ => StepPlainFlow(cfg, s, act);
  }

  lemma {:induction false} RunFlow(cfg: Config, acts: seq<Action>)
    ensures Run(cfg, INITIAL, acts).Some? ==> FlowInv(Run(cfg, INITIAL, acts).value)
  {
    if acts == [] {
    } else {
      hide Inv, FlowInv, Step;
      var most := acts[..|acts| - 1];
      RunFlow(cfg, most);
      RunInv(cfg, most);
      var t := Run(cfg, INITIAL, most);
      if t.Some? && Step(cfg, t.value, acts[|acts| - 1]).Some? {
        StepFlow(cfg, t.value, acts[|acts| - 1]);
      }
    }
  }
}
