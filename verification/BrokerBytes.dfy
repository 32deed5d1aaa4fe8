/**
 The relayed-bytes counters. A pump adds a payload's length after the rendezvous that hands it over, so
 the counter runs behind by exactly the payloads that are handed over and not yet counted.
 */
module BrokerBytes {
  import opened Base
  import opened Messages
  import opened RelayShared
  import opened RelayHandlers
  import opened Broker
  import opened BrokerInvariants
  import opened BrokerSafety
  import opened BrokerTheorems
  import opened BrokerFlow
  import opened BrokerFlowSafety
  import opened BrokerFlowTheorems
  import opened Sums

  /** The number of bytes in a list of payloads. */
  function Length(parts: seq<Bytes>): nat {
    if parts == [] then 0 else Length(parts[..|parts| - 1]) + |parts[|parts| - 1]|
  }

  lemma {:induction false} LengthConcat(a: seq<Bytes>, b: seq<Bytes>)
    ensures Length(a + b) == Length(a) + Length(b)
  {
    if b == [] {
      assert a + b == a;
    } else {
      assert (a + b)[..|a + b| - 1] == a + b[..|b| - 1];
      LengthConcat(a, b[..|b| - 1]);
    }
  }

  lemma LengthOne(b: Bytes)
    ensures Length([b]) == |b| && Length([]) == 0
  {
    assert [b][..0] == [];
  }

  function Tallied(p: Pump): seq<Bytes> {
    if p.Tallying? then [p.payload] else []
  }

  /**
   The bytes of a pump that are in the counter: all it received, less what it has not handed over or not counted yet.
   */
  function InCounter(p: Port): int {
    Length(p.got) - Length(Offered(p.pump)) - Length(p.dropped) - Length(Tallied(p.pump))
  }

  function CountedConns(conns: Conns): map<nat, int> {
    map c | c in conns :: InCounter(conns[c].port)
  }

  function CountedAccs(accs: Accs): map<nat, int> {
    map x | x in accs :: InCounter(accs[x].port)
  }

  ghost predicate BytesOk(s: State) {
    s.bytesToAgent == Sum(CountedConns(s.conns)) && s.bytesToClient == Sum(CountedAccs(s.accs))
  }

  // ---- Steps ----

  lemma NewPortCounted()
    ensures InCounter(NEW_PORT) == 0
  {
  }

  lemma PortStepCounted(p: Port, ev: PortEvent, ctxDone: bool)
    requires PortStep(p, ev, ctxDone).Some?
    ensures InCounter(PortStep(p, ev, ctxDone).value) == InCounter(p)
  {
    if ev.Arrived? { LengthConcat(p.got, [ev.payload]); }
    if ev.OfferAborted? { LengthConcat(p.dropped, [p.pump.payload]); }
  }

  lemma HandCounted(p: Port)
    requires p.pump.Offering?
    ensures InCounter(p.(pump := Tallying(p.pump.payload))) == InCounter(p)
  {
  }

  lemma TallyCounted(p: Port)
    requires p.pump.Tallying?
    ensures InCounter(p.(pump := Receiving)) == InCounter(p) + |p.pump.payload|
  {
    LengthOne(p.pump.payload);
  }

  lemma StartCounted(p: Port)
    requires p.pump.Idle?
    ensures InCounter(p.(pump := Receiving)) == InCounter(p)
  {
  }

  lemma ConnLocalCounted(k: Conn, o: SessionState, agentDone: bool, ev: ConnEvent)
    requires ConnLocal(k, o, agentDone, ev).Some? && (k.pc.SendAccept? ==> k.port.pump.Idle?)
    ensures InCounter(ConnLocal(k, o, agentDone, ev).value.port) == InCounter(k.port)
  {
    hide Length;
    match ev
    case PumpFrame(f) => PortStepCounted(k.port, if f.ClientCiphertext? then Arrived(f.payload) else ArrivedBad, false);
    case PumpMove(pe) => PortStepCounted(k.port, pe, CtxDone(k, o));
    case _ =>
  }

  lemma AccLocalCounted(a: Acc, ctxDone: bool, ev: AccEvent)
    requires AccLocal(a, ctxDone, ev).Some?
    ensures InCounter(AccLocal(a, ctxDone, ev).value.port) == InCounter(a.port)
  {
    hide Length, PortStep;
    match ev
    case AccPumpFrame(f) =>
      PortStepCounted(a.port, if f.AgentCiphertext? then Arrived(f.payload) else ArrivedBad, false);
    case AccPumpMove(pe) => PortStepCounted(a.port, pe, ctxDone);
    case _ =>
  }

  /** Actions that leave every client's port alone, or touch it without counting. */
  lemma ConnsCounted(cfg: Config, s: State, act: Action)
    requires Inv(cfg, s) && Step(cfg, s, act).Some? && !act.NewConnect? && !act.TallyToAgent?
    ensures CountedConns(Step(cfg, s, act).value.conns) == CountedConns(s.conns)
  {
    hide Inv, InCounter;
    if act.ConnStep? {
      hide ConnLocal;
      ConnFacts(cfg, s, act.c);
      var k := s.conns[act.c];
      ConnLocalCounted(k, SessionOf(s, act.c), AgentDone(s, k.agent), act.cev);
    } else if act.HandToAgent? {
      HandCounted(s.conns[act.c].port);
    } else {
      PortsKept(cfg, s, act);
    }
  }

  lemma PortsKept(cfg: Config, s: State, act: Action)
    requires Step(cfg, s, act).Some? && !act.NewConnect? && !act.TallyToAgent? && !act.ConnStep? && !act.HandToAgent?
    ensures var t := Step(cfg, s, act).value;
      t.conns.Keys == s.conns.Keys && forall c :: c in s.conns ==> t.conns[c].port == s.conns[c].port
  {
    if SharedConn(act) {
      hide Step;
      SharedTouchesOne(cfg, s, act);
    } else {
      hide AccLocal, RegLocal, RegisterRegion, CleanupRegion, AttachRegion, CancelSession, StepConn, StepHandToAgent,
        StepTallyToAgent, StepReserve, StepCount, StepAllocate, StepInsert, StepNotify, StepDelete, StepCancelConn,
        StepRelease, StepUncount;
    }
  }

  lemma AccsCounted(cfg: Config, s: State, act: Action)
    requires FlowInv(s) && Step(cfg, s, act).Some? && !act.NewAccept? && !act.TallyToClient?
    ensures CountedAccs(Step(cfg, s, act).value.accs) == CountedAccs(s.accs)
  {
    hide FlowInv, InCounter;
    if act.AccStep? {
      hide AccLocal;
      var a := s.accs[act.x];
      AccLocalCounted(a, a.session.Some? && SessionDone(s, a.session.value), act.aev);
    } else if act.HandToClient? {
      HandCounted(s.accs[act.x].port);
    } else if act.Attach? {
      AttachCounted(s, act.x);
    } else {
      AccPortsKept(cfg, s, act);
    }
  }

  lemma AttachCounted(s: State, x: nat)
    requires FlowInv(s) && StepAttach(s, x).Some?
    ensures CountedAccs(StepAttach(s, x).value.accs) == CountedAccs(s.accs)
  {
    hide FlowInv, InCounter, AttachRegion, AccFlow;
    AccFacts(s, x);
    StartCounted(s.accs[x].port);
  }

  lemma SharedAccsKept(cfg: Config, s: State, act: Action)
    requires Step(cfg, s, act).Some? && SharedConn(act)
    ensures Step(cfg, s, act).value.accs == s.accs
  {
    hide ReserveRegion, ReleaseRegion, InsertRegion, DeleteRegion, CancelSession, FreshSid, ValidOpen, Note,
      StepRegister, StepReg, StepCleanup, StepConn, StepAcc, StepAttach, StepCancelAcc, StepHandToAgent,
      StepHandToClient, StepTallyToAgent, StepTallyToClient;
  }

  lemma AccPortsKept(cfg: Config, s: State, act: Action)
    requires Step(cfg, s, act).Some? && !act.NewAccept? && !act.TallyToClient? && !act.AccStep? && !act.HandToClient?
    requires !act.Attach?
    ensures var t := Step(cfg, s, act).value;
      t.accs.Keys == s.accs.Keys && forall x :: x in s.accs ==> t.accs[x].port == s.accs[x].port
  {
    if SharedConn(act) {
      hide Step;
      SharedAccsKept(cfg, s, act);
    } else {
      hide ConnLocal, RegLocal, RegisterRegion, CleanupRegion, CancelSession, StepReserve, StepCount, StepAllocate,
        StepInsert, StepNotify, StepDelete, StepCancelConn, StepRelease, StepUncount, StepAcc, StepAttach,
        StepHandToClient, StepTallyToClient;
    }
  }

  /** Only the two counting actions move the counters. */
  lemma CountersKept(cfg: Config, s: State, act: Action)
    requires Step(cfg, s, act).Some?
    ensures !act.TallyToAgent? ==> Step(cfg, s, act).value.bytesToAgent == s.bytesToAgent
    ensures !act.TallyToClient? ==> Step(cfg, s, act).value.bytesToClient == s.bytesToClient
  {
    hide ConnLocal, AccLocal, RegLocal, RegisterRegion, CleanupRegion, ReserveRegion, AttachRegion, ReleaseRegion,
      InsertRegion, DeleteRegion, CancelSession, FreshSid, ValidOpen, Note;
  }

  lemma StepBytesToAgent(cfg: Config, s: State, act: Action)
    requires Inv(cfg, s) && BytesOk(s) && Step(cfg, s, act).Some?
    ensures var t := Step(cfg, s, act).value; t.bytesToAgent == Sum(CountedConns(t.conns))
  {
    hide Inv, InCounter, Sum;
    if act.NewConnect? {
      NewPortCounted();
      SumUpdate(CountedConns(s.conns), act.c, 0);
      assert CountedConns(s.conns[act.c := NEW_CONN]) == CountedConns(s.conns)[act.c := 0];
    } else if act.TallyToAgent? {
      var p := s.conns[act.c].port;
      TallyCounted(p);
      SumUpdate(CountedConns(s.conns), act.c, InCounter(p.(pump := Receiving)));
      assert CountedConns(Step(cfg, s, act).value.conns)
        == CountedConns(s.conns)[act.c := InCounter(p.(pump := Receiving))];
    } else {
      hide Step;
      ConnsCounted(cfg, s, act);
      CountersKept(cfg, s, act);
    }
  }

  lemma StepBytesToClient(cfg: Config, s: State, act: Action)
    requires FlowInv(s) && BytesOk(s) && Step(cfg, s, act).Some?
    ensures var t := Step(cfg, s, act).value; t.bytesToClient == Sum(CountedAccs(t.accs))
  {
    hide FlowInv, InCounter, Sum;
    if act.NewAccept? {
      NewPortCounted();
      SumUpdate(CountedAccs(s.accs), act.x, 0);
      assert CountedAccs(s.accs[act.x := NEW_ACC]) == CountedAccs(s.accs)[act.x := 0];
    } else if act.TallyToClient? {
      var p := s.accs[act.x].port;
      TallyCounted(p);
      SumUpdate(CountedAccs(s.accs), act.x, InCounter(p.(pump := Receiving)));
      assert CountedAccs(Step(cfg, s, act).value.accs)
        == CountedAccs(s.accs)[act.x := InCounter(p.(pump := Receiving))];
    } else {
      hide Step;
      AccsCounted(cfg, s, act);
      CountersKept(cfg, s, act);
    }
  }

  lemma {:induction false} RunBytes(cfg: Config, acts: seq<Action>)
    ensures Run(cfg, INITIAL, acts).Some? ==> BytesOk(Run(cfg, INITIAL, acts).value)
  {
    if acts == [] {
      assert CountedConns(INITIAL.conns) == map[] && CountedAccs(INITIAL.accs) == map[];
    } else {
      hide Inv, FlowInv, Step, InCounter, Sum;
      var most := acts[..|acts| - 1];
      RunBytes(cfg, most);
      RunInv(cfg, most);
      RunFlow(cfg, most);
      var t := Run(cfg, INITIAL, most);
      if t.Some? && Step(cfg, t.value, acts[|acts| - 1]).Some? {
        StepBytesToAgent(cfg, t.value, acts[|acts| - 1]);
        StepBytesToClient(cfg, t.value, acts[|acts| - 1]);
      }
    }
  }

  // ---- Hand-overs add up the same from both sides ----

  function LengthsByConn(log: seq<Hand>, conns: Conns): map<nat, int> {
    map c | c in conns :: Length(ByConn(log, c))
  }

  function LengthsByAcc(log: seq<Hand>, accs: Accs): map<nat, int> {
    map x | x in accs :: Length(ByAcc(log, x))
  }

  lemma {:induction false} SumNothing(m: map<nat, int>)
    requires forall k :: k in m ==> m[k] == 0
    ensures Sum(m) == 0
  {
    SumZero(m);
  }

  /** Every hand-over is counted once on each side. */
  lemma {:induction false} BothSides(log: seq<Hand>, conns: Conns, accs: Accs)
    requires forall i :: 0 <= i < |log| ==> log[i].conn in conns && log[i].acc in accs
    ensures Sum(LengthsByConn(log, conns)) == Sum(LengthsByAcc(log, accs))
  {
    if log == [] {
      SumNothing(LengthsByConn(log, conns));
      SumNothing(LengthsByAcc(log, accs));
    } else {
      hide Length, ByConn, ByAcc, Sum;
      var most, h := log[..|log| - 1], log[|log| - 1];
      assert log == most + [h];
      BothSides(most, conns, accs);
      ConnSide(most, h, conns);
      AccSide(most, h, accs);
    }
  }

  lemma ConnSide(log: seq<Hand>, h: Hand, conns: Conns)
    requires h.conn in conns
    ensures Sum(LengthsByConn(log + [h], conns)) == Sum(LengthsByConn(log, conns)) + |h.payload|
  {
    hide Sum, Length, ByConn, ByAcc;
    var before := LengthsByConn(log, conns);
    forall c | c in conns
      ensures Length(ByConn(log + [h], c)) == Length(ByConn(log, c)) + (if c == h.conn then |h.payload| else 0) {
      LogAppend(log, h, c, 0);
      LengthConcat(ByConn(log, c), [h.payload]);
      LengthOne(h.payload);
      if c != h.conn { assert ByConn(log, c) + [] == ByConn(log, c); }
    }
    SumUpdate(before, h.conn, before[h.conn] + |h.payload|);
    assert LengthsByConn(log + [h], conns) == before[h.conn := before[h.conn] + |h.payload|];
  }

  lemma AccSide(log: seq<Hand>, h: Hand, accs: Accs)
    requires h.acc in accs
    ensures Sum(LengthsByAcc(log + [h], accs)) == Sum(LengthsByAcc(log, accs)) + |h.payload|
  {
    hide Sum, Length, ByConn, ByAcc;
    var before := LengthsByAcc(log, accs);
    forall x | x in accs
      ensures Length(ByAcc(log + [h], x)) == Length(ByAcc(log, x)) + (if x == h.acc then |h.payload| else 0) {
      LogAppend(log, h, 0, x);
      LengthConcat(ByAcc(log, x), [h.payload]);
      LengthOne(h.payload);
      if x != h.acc { assert ByAcc(log, x) + [] == ByAcc(log, x); }
    }
    SumUpdate(before, h.acc, before[h.acc] + |h.payload|);
    assert LengthsByAcc(log + [h], accs) == before[h.acc := before[h.acc] + |h.payload|];
  }

  // ---- Results ----

  /** The bytes each client's pump has handed over and not counted yet. */
  function UncountedToAgent(s: State): map<nat, int> {
    map c | c in s.conns :: Length(Tallied(s.conns[c].port.pump))
  }

  function UncountedToClient(s: State): map<nat, int> {
    map x | x in s.accs :: Length(Tallied(s.accs[x].port.pump))
  }

  /** The bytes each `Accept` call took: sent to its agent, being sent, or failed to send. */
  function TakenByAccs(s: State): map<nat, int> {
    map x | x in s.accs :: Length(s.accs[x].sent + AccHeld(s.accs[x].pc) + s.accs[x].unsent)
  }

  /** The bytes each `Connect` call took: sent to its client, being sent, or failed to send. */
  function TakenByConns(s: State): map<nat, int> {
    map c | c in s.conns :: Length(Delivered(s.conns[c].sent) + Held(s.conns[c].pc) + s.conns[c].unsent)
  }

  lemma HandedLength(p: Port, handed: seq<Bytes>)
    requires PortOk(p, handed)
    ensures Length(handed) == InCounter(p) + Length(Tallied(p.pump))
  {
    hide Length;
    LengthConcat(handed + Offered(p.pump), p.dropped);
    LengthConcat(handed, Offered(p.pump));
  }

  lemma ReachableBytes(cfg: Config, s: State)
    requires Reachable(cfg, s)
    ensures BytesOk(s)
  {
    hide Run, BytesOk;
    var acts :| Run(cfg, INITIAL, acts) == Some(s);
    RunBytes(cfg, acts);
  }

  lemma ToAgentSums(s: State)
    requires FlowInv(s)
    ensures Sum(CountedConns(s.conns)) + Sum(UncountedToAgent(s)) == Sum(TakenByAccs(s))
  {
    hide Sum, Length, ByConn, ByAcc, Frames, Attachments, Delivered, InCounter, PortOk;
    forall c | c in s.conns
      ensures Length(ByConn(s.toAgent, c)) == InCounter(s.conns[c].port) + Length(Tallied(s.conns[c].port.pump)) {
      assert ConnFlow(s.conns[c], ByConn(s.toAgent, c), ByConn(s.toClient, c));
      HandedLength(s.conns[c].port, ByConn(s.toAgent, c));
    }
    SumPlus(CountedConns(s.conns), UncountedToAgent(s), LengthsByConn(s.toAgent, s.conns));
    forall i | 0 <= i < |s.toAgent| ensures s.toAgent[i].conn in s.conns && s.toAgent[i].acc in s.accs {
      assert HandOk(s.accs, s.conns, s.toAgent[i]);
    }
    BothSides(s.toAgent, s.conns, s.accs);
    forall x | x in s.accs ensures ByAcc(s.toAgent, x) == s.accs[x].sent + AccHeld(s.accs[x].pc) + s.accs[x].unsent {
      assert AccFlow(s.accs[x], ByAcc(s.toAgent, x), ByAcc(s.toClient, x));
    }
    assert LengthsByAcc(s.toAgent, s.accs) == TakenByAccs(s);
  }

  lemma ToClientSums(s: State)
    requires FlowInv(s)
    ensures Sum(CountedAccs(s.accs)) + Sum(UncountedToClient(s)) == Sum(TakenByConns(s))
  {
    hide Sum, Length, ByConn, ByAcc, Frames, Attachments, Delivered, InCounter, PortOk;
    forall x | x in s.accs
      ensures Length(ByAcc(s.toClient, x)) == InCounter(s.accs[x].port) + Length(Tallied(s.accs[x].port.pump)) {
      assert AccFlow(s.accs[x], ByAcc(s.toAgent, x), ByAcc(s.toClient, x));
      HandedLength(s.accs[x].port, ByAcc(s.toClient, x));
    }
    SumPlus(CountedAccs(s.accs), UncountedToClient(s), LengthsByAcc(s.toClient, s.accs));
    forall i | 0 <= i < |s.toClient| ensures s.toClient[i].conn in s.conns && s.toClient[i].acc in s.accs {
      assert HandOk(s.accs, s.conns, s.toClient[i]);
    }
    BothSides(s.toClient, s.conns, s.accs);
    forall c | c in s.conns
      ensures ByConn(s.toClient, c) == Delivered(s.conns[c].sent) + Held(s.conns[c].pc) + s.conns[c].unsent {
      assert ConnFlow(s.conns[c], ByConn(s.toAgent, c), ByConn(s.toClient, c));
    }
    assert LengthsByConn(s.toClient, s.conns) == TakenByConns(s);
  }

  /**
   Each counter plus what is handed over and not counted yet is the total of what the other side took;
   it equals that total exactly when no pump holds an uncounted payload that is not empty.
   */
  lemma CountersMatchHandovers(cfg: Config, s: State)
    requires Reachable(cfg, s)
    ensures s.bytesToAgent + Sum(UncountedToAgent(s)) == Sum(TakenByAccs(s))
    ensures s.bytesToClient + Sum(UncountedToClient(s)) == Sum(TakenByConns(s))
    ensures s.bytesToAgent == Sum(TakenByAccs(s)) <==> forall c ::
      c in s.conns && s.conns[c].port.pump.Tallying? ==> s.conns[c].port.pump.payload == []
    ensures s.bytesToClient == Sum(TakenByConns(s)) <==> forall x ::
      x in s.accs && s.accs[x].port.pump.Tallying? ==> s.accs[x].port.pump.payload == []
  {
    hide Reachable, Inv, FlowInv, Sum, Length, InCounter;
    ReachableBytes(cfg, s);
    ReachableFlow(cfg, s);
    ToAgentSums(s);
    ToClientSums(s);
    SumZero(UncountedToAgent(s));
    SumZero(UncountedToClient(s));
    forall c | c in s.conns
      ensures Length(Tallied(s.conns[c].port.pump)) == 0
        <==> (s.conns[c].port.pump.Tallying? ==> s.conns[c].port.pump.payload == []) {
      TalliedLength(s.conns[c].port.pump);
    }
    forall x | x in s.accs
      ensures Length(Tallied(s.accs[x].port.pump)) == 0
        <==> (s.accs[x].port.pump.Tallying? ==> s.accs[x].port.pump.payload == []) {
      TalliedLength(s.accs[x].port.pump);
    }
    assert UncountedToAgent(s).Keys == s.conns.Keys && UncountedToClient(s).Keys == s.accs.Keys;
  }

  lemma TalliedLength(p: Pump)
    ensures Length(Tallied(p)) == if p.Tallying? then |p.payload| else 0
  {
    if p.Tallying? { LengthOne(p.payload); }
  }

  lemma EofCounted(p: Port, handed: seq<Bytes>)
    requires PortOk(p, handed) && (p.pump == Reporting(Eof) || p.pump == Exited(Eof))
    ensures InCounter(p) == Length(p.got)
  {
    assert p.dropped == [];
  }

  lemma ConnPort(cfg: Config, s: State, c: nat)
    requires Inv(cfg, s) && FlowInv(s) && c in s.conns
    ensures PortOk(s.conns[c].port, ByConn(s.toAgent, c))
  {
    hide Inv, FlowInv, ByConn, ByAcc, Delivered, ConnOutput, ConnInput, ConnAcceptors, PortOk;
    ConnOkFacts(cfg, s, c);
  }

  lemma AccPort(s: State, x: nat)
    requires FlowInv(s) && x in s.accs
    ensures PortOk(s.accs[x].port, ByAcc(s.toClient, x))
  {
    hide FlowInv, ByConn, ByAcc, AccInput, PortOk;
    AccFacts(s, x);
  }

  /** A pump that has reported end of stream is wholly in the counter: everything it ever received. */
  lemma EofMeansCounted(cfg: Config, s: State, id: nat)
    requires Reachable(cfg, s)
    ensures s.bytesToAgent == Sum(CountedConns(s.conns)) && s.bytesToClient == Sum(CountedAccs(s.accs))
    ensures id in s.conns && (s.conns[id].port.pump == Reporting(Eof) || s.conns[id].port.pump == Exited(Eof)) ==>
      CountedConns(s.conns)[id] == Length(s.conns[id].port.got)
    ensures id in s.accs && (s.accs[id].port.pump == Reporting(Eof) || s.accs[id].port.pump == Exited(Eof)) ==>
      CountedAccs(s.accs)[id] == Length(s.accs[id].port.got)
  {
    hide Reachable, Inv, FlowInv, Sum, ByConn, ByAcc, PortOk, InCounter, Length;
    ReachableBytes(cfg, s);
    ReachableFlow(cfg, s);
    if id in s.conns && (s.conns[id].port.pump == Reporting(Eof) || s.conns[id].port.pump == Exited(Eof)) {
      ConnPort(cfg, s, id);
      EofCounted(s.conns[id].port, ByConn(s.toAgent, id));
    }
    if id in s.accs && (s.accs[id].port.pump == Reporting(Eof) || s.accs[id].port.pump == Exited(Eof)) {
      AccPort(s, id);
      EofCounted(s.accs[id].port, ByAcc(s.toClient, id));
    }
  }
}
