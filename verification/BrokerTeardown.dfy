/** Teardown: left alone, every call and every pump comes to its end, in every run. */
module BrokerTeardown {
  import opened Base
  import opened Messages
  import opened RelayShared
  import opened RelayHandlers
  import opened Broker
  import opened BrokerInvariants
  import opened BrokerSafety
  import opened BrokerTheorems
  import opened BrokerFlow
  import opened BrokerFlowSafety
  import opened BrokerFlowTheorems
  import opened Sums

  // ---- Quiet actions ----

  /** A new call, or a frame from a peer. */
  predicate Outside(act: Action) {
    || act.NewRegister? || act.NewConnect? || act.NewAccept?
    || (act.ConnStep? && (act.cev.RecvFrame? || act.cev.PumpFrame?))
    || (act.AccStep? && (act.aev.AccFrame? || act.aev.AccPumpFrame?))
  }

  /** An action that brings nothing new from outside and changes the state. */
  ghost predicate Quiet(cfg: Config, s: State, act: Action) {
    !Outside(act) && Step(cfg, s, act).Some? && Step(cfg, s, act).value != s
  }

  ghost predicate QuietRun(cfg: Config, s: State, acts: seq<Action>) {
    acts != [] ==>
      var most := acts[..|acts| - 1];
      QuietRun(cfg, s, most) && Run(cfg, s, most).Some? && Quiet(cfg, Run(cfg, s, most).value, acts[|acts| - 1])
  }

  // ---- How far a call is from having returned ----

  function PumpRank(p: Pump): nat {
    match p case Idle => 0 case Exited(_) => 0 case Reporting(_) => 1 case Receiving => 2 case Tallying(_) => 3
      case Offering(_) => 5
  }

  function PcRank(pc: ConnPc): nat {
    match pc
    case Returned(_) => 0 case RecvOpen => 1 case Uncounting(_) => 1 case Releasing(_) => 2 case Cancelling(_) => 3
    case Deleting(_) => 4 case RecvHandshake => 4 case SendAssigned => 5 case Allocating => 6 case Counting => 7
      case Reserving => 8
    case Forwarding => 5 case SendPayload(_) => 6 case SendAccept => 8 case AwaitReady => 9 case Notifying => 11
      case Inserting => 12
  }

  function ConnRank(k: Conn): nat {
    PcRank(k.pc) + PumpRank(k.port.pump) + (if k.streamDone then 0 else 1)
  }

  function AccRank(a: Acc): nat {
    PumpRank(a.port.pump) +
    match a.pc
    case AccReturned(_) => 0 case RecvAccept => 1 case AccCancelling(_) => 1 case AccForwarding => 2
    case AccSending(_) => 3 case Attaching(_, _) => 5
  }

  function RegRank(g: Reg): nat {
    (if g.streamDone then 0 else 1) +
    match g.pc
    case RegReturned(_) => 0 case RegCleanup(_) => 1 case RegLoop => 2 case RegSending(_) => 3 case RegStart => 4
  }

  function ConnRanks(conns: Conns): map<nat, int> {
    map c | c in conns :: ConnRank(conns[c])
  }

  function AccRanks(accs: Accs): map<nat, int> {
    map x | x in accs :: AccRank(accs[x])
  }

  function RegRanks(regs: Regs): map<nat, int> {
    map r | r in regs :: RegRank(regs[r])
  }

  ghost function Measure(s: State): int {
    Sum(ConnRanks(s.conns)) + Sum(AccRanks(s.accs)) + Sum(RegRanks(s.regs))
  }

  lemma MeasureNonNegative(s: State)
    ensures Measure(s) >= 0
  {
    SumZero(ConnRanks(s.conns));
    SumZero(AccRanks(s.accs));
    SumZero(RegRanks(s.regs));
  }

  lemma ConnSum(conns: Conns, c: nat, l: Conn)
    requires c in conns
    ensures Sum(ConnRanks(conns[c := l])) == Sum(ConnRanks(conns)) + ConnRank(l) - ConnRank(conns[c])
  {
    hide ConnRank;
    SumUpdate(ConnRanks(conns), c, ConnRank(l));
    assert ConnRanks(conns[c := l]) == ConnRanks(conns)[c := ConnRank(l)];
  }

  lemma AccSum(accs: Accs, x: nat, b: Acc)
    requires x in accs
    ensures Sum(AccRanks(accs[x := b])) == Sum(AccRanks(accs)) + AccRank(b) - AccRank(accs[x])
  {
    hide AccRank;
    SumUpdate(AccRanks(accs), x, AccRank(b));
    assert AccRanks(accs[x := b]) == AccRanks(accs)[x := AccRank(b)];
  }

  lemma RegSum(regs: Regs, r: nat, g: Reg)
    requires r in regs
    ensures Sum(RegRanks(regs[r := g])) == Sum(RegRanks(regs)) + RegRank(g) - RegRank(regs[r])
  {
    hide RegRank;
    SumUpdate(RegRanks(regs), r, RegRank(g));
    assert RegRanks(regs[r := g]) == RegRanks(regs)[r := RegRank(g)];
  }

  // ---- Every quiet action lowers the measure ----

  lemma PortDescends(p: Port, ev: PortEvent, ctxDone: bool)
    requires PortStep(p, ev, ctxDone).Some? && !ev.Arrived?
    ensures PumpRank(PortStep(p, ev, ctxDone).value.pump) < PumpRank(p.pump)
  {
  }

  lemma ConnLocalDescends(k: Conn, o: SessionState, agentDone: bool, ev: ConnEvent)
    requires ConnLocal(k, o, agentDone, ev).Some? && !ev.RecvFrame? && !ev.PumpFrame?
    requires (k.pc.SendAccept? ==> k.port.pump.Idle?)
    requires ev.StreamDone? ==> ConnLocal(k, o, agentDone, ev).value != k
    ensures ConnRank(ConnLocal(k, o, agentDone, ev).value) < ConnRank(k)
  {
    hide ConnRecv, ConnPump, PortStep;
    if ev.PumpMove? { PortDescends(k.port, ev.ev, CtxDone(k, o)); }
  }

  lemma AccLocalDescends(a: Acc, ctxDone: bool, ev: AccEvent)
    requires AccLocal(a, ctxDone, ev).Some? && !ev.AccFrame? && !ev.AccPumpFrame?
    ensures AccRank(AccLocal(a, ctxDone, ev).value) < AccRank(a)
  {
    hide PortStep;
    if ev.AccPumpMove? { PortDescends(a.port, ev.ev, ctxDone); }
  }

  lemma RegLocalDescends(g: Reg, ev: RegEvent)
    requires RegLocal(g, ev).Some? && RegLocal(g, ev).value != g
    ensures RegRank(RegLocal(g, ev).value) < RegRank(g)
  {
  }

  lemma ConnStepDescends(cfg: Config, s: State, c: nat, ev: ConnEvent)
    requires Inv(cfg, s) && Quiet(cfg, s, ConnStep(c, ev))
    ensures Measure(Step(cfg, s, ConnStep(c, ev)).value) < Measure(s)
  {
    hide Inv, ConnLocal, ConnRank, Sum;
    ConnFacts(cfg, s, c);
    var k := s.conns[c];
    var t := StepConn(s, c, ev).value;
    assert s.conns[c := k] == s.conns;
    ConnLocalDescends(k, SessionOf(s, c), AgentDone(s, k.agent), ev);
    ConnSum(s.conns, c, t.conns[c]);
  }

  /** The shared steps of a call other than notification. */
  predicate ConnAction(act: Action) {
    || act.Reserve? || act.Count? || act.Allocate? || act.Insert?
    || act.Delete? || act.CancelConn? || act.Release? || act.Uncount? || act.TallyToAgent?
  }

  lemma ConnLeavingRecord(cfg: Config, s: State, act: Action)
    requires (act.Delete? || act.CancelConn? || act.Release? || act.Uncount? || act.TallyToAgent?)
    requires Step(cfg, s, act).Some?
    ensures var t := Step(cfg, s, act).value;
      && act.c in s.conns && act.c in t.conns && t.conns == s.conns[act.c := t.conns[act.c]] && t.accs == s.accs
      && t.regs == s.regs
      && ConnRank(t.conns[act.c]) < ConnRank(s.conns[act.c])
  {
    hide ReleaseRegion, DeleteRegion, CancelSession, StepRegister, StepReg, StepCleanup, StepNotify, StepReserve,
      StepCount, StepAllocate, StepInsert, StepConn, StepAcc, StepAttach, StepCancelAcc, StepHandToAgent,
      StepHandToClient, StepTallyToClient;
  }

  lemma ConnActionRecord(cfg: Config, s: State, act: Action)
    requires ConnAction(act) && Step(cfg, s, act).Some?
    ensures var t := Step(cfg, s, act).value;
      && act.c in s.conns && act.c in t.conns && t.conns == s.conns[act.c := t.conns[act.c]] && t.accs == s.accs
      && t.regs == s.regs
      && ConnRank(t.conns[act.c]) < ConnRank(s.conns[act.c])
  {
    if act.Delete? || act.CancelConn? || act.Release? || act.Uncount? || act.TallyToAgent? {
      hide Step, ConnRank;
      ConnLeavingRecord(cfg, s, act);
    } else {
      hide InsertRegion, FreshSid, ValidOpen, StepRegister, StepReg, StepCleanup, StepNotify, StepDelete,
        StepCancelConn, StepRelease, StepUncount, StepTallyToAgent, StepConn, StepAcc, StepAttach, StepCancelAcc,
        StepHandToAgent, StepHandToClient, StepTallyToClient;
    }
  }

  lemma ConnActionDescends(cfg: Config, s: State, act: Action)
    requires ConnAction(act) && Step(cfg, s, act).Some?
    ensures Measure(Step(cfg, s, act).value) < Measure(s)
  {
    hide Step, ConnRank, Sum;
    ConnActionRecord(cfg, s, act);
    ConnSum(s.conns, act.c, Step(cfg, s, act).value.conns[act.c]);
  }

  lemma NotifyDescends(s: State, c: nat)
    requires StepNotify(s, c).Some?
    ensures Measure(StepNotify(s, c).value) < Measure(s)
  {
    hide Sum;
    var t := StepNotify(s, c).value;
    ConnSum(s.conns, c, t.conns[c]);
    RegSum(s.regs, s.conns[c].agent, t.regs[s.conns[c].agent]);
  }

  lemma HandToAgentDescends(s: State, c: nat, x: nat)
    requires StepHandToAgent(s, c, x).Some?
    ensures Measure(StepHandToAgent(s, c, x).value) < Measure(s)
  {
    hide Sum;
    var t := StepHandToAgent(s, c, x).value;
    ConnSum(s.conns, c, t.conns[c]);
    AccSum(s.accs, x, t.accs[x]);
  }

  lemma HandToClientDescends(s: State, c: nat, x: nat)
    requires StepHandToClient(s, c, x).Some?
    ensures Measure(StepHandToClient(s, c, x).value) < Measure(s)
  {
    hide Sum;
    var t := StepHandToClient(s, c, x).value;
    ConnSum(s.conns, c, t.conns[c]);
    AccSum(s.accs, x, t.accs[x]);
  }

  lemma AccStepDescends(s: State, x: nat, ev: AccEvent)
    requires StepAcc(s, x, ev).Some? && !ev.AccFrame? && !ev.AccPumpFrame?
    ensures Measure(StepAcc(s, x, ev).value) < Measure(s)
  {
    hide AccLocal, AccRank, Sum;
    var a := s.accs[x];
    AccLocalDescends(a, a.session.Some? && SessionDone(s, a.session.value), ev);
    AccSum(s.accs, x, StepAcc(s, x, ev).value.accs[x]);
  }

  lemma AttachDescends(s: State, x: nat)
    requires FlowInv(s) && StepAttach(s, x).Some?
    ensures Measure(StepAttach(s, x).value) < Measure(s)
  {
    hide Sum, FlowInv, AccFlow, AttachRegion;
    AccFacts(s, x);
    var t := StepAttach(s, x).value;
    AccSum(s.accs, x, t.accs[x]);
    if t.accs[x].session.Some? {
      var c := t.accs[x].session.value;
      ConnSum(s.conns, c, t.conns[c]);
    }
  }

  lemma AccActionsDescend(s: State, x: nat)
    ensures StepCancelAcc(s, x).Some? ==> Measure(StepCancelAcc(s, x).value) < Measure(s)
    ensures StepTallyToClient(s, x).Some? ==> Measure(StepTallyToClient(s, x).value) < Measure(s)
  {
    hide Sum, CancelSession;
    if StepCancelAcc(s, x).Some? { AccSum(s.accs, x, StepCancelAcc(s, x).value.accs[x]); }
    if StepTallyToClient(s, x).Some? { AccSum(s.accs, x, StepTallyToClient(s, x).value.accs[x]); }
  }

  lemma RegStepDescends(cfg: Config, s: State, r: nat, ev: RegEvent)
    requires Quiet(cfg, s, RegStep(r, ev))
    ensures Measure(StepReg(s, r, ev).value) < Measure(s)
  {
    hide Sum, RegLocal, RegRank;
    assert s.regs[r := s.regs[r]] == s.regs;
    RegLocalDescends(s.regs[r], ev);
    RegSum(s.regs, r, StepReg(s, r, ev).value.regs[r]);
  }

  lemma RegisterDescends(cfg: Config, s: State, r: nat)
    requires StepRegister(cfg, s, r).Some?
    ensures Measure(StepRegister(cfg, s, r).value) < Measure(s)
  {
    hide Sum, RegisterRegion;
    RegSum(s.regs, r, StepRegister(cfg, s, r).value.regs[r]);
  }

  lemma CleanupDescends(s: State, r: nat)
    requires StepCleanup(s, r).Some?
    ensures Measure(StepCleanup(s, r).value) < Measure(s)
  {
    hide Sum, CleanupRegion;
    RegSum(s.regs, r, StepCleanup(s, r).value.regs[r]);
  }

  lemma QuietDescends(cfg: Config, s: State, act: Action)
    requires Inv(cfg, s) && FlowInv(s) && Quiet(cfg, s, act)
    ensures Measure(Step(cfg, s, act).value) < Measure(s)
  {
    hide Inv, FlowInv, Measure, StepRegister, StepReg, StepCleanup, StepConn, StepReserve, StepCount, StepAllocate,
      StepInsert, StepNotify, StepDelete, StepCancelConn, StepRelease, StepUncount, StepAcc, StepAttach, StepCancelAcc,
      StepHandToAgent, StepHandToClient, StepTallyToAgent, StepTallyToClient;
    match act
    case ConnStep(c, ev) => ConnStepDescends(cfg, s, c, ev);
    case Notify(c) => NotifyDescends(s, c);
    case HandToAgent(c, x) => HandToAgentDescends(s, c, x);
    case HandToClient(c, x) => HandToClientDescends(s, c, x);
    case RegStep(r, ev) => RegStepDescends(cfg, s, r, ev);
    case Register(r) => RegisterDescends(cfg, s, r);
    case Cleanup(r) => CleanupDescends(s, r);
    case AccStep(x, ev) => AccStepDescends(s, x, ev);
    case Attach(x) => AttachDescends(s, x);
    case CancelAcc(x) => AccActionsDescend(s, x);
    case TallyToClient(x) => AccActionsDescend(s, x);
    case _ => ConnActionDescends(cfg, s, act);
  }

  // ---- A way out for every call ----

  predicate PumpEnded(p: Pump) {
    p.Idle? || p.Exited?
  }

  predicate ConnEnded(k: Conn) {
    k.pc.Returned? && PumpEnded(k.port.pump)
  }

  predicate AccEnded(a: Acc) {
    a.pc.AccReturned? && PumpEnded(a.port.pump)
  }

  /** A step of call `c` or its pump, a failing stream operation included, that needs no partner and no frame. */
  predicate OwnConn(act: Action, c: nat) {
    || (act.ConnStep? && act.c == c && !Outside(act) && !act.cev.StreamDone?)
    || (ConnAction(act) && act.c == c)
  }

  predicate OwnAcc(act: Action, x: nat) {
    (act.AccStep? && act.x == x && !Outside(act)) || act == Attach(x) || act == CancelAcc(x) || act == TallyToClient(x)
  }

  function PumpExit(p: Pump): PortEvent {
    if p.Receiving? then Ended(false) else if p.Offering? then OfferAborted else Reported
  }

  /** The next step of a `Connect` call whose context is done. */
  function ConnExit(k: Conn, c: nat): Action {
    if k.port.pump.Tallying? then TallyToAgent(c)
    else if !PumpEnded(k.port.pump) then ConnStep(c, PumpMove(PumpExit(k.port.pump)))
    else match k.pc
      case RecvOpen => ConnStep(c, RecvError) case Reserving => Reserve(c) case Counting => Count(c)
      case Allocating => ConnStep(c, RandomFailed) case SendAssigned => ConnStep(c, SendError)
      case RecvHandshake => ConnStep(c, RecvError) case Inserting => Insert(c)
      case SendAccept => ConnStep(c, SendError) case SendPayload(_) => ConnStep(c, SendError)
      case Deleting(_) => Delete(c) case Cancelling(_) => CancelConn(c) case Releasing(_) => Release(c)
      case Uncounting(_) => Uncount(c)
      case _ => ConnStep(c, ContextDone)
  }

  /** A pump with a result to report finds its one-slot channel empty. */
  lemma ReportingHasRoom(cfg: Config, s: State, id: nat)
    requires Inv(cfg, s) && FlowInv(s)
    ensures id in s.conns && s.conns[id].port.pump.Reporting? ==> s.conns[id].port.errCh.None?
    ensures id in s.accs && s.accs[id].port.pump.Reporting? ==> s.accs[id].port.errCh.None?
  {
    hide Inv, FlowInv, ByConn, ByAcc, Delivered, ConnOutput, ConnInput, ConnAcceptors, AccInput, AccAttached;
    if id in s.conns { ConnOkFacts(cfg, s, id); }
    if id in s.accs { AccFacts(s, id); }
  }

  lemma ConnExitRecord(k: Conn, c: nat, o: SessionState, agentDone: bool, ev: ConnEvent)
    requires !ConnEnded(k) && ConnExit(k, c) == ConnStep(c, ev) && CtxDone(k, o)
    requires k.port.pump.Reporting? ==> k.port.errCh.None?
    ensures !ev.RecvFrame? && !ev.PumpFrame? && !ev.StreamDone?
    ensures ConnLocal(k, o, agentDone, ev).Some? && ConnLocal(k, o, agentDone, ev).value != k
  {
    hide ConnRecv, ConnSendOk, ConnPump;
  }

  lemma ConnExitLocal(cfg: Config, s: State, c: nat)
    requires Inv(cfg, s) && FlowInv(s) && c in s.conns && !ConnEnded(s.conns[c]) && SessionDone(s, c)
    requires ConnExit(s.conns[c], c).ConnStep?
    ensures OwnConn(ConnExit(s.conns[c], c), c) && Quiet(cfg, s, ConnExit(s.conns[c], c))
  {
    hide Inv, FlowInv, ConnLocal;
    ReportingHasRoom(cfg, s, c);
    var act := ConnExit(s.conns[c], c);
    assert act.c == c;
    hide ConnExit;
    ConnExitRecord(s.conns[c], c, SessionOf(s, c), AgentDone(s, s.conns[c].agent), act.cev);
    assert Step(cfg, s, act).value.conns[c] != s.conns[c];
  }

  lemma ConnExitShared(cfg: Config, s: State, c: nat)
    requires c in s.conns && !ConnEnded(s.conns[c]) && !ConnExit(s.conns[c], c).ConnStep?
    requires ConnObjects(s.sh.agentObjs, s.sh.sessionObjs, c, s.conns[c])
    ensures var act := ConnExit(s.conns[c], c); ConnAction(act) && act.c == c && Step(cfg, s, act).Some?
  {
    hide ReserveRegion, ReleaseRegion, InsertRegion, DeleteRegion, CancelSession, StepRegister, StepReg, StepCleanup,
      StepConn, StepAllocate, StepNotify, StepAcc, StepAttach, StepCancelAcc, StepHandToAgent, StepHandToClient,
      StepTallyToClient;
  }

  /** A `Connect` call whose context is done and that has not ended always has a step of its own. */
  lemma ConnCanExit(cfg: Config, s: State, c: nat)
    requires Inv(cfg, s) && FlowInv(s) && c in s.conns && !ConnEnded(s.conns[c]) && SessionDone(s, c)
    ensures OwnConn(ConnExit(s.conns[c], c), c) && Quiet(cfg, s, ConnExit(s.conns[c], c))
  {
    hide Inv, FlowInv, ConnEnded, ConnExit, SessionDone;
    var act := ConnExit(s.conns[c], c);
    if act.ConnStep? {
      hide Quiet, OwnConn;
      ConnExitLocal(cfg, s, c);
    } else {
      hide Step, ConnRank;
      ConnFacts(cfg, s, c);
      ConnExitShared(cfg, s, c);
      ConnActionRecord(cfg, s, act);
    }
  }

  function AccExit(a: Acc, x: nat): Action {
    if a.port.pump.Tallying? then TallyToClient(x)
    else if !PumpEnded(a.port.pump) then AccStep(x, AccPumpMove(PumpExit(a.port.pump)))
    else match a.pc
      case RecvAccept => AccStep(x, AccRecvError) case Attaching(_, _) => Attach(x)
      case AccSending(_) => AccStep(x, AccSendError) case AccForwarding => AccStep(x, AccContext)
      case _ => CancelAcc(x)
  }

  lemma AccExitRecord(a: Acc, x: nat, done: bool, ta: seq<Bytes>, tc: seq<Bytes>)
    requires !AccEnded(a) && AccExit(a, x).AccStep? && AccInput(a) && AccFlow(a, ta, tc) && (a.session.Some? ==> done)
    ensures var act := AccExit(a, x);
      OwnAcc(act, x) && AccLocal(a, done, act.aev).Some? && AccLocal(a, done, act.aev).value != a
  {
  }

  lemma AccExitLocal(cfg: Config, s: State, x: nat)
    requires FlowInv(s) && x in s.accs && !AccEnded(s.accs[x]) && AccExit(s.accs[x], x).AccStep?
    requires s.accs[x].session.Some? ==> SessionDone(s, s.accs[x].session.value)
    ensures OwnAcc(AccExit(s.accs[x], x), x) && Quiet(cfg, s, AccExit(s.accs[x], x))
  {
    hide FlowInv, ByAcc, AccExit, AccLocal, AccInput, AccFlow, AccEnded, OwnAcc, SessionDone;
    AccFacts(s, x);
    var act := AccExit(s.accs[x], x);
    AccExitRecord(s.accs[x], x, s.accs[x].session.Some?, ByAcc(s.toAgent, x), ByAcc(s.toClient, x));
    OwnAccStep(act, x);
    assert Step(cfg, s, act).value.accs[x] != s.accs[x];
  }

  lemma OwnAccStep(act: Action, x: nat)
    requires OwnAcc(act, x)
    ensures act.x == x && !Outside(act)
  {
  }

  lemma AccExitShared(cfg: Config, s: State, x: nat)
    requires x in s.accs && !AccEnded(s.accs[x]) && !AccExit(s.accs[x], x).AccStep? && AccInput(s.accs[x])
    requires s.accs[x].session.Some? ==> s.accs[x].session.value in s.sh.sessionObjs
    ensures OwnAcc(AccExit(s.accs[x], x), x) && Quiet(cfg, s, AccExit(s.accs[x], x))
  {
    hide StepConn, StepReserve, StepCount, StepAllocate, StepInsert, StepNotify, StepDelete, StepCancelConn,
      StepRelease, CancelSession, AttachRegion, StepUncount, StepRegister, StepReg, StepCleanup, StepHandToAgent,
      StepHandToClient, StepTallyToAgent, StepAcc;
    assert Step(cfg, s, AccExit(s.accs[x], x)).value.accs[x] != s.accs[x];
  }

  /** The same for an `Accept` call, attached to a session whose context is done or not attached. */
  lemma AccCanExit(cfg: Config, s: State, x: nat)
    requires FlowInv(s) && x in s.accs && !AccEnded(s.accs[x])
    requires s.accs[x].session.Some? ==> SessionDone(s, s.accs[x].session.value)
    ensures OwnAcc(AccExit(s.accs[x], x), x) && Quiet(cfg, s, AccExit(s.accs[x], x))
  {
    hide FlowInv, ByAcc, Quiet, OwnAcc, AccExit, AccEnded, SessionDone, AccInput, AccFlow;
    AccFacts(s, x);
    if s.accs[x].session.Some? { AttachedHasObject(s, x); }
    if AccExit(s.accs[x], x).AccStep? { AccExitLocal(cfg, s, x); } else { AccExitShared(cfg, s, x); }
  }

  lemma AttachedHasObject(s: State, x: nat)
    requires FlowInv(s) && x in s.accs && s.accs[x].session.Some?
    ensures s.accs[x].session.value in s.conns && s.accs[x].session.value in s.sh.sessionObjs
  {
    hide Frames, Flow, AccInput;
    var c := s.accs[x].session.value;
    assert AccAttached(s.conns, x, s.accs[x]);
    assert ConnAcceptors(s.accs, s.sh.sessionObjs, c, s.conns[c]);
  }

  function RegExit(g: Reg, r: nat): Action {
    if !g.streamDone then RegStep(r, RegStreamDone)
    else match g.pc
      case RegStart => Register(r) case RegSending(_) => RegStep(r, RegSendError) case RegLoop => RegStep(r, RegContext)
      case _ => Cleanup(r)
  }

  /** A registration that has not returned has a step of its own. */
  lemma RegCanExit(cfg: Config, s: State, r: nat)
    requires Inv(cfg, s) && r in s.regs && !s.regs[r].pc.RegReturned?
    ensures Quiet(cfg, s, RegExit(s.regs[r], r))
  {
    hide Inv, RegisterRegion, CleanupRegion, StepConn, StepReserve, StepCount, StepAllocate, StepInsert, StepNotify,
      StepDelete, StepCancelConn, StepRelease, StepUncount, StepAcc, StepAttach, StepCancelAcc, StepHandToAgent,
      StepHandToClient, StepTallyToAgent, StepTallyToClient;
    RegFacts(cfg, s, r);
    assert Step(cfg, s, RegExit(s.regs[r], r)).value.regs[r] != s.regs[r];
  }

  // ---- Coming to rest ----

  /** All calls have returned and all pumps have exited. */
  ghost predicate AtRest(s: State) {
    && (forall r :: r in s.regs ==> s.regs[r].pc.RegReturned?)
    && (forall c :: c in s.conns ==> ConnEnded(s.conns[c]))
    && (forall x :: x in s.accs ==> AccEnded(s.accs[x]))
  }

  lemma StreamDoneQuiet(cfg: Config, s: State, c: nat)
    requires c in s.conns && !s.conns[c].streamDone
    ensures Quiet(cfg, s, ConnStep(c, StreamDone))
  {
    assert Step(cfg, s, ConnStep(c, StreamDone)).value.conns[c] != s.conns[c];
  }

  /** Until the relay is at rest some quiet action is possible. */
  lemma QuietPossible(cfg: Config, s: State) returns (act: Action)
    requires Inv(cfg, s) && FlowInv(s) && !AtRest(s)
    ensures Quiet(cfg, s, act)
  {
    hide Inv, FlowInv, Quiet, ConnEnded, AccEnded, ConnExit, AccExit, RegExit, OwnConn, OwnAcc;
    if c :| c in s.conns && !s.conns[c].streamDone {
      StreamDoneQuiet(cfg, s, c);
      return ConnStep(c, StreamDone);
    }
    if c :| c in s.conns && !ConnEnded(s.conns[c]) {
      ConnCanExit(cfg, s, c);
      return ConnExit(s.conns[c], c);
    }
    if x :| x in s.accs && !AccEnded(s.accs[x]) {
      if s.accs[x].session.Some? { AttachedHasObject(s, x); }
      AccCanExit(cfg, s, x);
      return AccExit(s.accs[x], x);
    }
    var r :| r in s.regs && !s.regs[r].pc.RegReturned?;
    RegCanExit(cfg, s, r);
    return RegExit(s.regs[r], r);
  }

  lemma {:induction false} QuietRunBound(cfg: Config, s: State, acts: seq<Action>)
    requires Reachable(cfg, s) && QuietRun(cfg, s, acts)
    ensures Run(cfg, s, acts).Some? && Reachable(cfg, Run(cfg, s, acts).value)
    ensures Measure(Run(cfg, s, acts).value) + |acts| <= Measure(s)
  {
    hide Reachable, Inv, FlowInv, Step, Measure;
    if acts != [] {
      var most := acts[..|acts| - 1];
      QuietRunBound(cfg, s, most);
      var t := Run(cfg, s, most).value;
      ReachableFlow(cfg, t);
      QuietDescends(cfg, t, acts[|acts| - 1]);
      ReachableStep(cfg, t, acts[|acts| - 1]);
    }
  }

  /**
   Teardown, in every run. From every reachable state, as long as nothing new comes from outside, a run
   has at most `Measure(s)` steps, and one that cannot go on has ended with all calls returned, all pumps
   exited, both maps empty and all counters zero.
   */
  lemma TeardownFinishes(cfg: Config, s: State, acts: seq<Action>)
    requires Reachable(cfg, s) && QuietRun(cfg, s, acts)
    ensures Run(cfg, s, acts).Some? && |acts| <= Measure(s)
    ensures var t := Run(cfg, s, acts).value;
      (forall act :: !Quiet(cfg, t, act)) ==>
        && AtRest(t) && t.sh.agents == map[] && t.sh.sessions == map[] && t.sh.agentGauge == 0 && t.sh.tunnelGauge == 0
        && forall a :: a in t.sh.agentObjs ==> t.sh.agentObjs[a].active == 0 && t.sh.agentObjs[a].done
  {
    hide Reachable, Inv, FlowInv, Quiet, QuietRun, Measure;
    QuietRunBound(cfg, s, acts);
    var t := Run(cfg, s, acts).value;
    MeasureNonNegative(t);
    if forall act :: !Quiet(cfg, t, act) {
      ReachableFlow(cfg, t);
      if !AtRest(t) { var act := QuietPossible(cfg, t); assert false; }
      QuiescentIsEmpty(cfg, t);
    }
  }

  /** From every reachable state there is a run to rest. */
  lemma {:induction false} CanAlwaysComeToRest(cfg: Config, s: State) returns (t: State)
    requires Reachable(cfg, s)
    ensures exists acts :: Run(cfg, s, acts) == Some(t)
    ensures Reachable(cfg, t) && AtRest(t)
    decreases Measure(s)
  {
    hide Reachable, Inv, FlowInv, Measure, AtRest, Step;
    MeasureNonNegative(s);
    if AtRest(s) {
      assert Run(cfg, s, []) == Some(s);
      return s;
    }
    ReachableFlow(cfg, s);
    var act := QuietPossible(cfg, s);
    QuietDescends(cfg, s, act);
    ReachableStep(cfg, s, act);
    var u := Step(cfg, s, act).value;
    t := CanAlwaysComeToRest(cfg, u);
    var acts :| Run(cfg, u, acts) == Some(t);
    RunCons(cfg, s, act, acts);
  }

  lemma {:induction false} RunCons(cfg: Config, s: State, act: Action, acts: seq<Action>)
    requires Step(cfg, s, act).Some?
    ensures Run(cfg, s, [act] + acts) == Run(cfg, Step(cfg, s, act).value, acts)
  {
    hide Step;
    var all := [act] + acts;
    if acts == [] {
      assert all[..0] == [] && all[0] == act && Run(cfg, s, []) == Some(s);
    } else {
      RunCons(cfg, s, act, acts[..|acts| - 1]);
      assert all[..|all| - 1] == [act] + acts[..|acts| - 1];
    }
  }

  // ---- One session ----

  lemma StreamStaysDone(cfg: Config, s: State, act: Action, c: nat)
    requires c in s.conns && s.conns[c].streamDone && Step(cfg, s, act).Some?
    ensures c in Step(cfg, s, act).value.conns && Step(cfg, s, act).value.conns[c].streamDone
  {
    hide RegLocal, AccLocal, FreshSid, ValidOpen, RegisterRegion, CleanupRegion, ReserveRegion, AttachRegion,
      ReleaseRegion, InsertRegion, DeleteRegion, CancelSession, Note;
  }

  lemma CancelledStays(cfg: Config, s: State, act: Action, c: nat)
    requires Inv(cfg, s) && c in s.conns && c in s.sh.sessionObjs && s.sh.sessionObjs[c].cancelled
    requires Step(cfg, s, act).Some?
    ensures var t := Step(cfg, s, act).value; c in t.sh.sessionObjs && t.sh.sessionObjs[c].cancelled
  {
    hide Inv, FreshSid;
    ConnFacts(cfg, s, c);
    if !act.Cleanup? && !act.Allocate? && !act.CancelConn? && !act.Attach? && !act.CancelAcc? {
      hide Step;
      SessionObjsKept(cfg, s, act);
    }
  }

  lemma ConnStays(cfg: Config, s: State, act: Action, c: nat)
    requires c in s.conns && Step(cfg, s, act).Some?
    ensures c in Step(cfg, s, act).value.conns
  {
    hide ConnLocal, RegLocal, AccLocal, FreshSid, ValidOpen, RegisterRegion, CleanupRegion, ReserveRegion, AttachRegion,
      ReleaseRegion, InsertRegion, DeleteRegion, CancelSession, Note;
  }

  lemma SessionStaysDone(cfg: Config, s: State, act: Action, c: nat)
    requires Inv(cfg, s) && SessionDone(s, c) && Step(cfg, s, act).Some?
    ensures SessionDone(Step(cfg, s, act).value, c)
  {
    hide Inv, Step;
    ConnStays(cfg, s, act, c);
    if s.conns[c].streamDone { StreamStaysDone(cfg, s, act, c); } else { CancelledStays(cfg, s, act, c); }
  }

  lemma {:induction false} SessionStaysDoneRun(cfg: Config, s: State, acts: seq<Action>, c: nat)
    requires Reachable(cfg, s) && SessionDone(s, c) && Run(cfg, s, acts).Some?
    ensures SessionDone(Run(cfg, s, acts).value, c)
  {
    hide Reachable, Inv, Step, SessionDone;
    if acts != [] {
      var most := acts[..|acts| - 1];
      SessionStaysDoneRun(cfg, s, most, c);
      ReachableRun(cfg, s, most);
      ReachableInv(cfg, Run(cfg, s, most).value);
      SessionStaysDone(cfg, Run(cfg, s, most).value, acts[|acts| - 1], c);
    }
  }

  /** The call has listed its session, or is on its way out. */
  predicate PastInserting(pc: ConnPc) {
    InMap(pc) || Unwinding(pc)
  }

  /**
   A step of the `Connect` handler past insertion that needs nobody else: the return of a send, a `select`
   case that is ready, or a deferred call.
   */
  predicate HandlerStep(act: Action, c: nat) {
    || (act.ConnStep? && act.c == c
        && (act.cev.SendOk? || act.cev.SendError? || act.cev.AgentGone? || act.cev.ContextDone? || act.cev.TimerFired?
            || act.cev.ReadySeen? || act.cev.PumpEnded?))
    || act == Delete(c) || act == CancelConn(c) || act == Release(c) || act == Uncount(c)
  }

  /** A step of its pump that needs nobody else. A pump in `Recv` gets its error only after the handler has returned. */
  predicate PumpStep(s: State, act: Action, c: nat) {
    || act == TallyToAgent(c)
    || (act.ConnStep? && act.c == c && act.cev.PumpMove?
        && (act.cev.ev.Ended? ==> c in s.conns && s.conns[c].pc.Returned?))
  }

  predicate AccHandlerStep(act: Action, x: nat) {
    || (act.AccStep? && act.x == x
      && (act.aev.AccSendOk? || act.aev.AccSendError? || act.aev.AccContext? || act.aev.AccPumpEnded?))
    || act == CancelAcc(x)
  }

  predicate AccPumpStep(s: State, act: Action, x: nat) {
    || act == TallyToClient(x)
    || (act.AccStep? && act.x == x && act.aev.AccPumpMove?
        && (act.aev.ev.Ended? ==> x in s.accs && s.accs[x].pc.AccReturned?))
  }

  lemma PastLocal(k: Conn, o: SessionState, agentDone: bool, ev: ConnEvent)
    requires PastInserting(k.pc) && ConnLocal(k, o, agentDone, ev).Some?
    ensures PastInserting(ConnLocal(k, o, agentDone, ev).value.pc)
  {
    hide PortStep;
  }

  lemma PastSharedOwn(cfg: Config, s: State, act: Action)
    requires SharedConn(act) && Step(cfg, s, act).Some? && act.c in s.conns && PastInserting(s.conns[act.c].pc)
    ensures act.c in Step(cfg, s, act).value.conns && PastInserting(Step(cfg, s, act).value.conns[act.c].pc)
  {
    hide ReserveRegion, ReleaseRegion, InsertRegion, DeleteRegion, CancelSession, FreshSid, ValidOpen, Note,
      StepRegister, StepReg, StepCleanup, StepConn, StepAcc, StepAttach, StepCancelAcc, StepHandToAgent,
      StepHandToClient, StepTallyToAgent, StepTallyToClient;
  }

  lemma PastShared(cfg: Config, s: State, act: Action, c: nat)
    requires c in s.conns && PastInserting(s.conns[c].pc) && Step(cfg, s, act).Some? && !(act.ConnStep? && act.c == c)
    ensures c in Step(cfg, s, act).value.conns && PastInserting(Step(cfg, s, act).value.conns[c].pc)
  {
    if SharedConn(act) {
      hide Step, PastInserting;
      SharedTouchesOne(cfg, s, act);
      if act.c == c { PastSharedOwn(cfg, s, act); }
    } else {
      hide ConnLocal, RegLocal, AccLocal, RegisterRegion, CleanupRegion, AttachRegion, CancelSession, StepReserve,
        StepCount, StepAllocate, StepInsert, StepNotify, StepDelete, StepCancelConn, StepRelease, StepUncount;
    }
  }

  lemma {:induction false} PastRun(cfg: Config, s: State, acts: seq<Action>, c: nat)
    requires c in s.conns && PastInserting(s.conns[c].pc) && Run(cfg, s, acts).Some?
    ensures c in Run(cfg, s, acts).value.conns && PastInserting(Run(cfg, s, acts).value.conns[c].pc)
  {
    hide PastInserting;
    if acts != [] {
      var most, last := acts[..|acts| - 1], acts[|acts| - 1];
      PastRun(cfg, s, most, c);
      var t := Run(cfg, s, most).value;
      if last.ConnStep? && last.c == c {
        hide ConnLocal;
        PastLocal(t.conns[c], SessionOf(t, c), AgentDone(t, t.conns[c].agent), last.cev);
      } else {
        hide Step;
        PastShared(cfg, t, last, c);
      }
    }
  }

  /** What a handler past insertion does next when its context is done. */
  function HandlerExit(pc: ConnPc, c: nat): Action {
    match pc
    case SendAccept => ConnStep(c, SendError) case SendPayload(_) => ConnStep(c, SendError)
    case Deleting(_) => Delete(c) case Cancelling(_) => CancelConn(c) case Releasing(_) => Release(c)
    case Uncounting(_) => Uncount(c)
    case _ => ConnStep(c, ContextDone)
  }

  lemma HandlerCanStep(cfg: Config, s: State, c: nat)
    requires Inv(cfg, s) && c in s.conns && PastInserting(s.conns[c].pc) && !s.conns[c].pc.Returned?
    requires SessionDone(s, c)
    ensures HandlerStep(HandlerExit(s.conns[c].pc, c), c) && Quiet(cfg, s, HandlerExit(s.conns[c].pc, c))
  {
    hide Inv, DeleteRegion, CancelSession, ReleaseRegion, ConnRecv, ConnSendOk, ConnPump, StepRegister, StepReg,
      StepCleanup, StepReserve, StepCount, StepAllocate, StepInsert, StepNotify, StepAcc, StepAttach, StepCancelAcc,
      StepHandToAgent, StepHandToClient, StepTallyToAgent, StepTallyToClient;
    ConnFacts(cfg, s, c);
    var act := HandlerExit(s.conns[c].pc, c);
    assert Step(cfg, s, act).value.conns[c].pc != s.conns[c].pc;
  }

  /** What a pump does next when its handler has returned. */
  lemma PumpCanStep(cfg: Config, s: State, c: nat) returns (act: Action)
    requires Inv(cfg, s) && FlowInv(s) && c in s.conns && s.conns[c].pc.Returned? && !PumpEnded(s.conns[c].port.pump)
    requires SessionDone(s, c)
    ensures PumpStep(s, act, c) && Quiet(cfg, s, act)
  {
    hide Inv, FlowInv;
    act := ConnExit(s.conns[c], c);
    hide Quiet, ConnExit;
    ConnCanExit(cfg, s, c);
    PumpExitIsPumpStep(s, c);
  }

  lemma PumpExitIsPumpStep(s: State, c: nat)
    requires c in s.conns && s.conns[c].pc.Returned? && !PumpEnded(s.conns[c].port.pump)
    ensures PumpStep(s, ConnExit(s.conns[c], c), c)
  {
  }

  /**
   Once the context of a listed session is done, then after any further run its `Connect` handler has
   returned unless a step of its own is left, and after it has returned its pump has exited unless a step
   of its own is left. The handler never waits for a partner, a frame or the end of its stream; a pump in
   `Recv` waits for no more than the handler's return, which ends the stream.
   */
  lemma CancelledConnectReturns(cfg: Config, s: State, c: nat, acts: seq<Action>)
    requires Reachable(cfg, s) && SessionDone(s, c) && PastInserting(s.conns[c].pc) && Run(cfg, s, acts).Some?
    requires var t := Run(cfg, s, acts).value; forall act :: HandlerStep(act, c) ==> !Quiet(cfg, t, act)
    ensures var t := Run(cfg, s, acts).value;
      && c in t.conns && t.conns[c].pc.Returned?
      && ((forall act :: PumpStep(t, act, c) ==> !Quiet(cfg, t, act)) ==> ConnEnded(t.conns[c]))
  {
    hide Reachable, Inv, FlowInv, Quiet, HandlerStep, PumpStep, Step, HandlerExit, PastInserting;
    var t := Run(cfg, s, acts).value;
    SessionStaysDoneRun(cfg, s, acts, c);
    PastRun(cfg, s, acts, c);
    ReachableRun(cfg, s, acts);
    ReachableFlow(cfg, t);
    if !t.conns[c].pc.Returned? { HandlerCanStep(cfg, t, c); assert false; }
    if (forall act :: PumpStep(t, act, c) ==> !Quiet(cfg, t, act)) && !PumpEnded(t.conns[c].port.pump) {
      var act := PumpCanStep(cfg, t, c);
      assert false;
    }
  }

  function AccHandlerExit(pc: AccPc, x: nat): Action {
    match pc
    case AccSending(_) => AccStep(x, AccSendError) case AccForwarding => AccStep(x, AccContext)
    case _ => CancelAcc(x)
  }

  lemma AccHandlerCanStep(cfg: Config, s: State, x: nat)
    requires FlowInv(s) && x in s.accs && s.accs[x].session.Some? && !s.accs[x].pc.AccReturned?
    requires SessionDone(s, s.accs[x].session.value)
    ensures AccHandlerStep(AccHandlerExit(s.accs[x].pc, x), x) && Quiet(cfg, s, AccHandlerExit(s.accs[x].pc, x))
  {
    hide FlowInv, AccFlow, CancelSession, PortStep, StepRegister, StepReg, StepCleanup, StepConn, StepReserve,
      StepCount, StepAllocate, StepInsert, StepNotify, StepDelete, StepCancelConn, StepRelease, StepUncount, StepAttach,
      StepHandToAgent, StepHandToClient, StepTallyToAgent, StepTallyToClient;
    AccFacts(s, x);
    AttachedHasObject(s, x);
    var act := AccHandlerExit(s.accs[x].pc, x);
    assert Step(cfg, s, act).value.accs[x].pc != s.accs[x].pc;
  }

  lemma AccPumpExitIsPumpStep(s: State, x: nat)
    requires x in s.accs && s.accs[x].pc.AccReturned? && !PumpEnded(s.accs[x].port.pump)
    ensures AccPumpStep(s, AccExit(s.accs[x], x), x)
  {
  }

  /** The same for every `Accept` call attached to the session. */
  lemma CancelledAcceptReturns(cfg: Config, s: State, c: nat, x: nat, acts: seq<Action>)
    requires Reachable(cfg, s) && SessionDone(s, c) && Run(cfg, s, acts).Some?
    requires var t := Run(cfg, s, acts).value;
      x in t.accs && t.accs[x].session == Some(c) && forall act :: AccHandlerStep(act, x) ==> !Quiet(cfg, t, act)
    ensures var t := Run(cfg, s, acts).value;
      && t.accs[x].pc.AccReturned?
      && ((forall act :: AccPumpStep(t, act, x) ==> !Quiet(cfg, t, act)) ==> AccEnded(t.accs[x]))
  {
    hide Reachable, Inv, FlowInv, Quiet, AccHandlerStep, AccPumpStep, Step, AccHandlerExit, AccExit, OwnAcc;
    var t := Run(cfg, s, acts).value;
    SessionStaysDoneRun(cfg, s, acts, c);
    ReachableRun(cfg, s, acts);
    ReachableFlow(cfg, t);
    if !t.accs[x].pc.AccReturned? { AccHandlerCanStep(cfg, t, x); assert false; }
    if (forall act :: AccPumpStep(t, act, x) ==> !Quiet(cfg, t, act)) && !PumpEnded(t.accs[x].port.pump) {
      AccCanExit(cfg, t, x);
      AccPumpExitIsPumpStep(t, x);
      assert false;
    }
  }
}
