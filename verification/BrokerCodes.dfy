/** Why a call returns what it returns: every exit of every handler, exactly, over all runs. */
module BrokerCodes {
  import opened Base
  import opened Messages
  import opened RelayShared
  import opened RelayHandlers
  import opened Broker
  import opened BrokerInvariants
  import opened BrokerSafety
  import opened BrokerTheorems
  import opened BrokerFlow
  import opened BrokerFlowSafety
  import opened BrokerFlowTheorems
  import opened BrokerAdmission

  // ---- Connect ----

  predicate GoodOpen(f: ConnectRequest) {
    f.ClientOpen? && f.version == 1 && |f.routeId| == 16
  }

  predicate GoodHandshake(f: ConnectRequest) {
    f.ClientHandshake? && f.clientHello != []
  }

  /** The call's loop takes a report `e` of its pump. */
  predicate TakesReport(k: Conn, act: Action, c: nat, e: PumpError) {
    act == ConnStep(c, PumpEnded) && k.pc.Forwarding? && k.port.errCh == Some(e)
  }

  predicate ReceivesBad(k: Conn, act: Action, c: nat) {
    && act.ConnStep? && act.c == c && act.cev.RecvFrame?
    && ((k.pc.RecvOpen? && !GoodOpen(act.cev.frame)) || (k.pc.RecvHandshake? && !GoodHandshake(act.cev.frame)))
  }

  predicate StreamFails(k: Conn, act: Action, c: nat) {
    || (act == ConnStep(c, RecvError) && (k.pc.RecvOpen? || k.pc.RecvHandshake?))
    || (act == ConnStep(c, SendError) && (k.pc.SendAssigned? || k.pc.SendAccept? || k.pc.SendPayload?))
  }

  predicate ContextEnds(k: Conn, cancelled: bool, act: Action, c: nat) {
    && act == ConnStep(c, ContextDone) && (k.streamDone || cancelled)
    && (k.pc.Notifying? || k.pc.AwaitReady? || k.pc.Forwarding?)
  }

  /** The local exits of call `c`, by the code they return. */
  predicate LocalExit(k: Conn, cancelled: bool, agentGone: bool, act: Action, c: nat, code: Code) {
    match code
    case Ok => TakesReport(k, act, c, Eof)
    case StreamBroken => StreamFails(k, act, c) || TakesReport(k, act, c, Broken)
    case InvalidArgument => ReceivesBad(k, act, c) || TakesReport(k, act, c, BadFrame)
    case Cancelled => ContextEnds(k, cancelled, act, c) || TakesReport(k, act, c, ContextError)
    case DeadlineExceeded => act == ConnStep(c, TimerFired) && (k.pc.Notifying? || k.pc.AwaitReady?)
    case Unavailable => act == ConnStep(c, AgentGone) && k.pc.Notifying? && agentGone
    case Internal => act == ConnStep(c, RandomFailed) && k.pc.Allocating?
    case _ => false
  }

  /** The route a call asked for in its first frame. */
  function Asked(k: Conn): Bytes {
    if |k.recvd| > 0 && k.recvd[0].ClientOpen? then k.recvd[0].routeId else []
  }

  /** All exits of call `c`: refusals of a reservation are the ones that are not local. */
  ghost predicate Exits(cfg: Config, s: State, act: Action, c: nat, code: Code)
    requires c in s.conns
  {
    var k := s.conns[c];
    || LocalExit(k, SessionOf(s, c).cancelled, CleanedUp(s, k.agent), act, c, code)
    || (act == Reserve(c) && k.pc.Reserving? && code == Unavailable && Offline(s, Asked(k)))
    || (act == Reserve(c) && k.pc.Reserving? && code == ResourceExhausted && Full(cfg, s, Asked(k)))
  }

  /** The agent's `RegisterAgent` call has cleaned up. */
  predicate CleanedUp(s: State, a: nat) {
    a in s.regs && a in s.sh.agentObjs && !Registered(s.regs[a].pc)
  }

  /** Call `c` leaves with `code` in this step. */
  ghost predicate LeavesWith(cfg: Config, s: State, act: Action, c: nat, code: Code) {
    && Step(cfg, s, act).Some? && c in Step(cfg, s, act).value.conns
    && Unwinding(Step(cfg, s, act).value.conns[c].pc) && Step(cfg, s, act).value.conns[c].pc.code == code
  }

  lemma LocalExitIff(k: Conn, o: SessionState, agentDone: bool, ev: ConnEvent, c: nat, code: Code)
    requires !Unwinding(k.pc)
    ensures var l := ConnLocal(k, o, agentDone, ev);
      (l.Some? && Unwinding(l.value.pc) && l.value.pc.code == code) <==>
        LocalExit(k, o.cancelled, agentDone, ConnStep(c, ev), c, code)
  {
    hide PortStep;
  }

  lemma GoneIsDone(cfg: Config, s: State, a: nat)
    requires Inv(cfg, s)
    ensures CleanedUp(s, a) <==> AgentDone(s, a)
  {
    hide Objects, NoOrphans, SessionsExact, CountersExact, Routing;
    if a in s.sh.agentObjs { assert RegObject(s.sh.agents, s.sh.agentObjs, a, s.regs[a]); }
  }

  /** Steps that are neither local to the call nor its reservation never make it leave. */
  lemma OthersDoNotExit(cfg: Config, s: State, act: Action, c: nat)
    requires c in s.conns && !Unwinding(s.conns[c].pc) && Step(cfg, s, act).Some?
    requires !(act.ConnStep? && act.c == c) && act != Reserve(c)
    ensures c in Step(cfg, s, act).value.conns && !Unwinding(Step(cfg, s, act).value.conns[c].pc)
  {
    if SharedConn(act) {
      SharedTouchesOne(cfg, s, act);
      if act.c == c {
        OwnSharedDoNotExit(cfg, s, act);
        hide Step;
      } else {
        hide Step;
      }
    } else {
      hide ConnLocal, RegLocal, AccLocal, RegisterRegion, CleanupRegion, AttachRegion, CancelSession, StepReserve,
        StepCount, StepAllocate, StepInsert, StepNotify, StepDelete, StepCancelConn, StepRelease, StepUncount;
    }
  }

  lemma OwnSharedDoNotExit(cfg: Config, s: State, act: Action)
    requires SharedConn(act) && !act.Reserve? && Step(cfg, s, act).Some? && act.c in s.conns
    requires !Unwinding(s.conns[act.c].pc)
    ensures act.c in Step(cfg, s, act).value.conns && !Unwinding(Step(cfg, s, act).value.conns[act.c].pc)
  {
    hide ReserveRegion, ReleaseRegion, InsertRegion, DeleteRegion, CancelSession, FreshSid, ValidOpen, Note,
      StepRegister, StepReg, StepCleanup, StepConn, StepReserve, StepAcc, StepAttach, StepCancelAcc, StepHandToAgent,
      StepHandToClient, StepTallyToAgent, StepTallyToClient;
  }

  lemma ReserveExitIff(cfg: Config, s: State, c: nat, code: Code)
    requires Reachable(cfg, s) && c in s.conns && !Unwinding(s.conns[c].pc)
    ensures LeavesWith(cfg, s, Reserve(c), c, code) <==> Exits(cfg, s, Reserve(c), c, code)
  {
    hide Reachable, Offline, Full, HasRoom, LocalExit, SessionOf, CleanedUp;
    NotLocal(s.conns[c], SessionOf(s, c).cancelled, CleanedUp(s, s.conns[c].agent), Reserve(c), c, code);
    if s.conns[c].pc.Reserving? {
      hide Step;
      ReserveIff(cfg, s, c);
      ReserveCodes(cfg, s, c);
    } else {
      hide ReserveRegion;
    }
  }

  lemma ReserveCodes(cfg: Config, s: State, c: nat)
    requires Step(cfg, s, Reserve(c)).Some?
    ensures var pc := Step(cfg, s, Reserve(c)).value.conns[c].pc;
      pc.Counting? || pc == Returned(Unavailable) || pc == Returned(ResourceExhausted)
  {
  }

  lemma LocalStepExitIff(cfg: Config, s: State, c: nat, ev: ConnEvent, code: Code)
    requires Reachable(cfg, s) && c in s.conns && !Unwinding(s.conns[c].pc)
    ensures LeavesWith(cfg, s, ConnStep(c, ev), c, code) <==> Exits(cfg, s, ConnStep(c, ev), c, code)
  {
    hide Reachable, Inv, Offline, Full, Unwinding, ConnLocal, LocalExit, AgentDone, CleanedUp;
    ReachableInv(cfg, s);
    GoneIsDone(cfg, s, s.conns[c].agent);
    LocalExitIff(s.conns[c], SessionOf(s, c), AgentDone(s, s.conns[c].agent), ev, c, code);
  }

  lemma OtherStepNoExit(cfg: Config, s: State, act: Action, c: nat, code: Code)
    requires c in s.conns && act != Reserve(c) && !(act.ConnStep? && act.c == c)
    ensures !Exits(cfg, s, act, c, code)
  {
    hide Offline, Full, LocalExit, CleanedUp, SessionOf;
    NotLocal(s.conns[c], SessionOf(s, c).cancelled, CleanedUp(s, s.conns[c].agent), act, c, code);
  }

  lemma OtherStepNoLeave(cfg: Config, s: State, act: Action, c: nat, code: Code)
    requires c in s.conns && !Unwinding(s.conns[c].pc) && act != Reserve(c) && !(act.ConnStep? && act.c == c)
    ensures !LeavesWith(cfg, s, act, c, code)
  {
    hide Step, Unwinding;
    if Step(cfg, s, act).Some? { OthersDoNotExit(cfg, s, act, c); }
  }

  /**
   A call that is not on its way out leaves in a step with a certain code if and only if the step is one
   of the exits that return this code: the exact cause of every code.
   */
  lemma ExitIff(cfg: Config, s: State, act: Action, c: nat, code: Code)
    requires Reachable(cfg, s) && c in s.conns && !Unwinding(s.conns[c].pc)
    ensures LeavesWith(cfg, s, act, c, code) <==> Exits(cfg, s, act, c, code)
  {
    hide Reachable, LeavesWith, Exits, Unwinding;
    if act == Reserve(c) { ReserveExitIff(cfg, s, c, code); }
    else if act.ConnStep? && act.c == c { LocalStepExitIff(cfg, s, c, act.cev, code); }
    else {
      OtherStepNoExit(cfg, s, act, c, code);
      OtherStepNoLeave(cfg, s, act, c, code);
    }
  }

  lemma NotLocal(k: Conn, cancelled: bool, agentGone: bool, act: Action, c: nat, code: Code)
    requires !(act.ConnStep? && act.c == c)
    ensures !LocalExit(k, cancelled, agentGone, act, c, code)
  {
  }

  /** A call on its way out keeps its code. */
  lemma CodeKept(cfg: Config, s: State, act: Action, c: nat)
    requires c in s.conns && Unwinding(s.conns[c].pc) && Step(cfg, s, act).Some?
    ensures var t := Step(cfg, s, act).value;
      c in t.conns && Unwinding(t.conns[c].pc) && t.conns[c].pc.code == s.conns[c].pc.code
  {
    if SharedConn(act) {
      SharedTouchesOne(cfg, s, act);
      if act.c == c {
        OwnCodeKept(cfg, s, act);
        hide Step;
      } else {
        hide Step;
      }
    } else {
      hide RegLocal, AccLocal, RegisterRegion, CleanupRegion, AttachRegion, CancelSession, PortStep, StepReserve,
        StepCount, StepAllocate, StepInsert, StepNotify, StepDelete, StepCancelConn, StepRelease, StepUncount;
    }
  }

  lemma OwnCodeKept(cfg: Config, s: State, act: Action)
    requires SharedConn(act) && Step(cfg, s, act).Some? && act.c in s.conns && Unwinding(s.conns[act.c].pc)
    ensures var t := Step(cfg, s, act).value;
      && act.c in t.conns && Unwinding(t.conns[act.c].pc) && t.conns[act.c].pc.code == s.conns[act.c].pc.code
  {
    hide ReserveRegion, ReleaseRegion, InsertRegion, DeleteRegion, CancelSession, FreshSid, ValidOpen, Note,
      StepRegister, StepReg, StepCleanup, StepConn, StepAcc, StepAttach, StepCancelAcc, StepHandToAgent,
      StepHandToClient, StepTallyToAgent, StepTallyToClient;
  }

  // ---- Over runs ----

  /** Step `i` of the run makes call `c` leave with `code`. */
  ghost predicate ExitedAt(cfg: Config, acts: seq<Action>, c: nat, i: nat, code: Code) {
    && i < |acts| && Run(cfg, INITIAL, acts[..i]).Some?
    && var s := Run(cfg, INITIAL, acts[..i]).value;
    && c in s.conns && !Unwinding(s.conns[c].pc) && Exits(cfg, s, acts[i], c, code)
  }

  lemma {:induction false} RunPrefix(cfg: Config, acts: seq<Action>, i: nat)
    requires i <= |acts| && Run(cfg, INITIAL, acts).Some?
    ensures Run(cfg, INITIAL, acts[..i]).Some?
    ensures i < |acts| ==>
      Step(cfg, Run(cfg, INITIAL, acts[..i]).value, acts[i]) == Run(cfg, INITIAL, acts[..i + 1])
    decreases |acts|
  {
    hide Step;
    if i == |acts| {
      assert acts[..i] == acts;
    } else {
      var n := |acts| - 1;
      if i < n {
        RunPrefix(cfg, acts[..n], i);
        assert acts[..n][..i] == acts[..i] && acts[..n][..i + 1] == acts[..i + 1];
      } else {
        assert acts[..i + 1] == acts;
      }
    }
  }

  lemma PrefixReachable(cfg: Config, acts: seq<Action>)
    requires Run(cfg, INITIAL, acts).Some?
    ensures Reachable(cfg, Run(cfg, INITIAL, acts).value)
  {
    hide Run;
  }

  lemma {:induction false} ExitKept(cfg: Config, acts: seq<Action>, c: nat, i: nat, code: Code)
    requires Run(cfg, INITIAL, acts).Some? && ExitedAt(cfg, acts, c, i, code)
    ensures var t := Run(cfg, INITIAL, acts).value;
      c in t.conns && Unwinding(t.conns[c].pc) && t.conns[c].pc.code == code
    decreases |acts|
  {
    hide Step, Exits, Unwinding, Reachable;
    var n := |acts| - 1;
    RunPrefix(cfg, acts, n);
    assert acts[..n + 1] == acts;
    var s := Run(cfg, INITIAL, acts[..n]).value;
    if i == n {
      PrefixReachable(cfg, acts[..n]);
      ExitIff(cfg, s, acts[n], c, code);
    } else {
      assert acts[..n][..i] == acts[..i];
      ExitKept(cfg, acts[..n], c, i, code);
      CodeKept(cfg, s, acts[n], c);
    }
  }

  lemma {:induction false} ExitFound(cfg: Config, acts: seq<Action>, c: nat) returns (i: nat)
    requires Run(cfg, INITIAL, acts).Some?
    requires c in Run(cfg, INITIAL, acts).value.conns && Unwinding(Run(cfg, INITIAL, acts).value.conns[c].pc)
    ensures ExitedAt(cfg, acts, c, i, Run(cfg, INITIAL, acts).value.conns[c].pc.code)
    decreases |acts|
  {
    hide Step, Exits, Reachable;
    var n := |acts| - 1;
    RunPrefix(cfg, acts, n);
    assert acts[..n + 1] == acts;
    var s := Run(cfg, INITIAL, acts[..n]).value;
    NewCallsStay(cfg, s, acts[n], c);
    if Unwinding(s.conns[c].pc) {
      i := ExitFound(cfg, acts[..n], c);
      CodeKept(cfg, s, acts[n], c);
      assert acts[..n][..i] == acts[..i];
    } else {
      PrefixReachable(cfg, acts[..n]);
      i := n;
      ExitIff(cfg, s, acts[n], c, Run(cfg, INITIAL, acts).value.conns[c].pc.code);
    }
  }

  /** A call that is on its way out was there before the step. */
  lemma NewCallsStay(cfg: Config, s: State, act: Action, c: nat)
    requires Step(cfg, s, act).Some? && c in Step(cfg, s, act).value.conns
    requires Unwinding(Step(cfg, s, act).value.conns[c].pc)
    ensures c in s.conns
  {
    hide ConnLocal, RegLocal, AccLocal, RegisterRegion, CleanupRegion, ReserveRegion, AttachRegion, ReleaseRegion,
      InsertRegion, DeleteRegion, CancelSession, FreshSid, ValidOpen, Note;
  }

  /**
   The code a `Connect` call leaves with, over every run: it is `code` if and only if the step in which the
   call left is one of the exits for `code`.
   */
  lemma ConnectCodeIff(cfg: Config, acts: seq<Action>, c: nat, code: Code)
    requires Run(cfg, INITIAL, acts).Some?
    requires c in Run(cfg, INITIAL, acts).value.conns && Unwinding(Run(cfg, INITIAL, acts).value.conns[c].pc)
    ensures Run(cfg, INITIAL, acts).value.conns[c].pc.code == code <==> exists i :: ExitedAt(cfg, acts, c, i, code)
  {
    hide Run, ExitedAt;
    var i := ExitFound(cfg, acts, c);
    if j :| ExitedAt(cfg, acts, c, j, code) { ExitKept(cfg, acts, c, j, code); }
  }

  // ---- Why a client's pump stopped ----

  predicate Stopped(p: Pump, e: PumpError) {
    p == Reporting(e) || p == Exited(e)
  }

  /** The actions that stop the pump of call `c`, by what it then reports. */
  predicate ClientStops(act: Action, c: nat, e: PumpError) {
    match e
    case Eof => act == ConnStep(c, PumpMove(Ended(true)))
    case Broken => act == ConnStep(c, PumpMove(Ended(false)))
    case BadFrame => act.ConnStep? && act.c == c && act.cev.PumpFrame? && !act.cev.frame.ClientCiphertext?
    case ContextError => act == ConnStep(c, PumpMove(OfferAborted))
  }

  lemma ClientStopRecord(k: Conn, o: SessionState, agentDone: bool, ev: ConnEvent, c: nat, e: PumpError)
    requires ConnLocal(k, o, agentDone, ev).Some? && (k.pc.SendAccept? ==> k.port.pump.Idle?)
    ensures var p := ConnLocal(k, o, agentDone, ev).value.port.pump;
      Stopped(p, e) <==> Stopped(k.port.pump, e) || ClientStops(ConnStep(c, ev), c, e)
  {
  }

  lemma PortsOnlyMove(cfg: Config, s: State, act: Action, c: nat, e: PumpError)
    requires c in s.conns && Step(cfg, s, act).Some? && !(act.ConnStep? && act.c == c)
    ensures c in Step(cfg, s, act).value.conns
    ensures Stopped(Step(cfg, s, act).value.conns[c].port.pump, e) <==> Stopped(s.conns[c].port.pump, e)
  {
    if SharedConn(act) {
      SharedTouchesOne(cfg, s, act);
      hide Step;
    } else {
      hide ConnLocal, RegLocal, AccLocal, RegisterRegion, CleanupRegion, AttachRegion, CancelSession, StepReserve,
        StepCount, StepAllocate, StepInsert, StepNotify, StepDelete, StepCancelConn, StepRelease, StepUncount;
    }
  }

  lemma ClientStopStep(cfg: Config, s: State, act: Action, c: nat, e: PumpError)
    requires Reachable(cfg, s) && c in s.conns && Step(cfg, s, act).Some?
    ensures c in Step(cfg, s, act).value.conns
    ensures Stopped(Step(cfg, s, act).value.conns[c].port.pump, e) <==>
      Stopped(s.conns[c].port.pump, e) || ClientStops(act, c, e)
  {
    hide Reachable, Inv, Stopped;
    if act.ConnStep? && act.c == c {
      hide ConnLocal, ClientStops;
      ReachableInv(cfg, s);
      ConnFacts(cfg, s, c);
      ClientStopRecord(s.conns[c], SessionOf(s, c), AgentDone(s, s.conns[c].agent), act.cev, c, e);
    } else {
      hide Step;
      PortsOnlyMove(cfg, s, act, c, e);
    }
  }

  lemma NewConnectFresh(cfg: Config, s: State, act: Action, c: nat)
    requires Step(cfg, s, act).Some? && c !in s.conns && c in Step(cfg, s, act).value.conns
    ensures Step(cfg, s, act).value.conns[c] == NEW_CONN && act == NewConnect(c)
  {
    hide ConnLocal, RegLocal, AccLocal, RegisterRegion, CleanupRegion, ReserveRegion, AttachRegion, ReleaseRegion,
      InsertRegion, DeleteRegion, CancelSession, FreshSid, ValidOpen, Note;
  }

  lemma MissingCallDoesNothing(cfg: Config, s: State, act: Action, c: nat, e: PumpError)
    requires Step(cfg, s, act).Some? && c !in s.conns
    ensures !ClientStops(act, c, e)
  {
    hide StepRegister, StepReg, StepCleanup, StepAcc, StepAttach, StepCancelAcc;
  }

  /** A pump has stopped for a reason if and only if the run holds the action that is this reason. */
  lemma {:induction false} PumpStoppedIff(cfg: Config, acts: seq<Action>, c: nat, e: PumpError)
    requires Run(cfg, INITIAL, acts).Some? && c in Run(cfg, INITIAL, acts).value.conns
    ensures Stopped(Run(cfg, INITIAL, acts).value.conns[c].port.pump, e) <==>
      exists i :: 0 <= i < |acts| && ClientStops(acts[i], c, e)
    decreases |acts|
  {
    hide Step, Reachable, Stopped, ClientStops;
    var n := |acts| - 1;
    RunPrefix(cfg, acts, n);
    assert acts[..n + 1] == acts;
    var s := Run(cfg, INITIAL, acts[..n]).value;
    if c in s.conns {
      PumpStoppedIff(cfg, acts[..n], c, e);
      PrefixReachable(cfg, acts[..n]);
      ClientStopStep(cfg, s, acts[n], c, e);
      forall i | 0 <= i < n ensures acts[..n][i] == acts[i] {}
    } else {
      NewConnectFresh(cfg, s, acts[n], c);
      NothingStopped(cfg, acts, c, e);
      IdleNotStopped(e);
    }
  }

  lemma IdleNotStopped(e: PumpError)
    ensures !Stopped(NEW_CONN.port.pump, e)
  {
  }

  /** A call that was only just made, or never, has no pump actions in the run. */
  lemma {:induction false} NothingStopped(cfg: Config, acts: seq<Action>, c: nat, e: PumpError)
    requires acts != [] && Run(cfg, INITIAL, acts).Some?
    requires Run(cfg, INITIAL, acts[..|acts| - 1]).Some? && c !in Run(cfg, INITIAL, acts[..|acts| - 1]).value.conns
    ensures forall i :: 0 <= i < |acts| ==> !ClientStops(acts[i], c, e)
    decreases |acts|
  {
    hide Step, ClientStops;
    var n := |acts| - 1;
    var s := Run(cfg, INITIAL, acts[..n]).value;
    MissingCallDoesNothing(cfg, s, acts[n], c, e);
    if n > 0 {
      RunPrefix(cfg, acts[..n], n - 1);
      assert acts[..n][..n - 1] == acts[..n - 1] && acts[..n][..n] == acts[..n];
      var before := Run(cfg, INITIAL, acts[..n - 1]).value;
      if c in before.conns { CallsStay(cfg, before, acts[n - 1], c); }
      NothingStopped(cfg, acts[..n], c, e);
      forall i | 0 <= i < n ensures !ClientStops(acts[i], c, e) { assert acts[..n][i] == acts[i]; }
    }
  }

  lemma CallsStay(cfg: Config, s: State, act: Action, c: nat)
    requires Step(cfg, s, act).Some? && c in s.conns
    ensures c in Step(cfg, s, act).value.conns
  {
    hide ConnLocal, RegLocal, AccLocal, RegisterRegion, CleanupRegion, ReserveRegion, AttachRegion, ReleaseRegion,
      InsertRegion, DeleteRegion, CancelSession, FreshSid, ValidOpen, Note;
  }

  lemma ReportIsStop(cfg: Config, s: State, c: nat)
    requires Reachable(cfg, s) && c in s.conns && s.conns[c].port.errCh.Some?
    ensures Stopped(s.conns[c].port.pump, s.conns[c].port.errCh.value)
  {
    hide Reachable, Inv, FlowInv, ByConn, Delivered, ConnOutput, ConnInput;
    ReachableFlow(cfg, s);
    ConnOkFacts(cfg, s, c);
  }

  lemma OneReason(p: Pump, d: PumpError, e: PumpError)
    requires Stopped(p, d) && Stopped(p, e)
    ensures d == e
  {
  }

  /**
   A `Connect` call leaves without error if and only if, in this order, its client closed its stream cleanly
   and the call's loop took its pump's report.
   */
  lemma ConnectOkIff(cfg: Config, acts: seq<Action>, c: nat)
    requires Run(cfg, INITIAL, acts).Some?
    requires c in Run(cfg, INITIAL, acts).value.conns && Unwinding(Run(cfg, INITIAL, acts).value.conns[c].pc)
    ensures Run(cfg, INITIAL, acts).value.conns[c].pc.code == Ok <==>
      exists i, j :: 0 <= i < j < |acts| && acts[i] == ConnStep(c, PumpMove(Ended(true)))
        && acts[j] == ConnStep(c, PumpEnded)
  {
    hide Run, Step, Reachable, Stopped;
    ConnectCodeIff(cfg, acts, c, Ok);
    if j :| ExitedAt(cfg, acts, c, j, Ok) {
      ReportedEof(cfg, acts, c, j);
    }
    if i, j :|
      0 <= i < j < |acts| && acts[i] == ConnStep(c, PumpMove(Ended(true))) && acts[j] == ConnStep(c, PumpEnded)
    {
      TookEof(cfg, acts, c, i, j);
      assert ExitedAt(cfg, acts, c, j, Ok);
    }
  }

  lemma ReportedEof(cfg: Config, acts: seq<Action>, c: nat, j: nat)
    requires Run(cfg, INITIAL, acts).Some? && ExitedAt(cfg, acts, c, j, Ok)
    ensures acts[j] == ConnStep(c, PumpEnded)
    ensures exists i :: 0 <= i < j && acts[i] == ConnStep(c, PumpMove(Ended(true)))
  {
    hide Run, Step, Reachable, Stopped, Offline, Full;
    PrefixReachable(cfg, acts[..j]);
    ReportIsStop(cfg, Run(cfg, INITIAL, acts[..j]).value, c);
    PumpStoppedIff(cfg, acts[..j], c, Eof);
    var i :| 0 <= i < j && ClientStops(acts[..j][i], c, Eof);
    assert acts[..j][i] == acts[i];
  }

  lemma TookEof(cfg: Config, acts: seq<Action>, c: nat, i: nat, j: nat)
    requires Run(cfg, INITIAL, acts).Some? && i < j < |acts|
    requires acts[i] == ConnStep(c, PumpMove(Ended(true))) && acts[j] == ConnStep(c, PumpEnded)
    ensures ExitedAt(cfg, acts, c, j, Ok)
  {
    hide Run, Reachable, Stopped, Offline, Full;
    RunPrefix(cfg, acts, j);
    RunPrefix(cfg, acts, j + 1);
    var s := Run(cfg, INITIAL, acts[..j]).value;
    PrefixReachable(cfg, acts[..j]);
    TakingEnabled(cfg, s, c);
    hide Step;
    ReportIsStop(cfg, s, c);
    assert acts[..j][i] == acts[i] && ClientStops(acts[..j][i], c, Eof);
    PumpStoppedIff(cfg, acts[..j], c, Eof);
    OneReason(s.conns[c].port.pump, Eof, s.conns[c].port.errCh.value);
  }

  lemma TakingEnabled(cfg: Config, s: State, c: nat)
    requires Step(cfg, s, ConnStep(c, PumpEnded)).Some?
    ensures c in s.conns && s.conns[c].pc.Forwarding? && s.conns[c].port.errCh.Some?
  {
  }

  // ---- Accept ----

  predicate GoodAccept(f: AcceptRequest) {
    f.AgentAccept? && f.version == 1 && |f.sessionId| == 16 && f.agentHello != []
  }

  predicate AccTakesReport(a: Acc, act: Action, x: nat, e: PumpError) {
    act == AccStep(x, AccPumpEnded) && a.pc.AccForwarding? && a.port.errCh == Some(e)
  }

  /** All exits of an `Accept` call, by the code they return; the end of the session's context is no error. */
  ghost predicate AccExits(s: State, act: Action, x: nat, code: Code)
    requires x in s.accs
  {
    var a := s.accs[x];
    match code
    case Ok =>
      || AccTakesReport(a, act, x, Eof)
      || (act == AccStep(x, AccContext) && a.pc.AccForwarding? && a.session.Some? && SessionDone(s, a.session.value))
    case StreamBroken =>
      || (act == AccStep(x, AccRecvError) && a.pc.RecvAccept?)
      || (act == AccStep(x, AccSendError) && a.pc.AccSending?) || AccTakesReport(a, act, x, Broken)
    case InvalidArgument =>
      || (act.AccStep? && act.x == x && act.aev.AccFrame? && a.pc.RecvAccept? && !GoodAccept(act.aev.frame))
      || AccTakesReport(a, act, x, BadFrame)
    case Cancelled => AccTakesReport(a, act, x, ContextError)
    case NotFound => act == Attach(x) && a.pc.Attaching? && forall c :: !Lists(s, c, a.pc.sid)
    case _ => false
  }

  predicate AccLeft(pc: AccPc) {
    pc.AccCancelling? || pc.AccReturned?
  }

  ghost predicate AccLeavesWith(cfg: Config, s: State, act: Action, x: nat, code: Code) {
    && Step(cfg, s, act).Some? && x in Step(cfg, s, act).value.accs
    && AccLeft(Step(cfg, s, act).value.accs[x].pc) && Step(cfg, s, act).value.accs[x].pc.acode == code
  }

  /** The exits of an `Accept` call that are local to it. */
  predicate AccLocalExit(a: Acc, done: bool, ev: AccEvent, code: Code) {
    var reports := ev == AccPumpEnded && a.pc.AccForwarding? && a.port.errCh.Some?;
    match code
    case Ok => (reports && a.port.errCh == Some(Eof)) || (ev == AccContext && a.pc.AccForwarding? && done)
    case StreamBroken =>
      || (ev == AccRecvError && a.pc.RecvAccept?) || (ev == AccSendError && a.pc.AccSending?)
      || (reports && a.port.errCh == Some(Broken))
    case InvalidArgument =>
      || (ev.AccFrame? && a.pc.RecvAccept? && !GoodAccept(ev.frame)) || (reports && a.port.errCh == Some(BadFrame))
    case Cancelled => reports && a.port.errCh == Some(ContextError)
    case _ => false
  }

  lemma AccRecordExitIff(a: Acc, done: bool, ev: AccEvent, code: Code)
    requires !AccLeft(a.pc)
    ensures var b := AccLocal(a, done, ev);
      (b.Some? && AccLeft(b.value.pc) && b.value.pc.acode == code) <==> AccLocalExit(a, done, ev, code)
  {
    hide PortStep;
  }

  lemma AccLocalExits(s: State, x: nat, ev: AccEvent, code: Code)
    requires x in s.accs
    ensures var done := s.accs[x].session.Some? && SessionDone(s, s.accs[x].session.value);
      AccExits(s, AccStep(x, ev), x, code) <==> AccLocalExit(s.accs[x], done, ev, code)
  {
    hide SessionDone, GoodAccept;
  }

  lemma AccLocalExitIff(cfg: Config, s: State, x: nat, ev: AccEvent, code: Code)
    requires x in s.accs && !AccLeft(s.accs[x].pc)
    ensures AccLeavesWith(cfg, s, AccStep(x, ev), x, code) <==> AccExits(s, AccStep(x, ev), x, code)
  {
    hide AccLocal, AccLocalExit, AccExits, SessionDone, AccLeft, StepRegister, StepReg, StepCleanup, StepConn,
      StepReserve, StepCount, StepAllocate, StepInsert, StepNotify, StepDelete, StepCancelConn, StepRelease,
      StepUncount, StepAttach, StepCancelAcc, StepHandToAgent, StepHandToClient, StepTallyToAgent, StepTallyToClient;
    var done := s.accs[x].session.Some? && SessionDone(s, s.accs[x].session.value);
    AccLocalExits(s, x, ev, code);
    AccRecordExitIff(s.accs[x], done, ev, code);
  }

  lemma AttachExitIff(cfg: Config, s: State, x: nat, code: Code)
    requires Reachable(cfg, s) && x in s.accs && !AccLeft(s.accs[x].pc)
    ensures AccLeavesWith(cfg, s, Attach(x), x, code) <==> AccExits(s, Attach(x), x, code)
  {
    hide Reachable, Lists;
    if s.accs[x].pc.Attaching? {
      AttachIff(cfg, s, x);
      AttachCodes(cfg, s, x);
      hide Step;
    }
  }

  lemma AttachCodes(cfg: Config, s: State, x: nat)
    requires Step(cfg, s, Attach(x)).Some?
    ensures var pc := Step(cfg, s, Attach(x)).value.accs[x].pc; pc == AccForwarding || pc == AccReturned(NotFound)
  {
    hide AttachRegion;
  }

  lemma AccOthersStay(cfg: Config, s: State, act: Action, x: nat)
    requires x in s.accs && !AccLeft(s.accs[x].pc) && Step(cfg, s, act).Some? && act != Attach(x)
    requires !(act.AccStep? && act.x == x)
    ensures x in Step(cfg, s, act).value.accs && !AccLeft(Step(cfg, s, act).value.accs[x].pc)
  {
    hide ConnLocal, RegLocal, AccLocal, RegisterRegion, CleanupRegion, ReserveRegion, AttachRegion, ReleaseRegion,
      InsertRegion, DeleteRegion, CancelSession, FreshSid, ValidOpen, Note;
  }

  lemma AccOthersNoExit(s: State, act: Action, x: nat, code: Code)
    requires x in s.accs && act != Attach(x) && !(act.AccStep? && act.x == x)
    ensures !AccExits(s, act, x, code)
  {
  }

  lemma AccOthersNoLeave(cfg: Config, s: State, act: Action, x: nat, code: Code)
    requires x in s.accs && !AccLeft(s.accs[x].pc) && act != Attach(x) && !(act.AccStep? && act.x == x)
    ensures !AccLeavesWith(cfg, s, act, x, code)
  {
    hide Step, AccLeft;
    if Step(cfg, s, act).Some? { AccOthersStay(cfg, s, act, x); }
  }

  /** An `Accept` call leaves in a step with a certain code if and only if the step is one of its exits for it. */
  lemma AcceptExitIff(cfg: Config, s: State, act: Action, x: nat, code: Code)
    requires Reachable(cfg, s) && x in s.accs && !AccLeft(s.accs[x].pc)
    ensures AccLeavesWith(cfg, s, act, x, code) <==> AccExits(s, act, x, code)
  {
    hide Reachable, AccLeavesWith, AccExits, AccLeft;
    if act == Attach(x) {
      AttachExitIff(cfg, s, x, code);
    } else if act.AccStep? && act.x == x {
      AccLocalExitIff(cfg, s, x, act.aev, code);
    } else {
      AccOthersNoExit(s, act, x, code);
      AccOthersNoLeave(cfg, s, act, x, code);
    }
  }

  /** An `Accept` call on its way out keeps its code. */
  lemma AccCodeKept(cfg: Config, s: State, act: Action, x: nat)
    requires x in s.accs && AccLeft(s.accs[x].pc) && Step(cfg, s, act).Some?
    ensures var t := Step(cfg, s, act).value;
      x in t.accs && AccLeft(t.accs[x].pc) && t.accs[x].pc.acode == s.accs[x].pc.acode
  {
    hide ConnLocal, RegLocal, PortStep, RegisterRegion, CleanupRegion, ReserveRegion, AttachRegion, ReleaseRegion,
      InsertRegion, DeleteRegion, CancelSession, FreshSid, ValidOpen, Note;
  }

  // ---- RegisterAgent, after it is registered ----

  /**
   A step makes a registered call leave with a code if and only if its stream's context is done at its
   `select`, or a notification could not be sent.
   */
  lemma RegisterExitIff(cfg: Config, s: State, act: Action, r: nat, code: Code)
    requires r in s.regs && (s.regs[r].pc.RegLoop? || s.regs[r].pc.RegSending?)
    ensures Step(cfg, s, act).Some? ==> r in Step(cfg, s, act).value.regs
    ensures (Step(cfg, s, act).Some? && Step(cfg, s, act).value.regs[r].pc == RegCleanup(code)) <==>
      || (code == Cancelled && act == RegStep(r, RegContext) && s.regs[r].pc.RegLoop? && s.regs[r].streamDone)
      || (code == StreamBroken && act == RegStep(r, RegSendError) && s.regs[r].pc.RegSending?)
    ensures Step(cfg, s, act).Some? ==>
      !Step(cfg, s, act).value.regs[r].pc.RegReturned? && !Step(cfg, s, act).value.regs[r].pc.RegStart?
  {
    if act.NewRegister? {
    } else if act.RegStep? {
      hide StepRegister, StepCleanup, StepConn, StepReserve, StepCount, StepAllocate, StepInsert, StepNotify,
        StepDelete, StepCancelConn, StepRelease, StepUncount, StepAcc, StepAttach, StepCancelAcc, StepHandToAgent,
        StepHandToClient, StepTallyToAgent, StepTallyToClient;
    } else if OfRegistration(act) {
      hide Step;
      if Step(cfg, s, act).Some? { RegionsDoNotExit(cfg, s, act, r); }
    } else {
      hide Step;
      if Step(cfg, s, act).Some? { OthersKeepRegs(cfg, s, act); }
    }
  }

  lemma RegionsDoNotExit(cfg: Config, s: State, act: Action, r: nat)
    requires r in s.regs && (s.regs[r].pc.RegLoop? || s.regs[r].pc.RegSending?) && Step(cfg, s, act).Some?
    requires OfRegistration(act) && !act.RegStep? && !act.NewRegister?
    ensures r in Step(cfg, s, act).value.regs
    ensures var pc := Step(cfg, s, act).value.regs[r].pc; pc.RegLoop? || pc.RegSending?
  {
    hide RegisterRegion, CleanupRegion, Note, StepConn, StepReserve, StepCount, StepAllocate, StepInsert, StepDelete,
      StepCancelConn, StepRelease, StepUncount, StepAcc, StepAttach, StepCancelAcc, StepHandToAgent, StepHandToClient;
  }

  // ---- What the streams may do ----

  predicate ConnSends(pc: ConnPc) {
    pc.SendAssigned? || pc.SendAccept? || pc.SendPayload?
  }

  /** A stream a handler or pump waits on may yield any frame, end or fail at any moment, and so may a send. */
  predicate StreamMay(s: State, act: Action) {
    match act
    case ConnStep(c, ev) => c in s.conns && (
      var k := s.conns[c];
      match ev
      case StreamDone => true
      case RecvFrame(_) => k.pc.RecvOpen? || k.pc.RecvHandshake?
      case RecvError => k.pc.RecvOpen? || k.pc.RecvHandshake?
      case SendOk => ConnSends(k.pc)
      case SendError => ConnSends(k.pc)
      case PumpFrame(_) => k.port.pump.Receiving?
      case PumpMove(pe) => pe.Ended? && k.port.pump.Receiving?
      case _ => false)
    case AccStep(x, ev) => x in s.accs && (
      var a := s.accs[x];
      match ev
      case AccFrame(_) => a.pc.RecvAccept?
      case AccRecvError => a.pc.RecvAccept?
      case AccSendOk => a.pc.AccSending?
      case AccSendError => a.pc.AccSending?
      case AccPumpFrame(_) => a.port.pump.Receiving?
      case AccPumpMove(pe) => pe.Ended? && a.port.pump.Receiving?
      case _ => false)
    case RegStep(r, ev) => r in s.regs && (
      match ev
      case RegStreamDone => true
      case RegSendOk => s.regs[r].pc.RegSending?
      case RegSendError => s.regs[r].pc.RegSending?
      case RegContext => false)
    case _ => false
  }

  /** The events that come from a stream. */
  predicate OfStream(act: Action) {
    match act
    case ConnStep(_, ev) =>
      || ev.StreamDone? || ev.RecvFrame? || ev.RecvError? || ev.SendOk? || ev.SendError? || ev.PumpFrame?
      || (ev.PumpMove? && ev.ev.Ended?)
    case AccStep(_, ev) =>
      || ev.AccFrame? || ev.AccRecvError? || ev.AccSendOk? || ev.AccSendError? || ev.AccPumpFrame?
      || (ev.AccPumpMove? && ev.ev.Ended?)
    case RegStep(_, ev) => !ev.RegContext?
    case _ => false
  }

  /** No step of the relay rests on a stream behaving: each such event is possible exactly where its call waits. */
  lemma StreamsAreFree(cfg: Config, s: State, act: Action)
    requires OfStream(act)
    ensures Step(cfg, s, act).Some? <==> StreamMay(s, act)
  {
  }
}
