/** The main results about what flows through the relay, over every run. */
module BrokerFlowTheorems {
  import opened Base
  import opened Messages
  import opened RelayShared
  import opened RelayHandlers
  import opened Broker
  import opened BrokerInvariants
  import opened BrokerSafety
  import opened BrokerTheorems
  import opened BrokerFlow
  import opened BrokerFlowSafety

  lemma ReachableFlow(cfg: Config, s: State)
    requires Reachable(cfg, s)
    ensures Inv(cfg, s) && FlowInv(s)
  {
    hide Inv, FlowInv, Run;
    var acts :| Run(cfg, INITIAL, acts) == Some(s);
    RunInv(cfg, acts);
    RunFlow(cfg, acts);
  }

  // ---- Handshake results ----

  /**
   The relay's output to a client is always a prefix of the session identifier, one acceptance,
   ciphertexts. The acceptance is sent only after the notification was taken by the loop of the
   agent the client asked for, and carries the hello of the first `Accept` call that found the session.
   */
  lemma FirstAcceptWins(cfg: Config, s: State, c: nat)
    requires Reachable(cfg, s) && c in s.conns
    ensures var k := s.conns[c];
      && (|k.sent| > 0 ==> k.sent[0] == SessionAssigned(k.sid) && |k.sid| == SESSION_ID_SIZE)
      && (forall i :: 2 <= i < |k.sent| ==> k.sent[i].ToClient?)
      && (|k.sent| > 1 ==>
            && k.notified && k.agent in s.regs && c in s.regs[k.agent].taken
            && |k.acceptors| > 0 && k.acceptors[0] in s.accs && |s.accs[k.acceptors[0]].recvd| > 0
            && var first := s.accs[k.acceptors[0]].recvd[0];
            && first.AgentAccept? && first.sessionId == k.sid && |first.agentHello| > 0
            && k.sent[1] == AgentAccepted(PROTOCOL_VERSION, k.sid, first.agentHello))
  {
    hide Reachable, Inv, FlowInv, ConnSane, ConnInput, ConnFlow;
    ReachableFlow(cfg, s);
    ConnOkFacts(cfg, s, c);
    if s.conns[c].notified { NotifiedWasTaken(cfg, s, c); }
  }

  lemma NotifiedWasTaken(cfg: Config, s: State, c: nat)
    requires Inv(cfg, s) && c in s.conns && s.conns[c].notified
    ensures s.conns[c].agent in s.regs && c in s.regs[s.conns[c].agent].taken
  {
    hide AgentsExact, CountersExact, NoOrphans, SessionsExact, Objects, RegRouting;
  }

  lemma SessionObjsKept(cfg: Config, s: State, act: Action)
    requires Step(cfg, s, act).Some?
    requires !act.Cleanup? && !act.Allocate? && !act.CancelConn? && !act.Attach? && !act.CancelAcc?
    ensures Step(cfg, s, act).value.sh.sessionObjs == s.sh.sessionObjs
  {
    hide ConnLocal, AccLocal, RegLocal, FreshSid, CleanupRegion, AttachRegion, CancelSession;
  }

  /** Once a session is ready its hello never changes again. */
  lemma HelloNeverChanges(cfg: Config, s: State, act: Action, c: nat)
    requires Reachable(cfg, s) && Step(cfg, s, act).Some?
    requires c in s.sh.sessionObjs && s.sh.sessionObjs[c].ready
    ensures var t := Step(cfg, s, act).value;
      c in t.sh.sessionObjs && t.sh.sessionObjs[c].ready && t.sh.sessionObjs[c].hello == s.sh.sessionObjs[c].hello
  {
    hide Reachable, Inv, FreshSid, StepRegister, StepReg, StepConn, StepReserve, StepCount, StepInsert, StepNotify,
      StepDelete, StepRelease, StepUncount, StepAcc, StepHandToAgent, StepHandToClient;
    ReachableInv(cfg, s);
    if act.Allocate? && act.c == c {
      ConnFacts(cfg, s, c);
    } else if !act.Cleanup? && !act.Allocate? && !act.CancelConn? && !act.Attach? && !act.CancelAcc? {
      SessionObjsKept(cfg, s, act);
    }
  }

  // ---- A session that comes too late ----

  /** A call that was never notified, waiting to be or on its way out, whose agent is gone. */
  ghost predicate Late(s: State, c: nat, sent: seq<ConnectResponse>) {
    && c in s.conns && AgentDone(s, s.conns[c].agent)
    && !s.conns[c].notified && (s.conns[c].pc.Notifying? || Unwinding(s.conns[c].pc)) && s.conns[c].sent == sent
  }

  lemma LateConnStep(k: Conn, o: SessionState, ev: ConnEvent)
    requires (k.pc.Notifying? || Unwinding(k.pc)) && ConnLocal(k, o, true, ev).Some?
    ensures var l := ConnLocal(k, o, true, ev).value;
      l.notified == k.notified && l.sent == k.sent && l.agent == k.agent && (l.pc.Notifying? || Unwinding(l.pc))
  {
  }

  /** No action of another call, and no shared step of this one but notification, moves it elsewhere. */
  lemma OthersKeepLate(cfg: Config, s: State, act: Action, c: nat)
    requires c in s.conns && (s.conns[c].pc.Notifying? || Unwinding(s.conns[c].pc)) && Step(cfg, s, act).Some?
    requires act != Notify(c) && !(act.ConnStep? && act.c == c)
    ensures var t := Step(cfg, s, act).value;
      && c in t.conns && t.conns[c].notified == s.conns[c].notified && t.conns[c].sent == s.conns[c].sent
      && t.conns[c].agent == s.conns[c].agent && (t.conns[c].pc.Notifying? || Unwinding(t.conns[c].pc))
  {
    hide ConnLocal, AccLocal, RegLocal, RegisterRegion, CleanupRegion, ReserveRegion, AttachRegion, ReleaseRegion,
      InsertRegion, DeleteRegion, CancelSession, FreshSid;
  }

  /** A closed `done` channel stays closed. */
  lemma AgentStaysDone(cfg: Config, s: State, act: Action, a: nat)
    requires AgentDone(s, a) && Step(cfg, s, act).Some?
    ensures AgentDone(Step(cfg, s, act).value, a)
  {
    hide ConnLocal, AccLocal, RegLocal, FreshSid, CancelListed, ValidOpen;
  }

  lemma DoneCannotNotify(cfg: Config, s: State, c: nat)
    requires Inv(cfg, s) && c in s.conns && AgentDone(s, s.conns[c].agent)
    ensures StepNotify(s, c).None?
  {
    hide Inv;
    if s.conns[c].agent in s.regs { RegFacts(cfg, s, s.conns[c].agent); }
  }

  lemma LateStep(cfg: Config, s: State, act: Action, c: nat, sent: seq<ConnectResponse>)
    requires Inv(cfg, s) && Late(s, c, sent) && Step(cfg, s, act).Some?
    ensures Late(Step(cfg, s, act).value, c, sent)
  {
    hide Inv, ConnLocal, AgentDone, Unwinding;
    DoneCannotNotify(cfg, s, c);
    AgentStaysDone(cfg, s, act, s.conns[c].agent);
    if act.ConnStep? && act.c == c {
      LateConnStep(s.conns[c], SessionOf(s, c), act.cev);
    } else if act != Notify(c) {
      hide Step;
      OthersKeepLate(cfg, s, act, c);
    }
  }

  /**
   A session whose agent is already gone when it comes to notifying is never notified, whatever happens
   from then on: it waits or leaves, and its client is sent nothing after the session identifier.
   */
  lemma {:induction false} LateSessionNeverNotifies(cfg: Config, s: State, c: nat, acts: seq<Action>)
    requires Reachable(cfg, s) && c in s.conns && s.conns[c].pc.Notifying? && AgentDone(s, s.conns[c].agent)
    requires Run(cfg, s, acts).Some?
    ensures var t := Run(cfg, s, acts).value;
      && c in t.conns && !t.conns[c].notified && (t.conns[c].pc.Notifying? || Unwinding(t.conns[c].pc))
      && t.conns[c].sent == [SessionAssigned(t.conns[c].sid)] && AgentDone(t, t.conns[c].agent)
  {
    hide Reachable, Inv, FlowInv, Step, AgentDone, ConnInput, ConnFlow;
    ReachableFlow(cfg, s);
    ConnOkFacts(cfg, s, c);
    LateRun(cfg, s, c, s.conns[c].sent, acts);
    var t := Run(cfg, s, acts).value;
    ReachableRun(cfg, s, acts);
    ReachableFlow(cfg, t);
    ConnOkFacts(cfg, t, c);
  }

  lemma {:induction false} LateRun(cfg: Config, s: State, c: nat, sent: seq<ConnectResponse>, acts: seq<Action>)
    requires Reachable(cfg, s) && Late(s, c, sent) && Run(cfg, s, acts).Some?
    ensures Late(Run(cfg, s, acts).value, c, sent)
  {
    hide Reachable, Inv, Step, Late;
    if acts != [] {
      var most := acts[..|acts| - 1];
      LateRun(cfg, s, c, sent, most);
      ReachableRun(cfg, s, most);
      ReachableInv(cfg, Run(cfg, s, most).value);
      LateStep(cfg, Run(cfg, s, most).value, acts[|acts| - 1], c, sent);
    }
  }

  // ---- Forwarding ----

  /** The elements of `whole` whose tag is `id`. */
  function Select(whole: seq<Bytes>, tags: seq<nat>, id: nat): seq<Bytes>
    requires |whole| == |tags|
  {
    if whole == [] then [] else
    var n := |whole| - 1;
    Select(whole[..n], tags[..n], id) + (if tags[n] == id then [whole[n]] else [])
  }

  /** `whole` is an interleaving of `parts`: it can be split into them, each in order, with nothing left over. */
  ghost predicate Interleaves(whole: seq<Bytes>, parts: map<nat, seq<Bytes>>) {
    exists tags: seq<nat> :: |tags| == |whole| && Splits(whole, tags, parts)
  }

  ghost predicate Splits(whole: seq<Bytes>, tags: seq<nat>, parts: map<nat, seq<Bytes>>)
    requires |tags| == |whole|
  {
    && (forall i :: 0 <= i < |tags| ==> tags[i] in parts)
    && (forall id :: id in parts ==> Select(whole, tags, id) == parts[id])
  }

  function Tags(log: seq<Hand>, c: nat): (tags: seq<nat>)
    ensures |tags| == |ByConn(log, c)|
  {
    if log == [] then [] else
    var last := log[|log| - 1];
    Tags(log[..|log| - 1], c) + (if last.conn == c then [last.acc] else [])
  }

  lemma SelectAppend(whole: seq<Bytes>, tags: seq<nat>, b: Bytes, tag: nat, id: nat)
    requires |whole| == |tags|
    ensures Select(whole + [b], tags + [tag], id) == Select(whole, tags, id) + (if tag == id then [b] else [])
  {
    assert (whole + [b])[..|whole|] == whole && (tags + [tag])[..|tags|] == tags;
  }

  /** Splitting a call's hand-overs by their other end gives that end's own view of them. */
  lemma {:induction false} SelectByAcc(log: seq<Hand>, c: nat, x: nat)
    requires forall i :: 0 <= i < |log| && log[i].acc == x ==> log[i].conn == c
    ensures Select(ByConn(log, c), Tags(log, c), x) == ByAcc(log, x)
  {
    if log != [] {
      var most, last := log[..|log| - 1], log[|log| - 1];
      SelectByAcc(most, c, x);
      if last.conn == c {
        SelectAppend(ByConn(most, c), Tags(most, c), last.payload, last.acc, x);
      } else {
        assert ByConn(log, c) == ByConn(most, c) && Tags(log, c) == Tags(most, c);
      }
    }
  }

  ghost predicate Mentions(log: seq<Hand>, c: nat, x: nat) {
    exists j :: 0 <= j < |log| && log[j].conn == c && log[j].acc == x
  }

  lemma {:induction false} TagsAreAccs(log: seq<Hand>, c: nat)
    ensures forall i :: 0 <= i < |Tags(log, c)| ==> Mentions(log, c, Tags(log, c)[i])
  {
    if log != [] {
      var most, last := log[..|log| - 1], log[|log| - 1];
      TagsAreAccs(most, c);
      forall i | 0 <= i < |Tags(log, c)| ensures Mentions(log, c, Tags(log, c)[i]) {
        if i < |Tags(most, c)| {
          assert Mentions(most, c, Tags(most, c)[i]);
          var j :| 0 <= j < |most| && most[j].conn == c && most[j].acc == Tags(most, c)[i];
          assert log[j] == most[j];
        } else {
          assert log[|log| - 1] == last;
        }
      }
    }
  }

  /** What each attached `Accept` call took from session `c`: sent to its agent, being sent, or failed to send. */
  function TakenByAccepts(s: State, c: nat): map<nat, seq<Bytes>> {
    map x | x in s.accs && s.accs[x].session == Some(c) :: s.accs[x].sent + AccHeld(s.accs[x].pc) + s.accs[x].unsent
  }

  /** What the pump of each `Accept` call attached to session `c` handed over: all it got but the last at most. */
  function GivenByAccepts(s: State, c: nat): map<nat, seq<Bytes>> {
    map x | x in s.accs && s.accs[x].session == Some(c) :: ByAcc(s.toClient, x)
  }

  lemma LogInterleaves(log: seq<Hand>, accs: map<nat, Acc>, conns: Conns, c: nat, parts: map<nat, seq<Bytes>>)
    requires forall i :: 0 <= i < |log| ==> HandOk(accs, conns, log[i])
    requires parts.Keys == set x | x in accs && accs[x].session == Some(c)
    requires forall x :: x in parts ==> parts[x] == ByAcc(log, x)
    ensures Interleaves(ByConn(log, c), parts)
  {
    hide ByConn, ByAcc;
    TagsAreAccs(log, c);
    forall x | x in parts ensures Select(ByConn(log, c), Tags(log, c), x) == parts[x] {
      SelectByAcc(log, c, x);
    }
    assert Splits(ByConn(log, c), Tags(log, c), parts);
  }

  lemma FlowFacts(s: State, c: nat)
    requires FlowInv(s) && c in s.conns
    ensures forall i :: 0 <= i < |s.toAgent| ==> HandOk(s.accs, s.conns, s.toAgent[i])
    ensures forall i :: 0 <= i < |s.toClient| ==> HandOk(s.accs, s.conns, s.toClient[i])
    ensures ConnFlow(s.conns[c], ByConn(s.toAgent, c), ByConn(s.toClient, c))
    ensures forall x :: x in s.accs ==> AccFlow(s.accs[x], ByAcc(s.toAgent, x), ByAcc(s.toClient, x))
  {
    hide Frames, Attachments, ConnFlow, AccFlow, ByConn, ByAcc;
  }

  /**
   Conservation, client to agent: what the client's pump received, less the one payload it may still
   offer or have dropped when the context ended, is exactly an interleaving of what the attached
   `Accept` calls took.
   */
  lemma ForwardingToAgents(cfg: Config, s: State, c: nat)
    requires Reachable(cfg, s) && c in s.conns
    ensures var p := s.conns[c].port;
      exists handed :: p.got == handed + Offered(p.pump) + p.dropped && Interleaves(handed, TakenByAccepts(s, c))
    ensures var p := s.conns[c].port; |Offered(p.pump)| + |p.dropped| <= 1
    ensures forall x :: x in s.accs ==> |AccHeld(s.accs[x].pc)| + |s.accs[x].unsent| <= 1
  {
    hide Reachable, Interleaves, ByConn, ByAcc, FlowInv, Inv;
    ReachableFlow(cfg, s);
    FlowFacts(s, c);
    LogInterleaves(s.toAgent, s.accs, s.conns, c, TakenByAccepts(s, c));
  }

  /** Conservation, agents to client. */
  lemma ForwardingToClient(cfg: Config, s: State, c: nat)
    requires Reachable(cfg, s) && c in s.conns
    ensures var k := s.conns[c]; Interleaves(Delivered(k.sent) + Held(k.pc) + k.unsent, GivenByAccepts(s, c))
    ensures var k := s.conns[c]; |Held(k.pc)| + |k.unsent| <= 1
    ensures forall x :: x in GivenByAccepts(s, c) ==>
      var p := s.accs[x].port;
        p.got == GivenByAccepts(s, c)[x] + Offered(p.pump) + p.dropped && |Offered(p.pump)| + |p.dropped| <= 1
  {
    hide Reachable, Interleaves, ByConn, ByAcc, FlowInv, Inv, Delivered;
    ReachableFlow(cfg, s);
    FlowFacts(s, c);
    LogInterleaves(s.toClient, s.accs, s.conns, c, GivenByAccepts(s, c));
  }

  lemma {:induction false} SelectAll(whole: seq<Bytes>, tags: seq<nat>, id: nat)
    requires |whole| == |tags| && forall i :: 0 <= i < |tags| ==> tags[i] == id
    ensures Select(whole, tags, id) == whole
  {
    if whole != [] {
      var n := |whole| - 1;
      SelectAll(whole[..n], tags[..n], id);
      assert whole == whole[..n] + [whole[n]];
    }
  }

  /** With a single attached `Accept` call the relay is a FIFO holding at most two payloads each way. */
  lemma SingleAcceptIsFifo(cfg: Config, s: State, c: nat, x: nat)
    requires Reachable(cfg, s) && c in s.conns && x in s.accs && s.accs[x].session == Some(c)
    requires forall y :: y in s.accs && s.accs[y].session == Some(c) ==> y == x
    ensures s.accs[x].sent <= s.conns[c].port.got && |s.conns[c].port.got| <= |s.accs[x].sent| + 2
    ensures Delivered(s.conns[c].sent) <= s.accs[x].port.got && |s.accs[x].port.got| <= |Delivered(s.conns[c].sent)| + 2
  {
    hide Reachable, ByConn, ByAcc, FlowInv, Inv, Delivered;
    ReachableFlow(cfg, s);
    FlowFacts(s, c);
    OnlyAccept(s.toAgent, s.accs, s.conns, c, x);
    OnlyAccept(s.toClient, s.accs, s.conns, c, x);
  }

  lemma OnlyAccept(log: seq<Hand>, accs: map<nat, Acc>, conns: Conns, c: nat, x: nat)
    requires forall i :: 0 <= i < |log| ==> HandOk(accs, conns, log[i])
    requires x in accs && accs[x].session == Some(c)
    requires forall y :: y in accs && accs[y].session == Some(c) ==> y == x
    ensures ByConn(log, c) == ByAcc(log, x)
  {
    hide ByConn, ByAcc;
    TagsAreAccs(log, c);
    SelectByAcc(log, c, x);
    SelectAll(ByConn(log, c), Tags(log, c), x);
  }

  /** A pump reports end of stream only when everything it received has been handed over. */
  lemma EofMeansHandedOver(cfg: Config, s: State, c: nat)
    requires Reachable(cfg, s) && c in s.conns
    requires var p := s.conns[c].port; p.pump == Reporting(Eof) || p.pump == Exited(Eof)
    ensures Interleaves(s.conns[c].port.got, TakenByAccepts(s, c))
  {
    hide Reachable, Interleaves, ByConn, ByAcc, FlowInv, Inv;
    ReachableFlow(cfg, s);
    FlowFacts(s, c);
    LogInterleaves(s.toAgent, s.accs, s.conns, c, TakenByAccepts(s, c));
    assert s.conns[c].port.got == ByConn(s.toAgent, c);
  }

  /** The same for the pump of an `Accept` call. */
  lemma AgentEofMeansHandedOver(cfg: Config, s: State, x: nat)
    requires Reachable(cfg, s) && x in s.accs
    requires var p := s.accs[x].port; p.pump == Reporting(Eof) || p.pump == Exited(Eof)
    ensures s.accs[x].port.got == ByAcc(s.toClient, x)
  {
    hide Reachable, ByConn, ByAcc, FlowInv, Inv;
    ReachableFlow(cfg, s);
    AccFacts(s, x);
  }

  /** A `Connect` call that returns without error has handed over everything its client sent. */
  lemma ConnectOkMeansHandedOver(cfg: Config, s: State, c: nat)
    requires Reachable(cfg, s) && c in s.conns && s.conns[c].pc == Returned(Ok)
    ensures Interleaves(s.conns[c].port.got, TakenByAccepts(s, c))
    ensures |s.conns[c].recvd| == 2 + |s.conns[c].port.got|
    ensures forall i ::
      0 <= i < |s.conns[c].port.got| ==> s.conns[c].recvd[2 + i] == ClientCiphertext(s.conns[c].port.got[i])
  {
    hide Reachable, Interleaves, ByConn, ByAcc, FlowInv, Inv, TakenByAccepts, PortOk;
    ReachableFlow(cfg, s);
    ConnOkFacts(cfg, s, c);
    EofMeansHandedOver(cfg, s, c);
  }
}
