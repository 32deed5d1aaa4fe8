/** `Bridge` returns: once one loop has ended, it ends the other, whatever it was doing. */
module BridgeTeardown {
  import opened Base
  import opened Noise
  import opened PlainFrames
  import opened Bridge

  /** What `Bridge` has closed at each point. */
  predicate Closed(bpc: BridgePc, fl: Flags) {
    && (bpc.CloseConn? || bpc.CloseStream? || bpc.WaitSecond? || bpc.BridgeDone? ==> fl.ctxDone)
    && (bpc.CloseStream? || bpc.WaitSecond? || bpc.BridgeDone? ==> fl.connClosed)
    && (bpc.WaitSecond? || bpc.BridgeDone? ==> fl.streamClosed)
  }

  /** An endpoint that runs `Bridge`, after any events. */
  function RunEnd(e: Endpoint, evs: seq<Event>): Option<Endpoint> {
    if evs == [] then Some(e) else
    var f := RunEnd(e, evs[..|evs| - 1]);
    if f.None? then None else Step(f.value, evs[|evs| - 1])
  }

  ghost predicate Reached(e: Endpoint) {
    exists t: Transport, evs :: t.send.n == 0 && t.recv.n == 0 && RunEnd(NewEndpoint(t), evs) == Some(e)
  }

  ghost predicate Sound(e: Endpoint) {
    && EndpointOk(e) && Closed(e.bpc, e.fl) && !e.snd.refused
    && (!e.bpc.Running? ==> e.snd.pc.SendDone? || e.rcv.pc.RecvDone?)
    && (e.bpc.BridgeDone? ==> e.snd.pc.SendDone? && e.rcv.pc.RecvDone?)
  }

  lemma StepSound(e: Endpoint, ev: Event)
    requires Sound(e) && Step(e, ev).Some?
    ensures Sound(Step(e, ev).value)
  {
    StepOk(e, ev);
    hide EndpointOk, SenderEncrypt, ReceiverTake;
    if SenderEvent(ev) { SenderKeeps(e.snd, e.fl, ev); }
    if ev.Encrypt? { EncryptSends(e.snd); }
  }

  lemma {:induction false} RunSound(e: Endpoint, evs: seq<Event>)
    requires Sound(e)
    ensures RunEnd(e, evs).Some? ==> Sound(RunEnd(e, evs).value)
  {
    hide Step, Sound;
    if evs != [] {
      RunSound(e, evs[..|evs| - 1]);
      var f := RunEnd(e, evs[..|evs| - 1]);
      if f.Some? && Step(f.value, evs[|evs| - 1]).Some? { StepSound(f.value, evs[|evs| - 1]); }
    }
  }

  lemma ReachedSound(e: Endpoint)
    requires Reached(e)
    ensures Sound(e)
  {
    hide RunEnd, EndpointOk;
    var t: Transport, evs :| t.send.n == 0 && t.recv.n == 0 && RunEnd(NewEndpoint(t), evs) == Some(e);
    NewOk(t);
    RunSound(NewEndpoint(t), evs);
  }

  // ---- From the end of one loop to the end of both ----

  /** Events of the endpoint itself: no ciphertext comes in, and nobody cancels the context from outside. */
  predicate OwnEvent(ev: Event) {
    !ev.Receive? && !ev.Cancel?
  }

  /** How many events each loop has left once everything is closed. */
  function SendLeft(pc: SendPc): nat {
    match pc
    case Reading => 1
    case Encrypting(_, _) => 2
    case Sending(_, _) => 1
    case Waiting => 3
    case SendDone(_) => 0
  }

  function RecvLeft(pc: RecvPc): nat {
    match pc
    case Receiving => 1
    case Writing(_) => 1
    case HalfClosing => 3
    case Signalling(_) => 2
    case Checking => 1
    case RecvDone(_) => 0
  }

  function Left(e: Endpoint): nat {
    SendLeft(e.snd.pc) + RecvLeft(e.rcv.pc) + (if e.bpc.BridgeDone? then 0 else 1)
  }

  predicate Closing(e: Endpoint) {
    e.bpc.WaitSecond? || e.bpc.BridgeDone?
  }

  lemma OwnDescends(e: Endpoint, ev: Event)
    requires Sound(e) && Closing(e) && OwnEvent(ev) && Step(e, ev).Some?
    ensures Closing(Step(e, ev).value) && Left(Step(e, ev).value) < Left(e)
  {
    hide EndpointOk, ReceiverTake, SenderEncrypt;
    if ev.Encrypt? { EncryptSends(e.snd); }
  }

  lemma EncryptSends(s: Sender)
    requires SenderEncrypt(s).Some?
    ensures s.pc.Encrypting? && SenderEncrypt(s).value.pc.Sending?
  {
    hide Marshal;
  }

  /** Until `Bridge` has returned it or one of its loops can go on by itself. */
  lemma OwnPossible(e: Endpoint) returns (ev: Event)
    requires Sound(e) && e.bpc.WaitSecond?
    ensures OwnEvent(ev) && Step(e, ev).Some?
  {
    hide ReceiverOk, Concat, Marshal;
    match e.snd.pc
    case Reading => ev := ReadTcp([], ReadFailed);
    case Encrypting(_, _) => ev := Encrypt;
    case Sending(_, _) => ev := SendFail;
    case Waiting => ev := ContextSignal;
    case SendDone(_) =>
      match e.rcv.pc
      case Receiving => ev := ReceiveEnd(false);
      case Writing(_) => ev := WriteFail(0);
      case HalfClosing => ev := CloseWrite;
      case Signalling(_) => ev := Signal;
      case Checking => ev := Check;
      case RecvDone(_) => ev := BridgeStep;
  }

  lemma {:induction false} OwnBounded(e: Endpoint, evs: seq<Event>)
    requires Sound(e) && Closing(e) && RunEnd(e, evs).Some? && forall i :: 0 <= i < |evs| ==> OwnEvent(evs[i])
    ensures Closing(RunEnd(e, evs).value) && |evs| + Left(RunEnd(e, evs).value) <= Left(e)
  {
    if evs != [] {
      hide Step, Sound, OwnEvent, Left;
      var most := evs[..|evs| - 1];
      OwnBounded(e, most);
      RunSound(e, most);
      OwnDescends(RunEnd(e, most).value, evs[|evs| - 1]);
    }
  }

  /**
   Once `Bridge` waits for its second loop, every run without further ciphertexts has at most seven events, and
   one that cannot go on has returned.
   */
  lemma BridgeReturns(e: Endpoint, evs: seq<Event>)
    requires Reached(e) && e.bpc.WaitSecond? && RunEnd(e, evs).Some? && forall i :: 0 <= i < |evs| ==> OwnEvent(evs[i])
    ensures |evs| <= 7
    ensures (forall ev :: OwnEvent(ev) ==> Step(RunEnd(e, evs).value, ev).None?) ==>
      var f := RunEnd(e, evs).value; f.bpc.BridgeDone? && f.snd.pc.SendDone? && f.rcv.pc.RecvDone?
  {
    ReachedSound(e);
    hide Reached, RunEnd, Step, OwnEvent, EndpointOk;
    assert Left(e) <= 7;
    OwnBounded(e, evs);
    RunSound(e, evs);
    Stuck(RunEnd(e, evs).value);
  }

  lemma Stuck(e: Endpoint)
    requires Sound(e) && Closing(e)
    ensures (forall ev :: OwnEvent(ev) ==> Step(e, ev).None?) ==>
      e.bpc.BridgeDone? && e.snd.pc.SendDone? && e.rcv.pc.RecvDone?
  {
    hide Step, OwnEvent, EndpointOk;
    if e.bpc.WaitSecond? { var ev := OwnPossible(e); }
  }

  /**
   `Bridge` goes on exactly when a loop has ended; four steps of its own then cancel the context and close the
   connection and the stream, leaving the loops where they are.
   */
  lemma StopsIffLoopEnds(e: Endpoint)
    requires Reached(e) && e.bpc.Running?
    ensures Step(e, BridgeStep).Some? <==> e.snd.pc.SendDone? || e.rcv.pc.RecvDone?
    ensures Step(e, BridgeStep).Some? ==>
      RunEnd(e, [BridgeStep, BridgeStep, BridgeStep, BridgeStep])
        == Some(e.(bpc := WaitSecond, fl := e.fl.(ctxDone := true, connClosed := true, streamClosed := true)))
  {
    hide Reached;
    var b := BridgeStep;
    assert [b, b, b, b][..3] == [b, b, b] && [b, b, b][..2] == [b, b] && [b, b][..1] == [b] && [b][..0] == [];
    assert RunEnd(e, []) == Some(e);
    var one := e.(bpc := CancelContext);
    var two := e.(bpc := CloseConn, fl := e.fl.(ctxDone := true));
    var three := e.(bpc := CloseStream, fl := e.fl.(ctxDone := true, connClosed := true));
    if Step(e, b).Some? {
      assert Step(e, b) == Some(one) && Step(one, b) == Some(two) && Step(two, b) == Some(three);
      assert RunEnd(e, [b]) == Some(one);
      assert RunEnd(e, [b, b]) == Some(two);
      assert RunEnd(e, [b, b, b]) == Some(three);
    }
  }

  /** After the context is done `recvLoop` takes at most one more frame, empty data aside. */
  lemma {:induction false} NoMoreFrames(e: Endpoint, evs: seq<Event>)
    requires e.fl.ctxDone && !e.rcv.pc.Receiving? && RunEnd(e, evs).Some?
    ensures RunEnd(e, evs).value.rcv.got == e.rcv.got && !RunEnd(e, evs).value.rcv.pc.Receiving?
    ensures RunEnd(e, evs).value.fl.ctxDone
  {
    if evs != [] {
      NoMoreFrames(e, evs[..|evs| - 1]);
      hide SenderStep, RunEnd;
    }
  }

  // ---- What the blocking calls may return ----

  /**
   A read may return any bytes up to the buffer's 32768 and any status, until the connection is closed, and may
   then only fail; a send may always fail, and succeeds only while the stream is open; the stream may yield
   any ciphertext or end; a write may stop after any number of bytes, and writes nothing once the connection
   is closed.
   */
  predicate MayReturn(e: Endpoint, ev: Event) {
    match ev
    case ReadTcp(b, status) =>
      e.snd.pc.Reading? && |b| <= 32768 && (e.fl.connClosed ==> b == [] && status == ReadFailed)
    case SendOk => e.snd.pc.Sending? && !e.fl.streamClosed
    case SendFail => e.snd.pc.Sending?
    case Receive(_) => e.rcv.pc.Receiving?
    case ReceiveEnd(_) => e.rcv.pc.Receiving?
    case WriteOk => e.rcv.pc.Writing? && !e.fl.connClosed
    case WriteFail(n) => e.rcv.pc.Writing? && n <= |e.rcv.pc.data| && (e.fl.connClosed ==> n == 0)
    case _ => false
  }

  lemma CallsMayReturn(e: Endpoint, ev: Event)
    requires ev.ReadTcp? || ev.SendOk? || ev.SendFail? || ev.Receive? || ev.ReceiveEnd? || ev.WriteOk? || ev.WriteFail?
    ensures Step(e, ev).Some? <==> MayReturn(e, ev)
  {
    hide Unmarshal;
  }
}
