/**
 Two bridges joined by lossless first-in first-out streams, with no failures from outside: every run
 ends, and when it has ended every byte has arrived in both directions.
 */
module Progress {
  import opened Base
  import opened Noise
  import opened PlainFrames
  import opened Bridge
  import EndToEnd

  datatype Pair = Pair(l: Endpoint, r: Endpoint)

  /**
   The events endpoint `x` can see when its peer is `y` and nothing fails by itself. Once an end is
   complete its streams may also break.
   */
  predicate Lossless(x: Endpoint, y: Endpoint, ev: Event) {
    match ev
    case ReadTcp(_, status) => status.ReadFailed? ==> x.fl.connClosed
    case SendFail => x.fl.streamClosed || Complete(x)
    case Receive(ct) => x.rcv.rx.n < |y.snd.sent| && ct == y.snd.sent[x.rcv.rx.n]
    case ReceiveEnd(clean) => Complete(x) || (clean && y.fl.streamClosed && x.rcv.rx.n == |y.snd.sent|)
    case WriteFail(_) => x.fl.connClosed
    case Cancel => false
    case _ => true
  }

  function Move(p: Pair, left: bool, ev: Event): Option<Pair> {
    var x, y := if left then p.l else p.r, if left then p.r else p.l;
    if !Lossless(x, y, ev) then None else
    var e := Step(x, ev);
    if e.None? then None else Some(if left then p.(l := e.value) else p.(r := e.value))
  }

  function Run(p: Pair, moves: seq<(bool, Event)>): Option<Pair> {
    if moves == [] then Some(p) else
    var q := Run(p, moves[..|moves| - 1]);
    if q.None? then None else Move(q.value, moves[|moves| - 1].0, moves[|moves| - 1].1)
  }

  /** Two endpoints fresh from one handshake. */
  ghost predicate Fresh(p: Pair) {
    exists t: Transport, u: Transport :: p == Pair(NewEndpoint(t), NewEndpoint(u)) && Complementary(t, u)
  }

  predicate Complementary(t: Transport, u: Transport) {
    t.send == u.recv && t.recv == u.send && t.send.n == 0 && t.recv.n == 0
  }

  // ---- The invariant ----

  /** The stream from `x` to `y`: what `y` took is what `x` sent first. */
  ghost predicate Channel(x: Endpoint, y: Endpoint) {
    && x.snd.tx.key == y.rcv.rx.key
    && y.rcv.rx.n <= |x.snd.sent|
    && y.rcv.rx.n == |y.rcv.got|
    && y.rcv.got <= Frames(x.snd)
  }

  predicate LoopEnded(x: Endpoint) {
    x.snd.pc.SendDone? || x.rcv.pc.RecvDone?
  }

  /** The bridge's flags follow its position, and it moves only after a loop has returned. */
  predicate Lifecycle(x: Endpoint) {
    && (x.fl.ctxDone <==> x.bpc.CloseConn? || x.bpc.CloseStream? || x.bpc.WaitSecond? || x.bpc.BridgeDone?)
    && (x.fl.connClosed <==> x.bpc.CloseStream? || x.bpc.WaitSecond? || x.bpc.BridgeDone?)
    && (x.fl.streamClosed <==> x.bpc.WaitSecond? || x.bpc.BridgeDone?)
    && (!x.bpc.Running? ==> LoopEnded(x))
    && (x.bpc.BridgeDone? ==> x.snd.pc.SendDone? && x.rcv.pc.RecvDone?)
  }

  /** Bookkeeping that holds as long as nothing fails from outside. */
  ghost predicate Smooth(x: Endpoint) {
    && !x.snd.refused
    && !(x.snd.pc.Encrypting? && x.snd.pc.after == ThenFail) && !(x.snd.pc.Sending? && x.snd.pc.after == ThenFail)
    && (Ends(x.rcv.got) && !x.rcv.pc.HalfClosing? && !x.rcv.pc.Signalling? ==> x.fl.remoteEof)
    && (HalfClose in x.rcv.got && !x.rcv.pc.HalfClosing? ==> x.rcv.writeClosed)
  }

  /** This end has taken the peer's half-close and sent its own. */
  predicate Complete(x: Endpoint) {
    HalfClose in x.rcv.got && |x.snd.sent| > |x.snd.chunks|
  }

  /** The one half-close is being handled: nobody has acted on it yet. */
  predicate Once(x: Endpoint) {
    x.rcv.pc.HalfClosing? ==> !x.fl.remoteEof && !LoopEnded(x)
  }

  ghost predicate Side(x: Endpoint, y: Endpoint) {
    && EndpointOk(x) && SentOk(x.snd) && Channel(x, y) && Lifecycle(x) && Smooth(x) && Once(x)
    && (LoopEnded(x) ==> Complete(x))
  }

  ghost predicate PairOk(p: Pair) {
    Side(p.l, p.r) && Side(p.r, p.l)
  }

  // ---- Facts about one side ----

  /** A half-close taken by the peer has been sent. */
  lemma TakenWasSent(x: Endpoint, y: Endpoint)
    requires EndpointOk(x) && Channel(x, y) && !x.snd.refused && Ends(y.rcv.got)
    ensures HalfClose in y.rcv.got && |x.snd.sent| > |x.snd.chunks| && x.snd.eof && x.snd.tail > 0
    ensures !y.rcv.got[|y.rcv.got| - 1].Data? && Payload(y.rcv.got) == x.snd.input
  {
    hide SenderOk, ReceiverOk, Payload;
    EndToEnd.EndsWithHalfClose(x.snd, x.fl.remoteEof, y.rcv.got);
    EndToEnd.HalfCloseIsLastData(x.snd, x.fl.remoteEof, y.rcv.got);
    TailOf(x.snd, x.fl.remoteEof);
    var i :| 0 <= i < |y.rcv.got| && !y.rcv.got[i].Data?;
    assert Frames(x.snd)[i] == y.rcv.got[i];
  }

  lemma TailOf(s: Sender, remoteEof: bool)
    requires SenderOk(s, remoteEof) && !s.refused
    ensures |Frames(s)| == |s.chunks| + s.tail && s.tx.n == |Frames(s)|
  {
    hide Concat;
  }

  /** Once this end is complete, its own loop has read everything and its receiver is past all data. */
  lemma CompleteFacts(x: Endpoint, y: Endpoint)
    requires EndpointOk(x) && EndpointOk(y) && SentOk(x.snd) && Channel(y, x) && !x.snd.refused && !y.snd.refused
    requires Complete(x)
    ensures x.snd.tail > 0 && x.snd.eof && !x.snd.pc.Reading? && !x.rcv.pc.Writing?
    ensures Payload(x.rcv.got) == y.snd.input && y.snd.eof
  {
    hide Payload, Concat;
    assert Ends(x.rcv.got);
    TakenWasSent(y, x);
    TailOf(x.snd, x.fl.remoteEof);
    FramesPayload(x.snd, x.fl.remoteEof);
  }

  /** A normal close taken from a peer that runs `Bridge` means this end's half-close was taken too. */
  lemma CloseTaken(x: Endpoint, y: Endpoint)
    requires EndpointOk(x) && EndpointOk(y) && Channel(x, y) && Channel(y, x) && !x.snd.refused && !y.snd.refused
    requires x.rcv.pc.Signalling? && x.rcv.pc.result.Some?
    ensures Complete(x)
  {
    hide SenderOk, Payload;
    assert Ends(x.rcv.got);
    TakenWasSent(y, x);
    OnlyNormalClose(y.snd, y.fl.remoteEof, x.rcv.got);
    EndToEnd.NormalCloseSent(y.snd, y.fl.remoteEof, x.rcv.got);
    TakenWasSent(x, y);
  }

  lemma OnlyNormalClose(s: Sender, remoteEof: bool, got: seq<Body>)
    requires SenderOk(s, remoteEof) && !s.refused && got <= Frames(s) && |got| > 0 && got[|got| - 1].Close?
    ensures got[|got| - 1].code == CODE_NORMAL
  {
    hide Concat;
    assert got[|got| - 1] == Frames(s)[|got| - 1];
  }

  /** When the peer has ended and everything it sent was taken, this end is complete. */
  lemma EndTaken(x: Endpoint, y: Endpoint)
    requires EndpointOk(x) && EndpointOk(y) && SentOk(y.snd) && Channel(x, y) && Channel(y, x) && !x.snd.refused
    requires !y.snd.refused
    requires Complete(y) && x.rcv.rx.n == |y.snd.sent|
    ensures Complete(x)
  {
    hide SenderOk, Payload, ReceiverOk;
    assert Ends(y.rcv.got);
    TakenWasSent(x, y);
    TailOf(y.snd, y.fl.remoteEof);
    var i := |y.snd.chunks|;
    assert Frames(y.snd)[i] == x.rcv.got[i];
    assert !x.rcv.got[i].Data? by { assert Frames(y.snd)[i] == Closing(false, y.snd.tail)[0]; }
    TakenWasSent(y, x);
  }

  // ---- One move of `x` keeps both sides ----

  lemma SentGrows(s: Sender, fl: Flags, ev: Event)
    requires SenderStep(s, fl, ev).Some?
    ensures s.sent <= SenderStep(s, fl, ev).value.sent
  {
    hide Marshal;
  }

  lemma ChannelFromMover(x: Endpoint, y: Endpoint, ev: Event)
    requires EndpointOk(x) && SentOk(x.snd) && Channel(x, y) && Step(x, ev).Some?
    ensures Channel(Step(x, ev).value, y) && EndpointOk(Step(x, ev).value) && SentOk(Step(x, ev).value.snd)
  {
    StepOk(x, ev);
    EndToEnd.StepFrames(x, ev);
    hide EndpointOk, SentOk, Frames, SenderStep, ReceiverStep;
    if SenderEvent(ev) { SentGrows(x.snd, x.fl, ev); }
  }

  /** Taking the next ciphertext of a lossless stream always yields the peer's next frame. */
  lemma TakeNext(x: Endpoint, y: Endpoint)
    requires EndpointOk(x) && EndpointOk(y) && SentOk(y.snd) && Channel(y, x) && x.rcv.pc.Receiving?
    requires x.rcv.rx.n < |y.snd.sent|
    ensures var n := x.rcv.rx.n; var r := ReceiverTake(x.rcv, y.snd.sent[n]).value;
      && n < |Frames(y.snd)|
      && r == x.rcv.(rx := x.rcv.rx.(n := n + 1), got := x.rcv.got + [Frames(y.snd)[n]],
        pc := AfterBody(Frames(y.snd)[n]))
      && r.got <= Frames(y.snd)
  {
    hide Marshal, Unmarshal, SenderOk, ReceiverOk, Frames;
    var n := x.rcv.rx.n;
    FramesSendable(y.snd, y.fl.remoteEof, n);
    FrameRoundTrip(Frames(y.snd)[n]);
    assert x.rcv.got + [Frames(y.snd)[n]] <= Frames(y.snd);
  }

  lemma ReceiverUntouched(x: Endpoint, ev: Event)
    requires Step(x, ev).Some? && !ev.Receive?
    ensures Step(x, ev).value.rcv.rx == x.rcv.rx && Step(x, ev).value.rcv.got == x.rcv.got
  {
    hide SenderStep, ReceiverTake;
  }

  lemma ChannelToMover(x: Endpoint, y: Endpoint, ev: Event)
    requires EndpointOk(x) && EndpointOk(y) && SentOk(y.snd) && Channel(y, x) && Lossless(x, y, ev) && Step(x, ev).Some?
    ensures Channel(y, Step(x, ev).value)
  {
    if ev.Receive? {
      assert x.rcv.pc.Receiving?;
      hide ReceiverTake, EndpointOk, SentOk, Frames;
      TakeNext(x, y);
    } else {
      hide Step, EndpointOk, SentOk, Frames;
      ReceiverUntouched(x, ev);
    }
  }

  lemma DoneStays(x: Endpoint, ev: Event)
    requires Step(x, ev).Some?
    ensures x.snd.pc.SendDone? ==> Step(x, ev).value.snd == x.snd
    ensures x.rcv.pc.RecvDone? ==> Step(x, ev).value.rcv == x.rcv
  {
    hide Marshal, Unmarshal;
  }

  lemma LifecycleOk(x: Endpoint, ev: Event)
    requires Lifecycle(x) && Step(x, ev).Some? && !ev.Cancel?
    ensures Lifecycle(Step(x, ev).value)
  {
    DoneStays(x, ev);
    hide SenderStep, ReceiverStep;
  }

  lemma SmoothSender(x: Endpoint, y: Endpoint, ev: Event)
    requires Smooth(x) && Lossless(x, y, ev) && Step(x, ev).Some? && SenderEvent(ev)
    ensures Smooth(Step(x, ev).value)
  {
    hide Marshal, ReceiverStep;
  }

  lemma SmoothReceive(x: Endpoint, body: Body, rx: CipherState)
    requires Smooth(x) && x.rcv.pc.Receiving?
    ensures Smooth(x.(rcv := x.rcv.(rx := rx, got := x.rcv.got + [body], pc := AfterBody(body))))
  {
    var got := x.rcv.got + [body];
    assert forall i :: 0 <= i < |x.rcv.got| ==> got[i] == x.rcv.got[i];
    if body.Data? && Ends(got) {
      var i :| 0 <= i < |got| && !got[i].Data?;
      assert i < |x.rcv.got|;
      assert Ends(x.rcv.got);
    }
    if !body.HalfClose? && HalfClose in got {
      var i :| 0 <= i < |got| && got[i] == HalfClose;
      assert x.rcv.got[i] == HalfClose;
    }
  }

  lemma SmoothOther(x: Endpoint, y: Endpoint, ev: Event)
    requires Smooth(x) && Lossless(x, y, ev) && Step(x, ev).Some? && !SenderEvent(ev) && !ev.Receive?
    requires x.rcv.pc.HalfClosing? ==> !x.fl.connClosed
    ensures Smooth(Step(x, ev).value)
  {
    hide SenderStep, ReceiverTake;
  }

  lemma SmoothOk(x: Endpoint, y: Endpoint, ev: Event)
    requires Smooth(x) && Lossless(x, y, ev) && Step(x, ev).Some?
    requires EndpointOk(x) && EndpointOk(y) && SentOk(y.snd) && Channel(y, x)
    requires x.rcv.pc.HalfClosing? ==> !x.fl.connClosed
    ensures Smooth(Step(x, ev).value)
  {
    hide Smooth, EndpointOk, SentOk, Frames, SenderStep, ReceiverTake;
    if SenderEvent(ev) {
      hide Step;
      SmoothSender(x, y, ev);
    } else if ev.Receive? {
      assert x.rcv.pc.Receiving? by { TakingReceives(x.rcv, ev.ct); }
      TakeNext(x, y);
      SmoothReceive(x, Frames(y.snd)[x.rcv.rx.n], x.rcv.rx.(n := x.rcv.rx.n + 1));
    } else {
      hide Step;
      SmoothOther(x, y, ev);
    }
  }

  lemma TakingReceives(r: Receiver, ct: Ciphertext)
    requires ReceiverTake(r, ct).Some?
    ensures r.pc.Receiving?
  {
  }

  // ---- A loop returns only when its end is complete ----

  lemma SenderEnds(x: Endpoint, y: Endpoint, ev: Event)
    requires Side(x, y) && Side(y, x) && Lossless(x, y, ev) && Step(x, ev).Some? && SenderEvent(ev)
    requires !LoopEnded(x) && Step(x, ev).value.snd.pc.SendDone?
    ensures Complete(Step(x, ev).value)
  {
    hide Concat, Marshal, WrittenAt;
    if !ev.SendFail? {
      assert ev.SendOk? && x.snd.pc.after == ThenReturn;
      TakenWasSent(y, x);
      TailOf(x.snd, x.fl.remoteEof);
    }
  }

  lemma ReceiverEnds(x: Endpoint, y: Endpoint, ev: Event)
    requires Side(x, y) && Side(y, x) && Lossless(x, y, ev) && Step(x, ev).Some? && !SenderEvent(ev)
    requires !LoopEnded(x) && Step(x, ev).value.rcv.pc.RecvDone?
    ensures Complete(x)
  {
    if ev.Receive? {
      TakingReceives(x.rcv, ev.ct);
      TakeNext(x, y);
      assert false;
    } else if ev.ReceiveEnd? {
      hide EndpointOk, SentOk, Channel, Smooth, Complete;
      if !Complete(x) { EndTaken(x, y); }
    } else {
      hide Channel, SentOk, ReceiverTake, SenderOk, ReceiverOk, Smooth;
      assert ev.Signal?;
      CloseTaken(x, y);
    }
  }

  lemma CompleteStays(x: Endpoint, ev: Event)
    requires EndpointOk(x) && SentOk(x.snd) && Complete(x) && x.snd.tail > 0 && !x.snd.refused && Step(x, ev).Some?
    ensures Complete(Step(x, ev).value)
  {
    hide Marshal, Unmarshal, Concat, WrittenAt;
  }

  /** A peer's frames hold the half-close once. */
  lemma HalfCloseOnce(s: Sender, remoteEof: bool, got: seq<Body>)
    requires SenderOk(s, remoteEof) && !s.refused && got + [HalfClose] <= Frames(s)
    ensures !Ends(got)
  {
    hide Concat;
    assert (got + [HalfClose])[|got|] == Frames(s)[|got|] == HalfClose;
    assert |got| == |s.chunks|;
    forall i | 0 <= i < |got| ensures got[i].Data? { assert got[i] == (got + [HalfClose])[i] == Frames(s)[i]; }
  }

  lemma OnceReceive(x: Endpoint, y: Endpoint, ev: Event)
    requires Side(x, y) && Side(y, x) && Lossless(x, y, ev) && Step(x, ev).Some? && ev.Receive?
    ensures Once(Step(x, ev).value)
  {
    TakingReceives(x.rcv, ev.ct);
    TakeNext(x, y);
    hide ReceiverTake, SenderOk, SentOk, WrittenAt, Frames;
    if Frames(y.snd)[x.rcv.rx.n] == HalfClose {
      HalfCloseOnce(y.snd, y.fl.remoteEof, x.rcv.got);
      assert HalfClose in x.rcv.got ==> Ends(x.rcv.got);
    }
  }

  /** An end that has sent its half-close sends again only after it has seen its peer's. */
  lemma SendsAfterSignal(x: Endpoint)
    requires EndpointOk(x) && SentOk(x.snd) && !x.snd.refused && |x.snd.sent| > |x.snd.chunks| && x.snd.pc.Sending?
    ensures x.fl.remoteEof
  {
    hide Concat, Marshal, WrittenAt;
    TailOf(x.snd, x.fl.remoteEof);
  }

  lemma OnceOther(x: Endpoint, y: Endpoint, ev: Event)
    requires EndpointOk(x) && SentOk(x.snd) && Lifecycle(x) && Smooth(x) && Once(x) && Lossless(x, y, ev)
    requires Step(x, ev).Some? && !ev.Receive?
    ensures Once(Step(x, ev).value)
  {
    if ev.SendFail? && Complete(x) { SendsAfterSignal(x); }
    hide Marshal, ReceiverTake, Concat, WrittenAt, SentOk;
  }

  lemma EndedIsComplete(x: Endpoint, y: Endpoint, ev: Event)
    requires Side(x, y) && Side(y, x) && Lossless(x, y, ev) && Step(x, ev).Some?
    ensures LoopEnded(Step(x, ev).value) ==> Complete(Step(x, ev).value)
  {
    hide EndpointOk, SentOk, Channel, Lifecycle, Smooth, Frames, SenderStep, ReceiverStep;
    var e := Step(x, ev).value;
    SideFacts(x, y);
    if LoopEnded(x) {
      SmoothFacts(x);
      SmoothFacts(y);
      CompleteFacts(x, y);
      hide Step;
      CompleteStays(x, ev);
    } else if LoopEnded(e) {
      if SenderEvent(ev) {
        SenderEnds(x, y, ev);
      } else {
        ReceiverEnds(x, y, ev);
        SmoothFacts(x);
        SmoothFacts(y);
        CompleteFacts(x, y);
        hide Step;
        CompleteStays(x, ev);
      }
    }
  }

  lemma SideFacts(x: Endpoint, y: Endpoint)
    requires Side(x, y)
    ensures EndpointOk(x) && SentOk(x.snd) && Channel(x, y) && Lifecycle(x) && Smooth(x) && Once(x)
  {
    hide EndpointOk, SentOk, Channel, Lifecycle, Smooth, Once;
  }

  lemma SmoothFacts(x: Endpoint)
    requires Smooth(x)
    ensures !x.snd.refused
  {
  }

  lemma OnceFacts(x: Endpoint)
    requires Once(x) && Lifecycle(x)
    ensures x.rcv.pc.HalfClosing? ==> !x.fl.connClosed
  {
  }

  lemma SidesOk(x: Endpoint, y: Endpoint, ev: Event)
    requires Side(x, y) && Side(y, x) && Lossless(x, y, ev) && Step(x, ev).Some?
    ensures Side(Step(x, ev).value, y) && Side(y, Step(x, ev).value)
  {
    EndedIsComplete(x, y, ev);
    if ev.Receive? { OnceReceive(x, y, ev); }
    hide EndpointOk, SentOk, Channel, Smooth, Step, LoopEnded, Complete;
    ChannelFromMover(x, y, ev);
    ChannelToMover(x, y, ev);
    LifecycleOk(x, ev);
    OnceFacts(x);
    SmoothOk(x, y, ev);
    if !ev.Receive? { OnceOther(x, y, ev); }
  }

  lemma MoveOk(p: Pair, left: bool, ev: Event)
    requires PairOk(p) && Move(p, left, ev).Some?
    ensures PairOk(Move(p, left, ev).value)
  {
    hide Side, Lossless, Step;
    if left { SidesOk(p.l, p.r, ev); } else { SidesOk(p.r, p.l, ev); }
  }

  lemma FreshOk(p: Pair)
    requires Fresh(p)
    ensures PairOk(p)
  {
    var t: Transport, u: Transport :| p == Pair(NewEndpoint(t), NewEndpoint(u)) && Complementary(t, u);
    NewOk(t);
    NewOk(u);
    EndToEnd.NewSentOk(t);
    EndToEnd.NewSentOk(u);
  }

  lemma {:induction false} RunOk(p: Pair, moves: seq<(bool, Event)>)
    requires PairOk(p)
    ensures Run(p, moves).Some? ==> PairOk(Run(p, moves).value)
  {
    hide PairOk, Move;
    if moves != [] {
      RunOk(p, moves[..|moves| - 1]);
      var q := Run(p, moves[..|moves| - 1]);
      var last := moves[|moves| - 1];
      if q.Some? && Move(q.value, last.0, last.1).Some? { MoveOk(q.value, last.0, last.1); }
    }
  }

  // ---- No deadlock ----

  /** An event this endpoint can take on its own, if it is not waiting for its peer. */
  function OwnEvent(x: Endpoint): Option<Event> {
    if x.bpc.CancelContext? || x.bpc.CloseConn? || x.bpc.CloseStream? || (x.bpc.Running? && LoopEnded(x))
      then Some(BridgeStep)
    else if x.snd.pc.Encrypting? then Some(Encrypt)
    else if x.snd.pc.Sending? then Some(if x.fl.streamClosed then SendFail else SendOk)
    else if x.snd.pc.Waiting? && x.fl.remoteEof then Some(RemoteSignal)
    else if x.snd.pc.Waiting? && x.fl.ctxDone then Some(ContextSignal)
    else if x.rcv.pc.Writing? then Some(if x.fl.connClosed then WriteFail(0) else WriteOk)
    else if x.rcv.pc.HalfClosing? then Some(CloseWrite)
    else if x.rcv.pc.Signalling? then Some(Signal)
    else if x.rcv.pc.Checking? then Some(Check)
    else if x.bpc.WaitSecond? && x.snd.pc.SendDone? && x.rcv.pc.RecvDone? then Some(BridgeStep)
    else None
  }

  lemma OwnEventEnabled(x: Endpoint, y: Endpoint)
    requires EndpointOk(x) && OwnEvent(x).Some?
    ensures Lossless(x, y, OwnEvent(x).value) && Step(x, OwnEvent(x).value).Some?
  {
    hide Concat, Marshal, ReceiverOk;
  }

  /** What a receiver at its stream can take from its peer. */
  function PeerEvent(x: Endpoint, y: Endpoint): Option<Event> {
    if !x.rcv.pc.Receiving? then None
    else if x.rcv.rx.n < |y.snd.sent| then Some(Receive(y.snd.sent[x.rcv.rx.n]))
    else if y.fl.streamClosed && x.rcv.rx.n == |y.snd.sent| then Some(ReceiveEnd(true))
    else None
  }

  lemma PeerEventEnabled(x: Endpoint, y: Endpoint)
    requires PeerEvent(x, y).Some?
    ensures Lossless(x, y, PeerEvent(x, y).value) && Step(x, PeerEvent(x, y).value).Some?
  {
    hide Unmarshal;
  }

  /** An end with no event left either is done, or waits for its peer with everything taken. */
  lemma BlockedEnd(x: Endpoint, y: Endpoint)
    requires Side(x, y) && Side(y, x) && OwnEvent(x).None? && PeerEvent(x, y).None? && x.snd.eof
    ensures x.bpc.BridgeDone? || (x.rcv.pc.Receiving? && !y.fl.streamClosed && x.rcv.rx.n == |y.snd.sent|)
    ensures !x.bpc.BridgeDone? ==>
      (x.bpc.WaitSecond? && x.fl.streamClosed) || (x.bpc.Running? && x.snd.pc.Waiting? && !x.fl.remoteEof)
  {
    hide Concat, WrittenAt, SentOk, Frames;
  }

  /**
   Two ends cannot both be blocked: whoever waits for a half-close waits for a frame its peer has sent or will send.
   */
  lemma NotBothBlocked(x: Endpoint, y: Endpoint)
    requires Side(x, y) && Side(y, x) && x.snd.eof && y.snd.eof
    requires OwnEvent(x).None? && PeerEvent(x, y).None? && OwnEvent(y).None? && PeerEvent(y, x).None?
    ensures x.bpc.BridgeDone? && y.bpc.BridgeDone?
  {
    hide Side, OwnEvent, PeerEvent;
    BlockedEnd(x, y);
    BlockedEnd(y, x);
    if !x.bpc.BridgeDone? || !y.bpc.BridgeDone? {
      DoneClosed(x, y);
      DoneClosed(y, x);
      WaitersHaveFrames(x, y);
    }
  }

  lemma DoneClosed(x: Endpoint, y: Endpoint)
    requires Side(x, y)
    ensures x.bpc.BridgeDone? ==> x.fl.streamClosed
  {
    hide EndpointOk, SentOk, Channel, Smooth, Once;
  }

  lemma WaitersHaveFrames(x: Endpoint, y: Endpoint)
    requires Side(x, y) && Side(y, x)
    requires y.snd.pc.Waiting? && x.rcv.pc.Receiving? && x.rcv.rx.n == |y.snd.sent|
    ensures x.fl.remoteEof
  {
    hide Concat, WrittenAt;
    TailOf(y.snd, y.fl.remoteEof);
    var i := |y.snd.chunks|;
    assert Frames(y.snd)[i] == x.rcv.got[i];
    assert Frames(y.snd)[i] == Closing(false, y.snd.tail)[0];
  }

  /** Once both sides have read end of file, some move is possible until both bridges have returned. */
  lemma NoDeadlock(p: Pair) returns (left: bool, ev: Event)
    requires PairOk(p) && p.l.snd.eof && p.r.snd.eof
    requires !(p.l.bpc.BridgeDone? && p.r.bpc.BridgeDone?)
    ensures Move(p, left, ev).Some?
  {
    hide EndpointOk, SentOk, Channel, Smooth, Once, Lifecycle, Lossless, Step, OwnEvent, PeerEvent, Complete;
    if OwnEvent(p.l).Some? {
      OwnEventEnabled(p.l, p.r);
      return true, OwnEvent(p.l).value;
    } else if PeerEvent(p.l, p.r).Some? {
      PeerEventEnabled(p.l, p.r);
      return true, PeerEvent(p.l, p.r).value;
    } else if OwnEvent(p.r).Some? {
      OwnEventEnabled(p.r, p.l);
      return false, OwnEvent(p.r).value;
    } else if PeerEvent(p.r, p.l).Some? {
      PeerEventEnabled(p.r, p.l);
      return false, PeerEvent(p.r, p.l).value;
    }
    NotBothBlocked(p.l, p.r);
    assert false;
  }

  // ---- A measure ----

  function SendRank(pc: SendPc): nat {
    match pc
    case Reading => 9
    case Encrypting(_, a) =>
      (match a case ReadAgain => 9 case ThenHalfClose => 8 case ThenFail => 8 case ThenWait => 6 case ThenReturn => 3)
    case Sending(_, a) =>
      (match a case ReadAgain => 9 case ThenHalfClose => 7 case ThenFail => 7 case ThenWait => 5 case ThenReturn => 2)
    case Waiting => 4
    case SendDone(_) => 0
  }

  function RecvRank(pc: RecvPc): nat {
    match pc
    case Receiving => 1 case Checking => 2 case Writing(_) => 3 case Signalling(_) => 3 case HalfClosing => 4
      case RecvDone(_) => 0
  }

  function BridgeRank(pc: BridgePc): nat {
    match pc
    case Running => 5 case CancelContext => 4 case CloseConn => 3 case CloseStream => 2 case WaitSecond => 1
      case BridgeDone => 0
  }

  /** The number of frames a sender at end of file will have encrypted at most. */
  function FrameBound(s: Sender): nat {
    |s.chunks| + (if s.pc.Encrypting? && s.pc.frame.Data? then 1 else 0) + 2
  }

  /** What is left to do at `x`, whose peer is `y`. */
  function Rank(x: Endpoint, y: Endpoint): int {
    SendRank(x.snd.pc) + RecvRank(x.rcv.pc) + BridgeRank(x.bpc) + 6 * (FrameBound(y.snd) - x.rcv.rx.n)
  }

  function Measure(p: Pair): int {
    Rank(p.l, p.r) + Rank(p.r, p.l)
  }

  lemma RankNonNegative(x: Endpoint, y: Endpoint)
    requires Side(y, x)
    ensures 0 <= Rank(x, y)
  {
    hide Concat, WrittenAt;
    TailOf(y.snd, y.fl.remoteEof);
  }

  lemma SenderDescends(s: Sender, fl: Flags, ev: Event)
    requires SenderOk(s, fl.remoteEof) && !s.refused && s.eof && SenderStep(s, fl, ev).Some?
    ensures var t := SenderStep(s, fl, ev).value;
      SendRank(t.pc) < SendRank(s.pc) && FrameBound(t) == FrameBound(s) && t.eof
  {
    hide Concat, Marshal;
  }

  lemma TakeDescends(x: Endpoint, y: Endpoint, ct: Ciphertext)
    requires EndpointOk(x) && EndpointOk(y) && SentOk(y.snd) && Channel(y, x) && Lossless(x, y, Receive(ct))
    requires ReceiverTake(x.rcv, ct).Some?
    ensures var r := ReceiverTake(x.rcv, ct).value; RecvRank(r.pc) - 6 * r.rx.n < RecvRank(x.rcv.pc) - 6 * x.rcv.rx.n
  {
    TakingReceives(x.rcv, ct);
    TakeNext(x, y);
    hide ReceiverTake, EndpointOk, SentOk, Frames;
  }

  lemma ReceiverDescends(x: Endpoint, y: Endpoint, ev: Event)
    requires EndpointOk(x) && EndpointOk(y) && SentOk(y.snd) && Channel(y, x) && Lossless(x, y, ev)
    requires !SenderEvent(ev) && !ev.BridgeStep? && !ev.Cancel? && Step(x, ev).Some?
    ensures var e := Step(x, ev).value; RecvRank(e.rcv.pc) - 6 * e.rcv.rx.n < RecvRank(x.rcv.pc) - 6 * x.rcv.rx.n
    ensures Step(x, ev).value.snd == x.snd && Step(x, ev).value.bpc == x.bpc
  {
    hide ReceiverTake, EndpointOk, SentOk, Channel;
    if ev.Receive? { TakeDescends(x, y, ev.ct); }
  }

  lemma BridgeDescends(x: Endpoint)
    requires BridgeNext(x).Some?
    ensures var e := BridgeNext(x).value; BridgeRank(e.bpc) < BridgeRank(x.bpc) && e.snd == x.snd && e.rcv == x.rcv
  {
  }

  lemma StepDescends(x: Endpoint, y: Endpoint, ev: Event)
    requires Side(x, y) && Side(y, x) && Lossless(x, y, ev) && Step(x, ev).Some? && x.snd.eof
    ensures var e := Step(x, ev).value; Rank(e, y) + Rank(y, e) < Rank(x, y) + Rank(y, x) && e.snd.eof
  {
    SideFacts(x, y);
    SideFacts(y, x);
    SmoothFacts(x);
    hide Side, Lifecycle, Smooth, Once, SenderOk, ReceiverOk, SentOk, Frames, SenderStep, ReceiverStep, BridgeNext;
    if SenderEvent(ev) { SenderDescends(x.snd, x.fl, ev); }
    else if ev.BridgeStep? { BridgeDescends(x); }
    else { ReceiverDescends(x, y, ev); }
  }

  /** Every move lowers the measure once both sides have read end of file. */
  lemma MoveDescends(p: Pair, left: bool, ev: Event)
    requires PairOk(p) && p.l.snd.eof && p.r.snd.eof && Move(p, left, ev).Some?
    ensures var q := Move(p, left, ev).value; 0 <= Measure(q) < Measure(p) && q.l.snd.eof && q.r.snd.eof
  {
    MoveOk(p, left, ev);
    hide Side, Lossless, Step, Rank;
    var q := Move(p, left, ev).value;
    if left { StepDescends(p.l, p.r, ev); } else { StepDescends(p.r, p.l, ev); }
    RankNonNegative(q.l, q.r);
    RankNonNegative(q.r, q.l);
  }

  lemma {:induction false} RunDescends(p: Pair, moves: seq<(bool, Event)>)
    requires PairOk(p) && p.l.snd.eof && p.r.snd.eof && Run(p, moves).Some?
    ensures var q := Run(p, moves).value; Measure(q) + |moves| <= Measure(p) && q.l.snd.eof && q.r.snd.eof && PairOk(q)
  {
    hide PairOk, Move, Measure;
    if moves != [] {
      RunDescends(p, moves[..|moves| - 1]);
      var q := Run(p, moves[..|moves| - 1]).value;
      var last := moves[|moves| - 1];
      MoveDescends(q, last.0, last.1);
      MoveOk(q, last.0, last.1);
    }
  }

  // ---- Theorems ----

  lemma EndedDelivered(x: Endpoint, y: Endpoint)
    requires Side(x, y) && Side(y, x) && x.bpc.BridgeDone?
    ensures x.rcv.written == y.snd.input && y.snd.eof && x.rcv.writeClosed
  {
    SideFacts(x, y);
    SideFacts(y, x);
    SmoothFacts(y);
    SmoothFacts(x);
    assert Complete(x) && x.rcv.pc.RecvDone?;
    assert x.rcv.writeClosed;
    hide Side, Lifecycle, Once, SenderOk, SentOk, Frames, Payload, Smooth;
    CompleteFacts(x, y);
    TakenWasSent(y, x) by { assert Ends(x.rcv.got); }
  }

  /**
   Half-close progress. From any state two fresh endpoints can reach, once both sides have read end of
   file: a run has at most `Measure` moves, and a run that cannot be extended has ended with both
   bridges returned, every byte written on the other side, and both write sides closed.
   */
  lemma TunnelFinishes(start: Pair, before: seq<(bool, Event)>, moves: seq<(bool, Event)>)
    requires Fresh(start) && Run(start, before).Some?
    requires var p := Run(start, before).value; p.l.snd.eof && p.r.snd.eof && Run(p, moves).Some?
    ensures var p := Run(start, before).value; var q := Run(p, moves).value;
      && |moves| <= Measure(p)
      && ((forall left, ev :: Move(q, left, ev).None?) ==>
            && q.l.bpc.BridgeDone? && q.r.bpc.BridgeDone?
            && q.l.rcv.written == q.r.snd.input && q.r.rcv.written == q.l.snd.input
            && q.l.rcv.writeClosed && q.r.rcv.writeClosed)
  {
    hide Move, Side, Run, Rank;
    FreshOk(start);
    RunOk(start, before);
    var p := Run(start, before).value;
    RunDescends(p, moves);
    var q := Run(p, moves).value;
    RankNonNegative(q.l, q.r);
    RankNonNegative(q.r, q.l);
    if forall left, ev :: Move(q, left, ev).None? {
      if !(q.l.bpc.BridgeDone? && q.r.bpc.BridgeDone?) {
        var left, ev := NoDeadlock(q);
        assert false;
      }
      EndedDelivered(q.l, q.r);
      EndedDelivered(q.r, q.l);
    }
  }
}
