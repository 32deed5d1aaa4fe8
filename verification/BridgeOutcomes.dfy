/** Why `sendLoop` and `recvLoop` return what they return, for everything their blocking calls can do. */
module BridgeOutcomes {
  import opened Base
  import opened Noise
  import opened PlainFrames
  import opened Wire
  import opened Bridge
  import opened BridgeLoops

  // ---- sendLoop ----

  /** How the last `conn.Read` of a script ended. */
  function LastRead(script: Script): Option<ReadStatus> {
    if script == [] then None else
    var ev := script[|script| - 1].1;
    if ev.ReadTcp? then Some(ev.status) else LastRead(script[..|script| - 1])
  }

  function Last(script: Script): Event
    requires script != []
  {
    script[|script| - 1].1
  }

  /** Where the sender is, against the last read. */
  predicate ReadAt(pc: SendPc, read: Option<ReadStatus>) {
    match pc
    case Reading => read.None? || read == Some(More)
    case Encrypting(_, a) => read == Some(StatusOf(a))
    case Sending(_, a) => read == Some(StatusOf(a))
    case Waiting => read == Some(AtEof)
    case SendDone(_) => true
  }

  function StatusOf(a: After): ReadStatus {
    match a
    case ReadAgain => More
    case ThenFail => ReadFailed
    case _ => AtEof
  }

  /** What is encrypted next, and how many closing frames have been. */
  predicate TailIs(s: Sender) {
    match s.pc
    case Reading => s.tail == 0
    case Encrypting(f, a) => (
      match a
      case ThenWait => s.tail == 0 && f == HalfClose
      case ThenReturn => s.tail == 1 && f == Close(1, [])
      case _ => s.tail == 0 && f.Data?)
    case Sending(_, a) => s.tail == (if a.ThenWait? then 1 else if a.ThenReturn? then 2 else 0)
    case Waiting => s.tail == 1
    case SendDone(_) => s.tail <= 2
  }

  /** The frames of a sender, in the order they are encrypted. */
  function FrameAt(s: Sender, i: nat): Body {
    if i < |s.chunks| then Data(s.chunks[i]) else if i == |s.chunks| then HalfClose else Close(1, [])
  }

  /** The ciphertexts sent, from the nonce the sender started at. */
  predicate SentIs(s: Sender, start: CipherState) {
    && s.tx == CipherState(start.key, start.n + |s.chunks| + s.tail)
    && |s.sent| <= |s.chunks| + s.tail
    && (!s.pc.SendDone? ==> |s.sent| + (if s.pc.Sending? then 1 else 0) == |s.chunks| + s.tail)
    && (forall i :: 0 <= i < |s.sent| ==> s.sent[i] == Sealed(start.key, start.n + i, Marshal(FrameAt(s, i))))
    && (s.pc.Sending? ==> s.pc.ct == Sealed(start.key, start.n + |s.sent|, Marshal(FrameAt(s, |s.sent|))))
  }

  /** The error a finished sender returns, against its last event and its last read. */
  predicate ErrorIs(s: Sender, last: Event, read: Option<ReadStatus>) {
    && s.pc.SendDone?
    && (s.pc.serr == Nil <==> last.SendOk? && read == Some(AtEof))
    && (s.pc.serr == Nil <==> |s.sent| == |s.chunks| + 2)
    && (s.pc.serr == TcpRead <==> read == Some(ReadFailed) && !last.SendFail?)
    && (s.pc.serr == Bridge.StreamBroken <==> last.SendFail?)
    && (s.pc.serr == ContextError <==> last.ContextSignal?)
    && s.pc.serr in {Nil, TcpRead, Bridge.StreamBroken, ContextError}
  }

  predicate SendTrace(s: Sender, start: CipherState, script: Script) {
    && !s.refused && ReadAt(s.pc, LastRead(script)) && TailIs(s) && SentIs(s, start)
    && (s.pc.SendDone? ==> script != [] && ErrorIs(s, Last(script), LastRead(script)))
  }

  lemma ReadTrace(s: Sender, start: CipherState, fl: Flags, b: Bytes, status: ReadStatus)
    requires !s.refused && TailIs(s) && SentIs(s, start) && SenderRead(s, fl, b, status).Some?
    ensures var t := SenderRead(s, fl, b, status).value;
      && !t.refused && ReadAt(t.pc, Some(status)) && TailIs(t) && SentIs(t, start)
      && (t.pc.SendDone? ==> ErrorIs(t, ReadTcp(b, status), Some(status)))
  {
    hide Marshal;
    var t := SenderRead(s, fl, b, status).value;
    assert forall i :: 0 <= i < |s.sent| ==> FrameAt(t, i) == FrameAt(s, i);
  }

  lemma EncryptTrace(s: Sender, start: CipherState)
    requires !s.refused && TailIs(s) && SentIs(s, start) && SenderEncrypt(s).Some?
    ensures var t := SenderEncrypt(s).value;
      !t.refused && TailIs(t) && SentIs(t, start) && t.pc.Sending? && t.pc.after == s.pc.after
  {
    hide Marshal;
    var t := SenderEncrypt(s).value;
    assert forall i :: 0 <= i < |s.sent| ==> FrameAt(t, i) == FrameAt(s, i);
    assert FrameAt(t, |s.sent|) == s.pc.frame;
  }

  lemma SentTrace(s: Sender, start: CipherState, fl: Flags, read: Option<ReadStatus>)
    requires !s.refused && TailIs(s) && SentIs(s, start) && ReadAt(s.pc, read) && SenderSent(s, fl).Some?
    ensures var t := SenderSent(s, fl).value;
      && !t.refused && TailIs(t) && SentIs(t, start) && ReadAt(t.pc, read)
      && (t.pc.SendDone? ==> ErrorIs(t, SendOk, read))
  {
    hide Marshal;
    var t := SenderSent(s, fl).value;
    assert forall i :: 0 <= i < |t.sent| ==> FrameAt(t, i) == FrameAt(s, i);
  }

  lemma StepTrace(s: Sender, start: CipherState, script: Script, one: (Flags, Event))
    requires SendTrace(s, start, script) && SenderStep(s, one.0, one.1).Some?
    ensures SendTrace(SenderStep(s, one.0, one.1).value, start, script + [one])
  {
    var more := script + [one];
    assert more[..|more| - 1] == script && Last(more) == one.1;
    hide SenderRead, SenderEncrypt, SenderSent, TailIs, SentIs, ReadAt, ErrorIs;
    if one.1.ReadTcp? { ReadTrace(s, start, one.0, one.1.bytes, one.1.status); }
    else if one.1.Encrypt? { EncryptTrace(s, start); EncryptReads(s, LastRead(script)); }
    else if one.1.SendOk? { SentTrace(s, start, one.0, LastRead(script)); }
    else { OtherTrace(s, start, one.0, one.1, LastRead(script)); }
  }

  lemma EncryptReads(s: Sender, read: Option<ReadStatus>)
    requires ReadAt(s.pc, read) && SenderEncrypt(s).Some?
    ensures ReadAt(SenderEncrypt(s).value.pc, read) && !SenderEncrypt(s).value.pc.SendDone?
  {
    hide Marshal;
  }

  lemma OtherTrace(s: Sender, start: CipherState, fl: Flags, ev: Event, read: Option<ReadStatus>)
    requires !s.refused && TailIs(s) && SentIs(s, start) && ReadAt(s.pc, read) && SenderStep(s, fl, ev).Some?
    requires !ev.ReadTcp? && !ev.Encrypt? && !ev.SendOk?
    ensures var t := SenderStep(s, fl, ev).value;
      && !t.refused && TailIs(t) && SentIs(t, start) && ReadAt(t.pc, read)
      && (t.pc.SendDone? ==> ErrorIs(t, ev, read))
  {
    hide Marshal;
    var t := SenderStep(s, fl, ev).value;
    assert forall i :: 0 <= i < |s.sent| ==> FrameAt(t, i) == FrameAt(s, i);
  }

  lemma {:induction false} RunTrace(tx: CipherState, script: Script)
    ensures var s := RunSender(NewSender(tx), script); s.Some? ==> SendTrace(s.value, tx, script)
  {
    if script != [] {
      hide SendTrace, SenderStep;
      var most := script[..|script| - 1];
      RunTrace(tx, most);
      assert script == most + [script[|script| - 1]];
      var s := RunSender(NewSender(tx), most);
      if s.Some? && SenderStep(s.value, script[|script| - 1].0, script[|script| - 1].1).Some? {
        StepTrace(s.value, tx, most, script[|script| - 1]);
      }
    }
  }

  /**
   What `sendLoop` returns, exactly: no error if and only if it read end of file and sent the half-close and
   the normal close; a TCP error if and only if a read failed and everything read was sent; a stream error
   if and only if a send failed; a context error if and only if the context ended the wait.
   */
  lemma SendOutcome(tx: CipherState, script: Script)
    requires SendScript(tx, script)
    ensures script != []
    ensures var s := RunSender(NewSender(tx), script).value;
      var n := |s.chunks|;
      && (s.pc == SendDone(Nil) <==> Last(script).SendOk? && LastRead(script) == Some(AtEof))
      && (s.pc == SendDone(Nil) <==>
            && |s.sent| == n + 2
            && s.sent[n] == Sealed(tx.key, tx.n + n, Marshal(HalfClose))
            && s.sent[n + 1] == Sealed(tx.key, tx.n + n + 1, Marshal(Close(1, []))))
      && (s.pc == SendDone(TcpRead) <==> LastRead(script) == Some(ReadFailed) && !Last(script).SendFail?)
      && (s.pc == SendDone(Bridge.StreamBroken) <==> Last(script).SendFail?)
      && (s.pc == SendDone(ContextError) <==> Last(script).ContextSignal?)
      && (forall i :: 0 <= i < |s.sent| && i < n ==> s.sent[i] == Sealed(tx.key, tx.n + i, Marshal(Data(s.chunks[i]))))
  {
    hide Marshal, RunSender;
    RunTrace(tx, script);
  }

  // ---- Any data can be sent ----

  const OPEN_FLAGS := Flags(false, false, false, true)

  /** The script of a connection that yields `chunks`, end of file, and a peer that half-closes. */
  function SendAll(chunks: seq<Bytes>): Script {
    Chunks(chunks) + [(OPEN_FLAGS, ReadTcp([], AtEof)), (OPEN_FLAGS, Encrypt), (OPEN_FLAGS, SendOk),
                      (OPEN_FLAGS, RemoteSignal), (OPEN_FLAGS, Encrypt), (OPEN_FLAGS, SendOk)]
  }

  function Chunks(chunks: seq<Bytes>): Script {
    if chunks == [] then [] else
    Chunks(chunks[..|chunks| - 1])
    + [(OPEN_FLAGS, ReadTcp(chunks[|chunks| - 1], More)), (OPEN_FLAGS, Encrypt), (OPEN_FLAGS, SendOk)]
  }

  lemma RunSnoc(s: Sender, script: Script, one: (Flags, Event))
    requires RunSender(s, script).Some?
    ensures RunSender(s, script + [one]) == SenderStep(RunSender(s, script).value, one.0, one.1)
  {
    hide SenderStep;
    assert (script + [one])[..|script|] == script;
  }

  lemma ChunkSent(s: Sender, b: Bytes, one: (Flags, Event), two: (Flags, Event), three: (Flags, Event))
    requires s.pc == Reading && s.tail == 0 && 0 < |b| <= 32768
    requires one == (OPEN_FLAGS, ReadTcp(b, More)) && two == (OPEN_FLAGS, Encrypt) && three == (OPEN_FLAGS, SendOk)
    ensures var t := SenderStep(s, one.0, one.1);
      && t.Some?
      && var u := SenderStep(t.value, two.0, two.1);
      && u.Some?
      && var v := SenderStep(u.value, three.0, three.1);
      v.Some? && v.value.pc == Reading && v.value.chunks == s.chunks + [b] && v.value.tail == 0
  {
    hide Marshal;
  }

  lemma {:induction false} ChunksRun(tx: CipherState, chunks: seq<Bytes>)
    requires forall i :: 0 <= i < |chunks| ==> 0 < |chunks[i]| <= 32768
    ensures var s := RunSender(NewSender(tx), Chunks(chunks));
      s.Some? && s.value.pc == Reading && s.value.chunks == chunks && s.value.tail == 0
  {
    if chunks == [] {
      assert RunSender(NewSender(tx), []) == Some(NewSender(tx));
    } else {
      hide SenderStep, RunSender, Chunks;
      var most, b := chunks[..|chunks| - 1], chunks[|chunks| - 1];
      ChunksRun(tx, most);
      ChunksLast(chunks);
      var script := Chunks(most);
      var one, two, three := (OPEN_FLAGS, ReadTcp(b, More)), (OPEN_FLAGS, Encrypt), (OPEN_FLAGS, SendOk);
      ChunkSent(RunSender(NewSender(tx), script).value, b, one, two, three);
      RunSnoc(NewSender(tx), script, one);
      RunSnoc(NewSender(tx), script + [one], two);
      RunSnoc(NewSender(tx), script + [one] + [two], three);
      assert most + [b] == chunks;
    }
  }

  lemma ChunksLast(chunks: seq<Bytes>)
    requires chunks != []
    ensures Chunks(chunks) == Chunks(chunks[..|chunks| - 1]) + [(OPEN_FLAGS, ReadTcp(chunks[|chunks| - 1], More))]
      + [(OPEN_FLAGS, Encrypt)] + [(OPEN_FLAGS, SendOk)]
  {
  }

  /** Whatever the connection yields, in reads of up to 32768 bytes, can be sent and the stream closed without error. */
  lemma AnyDataCanBeSent(tx: CipherState, chunks: seq<Bytes>)
    requires forall i :: 0 <= i < |chunks| ==> 0 < |chunks[i]| <= 32768
    ensures SendScript(tx, SendAll(chunks))
    ensures var s := RunSender(NewSender(tx), SendAll(chunks)).value; s.pc == SendDone(Nil) && s.chunks == chunks
  {
    hide Marshal;
    HalfSent(tx, chunks);
    hide RunSender, SenderStep;
    var b := Chunks(chunks) + HALF;
    var e2, e3, e4 := (OPEN_FLAGS, Encrypt), (OPEN_FLAGS, SendOk), (OPEN_FLAGS, RemoteSignal);
    RunSnoc(NewSender(tx), b, e4);
    RunSnoc(NewSender(tx), b + [e4], e2);
    RunSnoc(NewSender(tx), b + [e4] + [e2], e3);
    assert b + [e4] + [e2] + [e3] == SendAll(chunks);
    CloseSent(RunSender(NewSender(tx), b).value, e4, e2, e3);
  }

  /** End of file is read and the half-close sent. */
  const HALF: Script := [(OPEN_FLAGS, ReadTcp([], AtEof)), (OPEN_FLAGS, Encrypt), (OPEN_FLAGS, SendOk)]

  lemma HalfSent(tx: CipherState, chunks: seq<Bytes>)
    requires forall i :: 0 <= i < |chunks| ==> 0 < |chunks[i]| <= 32768
    ensures var s := RunSender(NewSender(tx), Chunks(chunks) + HALF);
      s.Some? && s.value.pc == Waiting && s.value.chunks == chunks
  {
    hide Marshal;
    ChunksRun(tx, chunks);
    hide RunSender;
    var a := Chunks(chunks);
    RunSnoc(NewSender(tx), a, HALF[0]);
    RunSnoc(NewSender(tx), a + [HALF[0]], HALF[1]);
    RunSnoc(NewSender(tx), a + [HALF[0]] + [HALF[1]], HALF[2]);
    assert a + [HALF[0]] + [HALF[1]] + [HALF[2]] == a + HALF;
  }

  lemma CloseSent(s: Sender, one: (Flags, Event), two: (Flags, Event), three: (Flags, Event))
    requires s.pc == Waiting && one == (OPEN_FLAGS, RemoteSignal) && two == (OPEN_FLAGS, Encrypt)
    requires three == (OPEN_FLAGS, SendOk)
    ensures var t := SenderStep(s, one.0, one.1);
      && t.Some?
      && var u := SenderStep(t.value, two.0, two.1);
      && u.Some?
      && var v := SenderStep(u.value, three.0, three.1);
      v.Some? && v.value.pc == SendDone(Nil) && v.value.chunks == s.chunks
  {
    hide Marshal;
  }

  // ---- recvLoop ----

  /** The last frame accepted was a close with this kind of code. */
  predicate Closed(r: Receiver, normal: bool) {
    |r.got| > 0 && r.got[|r.got| - 1].Close? && (normal <==> r.got[|r.got| - 1].code == 1)
  }

  predicate Opens(start: CipherState, r: Receiver, ct: Ciphertext) {
    ct.Sealed? && ct.key == start.key && ct.n == start.n + |r.got|
  }

  predicate RecvErrorIs(r: Receiver, start: CipherState, fl: Flags, last: Event) {
    && r.pc.RecvDone?
    && (r.pc.rerr == Nil <==> last.Signal? && Closed(r, true))
    && (r.pc.rerr == RemoteClosed <==> last.Signal? && Closed(r, false))
    && (r.pc.rerr == StreamEof <==> last == ReceiveEnd(true))
    && (r.pc.rerr == Bridge.StreamBroken <==> last == ReceiveEnd(false))
    && (r.pc.rerr == TcpWrite <==> last.WriteFail?)
    && (r.pc.rerr == ContextError <==> last.Check? && fl.ctxDone)
    && (r.pc.rerr == BadCiphertext <==> last.Receive? && !Opens(start, r, last.ct))
    && (r.pc.rerr == BadFrame <==> last.Receive? && Opens(start, r, last.ct))
    && r.pc.rerr != NotStarted
  }

  predicate RecvTrace(r: Receiver, start: CipherState, script: Script) {
    && r.rx.key == start.key
    && (r.pc != RecvDone(BadFrame) ==> r.rx.n == start.n + |r.got|)
    && (r.pc.Signalling? ==> r.pc.result in {None, Some(Nil), Some(RemoteClosed)})
    && (r.pc == Signalling(Some(Nil)) ==> Closed(r, true))
    && (r.pc == Signalling(Some(RemoteClosed)) ==> Closed(r, false))
    && (r.pc.RecvDone? ==> script != [] && RecvErrorIs(r, start, script[|script| - 1].0, Last(script)))
  }

  lemma TakeTrace(r: Receiver, start: CipherState, script: Script, fl: Flags, ct: Ciphertext)
    requires RecvTrace(r, start, script) && ReceiverTake(r, ct).Some?
    ensures RecvTrace(ReceiverTake(r, ct).value, start, script + [(fl, Receive(ct))])
  {
    hide Unmarshal;
  }

  lemma RecvStepTrace(r: Receiver, start: CipherState, script: Script, one: (Flags, Event))
    requires RecvTrace(r, start, script) && ReceiverStep(r, one.0, one.1).Some?
    ensures RecvTrace(ReceiverStep(r, one.0, one.1).value, start, script + [one])
  {
    hide ReceiverTake;
    if one.1.Receive? {
      hide RecvTrace;
      TakeTrace(r, start, script, one.0, one.1.ct);
    }
  }

  lemma {:induction false} RecvRunTrace(rx: CipherState, script: Script)
    ensures var r := RunReceiver(NewReceiver(rx), script); r.Some? ==> RecvTrace(r.value, rx, script)
  {
    if script != [] {
      hide RecvTrace, ReceiverStep;
      var most := script[..|script| - 1];
      RecvRunTrace(rx, most);
      assert script == most + [script[|script| - 1]];
      var r := RunReceiver(NewReceiver(rx), most);
      if r.Some? && ReceiverStep(r.value, script[|script| - 1].0, script[|script| - 1].1).Some? {
        RecvStepTrace(r.value, rx, most, script[|script| - 1]);
      }
    }
  }

  /**
   What `recvLoop` returns, exactly: no error if and only if it took a close with the normal code; and each
   error if and only if its own cause came last.
   */
  lemma RecvOutcome(rx: CipherState, script: Script)
    requires RecvScript(rx, script)
    ensures script != []
    ensures RecvErrorIs(RunReceiver(NewReceiver(rx), script).value, rx, script[|script| - 1].0, Last(script))
  {
    RecvRunTrace(rx, script);
  }

  // ---- Any data can be received ----

  function FrameEvent(rx: CipherState, i: nat, f: Body): (Flags, Event)
    requires f.Close? ==> 0 <= f.code
  {
    (NO_FLAGS, Receive(Sealed(rx.key, rx.n + i, Marshal(f))))
  }

  /** The script of a stream that carries `chunks`, read and written without trouble. */
  function Writes(rx: CipherState, chunks: seq<Bytes>): Script {
    if chunks == [] then [] else
    var n := |chunks| - 1;
    Writes(rx, chunks[..n]) + [FrameEvent(rx, n, Data(chunks[n])), (NO_FLAGS, WriteOk), (NO_FLAGS, Check)]
  }

  lemma RecvSnoc(r: Receiver, script: Script, one: (Flags, Event))
    requires RunReceiver(r, script).Some?
    ensures RunReceiver(r, script + [one]) == ReceiverStep(RunReceiver(r, script).value, one.0, one.1)
  {
    hide ReceiverStep;
    assert (script + [one])[..|script|] == script;
  }

  lemma TakeFrame(r: Receiver, f: Body)
    requires r.pc.Receiving? && Sendable(f)
    ensures f.Close? ==> f.code >= 0
    ensures ReceiverStep(r, NO_FLAGS, Receive(Sealed(r.rx.key, r.rx.n, Marshal(f))))
      == Some(r.(rx := r.rx.(n := r.rx.n + 1), got := r.got + [f], pc := AfterBody(f)))
  {
    hide Marshal, Unmarshal, Utf8;
    FrameRoundTrip(f);
  }

  lemma NormalSendable()
    ensures Sendable(HalfClose) && Sendable(Close(1, []))
  {
    ClosingSendable();
  }

  lemma WriteSteps(r: Receiver)
    requires r.pc.Writing?
    ensures var s := r.(written := r.written + r.pc.data, pc := Checking);
      && ReceiverStep(r, NO_FLAGS, WriteOk) == Some(s)
      && ReceiverStep(s, NO_FLAGS, Check) == Some(s.(pc := Receiving))
  {
  }

  lemma HalfCloseSteps(r: Receiver)
    requires r.pc.HalfClosing?
    ensures var s := r.(writeClosed := true, pc := Signalling(None));
      && ReceiverStep(r, NO_FLAGS, CloseWrite) == Some(s)
      && ReceiverStep(s, NO_FLAGS, Signal) == Some(s.(pc := Checking))
      && ReceiverStep(s.(pc := Checking), NO_FLAGS, Check) == Some(s.(pc := Receiving))
  {
  }

  lemma CloseSteps(r: Receiver)
    requires r.pc == Signalling(Some(Nil))
    ensures ReceiverStep(r, NO_FLAGS, Signal) == Some(r.(pc := RecvDone(Nil)))
  {
  }

  lemma {:induction false} WritesRun(rx: CipherState, chunks: seq<Bytes>)
    requires forall i :: 0 <= i < |chunks| ==> 0 < |chunks[i]| <= 32768
    ensures var r := RunReceiver(NewReceiver(rx), Writes(rx, chunks));
      && r.Some? && r.value.pc == Receiving && r.value.rx == CipherState(rx.key, rx.n + |chunks|)
      && r.value.written == Concat(chunks) && !r.value.writeClosed
  {
    hide Marshal, ReceiverStep, Concat;
    if chunks == [] {
      assert RunReceiver(NewReceiver(rx), []) == Some(NewReceiver(rx));
      assert Concat([]) == [] by { NothingJoined(); }
    } else {
      var n := |chunks| - 1;
      var most, b := chunks[..n], chunks[n];
      WritesRun(rx, most);
      hide RunReceiver, Sendable;
      var script := Writes(rx, most);
      var one, two, three := FrameEvent(rx, n, Data(b)), (NO_FLAGS, WriteOk), (NO_FLAGS, Check);
      DataSendable(b);
      var r := RunReceiver(NewReceiver(rx), script).value;
      TakeFrame(r, Data(b));
      WriteSteps(r.(rx := r.rx.(n := r.rx.n + 1), got := r.got + [Data(b)], pc := Writing(b)));
      RecvSnoc(NewReceiver(rx), script, one);
      RecvSnoc(NewReceiver(rx), script + [one], two);
      RecvSnoc(NewReceiver(rx), script + [one] + [two], three);
      assert script + [one] + [two] + [three] == Writes(rx, chunks);
      ConcatAppend(most, b);
      assert most + [b] == chunks;
    }
  }

  lemma NothingJoined()
    ensures Concat([]) == []
  {
  }

  /** Up to and including the half-close. */
  function HalfClosed(rx: CipherState, chunks: seq<Bytes>): Script {
    Writes(rx, chunks) + [FrameEvent(rx, |chunks|, HalfClose)] + [(NO_FLAGS, CloseWrite)] + [(NO_FLAGS, Signal)]
      + [(NO_FLAGS, Check)]
  }

  /** The whole stream: data, half-close, normal close. */
  function ReceiveAll(rx: CipherState, chunks: seq<Bytes>): Script {
    HalfClosed(rx, chunks) + [FrameEvent(rx, |chunks| + 1, Close(1, []))] + [(NO_FLAGS, Signal)]
  }

  lemma HalfClosedRun(rx: CipherState, chunks: seq<Bytes>)
    requires forall i :: 0 <= i < |chunks| ==> 0 < |chunks[i]| <= 32768
    ensures var r := RunReceiver(NewReceiver(rx), HalfClosed(rx, chunks));
      && r.Some? && r.value.pc == Receiving && r.value.rx == CipherState(rx.key, rx.n + |chunks| + 1)
      && r.value.written == Concat(chunks) && r.value.writeClosed
  {
    WritesRun(rx, chunks);
    NormalSendable();
    hide Marshal, ReceiverStep, Concat, RunReceiver, Sendable, Writes;
    var a := Writes(rx, chunks);
    var r := RunReceiver(NewReceiver(rx), a).value;
    var e1 := FrameEvent(rx, |chunks|, HalfClose);
    var e2, e3, e4 := (NO_FLAGS, CloseWrite), (NO_FLAGS, Signal), (NO_FLAGS, Check);
    TakeFrame(r, HalfClose);
    HalfCloseSteps(r.(rx := r.rx.(n := r.rx.n + 1), got := r.got + [HalfClose], pc := HalfClosing));
    RecvSnoc(NewReceiver(rx), a, e1);
    RecvSnoc(NewReceiver(rx), a + [e1], e2);
    RecvSnoc(NewReceiver(rx), a + [e1] + [e2], e3);
    RecvSnoc(NewReceiver(rx), a + [e1] + [e2] + [e3], e4);
  }

  /** Whatever a peer sends is written in full, the write side closed, and the loop returns without error. */
  lemma AnyDataCanBeReceived(rx: CipherState, chunks: seq<Bytes>)
    requires forall i :: 0 <= i < |chunks| ==> 0 < |chunks[i]| <= 32768
    ensures var r := RunReceiver(NewReceiver(rx), ReceiveAll(rx, chunks));
      r.Some? && r.value.pc == RecvDone(Nil) && r.value.written == Concat(chunks) && r.value.writeClosed
  {
    HalfClosedRun(rx, chunks);
    NormalSendable();
    hide Marshal, ReceiverStep, Concat, RunReceiver, Sendable, Writes, HalfClosed;
    var b := HalfClosed(rx, chunks);
    var r := RunReceiver(NewReceiver(rx), b).value;
    var e5, e6 := FrameEvent(rx, |chunks| + 1, Close(1, [])), (NO_FLAGS, Signal);
    TakeFrame(r, Close(1, []));
    CloseSteps(r.(rx := r.rx.(n := r.rx.n + 1), got := r.got + [Close(1, [])], pc := Signalling(Some(Nil))));
    RecvSnoc(NewReceiver(rx), b, e5);
    RecvSnoc(NewReceiver(rx), b + [e5], e6);
  }

  // ---- The refusal ----

  /** An agent that cannot open its target sends close code 2 with a fixed text. */
  lemma RefusalBytes()
    ensures Marshal(REFUSAL) == [0x1a, 0x19, 0x08, 0x02, 0x12, 0x15] + StringBytes("target is unreachable")
  {
    hide Marshal, StringBytes;
    var text := StringBytes("target is unreachable");
    AsciiBytes("target is unreachable");
    assert REFUSAL.message == text;
    FrameBytes(REFUSAL);
    assert Varint(2) == [0x02] && Varint(21) == [0x15] && Varint(25) == [0x19];
    assert CloseBytes(2, text) == [0x08, 0x02, 0x12, 0x15] + text;
  }
}
