/**
 One endpoint of a tunnel: `sendLoop`, `recvLoop` and `Bridge` as three goroutines over one TCP
 connection, one ciphertext stream and one `Transport`. One event is one blocking call, one channel
 operation or one encryption; encrypting and sending a frame are two events.
 */
module Bridge {
  import opened Base
  import opened Noise
  import opened PlainFrames

  const CHUNK_SIZE: nat := 0x8000

  datatype LoopError = Nil | TcpRead | TcpWrite | StreamBroken | StreamEof | ContextError | BadCiphertext | BadFrame
    | RemoteClosed | NotStarted

  datatype ReadStatus = More | AtEof | ReadFailed

  /** What `sendLoop` does once the current frame is out. */
  datatype After = ReadAgain | ThenHalfClose | ThenFail | ThenWait | ThenReturn

  datatype SendPc = Reading | Encrypting(frame: Body, after: After) | Sending(ct: Ciphertext, after: After) | Waiting
    | SendDone(serr: LoopError)

  datatype RecvPc = Receiving | Writing(data: Bytes) | HalfClosing | Signalling(result: Option<LoopError>) | Checking
    | RecvDone(rerr: LoopError)

  datatype BridgePc = Running | CancelContext | CloseConn | CloseStream | WaitSecond | BridgeDone

  /**
   `sendLoop` and its half of the transport. The histories are what was read and whether end of file
   was seen, the frames encrypted (data chunks followed by `tail` closing frames), the ciphertexts sent.
   A refused sender is an agent whose target could not be opened.
   */
  datatype Sender = Sender(
    tx: CipherState, pc: SendPc, refused: bool,
    input: Bytes, eof: bool, chunks: seq<Bytes>, tail: nat, sent: seq<Ciphertext>)

  /** `recvLoop` and its half of the transport; histories: frames accepted, bytes written, `CloseWrite` done. */
  datatype Receiver = Receiver(rx: CipherState, pc: RecvPc, got: seq<Body>, written: Bytes, writeClosed: bool)

  /** What the three goroutines share. */
  datatype Flags = Flags(ctxDone: bool, connClosed: bool, streamClosed: bool, remoteEof: bool)

  datatype Endpoint = Endpoint(snd: Sender, rcv: Receiver, bpc: BridgePc, fl: Flags)

  const NORMAL_CLOSE := Close(CODE_NORMAL, [])
  /** "target is unreachable" */
  const REFUSAL := Close(CODE_TARGET_UNREACHABLE,
    [0x74, 0x61, 0x72, 0x67, 0x65, 0x74, 0x20, 0x69, 0x73, 0x20, 0x75, 0x6e, 0x72, 0x65, 0x61, 0x63, 0x68, 0x61, 0x62,
      0x6c, 0x65])

  const NO_FLAGS := Flags(false, false, false, false)

  /** An endpoint that has just called `Bridge`. */
  function NewEndpoint(t: Transport): Endpoint {
    Endpoint(Sender(t.send, Reading, false, [], false, [], 0, []), Receiver(t.recv, Receiving, [], [], false), Running,
      NO_FLAGS)
  }

  /** An agent whose target could not be opened: it sends one refusal and never starts `Bridge`. */
  function NewRefusal(t: Transport): Endpoint {
    Endpoint(Sender(t.send, Encrypting(REFUSAL, ThenReturn), true, [], false, [], 0, []),
             Receiver(t.recv, RecvDone(NotStarted), [], [], false), BridgeDone, NO_FLAGS)
  }

  function DataFrames(chunks: seq<Bytes>): (fs: seq<Body>)
    ensures |fs| == |chunks| && forall i :: 0 <= i < |fs| ==> fs[i] == Data(chunks[i])
  {
    seq(|chunks|, i requires 0 <= i < |chunks| => Data(chunks[i]))
  }

  function Closing(refused: bool, tail: nat): (fs: seq<Body>)
    ensures |fs| <= 2
  {
    if tail == 0 then [] else if refused then [REFUSAL] else if tail == 1 then [HalfClose]
      else [HalfClose, NORMAL_CLOSE]
  }

  /** Every frame encrypted so far, in order. */
  function Frames(s: Sender): (fs: seq<Body>)
    ensures forall i :: 0 <= i < |fs| && fs[i].Close? ==> fs[i].code >= 0
  {
    DataFrames(s.chunks) + Closing(s.refused, s.tail)
  }

  datatype Event =
    | ReadTcp(bytes: Bytes, status: ReadStatus) | Encrypt | SendOk | SendFail | RemoteSignal | ContextSignal
    | Receive(ct: Ciphertext) | ReceiveEnd(clean: bool) | WriteOk | WriteFail(count: nat) | CloseWrite | Signal | Check
    | BridgeStep | Cancel

  predicate SenderEvent(ev: Event) {
    ev.ReadTcp? || ev.Encrypt? || ev.SendOk? || ev.SendFail? || ev.RemoteSignal? || ev.ContextSignal?
  }

  /** Where `sendLoop` goes after a read: send what was read first, then look at the error. */
  function AfterRead(b: Bytes, status: ReadStatus): SendPc {
    if b != [] then Encrypting(Data(b),
      match status case More => ReadAgain case AtEof => ThenHalfClose case ReadFailed => ThenFail)
    else match status case More => Reading case AtEof => Encrypting(HalfClose, ThenWait)
      case ReadFailed => SendDone(TcpRead)
  }

  function AfterSent(after: After): SendPc {
    match after
    case ReadAgain => Reading
    case ThenHalfClose => Encrypting(HalfClose, ThenWait)
    case ThenFail => SendDone(TcpRead)
    case ThenWait => Waiting
    case ThenReturn => SendDone(Nil)
  }

  /** `conn.Read` returned. Once the connection is closed locally it can only fail. */
  function SenderRead(s: Sender, fl: Flags, b: Bytes, status: ReadStatus): Option<Sender> {
    if !s.pc.Reading? || |b| > CHUNK_SIZE || (fl.connClosed && !(b == [] && status.ReadFailed?)) then None else
    Some(s.(input := s.input + b, eof := status.AtEof?, pc := AfterRead(b, status)))
  }

  function SenderEncrypt(s: Sender): Option<Sender> {
    if !s.pc.Encrypting? || (s.pc.frame.Close? && s.pc.frame.code < 0) then None else
    var (ct, tx) := Seal(s.tx, Marshal(s.pc.frame));
    Some(if s.pc.frame.Data?
         then s.(tx := tx, pc := Sending(ct, s.pc.after), chunks := s.chunks + [s.pc.frame.data])
         else s.(tx := tx, pc := Sending(ct, s.pc.after), tail := s.tail + 1))
  }

  function SenderSent(s: Sender, fl: Flags): Option<Sender> {
    if !s.pc.Sending? || fl.streamClosed then None else
    Some(s.(sent := s.sent + [s.pc.ct], pc := AfterSent(s.pc.after)))
  }

  function SenderStep(s: Sender, fl: Flags, ev: Event): Option<Sender> {
    match ev
    case ReadTcp(b, status) => SenderRead(s, fl, b, status)
    case Encrypt => SenderEncrypt(s)
    case SendOk => SenderSent(s, fl)
    case SendFail => if s.pc.Sending? then Some(s.(pc := SendDone(StreamBroken))) else None
    case RemoteSignal =>
      if s.pc.Waiting? && fl.remoteEof then Some(s.(pc := Encrypting(NORMAL_CLOSE, ThenReturn))) else None
    case ContextSignal => if s.pc.Waiting? && fl.ctxDone then Some(s.(pc := SendDone(ContextError))) else None
    case _ => None
  }

  function AfterBody(body: Body): RecvPc {
    match body
    case Data(d) => if d == [] then Receiving else Writing(d)
    case HalfClose => HalfClosing
    case Close(code, _) => Signalling(Some(if code == CODE_NORMAL then Nil else RemoteClosed))
  }

  /** `RecvCiphertext`, `Decrypt` and `Unmarshal`. */
  function ReceiverTake(r: Receiver, ct: Ciphertext): Option<Receiver> {
    if !r.pc.Receiving? then None else
    var o := Open(r.rx, ct);
    if o.None? then Some(r.(pc := RecvDone(BadCiphertext))) else
    var m := Unmarshal(o.value.0);
    if m.None? || m.value.None? then Some(r.(rx := o.value.1, pc := RecvDone(BadFrame)))
    else Some(r.(rx := o.value.1, got := r.got + [m.value.value], pc := AfterBody(m.value.value)))
  }

  function ReceiverStep(r: Receiver, fl: Flags, ev: Event): Option<Receiver> {
    match ev
    case Receive(ct) => ReceiverTake(r, ct)
    case ReceiveEnd(clean) =>
      if r.pc.Receiving? then Some(r.(pc := RecvDone(if clean then StreamEof else StreamBroken))) else None
    case WriteOk => if r.pc.Writing? && !fl.connClosed then Some(r.(written := r.written + r.pc.data, pc := Checking))
      else None
    case WriteFail(n) =>
      if r.pc.Writing? && n <= |r.pc.data| && (fl.connClosed ==> n == 0)
      then Some(r.(written := r.written + r.pc.data[..n], pc := RecvDone(TcpWrite))) else None
    case CloseWrite =>
      if r.pc.HalfClosing? then Some(r.(writeClosed := r.writeClosed || !fl.connClosed, pc := Signalling(None)))
        else None
    case Signal =>
      if r.pc.Signalling? then Some(r.(pc := if r.pc.result.None? then Checking else RecvDone(r.pc.result.value)))
        else None
    case Check => if r.pc.Checking? then Some(r.(pc := if fl.ctxDone then RecvDone(ContextError) else Receiving))
      else None
    case _ => None
  }

  function BridgeNext(e: Endpoint): Option<Endpoint> {
    match e.bpc
    case Running => if e.snd.pc.SendDone? || e.rcv.pc.RecvDone? then Some(e.(bpc := CancelContext)) else None
    case CancelContext => Some(e.(bpc := CloseConn, fl := e.fl.(ctxDone := true)))
    case CloseConn => Some(e.(bpc := CloseStream, fl := e.fl.(connClosed := true)))
    case CloseStream => Some(e.(bpc := WaitSecond, fl := e.fl.(streamClosed := true)))
    case WaitSecond => if e.snd.pc.SendDone? && e.rcv.pc.RecvDone? then Some(e.(bpc := BridgeDone)) else None
    case BridgeDone => None
  }

  /** The endpoint after an event, or `None` when the event cannot happen. */
  function Step(e: Endpoint, ev: Event): Option<Endpoint> {
    if SenderEvent(ev) then
      var s := SenderStep(e.snd, e.fl, ev);
      if s.None? then None else Some(e.(snd := s.value))
    else if ev.BridgeStep? then BridgeNext(e)
    else if ev.Cancel? then Some(e.(fl := e.fl.(ctxDone := true)))
    else
      var r := ReceiverStep(e.rcv, e.fl, ev);
      if r.None? then None
      else Some(e.(rcv := r.value, fl := if ev.Signal? then e.fl.(remoteEof := true) else e.fl))
  }

  // ---- What every sender keeps, whatever its peer and its stream do ----

  function Pending(pc: SendPc): Bytes {
    if pc.Encrypting? && pc.frame.Data? then pc.frame.data else []
  }

  /** How many closing frames a sender that runs `sendLoop` has encrypted at each point. */
  predicate TailAt(s: Sender, remoteEof: bool) {
    match s.pc
    case Reading => s.tail == 0 && !s.eof
    case Encrypting(f, a) => (
      match a
      case ReadAgain => s.tail == 0 && f.Data? && f.data != [] && !s.eof
      case ThenHalfClose => s.tail == 0 && f.Data? && f.data != [] && s.eof
      case ThenFail => s.tail == 0 && f.Data? && f.data != [] && !s.eof
      case ThenWait => s.tail == 0 && f == HalfClose && s.eof
      case ThenReturn => s.tail == 1 && f == NORMAL_CLOSE && s.eof && remoteEof)
    case Sending(_, a) => (
      match a
      case ReadAgain => s.tail == 0 && !s.eof
      case ThenHalfClose => s.tail == 0 && s.eof
      case ThenFail => s.tail == 0 && !s.eof
      case ThenWait => s.tail == 1 && s.eof
      case ThenReturn => s.tail == 2 && s.eof && remoteEof)
    case Waiting => s.tail == 1 && s.eof
    case SendDone(_) => s.tail <= 2 && (s.tail > 0 ==> s.eof) && (s.tail == 2 ==> remoteEof)
  }

  predicate RefusalAt(s: Sender) {
    && s.chunks == [] && s.input == [] && !s.eof && s.tail <= 1
    && (s.pc == Encrypting(REFUSAL, ThenReturn) || (s.pc.Sending? && s.pc.after == ThenReturn) || s.pc.SendDone?)
    && (s.tail == 0 <==> s.pc.Encrypting?)
  }

  predicate SenderOk(s: Sender, remoteEof: bool) {
    && s.tx.n == |s.chunks| + s.tail
    && (if s.refused then RefusalAt(s) else TailAt(s, remoteEof))
    && Concat(s.chunks) + Pending(s.pc) == s.input
    && (forall i :: 0 <= i < |s.chunks| ==> 0 < |s.chunks[i]| <= CHUNK_SIZE)
    && |Pending(s.pc)| <= CHUNK_SIZE
  }

  lemma SenderReadOk(s: Sender, fl: Flags, b: Bytes, status: ReadStatus)
    requires SenderOk(s, fl.remoteEof) && SenderRead(s, fl, b, status).Some?
    ensures SenderOk(SenderRead(s, fl, b, status).value, fl.remoteEof)
  {
    hide Concat;
  }

  lemma SenderEncryptOk(s: Sender, remoteEof: bool)
    requires SenderOk(s, remoteEof) && SenderEncrypt(s).Some?
    ensures SenderOk(SenderEncrypt(s).value, remoteEof)
  {
    hide Concat, Marshal;
    if s.pc.frame.Data? { ConcatAppend(s.chunks, s.pc.frame.data); }
  }

  lemma SenderStepOk(s: Sender, fl: Flags, ev: Event)
    requires SenderOk(s, fl.remoteEof) && SenderStep(s, fl, ev).Some?
    ensures SenderOk(SenderStep(s, fl, ev).value, fl.remoteEof)
  {
    hide Concat, SenderRead, SenderEncrypt;
    match ev
    case ReadTcp(b, status) => SenderReadOk(s, fl, b, status);
    case Encrypt => SenderEncryptOk(s, fl.remoteEof);
    case _ =>
  }

  // ---- What every receiver keeps ----

  /** The data carried by accepted frames. */
  function Payload(fs: seq<Body>): Bytes {
    if fs == [] then [] else
    var last := fs[|fs| - 1];
    Payload(fs[..|fs| - 1]) + (if last.Data? then last.data else [])
  }

  predicate Ends(fs: seq<Body>) {
    exists i :: 0 <= i < |fs| && !fs[i].Data?
  }

  /** Everything accepted is written, except what is being written or the rest of a failed write. */
  predicate WrittenAt(r: Receiver) {
    match r.pc
    case Writing(d) => |r.got| > 0 && r.got[|r.got| - 1] == Data(d) && r.written + d == Payload(r.got)
    case RecvDone(err) =>
      if err == TcpWrite then |r.got| > 0 && r.got[|r.got| - 1].Data? && r.written <= Payload(r.got)
        else r.written == Payload(r.got)
    case _ => r.written == Payload(r.got)
  }

  predicate NormalClose(r: Receiver) {
    r.pc == Signalling(Some(Nil)) || r.pc == RecvDone(Nil)
  }

  ghost predicate ReceiverOk(r: Receiver, remoteEof: bool) {
    && (r.pc != RecvDone(BadFrame) ==> r.rx.n == |r.got|)
    && WrittenAt(r)
    && (r.writeClosed || r.pc.HalfClosing? || r.pc == Signalling(None) ==> HalfClose in r.got)
    && (remoteEof || r.pc.Signalling? ==> Ends(r.got))
    && (r.pc.Signalling? ==> r.pc.result in {None, Some(Nil), Some(RemoteClosed)})
    && (NormalClose(r) ==> |r.got| > 0 && r.got[|r.got| - 1].Close? && r.got[|r.got| - 1].code == CODE_NORMAL)
    && (r.pc == Signalling(Some(RemoteClosed)) ==>
      |r.got| > 0 && r.got[|r.got| - 1].Close? && r.got[|r.got| - 1].code != CODE_NORMAL)
    && (r.pc == RecvDone(NotStarted) ==> r.got == [])
  }

  lemma PayloadAppend(fs: seq<Body>, f: Body)
    ensures Payload(fs + [f]) == Payload(fs) + (if f.Data? then f.data else [])
  {
    assert (fs + [f])[..|fs|] == fs;
  }

  /** Accepting one more frame body. */
  lemma AcceptOk(r: Receiver, body: Body, remoteEof: bool)
    requires ReceiverOk(r, remoteEof) && r.pc.Receiving?
    ensures ReceiverOk(r.(rx := r.rx.(n := r.rx.n + 1), got := r.got + [body], pc := AfterBody(body)), remoteEof)
  {
    hide Payload;
    PayloadAppend(r.got, body);
    var got := r.got + [body];
    assert forall i :: 0 <= i < |r.got| ==> got[i] == r.got[i];
    assert got[|r.got|] == body;
    assert HalfClose in r.got ==> HalfClose in got;
    assert Ends(r.got) ==> Ends(got);
  }

  lemma ReceiverTakeOk(r: Receiver, ct: Ciphertext, remoteEof: bool)
    requires ReceiverOk(r, remoteEof) && ReceiverTake(r, ct).Some?
    ensures ReceiverOk(ReceiverTake(r, ct).value, remoteEof)
  {
    hide Unmarshal, Payload;
    var o := Open(r.rx, ct);
    if o.Some? {
      var m := Unmarshal(o.value.0);
      if m.Some? && m.value.Some? { AcceptOk(r, m.value.value, remoteEof); }
    }
  }

  lemma ReceiverStepOk(r: Receiver, fl: Flags, ev: Event)
    requires ReceiverOk(r, fl.remoteEof) && ReceiverStep(r, fl, ev).Some?
    ensures ReceiverOk(ReceiverStep(r, fl, ev).value, fl.remoteEof || ev.Signal?)
  {
    hide ReceiverTake, Payload;
    if ev.Receive? { hide ReceiverOk; ReceiverTakeOk(r, ev.ct, fl.remoteEof); }
  }

  // ---- Endpoints ----

  ghost predicate EndpointOk(e: Endpoint) {
    && SenderOk(e.snd, e.fl.remoteEof)
    && ReceiverOk(e.rcv, e.fl.remoteEof)
    && (e.snd.refused <==> e.rcv.pc == RecvDone(NotStarted))
  }

  lemma MoreEof(s: Sender)
    requires SenderOk(s, false)
    ensures SenderOk(s, true)
  {
    hide Concat;
  }

  lemma StartedStays(r: Receiver, fl: Flags, ev: Event)
    requires ReceiverOk(r, fl.remoteEof) && ReceiverStep(r, fl, ev).Some?
    ensures r.pc != RecvDone(NotStarted) && ReceiverStep(r, fl, ev).value.pc != RecvDone(NotStarted)
  {
    hide Unmarshal, Payload;
  }

  lemma SenderKeeps(s: Sender, fl: Flags, ev: Event)
    requires SenderStep(s, fl, ev).Some?
    ensures var t := SenderStep(s, fl, ev).value; t.refused == s.refused && t.tx.key == s.tx.key
  {
    hide Marshal;
  }

  lemma ReceiverKeeps(r: Receiver, fl: Flags, ev: Event)
    requires ReceiverStep(r, fl, ev).Some?
    ensures ReceiverStep(r, fl, ev).value.rx.key == r.rx.key
  {
    hide Unmarshal;
  }

  /** Every event keeps an endpoint's own invariant, and its keys. */
  lemma StepOk(e: Endpoint, ev: Event)
    requires EndpointOk(e) && Step(e, ev).Some?
    ensures var f := Step(e, ev).value; EndpointOk(f) && f.snd.tx.key == e.snd.tx.key && f.rcv.rx.key == e.rcv.rx.key
  {
    hide SenderOk, ReceiverOk, SenderStep, ReceiverStep;
    if SenderEvent(ev) {
      SenderStepOk(e.snd, e.fl, ev);
      SenderKeeps(e.snd, e.fl, ev);
    } else if !ev.BridgeStep? && !ev.Cancel? {
      ReceiverStepOk(e.rcv, e.fl, ev);
      StartedStays(e.rcv, e.fl, ev);
      ReceiverKeeps(e.rcv, e.fl, ev);
      if !e.fl.remoteEof { MoreEof(e.snd); }
    }
  }

  lemma NewOk(t: Transport)
    requires t.send.n == 0 && t.recv.n == 0
    ensures EndpointOk(NewEndpoint(t)) && EndpointOk(NewRefusal(t))
  {
  }

  // ---- What the peer can conclude from the frames it accepted ----

  lemma DataSendable(d: Bytes)
    requires |d| <= CHUNK_SIZE
    ensures Sendable(Data(d))
  {
  }

  lemma FramesSendable(s: Sender, remoteEof: bool, i: nat)
    requires SenderOk(s, remoteEof) && i < |Frames(s)|
    ensures Sendable(Frames(s)[i])
  {
    hide Concat, Sendable, TailAt, RefusalAt;
    if i < |s.chunks| {
      assert Frames(s)[i] == Data(s.chunks[i]);
      DataSendable(s.chunks[i]);
    } else {
      ClosingSendable();
    }
  }

  lemma ClosingSendable()
    ensures Sendable(HalfClose) && Sendable(NORMAL_CLOSE) && Sendable(REFUSAL)
  {
    AsciiUtf8(REFUSAL.message);
    assert Wire.Utf8([]);
    RefusalSize();
  }

  lemma {:induction false} AsciiUtf8(b: Bytes)
    requires forall i :: 0 <= i < |b| ==> b[i] < 0x80
    ensures Wire.Utf8(b)
  {
    if b != [] { AsciiUtf8(b[1..]); }
  }

  lemma RefusalSize()
    ensures |Wire.Serialize(CloseFields(CODE_TARGET_UNREACHABLE, REFUSAL.message))| < 100
    ensures |Wire.Serialize(CloseFields(CODE_NORMAL, []))| < 100
  {
    var f1, f2 := Wire.VarintField(1, 2), Wire.BytesField(2, REFUSAL.message);
    var fs := CloseFields(CODE_TARGET_UNREACHABLE, REFUSAL.message);
    assert fs == [f1, f2] && fs[1..] == [f2] && [f2][1..] == [];
    assert Wire.Serialize([]) == [];
    assert Wire.Serialize([f2]) == Wire.FieldBytes(f2) + Wire.Serialize([]);
    assert Wire.Serialize(fs) == Wire.FieldBytes(f1) + Wire.Serialize([f2]);
    var g := CloseFields(CODE_NORMAL, []);
    assert g == [Wire.VarintField(1, 1)] && g[1..] == [];
  }

  lemma {:induction false} DataPayload(chunks: seq<Bytes>)
    ensures Payload(DataFrames(chunks)) == Concat(chunks)
  {
    if chunks != [] {
      var most := chunks[..|chunks| - 1];
      DataPayload(most);
      assert DataFrames(chunks)[..|chunks| - 1] == DataFrames(most);
    }
  }

  lemma {:induction false} PayloadPrefix(fs: seq<Body>, gs: seq<Body>)
    requires fs <= gs
    ensures Payload(fs) <= Payload(gs)
    decreases |gs|
  {
    if |fs| < |gs| { PayloadPrefix(fs, gs[..|gs| - 1]); } else { assert fs == gs; }
  }

  /** Closing frames carry no data. */
  lemma ClosingPayload(d: seq<Body>, refused: bool, tail: nat)
    ensures Payload(d + Closing(refused, tail)) == Payload(d)
  {
    var c := Closing(refused, tail);
    if |c| == 1 {
      PayloadAppend(d, c[0]);
      assert d + c == d + [c[0]];
    } else if |c| == 2 {
      PayloadAppend(d, c[0]);
      PayloadAppend(d + [c[0]], c[1]);
      assert d + c == d + [c[0]] + [c[1]];
    } else {
      assert d + c == d;
    }
  }

  /** The data of a sender's frames is what it has read, up to the chunk it is about to encrypt. */
  lemma FramesPayload(s: Sender, remoteEof: bool)
    requires SenderOk(s, remoteEof)
    ensures Payload(Frames(s)) == Concat(s.chunks) <= s.input
    ensures s.tail > 0 && !s.refused ==> Payload(Frames(s)) == s.input && s.eof
  {
    hide Concat, Payload;
    DataPayload(s.chunks);
    ClosingPayload(DataFrames(s.chunks), s.refused, s.tail);
  }

  // ---- Nonces and frames stay in step ----

  /** The ciphertext of the `i`-th encrypted frame. */
  function SealedFrame(s: Sender, i: nat): Ciphertext
    requires i < |Frames(s)|
  {
    Sealed(s.tx.key, i, Marshal(Frames(s)[i]))
  }

  /** The `i`-th ciphertext sent carries nonce `i` and frame `i`; at most the newest one is still unsent. */
  ghost predicate SentOk(s: Sender) {
    && |s.sent| <= |Frames(s)|
    && (forall i :: 0 <= i < |s.sent| ==> s.sent[i] == SealedFrame(s, i))
    && (!s.pc.SendDone? ==> |Frames(s)| == |s.sent| + (if s.pc.Sending? then 1 else 0))
    && (s.pc.Sending? ==> s.pc.ct == SealedFrame(s, |s.sent|))
    && (s.pc == SendDone(Nil) ==> |Frames(s)| == |s.sent|)
  }

  lemma EncryptFrames(s: Sender, remoteEof: bool)
    requires SenderOk(s, remoteEof) && SenderEncrypt(s).Some?
    ensures Frames(SenderEncrypt(s).value) == Frames(s) + [s.pc.frame]
    ensures |Frames(s)| == s.tx.n
  {
    hide Concat, Marshal;
    var t := SenderEncrypt(s).value;
    if s.pc.frame.Data? {
      assert DataFrames(t.chunks) == DataFrames(s.chunks) + [s.pc.frame];
      assert Closing(s.refused, 0) == [];
    } else {
      assert Closing(s.refused, s.tail + 1) == Closing(s.refused, s.tail) + [s.pc.frame];
    }
  }

  lemma EncryptSentOk(s: Sender, remoteEof: bool)
    requires SenderOk(s, remoteEof) && SentOk(s) && SenderEncrypt(s).Some?
    ensures SentOk(SenderEncrypt(s).value)
  {
    hide Frames, Marshal, SenderOk;
    EncryptFrames(s, remoteEof);
    var t := SenderEncrypt(s).value;
    assert forall i :: 0 <= i < |Frames(s)| ==> Frames(t)[i] == Frames(s)[i];
  }

  lemma SentStepOk(s: Sender, fl: Flags, ev: Event)
    requires SenderOk(s, fl.remoteEof) && SentOk(s) && SenderStep(s, fl, ev).Some?
    ensures SentOk(SenderStep(s, fl, ev).value)
    ensures Frames(s) <= Frames(SenderStep(s, fl, ev).value)
    ensures !ev.Encrypt? ==> Frames(s) == Frames(SenderStep(s, fl, ev).value)
  {
    hide SenderEncrypt, Marshal, SenderOk;
    if ev.Encrypt? {
      EncryptSentOk(s, fl.remoteEof);
      EncryptFrames(s, fl.remoteEof);
    } else {
      OtherFrames(s, fl, ev);
    }
  }

  lemma OtherFrames(s: Sender, fl: Flags, ev: Event)
    requires SenderStep(s, fl, ev).Some? && !ev.Encrypt?
    ensures Frames(s) == Frames(SenderStep(s, fl, ev).value)
  {
    hide DataFrames, Closing;
  }
}
