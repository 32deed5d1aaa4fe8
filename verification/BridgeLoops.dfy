/**
 `Transport`, `Initiator`, `sendLoop` and `recvLoop` as the program writes them: objects updated in
 place and loops that block on the connection, the stream and channels. What the blocking calls return,
 with the shared flags at that moment, is a script; each loop is proved to do, for every possible
 script, exactly what the transition functions of `Bridge` say.
 */
module BridgeLoops {
  import opened Base
  import opened Noise
  import opened PlainFrames
  import opened Bridge

  /** `tunnelcrypto.Transport`. */
  class Cipher {
    var send: CipherState
    var recv: CipherState

    constructor (t: Transport)
      ensures send == t.send && recv == t.recv
    {
      send, recv := t.send, t.recv;
    }

    method Encrypt(plain: Bytes) returns (ct: Ciphertext)
      modifies this`send
      ensures (ct, send) == Seal(old(send), plain)
    {
      ct := Sealed(send.key, send.n, plain);
      send := send.(n := send.n + 1);
    }

    /** A ciphertext that does not open leaves the nonce where it was. */
    method Decrypt(ct: Ciphertext) returns (plain: Option<Bytes>)
      modifies this`recv
      ensures plain.Some? <==> Open(old(recv), ct).Some?
      ensures plain.Some? ==> (plain.value, recv) == Open(old(recv), ct).value
      ensures plain.None? ==> recv == old(recv)
    {
      if !(ct.Sealed? && ct.key == recv.key && ct.n == recv.n) { return None; }
      recv := recv.(n := recv.n + 1);
      plain := Some(ct.plain);
    }
  }

  /** `tunnelcrypto.Initiator`: the handshake can be finished once. */
  class Initiator {
    var hs: Option<Handshake>

    constructor (psk: Bytes, routeId: Bytes, sessionId: Bytes, ephemeral: nat)
      ensures hs == Some(StartInitiator(psk, routeId, sessionId, ephemeral).1)
    {
      hs := Some(NewHandshake(psk, routeId, sessionId, ephemeral));
    }

    method FinishWith(hello: Hello) returns (t: Option<Transport>)
      modifies this`hs
      ensures old(hs).None? ==> t.None? && hs == old(hs)
      ensures old(hs).Some? ==> t == Finish(old(hs).value, hello) && hs == (if t.Some? then None else old(hs))
    {
      if hs.None? { return None; }
      t := Finish(hs.value, hello);
      if t.Some? { hs := None; }
    }
  }

  /** `net.Conn`, as far as `recvLoop` changes it. */
  class Conn {
    var written: Bytes
    var writeClosed: bool

    constructor ()
      ensures written == [] && !writeClosed
    {
      written, writeClosed := [], false;
    }

    /** `Write` accepted `count` bytes of `data`; fewer than all of them is an error. */
    method Write(data: Bytes, count: nat)
      requires count <= |data|
      modifies this`written
      ensures written == old(written) + data[..count]
    {
      written := written + data[..count];
    }
  }

  /** The `remoteEOF` channel: closing it twice would panic. */
  class Latch {
    var closed: bool

    constructor ()
      ensures !closed
    {
      closed := false;
    }

    method Close()
      requires !closed
      modifies this
      ensures closed
    {
      closed := true;
    }
  }

  type Script = seq<(Flags, Event)>

  function RunSender(s: Sender, script: Script): Option<Sender> {
    if script == [] then Some(s) else
    var t := RunSender(s, script[..|script| - 1]);
    if t.None? then None else SenderStep(t.value, script[|script| - 1].0, script[|script| - 1].1)
  }

  function RunReceiver(r: Receiver, script: Script): Option<Receiver> {
    if script == [] then Some(r) else
    var t := RunReceiver(r, script[..|script| - 1]);
    if t.None? then None else ReceiverStep(t.value, script[|script| - 1].0, script[|script| - 1].1)
  }

  lemma {:induction false} SenderPrefix(s: Sender, script: Script, i: nat)
    requires i <= |script| && RunSender(s, script).Some?
    ensures RunSender(s, script[..i]).Some?
    ensures i < |script| ==>
      RunSender(s, script[..i + 1]) == SenderStep(RunSender(s, script[..i]).value, script[i].0, script[i].1)
    decreases |script|
  {
    hide SenderStep;
    if i == |script| {
      assert script[..i] == script;
    } else {
      var n := |script| - 1;
      if i < n {
        SenderPrefix(s, script[..n], i);
        assert script[..n][..i] == script[..i] && script[..n][..i + 1] == script[..i + 1];
      } else {
        assert script[..i + 1] == script;
      }
    }
  }

  lemma {:induction false} ReceiverPrefix(r: Receiver, script: Script, i: nat)
    requires i <= |script| && RunReceiver(r, script).Some?
    ensures RunReceiver(r, script[..i]).Some?
    ensures i < |script| ==>
      RunReceiver(r, script[..i + 1]) == ReceiverStep(RunReceiver(r, script[..i]).value, script[i].0, script[i].1)
    decreases |script|
  {
    hide ReceiverStep;
    if i == |script| {
      assert script[..i] == script;
    } else {
      var n := |script| - 1;
      if i < n {
        ReceiverPrefix(r, script[..n], i);
        assert script[..n][..i] == script[..i] && script[..n][..i + 1] == script[..i + 1];
      } else {
        assert script[..i + 1] == script;
      }
    }
  }

  function NewSender(tx: CipherState): Sender {
    Sender(tx, Reading, false, [], false, [], 0, [])
  }

  function NewReceiver(rx: CipherState): Receiver {
    Receiver(rx, Receiving, [], [], false)
  }

  /** A script for a whole call of `sendLoop`. */
  ghost predicate SendScript(tx: CipherState, script: Script) {
    RunSender(NewSender(tx), script).Some? && RunSender(NewSender(tx), script).value.pc.SendDone?
  }

  /** The state `sendLoop` is in after `i` entries of its script. */
  ghost function At(tx: CipherState, script: Script, i: nat): (s: Sender)
    requires SendScript(tx, script) && i <= |script|
  {
    SenderPrefix(NewSender(tx), script, i);
    RunSender(NewSender(tx), script[..i]).value
  }

  lemma AtNext(tx: CipherState, script: Script, i: nat)
    requires SendScript(tx, script) && i <= |script|
    ensures i == 0 ==> At(tx, script, i) == NewSender(tx)
    ensures !At(tx, script, i).pc.SendDone? ==> i < |script|
    ensures i < |script| ==> SenderStep(At(tx, script, i), script[i].0, script[i].1) == Some(At(tx, script, i + 1))
    ensures At(tx, script, |script|).pc.SendDone?
  {
    hide SenderStep;
    SenderPrefix(NewSender(tx), script, i);
    if i < |script| { SenderPrefix(NewSender(tx), script, i + 1); }
    assert script[..|script|] == script;
  }

  lemma AtDone(tx: CipherState, script: Script, i: nat)
    requires SendScript(tx, script) && i <= |script| && At(tx, script, i).pc.SendDone?
    ensures i == |script|
  {
    AtNext(tx, script, i);
  }

  lemma PlainSteps(s: Sender, one: (Flags, Event), t: Sender, two: (Flags, Event), u: Sender)
    requires s.pc.Encrypting? && SenderStep(s, one.0, one.1) == Some(t) && SenderStep(t, two.0, two.1) == Some(u)
    ensures s.pc.frame.Close? ==> s.pc.frame.code >= 0
    ensures var (ct, tx) := Seal(s.tx, Marshal(s.pc.frame)); var ok := two.1.SendOk?;
      && u.tx == tx && u.sent == (if ok then s.sent + [ct] else s.sent)
      && u.pc == (if ok then AfterSent(s.pc.after) else SendDone(StreamBroken))
  {
    hide Marshal, AfterSent;
  }

  lemma ReadStep(s: Sender, one: (Flags, Event), t: Sender)
    requires s.pc.Reading? && SenderStep(s, one.0, one.1) == Some(t)
    ensures one.1.ReadTcp? && t.tx == s.tx && t.sent == s.sent && t.pc == AfterRead(one.1.bytes, one.1.status)
  {
    hide AfterRead;
  }

  lemma WaitStep(s: Sender, one: (Flags, Event), t: Sender)
    requires s.pc.Waiting? && SenderStep(s, one.0, one.1) == Some(t)
    ensures t.tx == s.tx && t.sent == s.sent
    ensures t.pc == (if one.1.ContextSignal? then SendDone(ContextError) else Encrypting(NORMAL_CLOSE, ThenReturn))
  {
  }

  /** From encrypting a frame, two entries of the script on. */
  lemma PlainTrace(tx: CipherState, script: Script, i: nat)
    requires SendScript(tx, script) && i <= |script| && At(tx, script, i).pc.Encrypting?
    ensures i + 2 <= |script|
    ensures var s, u := At(tx, script, i), At(tx, script, i + 2);
      var ok := script[i + 1].1.SendOk?;
      && (s.pc.frame.Close? ==> s.pc.frame.code >= 0)
      && var (ct, tx') := Seal(s.tx, Marshal(s.pc.frame));
      && u.tx == tx' && u.sent == (if ok then s.sent + [ct] else s.sent)
      && u.pc == (if ok then AfterSent(s.pc.after) else SendDone(StreamBroken))
  {
    hide SenderStep, At, SendScript, Marshal, AfterSent;
    AtNext(tx, script, i);
    EncryptsNext(At(tx, script, i), script[i]);
    AtNext(tx, script, i + 1);
    PlainSteps(At(tx, script, i), script[i], At(tx, script, i + 1), script[i + 1], At(tx, script, i + 2));
  }

  lemma EncryptsNext(s: Sender, one: (Flags, Event))
    requires s.pc.Encrypting? && SenderStep(s, one.0, one.1).Some?
    ensures !SenderStep(s, one.0, one.1).value.pc.SendDone?
  {
    hide Marshal;
  }

  /** The object and the machine agree after `i` entries of the script. */
  ghost predicate InStep(crypt: Cipher, out: seq<Ciphertext>, tx: CipherState, script: Script, i: nat, pc: SendPc)
    reads crypt
  {
    && SendScript(tx, script) && i <= |script|
    && At(tx, script, i).pc == pc && At(tx, script, i).tx == crypt.send && At(tx, script, i).sent == out
  }

  /** `sendPlain`: marshal, encrypt, send. `out` is what has been handed to the stream. */
  method SendPlain(crypt: Cipher, frame: Body, out: seq<Ciphertext>, ghost after: After, ghost tx: CipherState,
    script: Script, i: nat)
    returns (ok: bool, out': seq<Ciphertext>)
    requires InStep(crypt, out, tx, script, i, Encrypting(frame, after)) && (frame.Close? ==> frame.code >= 0)
    modifies crypt`send
    ensures i + 2 <= |script|
    ensures InStep(crypt, out', tx, script, i + 2, if ok then AfterSent(after) else SendDone(StreamBroken))
  {
    hide At, SendScript, Marshal, AfterSent;
    PlainTrace(tx, script, i);
    var ct := crypt.Encrypt(Marshal(frame));
    ok := script[i + 1].1.SendOk?;
    out' := if ok then out + [ct] else out;
  }

  lemma FinalSender(tx: CipherState, script: Script, i: nat)
    requires SendScript(tx, script) && i <= |script| && At(tx, script, i).pc.SendDone?
    ensures RunSender(NewSender(tx), script).value == At(tx, script, i)
  {
    AtDone(tx, script, i);
    assert script[..i] == script;
  }

  /** The part of `sendLoop` after end of file: half-close, wait for the other direction, close. */
  method FinishSending(crypt: Cipher, script: Script, out: seq<Ciphertext>, ghost tx: CipherState, from: nat)
    returns (err: LoopError, out': seq<Ciphertext>)
    requires InStep(crypt, out, tx, script, from, Encrypting(HalfClose, ThenWait))
    modifies crypt`send
    ensures InStep(crypt, out', tx, script, |script|, SendDone(err))
  {
    hide SenderStep, At, SendScript;
    var i := from;
    var ok;
    ok, out' := SendPlain(crypt, HalfClose, out, ThenWait, tx, script, i);
    i := i + 2;
    if !ok { AtDone(tx, script, i); return StreamBroken, out'; }
    AtNext(tx, script, i);
    WaitStep(At(tx, script, i), script[i], At(tx, script, i + 1));
    if script[i].1.ContextSignal? { AtDone(tx, script, i + 1); return ContextError, out'; }
    i := i + 1;
    ok, out' := SendPlain(crypt, NORMAL_CLOSE, out', ThenReturn, tx, script, i);
    AtDone(tx, script, i + 2);
    err := if ok then Nil else StreamBroken;
  }

  /** One turn of `sendLoop` up to the end of the first `if`: read, and send what was read. */
  method ReadAndSend(crypt: Cipher, script: Script, out: seq<Ciphertext>, ghost tx: CipherState, i: nat)
    returns (ok: bool, status: ReadStatus, out': seq<Ciphertext>, j: nat)
    requires InStep(crypt, out, tx, script, i, Reading)
    modifies crypt`send
    ensures i < j
    ensures InStep(crypt, out', tx, script, j, if ok then AfterRead([], status) else SendDone(StreamBroken))
  {
    hide SenderStep, At, SendScript;
    AtNext(tx, script, i);
    ReadStep(At(tx, script, i), script[i], At(tx, script, i + 1));
    var b := script[i].1.bytes;
    status := script[i].1.status;
    ok, out', j := true, out, i + 1;
    if |b| > 0 {
      ok, out' := SendPlain(crypt, Data(b), out, AfterRead(b, status).after, tx, script, j);
      j := j + 2;
    }
  }

  /** `sendLoop`: for every script the error returned, the nonce reached and the ciphertexts sent are the machine's. */
  method SendLoop(crypt: Cipher, script: Script) returns (err: LoopError, out: seq<Ciphertext>)
    requires SendScript(crypt.send, script)
    modifies crypt`send
    ensures var end := RunSender(NewSender(old(crypt.send)), script).value;
      end.pc == SendDone(err) && end.tx == crypt.send && end.sent == out
  {
    ghost var tx := crypt.send;
    var i := 0;
    out := [];
    AtNext(tx, script, 0);
    FinalSender(tx, script, |script|) by { AtNext(tx, script, |script|); }
    hide At, SendScript;
    while true
      invariant InStep(crypt, out, tx, script, i, Reading)
      decreases |script| - i
    {
      var ok, status;
      ok, status, out, i := ReadAndSend(crypt, script, out, tx, i);
      if !ok { AtDone(tx, script, i); return StreamBroken, out; }
      if !status.More? {
        if status.ReadFailed? { AtDone(tx, script, i); return TcpRead, out; }
        err, out := FinishSending(crypt, script, out, tx, i);
        return;
      }
    }
  }

  // ---- recvLoop ----

  /** A script for a whole call of `recvLoop`. */
  ghost predicate RecvScript(rx: CipherState, script: Script) {
    RunReceiver(NewReceiver(rx), script).Some? && RunReceiver(NewReceiver(rx), script).value.pc.RecvDone?
  }

  /** The state `recvLoop` is in after `i` entries of its script. */
  ghost function RecvAt(rx: CipherState, script: Script, i: nat): (r: Receiver)
    requires RecvScript(rx, script) && i <= |script|
  {
    ReceiverPrefix(NewReceiver(rx), script, i);
    RunReceiver(NewReceiver(rx), script[..i]).value
  }

  lemma RecvAtNext(rx: CipherState, script: Script, i: nat)
    requires RecvScript(rx, script) && i <= |script|
    ensures i == 0 ==> RecvAt(rx, script, i) == NewReceiver(rx)
    ensures !RecvAt(rx, script, i).pc.RecvDone? ==> i < |script|
    ensures i < |script| ==>
      ReceiverStep(RecvAt(rx, script, i), script[i].0, script[i].1) == Some(RecvAt(rx, script, i + 1))
    ensures RecvAt(rx, script, |script|).pc.RecvDone?
  {
    hide ReceiverStep;
    ReceiverPrefix(NewReceiver(rx), script, i);
    if i < |script| { ReceiverPrefix(NewReceiver(rx), script, i + 1); }
    assert script[..|script|] == script;
  }

  /** A finished `recvLoop` has used its whole script. */
  lemma RecvAtDone(rx: CipherState, script: Script, i: nat)
    requires RecvScript(rx, script) && i <= |script| && RecvAt(rx, script, i).pc.RecvDone?
    ensures i == |script| && RunReceiver(NewReceiver(rx), script).value == RecvAt(rx, script, i)
  {
    RecvAtNext(rx, script, i);
    hide Unmarshal;
    assert script[..|script|] == script;
  }

  /** Whether the first `i` entries of a script close `remoteEOF`. */
  function Signalled(script: Script, i: nat): bool
    requires i <= |script|
  {
    i > 0 && (script[i - 1].1.Signal? || Signalled(script, i - 1))
  }

  lemma TakeStep(r: Receiver, one: (Flags, Event), r': Receiver)
    requires r.pc.Receiving? && ReceiverStep(r, one.0, one.1) == Some(r')
    ensures one.1.Receive? || one.1.ReceiveEnd?
    ensures r'.written == r.written && r'.writeClosed == r.writeClosed
    ensures one.1.ReceiveEnd? ==> r'.rx == r.rx && r'.pc == RecvDone(if one.1.clean then StreamEof else StreamBroken)
    ensures one.1.Receive? && Open(r.rx, one.1.ct).None? ==> r'.rx == r.rx && r'.pc == RecvDone(BadCiphertext)
    ensures one.1.Receive? && Open(r.rx, one.1.ct).Some? ==>
      var o := Open(r.rx, one.1.ct).value; var m := Unmarshal(o.0);
      r'.rx == o.1 && r'.pc == if m.None? || m.value.None? then RecvDone(BadFrame) else AfterBody(m.value.value)
  {
    hide Unmarshal, AfterBody;
  }

  lemma WriteStep(r: Receiver, one: (Flags, Event), r': Receiver)
    requires r.pc.Writing? && ReceiverStep(r, one.0, one.1) == Some(r')
    ensures one.1.WriteOk? || (one.1.WriteFail? && one.1.count <= |r.pc.data|)
    ensures r'.rx == r.rx && r'.writeClosed == r.writeClosed
    ensures one.1.WriteOk? ==> r'.written == r.written + r.pc.data && r'.pc == Checking
    ensures one.1.WriteFail? ==> r'.written == r.written + r.pc.data[..one.1.count] && r'.pc == RecvDone(TcpWrite)
  {
  }

  lemma ClosingSteps(r: Receiver, one: (Flags, Event), r': Receiver)
    requires !r.pc.Receiving? && !r.pc.Writing? && ReceiverStep(r, one.0, one.1) == Some(r')
    ensures r'.rx == r.rx && r'.written == r.written
    ensures r.pc.HalfClosing? ==>
      !one.1.Signal? && r'.writeClosed == (r.writeClosed || !one.0.connClosed) && r'.pc == Signalling(None)
    ensures !r.pc.HalfClosing? ==> r'.writeClosed == r.writeClosed
    ensures r.pc.Signalling? ==>
      one.1.Signal? && r'.pc == (if r.pc.result.None? then Checking else RecvDone(r.pc.result.value))
    ensures r.pc.Checking? ==> !one.1.Signal? && r'.pc == if one.0.ctxDone then RecvDone(ContextError) else Receiving
  {
  }

  /** The objects and the machine agree after `i` entries of the script. */
  ghost predicate RecvInStep(crypt: Cipher, conn: Conn, eof: Latch, rx: CipherState, script: Script, i: nat, pc: RecvPc)
    reads crypt, conn, eof
  {
    && RecvScript(rx, script) && i <= |script|
    && var r := RecvAt(rx, script, i);
    && r.pc == pc && r.rx == crypt.recv && r.written == conn.written && r.writeClosed == conn.writeClosed
    && eof.closed == Signalled(script, i)
  }

  /** `once.Do(func() { close(remoteEOF) })`, `sync.Once` being `done`. */
  method CloseOnce(crypt: Cipher, conn: Conn, eof: Latch, done: bool, result: Option<LoopError>, ghost rx: CipherState,
    script: Script, i: nat)
    requires RecvInStep(crypt, conn, eof, rx, script, i, Signalling(result)) && done == eof.closed
    modifies eof
    ensures i < |script| && eof.closed
    ensures RecvInStep(crypt, conn, eof, rx, script, i + 1, if result.None? then Checking else RecvDone(result.value))
  {
    RecvAtNext(rx, script, i);
    hide ReceiverStep, RecvAt, RecvScript;
    ClosingSteps(RecvAt(rx, script, i), script[i], RecvAt(rx, script, i + 1));
    if !done { eof.Close(); }
  }

  /** `conn.Write` of one data frame. */
  method WriteData(crypt: Cipher, conn: Conn, eof: Latch, data: Bytes, ghost rx: CipherState, script: Script, i: nat)
    returns (ok: bool)
    requires RecvInStep(crypt, conn, eof, rx, script, i, Writing(data))
    modifies conn`written
    ensures i < |script|
    ensures RecvInStep(crypt, conn, eof, rx, script, i + 1, if ok then Checking else RecvDone(TcpWrite))
  {
    RecvAtNext(rx, script, i);
    hide ReceiverStep, RecvAt, RecvScript;
    WriteStep(RecvAt(rx, script, i), script[i], RecvAt(rx, script, i + 1));
    ok := script[i].1.WriteOk?;
    conn.Write(data, if ok then |data| else script[i].1.count);
    assert data[..|data|] == data;
  }

  /** `CloseWrite`, whose failure on a closed connection is ignored. */
  method HalfCloseConn(crypt: Cipher, conn: Conn, eof: Latch, ghost rx: CipherState, script: Script, i: nat)
    requires RecvInStep(crypt, conn, eof, rx, script, i, HalfClosing)
    modifies conn`writeClosed
    ensures i < |script|
    ensures RecvInStep(crypt, conn, eof, rx, script, i + 1, Signalling(None))
  {
    RecvAtNext(rx, script, i);
    hide ReceiverStep, RecvAt, RecvScript;
    ClosingSteps(RecvAt(rx, script, i), script[i], RecvAt(rx, script, i + 1));
    if !script[i].0.connClosed { conn.writeClosed := true; }
  }

  /** Receive, decrypt and unmarshal one frame. */
  method TakeFrame(crypt: Cipher, conn: Conn, eof: Latch, ghost rx: CipherState, script: Script, i: nat)
    returns (err: LoopError, body: Option<Body>)
    requires RecvInStep(crypt, conn, eof, rx, script, i, Receiving)
    modifies crypt`recv
    ensures i < |script|
    ensures RecvInStep(crypt, conn, eof, rx, script, i + 1, if body.Some? then AfterBody(body.value) else RecvDone(err))
  {
    RecvAtNext(rx, script, i);
    hide ReceiverStep, RecvAt, RecvScript, Unmarshal, AfterBody;
    TakeStep(RecvAt(rx, script, i), script[i], RecvAt(rx, script, i + 1));
    if script[i].1.ReceiveEnd? { return if script[i].1.clean then StreamEof else StreamBroken, None; }
    var plain := crypt.Decrypt(script[i].1.ct);
    if plain.None? { return BadCiphertext, None; }
    var frame := Unmarshal(plain.value);
    if frame.None? { return BadFrame, None; }
    err, body := BadFrame, frame.value;
  }

  /** What the `switch` leads to: an error, the next frame at once after empty data, or the check of the context. */
  function AfterSwitch(err: Option<LoopError>, again: bool): RecvPc {
    if err.Some? then RecvDone(err.value) else if again then Receiving else Checking
  }

  /** The `switch` on a frame's body. */
  method Dispatch(crypt: Cipher, conn: Conn, eof: Latch, done: bool, body: Body, ghost rx: CipherState, script: Script,
    i: nat)
    returns (err: Option<LoopError>, again: bool, done': bool, j: nat)
    requires RecvInStep(crypt, conn, eof, rx, script, i, AfterBody(body)) && done == eof.closed
    modifies conn, eof
    ensures i <= j && done' == eof.closed
    ensures RecvInStep(crypt, conn, eof, rx, script, j, AfterSwitch(err, again))
  {
    hide RecvAt, RecvScript;
    err, again, done', j := None, false, done, i;
    match body
    case Data(d) =>
      if d == [] { again := true; return; }
      var ok := WriteData(crypt, conn, eof, d, rx, script, j);
      j := j + 1;
      err := if ok then None else Some(TcpWrite);
    case HalfClose =>
      HalfCloseConn(crypt, conn, eof, rx, script, j);
      CloseOnce(crypt, conn, eof, done, None, rx, script, j + 1);
      done', j := true, j + 2;
    case Close(code, _) =>
      err := Some(if code == CODE_NORMAL then Nil else RemoteClosed);
      CloseOnce(crypt, conn, eof, done, err, rx, script, j);
      done', j := true, j + 1;
  }

  /** The `select` on the context at the end of a turn. */
  method CheckContext(crypt: Cipher, conn: Conn, eof: Latch, ghost rx: CipherState, script: Script,
    i: nat) returns (cancelled: bool)
    requires RecvInStep(crypt, conn, eof, rx, script, i, Checking)
    ensures i < |script|
    ensures RecvInStep(crypt, conn, eof, rx, script, i + 1, if cancelled then RecvDone(ContextError) else Receiving)
  {
    RecvAtNext(rx, script, i);
    hide ReceiverStep, RecvAt, RecvScript;
    ClosingSteps(RecvAt(rx, script, i), script[i], RecvAt(rx, script, i + 1));
    cancelled := script[i].0.ctxDone;
  }

  /** At the end the whole script has been used. */
  lemma Finished(crypt: Cipher, conn: Conn, eof: Latch, rx: CipherState, script: Script, i: nat, err: LoopError)
    requires RecvInStep(crypt, conn, eof, rx, script, i, RecvDone(err))
    ensures RecvScript(rx, script) && eof.closed == Signalled(script, |script|)
    ensures var end := RunReceiver(NewReceiver(rx), script).value;
      end.pc == RecvDone(err) && end.rx == crypt.recv && end.written == conn.written
        && end.writeClosed == conn.writeClosed
  {
    RecvAtDone(rx, script, i);
  }

  lemma RecvStart(crypt: Cipher, conn: Conn, eof: Latch, script: Script)
    requires RecvScript(crypt.recv, script) && conn.written == [] && !conn.writeClosed && !eof.closed
    ensures RecvInStep(crypt, conn, eof, crypt.recv, script, 0, Receiving)
  {
    RecvAtNext(crypt.recv, script, 0);
  }

  /**
   `recvLoop`: for every script the error returned, the nonce reached, the bytes written, the half-close
   and the closing of `remoteEOF` are the machine's, and `remoteEOF` is never closed twice.
   */
  method RecvLoop(crypt: Cipher, conn: Conn, eof: Latch, script: Script) returns (err: LoopError)
    requires RecvScript(crypt.recv, script) && conn.written == [] && !conn.writeClosed && !eof.closed
    modifies crypt`recv, conn, eof
    ensures var end := RunReceiver(NewReceiver(old(crypt.recv)), script).value;
      end.pc == RecvDone(err) && end.rx == crypt.recv && end.written == conn.written
        && end.writeClosed == conn.writeClosed
    ensures eof.closed == Signalled(script, |script|)
  {
    ghost var rx := crypt.recv;
    var i, once := 0, false;
    RecvStart(crypt, conn, eof, script);
    hide RecvInStep, RecvScript, RunReceiver, Signalled, AfterBody;
    while true
      invariant RecvInStep(crypt, conn, eof, rx, script, i, Receiving) && once == eof.closed
      decreases |script| - i
    {
      var body;
      err, body := TakeFrame(crypt, conn, eof, rx, script, i);
      i := i + 1;
      if body.None? { Finished(crypt, conn, eof, rx, script, i, err); return; }
      var failed, again;
      failed, again, once, i := Dispatch(crypt, conn, eof, once, body.value, rx, script, i);
      if failed.Some? { Finished(crypt, conn, eof, rx, script, i, failed.value); return failed.value; }
      if again { continue; }
      var cancelled := CheckContext(crypt, conn, eof, rx, script, i);
      i := i + 1;
      if cancelled { Finished(crypt, conn, eof, rx, script, i, ContextError); return ContextError; }
    }
  }
}
