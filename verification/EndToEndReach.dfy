/** What the relay can bring about: whom it can join, and what becomes of each message it delivers or replays. */
module EndToEndReach {
  import opened Base
  import opened Noise
  import opened PlainFrames
  import opened Bridge
  import opened EndToEnd

  /**
   Any ciphertext an end has sent can be delivered to any end that receives, at any time. It is accepted if
   and only if the two are joined and it is the next one; a replayed, reordered or misdirected one ends the
   receiver and changes nothing that was written.
   */
  lemma SentCanArrive(s: System, p: nat, q: nat, i: nat)
    requires Reachable(s) && p in s.parties && q in s.parties && i < |s.parties[p].end.snd.sent|
    requires s.parties[q].end.rcv.pc.Receiving?
    ensures var ct := s.parties[p].end.snd.sent[i];
      && Next(s, Act(q, Receive(ct))).Some? && q in Next(s, Act(q, Receive(ct))).value.parties
      && var was, now := s.parties[q].end, Next(s, Act(q, Receive(ct))).value.parties[q].end;
      && now.snd == was.snd && now.rcv.written == was.rcv.written && now.rcv.writeClosed == was.rcv.writeClosed
      && i < |Frames(s.parties[p].end.snd)|
      && (if Joined(s.parties[p], s.parties[q]) && i == |was.rcv.got|
          then now.rcv.got == was.rcv.got + [Frames(s.parties[p].end.snd)[i]] && now.rcv.pc != RecvDone(BadCiphertext)
          else now.rcv.got == was.rcv.got && now.rcv.pc == RecvDone(BadCiphertext))
  {
    hide Reachable, Parties, Delivery, HellosOk, EndpointOk, SentOk, KeysOk, Frames, ReceiverTake, Emitted;
    ReachableOk(s);
    PartyFacts(s, p);
    PartyFacts(s, q);
    var a, b := s.parties[p].end, s.parties[q].end;
    SentEmitted(a, i);
    var ct := a.snd.sent[i];
    assert CiphertextPossible(s, ct);
    Taken(a, b, ct);
  }

  lemma SentEmitted(e: Endpoint, i: nat)
    requires EndpointOk(e) && SentOk(e.snd) && i < |e.snd.sent|
    ensures i < |Frames(e.snd)| && Emitted(e, e.snd.sent[i]) && e.snd.sent[i].n == i
  {
    hide Marshal, ReceiverOk;
  }

  /** What becomes of an emitted ciphertext at a receiver. */
  lemma Taken(e: Endpoint, f: Endpoint, ct: Ciphertext)
    requires EndpointOk(e) && Emitted(e, ct) && EndpointOk(f) && f.rcv.pc.Receiving?
    ensures var r := f.rcv; var t := ReceiverTake(r, ct);
      && t.Some? && t.value.written == r.written && t.value.writeClosed == r.writeClosed
      && (if e.snd.tx.key == r.rx.key && ct.n == |r.got|
          then t.value.got == r.got + [Frames(e.snd)[ct.n]] && t.value.pc != RecvDone(BadCiphertext)
          else t.value.got == r.got && t.value.pc == RecvDone(BadCiphertext))
  {
    hide Frames, Marshal, Unmarshal, SenderOk;
    FramesSendable(e.snd, e.fl.remoteEof, ct.n);
    FrameRoundTrip(Frames(e.snd)[ct.n]);
  }

  /**
   A hello that was ever made can be shown to any agent, any number of times: it is answered if and only if
   it is a client's, made with the agent's key, route and session.
   */
  lemma HelloCanArrive(s: System, id: nat, psk: Bytes, route: Bytes, session: Bytes, hello: Hello, refuse: bool)
    requires hello in s.hellos && id !in s.used && psk in s.secrets && |route| == 16 && |session| == 16
    ensures Next(s, Answer(id, psk, route, session, hello, refuse)).Some?
      <==> hello.ClientHello? && hello.psk == psk && hello.prologue == Prologue(route, session)
  {
    hide Prologue;
  }

  /** Likewise a waiting client completes with a hello if and only if an agent made it as an answer to this client. */
  lemma AnswerCanArrive(s: System, id: nat, hello: Hello)
    requires Reachable(s) && id in s.waiting && hello in s.hellos
    ensures id in s.params
    ensures Next(s, Complete(id, hello)).Some? <==>
      && hello.AgentHello? && hello.psk == s.waiting[id].psk && hello.client == id
      && hello.prologue == Prologue(s.params[id].0, s.params[id].1)
  {
    hide Reachable, Delivery, HellosOk, Prologue;
    ReachableOk(s);
    assert WaitingOk(s, id);
  }

  /** In every state a new client and a new agent with one secret key, route and session can be joined. */
  lemma CanBeJoined(s: System, c: nat, a: nat, psk: Bytes, route: Bytes, session: Bytes, refuse: bool)
    returns (t: System)
    requires c !in s.used && a !in s.used && c != a && psk in s.secrets && |route| == 16 && |session| == 16
    ensures var acts := [Start(c, psk, route, session),
                Answer(a, psk, route, session, ClientHello(psk, Prologue(route, session), c), refuse),
                Complete(c, AgentHello(psk, Prologue(route, session), c, a))];
      Run(s, acts) == Some(t)
    ensures c in t.parties && a in t.parties && Joined(t.parties[c], t.parties[a]) && Joined(t.parties[a], t.parties[c])
    ensures t.parties[c].client && !t.parties[a].client && t.parties[a].end.snd.refused == refuse
  {
    hide Prologue;
    var hello, reply := ClientHello(psk, Prologue(route, session), c), AgentHello(psk, Prologue(route, session), c, a);
    var x, y, z := Start(c, psk, route, session), Answer(a, psk, route, session, hello, refuse), Complete(c, reply);
    var one := Next(s, x).value;
    var two := Next(one, y).value;
    t := Next(two, z).value;
    hide Next;
    ThreeSteps(s, x, one, y, two, z, t);
  }

  lemma ThreeSteps(s: System, x: Action, one: System, y: Action, two: System, z: Action, three: System)
    requires Next(s, x) == Some(one) && Next(one, y) == Some(two) && Next(two, z) == Some(three)
    ensures Run(s, [x, y, z]) == Some(three)
  {
    hide Next;
    assert Run(s, []) == Some(s);
    assert [x][..0] == [] && [x, y][..1] == [x] && [x, y, z][..2] == [x, y];
    assert Run(s, [x]) == Some(one);
    assert Run(s, [x, y]) == Some(two);
  }
}
