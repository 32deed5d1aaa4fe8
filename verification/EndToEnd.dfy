/**
 Any number of clients and agents joined by a relay that may drop, duplicate, reorder, invent and mix
 messages of all sessions. It cannot make hellos or ciphertexts under a pre-shared key it does not
 hold; it can replay every one that was ever made.
 */
module EndToEnd {
  import opened Base
  import opened Noise
  import opened PlainFrames
  import opened Bridge

  /** An endpoint past its handshake, with the parameters it used. */
  datatype Party = Party(end: Endpoint, client: bool, psk: Bytes, route: Bytes, session: Bytes)

  datatype System = System(
    secrets: set<Bytes>,               // pre-shared keys the relay does not hold
    used: set<nat>,                    // ephemeral keys generated so far
    hellos: set<Hello>,                // hellos made so far
    waiting: map<nat, Handshake>,      // clients that sent a hello and wait for the agent's
    params: map<nat, (Bytes, Bytes)>,  // the route and session of each waiting client
    parties: map<nat, Party>)

  function Initial(secrets: set<Bytes>): System {
    System(secrets, {}, {}, map[], map[], map[])
  }

  datatype Action =
    | Start(id: nat, psk: Bytes, route: Bytes, session: Bytes)
    | Answer(id: nat, psk: Bytes, route: Bytes, session: Bytes, hello: Hello, refuse: bool)
    | Complete(id: nat, hello: Hello)
    | Act(id: nat, ev: Event)

  predicate HelloPossible(s: System, h: Hello) {
    h in s.hellos || h.OtherHello? || h.psk !in s.secrets
  }

  /** `ct` is one of the frames this sender has encrypted. */
  predicate Emitted(e: Endpoint, ct: Ciphertext) {
    ct.Sealed? && ct.key == e.snd.tx.key && ct.n < |Frames(e.snd)| && ct == SealedFrame(e.snd, ct.n)
  }

  predicate CiphertextPossible(s: System, ct: Ciphertext) {
    || ct.OtherCiphertext? || ct.key.psk !in s.secrets
    || exists p :: p in s.parties && Emitted(s.parties[p].end, ct)
  }

  /**
   Honest ends hold a secret key, a 16-byte route (checked in the code) and a 16-byte session (checked on receipt).
   */
  predicate Honest(s: System, psk: Bytes, route: Bytes, session: Bytes) {
    psk in s.secrets && |route| == ID_SIZE && |session| == ID_SIZE
  }

  function DoStart(s: System, id: nat, psk: Bytes, route: Bytes, session: Bytes): Option<System> {
    if id in s.used || !Honest(s, psk, route, session) then None else
    var (hello, hs) := StartInitiator(psk, route, session, id);
    Some(s.(used := s.used + {id}, hellos := s.hellos + {hello}, waiting := s.waiting[id := hs],
      params := s.params[id := (route, session)]))
  }

  function DoAnswer(s: System, id: nat, psk: Bytes, route: Bytes, session: Bytes, hello: Hello,
    refuse: bool): Option<System> {
    if id in s.used || !Honest(s, psk, route, session) || !HelloPossible(s, hello) then None else
    var r := Respond(psk, route, session, hello, id);
    if r.None? then None else
    var (reply, t) := r.value;
    Some(s.(used := s.used + {id}, hellos := s.hellos + {reply},
            parties := s.parties[id := Party(if refuse then NewRefusal(t) else NewEndpoint(t), false, psk, route,
              session)]))
  }

  function DoComplete(s: System, id: nat, hello: Hello): Option<System> {
    if id !in s.waiting || id !in s.params || !HelloPossible(s, hello) then None else
    var t := Finish(s.waiting[id], hello);
    if t.None? then None else
    Some(s.(waiting := s.waiting - {id}, params := s.params - {id},
            parties := s.parties[id := Party(NewEndpoint(t.value), true, s.waiting[id].psk, s.params[id].0,
              s.params[id].1)]))
  }

  function DoAct(s: System, id: nat, ev: Event): Option<System> {
    if id !in s.parties || (ev.Receive? && !CiphertextPossible(s, ev.ct)) then None else
    var e := Step(s.parties[id].end, ev);
    if e.None? then None else Some(s.(parties := s.parties[id := s.parties[id].(end := e.value)]))
  }

  function Next(s: System, a: Action): Option<System> {
    match a
    case Start(id, psk, route, session) => DoStart(s, id, psk, route, session)
    case Answer(id, psk, route, session, hello, refuse) => DoAnswer(s, id, psk, route, session, hello, refuse)
    case Complete(id, hello) => DoComplete(s, id, hello)
    case Act(id, ev) => DoAct(s, id, ev)
  }

  function Run(s: System, acts: seq<Action>): Option<System> {
    if acts == [] then Some(s) else
    var t := Run(s, acts[..|acts| - 1]);
    if t.None? then None else Next(t.value, acts[|acts| - 1])
  }

  ghost predicate Reachable(s: System) {
    exists secrets, acts :: Run(Initial(secrets), acts) == Some(s)
  }

  // ---- The invariant ----

  /** Each end's keys name its own ephemeral key, so no two ends send under one key. */
  predicate KeysOk(id: nat, p: Party) {
    var pro := Prologue(p.route, p.session);
    var s, r := p.end.snd.tx.key, p.end.rcv.rx.key;
    if p.client then s == ToAgentKey(p.psk, pro, id, s.agent) && r == ToClientKey(p.psk, pro, id, s.agent)
    else s == ToClientKey(p.psk, pro, s.client, id) && r == ToAgentKey(p.psk, pro, s.client, id)
  }

  ghost predicate PartyOk(s: System, id: nat, p: Party) {
    && id in s.used && id !in s.waiting && Honest(s, p.psk, p.route, p.session)
    && EndpointOk(p.end) && SentOk(p.end.snd) && KeysOk(id, p)
    && p.end.rcv.pc != RecvDone(BadFrame)
  }

  predicate Joined(p: Party, q: Party) {
    p.end.snd.tx.key == q.end.rcv.rx.key
  }

  /** What `q` accepted is a prefix of what its peer encrypted. */
  ghost predicate Faithful(p: Party, q: Party) {
    Joined(p, q) ==> q.end.rcv.got <= Frames(p.end.snd)
  }

  ghost predicate HasPeer(s: System, q: Party) {
    exists p :: p in s.parties && Joined(s.parties[p], q)
  }

  predicate WaitingOk(s: System, id: nat) {
    && id in s.waiting && id in s.used && id in s.params
    && s.waiting[id] == NewHandshake(s.waiting[id].psk, s.params[id].0, s.params[id].1, id)
    && Honest(s, s.waiting[id].psk, s.params[id].0, s.params[id].1)
  }

  ghost predicate Parties(s: System) {
    && (forall id :: id in s.parties ==> PartyOk(s, id, s.parties[id]))
    && (forall id :: id in s.waiting ==> WaitingOk(s, id))
  }

  ghost predicate Delivery(s: System) {
    && (forall p, q :: p in s.parties && q in s.parties ==> Faithful(s.parties[p], s.parties[q]))
    && (forall q :: q in s.parties && s.parties[q].end.rcv.got != [] ==> HasPeer(s, s.parties[q]))
  }

  /** Every agent hello under a secret key came from an agent that is still there, with the matching keys. */
  ghost predicate HellosOk(s: System) {
    && (forall h :: h in s.hellos && h.AgentHello? ==>
          && h.agent in s.parties && !s.parties[h.agent].client
          && s.parties[h.agent].end.snd.tx.key == ToClientKey(h.psk, h.prologue, h.client, h.agent))
    && (forall id :: id in s.parties && s.parties[id].client ==> HasPeer(s, s.parties[id]))
  }

  ghost predicate Inv(s: System) {
    Parties(s) && Delivery(s) && HellosOk(s)
  }

  // ---- Handshake steps ----

  lemma StartParties(s: System, id: nat, psk: Bytes, route: Bytes, session: Bytes)
    requires Parties(s) && DoStart(s, id, psk, route, session).Some?
    ensures Parties(DoStart(s, id, psk, route, session).value)
  {
    hide EndpointOk, SentOk, KeysOk;
    var t := DoStart(s, id, psk, route, session).value;
    forall q | q in t.parties ensures PartyOk(t, q, t.parties[q]) { assert PartyOk(s, q, s.parties[q]); }
    forall q | q in t.waiting ensures WaitingOk(t, q) { if q != id { assert WaitingOk(s, q); } }
  }

  lemma HellosKept(s: System, t: System)
    requires HellosOk(s) && t.parties == s.parties
    requires forall h :: h in t.hellos && h.AgentHello? ==> h in s.hellos
    ensures HellosOk(t)
  {
    hide Joined;
    forall q | q in t.parties && t.parties[q].client ensures HasPeer(t, t.parties[q]) {
      assert HasPeer(s, s.parties[q]);
    }
  }

  lemma StartOk(s: System, id: nat, psk: Bytes, route: Bytes, session: Bytes)
    requires Inv(s) && DoStart(s, id, psk, route, session).Some?
    ensures Inv(DoStart(s, id, psk, route, session).value)
  {
    hide Parties, Delivery, HellosOk;
    var t := DoStart(s, id, psk, route, session).value;
    StartParties(s, id, psk, route, session);
    DeliveryOnlyParties(s, t);
    HellosKept(s, t);
  }

  /** A new party with nothing accepted whose send key no one listens to yet with data. */
  lemma AddPartyDelivery(s: System, id: nat, n: Party)
    requires Delivery(s) && id !in s.parties && n.end.rcv.got == []
    requires forall q :: q in s.parties && Joined(n, s.parties[q]) ==> s.parties[q].end.rcv.got == []
    ensures Delivery(s.(parties := s.parties[id := n]))
  {
    hide Joined, Frames;
    var t := s.(parties := s.parties[id := n]);
    forall q | q in t.parties && t.parties[q].end.rcv.got != [] ensures HasPeer(t, t.parties[q]) {
      assert HasPeer(s, s.parties[q]);
      var p :| p in s.parties && Joined(s.parties[p], s.parties[q]);
      assert p in t.parties && t.parties[p] == s.parties[p];
    }
    forall p, q | p in t.parties && q in t.parties ensures Faithful(t.parties[p], t.parties[q]) {
      if p in s.parties && q in s.parties && p != id && q != id { assert Faithful(s.parties[p], s.parties[q]); }
    }
  }

  /** Nobody else sends under a party's send key. */
  lemma SendKeysDiffer(a: nat, p: Party, b: nat, q: Party)
    requires KeysOk(a, p) && KeysOk(b, q) && a != b
    ensures p.end.snd.tx.key != q.end.snd.tx.key && p.end.rcv.rx.key != q.end.rcv.rx.key
  {
  }

  /** A new party's send key is new, so whoever would listen to it has accepted nothing yet. */
  lemma NothingFromNewParty(s: System, id: nat, n: Party, q: nat)
    requires Parties(s) && Delivery(s) && id !in s.parties && KeysOk(id, n)
    requires q in s.parties && Joined(n, s.parties[q])
    ensures s.parties[q].end.rcv.got == []
  {
    hide EndpointOk, SentOk, Frames;
    if s.parties[q].end.rcv.got != [] {
      assert HasPeer(s, s.parties[q]);
      var p :| p in s.parties && Joined(s.parties[p], s.parties[q]);
      assert PartyOk(s, p, s.parties[p]);
      SendKeysDiffer(p, s.parties[p], id, n);
    }
  }

  lemma AddParty(s: System, t: System, id: nat, n: Party)
    requires Inv(s) && id !in s.parties && PartyOk(t, id, n) && n.end.rcv.got == []
    requires t.secrets == s.secrets && s.used <= t.used && t.parties == s.parties[id := n]
    requires forall i ::
      i in t.waiting ==>
        i in s.waiting && t.waiting[i] == s.waiting[i] && i in t.params
          && (i in s.params ==> t.params[i] == s.params[i])
    ensures Parties(t) && Delivery(t)
  {
    hide EndpointOk, SentOk, KeysOk, Joined, Frames, Delivery, HellosOk;
    forall q | q in t.parties ensures PartyOk(t, q, t.parties[q]) {
      if q != id { assert PartyOk(s, q, s.parties[q]); }
    }
    forall i | i in t.waiting ensures WaitingOk(t, i) { assert WaitingOk(s, i); }
    forall q | q in s.parties && Joined(n, s.parties[q]) ensures s.parties[q].end.rcv.got == [] {
      NothingFromNewParty(s, id, n, q);
    }
    AddPartyDelivery(s, id, n);
    DeliveryOnlyParties(s.(parties := s.parties[id := n]), t);
  }

  lemma DeliveryOnlyParties(s: System, t: System)
    requires Delivery(s) && t.parties == s.parties
    ensures Delivery(t)
  {
    hide Joined, Frames;
    forall q | q in t.parties && t.parties[q].end.rcv.got != [] ensures HasPeer(t, t.parties[q]) {
      assert HasPeer(s, s.parties[q]);
    }
  }

  lemma AddPartyHellos(s: System, t: System, id: nat, n: Party)
    requires HellosOk(s) && id !in s.parties && t.parties == s.parties[id := n]
    requires forall h :: h in t.hellos && h.AgentHello? ==>
      h in s.hellos || (h.agent == id && !n.client && n.end.snd.tx.key == ToClientKey(h.psk, h.prologue, h.client, id))
    requires n.client ==> exists p :: p in s.parties && Joined(s.parties[p], n)
    ensures HellosOk(t)
  {
    hide Joined;
    forall q | q in t.parties && t.parties[q].client ensures HasPeer(t, t.parties[q]) {
      if q != id {
        assert HasPeer(s, s.parties[q]);
        var p :| p in s.parties && Joined(s.parties[p], s.parties[q]);
        assert p in t.parties && t.parties[p] == s.parties[p];
      } else {
        var p :| p in s.parties && Joined(s.parties[p], n);
        assert p in t.parties && t.parties[p] == s.parties[p];
      }
    }
  }

  lemma AnswerOk(s: System, id: nat, psk: Bytes, route: Bytes, session: Bytes, hello: Hello, refuse: bool)
    requires Inv(s) && DoAnswer(s, id, psk, route, session, hello, refuse).Some?
    ensures Inv(DoAnswer(s, id, psk, route, session, hello, refuse).value)
  {
    hide Delivery, HellosOk, EndpointOk, SentOk, Joined;
    var t := DoAnswer(s, id, psk, route, session, hello, refuse).value;
    var tr := Respond(psk, route, session, hello, id).value.1;
    NewOk(tr);
    NewSentOk(tr);
    forall i | i in s.parties ensures i != id { assert PartyOk(s, i, s.parties[i]); }
    forall i | i in s.waiting ensures i != id { assert WaitingOk(s, i); }
    AddParty(s, t, id, t.parties[id]);
    AddPartyHellos(s, t, id, t.parties[id]);
  }

  lemma NewSentOk(t: Transport)
    ensures SentOk(NewEndpoint(t).snd) && SentOk(NewRefusal(t).snd)
  {
  }

  /** A client that completes its handshake under a secret key has a real agent at the other end. */
  lemma CompleteOk(s: System, id: nat, hello: Hello)
    requires Inv(s) && DoComplete(s, id, hello).Some?
    ensures Inv(DoComplete(s, id, hello).value)
  {
    hide Delivery, EndpointOk, SentOk, Frames;
    var t := DoComplete(s, id, hello).value;
    assert WaitingOk(s, id);
    var tr := Finish(s.waiting[id], hello).value;
    NewOk(tr);
    NewSentOk(tr);
    forall i | i in s.parties ensures i != id { assert PartyOk(s, i, s.parties[i]); }
    var n := t.parties[id];
    assert hello in s.hellos;
    assert PartyOk(s, hello.agent, s.parties[hello.agent]);
    assert Joined(s.parties[hello.agent], n);
    hide HellosOk;
    AddParty(s, t, id, n);
    AddPartyHellos(s, t, id, n);
  }

  // ---- Steps of one endpoint ----

  /** Replacing a party's endpoint by one with the same keys and at least the same frames. */
  lemma ReplaceDelivery(s: System, id: nat, e: Endpoint)
    requires Delivery(s) && id in s.parties
    requires var o := s.parties[id].end;
      e.snd.tx.key == o.snd.tx.key && e.rcv.rx.key == o.rcv.rx.key && Frames(o.snd) <= Frames(e.snd)
    requires forall p ::
      p in s.parties && Joined(s.parties[p], s.parties[id]) ==> e.rcv.got <= Frames(s.parties[p].end.snd)
    requires e.rcv.got != [] ==> HasPeer(s, s.parties[id])
    requires s.parties[id].end.snd.tx.key != s.parties[id].end.rcv.rx.key
    ensures Delivery(s.(parties := s.parties[id := s.parties[id].(end := e)]))
  {
    hide Frames;
    var t := s.(parties := s.parties[id := s.parties[id].(end := e)]);
    forall p, q | p in t.parties && q in t.parties ensures Faithful(t.parties[p], t.parties[q]) {
      assert Faithful(s.parties[p], s.parties[q]);
    }
    forall q | q in t.parties && t.parties[q].end.rcv.got != [] ensures HasPeer(t, t.parties[q]) {
      assert HasPeer(s, s.parties[q]);
      var p :| p in s.parties && Joined(s.parties[p], s.parties[q]);
      assert p in t.parties && Joined(t.parties[p], t.parties[q]);
    }
  }

  lemma ReplaceParties(s: System, id: nat, e: Endpoint)
    requires Parties(s) && id in s.parties
    requires var o := s.parties[id].end; e.snd.tx.key == o.snd.tx.key && e.rcv.rx.key == o.rcv.rx.key
    requires EndpointOk(e) && SentOk(e.snd) && e.rcv.pc != RecvDone(BadFrame)
    ensures Parties(s.(parties := s.parties[id := s.parties[id].(end := e)]))
  {
    hide EndpointOk, SentOk;
    var t := s.(parties := s.parties[id := s.parties[id].(end := e)]);
    forall q | q in t.parties ensures PartyOk(t, q, t.parties[q]) { assert PartyOk(s, q, s.parties[q]); }
    forall q | q in t.waiting ensures WaitingOk(t, q) { assert WaitingOk(s, q); }
  }

  lemma ReplaceHellos(s: System, id: nat, e: Endpoint)
    requires HellosOk(s) && id in s.parties
    requires var o := s.parties[id].end; e.snd.tx.key == o.snd.tx.key && e.rcv.rx.key == o.rcv.rx.key
    ensures HellosOk(s.(parties := s.parties[id := s.parties[id].(end := e)]))
  {
    var t := s.(parties := s.parties[id := s.parties[id].(end := e)]);
    forall q | q in t.parties && t.parties[q].client ensures HasPeer(t, t.parties[q]) {
      assert HasPeer(s, s.parties[q]);
      var p :| p in s.parties && Joined(s.parties[p], s.parties[q]);
      assert p in t.parties && Joined(t.parties[p], t.parties[q]);
    }
  }

  /** Opening an emitted ciphertext yields the peer's next frame, well formed. */
  lemma TakeEmitted(r: Receiver, e: Endpoint, ct: Ciphertext)
    requires SenderOk(e.snd, e.fl.remoteEof) && Emitted(e, ct) && r.got <= Frames(e.snd) && r.rx.n == |r.got|
    requires r.pc.Receiving? && Open(r.rx, ct).Some?
    ensures var r' := ReceiverTake(r, ct).value; r'.pc != RecvDone(BadFrame) && r'.got <= Frames(e.snd)
  {
    hide Frames, Marshal, Unmarshal, SenderOk;
    FramesSendable(e.snd, e.fl.remoteEof, ct.n);
    FrameRoundTrip(Frames(e.snd)[ct.n]);
    assert r.got + [Frames(e.snd)[ct.n]] <= Frames(e.snd);
  }

  lemma TakeFails(r: Receiver, ct: Ciphertext)
    requires r.pc.Receiving? && Open(r.rx, ct).None?
    ensures ReceiverTake(r, ct).value.got == r.got && ReceiverTake(r, ct).value.pc != RecvDone(BadFrame)
  {
  }

  /** A ciphertext that opens was encrypted by the one peer, at exactly the next position. */
  lemma AcceptedFrame(s: System, id: nat, ct: Ciphertext)
    requires Parties(s) && Delivery(s) && id in s.parties && CiphertextPossible(s, ct)
    requires ReceiverTake(s.parties[id].end.rcv, ct).Some?
    ensures var r := s.parties[id].end.rcv; var r' := ReceiverTake(r, ct).value;
      && r'.pc != RecvDone(BadFrame)
      && (r'.got == r.got || (HasPeer(s, s.parties[id]) &&
            forall p :: p in s.parties && Joined(s.parties[p], s.parties[id]) ==>
              r'.got <= Frames(s.parties[p].end.snd)))
  {
    var r := s.parties[id].end.rcv;
    assert r.pc.Receiving?;
    hide Frames, SenderOk, ReceiverTake, Parties, Delivery, KeysOk, SealedFrame;
    PartyFacts(s, id);
    if Open(r.rx, ct).None? {
      TakeFails(r, ct);
    } else {
      EmitterIsPeer(s, id, ct);
      var p :| p in s.parties && Emitted(s.parties[p].end, ct);
      PartyFacts(s, p);
      DeliveryFacts(s, id);
      TakeEmitted(r, s.parties[p].end, ct);
    }
  }

  lemma EmitterIsPeer(s: System, id: nat, ct: Ciphertext)
    requires Parties(s) && id in s.parties && CiphertextPossible(s, ct) && Open(s.parties[id].end.rcv.rx, ct).Some?
    ensures HasPeer(s, s.parties[id])
    ensures exists p :: p in s.parties && Emitted(s.parties[p].end, ct)
    ensures forall p :: p in s.parties && Emitted(s.parties[p].end, ct) ==> Joined(s.parties[p], s.parties[id])
    ensures forall p, q ::
      p in s.parties && q in s.parties && Joined(s.parties[p], s.parties[id]) && Joined(s.parties[q], s.parties[id]) ==>
        p == q
  {
    hide EndpointOk, SentOk, Frames, SealedFrame;
    assert PartyOk(s, id, s.parties[id]);
    var p :| p in s.parties && Emitted(s.parties[p].end, ct);
    assert Joined(s.parties[p], s.parties[id]);
    forall p, q | p in s.parties && q in s.parties && Joined(s.parties[p], s.parties[id])
      && Joined(s.parties[q], s.parties[id]) ensures p == q {
      assert PartyOk(s, p, s.parties[p]) && PartyOk(s, q, s.parties[q]);
      if q != p { SendKeysDiffer(p, s.parties[p], q, s.parties[q]); }
    }
  }

  lemma ActOk(s: System, id: nat, ev: Event)
    requires Inv(s) && DoAct(s, id, ev).Some?
    ensures Inv(DoAct(s, id, ev).value)
  {
    hide EndpointOk, SentOk, Frames, Parties, Delivery, HellosOk, SenderStep;
    var o := s.parties[id].end;
    var e := Step(o, ev).value;
    PartyFacts(s, id);
    StepOk(o, ev);
    StepFrames(o, ev);
    if ev.Receive? { AcceptedFrame(s, id, ev.ct); } else { OtherReceive(o, ev); }
    DeliveryFacts(s, id);
    ReplaceDelivery(s, id, e);
    ReplaceParties(s, id, e);
    ReplaceHellos(s, id, e);
  }

  lemma PartyFacts(s: System, id: nat)
    requires Parties(s) && id in s.parties
    ensures PartyOk(s, id, s.parties[id]) && s.parties[id].end.snd.tx.key != s.parties[id].end.rcv.rx.key
  {
    hide EndpointOk, SentOk;
    assert PartyOk(s, id, s.parties[id]);
  }

  lemma DeliveryFacts(s: System, id: nat)
    requires Delivery(s) && id in s.parties
    ensures forall p ::
      p in s.parties && Joined(s.parties[p], s.parties[id]) ==>
        s.parties[id].end.rcv.got <= Frames(s.parties[p].end.snd)
    ensures s.parties[id].end.rcv.got != [] ==> HasPeer(s, s.parties[id])
  {
    hide Frames;
    forall p | p in s.parties && Joined(s.parties[p], s.parties[id])
      ensures s.parties[id].end.rcv.got <= Frames(s.parties[p].end.snd) {
      assert Faithful(s.parties[p], s.parties[id]);
    }
  }

  lemma StepFrames(o: Endpoint, ev: Event)
    requires EndpointOk(o) && SentOk(o.snd) && Step(o, ev).Some?
    ensures var e := Step(o, ev).value; SentOk(e.snd) && Frames(o.snd) <= Frames(e.snd)
  {
    hide SentOk, Frames, SenderOk, ReceiverOk, SenderStep, ReceiverStep;
    if SenderEvent(ev) { SentStepOk(o.snd, o.fl, ev); }
  }

  lemma OtherReceive(o: Endpoint, ev: Event)
    requires EndpointOk(o) && Step(o, ev).Some? && !ev.Receive? && o.rcv.pc != RecvDone(BadFrame)
    ensures var e := Step(o, ev).value; e.rcv.got == o.rcv.got && e.rcv.pc != RecvDone(BadFrame)
  {
    hide SenderOk, SenderStep, ReceiverTake, Payload;
  }

  // ---- All runs ----

  lemma NextOk(s: System, a: Action)
    requires Inv(s) && Next(s, a).Some?
    ensures Inv(Next(s, a).value)
  {
    hide Inv, DoStart, DoAnswer, DoComplete, DoAct;
    match a
    case Start(id, psk, route, session) => StartOk(s, id, psk, route, session);
    case Answer(id, psk, route, session, hello, refuse) => AnswerOk(s, id, psk, route, session, hello, refuse);
    case Complete(id, hello) => CompleteOk(s, id, hello);
    case Act(id, ev) => ActOk(s, id, ev);
  }

  lemma {:induction false} RunOk(secrets: set<Bytes>, acts: seq<Action>)
    ensures Run(Initial(secrets), acts).Some? ==> Inv(Run(Initial(secrets), acts).value)
  {
    if acts != [] {
      hide Inv, Next;
      RunOk(secrets, acts[..|acts| - 1]);
      var t := Run(Initial(secrets), acts[..|acts| - 1]);
      if t.Some? && Next(t.value, acts[|acts| - 1]).Some? { NextOk(t.value, acts[|acts| - 1]); }
    }
  }

  lemma ReachableOk(s: System)
    requires Reachable(s)
    ensures Inv(s)
  {
    hide Inv, Run;
    var secrets, acts :| Run(Initial(secrets), acts) == Some(s);
    RunOk(secrets, acts);
  }

  // ---- Theorems ----

  /** Two ends that share one direction's key are a client and an agent that agree on everything, in both directions. */
  lemma JoinedMeansAgreement(s: System, p: nat, q: nat)
    requires Reachable(s) && p in s.parties && q in s.parties && Joined(s.parties[p], s.parties[q])
    ensures Joined(s.parties[q], s.parties[p]) && s.parties[p].client == !s.parties[q].client
    ensures s.parties[p].psk == s.parties[q].psk && s.parties[p].route == s.parties[q].route
    ensures s.parties[p].session == s.parties[q].session
    ensures forall o :: o in s.parties && Joined(s.parties[o], s.parties[q]) ==> o == p
  {
    hide Reachable, EndpointOk, SentOk, Delivery, HellosOk;
    ReachableOk(s);
    var a, b := s.parties[p], s.parties[q];
    assert PartyOk(s, p, a) && PartyOk(s, q, b);
    PrologueInjective(a.route, a.session, b.route, b.session);
    forall o | o in s.parties && Joined(s.parties[o], b) ensures o == p {
      assert PartyOk(s, o, s.parties[o]);
      if o != p { SendKeysDiffer(o, s.parties[o], p, a); }
    }
  }

  /**
   End to end, whatever the relay does: the bytes one end writes to its TCP connection are a prefix of
   the bytes the other end read from its own, and the write side is closed only when they are all of
   them, up to end of file.
   */
  lemma BytesArriveInOrder(s: System, p: nat, q: nat)
    requires Reachable(s) && p in s.parties && q in s.parties && Joined(s.parties[p], s.parties[q])
    ensures var a, b := s.parties[p].end, s.parties[q].end;
      && b.rcv.written <= a.snd.input
      && (b.rcv.writeClosed ==> b.rcv.written == a.snd.input && a.snd.eof)
  {
    hide Reachable, Inv, SenderOk, Payload, Frames, SentOk;
    ReachableOk(s);
    DeliveredPrefix(s, p, q);
    var a, b := s.parties[p].end, s.parties[q].end;
    FramesPayload(a.snd, a.fl.remoteEof);
    PayloadPrefix(b.rcv.got, Frames(a.snd));
    if HalfClose in b.rcv.got { HalfCloseIsLastData(a.snd, a.fl.remoteEof, b.rcv.got); }
  }

  lemma DeliveredPrefix(s: System, p: nat, q: nat)
    requires Inv(s) && p in s.parties && q in s.parties && Joined(s.parties[p], s.parties[q])
    ensures EndpointOk(s.parties[p].end) && EndpointOk(s.parties[q].end)
    ensures s.parties[q].end.rcv.got <= Frames(s.parties[p].end.snd)
  {
    hide EndpointOk, SentOk, KeysOk, Frames;
    assert PartyOk(s, p, s.parties[p]) && PartyOk(s, q, s.parties[q]);
    assert Faithful(s.parties[p], s.parties[q]);
  }

  /** Accepted frames that include the half-close carry everything the sender read, and end without data. */
  lemma HalfCloseIsLastData(s: Sender, remoteEof: bool, got: seq<Body>)
    requires SenderOk(s, remoteEof) && got <= Frames(s) && HalfClose in got
    ensures !s.refused && s.eof && Payload(got) == s.input && !got[|got| - 1].Data?
  {
    hide Payload, Concat;
    var i :| 0 <= i < |got| && got[i] == HalfClose;
    assert Frames(s)[i] == HalfClose && i >= |s.chunks|;
    FramesPayload(s, remoteEof);
    var n := |got| - |s.chunks|;
    assert got == DataFrames(s.chunks) + Closing(s.refused, n);
    DataPayload(s.chunks);
    ClosingPayload(DataFrames(s.chunks), s.refused, n);
  }

  /** Nothing is written that no one sent: an end that wrote data has a peer. */
  lemma WrittenHasPeer(s: System, q: nat)
    requires Reachable(s) && q in s.parties && s.parties[q].end.rcv.written != []
    ensures exists p :: p in s.parties && Joined(s.parties[p], s.parties[q])
  {
    hide Reachable, HellosOk, SenderOk, SentOk, Frames, KeysOk;
    ReachableOk(s);
    assert PartyOk(s, q, s.parties[q]);
    if s.parties[q].end.rcv.got == [] { assert Payload([]) == []; }
    assert HasPeer(s, s.parties[q]);
  }

  /** A client that got past its handshake is joined to an agent that answered this very client. */
  lemma ClientHasAgent(s: System, id: nat)
    requires Reachable(s) && id in s.parties && s.parties[id].client
    ensures exists p :: p in s.parties && Joined(s.parties[p], s.parties[id]) && !s.parties[p].client
  {
    hide Reachable, Parties, Delivery, KeysOk;
    ReachableOk(s);
    assert HasPeer(s, s.parties[id]);
    var p :| p in s.parties && Joined(s.parties[p], s.parties[id]);
    JoinedMeansAgreement(s, p, id);
  }

  /** Ends that include a close also include the half-close before it, unless the peer refused. */
  lemma EndsWithHalfClose(s: Sender, remoteEof: bool, got: seq<Body>)
    requires SenderOk(s, remoteEof) && got <= Frames(s) && Ends(got) && !s.refused
    ensures HalfClose in got
  {
    hide Payload, Concat;
    var i :| 0 <= i < |got| && !got[i].Data?;
    assert i >= |s.chunks|;
    assert got[|s.chunks|] == Frames(s)[|s.chunks|] == HalfClose;
  }

  /** A sender that encrypted the normal close had seen both ends of file. */
  lemma NormalCloseSent(s: Sender, remoteEof: bool, got: seq<Body>)
    requires SenderOk(s, remoteEof) && got <= Frames(s) && |got| > 0
    requires var last := got[|got| - 1]; last.Close? && last.code == CODE_NORMAL
    ensures remoteEof && !s.refused
  {
    hide Payload, Concat;
    assert got[|got| - 1] == Frames(s)[|got| - 1];
  }

  /**
   Normal-close agreement: when a `recvLoop` accepts a normal close, both directions are complete:
   each end has written every byte the other read, up to end of file.
   */
  lemma NormalCloseMeansComplete(s: System, p: nat, q: nat)
    requires Reachable(s) && p in s.parties && q in s.parties && Joined(s.parties[p], s.parties[q])
    requires NormalClose(s.parties[q].end.rcv)
    ensures var a, b := s.parties[p].end, s.parties[q].end;
      && b.rcv.written == a.snd.input && a.snd.eof
      && a.rcv.written == b.snd.input && b.snd.eof
  {
    hide Reachable, Inv, SenderOk, Payload, Frames, SentOk;
    ReachableOk(s);
    JoinedMeansAgreement(s, p, q);
    DeliveredPrefix(s, p, q);
    DeliveredPrefix(s, q, p);
    var a, b := s.parties[p].end, s.parties[q].end;
    NormalCloseSent(a.snd, a.fl.remoteEof, b.rcv.got);
    EndsWithHalfClose(a.snd, a.fl.remoteEof, b.rcv.got) by { assert !b.rcv.got[|b.rcv.got| - 1].Data?; }
    HalfCloseIsLastData(a.snd, a.fl.remoteEof, b.rcv.got);
    EndsWithHalfClose(b.snd, b.fl.remoteEof, a.rcv.got);
    HalfCloseIsLastData(b.snd, b.fl.remoteEof, a.rcv.got);
  }

  predicate SameNonce(a: Ciphertext, b: Ciphertext) {
    a.Sealed? && b.Sealed? && a.key == b.key && a.n == b.n
  }

  /** The `i`-th ciphertext an end ever sends carries nonce `i`, under a key no other end sends with. */
  lemma NoncesInLockstep(s: System, p: nat, i: nat)
    requires Reachable(s) && p in s.parties && i < |s.parties[p].end.snd.sent|
    ensures var ct := s.parties[p].end.snd.sent[i];
      && ct.Sealed? && ct.n == i && ct.key == s.parties[p].end.snd.tx.key
      && forall q, j ::
        q in s.parties && 0 <= j < |s.parties[q].end.snd.sent| && SameNonce(s.parties[q].end.snd.sent[j], ct) ==>
          q == p && j == i
  {
    hide Reachable, EndpointOk, Delivery, HellosOk, Frames, Marshal;
    ReachableOk(s);
    assert PartyOk(s, p, s.parties[p]);
    var ct := s.parties[p].end.snd.sent[i];
    forall q, j | q in s.parties && 0 <= j < |s.parties[q].end.snd.sent| && SameNonce(s.parties[q].end.snd.sent[j], ct)
      ensures q == p && j == i {
      assert PartyOk(s, q, s.parties[q]);
      if q != p { SendKeysDiffer(p, s.parties[p], q, s.parties[q]); }
    }
  }

  /** Between ends running this code no accepted plaintext is ever rejected as malformed. */
  lemma FramesAlwaysParse(s: System, q: nat)
    requires Reachable(s) && q in s.parties
    ensures s.parties[q].end.rcv.pc != RecvDone(BadFrame)
  {
    hide Reachable, Delivery, HellosOk;
    ReachableOk(s);
    assert PartyOk(s, q, s.parties[q]);
  }
}
