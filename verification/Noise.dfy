/**
 A symbolic Noise NNpsk0 handshake and its transport ciphers. A hello is the term of everything it
 authenticates; reading one succeeds exactly when the reader's own view of those values agrees
 (sections 5.1 to 5.3 and 9 of the Noise Protocol Framework, revision 34). Nonces do not run out.
 */
module Noise {
  import opened Base
  import Wire

  const LABEL: Bytes := [0x72, 0x65, 0x6c, 0x61, 0x79, 0x63, 0x61, 0x74, 0x2f, 0x76, 0x31]   // "relaycat/v1"
  const ID_SIZE: nat := 16

  /** `prologue`. */
  function Prologue(routeId: Bytes, sessionId: Bytes): Bytes {
    LABEL + routeId + sessionId
  }

  datatype Hello =
    | ClientHello(psk: Bytes, prologue: Bytes, client: nat)
    | AgentHello(psk: Bytes, prologue: Bytes, client: nat, agent: nat)
    | OtherHello(id: nat)

  datatype Key =
    | ToAgentKey(psk: Bytes, prologue: Bytes, client: nat, agent: nat)
    | ToClientKey(psk: Bytes, prologue: Bytes, client: nat, agent: nat)

  datatype CipherState = CipherState(key: Key, n: nat)

  datatype Ciphertext = Sealed(key: Key, n: nat, plain: Bytes) | OtherCiphertext(id: nat)

  /** The keys of one end, in the order (send, receive). */
  datatype Transport = Transport(send: CipherState, recv: CipherState)

  /** `noise.HandshakeState`: `ephemeral` names the key pair this end generated. */
  datatype Handshake = Handshake(psk: Bytes, prologue: Bytes, ephemeral: nat)

  function NewHandshake(psk: Bytes, routeId: Bytes, sessionId: Bytes, ephemeral: nat): Handshake {
    Handshake(psk, Prologue(routeId, sessionId), ephemeral)
  }

  /** The two cipher states a finished handshake yields: initiator to responder, then the reverse. */
  function Split(psk: Bytes, prologue: Bytes, client: nat, agent: nat): (CipherState, CipherState) {
    (CipherState(ToAgentKey(psk, prologue, client, agent), 0),
      CipherState(ToClientKey(psk, prologue, client, agent), 0))
  }

  /** `StartInitiator`. */
  function StartInitiator(psk: Bytes, routeId: Bytes, sessionId: Bytes, ephemeral: nat): (Hello, Handshake) {
    var hs := NewHandshake(psk, routeId, sessionId, ephemeral);
    (ClientHello(hs.psk, hs.prologue, hs.ephemeral), hs)
  }

  /** Reading the agent's hello on the initiator's side of `Finish`. */
  function ReadAgentHello(hs: Handshake, hello: Hello): Option<(CipherState, CipherState)> {
    if hello.AgentHello? && hello.psk == hs.psk && hello.prologue == hs.prologue && hello.client == hs.ephemeral
    then Some(Split(hs.psk, hs.prologue, hs.ephemeral, hello.agent)) else None
  }

  /** `Finish`: the first cipher state sends, the second receives. */
  function Finish(hs: Handshake, hello: Hello): Option<Transport> {
    var r := ReadAgentHello(hs, hello);
    if r.None? then None else Some(Transport(r.value.0, r.value.1))
  }

  /** `Respond`: the first cipher state receives, the second sends. */
  function Respond(psk: Bytes, routeId: Bytes, sessionId: Bytes, hello: Hello, ephemeral: nat): Option<(Hello,
    Transport)> {
    var hs := NewHandshake(psk, routeId, sessionId, ephemeral);
    if !(hello.ClientHello? && hello.psk == hs.psk && hello.prologue == hs.prologue) then None
    else
      var (recv, send) := Split(hs.psk, hs.prologue, hello.client, hs.ephemeral);
      Some((AgentHello(hs.psk, hs.prologue, hello.client, hs.ephemeral), Transport(send, recv)))
  }

  function Seal(cs: CipherState, plain: Bytes): (Ciphertext, CipherState) {
    (Sealed(cs.key, cs.n, plain), cs.(n := cs.n + 1))
  }

  /** Opening succeeds only under the same key and the expected nonce; a failure leaves the nonce alone. */
  function Open(cs: CipherState, c: Ciphertext): Option<(Bytes, CipherState)> {
    if c.Sealed? && c.key == cs.key && c.n == cs.n then Some((c.plain, cs.(n := cs.n + 1))) else None
  }

  // ---- Properties ----

  /** A prologue is the text `relaycat/v1`, the route and the session identifier. */
  lemma PrologueBytes(routeId: Bytes, sessionId: Bytes)
    ensures Prologue(routeId, sessionId) == Wire.StringBytes("relaycat/v1") + routeId + sessionId
  {
    hide Wire.StringBytes;
    Wire.AsciiBytes("relaycat/v1");
    assert LABEL == Wire.StringBytes("relaycat/v1");
  }

  /** For route identifiers of one length the prologue determines both identifiers. */
  lemma PrologueInjective(r1: Bytes, s1: Bytes, r2: Bytes, s2: Bytes)
    requires |r1| == |r2|
    ensures Prologue(r1, s1) == Prologue(r2, s2) <==> (r1 == r2 && s1 == s2)
  {
    if Prologue(r1, s1) == Prologue(r2, s2) {
      var p, q := Prologue(r1, s1), Prologue(r2, s2);
      assert r1 == p[|LABEL|..|LABEL| + |r1|] && r2 == q[|LABEL|..|LABEL| + |r2|];
      assert s1 == p[|LABEL| + |r1|..] && s2 == q[|LABEL| + |r2|..];
    }
  }

  /**
   The prologue tells any route and session of the first two lengths from any of the last two, unless they are equal.
   */
  ghost predicate Separates(n1: nat, m1: nat, n2: nat, m2: nat) {
    forall r1: Bytes, s1: Bytes, r2: Bytes, s2: Bytes ::
      |r1| == n1 && |s1| == m1 && |r2| == n2 && |s2| == m2 && Prologue(r1, s1) == Prologue(r2, s2) ==>
        r1 == r2 && s1 == s2
  }

  function Zeros(n: nat): (b: Bytes)
    ensures |b| == n
  {
    seq(n, _ => 0)
  }

  /** Exactly the lengths for which it does: equal route lengths, or different total lengths. */
  lemma PrologueSeparatesIff(n1: nat, m1: nat, n2: nat, m2: nat)
    ensures Separates(n1, m1, n2, m2) <==> n1 == n2 || n1 + m1 != n2 + m2
  {
    if n1 == n2 || n1 + m1 != n2 + m2 {
      forall r1: Bytes, s1: Bytes, r2: Bytes, s2: Bytes
        | |r1| == n1 && |s1| == m1 && |r2| == n2 && |s2| == m2 && Prologue(r1, s1) == Prologue(r2, s2)
        ensures r1 == r2 && s1 == s2
      {
        assert |Prologue(r1, s1)| == |Prologue(r2, s2)|;
        PrologueInjective(r1, s1, r2, s2);
      }
    } else {
      var all := Zeros(n1 + m1);
      assert all[..n1] + all[n1..] == all && all[..n2] + all[n2..] == all;
      assert Prologue(all[..n1], all[n1..]) == LABEL + all == Prologue(all[..n2], all[n2..]);
      assert |all[..n1]| != |all[..n2]|;
    }
  }

  /** An agent accepts a client's hello exactly when both hold the same key, route and session. */
  lemma RespondAcceptsIff(psk: Bytes, route: Bytes, session: Bytes, e: nat, psk': Bytes, route': Bytes, session': Bytes,
    e': nat)
    requires |route| == ID_SIZE && |route'| == ID_SIZE
    ensures Respond(psk', route', session', StartInitiator(psk, route, session, e).0, e').Some?
      <==> (psk == psk' && route == route' && session == session')
  {
    PrologueInjective(route, session, route', session');
  }

  /** Equal parameters and untouched messages give complementary transports. */
  lemma HandshakeCompletes(psk: Bytes, route: Bytes, session: Bytes, e: nat, e': nat)
    ensures var (hello, hs) := StartInitiator(psk, route, session, e);
      && Respond(psk, route, session, hello, e').Some?
      && var (reply, agent) := Respond(psk, route, session, hello, e').value;
      && Finish(hs, reply).Some?
      && var client := Finish(hs, reply).value;
      && client.send == agent.recv && client.recv == agent.send && client.send.key != client.recv.key
  {
  }

  /**
   Whatever hellos were delivered: a client and an agent that share one direction's key agree on
   pre-shared key, route and session, and share the other direction's key too.
   */
  lemma SharedKeyMeansAgreement(psk: Bytes, route: Bytes, session: Bytes, e: nat, toClient: Hello,
                                psk': Bytes, route': Bytes, session': Bytes, e': nat, toAgent: Hello)
    requires |route| == ID_SIZE && |route'| == ID_SIZE
    requires Finish(StartInitiator(psk, route, session, e).1, toClient).Some?
    requires Respond(psk', route', session', toAgent, e').Some?
    ensures var client := Finish(StartInitiator(psk, route, session, e).1, toClient).value;
      var agent := Respond(psk', route', session', toAgent, e').value.1;
      && (client.send.key == agent.recv.key <==> client.recv.key == agent.send.key)
      && (client.send.key == agent.recv.key ==> psk == psk' && route == route' && session == session')
      && client.send.key != agent.send.key && client.recv.key != agent.recv.key
  {
    PrologueInjective(route, session, route', session');
  }
}
