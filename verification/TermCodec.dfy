/**
 Concrete byte forms of hello and ciphertext terms, showing that what the composed theorems suppose of the wire can be
 met.
 */
module TermCodec {
  import opened Base
  import opened Noise
  import opened Tunnels
  import Relayed

  function NatBytes(n: nat): Bytes {
    if n == 0 then [0] else [1] + NatBytes(n - 1)
  }

  function TakeNat(b: Bytes): (nat, Bytes) {
    if b == [] then (0, []) else if b[0] == 0 then (0, b[1..]) else
    var (n, rest) := TakeNat(b[1..]);
    (n + 1, rest)
  }

  lemma {:induction false} NatRoundTrip(n: nat, rest: Bytes)
    ensures TakeNat(NatBytes(n) + rest) == (n, rest)
  {
    var b := NatBytes(n) + rest;
    if n == 0 {
      assert b[1..] == rest;
    } else {
      NatRoundTrip(n - 1, rest);
      assert b[1..] == NatBytes(n - 1) + rest;
    }
  }

  function Sized(b: Bytes): Bytes {
    NatBytes(|b|) + b
  }

  function TakeSized(b: Bytes): (Bytes, Bytes) {
    var (n, rest) := TakeNat(b);
    if n <= |rest| then (rest[..n], rest[n..]) else ([], [])
  }

  lemma SizedRoundTrip(b: Bytes, rest: Bytes)
    ensures TakeSized(Sized(b) + rest) == (b, rest)
  {
    assert Sized(b) + rest == NatBytes(|b|) + (b + rest);
    NatRoundTrip(|b|, b + rest);
  }

  function HelloBytes(h: Hello): Bytes {
    match h
    case ClientHello(psk, prologue, client) => [0] + (Sized(psk) + (Sized(prologue) + (NatBytes(client) + [])))
    case AgentHello(psk, prologue, client, agent) =>
      [1] + (Sized(psk) + (Sized(prologue) + (NatBytes(client) + (NatBytes(agent) + []))))
    case OtherHello(id) => [2] + (NatBytes(id) + [])
  }

  function ReadHello(b: Bytes): Hello {
    if b == [] then OtherHello(0)
    else if b[0] >= 2 then OtherHello(TakeNat(b[1..]).0)
    else
      var (psk, r1) := TakeSized(b[1..]);
      var (prologue, r2) := TakeSized(r1);
      var (client, r3) := TakeNat(r2);
      if b[0] == 0 then ClientHello(psk, prologue, client) else AgentHello(psk, prologue, client, TakeNat(r3).0)
  }

  lemma HelloRoundTrip(h: Hello)
    ensures |HelloBytes(h)| > 0 && ReadHello(HelloBytes(h)) == h
  {
    hide NatBytes, TakeNat, Sized, TakeSized;
    match h
    case ClientHello(psk, prologue, client) =>
      var r2 := NatBytes(client) + [];
      var r1 := Sized(prologue) + r2;
      SizedRoundTrip(psk, r1);
      SizedRoundTrip(prologue, r2);
      NatRoundTrip(client, []);
      assert HelloBytes(h)[1..] == Sized(psk) + r1;
    case AgentHello(psk, prologue, client, agent) =>
      var r3 := NatBytes(agent) + [];
      var r2 := NatBytes(client) + r3;
      var r1 := Sized(prologue) + r2;
      SizedRoundTrip(psk, r1);
      SizedRoundTrip(prologue, r2);
      NatRoundTrip(client, r3);
      NatRoundTrip(agent, []);
      assert HelloBytes(h)[1..] == Sized(psk) + r1;
    case OtherHello(id) =>
      NatRoundTrip(id, []);
      assert HelloBytes(h)[1..] == NatBytes(id) + [];
  }

  const CODEC := Codec(HelloBytes, ReadHello)

  lemma CodecIsLossless()
    ensures Lossless(CODEC)
  {
    forall h ensures |CODEC.encode(h)| > 0 && CODEC.decode(CODEC.encode(h)) == h { HelloRoundTrip(h); }
  }

  // ---- Ciphertexts ----

  function KeyBytes(key: Key): Bytes {
    [if key.ToAgentKey? then 0 else 1]
      + (Sized(key.psk) + (Sized(key.prologue) + (NatBytes(key.client) + (NatBytes(key.agent) + []))))
  }

  function CipherBytes(ct: Ciphertext): Bytes {
    match ct
    case Sealed(key, n, plain) => [0] + (NatBytes(n) + (Sized(plain) + KeyBytes(key)))
    case OtherCiphertext(id) => [1] + (NatBytes(id) + [])
  }

  function ReadKey(b: Bytes): Key
    requires b != []
  {
    var (psk, r1) := TakeSized(b[1..]);
    var (prologue, r2) := TakeSized(r1);
    var (client, r3) := TakeNat(r2);
    if b[0] == 0 then ToAgentKey(psk, prologue, client, TakeNat(r3).0)
      else ToClientKey(psk, prologue, client, TakeNat(r3).0)
  }

  function ReadCipher(b: Bytes): Ciphertext {
    if b == [] then OtherCiphertext(0)
    else if b[0] == 1 then OtherCiphertext(TakeNat(b[1..]).0)
    else
      var (n, r1) := TakeNat(b[1..]);
      var (plain, r2) := TakeSized(r1);
      if r2 == [] then OtherCiphertext(0) else Sealed(ReadKey(r2), n, plain)
  }

  lemma KeyRoundTrip(key: Key)
    ensures ReadKey(KeyBytes(key)) == key
  {
    hide NatBytes, TakeNat, Sized, TakeSized;
    var r3 := NatBytes(key.agent) + [];
    var r2 := NatBytes(key.client) + r3;
    var r1 := Sized(key.prologue) + r2;
    SizedRoundTrip(key.psk, r1);
    SizedRoundTrip(key.prologue, r2);
    NatRoundTrip(key.client, r3);
    NatRoundTrip(key.agent, []);
    assert KeyBytes(key)[1..] == Sized(key.psk) + r1;
  }

  lemma CipherRoundTrip(ct: Ciphertext)
    ensures ReadCipher(CipherBytes(ct)) == ct
  {
    hide NatBytes, TakeNat, Sized, TakeSized, ReadKey;
    match ct
    case Sealed(key, n, plain) =>
      var r1 := Sized(plain) + KeyBytes(key);
      NatRoundTrip(n, r1);
      SizedRoundTrip(plain, KeyBytes(key));
      KeyRoundTrip(key);
      assert CipherBytes(ct)[1..] == NatBytes(n) + r1;
    case OtherCiphertext(id) =>
      NatRoundTrip(id, []);
      assert CipherBytes(ct)[1..] == NatBytes(id) + [];
  }

  const CODING := Relayed.Coding(CipherBytes, ReadCipher)

  lemma CodingIsExact()
    ensures Relayed.Exact(CODING)
  {
    forall ct ensures CODING.decode(CODING.encode(ct)) == ct { CipherRoundTrip(ct); }
  }
}
