/** The `rc1_` connection code: base64url over the wire form of the `ConnectionCode` message. */
module ConnectionCode {
  import opened Base
  import opened Wire
  import B64 = Base64Url

  const PREFIX := "rc1_"
  const VERSION: nat := 1
  const ROUTE_SIZE: nat := 16
  const PSK_SIZE: nat := 32

  datatype Code = Code(relayUrl: Bytes, routeId: Bytes, psk: Bytes)

  datatype Result<+T> = Ok(value: T) | Err(message: string)

  datatype Message = Message(version: nat, url: Bytes, route: Bytes, psk: Bytes)

  /** `validate`. */
  predicate ValidSizes(c: Code) {
    |c.routeId| == ROUTE_SIZE && |c.psk| == PSK_SIZE
  }

  /** proto3 leaves fields with default values out. */
  function MessageFields(m: Message): seq<Field> {
    (if m.version == 0 then [] else [VarintField(1, m.version)])
    + (if m.url == [] then [] else [BytesField(2, m.url)])
    + (if m.route == [] then [] else [BytesField(3, m.route)])
    + (if m.psk == [] then [] else [BytesField(4, m.psk)])
  }

  /** One field read into a message: the last occurrence wins, a mistyped or unknown field is skipped. */
  function Merge(m: Message, f: Field): Option<Message> {
    match f
    case VarintField(num, v) => Some(if num == 1 then m.(version := v % TWO_32) else m)
    case BytesField(num, d) =>
      if num == 2 then (if Utf8(d) then Some(m.(url := d)) else None)
      else Some(if num == 3 then m.(route := d) else if num == 4 then m.(psk := d) else m)
    case OtherField(_) => Some(m)
  }

  function MergeAll(m: Message, fs: seq<Field>): Option<Message>
    decreases |fs|
  {
    if fs == [] then Some(m) else
    var n := Merge(m, fs[0]);
    if n.None? then None else MergeAll(n.value, fs[1..])
  }

  const EMPTY := Message(0, [], [], [])

  function Marshal(m: Message): Option<Bytes> {
    if Utf8(m.url) then Some(Serialize(MessageFields(m))) else None
  }

  function Unmarshal(b: Bytes): Option<Message> {
    var fs := ParseFields(b);
    if fs.None? then None else MergeAll(EMPTY, fs.value)
  }

  function Encode(c: Code): Result<string> {
    if |c.routeId| != ROUTE_SIZE then Err("route ID must be 16 bytes")
    else if |c.psk| != PSK_SIZE then Err("preshared key must be 32 bytes")
    else
      var b := Marshal(Message(VERSION, c.relayUrl, c.routeId, c.psk));
      if b.None? then Err("encoding connection code") else Ok(PREFIX + B64.Encode(b.value))
  }

  /** `accepts` stands for `ValidateRelayURL`. */
  function Decode(s: string, allowInsecure: bool, accepts: (Bytes, bool) -> bool): Result<Code> {
    if !(PREFIX <= s) then Err("invalid connection code prefix") else
    var b := B64.Decode(s[|PREFIX|..]);
    if b.None? then Err("invalid connection code encoding") else
    var m := Unmarshal(b.value);
    if m.None? then Err("invalid connection code payload")
    else if m.value.version != VERSION then Err("unsupported connection code version")
    else
      var c := Code(m.value.url, m.value.route, m.value.psk);
      if |c.routeId| != ROUTE_SIZE then Err("route ID must be 16 bytes")
      else if |c.psk| != PSK_SIZE then Err("preshared key must be 32 bytes")
      else if !accepts(c.relayUrl, allowInsecure) then Err("relay URL not accepted")
      else Ok(c)
  }

  lemma MergeOne(m: Message, f: Field)
    ensures MergeAll(m, [f]) == Merge(m, f)
  {
    hide Merge;
    assert [f][1..] == [];
  }

  /** An optional field followed by others: present or left out, its value is in the message. */
  lemma MergeOptional(m: Message, n: Message, here: seq<Field>, f: Field, rest: seq<Field>)
    requires (here == [f] && Merge(m, f) == Some(n)) || (here == [] && n == m)
    ensures MergeAll(m, here + rest) == MergeAll(n, rest)
  {
    hide Merge;
    MergeOne(m, f);
    MergeConcat(m, here, rest);
  }

  lemma MergeFields(m: Message)
    requires m.version < TWO_32 && Utf8(m.url)
    ensures MergeAll(EMPTY, MessageFields(m)) == Some(m)
  {
    hide Utf8, MergeAll;
    var f1 := if m.version == 0 then [] else [VarintField(1, m.version)];
    var f2 := if m.url == [] then [] else [BytesField(2, m.url)];
    var f3 := if m.route == [] then [] else [BytesField(3, m.route)];
    var f4 := if m.psk == [] then [] else [BytesField(4, m.psk)];
    var m1 := Message(m.version, [], [], []);
    var m2 := Message(m.version, m.url, [], []);
    var m3 := Message(m.version, m.url, m.route, []);
    MergeOptional(EMPTY, m1, f1, VarintField(1, m.version), f2 + (f3 + (f4 + [])));
    MergeOptional(m1, m2, f2, BytesField(2, m.url), f3 + (f4 + []));
    MergeOptional(m2, m3, f3, BytesField(3, m.route), f4 + []);
    MergeOptional(m3, m, f4, BytesField(4, m.psk), []);
    assert MessageFields(m) == f1 + (f2 + (f3 + (f4 + [])));
    MergeNothing(m);
  }

  lemma MergeNothing(m: Message)
    ensures MergeAll(m, []) == Some(m)
  {
  }

  lemma {:induction false} MergeConcat(m: Message, one: seq<Field>, two: seq<Field>)
    ensures MergeAll(m, one + two) == (if MergeAll(m, one).None? then None else MergeAll(MergeAll(m, one).value, two))
    decreases |one|
  {
    if one == [] {
      assert one + two == two;
    } else {
      assert (one + two)[0] == one[0] && (one + two)[1..] == one[1..] + two;
      if Merge(m, one[0]).Some? { MergeConcat(Merge(m, one[0]).value, one[1..], two); }
    }
  }

  lemma MessageRoundTrip(m: Message)
    requires m.version < TWO_32 && Utf8(m.url) && |m.url| < TWO_63 && |m.route| < TWO_63 && |m.psk| < TWO_63
    ensures Marshal(m).Some? && Unmarshal(Marshal(m).value) == Some(m)
  {
    FieldsRoundTrip(MessageFields(m));
    MergeFields(m);
  }

  /** A code encodes exactly when its sizes are right and its URL is UTF-8. */
  lemma EncodeSucceedsIff(c: Code)
    ensures Encode(c).Ok? <==> ValidSizes(c) && Utf8(c.relayUrl)
  {
  }

  /** Decoding an encoded code gives it back, for every URL the caller accepts. */
  lemma EncodeDecode(c: Code, allowInsecure: bool, accepts: (Bytes, bool) -> bool)
    requires |c.relayUrl| < TWO_63   // the length of a Go string
    requires Encode(c).Ok?
    ensures Decode(Encode(c).value, allowInsecure, accepts) ==
      if accepts(c.relayUrl, allowInsecure) then Ok(c) else Err("relay URL not accepted")
  {
    hide Marshal, Unmarshal, Utf8;
    EncodeSucceedsIff(c);
    var m := Message(VERSION, c.relayUrl, c.routeId, c.psk);
    MessageRoundTrip(m);
    B64.RoundTrip(Marshal(m).value);
    var s := Encode(c).value;
    assert s[|PREFIX|..] == B64.Encode(Marshal(m).value);
  }

  /** Different codes have different texts. */
  lemma EncodeInjective(c: Code, d: Code)
    requires |c.relayUrl| < TWO_63 && |d.relayUrl| < TWO_63
    requires Encode(c).Ok? && Encode(c) == Encode(d)
    ensures c == d
  {
    EncodeDecode(c, false, (u, i) => true);
    EncodeDecode(d, false, (u, i) => true);
  }

  lemma {:induction false} MergedUrlIsUtf8(m: Message, fs: seq<Field>)
    requires Utf8(m.url) && MergeAll(m, fs).Some?
    ensures Utf8(MergeAll(m, fs).value.url)
    decreases |fs|
  {
    if fs != [] { MergedUrlIsUtf8(Merge(m, fs[0]).value, fs[1..]); }
  }

  /**
   Every accepted text, canonical or not, means a code with the right sizes, and re-encoding that
   code and decoding again gives the same code.
   */
  lemma DecodeEncodeDecode(s: string, allowInsecure: bool, accepts: (Bytes, bool) -> bool)
    requires Decode(s, allowInsecure, accepts).Ok?
    requires |Decode(s, allowInsecure, accepts).value.relayUrl| < TWO_63
    ensures var c := Decode(s, allowInsecure, accepts).value;
      && ValidSizes(c) && accepts(c.relayUrl, allowInsecure)
      && Encode(c).Ok? && Decode(Encode(c).value, allowInsecure, accepts) == Ok(c)
  {
    var b := B64.Decode(s[|PREFIX|..]).value;
    assert Utf8(EMPTY.url);
    MergedUrlIsUtf8(EMPTY, ParseFields(b).value);
    var c := Decode(s, allowInsecure, accepts).value;
    EncodeSucceedsIff(c);
    EncodeDecode(c, allowInsecure, accepts);
  }

  // ---- The text, byte for byte ----

  /** The wire form of a code: version 1, the URL unless it is empty, sixteen bytes, thirty-two bytes. */
  function CodeBytes(url: Bytes, route: Bytes, psk: Bytes): Bytes {
    [0x08, 0x01] + (if url == [] then [] else [0x12] + Varint(|url|) + url) + ([0x1a, 0x10] + route)
    + ([0x22, 0x20] + psk)
  }

  lemma FieldLiterals(url: Bytes, route: Bytes, psk: Bytes)
    requires |route| == 16 && |psk| == 32
    ensures FieldBytes(VarintField(1, 1)) == [0x08, 0x01]
    ensures FieldBytes(BytesField(2, url)) == [0x12] + Varint(|url|) + url
    ensures FieldBytes(BytesField(3, route)) == [0x1a, 0x10] + route
    ensures FieldBytes(BytesField(4, psk)) == [0x22, 0x20] + psk
  {
    assert Varint(8) == [0x08] && Varint(1) == [0x01] && Varint(18) == [0x12] && Varint(26) == [0x1a];
    assert Varint(16) == [0x10] && Varint(34) == [0x22] && Varint(32) == [0x20];
    assert [0x1a, 0x10] == [0x1a] + [0x10] && [0x22, 0x20] == [0x22] + [0x20] && [0x08, 0x01] == [0x08] + [0x01];
  }

  lemma MarshalledBytes(url: Bytes, route: Bytes, psk: Bytes)
    requires Utf8(url) && |route| == 16 && |psk| == 32
    ensures Marshal(Message(1, url, route, psk)) == Some(CodeBytes(url, route, psk))
  {
    hide FieldBytes, Serialize, Utf8, Varint;
    FieldLiterals(url, route, psk);
    var f1, f3, f4 := [VarintField(1, 1)], [BytesField(3, route)], [BytesField(4, psk)];
    var f2 := if url == [] then [] else [BytesField(2, url)];
    SerializeConcat(f1 + f2 + f3, f4);
    SerializeConcat(f1 + f2, f3);
    SerializeConcat(f1, f2);
    SerializeOne(VarintField(1, 1));
    SerializeOne(BytesField(2, url));
    SerializeOne(BytesField(3, route));
    SerializeOne(BytesField(4, psk));
    SerializeNothing();
  }

  /** The text of a code: `rc1_` and the base64url form of those bytes. */
  lemma EncodedText(c: Code)
    ensures |c.routeId| == 16 && |c.psk| == 32 && Utf8(c.relayUrl) ==>
      Encode(c) == Ok("rc1_" + B64.Encode(CodeBytes(c.relayUrl, c.routeId, c.psk)))
  {
    hide Utf8, CodeBytes, Marshal, B64.Encode;
    if |c.routeId| == 16 && |c.psk| == 32 && Utf8(c.relayUrl) { MarshalledBytes(c.relayUrl, c.routeId, c.psk); }
  }

  // ---- What a text means ----

  lemma {:induction false} MergedMeans(fs: seq<Field>)
    ensures MergeAll(EMPTY, fs) ==
      if StringsOk(fs, 2)
      then Some(Message(LastVarint(fs, 1) % 0x1_0000_0000, LastBytes(fs, 2), LastBytes(fs, 3), LastBytes(fs, 4)))
      else None
  {
    if fs == [] {
      MergeNothing(EMPTY);
    } else {
      hide Utf8, StringsOk, MergeAll;
      var most, f := fs[..|fs| - 1], fs[|fs| - 1];
      MergedMeans(most);
      StringsOkSnoc(fs, 2);
      assert fs == most + [f];
      MergeConcat(EMPTY, most, [f]);
      if StringsOk(most, 2) { MergeOne(MergeAll(EMPTY, most).value, f); }
    }
  }

  /**
   A text decodes to a code if and only if it is `rc1_` and the base64url form of a message whose last
   version is 1, whose last URL, route and key are the code's, all URLs being UTF-8, the route 16 bytes, the
   key 32 bytes and the URL one the caller accepts.
   */
  lemma DecodeIff(s: string, allowInsecure: bool, accepts: (Bytes, bool) -> bool, c: Code)
    ensures Decode(s, allowInsecure, accepts) == Ok(c) <==>
      && "rc1_" <= s && B64.Decode(s[4..]).Some? && ParseFields(B64.Decode(s[4..]).value).Some?
      && var fs := ParseFields(B64.Decode(s[4..]).value).value;
      && StringsOk(fs, 2) && LastVarint(fs, 1) % 0x1_0000_0000 == 1
      && c == Code(LastBytes(fs, 2), LastBytes(fs, 3), LastBytes(fs, 4))
      && |c.routeId| == 16 && |c.psk| == 32 && accepts(c.relayUrl, allowInsecure)
  {
    hide StringsOk, LastVarint, LastBytes, ParseFields, B64.Decode, MergeAll;
    if "rc1_" <= s && B64.Decode(s[4..]).Some? && ParseFields(B64.Decode(s[4..]).value).Some? {
      MergedMeans(ParseFields(B64.Decode(s[4..]).value).value);
    }
  }
}
