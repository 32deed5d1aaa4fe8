/** The `PlainFrame` message that travels encrypted between two endpoints. */
module PlainFrames {
  import opened Base
  import opened Wire

  const CODE_NORMAL: int := 1
  const CODE_TARGET_UNREACHABLE: int := 2

  datatype Body = Data(data: Bytes) | HalfClose | Close(code: int, message: Bytes)

  function CloseFields(code: int, message: Bytes): seq<Field>
    requires 0 <= code
  {
    (if code == 0 then [] else [VarintField(1, code)]) + (if message == [] then [] else [BytesField(2, message)])
  }

  /** A member of a oneof is written even when it is empty. Close codes are never negative. */
  function Marshal(f: Body): Bytes
    requires f.Close? ==> 0 <= f.code
  {
    match f
    case Data(d) => Serialize([BytesField(1, d)])
    case HalfClose => Serialize([BytesField(2, [])])
    case Close(code, message) => Serialize([BytesField(3, Serialize(CloseFields(code, message)))])
  }

  function Int32(v: nat): int {
    var w := v % TWO_32; if w < 0x8000_0000 then w else w - TWO_32
  }

  function MergeClose(c: Body, fs: seq<Field>): (r: Option<Body>)
    requires c.Close?
    ensures r.Some? ==> r.value.Close?
    decreases |fs|
  {
    if fs == [] then Some(c) else
    match fs[0]
    case VarintField(num, v) => MergeClose(if num == 1 then Close(Int32(v), c.message) else c, fs[1..])
    case BytesField(num, d) =>
      if num != 2 then MergeClose(c, fs[1..])
      else if Utf8(d) then MergeClose(Close(c.code, d), fs[1..]) else None
    case OtherField(_) => MergeClose(c, fs[1..])
  }

  /** One field read into the oneof: a different member replaces it, another `close` merges into it. */
  function MergeBody(b: Option<Body>, f: Field): Option<Option<Body>> {
    if !f.BytesField? then Some(b)
    else if f.num == 1 then Some(Some(Data(f.data)))
    else if f.num == 2 then (if ParseFields(f.data).Some? then Some(Some(HalfClose)) else None)
    else if f.num == 3 then
      var fs := ParseFields(f.data);
      var c := if fs.None? then None
        else MergeClose(if b.Some? && b.value.Close? then b.value else Close(0, []), fs.value);
      if c.None? then None else Some(c)
    else Some(b)
  }

  function MergeBodies(b: Option<Body>, fs: seq<Field>): Option<Option<Body>>
    decreases |fs|
  {
    if fs == [] then Some(b) else
    var c := MergeBody(b, fs[0]);
    if c.None? then None else MergeBodies(c.value, fs[1..])
  }

  /** `None` for bytes that are not a message, `Some(None)` for a message without a body. */
  function Unmarshal(b: Bytes): Option<Option<Body>> {
    var fs := ParseFields(b);
    if fs.None? then None else MergeBodies(None, fs.value)
  }

  predicate Sendable(f: Body) {
    match f
    case Data(d) => |d| < TWO_63
    case HalfClose => true
    case Close(code, message) =>
      0 <= code < 0x8000_0000 && Utf8(message) && |Serialize(CloseFields(code, message))| < TWO_63 && |message| < TWO_63
  }

  lemma CloseMerge(code: int, message: Bytes)
    requires Utf8(message) && 0 <= code < 0x8000_0000
    ensures MergeClose(Close(0, []), CloseFields(code, message)) == Some(Close(code, message))
  {
    hide Utf8;
    var fs := CloseFields(code, message);
    assert MergeClose(Close(code, message), []) == Some(Close(code, message));
    if message == [] {
      if code != 0 { assert fs == [VarintField(1, code)] && fs[1..] == []; }
    } else {
      var g := [BytesField(2, message)];
      assert g[1..] == [];
      assert MergeClose(Close(code, []), g) == Some(Close(code, message));
      if code != 0 { assert fs == [VarintField(1, code)] + g && fs[1..] == g; }
    }
  }

  lemma CloseRoundTrip(code: int, message: Bytes)
    requires Sendable(Close(code, message))
    ensures ParseFields(Serialize(CloseFields(code, message))) == Some(CloseFields(code, message))
    ensures MergeClose(Close(0, []), CloseFields(code, message)) == Some(Close(code, message))
  {
    hide Utf8, MergeClose;
    FieldsRoundTrip(CloseFields(code, message));
    CloseMerge(code, message);
  }

  lemma OneBody(f: Field)
    ensures MergeBodies(None, [f]) == MergeBody(None, f)
  {
    hide MergeBody;
    assert [f][1..] == [];
    var c := MergeBody(None, f);
    if c.Some? { assert MergeBodies(c.value, []) == Some(c.value); }
  }

  /** The peer reads exactly the frame that was written. */
  lemma FrameRoundTrip(f: Body)
    requires Sendable(f)
    ensures Unmarshal(Marshal(f)) == Some(Some(f))
  {
    hide Utf8;
    match f
    case Data(d) => FieldsRoundTrip([BytesField(1, d)]); OneBody(BytesField(1, d));
    case HalfClose => FieldsRoundTrip([BytesField(2, [])]); OneBody(BytesField(2, []));
    case Close(code, message) =>
      var inner := Serialize(CloseFields(code, message));
      CloseRoundTrip(code, message);
      FieldsRoundTrip([BytesField(3, inner)]);
      OneBody(BytesField(3, inner));
  }

  // ---- The frames, byte for byte ----

  /** The inside of a close frame. */
  function CloseBytes(code: nat, message: Bytes): Bytes {
    (if code == 0 then [] else [0x08] + Varint(code))
      + (if message == [] then [] else [0x12] + Varint(|message|) + message)
  }

  lemma CloseLiterals(code: nat, message: Bytes)
    ensures Serialize(CloseFields(code, message)) == CloseBytes(code, message)
  {
    Tags();
    hide Serialize, Varint;
    var one := if code == 0 then [] else [VarintField(1, code)];
    var two := if message == [] then [] else [BytesField(2, message)];
    SerializeConcat(one, two);
    SerializeOne(VarintField(1, code));
    SerializeOne(BytesField(2, message));
    SerializeNothing();
  }

  lemma Tags()
    ensures Varint(8) == [0x08] && Varint(10) == [0x0a] && Varint(18) == [0x12] && Varint(26) == [0x1a]
    ensures Varint(0) == [0x00]
  {
  }

  /** Tag, length and contents of each kind of frame. */
  lemma FrameBytes(f: Body)
    requires f.Close? ==> 0 <= f.code
    ensures f.Data? ==> Marshal(f) == [0x0a] + Varint(|f.data|) + f.data
    ensures f.HalfClose? ==> Marshal(f) == [0x12, 0x00]
    ensures f.Close? ==> var inner := CloseBytes(f.code, f.message); Marshal(f) == [0x1a] + Varint(|inner|) + inner
  {
    Tags();
    hide Serialize, Varint;
    match f
    case Data(d) => SerializeOne(BytesField(1, d));
    case HalfClose => SerializeOne(BytesField(2, []));
    case Close(code, message) =>
      CloseLiterals(code, message);
      SerializeOne(BytesField(3, CloseBytes(code, message)));
  }

  /** The frame that ends a tunnel normally. */
  lemma NormalCloseBytes()
    ensures Marshal(Close(CODE_NORMAL, [])) == [0x1a, 0x02, 0x08, 0x01]
  {
    FrameBytes(Close(CODE_NORMAL, []));
    assert Varint(1) == [0x01] && Varint(2) == [0x02];
    assert CloseBytes(1, []) == [0x08] + [0x01];
  }

  // ---- What a frame means ----

  lemma {:induction false} MergeCloseSnoc(c: Body, fs: seq<Field>, f: Field)
    requires c.Close?
    ensures MergeClose(c, fs + [f]) ==
      if MergeClose(c, fs).None? then None else MergeClose(MergeClose(c, fs).value, [f])
    decreases |fs|
  {
    hide Utf8;
    if fs == [] {
      assert fs + [f] == [f];
    } else {
      var all := fs + [f];
      assert all[1..] == fs[1..] + [f] && all[0] == fs[0];
      var next := MergeClose(c, [fs[0]]);
      MergeCloseFirst(c, all);
      MergeCloseFirst(c, fs);
      if next.Some? { MergeCloseSnoc(next.value, fs[1..], f); }
    }
  }

  lemma MergeCloseFirst(c: Body, fs: seq<Field>)
    requires c.Close? && fs != []
    ensures var next := MergeClose(c, [fs[0]]);
      MergeClose(c, fs) == if next.None? then None else MergeClose(next.value, fs[1..])
  {
    hide Utf8;
    var one := [fs[0]];
    assert one[1..] == [];
    assert forall d: Body :: d.Close? ==> MergeClose(d, []) == Some(d);
  }

  /** Of a close frame the last code, as a 32-bit integer, and the last message count; every message is UTF-8. */
  lemma {:induction false} CloseMeans(fs: seq<Field>)
    ensures MergeClose(Close(0, []), fs) ==
      if StringsOk(fs, 2) then Some(Close(Int32(LastVarint(fs, 1)), LastBytes(fs, 2))) else None
  {
    if fs != [] {
      var most, f := fs[..|fs| - 1], fs[|fs| - 1];
      CloseMeans(most);
      StringsOkSnoc(fs, 2);
      assert fs == most + [f];
      MergeCloseSnoc(Close(0, []), most, f);
      hide Utf8, StringsOk, Int32;
      assert [f][1..] == [];
      assert forall d: Body :: d.Close? ==> MergeClose(d, []) == Some(d);
    }
  }

  lemma {:induction false} MergeBodiesSnoc(b: Option<Body>, fs: seq<Field>, f: Field)
    ensures MergeBodies(b, fs + [f]) ==
      if MergeBodies(b, fs).None? then None else MergeBody(MergeBodies(b, fs).value, f)
    decreases |fs|
  {
    hide MergeBody;
    var all := fs + [f];
    if fs == [] {
      assert all[1..] == [];
      var c := MergeBody(b, f);
      assert c.Some? ==> MergeBodies(c.value, []) == Some(c.value);
    } else {
      assert all[1..] == fs[1..] + [f];
      if MergeBody(b, fs[0]).Some? { MergeBodiesSnoc(MergeBody(b, fs[0]).value, fs[1..], f); }
    }
  }

  /** Of several bodies the last one counts; a field of another number or kind changes nothing. */
  lemma LastBodyWins(fs: seq<Field>, f: Field, before: Option<Body>)
    requires MergeBodies(None, fs) == Some(before)
    ensures var after := MergeBodies(None, fs + [f]);
      && (!f.BytesField? || f.num == 0 || f.num > 3 ==> after == Some(before))
      && (f.BytesField? && f.num == 1 ==> after == Some(Some(Data(f.data))))
      && (f.BytesField? && f.num == 2 ==> after == if ParseFields(f.data).Some? then Some(Some(HalfClose)) else None)
      && (f.BytesField? && f.num == 3 && (before.None? || !before.value.Close?) ==>
        after ==
        if ParseFields(f.data).None? || !StringsOk(ParseFields(f.data).value, 2) then None
        else
          var inner := ParseFields(f.data).value; Some(Some(Close(Int32(LastVarint(inner, 1)), LastBytes(inner, 2)))))
  {
    hide ParseFields, StringsOk, Int32, LastVarint, LastBytes, MergeBodies, MergeClose;
    MergeBodiesSnoc(None, fs, f);
    if f.BytesField? && f.num == 3 && ParseFields(f.data).Some? { CloseMeans(ParseFields(f.data).value); }
  }
}
