/**
 The protobuf wire format: base-128 varints, tagged fields, unknown fields and groups.
 Reading follows the Go runtime: a 64-bit varint of at most ten bytes, minimal or not; any field order;
 unknown fields skipped; groups nested up to a recursion limit.
 */
module Wire {
  import opened Base

  const MAX_FIELD: nat := 0x1fff_ffff
  const MAX_GROUP_FIELD: nat := 0x7fff_ffff
  const RECURSION_LIMIT: int := 10000
  const TWO_32: nat := 0x1_0000_0000
  const TWO_63: nat := 0x8000_0000_0000_0000

  // ---- Varints ----

  function Varint(n: nat): (b: Bytes)
    ensures |b| > 0
  {
    if n < 128 then [n] else [n % 128 + 128] + Varint(n / 128)
  }

  /** The first value that no longer fits in a varint of `size` bytes, when the tenth may only be 0 or 1. */
  function Capacity(size: nat): nat {
    if size == 0 then 0 else if size == 1 then 2 else 128 * Capacity(size - 1)
  }

  /** Read a varint of at most `size` bytes, of which the last may only be 0 or 1. */
  function TakeVarint(b: Bytes, size: nat): (r: Option<(nat, Bytes)>)
    ensures r.Some? ==> |r.value.1| < |b|
  {
    if b == [] || size == 0 then None
    else if b[0] < 128 then (if size == 1 && b[0] > 1 then None else Some((b[0], b[1..])))
    else if size == 1 then None
    else
      var r := TakeVarint(b[1..], size - 1);
      if r.None? then None else Some((b[0] - 128 + 128 * r.value.0, r.value.1))
  }

  lemma {:induction false} VarintRoundTrip(n: nat, size: nat, rest: Bytes)
    requires n < Capacity(size)
    ensures TakeVarint(Varint(n) + rest, size) == Some((n, rest))
  {
    if n < 128 {
      assert ([n] + rest)[1..] == rest;
    } else {
      VarintRoundTrip(n / 128, size - 1, rest);
      var b := Varint(n) + rest;
      assert b[1..] == Varint(n / 128) + rest;
    }
  }

  lemma TenBytes()
    ensures Capacity(10) == 2 * TWO_63
  {
    assert Capacity(4) == 2 * 128 * 128 * 128;
    assert Capacity(7) == 128 * 128 * 128 * Capacity(4);
    assert Capacity(10) == 128 * 128 * 128 * Capacity(7);
  }

  // ---- Fields ----

  datatype Field =
    | VarintField(num: nat, value: nat)
    | BytesField(num: nat, data: Bytes)
    | OtherField(num: nat)    // fixed-size values and groups, which no message here uses

  /** The value of a field with wire type `wt`, and the rest of the input. */
  function TakeValue(num: nat, wt: nat, b: Bytes, depth: int): (r: Option<(Field, Bytes)>)
    ensures r.Some? ==> |r.value.1| <= |b|
    decreases |b|, 1
  {
    if wt == 0 then
      var v := TakeVarint(b, 10);
      if v.None? then None else Some((VarintField(num, v.value.0), v.value.1))
    else if wt == 1 then (if |b| < 8 then None else Some((OtherField(num), b[8..])))
    else if wt == 2 then
      var n := TakeVarint(b, 10);
      if n.None? || n.value.0 > |n.value.1| then None
      else Some((BytesField(num, n.value.1[..n.value.0]), n.value.1[n.value.0..]))
    else if wt == 3 then
      var g := if depth < 0 then None else TakeGroup(num, b, depth);
      if g.None? then None else Some((OtherField(num), g.value))
    else if wt == 5 then (if |b| < 4 then None else Some((OtherField(num), b[4..])))
    else None
  }

  /** Skip the fields of a group up to its end tag. */
  function TakeGroup(num: nat, b: Bytes, depth: int): (r: Option<Bytes>)
    ensures r.Some? ==> |r.value| <= |b|
    decreases |b|, 0
  {
    var t := TakeVarint(b, 10);
    if t.None? then None else
    var (tag, rest) := t.value;
    if !(0 < tag / 8 <= MAX_GROUP_FIELD) then None
    else if tag % 8 == 4 then (if tag / 8 == num then Some(rest) else None)
    else
      var v := TakeValue(tag / 8, tag % 8, rest, depth - 1);
      if v.None? then None else TakeGroup(num, v.value.1, depth)
  }

  /** All fields of a message in order, or `None` when the bytes are not a message. */
  function ParseFields(b: Bytes): Option<seq<Field>>
    decreases |b|
  {
    if b == [] then Some([]) else
    var t := TakeVarint(b, 10);
    if t.None? then None else
    var (tag, rest) := t.value;
    if !(0 < tag / 8 <= MAX_FIELD) then None else
    var v := TakeValue(tag / 8, tag % 8, rest, RECURSION_LIMIT);
    if v.None? then None else
    var more := ParseFields(v.value.1);
    if more.None? then None else Some([v.value.0] + more.value)
  }

  function FieldBytes(f: Field): Bytes {
    match f
    case VarintField(num, v) => Varint(num * 8) + Varint(v)
    case BytesField(num, d) => Varint(num * 8 + 2) + Varint(|d|) + d
    case OtherField(_) => []
  }

  function Serialize(fs: seq<Field>): Bytes {
    if fs == [] then [] else FieldBytes(fs[0]) + Serialize(fs[1..])
  }

  lemma {:induction false} SerializeConcat(one: seq<Field>, two: seq<Field>)
    ensures Serialize(one + two) == Serialize(one) + Serialize(two)
  {
    hide FieldBytes;
    if one == [] {
      assert one + two == two;
    } else {
      assert (one + two)[1..] == one[1..] + two;
      SerializeConcat(one[1..], two);
    }
  }

  lemma SerializeOne(f: Field)
    ensures Serialize([f]) == FieldBytes(f)
  {
    hide FieldBytes;
    assert [f][1..] == [];
    assert Serialize([]) == [];
  }

  lemma SerializeNothing()
    ensures Serialize([]) == []
  {
  }

  predicate Writable(f: Field) {
    && 0 < f.num <= MAX_FIELD && !f.OtherField?
    && (f.VarintField? ==> f.value < TWO_63)
    && (f.BytesField? ==> |f.data| < TWO_63)
  }

  lemma FieldRoundTrip(f: Field, rest: Bytes)
    requires Writable(f)
    ensures var t := TakeVarint(FieldBytes(f) + rest, 10);
      && t.Some? && t.value.0 / 8 == f.num
      && TakeValue(f.num, t.value.0 % 8, t.value.1, RECURSION_LIMIT) == Some((f, rest))
  {
    TenBytes();
    match f
    case VarintField(num, v) =>
      assert FieldBytes(f) + rest == Varint(num * 8) + (Varint(v) + rest);
      VarintRoundTrip(num * 8, 10, Varint(v) + rest);
      VarintRoundTrip(v, 10, rest);
    case BytesField(num, d) =>
      assert FieldBytes(f) + rest == Varint(num * 8 + 2) + (Varint(|d|) + (d + rest));
      VarintRoundTrip(num * 8 + 2, 10, Varint(|d|) + (d + rest));
      VarintRoundTrip(|d|, 10, d + rest);
      assert (d + rest)[..|d|] == d && (d + rest)[|d|..] == rest;
  }

  /** Reading back what was written gives the same fields in the same order. */
  lemma {:induction false} FieldsRoundTrip(fs: seq<Field>)
    requires forall i :: 0 <= i < |fs| ==> Writable(fs[i])
    ensures ParseFields(Serialize(fs)) == Some(fs)
  {
    if fs != [] {
      FieldsRoundTrip(fs[1..]);
      FieldRoundTrip(fs[0], Serialize(fs[1..]));
      assert Serialize(fs) != [] by { assert FieldBytes(fs[0]) != []; }
      assert [fs[0]] + fs[1..] == fs;
    }
  }

  // ---- UTF-8 (section 4 of RFC 3629), which proto3 demands of string fields ----

  predicate Continuation(b: Byte) {
    0x80 <= b < 0xc0
  }

  /** The length of the well-formed character at the start of `b`, or 0. */
  function CharLength(b: Bytes): nat
    ensures CharLength(b) <= |b|
  {
    if b == [] then 0
    else if b[0] < 0x80 then 1
    else if 0xc2 <= b[0] < 0xe0 then (if |b| >= 2 && Continuation(b[1]) then 2 else 0)
    else if 0xe0 <= b[0] < 0xf0 then
      (if |b| >= 3 && Continuation(b[1]) && Continuation(b[2])
          && (b[0] == 0xe0 ==> b[1] >= 0xa0) && (b[0] == 0xed ==> b[1] < 0xa0) then 3 else 0)
    else if 0xf0 <= b[0] < 0xf5 then
      (if |b| >= 4 && Continuation(b[1]) && Continuation(b[2]) && Continuation(b[3])
          && (b[0] == 0xf0 ==> b[1] >= 0x90) && (b[0] == 0xf4 ==> b[1] < 0x90) then 4 else 0)
    else 0
  }

  predicate Utf8(b: Bytes)
    decreases |b|
  {
    b == [] || (CharLength(b) > 0 && Utf8(b[CharLength(b)..]))
  }

  // ---- What the bytes are ----

  /** The number that groups of seven bits stand for, the lowest first. */
  function Groups(b: Bytes): nat {
    if b == [] then 0 else b[0] % 128 + 128 * Groups(b[1..])
  }

  /** A varint is the shortest string of such groups, every byte but the last with its top bit set. */
  lemma {:induction false} VarintMeaning(n: nat)
    ensures var b := Varint(n);
      && Groups(b) == n && b[|b| - 1] < 128 && (|b| > 1 ==> b[|b| - 1] != 0)
      && forall i :: 0 <= i < |b| - 1 ==> b[i] >= 128
  {
    var b := Varint(n);
    if n < 128 {
      assert b[1..] == [];
    } else {
      VarintMeaning(n / 128);
      assert b[1..] == Varint(n / 128);
    }
  }

  /** A varint as a reader takes it, minimal or not: at most `size` bytes, the last of that many 0 or 1. */
  predicate VarintForm(b: Bytes, size: nat) {
    && 0 < |b| <= size && b[|b| - 1] < 128 && (|b| == size ==> b[|b| - 1] <= 1)
    && forall i :: 0 <= i < |b| - 1 ==> b[i] >= 128
  }

  lemma {:induction false} FormTaken(b: Bytes, rest: Bytes, size: nat)
    requires VarintForm(b, size)
    ensures TakeVarint(b + rest, size) == Some((Groups(b), rest))
  {
    assert (b + rest)[1..] == b[1..] + rest;
    if |b| == 1 {
      assert b[1..] + rest == rest && b[1..] == [];
    } else {
      var more := b[1..];
      assert b[0] >= 128 && forall i :: 0 <= i < |more| ==> more[i] == b[i + 1];
      FormTaken(more, rest, size - 1);
    }
  }

  lemma {:induction false} TakenForm(b: Bytes, size: nat)
    requires TakeVarint(b, size).Some?
    ensures var n := |b| - |TakeVarint(b, size).value.1|;
      VarintForm(b[..n], size) && TakeVarint(b, size) == Some((Groups(b[..n]), b[n..]))
  {
    if b[0] < 128 {
      assert b[..1] == [b[0]] && b[..1][1..] == [];
    } else {
      TakenForm(b[1..], size - 1);
      var n := |b| - |TakeVarint(b, size).value.1|;
      var more := b[1..][..n - 1];
      assert b[..n] == [b[0]] + more && b[..n][1..] == more;
    }
  }

  /** A number is read off the front of `b` if and only if a varint of that value stands there. */
  lemma TakeVarintIff(b: Bytes, n: nat, rest: Bytes)
    ensures TakeVarint(b, 10) == Some((n, rest))
      <==> exists form: Bytes :: VarintForm(form, 10) && Groups(form) == n && b == form + rest
  {
    hide VarintForm, Groups, TakeVarint;
    if TakeVarint(b, 10) == Some((n, rest)) {
      TakenForm(b, 10);
      var k := |b| - |rest|;
      assert b == b[..k] + rest;
    }
    if form: Bytes :| VarintForm(form, 10) && Groups(form) == n && b == form + rest { FormTaken(form, rest, 10); }
  }

  lemma ParseTagged(num: nat, wt: nat, after: Bytes)
    requires 0 < num <= MAX_FIELD && wt < 8
    ensures ParseFields(Varint(num * 8 + wt) + after) ==
      var v := TakeValue(num, wt, after, RECURSION_LIMIT);
      if v.None? then None else
      var more := ParseFields(v.value.1);
      if more.None? then None else Some([v.value.0] + more.value)
  {
    hide Varint;
    TenBytes();
    VarintRoundTrip(num * 8 + wt, 10, after);
    assert Varint(num * 8 + wt) + after != [];
  }

  /** No message starts with a field numbered 0 or past 2^29 - 1, with an end of group or with a wire type 6 or 7. */
  lemma BadTagRefused(form: Bytes, after: Bytes)
    requires VarintForm(form, 10)
    requires var tag := Groups(form); tag < 8 || tag >= 0x1_0000_0000 || tag % 8 == 4 || tag % 8 == 6 || tag % 8 == 7
    ensures ParseFields(form + after).None?
  {
    hide TakeVarint;
    FormTaken(form, after, 10);
    assert form + after != [];
  }

  /** A field that announces more bytes than there are is refused. */
  lemma OverrunRefused(num: nat, length: Bytes, data: Bytes)
    requires 0 < num <= MAX_FIELD && VarintForm(length, 10) && Groups(length) > |data|
    ensures ParseFields(Varint(num * 8 + 2) + (length + data)).None?
  {
    hide Varint, ParseFields, TakeVarint;
    FormTaken(length, data, 10);
    ParseTagged(num, 2, length + data);
  }

  /** Fixed-size fields of any number are passed over: eight bytes for wire type 1, four for wire type 5. */
  lemma FixedSkipped(num: nat, wide: bool, payload: Bytes, rest: Bytes)
    requires 0 < num <= 0x1fff_ffff && |payload| == (if wide then 8 else 4)
    ensures ParseFields(Varint(num * 8 + (if wide then 1 else 5)) + payload + rest) ==
      if ParseFields(rest).None? then None else Some([OtherField(num)] + ParseFields(rest).value)
  {
    hide Varint, ParseFields;
    var wt := if wide then 1 else 5;
    assert Varint(num * 8 + wt) + payload + rest == Varint(num * 8 + wt) + (payload + rest);
    ParseTagged(num, wt, payload + rest);
    assert (payload + rest)[|payload|..] == rest;
  }

  /** So is a group of fields, up to its end tag. */
  lemma {:induction false} GroupTaken(num: nat, fs: seq<Field>, rest: Bytes, depth: int)
    requires 0 < num <= MAX_FIELD && depth > 0 && forall i :: 0 <= i < |fs| ==> Writable(fs[i])
    ensures TakeGroup(num, Serialize(fs) + (Varint(num * 8 + 4) + rest), depth) == Some(rest)
  {
    hide Varint;
    TenBytes();
    var end := Varint(num * 8 + 4) + rest;
    if fs == [] {
      assert Serialize(fs) + end == end;
      VarintRoundTrip(num * 8 + 4, 10, rest);
    } else {
      hide FieldBytes;
      var b := FieldBytes(fs[0]) + (Serialize(fs[1..]) + end);
      assert Serialize(fs) + end == b;
      TaggedField(fs[0], Serialize(fs[1..]) + end, depth - 1);
      GroupTaken(num, fs[1..], rest, depth);
    }
  }

  lemma TaggedField(f: Field, rest: Bytes, depth: int)
    requires Writable(f)
    ensures var t := TakeVarint(FieldBytes(f) + rest, 10);
      && t.Some? && t.value.0 / 8 == f.num && t.value.0 % 8 != 4
      && TakeValue(f.num, t.value.0 % 8, t.value.1, depth) == Some((f, rest))
  {
    hide Varint;
    TenBytes();
    match f
    case VarintField(num, v) =>
      assert FieldBytes(f) + rest == Varint(num * 8) + (Varint(v) + rest);
      VarintRoundTrip(num * 8, 10, Varint(v) + rest);
      VarintRoundTrip(v, 10, rest);
    case BytesField(num, d) =>
      assert FieldBytes(f) + rest == Varint(num * 8 + 2) + (Varint(|d|) + (d + rest));
      VarintRoundTrip(num * 8 + 2, 10, Varint(|d|) + (d + rest));
      VarintRoundTrip(|d|, 10, d + rest);
      assert (d + rest)[..|d|] == d && (d + rest)[|d|..] == rest;
  }

  lemma TakeValueGroup(num: nat, b: Bytes)
    ensures TakeValue(num, 3, b, RECURSION_LIMIT) ==
      var g := TakeGroup(num, b, RECURSION_LIMIT); if g.None? then None else Some((OtherField(num), g.value))
  {
    hide TakeGroup, TakeVarint;
  }

  lemma GroupSkipped(num: nat, fs: seq<Field>, rest: Bytes)
    requires 0 < num <= 0x1fff_ffff && forall i :: 0 <= i < |fs| ==> Writable(fs[i])
    ensures ParseFields(Varint(num * 8 + 3) + (Serialize(fs) + (Varint(num * 8 + 4) + rest))) ==
      if ParseFields(rest).None? then None else Some([OtherField(num)] + ParseFields(rest).value)
  {
    hide Varint, ParseFields, TakeGroup, TakeValue, Serialize, Writable;
    var after := Serialize(fs) + (Varint(num * 8 + 4) + rest);
    GroupTaken(num, fs, rest, RECURSION_LIMIT);
    TakeValueGroup(num, after);
    ParseTagged(num, 3, after);
  }

  // ---- Reading singular fields: the last one wins ----

  /** The data of the last length-delimited field with a number, empty when there is none. */
  function LastBytes(fs: seq<Field>, num: nat): Bytes {
    if fs == [] then [] else
    var f := fs[|fs| - 1];
    if f.BytesField? && f.num == num then f.data else LastBytes(fs[..|fs| - 1], num)
  }

  function LastVarint(fs: seq<Field>, num: nat): nat {
    if fs == [] then 0 else
    var f := fs[|fs| - 1];
    if f.VarintField? && f.num == num then f.value else LastVarint(fs[..|fs| - 1], num)
  }

  /** Every occurrence of the string field with a number is UTF-8. */
  predicate StringsOk(fs: seq<Field>, num: nat) {
    forall i :: 0 <= i < |fs| && fs[i].BytesField? && fs[i].num == num ==> Utf8(fs[i].data)
  }

  lemma StringsOkSnoc(fs: seq<Field>, num: nat)
    requires fs != []
    ensures var f := fs[|fs| - 1];
      StringsOk(fs, num) <==> StringsOk(fs[..|fs| - 1], num) && (f.BytesField? && f.num == num ==> Utf8(f.data))
  {
    hide Utf8;
    var most := fs[..|fs| - 1];
    assert forall i :: 0 <= i < |most| ==> most[i] == fs[i];
  }

  // ---- UTF-8 is the encoding of strings ----

  /** One character in UTF-8. */
  function CharBytes(c: char): Bytes {
    var n := c as int;
    if n < 0x80 then [n]
    else if n < 0x800 then [0xc0 + n / 64, 0x80 + n % 64]
    else if n < 0x1_0000 then [0xe0 + n / 4096, 0x80 + n / 64 % 64, 0x80 + n % 64]
    else [0xf0 + n / 0x4_0000, 0x80 + n / 4096 % 64, 0x80 + n / 64 % 64, 0x80 + n % 64]
  }

  function StringBytes(s: string): Bytes {
    if s == "" then [] else CharBytes(s[0]) + StringBytes(s[1..])
  }

  /** ASCII text is one byte a character. */
  lemma {:induction false} AsciiBytes(s: string)
    requires forall i :: 0 <= i < |s| ==> s[i] as int < 0x80
    ensures |StringBytes(s)| == |s| && forall i :: 0 <= i < |s| ==> StringBytes(s)[i] == s[i] as int
  {
    if s != "" { AsciiBytes(s[1..]); }
  }

  lemma CharAccepted(c: char, rest: Bytes)
    ensures CharLength(CharBytes(c) + rest) == |CharBytes(c)|
  {
  }

  lemma TwoRead(n: nat, m: nat)
    requires 2 <= n < 0x20 && m < 64
    ensures CharBytes((n * 64 + m) as char) == [0xc0 + n, 0x80 + m]
  {
  }

  lemma ThreeRead(n: nat, m: nat, l: nat)
    requires n < 16 && m < 64 && l < 64 && (n == 0 ==> m >= 0x20) && (n == 13 ==> m < 0x20)
    ensures var i := n * 4096 + m * 64 + l;
      0x800 <= i && !(0xd800 <= i < 0xe000) && CharBytes(i as char) == [0xe0 + n, 0x80 + m, 0x80 + l]
  {
  }

  lemma FourRead(n: nat, m: nat, l: nat, k: nat)
    requires n <= 4 && m < 64 && l < 64 && k < 64 && (n == 0 ==> m >= 16) && (n == 4 ==> m < 16)
    ensures var i := n * 0x4_0000 + m * 4096 + l * 64 + k;
      && 0x1_0000 <= i < 0x11_0000
      && CharBytes(i as char) == [0xf0 + n, 0x80 + m, 0x80 + l, 0x80 + k]
  {
    var i := n * 0x4_0000 + m * 4096 + l * 64 + k;
    assert i / 4096 == n * 64 + m;
    assert i / 64 == n * 4096 + m * 64 + l;
  }

  /** Every well-formed character at the start of a byte string is the encoding of one. */
  lemma CharRead(b: Bytes) returns (c: char)
    requires CharLength(b) > 0
    ensures CharBytes(c) == b[..CharLength(b)]
  {
    var k := CharLength(b);
    var n: int := b[0];
    if k == 1 {
      c := n as char;
      return;
    }
    hide CharBytes;
    var m: int := b[1] - 0x80;
    if k == 2 {
      TwoRead(n - 0xc0, m);
      c := ((n - 0xc0) * 64 + m) as char;
      return;
    }
    var l: int := b[2] - 0x80;
    if k == 3 {
      ThreeRead(n - 0xe0, m, l);
      c := ((n - 0xe0) * 4096 + m * 64 + l) as char;
    } else {
      var j: int := b[3] - 0x80;
      FourRead(n - 0xf0, m, l, j);
      c := ((n - 0xf0) * 0x4_0000 + m * 4096 + l * 64 + j) as char;
    }
  }

  lemma {:induction false} StringsAccepted(s: string)
    ensures Utf8(StringBytes(s))
  {
    if s != "" {
      hide CharLength, CharBytes;
      StringsAccepted(s[1..]);
      var b := StringBytes(s);
      CharAccepted(s[0], StringBytes(s[1..]));
      SomeBytes(s[0]);
      assert b[|CharBytes(s[0])|..] == StringBytes(s[1..]);
    }
  }

  lemma SomeBytes(c: char)
    ensures |CharBytes(c)| > 0
  {
  }

  lemma {:induction false} AcceptedIsString(b: Bytes) returns (s: string)
    requires Utf8(b)
    ensures StringBytes(s) == b
    decreases |b|
  {
    hide CharLength, CharBytes;
    if b == [] { return ""; }
    var k := CharLength(b);
    var c := CharRead(b);
    var more := AcceptedIsString(b[k..]);
    s := [c] + more;
    assert s[1..] == more && b[..k] + b[k..] == b;
  }

  /** Bytes are accepted as UTF-8 if and only if they are the encoding of some string. */
  lemma Utf8Iff(b: Bytes)
    ensures Utf8(b) <==> exists s :: StringBytes(s) == b
  {
    hide Utf8, StringBytes;
    if Utf8(b) { var s := AcceptedIsString(b); }
    if s :| StringBytes(s) == b { StringsAccepted(s); }
  }
}
