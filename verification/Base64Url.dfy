/**
 Unpadded base64url (section 5 of RFC 4648) as `base64.RawURLEncoding` does it: decoding ignores
 line breaks and does not insist that unused trailing bits are zero.
 */
module Base64Url {
  import opened Base

  function Digit(n: nat): (c: char)
    requires n < 64
    ensures c != '\r' && c != '\n'
  {
    if n < 26 then 'A' + n as char
    else if n < 52 then 'a' + (n - 26) as char
    else if n < 62 then '0' + (n - 52) as char
    else if n == 62 then '-' else '_'
  }

  function Value(c: char): (r: Option<nat>)
    ensures r.Some? ==> r.value < 64
  {
    if 'A' <= c <= 'Z' then Some((c - 'A') as nat)
    else if 'a' <= c <= 'z' then Some((c - 'a') as nat + 26)
    else if '0' <= c <= '9' then Some((c - '0') as nat + 52)
    else if c == '-' then Some(62) else if c == '_' then Some(63) else None
  }

  lemma DigitValue(n: nat)
    requires n < 64
    ensures Value(Digit(n)) == Some(n)
  {
  }

  function Encode(b: Bytes): string {
    if b == [] then ""
    else if |b| == 1 then [Digit(b[0] / 4), Digit(b[0] % 4 * 16)]
    else if |b| == 2 then [Digit(b[0] / 4), Digit(b[0] % 4 * 16 + b[1] / 16), Digit(b[1] % 16 * 4)]
    else
      [Digit(b[0] / 4), Digit(b[0] % 4 * 16 + b[1] / 16), Digit(b[1] % 16 * 4 + b[2] / 64), Digit(b[2] % 64)]
      + Encode(b[3..])
  }

  function Strip(s: string): string {
    if s == "" then "" else (if s[0] == '\r' || s[0] == '\n' then "" else [s[0]]) + Strip(s[1..])
  }

  /** Decode a string without line breaks. */
  function DecodeClean(s: string): Option<Bytes> {
    if s == "" then Some([])
    else if |s| == 1 then None
    else
      var v0, v1 := Value(s[0]), Value(s[1]);
      if v0.None? || v1.None? then None
      else if |s| == 2 then Some([v0.value * 4 + v1.value / 16])
      else
        var v2 := Value(s[2]);
        if v2.None? then None
        else if |s| == 3 then Some([v0.value * 4 + v1.value / 16, v1.value % 16 * 16 + v2.value / 4])
        else
          var v3 := Value(s[3]);
          var more := DecodeClean(s[4..]);
          if v3.None? || more.None? then None
          else Some([v0.value * 4 + v1.value / 16, v1.value % 16 * 16 + v2.value / 4, v2.value % 4 * 64 + v3.value]
            + more.value)
  }

  function Decode(s: string): Option<Bytes> {
    DecodeClean(Strip(s))
  }

  lemma {:induction false} StripClean(s: string)
    requires forall i :: 0 <= i < |s| ==> s[i] != '\r' && s[i] != '\n'
    ensures Strip(s) == s
  {
    if s != "" {
      StripClean(s[1..]);
      assert [s[0]] + s[1..] == s;
    }
  }

  lemma {:induction false} EncodeIsClean(b: Bytes)
    ensures forall i :: 0 <= i < |Encode(b)| ==> Encode(b)[i] != '\r' && Encode(b)[i] != '\n'
  {
    if |b| >= 3 { EncodeIsClean(b[3..]); }
  }

  lemma ThreeBytes(b0: Byte, b1: Byte, b2: Byte)
    ensures var v0, v1, v2, v3 := b0 / 4, b0 % 4 * 16 + b1 / 16, b1 % 16 * 4 + b2 / 64, b2 % 64;
      && v0 < 64 && v1 < 64 && v2 < 64 && v3 < 64
      && v0 * 4 + v1 / 16 == b0 && v1 % 16 * 16 + v2 / 4 == b1 && v2 % 4 * 64 + v3 == b2
  {
  }

  lemma DecodeTail(s: string, v0: nat, v1: nat, v2: nat)
    requires 2 <= |s| <= 3 && Value(s[0]) == Some(v0) && Value(s[1]) == Some(v1)
    requires (|s| == 3 ==> Value(s[2]) == Some(v2))
    ensures |s| == 2 ==> DecodeClean(s) == Some([v0 * 4 + v1 / 16])
    ensures |s| == 3 ==> DecodeClean(s) == Some([v0 * 4 + v1 / 16, v1 % 16 * 16 + v2 / 4])
  {
    hide Value;
  }

  lemma TailRoundTrip(b: Bytes)
    requires |b| <= 2
    ensures DecodeClean(Encode(b)) == Some(b)
  {
    hide Digit, Value, DecodeClean;
    if b == [] {
      DecodeNothing();
    } else if |b| == 1 {
      OneRoundTrip(b[0]);
      assert b == [b[0]];
    } else {
      TwoRoundTrip(b[0], b[1]);
      assert b == [b[0], b[1]];
    }
  }

  lemma OneRoundTrip(b0: Byte)
    ensures DecodeClean(Encode([b0])) == Some([b0])
  {
    hide Digit, Value, DecodeClean;
    ThreeBytes(b0, 0, 0);
    DigitValue(b0 / 4);
    DigitValue(b0 % 4 * 16);
    DecodeTail(Encode([b0]), b0 / 4, b0 % 4 * 16, 0);
  }

  lemma TwoRoundTrip(b0: Byte, b1: Byte)
    ensures DecodeClean(Encode([b0, b1])) == Some([b0, b1])
  {
    hide Digit, Value, DecodeClean;
    ThreeBytes(b0, b1, 0);
    DigitValue(b0 / 4);
    DigitValue(b0 % 4 * 16 + b1 / 16);
    DigitValue(b1 % 16 * 4);
    DecodeTail(Encode([b0, b1]), b0 / 4, b0 % 4 * 16 + b1 / 16, b1 % 16 * 4);
  }

  lemma DecodeNothing()
    ensures DecodeClean("") == Some([])
  {
  }

  lemma {:induction false} CleanRoundTrip(b: Bytes)
    ensures DecodeClean(Encode(b)) == Some(b)
  {
    hide Digit, Value;
    if |b| >= 3 {
      ThreeBytes(b[0], b[1], b[2]);
      DigitValue(b[0] / 4);
      DigitValue(b[0] % 4 * 16 + b[1] / 16);
      DigitValue(b[1] % 16 * 4 + b[2] / 64);
      DigitValue(b[2] % 64);
      CleanRoundTrip(b[3..]);
      assert Encode(b)[4..] == Encode(b[3..]);
      assert [b[0], b[1], b[2]] + b[3..] == b;
    } else {
      TailRoundTrip(b);
    }
  }

  /** Every byte string survives encoding and decoding. */
  lemma RoundTrip(b: Bytes)
    ensures Decode(Encode(b)) == Some(b)
  {
    EncodeIsClean(b);
    StripClean(Encode(b));
    CleanRoundTrip(b);
  }

  // ---- The alphabet and the bits ----

  const UPPER := "ABCDEFGHIJKLMNOPQRSTUVWXYZ"
  const LOWER := "abcdefghijklmnopqrstuvwxyz"
  const ALPHABET := UPPER + LOWER + "0123456789-_"

  lemma DigitIs(n: nat)
    requires n < 64
    ensures |ALPHABET| == 64 && Digit(n) == ALPHABET[n]
  {
    if n < 26 {
      assert UPPER[n] == 'A' + n as char;
    } else if n < 52 {
      assert LOWER[n - 26] == 'a' + (n - 26) as char;
    }
  }

  lemma ValueIs(c: char)
    ensures |ALPHABET| == 64
    ensures c in ALPHABET <==> Value(c).Some?
    ensures Value(c).Some? ==> ALPHABET[Value(c).value] == c
  {
    DigitIs(0);
    if Value(c).Some? {
      DigitIs(Value(c).value);
    } else if c in ALPHABET {
      hide Digit, Value, ALPHABET;
      var n: nat :| n < |ALPHABET| && ALPHABET[n] == c;
      DigitIs(n);
      DigitValue(n);
    }
  }

  /** Byte `k`, or zero after the end. */
  function At(b: Bytes, k: nat): Byte {
    if k < |b| then b[k] else 0
  }

  /** The six bits from bit `j` on: a window on two bytes without the bits after them. */
  function SixBits(b: Bytes, j: nat): (n: nat)
    ensures n < 64
  {
    (256 * At(b, j / 8) + At(b, j / 8 + 1)) / [1024, 512, 256, 128, 64, 32, 16, 8][j % 8] % 64
  }

  lemma FirstFour(b: Bytes)
    ensures SixBits(b, 0) == At(b, 0) / 4 && SixBits(b, 6) == At(b, 0) % 4 * 16 + At(b, 1) / 16
    ensures SixBits(b, 12) == At(b, 1) % 16 * 4 + At(b, 2) / 64 && SixBits(b, 18) == At(b, 2) % 64
  {
    Window(At(b, 0), At(b, 1));
    Window(At(b, 1), At(b, 2));
    Window(At(b, 2), At(b, 3));
  }

  lemma Window(x: Byte, y: Byte)
    ensures (256 * x + y) / 1024 % 64 == x / 4
    ensures (256 * x + y) / 16 % 64 == x % 4 * 16 + y / 16
    ensures (256 * x + y) / 64 % 64 == x % 16 * 4 + y / 64
    ensures (256 * x + y) / 256 % 64 == x % 64
  {
    var w: nat := 256 * x + y;
    Quotient(w, 1024, x / 4, x % 4 * 256 + y);
    Quotient(w, 16, 16 * x + y / 16, y % 16);
    Quotient(16 * x + y / 16, 64, x / 4, x % 4 * 16 + y / 16);
    Quotient(w, 64, 4 * x + y / 64, y % 64);
    Quotient(4 * x + y / 64, 64, x / 16, x % 16 * 4 + y / 64);
    Quotient(w, 256, x, y);
  }

  lemma Quotient(w: nat, d: nat, q: nat, r: nat)
    requires r < d && w == d * q + r
    ensures w / d == q && w % d == r
  {
    var k := w / d - q;
    assert d * k == r - w % d;
    Grows(d, k);
  }

  lemma Grows(d: nat, k: int)
    ensures k >= 1 ==> d * k >= d
    ensures k <= -1 ==> d * k + d <= 0
  {
  }

  lemma Later(b: Bytes, j: nat)
    requires |b| >= 3
    ensures SixBits(b, j + 24) == SixBits(b[3..], j)
  {
  }

  /** Character `i` is the alphabet's entry for bits `6i` to `6i + 5`. */
  lemma {:induction false} EncodeAt(b: Bytes)
    ensures |Encode(b)| == (4 * |b| + 2) / 3
    ensures |ALPHABET| == 64
    ensures forall i :: 0 <= i < |Encode(b)| ==> Encode(b)[i] == ALPHABET[SixBits(b, 6 * i)]
  {
    hide SixBits, Digit, ALPHABET;
    FirstFour(b);
    forall n: nat | n < 64 ensures |ALPHABET| == 64 && Digit(n) == ALPHABET[n] { DigitIs(n); }
    if |b| >= 3 {
      EncodeAt(b[3..]);
      forall i | 4 <= i < |Encode(b)| ensures SixBits(b, 6 * i) == SixBits(b[3..], 6 * (i - 4)) {
        Later(b, 6 * i - 24);
      }
    }
  }

  // ---- What is decoded ----

  /** Line breaks, and nothing else, are passed over wherever they stand. */
  lemma {:induction false} StripAppend(s: string, c: char)
    ensures Strip(s + [c]) == Strip(s) + (if c == '\r' || c == '\n' then [] else [c])
  {
    if s == "" {
      assert (s + [c])[1..] == "";
    } else {
      assert (s + [c])[1..] == s[1..] + [c];
      StripAppend(s[1..], c);
    }
  }

  lemma {:induction false} CleanDecodesIff(s: string)
    ensures DecodeClean(s).Some? <==> |s| % 4 != 1 && forall c :: c in s ==> c in ALPHABET
  {
    hide Value, ALPHABET;
    forall c ensures c in ALPHABET <==> Value(c).Some? { ValueIs(c); }
    if |s| < 4 {
      FewDecode(s);
    } else {
      CleanDecodesIff(s[4..]);
      FourMore(s);
      hide DecodeClean;
      assert s == [s[0], s[1], s[2], s[3]] + s[4..];
    }
  }

  lemma FewDecode(s: string)
    requires |s| < 4
    ensures DecodeClean(s).Some? <==> |s| != 1 && forall c :: c in s ==> Value(c).Some?
  {
    hide Value;
  }

  lemma FourMore(s: string)
    requires |s| >= 4
    ensures DecodeClean(s).Some? <==>
      Value(s[0]).Some? && Value(s[1]).Some? && Value(s[2]).Some? && Value(s[3]).Some? && DecodeClean(s[4..]).Some?
  {
    hide Value;
  }

  lemma {:induction false} StripKeeps(s: string, c: char)
    ensures c in Strip(s) <==> c in s && c != '\r' && c != '\n'
  {
    if s != "" {
      StripKeeps(s[1..], c);
      assert s == [s[0]] + s[1..];
    }
  }

  /**
   A text is decoded if and only if, line breaks aside, it is of the alphabet and no single character is left over.
   */
  lemma DecodesIff(s: string)
    ensures Decode(s).Some? <==>
      |Strip(s)| % 4 != 1 && forall c :: c in s && c != '\r' && c != '\n' ==> c in ALPHABET
  {
    hide ALPHABET, DecodeClean, Strip;
    CleanDecodesIff(Strip(s));
    forall c ensures c in Strip(s) <==> c in s && c != '\r' && c != '\n' { StripKeeps(s, c); }
  }

  /** The number of character `k`, or zero after the end. */
  function Six(vs: seq<nat>, k: nat): nat {
    if k < |vs| then vs[k] else 0
  }

  /** The eight bits from bit `j` on, six to a number. */
  function EightBits(vs: seq<nat>, j: nat): nat {
    (64 * Six(vs, j / 6) + Six(vs, j / 6 + 1)) / [16, 8, 4, 2, 1, 1][j % 6] % 256
  }

  lemma FirstThree(vs: seq<nat>)
    requires forall i :: 0 <= i < |vs| ==> vs[i] < 64
    ensures EightBits(vs, 0) == Six(vs, 0) * 4 + Six(vs, 1) / 16
    ensures EightBits(vs, 8) == Six(vs, 1) % 16 * 16 + Six(vs, 2) / 4
    ensures EightBits(vs, 16) == Six(vs, 2) % 4 * 64 + Six(vs, 3)
  {
    Eight(Six(vs, 0), Six(vs, 1));
    Eight(Six(vs, 1), Six(vs, 2));
    Eight(Six(vs, 2), Six(vs, 3));
  }

  lemma Eight(x: nat, y: nat)
    requires x < 64 && y < 64
    ensures (64 * x + y) / 16 % 256 == x * 4 + y / 16
    ensures (64 * x + y) / 4 % 256 == x % 16 * 16 + y / 4
    ensures (64 * x + y) / 1 % 256 == x % 4 * 64 + y
  {
    Quotient(64 * x + y, 16, x * 4 + y / 16, y % 16);
    Quotient(64 * x + y, 4, x * 16 + y / 4, y % 4);
    Quotient(x * 16 + y / 4, 256, x / 16, x % 16 * 16 + y / 4);
    Quotient(64 * x + y, 256, x / 4, x % 4 * 64 + y);
  }

  lemma LaterEight(vs: seq<nat>, j: nat)
    requires |vs| >= 4
    ensures EightBits(vs, j + 24) == EightBits(vs[4..], j)
  {
  }

  lemma DecodeStep(s: string, vs: seq<nat>)
    requires |s| >= 4 && |vs| == |s| && forall i :: 0 <= i < |vs| ==> Value(s[i]) == Some(vs[i])
    ensures DecodeClean(s) == if DecodeClean(s[4..]).None? then None else
      Some([vs[0] * 4 + vs[1] / 16, vs[1] % 16 * 16 + vs[2] / 4, vs[2] % 4 * 64 + vs[3]] + DecodeClean(s[4..]).value)
  {
    hide Value;
  }

  lemma {:induction false} DecodedBits(s: string, vs: seq<nat>)
    requires |vs| == |s| && |s| % 4 != 1 && forall i :: 0 <= i < |vs| ==> Value(s[i]) == Some(vs[i])
    ensures DecodeClean(s).Some? && |DecodeClean(s).value| == 3 * |s| / 4
    ensures forall k :: 0 <= k < |DecodeClean(s).value| ==> DecodeClean(s).value[k] == EightBits(vs, 8 * k)
  {
    hide EightBits, Value;
    forall i | 0 <= i < |vs| ensures vs[i] < 64 { assert Value(s[i]).value < 64; }
    FirstThree(vs);
    if |s| >= 4 {
      DecodedBits(s[4..], vs[4..]);
      DecodeStep(s, vs);
      hide DecodeClean;
      var b := DecodeClean(s).value;
      forall k | 3 <= k < |b| ensures EightBits(vs, 8 * k) == EightBits(vs[4..], 8 * (k - 3)) {
        LaterEight(vs, 8 * k - 24);
      }
    }
  }

  /** Byte `k` is bits `8k` to `8k + 7` of the characters' places in the alphabet; leftover bits are ignored. */
  lemma DecodedAt(s: string, vs: seq<nat>)
    requires |vs| == |s| && |s| % 4 != 1 && |ALPHABET| == 64
    requires forall i :: 0 <= i < |vs| ==> vs[i] < 64 && s[i] == ALPHABET[vs[i]]
    ensures DecodeClean(s).Some? && |DecodeClean(s).value| == 3 * |s| / 4
    ensures forall k :: 0 <= k < |DecodeClean(s).value| ==> DecodeClean(s).value[k] == EightBits(vs, 8 * k)
  {
    hide EightBits, ALPHABET, Value, Digit, DecodeClean;
    forall i | 0 <= i < |vs| ensures Value(s[i]) == Some(vs[i]) {
      DigitIs(vs[i]);
      DigitValue(vs[i]);
    }
    DecodedBits(s, vs);
  }
}
