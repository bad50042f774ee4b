/** The texts of the wire format are exactly the encodings of sequences of Unicode scalar values. */
module Utf8 {
  import opened Basics
  import opened Wire

  type Scalar = c: int | 0 <= c < 0xD800 || 0xE000 <= c < 0x110000

  /** The encoding table of section 3 of RFC 3629. */
  function EncodeChar(c: Scalar): (r: seq<byte>)
    ensures 1 <= |r| <= 4
  {
    if c < 0x80 then [c]
    else if c < 0x800 then [0xC0 + c / 64, 0x80 + c % 64]
    else if c < 0x10000 then [0xE0 + c / 4096, 0x80 + c / 64 % 64, 0x80 + c % 64]
    else [0xF0 + c / 262144, 0x80 + c / 4096 % 64, 0x80 + c / 64 % 64, 0x80 + c % 64]
  }

  function EncodeChars(cs: seq<Scalar>): seq<byte> {
    if cs == [] then [] else EncodeChar(cs[0]) + EncodeChars(cs[1..])
  }

  /** The bytes of `r` stand at position `i` of `s`. */
  predicate At(s: seq<byte>, i: nat, r: seq<byte>) {
    i + |r| <= |s| && s[i..i + |r|] == r
  }

  lemma AtBytes(s: seq<byte>, i: nat, r: seq<byte>)
    requires At(s, i, r)
    ensures forall j | 0 <= j < |r| :: s[i + j] == r[j]
  {
    forall j | 0 <= j < |r| ensures s[i + j] == r[j] {
      assert s[i..i + |r|][j] == r[j];
    }
  }

  lemma CharOfScalar(s: seq<byte>, i: nat, c: Scalar)
    requires At(s, i, EncodeChar(c))
    ensures i < |s| && CharLength(s, i) == |EncodeChar(c)|
  {
    var r := EncodeChar(c);
    AtBytes(s, i, r);
    assert s[i + 0] == r[0];
    if |r| > 1 {
      assert s[i + 1] == r[1];
    }
    if |r| > 2 {
      assert s[i + 2] == r[2];
    }
    if |r| > 3 {
      assert s[i + 3] == r[3];
    }
  }

  /** Six-bit digits come apart again. */
  lemma Digits(x: nat, y: nat, z: nat)
    requires y < 64 && z < 64
    ensures (x * 64 + z) / 64 == x && (x * 64 + z) % 64 == z
    ensures (x * 64 + y) * 64 + z == x * 4096 + y * 64 + z
  {
  }

  lemma TwoBytes(b0: int, b1: int) returns (c: Scalar)
    requires 0xC2 <= b0 <= 0xDF && 0x80 <= b1 <= 0xBF
    ensures EncodeChar(c) == [b0, b1]
  {
    Digits(b0 - 0xC0, 0, b1 - 0x80);
    c := (b0 - 0xC0) * 64 + (b1 - 0x80);
  }

  lemma ThreeBytes(b0: int, b1: int, b2: int) returns (c: Scalar)
    requires 0xE0 <= b0 <= 0xEF && 0x80 <= b1 <= 0xBF && 0x80 <= b2 <= 0xBF
    requires (b0 == 0xE0 ==> 0xA0 <= b1) && (b0 == 0xED ==> b1 <= 0x9F)
    ensures EncodeChar(c) == [b0, b1, b2]
  {
    var x, y, z := b0 - 0xE0, b1 - 0x80, b2 - 0x80;
    var high := x * 64 + y;
    Digits(x, 0, y);
    Digits(high, 0, z);
    c := high * 64 + z;
    assert c / 4096 == x && c / 64 == high;
  }

  lemma FourBytes(b0: int, b1: int, b2: int, b3: int) returns (c: Scalar)
    requires 0xF0 <= b0 <= 0xF4 && 0x80 <= b1 <= 0xBF && 0x80 <= b2 <= 0xBF && 0x80 <= b3 <= 0xBF
    requires (b0 == 0xF0 ==> 0x90 <= b1) && (b0 == 0xF4 ==> b1 <= 0x8F)
    ensures EncodeChar(c) == [b0, b1, b2, b3]
  {
    var x, y, z, w := b0 - 0xF0, b1 - 0x80, b2 - 0x80, b3 - 0x80;
    var top := x * 64 + y;
    var high := top * 64 + z;
    Digits(x, 0, y);
    Digits(top, 0, z);
    Digits(high, 0, w);
    c := high * 64 + w;
    assert c / 64 == high && c / 4096 == top && c / 262144 == x;
  }

  /** A well-formed character is the encoding of a scalar value. */
  lemma ScalarOfChar(s: seq<byte>, i: nat) returns (c: Scalar)
    requires i < |s| && CharLength(s, i) > 0
    ensures At(s, i, EncodeChar(c)) && |EncodeChar(c)| == CharLength(s, i)
  {
    var n := CharLength(s, i);
    if n == 1 {
      c := s[i];
    } else if n == 2 {
      c := TwoBytes(s[i], s[i + 1]);
    } else if n == 3 {
      c := ThreeBytes(s[i], s[i + 1], s[i + 2]);
    } else {
      c := FourBytes(s[i], s[i + 1], s[i + 2], s[i + 3]);
    }
  }

  lemma {:induction false} EncodedFrom(pre: seq<byte>, cs: seq<Scalar>)
    ensures Utf8From(pre + EncodeChars(cs), |pre|)
    decreases |cs|
  {
    var s := pre + EncodeChars(cs);
    if cs != [] {
      var first, rest := EncodeChar(cs[0]), EncodeChars(cs[1..]);
      Assoc(pre, first, rest);
      assert s[|pre|..|pre| + |first|] == first;
      CharOfScalar(s, |pre|, cs[0]);
      EncodedFrom(pre + first, cs[1..]);
    }
  }

  lemma {:induction false} DecodedFrom(s: seq<byte>, i: nat) returns (cs: seq<Scalar>)
    requires i <= |s| && Utf8From(s, i)
    ensures EncodeChars(cs) == s[i..]
    decreases |s| - i
  {
    if i == |s| {
      cs := [];
    } else {
      var c := ScalarOfChar(s, i);
      var n := CharLength(s, i);
      var rest := DecodedFrom(s, i + n);
      cs := [c] + rest;
      assert cs[1..] == rest;
      assert s[i..] == s[i..i + n] + s[i + n..];
    }
  }

  /** A byte string is accepted as text if and only if it encodes some sequence of scalar values. */
  lemma TextExactly(s: seq<byte>)
    ensures Utf8(s) <==> exists cs :: EncodeChars(cs) == s
  {
    if Utf8(s) {
      var cs := DecodedFrom(s, 0);
      assert s[0..] == s;
      assert EncodeChars(cs) == s;
    }
    if cs :| EncodeChars(cs) == s {
      EncodedFrom([], cs);
      NoTail(s);
    }
  }
}
