/** Bytes, big-endian integers, UTF-8 text and the cursor that the metadata decoder advances. */
module Wire {
  import opened Basics

  /** Why a decoder refuses its input. */
  datatype Error =
    | EmptyMetadata | ShortU32 | ShortU64 | ShortString | BadUtf8 | TruncatedFlag | BadFlag | TooManyArguments
    | UnknownKind | TrailingBytes | KindMismatch | BadFrameFlags | BadStatus
    | MetadataTooLong | PayloadTooLong | ShortHeader | ShortMetadata | ShortPayload

  /** A decoded value and what is left of the cursor. */
  datatype Read<+T> = Read(value: T, rest: seq<byte>)

  // ---------------------------------------------------------------- integers

  const U32_LIMIT := 0x1_0000_0000
  const U64_LIMIT := 0x1_0000_0000_0000_0000

  type u64 = x: int | 0 <= x < U64_LIMIT

  /** The low `k` bytes of `n`, most significant first. */
  function ToBe(n: nat, k: nat): (r: seq<byte>)
    ensures |r| == k
  {
    if k == 0 then [] else ToBe(n / 256, k - 1) + [n % 256]
  }

  function FromBe(b: seq<byte>): nat {
    if b == [] then 0 else FromBe(b[..|b| - 1]) * 256 + b[|b| - 1]
  }

  function Pow256(k: nat): nat {
    if k == 0 then 1 else 256 * Pow256(k - 1)
  }

  lemma {:induction false} ToFromBe(n: nat, k: nat)
    requires n < Pow256(k)
    ensures FromBe(ToBe(n, k)) == n
  {
    if k > 0 {
      ToFromBe(n / 256, k - 1);
      assert ToBe(n, k)[..k - 1] == ToBe(n / 256, k - 1);
    }
  }

  lemma {:induction false} FromToBe(b: seq<byte>)
    ensures FromBe(b) < Pow256(|b|) && ToBe(FromBe(b), |b|) == b
  {
    if b != [] {
      FromToBe(b[..|b| - 1]);
      assert FromBe(b) / 256 == FromBe(b[..|b| - 1]) && FromBe(b) % 256 == b[|b| - 1];
    }
  }

  /** `(n as u32).to_be_bytes()`: the conversion truncates. */
  function U32(n: nat): (r: seq<byte>)
    ensures |r| == 4
  {
    ToBe(n % U32_LIMIT, 4)
  }

  /** `(n as u64).to_be_bytes()`. */
  function U64(n: nat): (r: seq<byte>)
    ensures |r| == 8
  {
    ToBe(n % U64_LIMIT, 8)
  }

  lemma Powers()
    ensures Pow256(4) == U32_LIMIT && Pow256(8) == U64_LIMIT
  {
    assert Pow256(2) == 65536;
    assert Pow256(4) == 256 * 256 * Pow256(2);
    assert Pow256(6) == 256 * 256 * Pow256(4);
    assert Pow256(8) == 256 * 256 * Pow256(6);
  }

  // ---------------------------------------------------------------- text

  predicate Tail(b: byte) { 0x80 <= b <= 0xBF }

  /** Length of the well-formed UTF-8 character at position `i`, or 0 (section 4 of RFC 3629). */
  function CharLength(s: seq<byte>, i: nat): (n: nat)
    requires i < |s|
    ensures i + n <= |s| && n <= 4
  {
    var left := |s| - i;
    if s[i] <= 0x7F then 1
    else if 0xC2 <= s[i] <= 0xDF && left >= 2 && Tail(s[i + 1]) then 2
    else if left >= 3 && Tail(s[i + 2]) &&
            ((s[i] == 0xE0 && 0xA0 <= s[i + 1] <= 0xBF) || (0xE1 <= s[i] <= 0xEC && Tail(s[i + 1])) ||
             (s[i] == 0xED && 0x80 <= s[i + 1] <= 0x9F) || (0xEE <= s[i] <= 0xEF && Tail(s[i + 1]))) then 3
    else if left >= 4 && Tail(s[i + 2]) && Tail(s[i + 3]) &&
            ((s[i] == 0xF0 && 0x90 <= s[i + 1] <= 0xBF) || (0xF1 <= s[i] <= 0xF3 && Tail(s[i + 1])) ||
             (s[i] == 0xF4 && 0x80 <= s[i + 1] <= 0x8F)) then 4
    else 0
  }

  /** Well-formed characters from position `i` to the end. */
  predicate Utf8From(s: seq<byte>, i: nat)
    requires i <= |s|
    decreases |s| - i
  {
    i == |s| || (CharLength(s, i) > 0 && Utf8From(s, i + CharLength(s, i)))
  }

  predicate Utf8(s: seq<byte>) {
    Utf8From(s, 0)
  }

  /** The bytes of a Rust `String`. */
  type Text = s: seq<byte> | Utf8(s)

  // ---------------------------------------------------------------- the cursor

  function DecodeU32(c: seq<byte>): Result<Read<nat>, Error> {
    if |c| < 4 then Err(ShortU32) else Ok(Read(FromBe(c[..4]), c[4..]))
  }

  function DecodeU64(c: seq<byte>): (r: Result<Read<u64>, Error>) {
    if |c| < 8 then Err(ShortU64)
    else
      U64Bytes(c[..8]);
      Ok(Read(FromBe(c[..8]), c[8..]))
  }

  function EncodeStr(s: Text): (r: seq<byte>)
    ensures |r| == 4 + |s|
  {
    U32(|s|) + s
  }

  function DecodeStr(c: seq<byte>): Result<Read<Text>, Error> {
    var len :- DecodeU32(c);
    if |len.rest| < len.value then Err(ShortString)
    else if !Utf8(len.rest[..len.value]) then Err(BadUtf8)
    else Ok(Read(len.rest[..len.value], len.rest[len.value..]))
  }

  function EncodeStrs(ss: seq<Text>): seq<byte> {
    if ss == [] then [] else EncodeStrs(ss[..|ss| - 1]) + EncodeStr(ss[|ss| - 1])
  }

  /** `n` strings in a row. */
  function DecodeStrs(n: nat, c: seq<byte>): (r: Result<Read<seq<Text>>, Error>)
    ensures r.Ok? ==> |r.value.value| == n
  {
    if n == 0 then Ok(Read([], c))
    else
      var front :- DecodeStrs(n - 1, c);
      var last :- DecodeStr(front.rest);
      Ok(Read(front.value + [last.value], last.rest))
  }

  lemma Untruncated(n: nat, limit: nat)
    requires n < limit
    ensures n % limit == n
  {
  }

  lemma U32Bytes(b: seq<byte>)
    requires |b| == 4
    ensures FromBe(b) < U32_LIMIT && U32(FromBe(b)) == b
  {
    Powers();
    FromToBe(b);
    Untruncated(FromBe(b), U32_LIMIT);
  }

  lemma U64Bytes(b: seq<byte>)
    requires |b| == 8
    ensures FromBe(b) < U64_LIMIT && U64(FromBe(b)) == b
  {
    Powers();
    FromToBe(b);
    Untruncated(FromBe(b), U64_LIMIT);
  }

  lemma U32Value(n: nat)
    requires n < U32_LIMIT
    ensures FromBe(U32(n)) == n
  {
    Powers();
    Untruncated(n, U32_LIMIT);
    ToFromBe(n, 4);
  }

  lemma U64Value(n: u64)
    ensures FromBe(U64(n)) == n
  {
    Powers();
    Untruncated(n, U64_LIMIT);
    ToFromBe(n, 8);
  }

  lemma U32RoundTrip(n: nat, tail: seq<byte>)
    requires n < U32_LIMIT
    ensures DecodeU32(U32(n) + tail) == Ok(Read(n, tail))
  {
    U32Value(n);
    Cut(U32(n), tail);
  }

  lemma U32Canonical(c: seq<byte>)
    requires DecodeU32(c).Ok?
    ensures var d := DecodeU32(c).value; d.value < U32_LIMIT && c == U32(d.value) + d.rest
  {
    U32Bytes(c[..4]);
    Rejoin(c, 4);
  }

  lemma U64RoundTrip(n: u64, tail: seq<byte>)
    ensures DecodeU64(U64(n) + tail) == Ok(Read(n, tail))
  {
    U64Value(n);
    Cut(U64(n), tail);
  }

  lemma U64Canonical(c: seq<byte>)
    requires DecodeU64(c).Ok?
    ensures c == U64(DecodeU64(c).value.value) + DecodeU64(c).value.rest
  {
    U64Bytes(c[..8]);
    Rejoin(c, 8);
  }

  lemma StrRoundTrip(s: Text, tail: seq<byte>)
    requires |s| < U32_LIMIT
    ensures DecodeStr(EncodeStr(s) + tail) == Ok(Read(s, tail))
  {
    Assoc(U32(|s|), s, tail);
    U32RoundTrip(|s|, s + tail);
    Cut(s, tail);
  }

  lemma StrCanonical(c: seq<byte>)
    requires DecodeStr(c).Ok?
    ensures var d := DecodeStr(c).value; |d.value| < U32_LIMIT && c == EncodeStr(d.value) + d.rest
  {
    U32Canonical(c);
    var len := DecodeU32(c).value;
    Rejoin(len.rest, len.value);
    Assoc(U32(len.value), len.rest[..len.value], len.rest[len.value..]);
  }

  lemma {:induction false} StrsRoundTrip(ss: seq<Text>, tail: seq<byte>)
    requires forall i | 0 <= i < |ss| :: |ss[i]| < U32_LIMIT
    ensures DecodeStrs(|ss|, EncodeStrs(ss) + tail) == Ok(Read(ss, tail))
  {
    if ss == [] {
      NoTail(tail);
    } else {
      var front, last := ss[..|ss| - 1], ss[|ss| - 1];
      Assoc(EncodeStrs(front), EncodeStr(last), tail);
      StrsRoundTrip(front, EncodeStr(last) + tail);
      StrRoundTrip(last, tail);
      FrontAndLast(ss);
    }
  }

  lemma {:induction false} StrsCanonical(n: nat, c: seq<byte>)
    requires DecodeStrs(n, c).Ok?
    ensures var d := DecodeStrs(n, c).value; c == EncodeStrs(d.value) + d.rest
  {
    if n == 0 {
      NoTail(c);
    } else {
      StrsCanonical(n - 1, c);
      var front := DecodeStrs(n - 1, c).value;
      StrCanonical(front.rest);
      var last := DecodeStr(front.rest).value;
      Snoc(front.value, last.value);
      Assoc(EncodeStrs(front.value), EncodeStr(last.value), last.rest);
    }
  }

  /** Each string is shorter than the encoding of all of them. */
  lemma {:induction false} StrsLength(ss: seq<Text>, i: nat)
    requires i < |ss|
    ensures |ss[i]| <= |EncodeStrs(ss)|
  {
    if i < |ss| - 1 {
      StrsLength(ss[..|ss| - 1], i);
    }
  }

  /** `&mut &[u8]`: a cursor the decoder advances in place. */
  class Cursor {
    var data: seq<byte>

    constructor (bytes: seq<byte>)
      ensures data == bytes
    {
      data := bytes;
    }

    method ReadU32() returns (r: Result<nat, Error>)
      modifies this
      ensures match DecodeU32(old(data))
              case Ok(d) => r == Ok(d.value) && data == d.rest
              case Err(e) => r == Err(e)
    {
      if |data| < 4 {
        return Err(ShortU32);
      }
      var bytes := data[..4];
      data := data[4..];
      return Ok(FromBe(bytes));
    }

    method ReadU64() returns (r: Result<u64, Error>)
      modifies this
      ensures match DecodeU64(old(data))
              case Ok(d) => r == Ok(d.value) && data == d.rest
              case Err(e) => r == Err(e)
    {
      if |data| < 8 {
        return Err(ShortU64);
      }
      var bytes := data[..8];
      data := data[8..];
      U64Bytes(bytes);
      return Ok(FromBe(bytes));
    }

    method ReadStr() returns (r: Result<Text, Error>)
      modifies this
      ensures match DecodeStr(old(data))
              case Ok(d) => r == Ok(d.value) && data == d.rest
              case Err(e) => r == Err(e)
    {
      var len :- ReadU32();
      if |data| < len {
        return Err(ShortString);
      }
      var bytes := data[..len];
      data := data[len..];
      if !Utf8(bytes) {
        return Err(BadUtf8);
      }
      return Ok(bytes);
    }

    method ReadByte() returns (r: Result<byte, Error>)
      modifies this
      ensures if old(data) == [] then r == Err(TruncatedFlag) else r == Ok(old(data)[0]) && data == old(data)[1..]
    {
      if data == [] {
        return Err(TruncatedFlag);
      }
      r := Ok(data[0]);
      data := data[1..];
    }

    /** The loop over the FFI argument names. */
    method ReadStrs(count: nat) returns (r: Result<seq<Text>, Error>)
      modifies this
      ensures match DecodeStrs(count, old(data))
              case Ok(d) => r == Ok(d.value) && data == d.rest
              case Err(e) => r == Err(e)
    {
      var args: seq<Text> := [];
      for n := 0 to count
        invariant DecodeStrs(n, old(data)) == Ok(Read(args, data))
      {
        var arg := ReadStr();
        if arg.Err? {
          StrsFail(n + 1, count, old(data));
          return Err(arg.error);
        }
        args := args + [arg.value];
      }
      return Ok(args);
    }
  }

  /** A failed prefix of the loop fails the whole with the same error. */
  lemma {:induction false} StrsFail(n: nat, count: nat, c: seq<byte>)
    requires n <= count && DecodeStrs(n, c).Err?
    ensures DecodeStrs(count, c).Err? && DecodeStrs(count, c).error == DecodeStrs(n, c).error
  {
    if n < count {
      StrsFail(n, count - 1, c);
    }
  }
}
