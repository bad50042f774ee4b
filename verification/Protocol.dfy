/** The metadata codec and the two frame headers of the parent/child protocol. */
module Protocol {
  import opened Basics
  import opened Wire

  const MAX_METADATA: nat := 1024 * 1024
  const REQUEST_HEADER: nat := 14
  const RESPONSE_HEADER: nat := 10
  const MAX_ARGUMENTS: nat := 8

  datatype Signature = Signature(args: seq<Text>, ret: Text)

  datatype Metadata =
    | Python
    | Wasm(module_: Text, function_: Text, memoryLimit: u64, timeoutMs: u64)
    | Dylib(plugin: Text, symbol: Text, signature: Option<Signature>)
    | RegisterWasm(module_: Text)
    | RegisterDylib(plugin: Text, path: Text, freeFn: Option<Text>)
    | UnregisterDylib(plugin: Text)

  function Kind(m: Metadata): byte {
    match m
    case Python => 0
    case Wasm(_, _, _, _) => 1
    case Dylib(_, _, _) => 2
    case RegisterWasm(_) => 10
    case RegisterDylib(_, _, _) => 11
    case UnregisterDylib(_) => 12
  }

  predicate KnownKind(kind: byte) {
    kind == 0 || kind == 1 || kind == 2 || kind == 10 || kind == 11 || kind == 12
  }

  // ---------------------------------------------------------------- encoding

  function EncodeSignature(sig: Option<Signature>): seq<byte> {
    match sig
    case None => [0]
    case Some(s) => [1] + U32(|s.args|) + EncodeStrs(s.args) + EncodeStr(s.ret)
  }

  function EncodeFree(free: Option<Text>): seq<byte> {
    match free
    case None => [0]
    case Some(s) => [1] + EncodeStr(s)
  }

  function Body(m: Metadata): seq<byte> {
    match m
    case Python => []
    case Wasm(module_, function_, memory, timeout) =>
      EncodeStr(module_) + EncodeStr(function_) + U64(memory) + U64(timeout)
    case Dylib(plugin, symbol, signature) => EncodeStr(plugin) + EncodeStr(symbol) + EncodeSignature(signature)
    case RegisterWasm(module_) => EncodeStr(module_)
    case RegisterDylib(plugin, path, free) => EncodeStr(plugin) + EncodeStr(path) + EncodeFree(free)
    case UnregisterDylib(plugin) => EncodeStr(plugin)
  }

  function Encode(m: Metadata): seq<byte> {
    [Kind(m)] + Body(m)
  }

  /** The arm for a dynamic-library call pushes its optional signature last, argument by argument. */
  method PushSignature(buf: seq<byte>, signature: Option<Signature>) returns (r: seq<byte>)
    ensures r == buf + EncodeSignature(signature)
  {
    match signature {
      case None => r := buf + [0];
      case Some(sig) =>
        r := buf + [1];
        r := r + U32(|sig.args|);
        ghost var front := r;
        for i := 0 to |sig.args|
          invariant r == front + EncodeStrs(sig.args[..i])
        {
          NextStr(front, sig.args, i);
          r := r + EncodeStr(sig.args[i]);
        }
        assert sig.args[..|sig.args|] == sig.args;
        r := r + EncodeStr(sig.ret);
        Concat4(buf, [1], U32(|sig.args|), EncodeStrs(sig.args), EncodeStr(sig.ret));
    }
  }

  lemma NextStr(front: seq<byte>, ss: seq<Text>, i: nat)
    requires i < |ss|
    ensures front + EncodeStrs(ss[..i]) + EncodeStr(ss[i]) == front + EncodeStrs(ss[..i + 1])
  {
    assert ss[..i + 1][..i] == ss[..i];
  }

  /** `RequestMetadata::encode`: pushes into a growing buffer. */
  method EncodeMetadata(m: Metadata) returns (buf: seq<byte>)
    ensures buf == Encode(m)
  {
    buf := [Kind(m)];
    match m {
      case Python =>
      case Wasm(module_, function_, memory, timeout) =>
        buf := buf + EncodeStr(module_);
        buf := buf + EncodeStr(function_);
        buf := buf + U64(memory);
        buf := buf + U64(timeout);
        Concat4([1], EncodeStr(module_), EncodeStr(function_), U64(memory), U64(timeout));
      case Dylib(plugin, symbol, signature) =>
        buf := buf + EncodeStr(plugin);
        buf := buf + EncodeStr(symbol);
        buf := PushSignature(buf, signature);
        Concat3([2], EncodeStr(plugin), EncodeStr(symbol), EncodeSignature(signature));
      case RegisterWasm(module_) => buf := buf + EncodeStr(module_);
      case RegisterDylib(plugin, path, free) =>
        buf := buf + EncodeStr(plugin);
        buf := buf + EncodeStr(path);
        Concat3([11], EncodeStr(plugin), EncodeStr(path), EncodeFree(free));
        match free {
          case None => buf := buf + [0];
          case Some(name) =>
            buf := buf + [1] + EncodeStr(name);
        }
      case UnregisterDylib(plugin) => buf := buf + EncodeStr(plugin);
    }
  }

  lemma Concat3(front: seq<byte>, a: seq<byte>, b: seq<byte>, c: seq<byte>)
    ensures front + (a + b + c) == front + a + b + c && a + b + c == a + (b + c)
  {
    Assoc(a, b, c);
    Assoc(front, a, b + c);
    Assoc(front + a, b, c);
  }

  lemma Concat4(front: seq<byte>, a: seq<byte>, b: seq<byte>, c: seq<byte>, d: seq<byte>)
    ensures front + (a + b + c + d) == front + a + b + c + d && a + b + c + d == a + (b + (c + d))
  {
    Concat3(front, a, b, c + d);
    Assoc(a + b, c, d);
    Assoc(front + a + b, c, d);
  }

  // ---------------------------------------------------------------- decoding

  function DecodeSignature(c: seq<byte>): Result<Read<Option<Signature>>, Error> {
    if c == [] then Err(TruncatedFlag)
    else if c[0] == 0 then Ok(Read(None, c[1..]))
    else if c[0] != 1 then Err(BadFlag)
    else
      var count :- DecodeU32(c[1..]);
      if count.value > MAX_ARGUMENTS then Err(TooManyArguments)
      else
        var args :- DecodeStrs(count.value, count.rest);
        var ret :- DecodeStr(args.rest);
        Ok(Read(Some(Signature(args.value, ret.value)), ret.rest))
  }

  function DecodeFree(c: seq<byte>): Result<Read<Option<Text>>, Error> {
    if c == [] then Err(TruncatedFlag)
    else if c[0] == 0 then Ok(Read(None, c[1..]))
    else if c[0] != 1 then Err(BadFlag)
    else
      var name :- DecodeStr(c[1..]);
      Ok(Read(Some(name.value), name.rest))
  }

  /** The arm of the decoder's match for `kind`. */
  function DecodeBody(kind: byte, c: seq<byte>): Result<Read<Metadata>, Error> {
    if kind == 0 then Ok(Read(Python, c))
    else if kind == 1 then
      var module_ :- DecodeStr(c);
      var function_ :- DecodeStr(module_.rest);
      var memory :- DecodeU64(function_.rest);
      var timeout :- DecodeU64(memory.rest);
      Ok(Read(Wasm(module_.value, function_.value, memory.value, timeout.value), timeout.rest))
    else if kind == 2 then
      var plugin :- DecodeStr(c);
      var symbol :- DecodeStr(plugin.rest);
      var sig :- DecodeSignature(symbol.rest);
      Ok(Read(Dylib(plugin.value, symbol.value, sig.value), sig.rest))
    else if kind == 10 then
      var module_ :- DecodeStr(c);
      Ok(Read(RegisterWasm(module_.value), module_.rest))
    else if kind == 11 then
      var plugin :- DecodeStr(c);
      var path :- DecodeStr(plugin.rest);
      var free :- DecodeFree(path.rest);
      Ok(Read(RegisterDylib(plugin.value, path.value, free.value), free.rest))
    else if kind == 12 then
      var plugin :- DecodeStr(c);
      Ok(Read(UnregisterDylib(plugin.value), plugin.rest))
    else Err(UnknownKind)
  }

  function Decode(buf: seq<byte>): Result<Metadata, Error> {
    if buf == [] then Err(EmptyMetadata)
    else
      var d :- DecodeBody(buf[0], buf[1..]);
      if d.rest != [] then Err(TrailingBytes) else Ok(d.value)
  }

  method ReadSignature(cursor: Cursor) returns (r: Result<Option<Signature>, Error>)
    modifies cursor
    ensures match DecodeSignature(old(cursor.data))
            case Ok(d) => r == Ok(d.value) && cursor.data == d.rest
            case Err(e) => r == Err(e)
  {
    var flag :- cursor.ReadByte();
    if flag == 0 {
      return Ok(None);
    } else if flag != 1 {
      return Err(BadFlag);
    }
    var count :- cursor.ReadU32();
    if count > MAX_ARGUMENTS {
      return Err(TooManyArguments);
    }
    var args :- cursor.ReadStrs(count);
    var ret :- cursor.ReadStr();
    return Ok(Some(Signature(args, ret)));
  }

  method ReadFree(cursor: Cursor) returns (r: Result<Option<Text>, Error>)
    modifies cursor
    ensures match DecodeFree(old(cursor.data))
            case Ok(d) => r == Ok(d.value) && cursor.data == d.rest
            case Err(e) => r == Err(e)
  {
    var flag :- cursor.ReadByte();
    if flag == 0 {
      return Ok(None);
    } else if flag != 1 {
      return Err(BadFlag);
    }
    var name :- cursor.ReadStr();
    return Ok(Some(name));
  }

  method ReadBody(kind: byte, cursor: Cursor) returns (r: Result<Metadata, Error>)
    modifies cursor
    ensures match DecodeBody(kind, old(cursor.data))
            case Ok(d) => r == Ok(d.value) && cursor.data == d.rest
            case Err(e) => r == Err(e)
  {
    match kind {
      case 0 => return Ok(Python);
      case 1 =>
        var module_ :- cursor.ReadStr();
        var function_ :- cursor.ReadStr();
        var memory :- cursor.ReadU64();
        var timeout :- cursor.ReadU64();
        return Ok(Wasm(module_, function_, memory, timeout));
      case 2 =>
        var plugin :- cursor.ReadStr();
        var symbol :- cursor.ReadStr();
        var sig :- ReadSignature(cursor);
        return Ok(Dylib(plugin, symbol, sig));
      case 10 =>
        var module_ :- cursor.ReadStr();
        return Ok(RegisterWasm(module_));
      case 11 =>
        var plugin :- cursor.ReadStr();
        var path :- cursor.ReadStr();
        var free :- ReadFree(cursor);
        return Ok(RegisterDylib(plugin, path, free));
      case 12 =>
        var plugin :- cursor.ReadStr();
        return Ok(UnregisterDylib(plugin));
      case _ => return Err(UnknownKind);
    }
  }

  /** `RequestMetadata::decode`: advances a cursor in place and refuses leftovers. */
  method DecodeMetadata(buf: seq<byte>) returns (r: Result<Metadata, Error>)
    ensures r == Decode(buf)
  {
    if buf == [] {
      return Err(EmptyMetadata);
    }
    var cursor := new Cursor(buf[1..]);
    var m :- ReadBody(buf[0], cursor);
    if cursor.data != [] {
      return Err(TrailingBytes);
    }
    return Ok(m);
  }

  /** The kind bytes on the wire, and what stands behind each: length-prefixed strings, numbers and flags. */
  lemma WireLayout(a: Text, b: Text, memory: u64, timeout: u64)
    ensures Encode(Python) == [0]
    ensures Encode(Wasm(a, b, memory, timeout)) == [1] + (EncodeStr(a) + EncodeStr(b) + U64(memory) + U64(timeout))
    ensures Encode(Dylib(a, b, None)) == [2] + (EncodeStr(a) + EncodeStr(b) + [0])
    ensures Encode(RegisterWasm(a)) == [10] + EncodeStr(a)
    ensures Encode(RegisterDylib(a, b, None)) == [11] + (EncodeStr(a) + EncodeStr(b) + [0])
    ensures Encode(UnregisterDylib(a)) == [12] + EncodeStr(a)
    ensures U32(0x01020304) == [1, 2, 3, 4] && U64(0x0102030405060708) == [1, 2, 3, 4, 5, 6, 7, 8]
  {
    NoTail([0]);
    BigEndian();
  }

  lemma BigEndian()
    ensures U32(0x01020304) == [1, 2, 3, 4] && U64(0x0102030405060708) == [1, 2, 3, 4, 5, 6, 7, 8]
  {
    assert ToBe(0x01020304, 4) == ToBe(0x010203, 3) + [4];
    assert ToBe(0x010203, 3) == ToBe(0x0102, 2) + [3];
    assert ToBe(0x0102, 2) == ToBe(1, 1) + [2];
    assert ToBe(0x0102030405060708, 8) == ToBe(0x01020304050607, 7) + [8];
    assert ToBe(0x01020304050607, 7) == ToBe(0x010203040506, 6) + [7];
    assert ToBe(0x010203040506, 6) == ToBe(0x0102030405, 5) + [6];
    assert ToBe(0x0102030405, 5) == ToBe(0x01020304, 4) + [5];
  }

  // ---------------------------------------------------------------- the codec is a bijection

  /** What the decoder's argument limit admits. The encoder has no such limit. */
  predicate FewArguments(m: Metadata) {
    m.Dylib? && m.signature.Some? ==> |m.signature.value.args| <= MAX_ARGUMENTS
  }

  lemma SignatureRoundTrip(sig: Option<Signature>)
    requires |EncodeSignature(sig)| <= MAX_METADATA
    ensures DecodeSignature(EncodeSignature(sig)) ==
            if sig.Some? && |sig.value.args| > MAX_ARGUMENTS then Err(TooManyArguments) else Ok(Read(sig, []))
  {
    match sig {
      case None => assert EncodeSignature(sig)[1..] == [];
      case Some(s) => PresentRoundTrip(s);
    }
  }

  lemma PresentRoundTrip(s: Signature)
    requires |EncodeSignature(Some(s))| <= MAX_METADATA
    ensures DecodeSignature(EncodeSignature(Some(s))) ==
            if |s.args| > MAX_ARGUMENTS then Err(TooManyArguments) else Ok(Read(Some(s), []))
  {
    var c, names, ret := EncodeSignature(Some(s)), EncodeStrs(s.args), EncodeStr(s.ret);
    StrsCount(s.args);
    Concat3([1], U32(|s.args|), names, ret);
    assert c == [1] + (U32(|s.args|) + (names + ret));
    assert c[0] == 1 && c[1..] == U32(|s.args|) + (names + ret);
    U32RoundTrip(|s.args|, names + ret);
    if |s.args| <= MAX_ARGUMENTS {
      forall i | 0 <= i < |s.args| ensures |s.args[i]| < U32_LIMIT {
        StrsLength(s.args, i);
      }
      StrsRoundTrip(s.args, ret);
      StrRoundTrip(s.ret, []);
      NoTail(ret);
    }
  }

  /** Every string takes at least its four length bytes. */
  lemma {:induction false} StrsCount(ss: seq<Text>)
    ensures |ss| <= |EncodeStrs(ss)|
  {
    if ss != [] {
      StrsCount(ss[..|ss| - 1]);
    }
  }

  lemma FreeRoundTrip(free: Option<Text>)
    requires |EncodeFree(free)| <= MAX_METADATA
    ensures DecodeFree(EncodeFree(free)) == Ok(Read(free, []))
  {
    if free.Some? {
      assert EncodeFree(free)[1..] == EncodeStr(free.value);
      LastStr(free.value);
    } else {
      assert EncodeFree(free)[1..] == [];
    }
  }

  lemma LastStr(s: Text)
    requires |s| < U32_LIMIT
    ensures DecodeStr(EncodeStr(s)) == Ok(Read(s, []))
  {
    NoTail(EncodeStr(s));
    StrRoundTrip(s, []);
  }

  /** The two leading strings of three of the arms. */
  lemma TwoStrs(a: Text, b: Text, tail: seq<byte>)
    requires |a| < U32_LIMIT && |b| < U32_LIMIT
    ensures DecodeStr(EncodeStr(a) + EncodeStr(b) + tail) == Ok(Read(a, EncodeStr(b) + tail))
    ensures DecodeStr(EncodeStr(b) + tail) == Ok(Read(b, tail))
  {
    FirstStr(a, EncodeStr(b), tail);
    StrRoundTrip(b, tail);
  }

  lemma FirstStr(a: Text, second: seq<byte>, tail: seq<byte>)
    requires |a| < U32_LIMIT
    ensures DecodeStr(EncodeStr(a) + second + tail) == Ok(Read(a, second + tail))
  {
    Assoc(EncodeStr(a), second, tail);
    StrRoundTrip(a, second + tail);
  }

  lemma WasmRoundTrip(m: Metadata)
    requires m.Wasm? && |Encode(m)| <= MAX_METADATA
    ensures DecodeBody(1, Body(m)) == Ok(Read(m, []))
  {
    var limits := U64(m.memoryLimit) + U64(m.timeoutMs);
    Concat4([], EncodeStr(m.module_), EncodeStr(m.function_), U64(m.memoryLimit), U64(m.timeoutMs));
    assert Body(m) == EncodeStr(m.module_) + EncodeStr(m.function_) + limits;
    TwoStrs(m.module_, m.function_, limits);
    U64RoundTrip(m.memoryLimit, U64(m.timeoutMs));
    U64RoundTrip(m.timeoutMs, []);
    NoTail(U64(m.timeoutMs));
  }

  lemma DylibRoundTrip(m: Metadata)
    requires m.Dylib? && |Encode(m)| <= MAX_METADATA
    ensures DecodeBody(2, Body(m)) == if FewArguments(m) then Ok(Read(m, [])) else Err(TooManyArguments)
  {
    TwoStrs(m.plugin, m.symbol, EncodeSignature(m.signature));
    SignatureRoundTrip(m.signature);
  }

  lemma RegistrationRoundTrip(m: Metadata)
    requires m.RegisterDylib? && |Encode(m)| <= MAX_METADATA
    ensures DecodeBody(11, Body(m)) == Ok(Read(m, []))
  {
    TwoStrs(m.plugin, m.path, EncodeFree(m.freeFn));
    FreeRoundTrip(m.freeFn);
  }

  lemma BodyRoundTrip(m: Metadata)
    requires |Encode(m)| <= MAX_METADATA
    ensures DecodeBody(Kind(m), Body(m)) == if FewArguments(m) then Ok(Read(m, [])) else Err(TooManyArguments)
  {
    match m {
      case Python =>
      case Wasm(_, _, _, _) => WasmRoundTrip(m);
      case Dylib(_, _, _) => DylibRoundTrip(m);
      case RegisterWasm(module_) => LastStr(module_);
      case RegisterDylib(_, _, _) => RegistrationRoundTrip(m);
      case UnregisterDylib(plugin) => LastStr(plugin);
    }
  }

  /** Whatever the 1 MiB check lets through decodes to itself, exactly when it has at most 8 FFI arguments. */
  lemma RoundTrip(m: Metadata)
    requires |Encode(m)| <= MAX_METADATA
    ensures Decode(Encode(m)) == if FewArguments(m) then Ok(m) else Err(TooManyArguments)
  {
    Cut([Kind(m)], Body(m));
    BodyRoundTrip(m);
  }

  /** The encoder and `write_request` accept nine arguments, and the decoder then refuses them. */
  lemma NineArguments() returns (m: Metadata)
    ensures m.Dylib? && m.signature.Some? && |m.signature.value.args| == 9
    ensures |Encode(m)| <= MAX_METADATA && Decode(Encode(m)) == Err(TooManyArguments)
  {
    var none: seq<Text> := seq(9, _ => []);
    m := Dylib([], [], Some(Signature(none, [])));
    EmptyStrs(none);
    RoundTrip(m);
  }

  /** Eight arguments are accepted by both sides. */
  lemma EightArguments() returns (m: Metadata)
    ensures m.Dylib? && m.signature.Some? && |m.signature.value.args| == 8
    ensures |Encode(m)| <= MAX_METADATA && Decode(Encode(m)) == Ok(m)
  {
    var none: seq<Text> := seq(8, _ => []);
    m := Dylib([], [], Some(Signature(none, [])));
    EmptyStrs(none);
    RoundTrip(m);
  }

  lemma {:induction false} EmptyStrs(ss: seq<Text>)
    requires forall i | 0 <= i < |ss| :: ss[i] == []
    ensures |EncodeStrs(ss)| == 4 * |ss|
  {
    if ss != [] {
      EmptyStrs(ss[..|ss| - 1]);
    }
  }

  lemma SignatureCanonical(c: seq<byte>)
    requires DecodeSignature(c).Ok?
    ensures var d := DecodeSignature(c).value;
            c == EncodeSignature(d.value) + d.rest && (d.value.Some? ==> |d.value.value.args| <= MAX_ARGUMENTS)
  {
    FirstAndRest(c);
    if c[0] == 1 {
      U32Canonical(c[1..]);
      var count := DecodeU32(c[1..]).value;
      StrsCanonical(count.value, count.rest);
      var args := DecodeStrs(count.value, count.rest).value;
      StrCanonical(args.rest);
      var ret := DecodeStr(args.rest).value;
      Concat4([1], U32(count.value), EncodeStrs(args.value), EncodeStr(ret.value), ret.rest);
    }
  }

  lemma FreeCanonical(c: seq<byte>)
    requires DecodeFree(c).Ok?
    ensures c == EncodeFree(DecodeFree(c).value.value) + DecodeFree(c).value.rest
  {
    FirstAndRest(c);
    if c[0] == 1 {
      StrCanonical(c[1..]);
    }
  }

  lemma TwoCanonical(c: seq<byte>)
    requires DecodeStr(c).Ok? && DecodeStr(DecodeStr(c).value.rest).Ok?
    ensures var a := DecodeStr(c).value; var b := DecodeStr(a.rest).value;
            c == EncodeStr(a.value) + EncodeStr(b.value) + b.rest
  {
    StrCanonical(c);
    StrCanonical(DecodeStr(c).value.rest);
  }

  lemma WasmCanonical(c: seq<byte>)
    requires DecodeBody(1, c).Ok?
    ensures var d := DecodeBody(1, c).value; d.value.Wasm? && c == Body(d.value) + d.rest
  {
    TwoCanonical(c);
    var a := DecodeStr(c).value;
    var b := DecodeStr(a.rest).value;
    U64Canonical(b.rest);
    var memory := DecodeU64(b.rest).value;
    U64Canonical(memory.rest);
    var timeout := DecodeU64(memory.rest).value;
    Concat3(EncodeStr(a.value) + EncodeStr(b.value), U64(memory.value), U64(timeout.value), timeout.rest);
  }

  lemma DylibCanonical(c: seq<byte>)
    requires DecodeBody(2, c).Ok?
    ensures var d := DecodeBody(2, c).value; d.value.Dylib? && c == Body(d.value) + d.rest && FewArguments(d.value)
  {
    TwoCanonical(c);
    var a := DecodeStr(c).value;
    var b := DecodeStr(a.rest).value;
    SignatureCanonical(b.rest);
    var sig := DecodeSignature(b.rest).value;
    Concat3([], EncodeStr(a.value) + EncodeStr(b.value), EncodeSignature(sig.value), sig.rest);
  }

  lemma RegistrationCanonical(c: seq<byte>)
    requires DecodeBody(11, c).Ok?
    ensures var d := DecodeBody(11, c).value; d.value.RegisterDylib? && c == Body(d.value) + d.rest
  {
    TwoCanonical(c);
    var a := DecodeStr(c).value;
    var b := DecodeStr(a.rest).value;
    FreeCanonical(b.rest);
    var free := DecodeFree(b.rest).value;
    Concat3([], EncodeStr(a.value) + EncodeStr(b.value), EncodeFree(free.value), free.rest);
  }

  lemma BodyCanonical(kind: byte, c: seq<byte>)
    requires DecodeBody(kind, c).Ok?
    ensures var d := DecodeBody(kind, c).value;
            Kind(d.value) == kind && c == Body(d.value) + d.rest && FewArguments(d.value)
  {
    if kind == 1 {
      WasmCanonical(c);
    } else if kind == 2 {
      DylibCanonical(c);
    } else if kind == 11 {
      RegistrationCanonical(c);
    } else if kind != 0 {
      StrCanonical(c);
    }
  }

  /** Only one byte string decodes to a given value: the one `encode` writes. */
  lemma Canonical(buf: seq<byte>)
    requires Decode(buf).Ok?
    ensures Encode(Decode(buf).value) == buf && FewArguments(Decode(buf).value)
  {
    BodyCanonical(buf[0], buf[1..]);
    var d := DecodeBody(buf[0], buf[1..]).value;
    NoTail(Body(d.value));
    FirstAndRest(buf);
  }

  // ---------------------------------------------------------------- headers

  function DecodeFlags(raw: byte): Result<bool, Error> {
    if raw <= 1 then Ok(raw == 1) else Err(BadFrameFlags)
  }

  function Bit(b: bool): byte {
    if b then 1 else 0
  }

  datatype RequestHeader = RequestHeader(kind: byte, shared: bool, metadata: nat, payload: nat)

  datatype ResponseHeader = ResponseHeader(success: bool, shared: bool, payload: nat)

  /** `RequestHeader::new`, with `limit` the configured largest payload. */
  function CheckRequest(limit: u64, h: RequestHeader): Result<RequestHeader, Error> {
    if !KnownKind(h.kind) then Err(UnknownKind)
    else if h.metadata > MAX_METADATA then Err(MetadataTooLong)
    else if h.payload > limit then Err(PayloadTooLong)
    else Ok(h)
  }

  function RequestHeaderBytes(h: RequestHeader): (r: seq<byte>)
    ensures |r| == REQUEST_HEADER
  {
    [h.kind, Bit(h.shared)] + U32(h.metadata) + U64(h.payload)
  }

  function DecodeRequestHeader(limit: u64, b: seq<byte>): Result<RequestHeader, Error>
    requires |b| == REQUEST_HEADER
  {
    var shared :- DecodeFlags(b[1]);
    CheckRequest(limit, RequestHeader(b[0], shared, FromBe(b[2..6]), FromBe(b[6..14])))
  }

  function CheckResponse(limit: u64, h: ResponseHeader): Result<ResponseHeader, Error> {
    if h.payload > limit then Err(PayloadTooLong) else Ok(h)
  }

  function ResponseHeaderBytes(h: ResponseHeader): (r: seq<byte>)
    ensures |r| == RESPONSE_HEADER
  {
    [Bit(h.success), Bit(h.shared)] + U64(h.payload)
  }

  function DecodeResponseHeader(limit: u64, b: seq<byte>): Result<ResponseHeader, Error>
    requires |b| == RESPONSE_HEADER
  {
    if b[0] > 1 then Err(BadStatus)
    else
      var shared :- DecodeFlags(b[1]);
      CheckResponse(limit, ResponseHeader(b[0] == 1, shared, FromBe(b[2..10])))
  }

  lemma RequestHeaderRoundTrip(limit: u64, h: RequestHeader)
    requires CheckRequest(limit, h).Ok?
    ensures DecodeRequestHeader(limit, RequestHeaderBytes(h)) == Ok(h)
  {
    var b := RequestHeaderBytes(h);
    assert b[2..6] == U32(h.metadata) && b[6..14] == U64(h.payload);
    U32Value(h.metadata);
    U64Value(h.payload);
  }

  lemma RequestHeaderCanonical(limit: u64, b: seq<byte>)
    requires |b| == REQUEST_HEADER && DecodeRequestHeader(limit, b).Ok?
    ensures var h := DecodeRequestHeader(limit, b).value; RequestHeaderBytes(h) == b && CheckRequest(limit, h).Ok?
  {
    U32Bytes(b[2..6]);
    U64Bytes(b[6..14]);
    assert b == [b[0], b[1]] + b[2..6] + b[6..14];
  }

  lemma ResponseHeaderRoundTrip(limit: u64, h: ResponseHeader)
    requires CheckResponse(limit, h).Ok?
    ensures DecodeResponseHeader(limit, ResponseHeaderBytes(h)) == Ok(h)
  {
    var b := ResponseHeaderBytes(h);
    assert b[2..10] == U64(h.payload);
    U64Value(h.payload);
  }

  lemma ResponseHeaderCanonical(limit: u64, b: seq<byte>)
    requires |b| == RESPONSE_HEADER && DecodeResponseHeader(limit, b).Ok?
    ensures var h := DecodeResponseHeader(limit, b).value; ResponseHeaderBytes(h) == b && CheckResponse(limit, h).Ok?
  {
    U64Bytes(b[2..10]);
    assert b == [b[0], b[1]] + b[2..10];
  }
}
