/** FFI signatures, their packed codes, and the thunks they resolve to. 64-bit targets. */
module Ffi {
  import opened Basics

  datatype Error =
    | TooManyArguments(count: nat) | UnsupportedType(name: string) | NotRegistered
    | LengthMismatch(expected: nat, received: nat) | BrokenMetadata | SignatureMismatch
    | NoSymbol | UnsupportedSignature | ShortPayload

  const WORD: nat := 8
  const MAX_ARGUMENTS: nat := 8

  datatype FfiType = I32 | U32 | I64 | U64 | Isize | Usize | F32 | F64

  function Parse(name: string): Result<FfiType, Error> {
    if name == "i32" then Ok(I32)
    else if name == "u32" then Ok(U32)
    else if name == "i64" then Ok(I64)
    else if name == "u64" then Ok(U64)
    else if name == "isize" then Ok(Isize)
    else if name == "usize" then Ok(Usize)
    else if name == "f32" then Ok(F32)
    else if name == "f64" then Ok(F64)
    else Err(UnsupportedType(name))
  }

  function ByteWidth(t: FfiType): nat {
    match t
    case I32 => 4
    case U32 => 4
    case F32 => 4
    case I64 => 8
    case U64 => 8
    case F64 => 8
    case Isize => WORD
    case Usize => WORD
  }

  function TypeCode(t: FfiType): (c: nat)
    ensures c < 8
  {
    match t
    case I32 => 0
    case U32 => 1
    case I64 => 2
    case U64 => 3
    case Isize => 4
    case Usize => 5
    case F32 => 6
    case F64 => 7
  }

  function Name(t: FfiType): string {
    match t
    case I32 => "i32"
    case U32 => "u32"
    case I64 => "i64"
    case U64 => "u64"
    case Isize => "isize"
    case Usize => "usize"
    case F32 => "f32"
    case F64 => "f64"
  }

  /** Exactly the names of the types parse, each to its type. */
  lemma ParseInvertsName(name: string, t: FfiType)
    ensures Parse(name) == Ok(t) <==> name == Name(t)
    ensures Parse(name).Err? <==> forall u :: name != Name(u)
  {
    if Parse(name).Ok? {
      assert name == Name(Parse(name).value);
    }
  }

  /** The width of a type is the number of bits in its name, and that of a machine word where it has none. */
  lemma WidthByName(t: FfiType)
    ensures ByteWidth(t) == (if Name(t)[|Name(t)| - 2..] == "32" then 4 else if Name(t)[|Name(t)| - 2..] == "64" then 8 else WORD)
  {
  }

  /** No two names parse to the same type. */
  lemma ParseInjective(a: string, b: string)
    requires Parse(a).Ok? && Parse(a) == Parse(b)
    ensures a == b
  {
  }

  // ---------------------------------------------------------------- 32-bit words

  /** A `u32`, least significant bit first. */
  type Word = w: seq<bool> | |w| == 32 witness seq(32, _ => false)

  function Bit(n: nat, j: nat): bool {
    if j == 0 then n % 2 == 1 else Bit(n / 2, j - 1)
  }

  /** `n as u32`. */
  function ToWord(n: nat): Word {
    seq(32, j requires 0 <= j => Bit(n, j))
  }

  function Or(a: Word, b: Word): Word {
    seq(32, j requires 0 <= j < 32 => a[j] || b[j])
  }

  /** `a & (2^n - 1)`. */
  function Low(a: Word, n: nat): Word {
    seq(32, j requires 0 <= j < 32 => j < n && a[j])
  }

  /** `a << k`: bits pushed past the top are lost. */
  function ShiftLeft(a: Word, k: nat): Word {
    seq(32, j requires 0 <= j < 32 => j >= k && a[j - k])
  }

  lemma SmallBits(n: nat)
    requires n < 16
    ensures n == (if Bit(n, 0) then 1 else 0) + (if Bit(n, 1) then 2 else 0) + (if Bit(n, 2) then 4 else 0) + (if Bit(n, 3) then 8 else 0)
  {
    assert Bit(n, 1) == Bit(n / 2, 0);
    assert Bit(n, 2) == Bit(n / 2, 1) == Bit(n / 2 / 2, 0);
    assert Bit(n, 3) == Bit(n / 2, 2) == Bit(n / 2 / 2, 1) == Bit(n / 2 / 2 / 2, 0);
  }

  lemma SmallBitsInjective(m: nat, n: nat)
    requires m < 16 && n < 16 && forall j | 0 <= j < 4 :: Bit(m, j) == Bit(n, j)
    ensures m == n
  {
    SmallBits(m);
    SmallBits(n);
  }

  // ---------------------------------------------------------------- packed codes

  /** The argument count in the low four bits, the return type in the next three. */
  function Head(count: nat, ret: FfiType): Word {
    Or(Low(ToWord(count), 4), ShiftLeft(Low(ToWord(TypeCode(ret)), 3), 4))
  }

  /** One turn of the packing loop. */
  function Put(code: Word, t: FfiType, i: nat): Word {
    Or(code, ShiftLeft(Low(ToWord(TypeCode(t)), 3), 7 + i * 3))
  }

  /** The code once the arguments `types` are in, of a signature that will have `count` of them. */
  function Partial(types: seq<FfiType>, count: nat, ret: FfiType): Word {
    if types == [] then Head(count, ret)
    else Put(Partial(types[..|types| - 1], count, ret), types[|types| - 1], |types| - 1)
  }

  /** `SignatureCode::new` on a signature it accepts. */
  function SignatureCode(args: seq<FfiType>, ret: FfiType): Word
    requires |args| <= MAX_ARGUMENTS
  {
    Partial(args, |args|, ret)
  }

  /** The seven low bits stay those of the head, and nothing is set beyond the arguments already in. */
  lemma {:induction false} PartialShape(types: seq<FfiType>, count: nat, ret: FfiType)
    requires |types| <= MAX_ARGUMENTS
    ensures forall j | 0 <= j < 7 :: Partial(types, count, ret)[j] == Head(count, ret)[j]
    ensures forall j | 7 + |types| * 3 <= j < 32 :: !Partial(types, count, ret)[j]
  {
    if types != [] {
      PartialShape(types[..|types| - 1], count, ret);
    }
  }

  /** Argument `i` is found in its three bits. */
  lemma {:induction false} ArgumentBits(types: seq<FfiType>, count: nat, ret: FfiType, i: nat, j: nat)
    requires i < |types| <= MAX_ARGUMENTS && j < 3
    ensures Partial(types, count, ret)[7 + i * 3 + j] == Bit(TypeCode(types[i]), j)
  {
    var k := |types| - 1;
    PartialShape(types[..k], count, ret);
    if i < k {
      ArgumentBits(types[..k], count, ret, i, j);
    }
  }

  lemma HeadBits(count: nat, ret: FfiType, j: nat)
    ensures j < 4 ==> Head(count, ret)[j] == Bit(count, j)
    ensures j < 3 ==> Head(count, ret)[4 + j] == Bit(TypeCode(ret), j)
  {
  }

  /** Three bits tell the types apart. */
  lemma TypeBitsInjective(t: FfiType, u: FfiType)
    requires forall j | 0 <= j < 3 :: Bit(TypeCode(t), j) == Bit(TypeCode(u), j)
    ensures t == u
  {
    SmallBits(TypeCode(t));
    SmallBits(TypeCode(u));
  }

  lemma HeadInjective(m: nat, r: FfiType, n: nat, q: FfiType)
    requires m <= MAX_ARGUMENTS && n <= MAX_ARGUMENTS && forall j | 0 <= j < 7 :: Head(m, r)[j] == Head(n, q)[j]
    ensures m == n && r == q
  {
    forall j | 0 <= j < 4 ensures Bit(m, j) == Bit(n, j) {
      HeadBits(m, r, j);
      HeadBits(n, q, j);
    }
    SmallBitsInjective(m, n);
    forall j | 0 <= j < 3 ensures Bit(TypeCode(r), j) == Bit(TypeCode(q), j) {
      HeadBits(m, r, j);
      HeadBits(n, q, j);
    }
    TypeBitsInjective(r, q);
  }

  /** Different signatures of up to eight arguments have different codes. */
  lemma SignatureCodeInjective(a: seq<FfiType>, r: FfiType, b: seq<FfiType>, q: FfiType)
    requires |a| <= MAX_ARGUMENTS && |b| <= MAX_ARGUMENTS && SignatureCode(a, r) == SignatureCode(b, q)
    ensures a == b && r == q
  {
    PartialShape(a, |a|, r);
    PartialShape(b, |b|, q);
    HeadInjective(|a|, r, |b|, q);
    forall i | 0 <= i < |a| ensures a[i] == b[i] {
      forall j | 0 <= j < 3 ensures Bit(TypeCode(a[i]), j) == Bit(TypeCode(b[i]), j) {
        ArgumentBits(a, |a|, r, i, j);
        ArgumentBits(b, |b|, q, i, j);
      }
      TypeBitsInjective(a[i], b[i]);
    }
  }

  /** The packing loop. */
  method NewCode(args: seq<FfiType>, ret: FfiType) returns (r: Result<Word, Error>)
    ensures r == if |args| > MAX_ARGUMENTS then Err(TooManyArguments(|args|)) else Ok(SignatureCode(args, ret))
  {
    if |args| > MAX_ARGUMENTS {
      return Err(TooManyArguments(|args|));
    }
    var code := Head(|args|, ret);
    for i := 0 to |args|
      invariant code == Partial(args[..i], |args|, ret)
    {
      assert args[..i + 1][..i] == args[..i];
      code := Or(code, ShiftLeft(Low(ToWord(TypeCode(args[i])), 3), 7 + i * 3));
    }
    assert args[..|args|] == args;
    return Ok(code);
  }

  // ---------------------------------------------------------------- signatures from text

  /** The argument types, or the first name that is not one. */
  function ParseAll(names: seq<string>): (r: Result<seq<FfiType>, Error>)
    ensures r.Ok? ==> |r.value| == |names|
  {
    if names == [] then Ok([])
    else
      var front :- ParseAll(names[..|names| - 1]);
      var last :- Parse(names[|names| - 1]);
      Ok(front + [last])
  }

  lemma {:induction false} ParseAllFail(names: seq<string>, n: nat)
    requires n <= |names| && ParseAll(names[..n]).Err?
    ensures ParseAll(names).Err? && ParseAll(names).error == ParseAll(names[..n]).error
  {
    if n < |names| {
      assert names[..|names| - 1][..n] == names[..n];
      ParseAllFail(names[..|names| - 1], n);
    } else {
      assert names[..n] == names;
    }
  }

  lemma {:induction false} ParseAllAt(names: seq<string>, i: nat)
    requires i < |names| && ParseAll(names).Ok?
    ensures Parse(names[i]) == Ok(ParseAll(names).value[i])
  {
    if i < |names| - 1 {
      ParseAllAt(names[..|names| - 1], i);
    }
  }

  /** `SignatureCode::from_str_sigs`: the return type is checked before the arguments. */
  function FromStrs(args: seq<string>, ret: string): Result<Word, Error> {
    if |args| > MAX_ARGUMENTS then Err(TooManyArguments(|args|))
    else
      var r :- Parse(ret);
      var types :- ParseAll(args);
      Ok(SignatureCode(types, r))
  }

  function Width(types: seq<FfiType>): nat {
    if types == [] then 0 else Width(types[..|types| - 1]) + ByteWidth(types[|types| - 1])
  }

  datatype Parsed = Parsed(args: seq<FfiType>, ret: FfiType, encoded: Word, expected: nat)

  /** `ParsedFfiSignature::parse`: the arguments are checked before the return type. */
  function ParseSignature(args: seq<string>, ret: string): Result<Parsed, Error> {
    if |args| > MAX_ARGUMENTS then Err(TooManyArguments(|args|))
    else
      var types :- ParseAll(args);
      var r :- Parse(ret);
      Ok(Parsed(types, r, SignatureCode(types, r), Width(types)))
  }

  predicate Unsupported(name: string) {
    name !in {"i32", "u32", "i64", "u64", "isize", "usize", "f32", "f64"}
  }

  /** The first name in the list that is not a type. */
  function FirstUnsupported(names: seq<string>): Option<string> {
    if names == [] then None
    else if Unsupported(names[0]) then Some(names[0])
    else FirstUnsupported(names[1..])
  }

  lemma {:induction false} FirstUnsupportedSnoc(names: seq<string>, last: string)
    ensures FirstUnsupported(names + [last]) ==
            if FirstUnsupported(names).Some? then FirstUnsupported(names) else if Unsupported(last) then Some(last) else None
  {
    if names == [] {
      assert names + [last] == [last];
    } else {
      assert (names + [last])[1..] == names[1..] + [last];
      FirstUnsupportedSnoc(names[1..], last);
    }
  }

  /** Parsing the arguments fails exactly at the first unsupported name. */
  lemma {:induction false} ParseAllFails(names: seq<string>)
    ensures match FirstUnsupported(names)
            case None => ParseAll(names).Ok?
            case Some(name) => ParseAll(names) == Err(UnsupportedType(name))
  {
    if names != [] {
      var front, last := names[..|names| - 1], names[|names| - 1];
      ParseAllFails(front);
      FirstUnsupportedSnoc(front, last);
      FrontAndLast(names);
    }
  }

  /** The return type is unsupported and so is an argument, and the first such argument has another name. */
  predicate TwoCulprits(args: seq<string>, ret: string) {
    Unsupported(ret) && FirstUnsupported(args).Some? && FirstUnsupported(args).value != ret
  }

  /**
   * The one-pass code and the parse-then-pack code agree on success, and on the error unless two different
   * names are to blame.
   */
  lemma FromStrsAgrees(args: seq<string>, ret: string)
    ensures FromStrs(args, ret).Ok? <==> ParseSignature(args, ret).Ok?
    ensures FromStrs(args, ret).Ok? ==> FromStrs(args, ret).value == ParseSignature(args, ret).value.encoded
    ensures FromStrs(args, ret).Err? ==>
              (FromStrs(args, ret).error == ParseSignature(args, ret).error <==> |args| > MAX_ARGUMENTS || !TwoCulprits(args, ret))
  {
    ParseAllFails(args);
  }

  /** One argument and a return type, neither of them a type: the two functions blame different names. */
  lemma ErrorsDiffer()
    ensures FromStrs(["x"], "y") == Err(UnsupportedType("y")) && ParseSignature(["x"], "y") == Err(UnsupportedType("x"))
  {
    assert FirstUnsupported(["x"]) == Some("x");
    ParseAllFails(["x"]);
  }

  /** A code determines the text of the signature it was made from. */
  lemma TextFromCode(a: seq<string>, r: string, b: seq<string>, q: string)
    requires FromStrs(a, r).Ok? && FromStrs(a, r) == FromStrs(b, q)
    ensures a == b && r == q
  {
    var s, t := ParseAll(a).value, ParseAll(b).value;
    SignatureCodeInjective(s, Parse(r).value, t, Parse(q).value);
    ParseInjective(r, q);
    forall i | 0 <= i < |a| ensures a[i] == b[i] {
      ParseAllAt(a, i);
      ParseAllAt(b, i);
      ParseInjective(a[i], b[i]);
    }
  }

  /** The one-pass loop. */
  method FromStrSigs(args: seq<string>, ret: string) returns (r: Result<Word, Error>)
    ensures r == FromStrs(args, ret)
  {
    if |args| > MAX_ARGUMENTS {
      return Err(TooManyArguments(|args|));
    }
    var ret' :- Parse(ret);
    ghost var types: seq<FfiType> := [];
    var code := Head(|args|, ret');
    for i := 0 to |args|
      invariant ParseAll(args[..i]) == Ok(types) && code == Partial(types, |args|, ret')
    {
      assert args[..i + 1][..i] == args[..i];
      var arg := Parse(args[i]);
      if arg.Err? {
        ParseAllFail(args, i + 1);
        return Err(arg.error);
      }
      Snoc(types, arg.value);
      code := Or(code, ShiftLeft(Low(ToWord(TypeCode(arg.value)), 3), 7 + i * 3));
      types := types + [arg.value];
    }
    assert args[..|args|] == args;
    return Ok(code);
  }

  method ParseText(args: seq<string>, ret: string) returns (r: Result<Parsed, Error>)
    ensures r == ParseSignature(args, ret)
  {
    if |args| > MAX_ARGUMENTS {
      return Err(TooManyArguments(|args|));
    }
    var types: seq<FfiType> := [];
    var expected := 0;
    for i := 0 to |args|
      invariant ParseAll(args[..i]) == Ok(types) && expected == Width(types)
    {
      assert args[..i + 1][..i] == args[..i];
      var t := Parse(args[i]);
      if t.Err? {
        ParseAllFail(args, i + 1);
        return Err(t.error);
      }
      assert (types + [t.value])[..|types|] == types;
      expected := expected + ByteWidth(t.value);
      types := types + [t.value];
    }
    assert args[..|args|] == args;
    var ret' :- Parse(ret);
    var code := NewCode(types, ret');
    return Ok(Parsed(types, ret', code.value, expected));
  }

  // ---------------------------------------------------------------- thunks

  /** A monomorphic invoker: the argument types it reads and the type it returns. */
  datatype Thunk = Thunk(args: seq<FfiType>, ret: FfiType)

  /** `resolve_ffi_thunk`, arm by arm. */
  function Resolve(a: seq<FfiType>, ret: FfiType): Option<Thunk> {
    if |a| == 0 then Some(Thunk([], ret))
    else if |a| == 1 then Some(Thunk([a[0]], ret))
    else if |a| == 2 then Some(Thunk([a[0], a[1]], ret))
    else if |a| == 3 then
      if a[0] == a[1] && a[1] == a[2] then Some(Thunk([a[0], a[0], a[0]], ret))
      else if a[0] == I32 && a[1] == I32 && a[2] == F64 then Some(Thunk([I32, I32, F64], ret))
      else if a[0] == F64 && a[1] == F64 && a[2] == I32 then Some(Thunk([F64, F64, I32], ret))
      else None
    else if |a| == 4 then
      if a[0] == a[1] && a[1] == a[2] && a[2] == a[3] then Some(Thunk([a[0], a[0], a[0], a[0]], ret))
      else if a[0] == I32 && a[1] == I32 && a[2] == F64 && a[3] == F64 then Some(Thunk([I32, I32, F64, F64], ret))
      else None
    else if |a| == 5 then
      if a[0] == a[1] && a[1] == a[2] && a[2] == a[3] && a[3] == a[4]
      then Some(Thunk([a[0], a[0], a[0], a[0], a[0]], ret)) else None
    else if |a| == 6 then
      if a[0] == a[1] && a[1] == a[2] && a[2] == a[3] && a[3] == a[4] && a[4] == a[5]
      then Some(Thunk([a[0], a[0], a[0], a[0], a[0], a[0]], ret)) else None
    else if |a| == 7 then
      if a[0] == a[1] && a[1] == a[2] && a[2] == a[3] && a[3] == a[4] && a[4] == a[5] && a[5] == a[6]
      then Some(Thunk([a[0], a[0], a[0], a[0], a[0], a[0], a[0]], ret)) else None
    else if |a| == 8 then
      if a[0] == a[1] && a[1] == a[2] && a[2] == a[3] && a[3] == a[4] && a[4] == a[5] && a[5] == a[6] && a[6] == a[7]
      then Some(Thunk([a[0], a[0], a[0], a[0], a[0], a[0], a[0], a[0]], ret)) else None
    else None
  }

  /** The signatures that have an invoker. */
  predicate Supported(a: seq<FfiType>) {
    || |a| <= 2
    || (|a| <= 8 && forall i | 0 <= i < |a| :: a[i] == a[0])
    || a == [I32, I32, F64] || a == [F64, F64, I32] || a == [I32, I32, F64, F64]
  }

  /** A resolved thunk reads exactly the signature's types, and exactly the supported signatures have one. */
  lemma ResolveExact(a: seq<FfiType>, ret: FfiType)
    ensures Resolve(a, ret) == if Supported(a) then Some(Thunk(a, ret)) else None
  {
    if |a| > 8 {
    } else if |a| > 4 {
      assert Resolve(a, ret).Some? ==> Resolve(a, ret).value.args == a;
    } else if |a| == 4 {
      assert a == [a[0], a[1], a[2], a[3]];
    } else if |a| == 3 {
      assert a == [a[0], a[1], a[2]];
    } else if |a| == 2 {
      assert a == [a[0], a[1]];
    } else if |a| == 1 {
      assert a == [a[0]];
    }
  }

  /** A decoded argument: its type and the native-endian bytes it was read from. */
  datatype Arg = Arg(kind: FfiType, bytes: seq<byte>)

  /** The call that reaches native code. */
  datatype Call = Call(function_: nat, args: seq<Arg>, ret: FfiType)

  /** `A::read(payload, &mut offset)` for each type in turn. */
  function ReadArgs(types: seq<FfiType>, payload: seq<byte>): (r: Result<seq<Arg>, Error>)
    ensures r.Ok? ==> Width(types) <= |payload|
  {
    if types == [] then Ok([])
    else
      var k := |types| - 1;
      var front :- ReadArgs(types[..k], payload);
      var offset := Width(types[..k]);
      var end := offset + ByteWidth(types[k]);
      if end > |payload| then Err(ShortPayload) else Ok(front + [Arg(types[k], payload[offset..end])])
  }

  function Invoke(function_: nat, thunk: Thunk, payload: seq<byte>): Result<Call, Error> {
    var args :- ReadArgs(thunk.args, payload);
    if Width(thunk.args) != |payload| then Err(LengthMismatch(Width(thunk.args), |payload|))
    else Ok(Call(function_, args, thunk.ret))
  }

  function Bytes(args: seq<Arg>): seq<byte> {
    if args == [] then [] else Bytes(args[..|args| - 1]) + args[|args| - 1].bytes
  }

  /** The reads split the front of the payload at the type boundaries. */
  lemma {:induction false} ReadArgsSplit(types: seq<FfiType>, payload: seq<byte>)
    ensures ReadArgs(types, payload).Ok? <==> Width(types) <= |payload|
    ensures ReadArgs(types, payload).Ok? ==>
              var args := ReadArgs(types, payload).value;
              && |args| == |types| && Bytes(args) == payload[..Width(types)]
              && forall i | 0 <= i < |types| :: args[i].kind == types[i] && |args[i].bytes| == ByteWidth(types[i])
  {
    if types != [] {
      var k := |types| - 1;
      ReadArgsSplit(types[..k], payload);
      if Width(types) <= |payload| {
        var args := ReadArgs(types, payload).value;
        var offset := Width(types[..k]);
        assert args[..k] == ReadArgs(types[..k], payload).value;
        assert payload[..Width(types)] == payload[..offset] + payload[offset..Width(types)];
        forall i | 0 <= i < |types| ensures args[i].kind == types[i] && |args[i].bytes| == ByteWidth(types[i]) {
          if i < k {
            assert args[i] == args[..k][i] && types[i] == types[..k][i];
          }
        }
      }
    }
  }

  /** A thunk given `expected_payload_len` bytes passes on all of them, each argument with its own type and width. */
  lemma InvokeExact(function_: nat, thunk: Thunk, payload: seq<byte>)
    ensures Invoke(function_, thunk, payload).Ok? <==> |payload| == Width(thunk.args)
    ensures Invoke(function_, thunk, payload).Ok? ==>
              var call := Invoke(function_, thunk, payload).value;
              && call.function_ == function_ && call.ret == thunk.ret && |call.args| == |thunk.args|
              && Bytes(call.args) == payload
              && forall i | 0 <= i < |thunk.args| ::
                   call.args[i].kind == thunk.args[i] && |call.args[i].bytes| == ByteWidth(thunk.args[i])
  {
    ReadArgsSplit(thunk.args, payload);
    assert payload[..|payload|] == payload;
  }

  /** The offset-advancing reads of an invoker. */
  method InvokeThunk(function_: nat, thunk: Thunk, payload: seq<byte>) returns (r: Result<Call, Error>)
    ensures r == Invoke(function_, thunk, payload)
  {
    var offset := 0;
    var args: seq<Arg> := [];
    for i := 0 to |thunk.args|
      invariant offset == Width(thunk.args[..i]) && offset <= |payload|
      invariant ReadArgs(thunk.args[..i], payload) == Ok(args)
    {
      var t := thunk.args[i];
      assert thunk.args[..i + 1][..i] == thunk.args[..i];
      if offset + ByteWidth(t) > |payload| {
        ReadArgsSplit(thunk.args, payload);
        WidthPrefix(thunk.args, i + 1);
        ReadFail(thunk.args, payload);
        return Err(ShortPayload);
      }
      args := args + [Arg(t, payload[offset..offset + ByteWidth(t)])];
      offset := offset + ByteWidth(t);
    }
    assert thunk.args[..|thunk.args|] == thunk.args;
    if offset != |payload| {
      return Err(LengthMismatch(offset, |payload|));
    }
    return Ok(Call(function_, args, thunk.ret));
  }

  lemma {:induction false} WidthPrefix(types: seq<FfiType>, n: nat)
    requires n <= |types|
    ensures Width(types[..n]) <= Width(types)
  {
    if n < |types| {
      assert types[..|types| - 1][..n] == types[..n];
      WidthPrefix(types[..|types| - 1], n);
    } else {
      assert types[..n] == types;
    }
  }

  lemma {:induction false} ReadFail(types: seq<FfiType>, payload: seq<byte>)
    requires ReadArgs(types, payload).Err?
    ensures ReadArgs(types, payload) == Err(ShortPayload)
  {
    if ReadArgs(types[..|types| - 1], payload).Err? {
      ReadFail(types[..|types| - 1], payload);
    }
  }
}
