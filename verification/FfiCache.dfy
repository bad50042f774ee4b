/** The per-plugin cache of prepared FFI calls, and why it is invisible to callers. */
module FfiCache {
  import opened Basics
  import opened Ffi

  /** What `pyroxide_metadata` says about a loaded library. */
  datatype Metadata = Absent | Declared(text: string) | Unreadable

  datatype Library = Library(metadata: Metadata, symbols: map<string, nat>)

  datatype Prepared = Prepared(function_: nat, thunk: Thunk, expected: nat)

  function Split(s: string, separator: char): (parts: seq<string>)
    ensures parts != []
  {
    if s == "" then [""]
    else
      var front, last := Split(s[..|s| - 1], separator), s[|s| - 1];
      if last == separator then front + [""] else front[..|front| - 1] + [front[|front| - 1] + [last]]
  }

  function Join(names: seq<string>, separator: string): string {
    if names == [] then ""
    else if |names| == 1 then names[0]
    else Join(names[..|names| - 1], separator) + separator + names[|names| - 1]
  }

  /** The entry a declaring library must list. */
  function Declaration(symbol: string, args: seq<string>, ret: string): string {
    symbol + ":" + Join(args, ",") + "|" + ret
  }

  function CheckDeclared(library: Library, symbol: string, args: seq<string>, ret: string): Result<(), Error> {
    match library.metadata
    case Absent => Ok(())
    case Unreadable => Err(BrokenMetadata)
    case Declared(text) => if Declaration(symbol, args, ret) in Split(text, ';') then Ok(()) else Err(SignatureMismatch)
  }

  /** Everything the slow path checks after the payload length, and the call it prepares. */
  function Prepare(library: Library, symbol: string, args: seq<string>, ret: string): Result<Prepared, Error> {
    var parsed :- ParseSignature(args, ret);
    var _ :- CheckDeclared(library, symbol, args, ret);
    if symbol !in library.symbols then Err(NoSymbol)
    else
      var thunk := Resolve(parsed.args, parsed.ret);
      if thunk.None? then Err(UnsupportedSignature)
      else Ok(Prepared(library.symbols[symbol], thunk.value, parsed.expected))
  }

  /** One call without any cache: parse, check the length, check the declaration, resolve, invoke. */
  function Uncached(library: Library, symbol: string, args: seq<string>, ret: string, payload: seq<byte>): Result<Call, Error> {
    var _ :- FromStrs(args, ret);
    var parsed :- ParseSignature(args, ret);
    if |payload| != parsed.expected then Err(LengthMismatch(parsed.expected, |payload|))
    else
      var prepared :- Prepare(library, symbol, args, ret);
      Invoke(prepared.function_, prepared.thunk, payload)
  }

  // ---------------------------------------------------------------- what the metadata text declares

  predicate Free(s: string, c: char) {
    c !in s
  }

  predicate AllFree(parts: seq<string>, c: char) {
    forall i | 0 <= i < |parts| :: Free(parts[i], c)
  }

  /** Splitting behind a separator opens a new part, which then grows to the end. */
  lemma {:induction false} SplitAppend(s: string, last: string, c: char)
    requires Free(last, c)
    ensures Split(s + [c] + last, c) == Split(s, c) + [last]
  {
    if last == "" {
      NoTail(s + [c]);
      Snoc(s, c);
    } else {
      var k := |last| - 1;
      SplitAppend(s, last[..k], c);
      FrontAndLast(last);
      Assoc(s + [c], last[..k], [last[k]]);
      Snoc(s + [c] + last[..k], last[k]);
      Snoc(Split(s, c), last[..k]);
    }
  }

  lemma {:induction false} SplitOne(s: string, c: char)
    requires Free(s, c)
    ensures Split(s, c) == [s]
  {
    if s != "" {
      SplitOne(s[..|s| - 1], c);
      FrontAndLast(s);
    }
  }

  /** Splitting undoes joining. */
  lemma {:induction false} SplitJoin(parts: seq<string>, c: char)
    requires parts != [] && AllFree(parts, c)
    ensures Split(Join(parts, [c]), c) == parts
  {
    var k := |parts| - 1;
    if k == 0 {
      SplitOne(parts[0], c);
    } else {
      SplitJoin(parts[..k], c);
      SplitAppend(Join(parts[..k], [c]), parts[k], c);
      FrontAndLast(parts);
    }
  }

  lemma {:induction false} JoinFree(parts: seq<string>, separator: string, c: char)
    requires AllFree(parts, c) && Free(separator, c)
    ensures Free(Join(parts, separator), c)
  {
    if |parts| > 1 {
      JoinFree(parts[..|parts| - 1], separator, c);
    }
  }

  lemma Join2(a: string, b: string, separator: string)
    ensures Join([a, b], separator) == a + separator + b
  {
    assert [a, b][..1] == [a];
  }

  /** A declared function. */
  datatype Triple = Triple(symbol: string, args: seq<string>, ret: string)

  /** No separator occurs in a name, and an argument has a name. */
  predicate CleanName(s: string) {
    Free(s, ':') && Free(s, ',') && Free(s, '|') && Free(s, ';')
  }

  predicate Clean(t: Triple) {
    CleanName(t.symbol) && CleanName(t.ret) && forall i | 0 <= i < |t.args| :: CleanName(t.args[i]) && t.args[i] != ""
  }

  function Rendered(t: Triple): string {
    Declaration(t.symbol, t.args, t.ret)
  }

  function RenderAll(list: seq<Triple>): seq<string> {
    seq(|list|, i requires 0 <= i < |list| => Rendered(list[i]))
  }

  /** The three levels of a declaration come apart again. */
  lemma DeclarationParts(t: Triple)
    requires Clean(t)
    ensures var args := Join(t.args, ",");
            Split(Rendered(t), ':') == [t.symbol, args + "|" + t.ret] && Split(args + "|" + t.ret, '|') == [args, t.ret]
    ensures Free(Rendered(t), ';')
  {
    var args := Join(t.args, ",");
    JoinFree(t.args, ",", ':');
    JoinFree(t.args, ",", '|');
    JoinFree(t.args, ",", ';');
    var rest := args + "|" + t.ret;
    Join2(args, t.ret, "|");
    SplitJoin([args, t.ret], '|');
    Join2(t.symbol, rest, ":");
    SplitJoin([t.symbol, rest], ':');
    Assoc(t.symbol + ":", args, "|");
    Assoc(t.symbol + ":", args + "|", t.ret);
    assert Rendered(t) == t.symbol + ":" + rest;
  }

  lemma ArgumentsApart(a: seq<string>, b: seq<string>)
    requires Join(a, ",") == Join(b, ",") && AllFree(a, ',') && AllFree(b, ',')
    requires (forall i | 0 <= i < |a| :: a[i] != "") && (forall i | 0 <= i < |b| :: b[i] != "")
    ensures a == b
  {
    if a != [] && b != [] {
      SplitJoin(a, ',');
      SplitJoin(b, ',');
    } else if a != [] {
      SplitJoin(a, ',');
    } else if b != [] {
      SplitJoin(b, ',');
    }
  }

  lemma RenderedInjective(t: Triple, u: Triple)
    requires Clean(t) && Clean(u) && Rendered(t) == Rendered(u)
    ensures t == u
  {
    DeclarationParts(t);
    DeclarationParts(u);
    assert t.symbol == Split(Rendered(t), ':')[0] == u.symbol;
    var p, q := Join(t.args, ",") + "|" + t.ret, Join(u.args, ",") + "|" + u.ret;
    assert p == Split(Rendered(t), ':')[1] == q;
    assert Join(t.args, ",") == Split(p, '|')[0] == Join(u.args, ",");
    assert t.ret == Split(p, '|')[1] == u.ret;
    ArgumentsApart(t.args, u.args);
  }

  /** A library that declares a list of functions admits exactly the calls of that list. */
  lemma DeclaredExactly(library: Library, list: seq<Triple>, t: Triple)
    requires library.metadata == Declared(Join(RenderAll(list), ";"))
    requires Clean(t) && forall i | 0 <= i < |list| :: Clean(list[i])
    ensures CheckDeclared(library, t.symbol, t.args, t.ret) == if t in list then Ok(()) else Err(SignatureMismatch)
  {
    var parts := RenderAll(list);
    forall i | 0 <= i < |list| ensures Free(parts[i], ';') {
      DeclarationParts(list[i]);
    }
    if list == [] {
      assert Split("", ';') == [""];
      assert |Rendered(t)| > 0;
    } else {
      SplitJoin(parts, ';');
      if t in list {
        var i :| 0 <= i < |list| && list[i] == t;
        assert parts[i] == Rendered(t);
      } else if Rendered(t) in parts {
        var i :| 0 <= i < |parts| && parts[i] == Rendered(t);
        RenderedInjective(list[i], t);
      }
    }
  }

  lemma SupportedNamesAreClean(name: string)
    requires !Unsupported(name)
    ensures CleanName(name) && name != ""
  {
  }

  // ---------------------------------------------------------------- what a call needs

  /** The widths of the named types, added up. */
  function TotalWidth(names: seq<string>): nat {
    if names == [] then 0
    else TotalWidth(names[..|names| - 1]) + (if Parse(names[|names| - 1]).Ok? then ByteWidth(Parse(names[|names| - 1]).value) else 0)
  }

  lemma {:induction false} TotalWidthAgrees(names: seq<string>)
    requires ParseAll(names).Ok?
    ensures TotalWidth(names) == Width(ParseAll(names).value)
  {
    if names != [] {
      var k := |names| - 1;
      TotalWidthAgrees(names[..k]);
      Snoc(ParseAll(names[..k]).value, Parse(names[k]).value);
    }
  }

  /** At most eight arguments, and every name a type. */
  predicate WellTyped(args: seq<string>, ret: string) {
    |args| <= 8 && !Unsupported(ret) && FirstUnsupported(args).None?
  }

  predicate DeclaredIn(library: Library, symbol: string, args: seq<string>, ret: string) {
    library.metadata.Absent? || (library.metadata.Declared? && Declaration(symbol, args, ret) in Split(library.metadata.text, ';'))
  }

  /** Everything a call needs to reach native code. */
  predicate Callable(library: Library, symbol: string, args: seq<string>, ret: string, payload: seq<byte>) {
    && WellTyped(args, ret) && |payload| == TotalWidth(args) && DeclaredIn(library, symbol, args, ret)
    && symbol in library.symbols && ParseAll(args).Ok? && Supported(ParseAll(args).value)
  }

  /** A call that goes through reaches the symbol's function with the declared types and every byte of the payload. */
  predicate Reaches(library: Library, symbol: string, args: seq<string>, ret: string, payload: seq<byte>, call: Call)
    requires symbol in library.symbols && ParseAll(args).Ok? && Parse(ret).Ok?
  {
    var types := ParseAll(args).value;
    && call.function_ == library.symbols[symbol] && call.ret == Parse(ret).value
    && |call.args| == |types| && Bytes(call.args) == payload
    && forall i | 0 <= i < |types| :: call.args[i].kind == types[i] && |call.args[i].bytes| == ByteWidth(types[i])
  }

  /** A call goes through if and only if it is callable, and then it reaches exactly the declared function. */
  lemma UncachedExact(library: Library, symbol: string, args: seq<string>, ret: string, payload: seq<byte>)
    ensures Uncached(library, symbol, args, ret, payload).Ok? <==> Callable(library, symbol, args, ret, payload)
    ensures Callable(library, symbol, args, ret, payload) ==>
              Parse(ret).Ok? && Reaches(library, symbol, args, ret, payload, Uncached(library, symbol, args, ret, payload).value)
  {
    TypedExactly(args, ret);
    if ParseSignature(args, ret).Ok? {
      var parsed := ParseSignature(args, ret).value;
      TotalWidthAgrees(args);
      PreparedExact(library, symbol, args, ret, payload, parsed);
    }
  }

  /** Both parsers accept exactly the well-typed signatures. */
  lemma TypedExactly(args: seq<string>, ret: string)
    ensures WellTyped(args, ret) <==> ParseSignature(args, ret).Ok?
    ensures FromStrs(args, ret).Ok? <==> ParseSignature(args, ret).Ok?
  {
    ParseAllFails(args);
    ParseFails(ret);
    FromStrsAgrees(args, ret);
  }

  lemma ParseFails(name: string)
    ensures Parse(name).Err? <==> Unsupported(name)
  {
  }

  lemma PreparedExact(library: Library, symbol: string, args: seq<string>, ret: string, payload: seq<byte>, parsed: Parsed)
    requires ParseSignature(args, ret) == Ok(parsed) && FromStrs(args, ret).Ok?
    ensures Uncached(library, symbol, args, ret, payload).Ok? <==>
              && |payload| == parsed.expected && DeclaredIn(library, symbol, args, ret)
              && symbol in library.symbols && Supported(parsed.args)
    ensures Uncached(library, symbol, args, ret, payload).Ok? ==>
              Reaches(library, symbol, args, ret, payload, Uncached(library, symbol, args, ret, payload).value)
  {
    ResolveExact(parsed.args, parsed.ret);
    if symbol in library.symbols {
      InvokeExact(library.symbols[symbol], Thunk(parsed.args, parsed.ret), payload);
    }
  }

  /** What a call that does not go through is told: the first of its faults. */
  lemma UncachedErrors(library: Library, symbol: string, args: seq<string>, ret: string, payload: seq<byte>)
    requires !Callable(library, symbol, args, ret, payload)
    ensures Uncached(library, symbol, args, ret, payload) == Err(
              if |args| > 8 then TooManyArguments(|args|)
              else if Unsupported(ret) then UnsupportedType(ret)
              else if FirstUnsupported(args).Some? then UnsupportedType(FirstUnsupported(args).value)
              else if |payload| != TotalWidth(args) then LengthMismatch(TotalWidth(args), |payload|)
              else if library.metadata.Unreadable? then BrokenMetadata
              else if !DeclaredIn(library, symbol, args, ret) then SignatureMismatch
              else if symbol !in library.symbols then NoSymbol
              else UnsupportedSignature)
  {
    UncachedExact(library, symbol, args, ret, payload);
    TypedExactly(args, ret);
    ParseAllFails(args);
    ParseFails(ret);
    if ParseSignature(args, ret).Ok? {
      var parsed := ParseSignature(args, ret).value;
      TotalWidthAgrees(args);
      ResolveExact(parsed.args, parsed.ret);
    }
  }

  /** With a declaring library only calls of its list go through. */
  lemma OnlyDeclaredRuns(library: Library, list: seq<Triple>, symbol: string, args: seq<string>, ret: string, payload: seq<byte>)
    requires library.metadata == Declared(Join(RenderAll(list), ";")) && CleanName(symbol)
    requires forall i | 0 <= i < |list| :: Clean(list[i])
    requires WellTyped(args, ret) && |payload| == TotalWidth(args) && symbol in library.symbols
    requires ParseAll(args).Ok? && Supported(ParseAll(args).value)
    ensures Uncached(library, symbol, args, ret, payload).Ok? <==> Triple(symbol, args, ret) in list
  {
    UncachedExact(library, symbol, args, ret, payload);
    SupportedNamesAreClean(ret);
    forall i | 0 <= i < |args| ensures CleanName(args[i]) && args[i] != "" {
      ParseAllAt(args, i);
      SupportedNamesAreClean(args[i]);
    }
    DeclaredExactly(library, list, Triple(symbol, args, ret));
  }

  type Cache = map<string, map<Word, Prepared>>

  predicate Cached(cache: Cache, symbol: string, code: Word) {
    symbol in cache && code in cache[symbol]
  }

  /** An entry is what the slow path would prepare for any text that leads to its key. */
  predicate EntryOk(library: Library, cache: Cache, symbol: string, args: seq<string>, ret: string) {
    FromStrs(args, ret).Ok? && Cached(cache, symbol, FromStrs(args, ret).value) ==>
      Prepare(library, symbol, args, ret) == Ok(cache[symbol][FromStrs(args, ret).value])
  }

  ghost predicate CacheOk(library: Library, cache: Cache) {
    forall symbol, args, ret :: EntryOk(library, cache, symbol, args, ret)
  }

  function Insert(cache: Cache, symbol: string, code: Word, p: Prepared): Cache {
    cache[symbol := (if symbol in cache then cache[symbol] else map[])[code := p]]
  }

  /** Inserting what was just prepared keeps every entry right: a code stands for one signature text only. */
  lemma InsertOk(library: Library, cache: Cache, symbol: string, args: seq<string>, ret: string)
    requires CacheOk(library, cache) && FromStrs(args, ret).Ok? && Prepare(library, symbol, args, ret).Ok?
    ensures CacheOk(library, Insert(cache, symbol, FromStrs(args, ret).value, Prepare(library, symbol, args, ret).value))
  {
    var code := FromStrs(args, ret).value;
    var cache' := Insert(cache, symbol, code, Prepare(library, symbol, args, ret).value);
    forall other, a, r ensures EntryOk(library, cache', other, a, r) {
      assert EntryOk(library, cache, other, a, r);
      if other == symbol && FromStrs(a, r) == Ok(code) {
        TextFromCode(a, r, args, ret);
      }
    }
  }

  /** A hit gives what the slow path gives, the length error included. */
  lemma HitAgrees(library: Library, cache: Cache, symbol: string, args: seq<string>, ret: string, payload: seq<byte>)
    requires CacheOk(library, cache) && FromStrs(args, ret).Ok? && Cached(cache, symbol, FromStrs(args, ret).value)
    ensures var p := cache[symbol][FromStrs(args, ret).value];
            Uncached(library, symbol, args, ret, payload) ==
            if |payload| != p.expected then Err(LengthMismatch(p.expected, |payload|)) else Invoke(p.function_, p.thunk, payload)
  {
    assert EntryOk(library, cache, symbol, args, ret);
    FromStrsAgrees(args, ret);
  }

  /** A loaded plugin. The library does not change while it is loaded. */
  class Plugin {
    const library: Library
    var cache: Cache

    ghost predicate Valid()
      reads this
    {
      CacheOk(library, cache)
    }

    constructor (loaded: Library)
      ensures Valid() && library == loaded && cache == map[]
    {
      library, cache := loaded, map[];
    }

    /** The read-locked lookup. */
    method Lookup(symbol: string, code: Word) returns (r: Option<Prepared>)
      ensures r == if Cached(cache, symbol, code) then Some(cache[symbol][code]) else None
    {
      if symbol in cache && code in cache[symbol] {
        return Some(cache[symbol][code]);
      }
      return None;
    }

    /**
     * The write-locked insertion. Between the lookup and here other threads may have filled the cache in
     * any way that keeps it valid.
     */
    method Store(symbol: string, args: seq<string>, ret: string, code: Word, p: Prepared)
      requires Valid() && FromStrs(args, ret) == Ok(code) && Prepare(library, symbol, args, ret) == Ok(p)
      modifies this`cache
      ensures Valid() && cache == Insert(old(cache), symbol, code, p)
    {
      InsertOk(library, cache, symbol, args, ret);
      cache := Insert(cache, symbol, code, p);
    }

    /** `execute_dylib_ffi` on this plugin. */
    method Execute(symbol: string, args: seq<string>, ret: string, payload: seq<byte>) returns (r: Result<Call, Error>)
      requires Valid()
      modifies this`cache
      ensures Valid()
      ensures r == Uncached(library, symbol, args, ret, payload)
      ensures r.Ok? <==> Callable(library, symbol, args, ret, payload)
    {
      UncachedExact(library, symbol, args, ret, payload);
      var code :- FromStrSigs(args, ret);
      var hit := Lookup(symbol, code);
      if hit.Some? {
        HitAgrees(library, cache, symbol, args, ret, payload);
        var p := hit.value;
        if |payload| != p.expected {
          return Err(LengthMismatch(p.expected, |payload|));
        }
        r := InvokeThunk(p.function_, p.thunk, payload);
        return;
      }
      FromStrsAgrees(args, ret);
      var sig := ParseText(args, ret);
      var parsed := sig.value;
      if |payload| != parsed.expected {
        return Err(LengthMismatch(parsed.expected, |payload|));
      }
      var _ :- CheckDeclared(library, symbol, args, ret);
      if symbol !in library.symbols {
        return Err(NoSymbol);
      }
      var thunk := Resolve(parsed.args, parsed.ret);
      if thunk.None? {
        return Err(UnsupportedSignature);
      }
      var p := Prepared(library.symbols[symbol], thunk.value, parsed.expected);
      Store(symbol, args, ret, parsed.encoded, p);
      r := InvokeThunk(p.function_, p.thunk, payload);
    }
  }

  datatype Invocation = Invocation(symbol: string, args: seq<string>, ret: string, payload: seq<byte>)

  /** Any sequence of calls on one plugin gets, call by call, what it would get without a cache. */
  method ExecuteAll(plugin: Plugin, calls: seq<Invocation>) returns (results: seq<Result<Call, Error>>)
    requires plugin.Valid()
    modifies plugin`cache
    ensures plugin.Valid() && |results| == |calls|
    ensures forall i | 0 <= i < |calls| ::
              results[i] == Uncached(plugin.library, calls[i].symbol, calls[i].args, calls[i].ret, calls[i].payload)
  {
    results := [];
    for n := 0 to |calls|
      invariant plugin.Valid() && |results| == n
      invariant forall i | 0 <= i < n ::
                  results[i] == Uncached(plugin.library, calls[i].symbol, calls[i].args, calls[i].ret, calls[i].payload)
    {
      var r := plugin.Execute(calls[n].symbol, calls[n].args, calls[n].ret, calls[n].payload);
      results := results + [r];
    }
  }

  /** The registry lookup in front of the cache: a bad signature is reported before an unknown plugin. */
  method ExecuteByName(plugins: map<string, Plugin>, name: string, call: Invocation) returns (r: Result<Call, Error>)
    requires forall n | n in plugins :: plugins[n].Valid()
    modifies plugins.Values
    ensures forall n | n in plugins :: plugins[n].Valid()
    ensures r == if FromStrs(call.args, call.ret).Err? then Err(FromStrs(call.args, call.ret).error)
                 else if name !in plugins then Err(NotRegistered)
                 else Uncached(plugins[name].library, call.symbol, call.args, call.ret, call.payload)
  {
    var _ :- FromStrSigs(call.args, call.ret);
    if name !in plugins {
      return Err(NotRegistered);
    }
    r := plugins[name].Execute(call.symbol, call.args, call.ret, call.payload);
  }
}
