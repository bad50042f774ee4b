/** Request and response frames on a byte stream. */
module Frame {
  import opened Basics
  import opened Wire
  import opened Protocol

  datatype Request = Request(meta: Metadata, shared: bool, payload: seq<byte>)

  datatype Response = Response(success: bool, shared: bool, payload: seq<byte>)

  function HeaderOf(r: Request): RequestHeader {
    RequestHeader(Kind(r.meta), r.shared, |Encode(r.meta)|, |r.payload|)
  }

  function RequestFrame(r: Request): seq<byte> {
    RequestHeaderBytes(HeaderOf(r)) + Encode(r.meta) + r.payload
  }

  /** What `write_request` accepts. It checks before it writes the first byte. */
  predicate Writable(limit: u64, r: Request) {
    |Encode(r.meta)| <= MAX_METADATA && |r.payload| <= limit
  }

  /** What `write_request` accepts and `read_request` accepts back. */
  predicate Sendable(limit: u64, r: Request) {
    Writable(limit, r) && FewArguments(r.meta)
  }

  /** The metadata checks of `read_request`, between the header and the payload. */
  function DecodeMatching(kind: byte, b: seq<byte>): Result<Metadata, Error> {
    var m :- Decode(b);
    if kind != Kind(m) then Err(KindMismatch) else Ok(m)
  }

  function ReadRequest(limit: u64, s: seq<byte>): Result<Option<Read<Request>>, Error> {
    if s == [] then Ok(None)
    else if |s| < REQUEST_HEADER then Err(ShortHeader)
    else
      var h :- DecodeRequestHeader(limit, s[..REQUEST_HEADER]);
      var rest := s[REQUEST_HEADER..];
      if |rest| < h.metadata then Err(ShortMetadata)
      else
        var m :- DecodeMatching(h.kind, rest[..h.metadata]);
        var tail := rest[h.metadata..];
        if |tail| < h.payload then Err(ShortPayload)
        else Ok(Some(Read(Request(m, h.shared, tail[..h.payload]), tail[h.payload..])))
  }

  function ResponseFrame(r: Response): seq<byte> {
    ResponseHeaderBytes(ResponseHeader(r.success, r.shared, |r.payload|)) + r.payload
  }

  function ReadResponse(limit: u64, s: seq<byte>): Result<Read<Response>, Error> {
    if |s| < RESPONSE_HEADER then Err(ShortHeader)
    else
      var h :- DecodeResponseHeader(limit, s[..RESPONSE_HEADER]);
      var rest := s[RESPONSE_HEADER..];
      if |rest| < h.payload then Err(ShortPayload)
      else Ok(Read(Response(h.success, h.shared, rest[..h.payload]), rest[h.payload..]))
  }

  /** The frames of a small Python request and of its answer, byte by byte. */
  lemma WireBytes()
    ensures RequestFrame(Request(Python, false, [97, 98, 99])) == [0, 0, 0, 0, 0, 1, 0, 0, 0, 0, 0, 0, 0, 3, 0, 97, 98, 99]
    ensures ResponseFrame(Response(true, false, [111, 107])) == [1, 0, 0, 0, 0, 0, 0, 0, 0, 2, 111, 107]
    ensures ResponseFrame(Response(false, true, [])) == [0, 1, 0, 0, 0, 0, 0, 0, 0, 0]
  {
    SmallNumber(1, 4);
    SmallNumber(3, 8);
    SmallNumber(2, 8);
    SmallNumber(0, 8);
    assert Encode(Python) == [0];
  }

  lemma {:induction false} SmallNumber(n: byte, k: nat)
    requires k > 0
    ensures ToBe(n, k) == seq(k - 1, _ => 0) + [n]
  {
    if k > 1 {
      ToBeZero(k - 1);
      assert n / 256 == 0;
    }
  }

  lemma {:induction false} ToBeZero(k: nat)
    ensures ToBe(0, k) == seq(k, _ => 0)
  {
    if k > 0 {
      ToBeZero(k - 1);
    }
  }

  // ---------------------------------------------------------------- request frames delimit themselves

  /** Reading back a written frame: the frame itself, or the argument-count error. */
  lemma ReadWritten(limit: u64, r: Request, tail: seq<byte>)
    requires Writable(limit, r)
    ensures ReadRequest(limit, RequestFrame(r) + tail) ==
            if FewArguments(r.meta) then Ok(Some(Read(r, tail))) else Err(TooManyArguments)
  {
    FrameSlices(RequestHeaderBytes(HeaderOf(r)), Encode(r.meta), r.payload, tail);
    RequestHeaderRoundTrip(limit, HeaderOf(r));
    RoundTrip(r.meta);
  }

  lemma FrameSlices(a: seq<byte>, b: seq<byte>, c: seq<byte>, tail: seq<byte>)
    ensures var s := a + b + c + tail;
            s[..|a|] == a && s[|a|..][..|b|] == b && s[|a|..][|b|..][..|c|] == c && s[|a|..][|b|..][|c|..] == tail
  {
    Assoc4(a, b, c, tail);
    Cut(a, b + (c + tail));
    Cut(b, c + tail);
    Cut(c, tail);
  }

  lemma ReadCanonical(limit: u64, s: seq<byte>)
    requires ReadRequest(limit, s).Ok? && ReadRequest(limit, s).value.Some?
    ensures var d := ReadRequest(limit, s).value.value; s == RequestFrame(d.value) + d.rest && Sendable(limit, d.value)
  {
    RequestHeaderCanonical(limit, s[..REQUEST_HEADER]);
    var h := DecodeRequestHeader(limit, s[..REQUEST_HEADER]).value;
    var rest := s[REQUEST_HEADER..];
    Canonical(rest[..h.metadata]);
    var tail := rest[h.metadata..];
    var d := ReadRequest(limit, s).value.value;
    CutFrame(s, REQUEST_HEADER, h.metadata, h.payload);
  }

  lemma CutFrame(s: seq<byte>, i: nat, j: nat, k: nat)
    requires i + j + k <= |s|
    ensures s == s[..i] + s[i..][..j] + s[i..][j..][..k] + s[i..][j..][k..]
  {
    Rejoin(s, i);
    Rejoin(s[i..], j);
    Rejoin(s[i..][j..], k);
    Assoc4(s[..i], s[i..][..j], s[i..][j..][..k], s[i..][j..][k..]);
  }

  /** Bytes that arrive later do not change a request already complete. */
  lemma ReadExtends(limit: u64, s: seq<byte>, more: seq<byte>)
    requires ReadRequest(limit, s).Ok? && ReadRequest(limit, s).value.Some?
    ensures var d := ReadRequest(limit, s).value.value; ReadRequest(limit, s + more) == Ok(Some(Read(d.value, d.rest + more)))
  {
    ReadCanonical(limit, s);
    var d := ReadRequest(limit, s).value.value;
    Concat3([], RequestFrame(d.value), d.rest, more);
    ReadWritten(limit, d.value, d.rest + more);
  }

  /** A proper non-empty prefix of any written frame is an error: never a clean end, never a frame. */
  lemma PrefixRefused(limit: u64, r: Request, k: nat)
    requires Writable(limit, r) && 0 < k < |RequestFrame(r)|
    ensures ReadRequest(limit, RequestFrame(r)[..k]).Err?
  {
    var f := RequestFrame(r);
    if ReadRequest(limit, f[..k]).Ok? {
      ReadExtends(limit, f[..k], f[k..]);
      Rejoin(f, k);
      NoTail(f);
      ReadWritten(limit, r, []);
    }
  }

  function Frames(rs: seq<Request>): seq<byte> {
    if rs == [] then [] else RequestFrame(rs[0]) + Frames(rs[1..])
  }

  predicate AllSendable(limit: u64, rs: seq<Request>) {
    forall i | 0 <= i < |rs| :: Sendable(limit, rs[i])
  }

  /** How a whole stream reads: the requests up to a clean end, or up to the first error. */
  datatype Stream = Stream(requests: seq<Request>, error: Option<Error>)

  function ReadAll(limit: u64, s: seq<byte>): Stream
    decreases |s|
  {
    var next := ReadRequest(limit, s);
    if next.Err? then Stream([], Some(next.error))
    else if next.value.None? then Stream([], None)
    else
      ReadCanonical(limit, s);
      var later := ReadAll(limit, next.value.value.rest);
      Stream([next.value.value.value] + later.requests, later.error)
  }

  /** Any concatenation of accepted frames reads as exactly those requests and then a clean end. */
  lemma {:induction false} StreamRoundTrip(limit: u64, rs: seq<Request>)
    requires AllSendable(limit, rs)
    ensures ReadAll(limit, Frames(rs)) == Stream(rs, None)
  {
    if rs != [] {
      ReadWritten(limit, rs[0], Frames(rs[1..]));
      ReadAllStep(limit, Frames(rs));
      StreamRoundTrip(limit, rs[1..]);
      FirstAndRest(rs);
    }
  }

  /** The converse: a stream that ends cleanly is the concatenation of the accepted frames read from it. */
  lemma {:induction false} StreamCanonical(limit: u64, s: seq<byte>)
    requires ReadAll(limit, s).error == None
    ensures AllSendable(limit, ReadAll(limit, s).requests) && Frames(ReadAll(limit, s).requests) == s
    decreases |s|
  {
    if s != [] {
      ReadCanonical(limit, s);
      var d := ReadRequest(limit, s).value.value;
      StreamCanonical(limit, d.rest);
      var all := ReadAll(limit, s).requests;
      assert all[1..] == ReadAll(limit, d.rest).requests;
      forall i | 0 <= i < |all| ensures Sendable(limit, all[i]) {
        assert i > 0 ==> all[i] == all[1..][i - 1];
      }
    }
  }

  // ---------------------------------------------------------------- response frames

  lemma ReadResponseWritten(limit: u64, r: Response, tail: seq<byte>)
    requires |r.payload| <= limit
    ensures ReadResponse(limit, ResponseFrame(r) + tail) == Ok(Read(r, tail))
  {
    var h := ResponseHeader(r.success, r.shared, |r.payload|);
    Assoc(ResponseHeaderBytes(h), r.payload, tail);
    Cut(ResponseHeaderBytes(h), r.payload + tail);
    ResponseHeaderRoundTrip(limit, h);
    Cut(r.payload, tail);
  }

  lemma ReadResponseCanonical(limit: u64, s: seq<byte>)
    requires ReadResponse(limit, s).Ok?
    ensures var d := ReadResponse(limit, s).value; s == ResponseFrame(d.value) + d.rest && |d.value.payload| <= limit
  {
    ResponseHeaderCanonical(limit, s[..RESPONSE_HEADER]);
    var h := DecodeResponseHeader(limit, s[..RESPONSE_HEADER]).value;
    var rest := s[RESPONSE_HEADER..];
    Rejoin(s, RESPONSE_HEADER);
    Rejoin(rest, h.payload);
    Assoc(s[..RESPONSE_HEADER], rest[..h.payload], rest[h.payload..]);
  }

  // ---------------------------------------------------------------- how many bytes a reader asks for

  /** Bytes `read_request` still asks for after it has taken `got`; 0 once it has its answer. */
  function RequestNeed(limit: u64, got: seq<byte>): nat {
    if |got| < REQUEST_HEADER then REQUEST_HEADER - |got|
    else match DecodeRequestHeader(limit, got[..REQUEST_HEADER])
      case Err(_) => 0
      case Ok(h) =>
        var rest := got[REQUEST_HEADER..];
        if |rest| < h.metadata then h.metadata - |rest|
        else match DecodeMatching(h.kind, rest[..h.metadata])
          case Err(_) => 0
          case Ok(_) => if |rest| < h.metadata + h.payload then h.metadata + h.payload - |rest| else 0
  }

  function ResponseNeed(limit: u64, got: seq<byte>): nat {
    if |got| < RESPONSE_HEADER then RESPONSE_HEADER - |got|
    else match DecodeResponseHeader(limit, got[..RESPONSE_HEADER])
      case Err(_) => 0
      case Ok(h) =>
        var rest := got[RESPONSE_HEADER..];
        if |rest| < h.payload then h.payload - |rest| else 0
  }

  /** Within a frame the reader never asks beyond the frame, and when it stops it has the frame or refuses its arguments. */
  lemma RequestNeedWithin(limit: u64, r: Request, k: nat)
    requires Writable(limit, r) && k <= |RequestFrame(r)|
    ensures var got := RequestFrame(r)[..k];
            && RequestNeed(limit, got) <= |RequestFrame(r)| - k
            && (FewArguments(r.meta) ==> (RequestNeed(limit, got) == 0 <==> k == |RequestFrame(r)|))
            && (RequestNeed(limit, got) == 0 && !FewArguments(r.meta) ==> ReadRequest(limit, got) == Err(TooManyArguments))
  {
    var h := HeaderOf(r);
    FrameParts(RequestHeaderBytes(h), Encode(r.meta), r.payload, k);
    RequestHeaderRoundTrip(limit, h);
    RoundTrip(r.meta);
  }

  lemma FrameParts(a: seq<byte>, b: seq<byte>, c: seq<byte>, k: nat)
    requires k <= |a + b + c|
    ensures |a| <= k ==> (a + b + c)[..k][..|a|] == a
    ensures |a| + |b| <= k ==> (a + b + c)[..k][|a|..][..|b|] == b
  {
  }

  lemma ResponseNeedWithin(limit: u64, r: Response, k: nat)
    requires |r.payload| <= limit && k <= |ResponseFrame(r)|
    ensures var need := ResponseNeed(limit, ResponseFrame(r)[..k]);
            need <= |ResponseFrame(r)| - k && (need == 0 <==> k == |ResponseFrame(r)|)
  {
    var f, h := ResponseFrame(r), ResponseHeader(r.success, r.shared, |r.payload|);
    if k >= RESPONSE_HEADER {
      assert f[..k][..RESPONSE_HEADER] == ResponseHeaderBytes(h);
      ResponseHeaderRoundTrip(limit, h);
    }
  }

  // ---------------------------------------------------------------- blocking readers and writers

  /** One end of a socket whose peer has written `input` and closed. */
  class Socket {
    var input: seq<byte>
    var output: seq<byte>

    constructor (bytes: seq<byte>)
      ensures input == bytes && output == []
    {
      input, output := bytes, [];
    }

    method ReadExact(n: nat) returns (r: Option<seq<byte>>)
      modifies this`input
      ensures if |old(input)| < n then r == None else r == Some(old(input)[..n]) && input == old(input)[n..]
    {
      if |input| < n {
        return None;
      }
      r := Some(input[..n]);
      input := input[n..];
    }

    method WriteAll(bytes: seq<byte>)
      modifies this`output
      ensures output == old(output) + bytes
    {
      output := output + bytes;
    }

    method TakeRequest(limit: u64) returns (r: Result<Option<Request>, Error>)
      modifies this`input
      ensures match ReadRequest(limit, old(input))
              case Err(e) => r == Err(e)
              case Ok(next) =>
                if next.None? then r == Ok(None) && input == [] else r == Ok(Some(next.value.value)) && input == next.value.rest
    {
      if input == [] {
        return Ok(None);
      }
      ghost var start := input;
      var first := ReadExact(1);
      var others := ReadExact(REQUEST_HEADER - 1);
      if others.None? {
        return Err(ShortHeader);
      }
      assert first.value + others.value == start[..REQUEST_HEADER];
      assert input == start[REQUEST_HEADER..];
      var header :- DecodeRequestHeader(limit, first.value + others.value);
      var bytes := ReadExact(header.metadata);
      if bytes.None? {
        return Err(ShortMetadata);
      }
      var meta :- DecodeMetadata(bytes.value);
      if header.kind != Kind(meta) {
        return Err(KindMismatch);
      }
      var payload := ReadExact(header.payload);
      if payload.None? {
        return Err(ShortPayload);
      }
      return Ok(Some(Request(meta, header.shared, payload.value)));
    }

    /** Refuses before the first byte or writes the whole frame. */
    method PutRequest(limit: u64, r: Request) returns (ok: bool)
      modifies this`output
      ensures ok == Writable(limit, r)
      ensures output == old(output) + if ok then RequestFrame(r) else []
    {
      var bytes := EncodeMetadata(r.meta);
      var header := CheckRequest(limit, RequestHeader(Kind(r.meta), r.shared, |bytes|, |r.payload|));
      if header.Err? {
        return false;
      }
      WriteAll(RequestHeaderBytes(header.value));
      WriteAll(bytes);
      WriteAll(r.payload);
      Concat3(old(output), RequestHeaderBytes(header.value), bytes, r.payload);
      return true;
    }

    method TakeResponse(limit: u64) returns (r: Result<Response, Error>)
      modifies this`input
      ensures match ReadResponse(limit, old(input))
              case Err(e) => r == Err(e)
              case Ok(d) => r == Ok(d.value) && input == d.rest
    {
      var bytes := ReadExact(RESPONSE_HEADER);
      if bytes.None? {
        return Err(ShortHeader);
      }
      var header :- DecodeResponseHeader(limit, bytes.value);
      var payload := ReadExact(header.payload);
      if payload.None? {
        return Err(ShortPayload);
      }
      return Ok(Response(header.success, header.shared, payload.value));
    }

    method PutResponse(limit: u64, r: Response) returns (ok: bool)
      modifies this`output
      ensures ok == (|r.payload| <= limit)
      ensures output == old(output) + if ok then ResponseFrame(r) else []
    {
      var header := CheckResponse(limit, ResponseHeader(r.success, r.shared, |r.payload|));
      if header.Err? {
        return false;
      }
      WriteAll(ResponseHeaderBytes(header.value));
      WriteAll(r.payload);
      return true;
    }
  }

  /** The child's outer loop as far as reading goes: requests until a clean end or an error. */
  method Drain(limit: u64, s: seq<byte>) returns (all: Stream)
    ensures all == ReadAll(limit, s)
  {
    var socket := new Socket(s);
    var got: seq<Request> := [];
    while true
      invariant var later := ReadAll(limit, socket.input);
                ReadAll(limit, s) == Stream(got + later.requests, later.error)
      decreases |socket.input|
    {
      ghost var before := socket.input;
      var next := socket.TakeRequest(limit);
      match next {
        case Err(e) => return Stream(got, Some(e));
        case Ok(None) => return Stream(got, None);
        case Ok(Some(r)) =>
          DrainStep(limit, s, before, got);
          got := got + [r];
      }
    }
  }

  lemma DrainStep(limit: u64, s: seq<byte>, before: seq<byte>, got: seq<Request>)
    requires ReadAll(limit, s) == Stream(got + ReadAll(limit, before).requests, ReadAll(limit, before).error)
    requires ReadRequest(limit, before).Ok? && ReadRequest(limit, before).value.Some?
    ensures var d := ReadRequest(limit, before).value.value;
            var later := ReadAll(limit, d.rest);
            |d.rest| < |before| && ReadAll(limit, s) == Stream(got + [d.value] + later.requests, later.error)
  {
    ReadAllStep(limit, before);
    var d := ReadRequest(limit, before).value.value;
    Assoc(got, [d.value], ReadAll(limit, d.rest).requests);
  }

  lemma ReadAllStep(limit: u64, s: seq<byte>)
    requires ReadRequest(limit, s).Ok? && ReadRequest(limit, s).value.Some?
    ensures var d := ReadRequest(limit, s).value.value;
            var later := ReadAll(limit, d.rest);
            |d.rest| < |s| && ReadAll(limit, s) == Stream([d.value] + later.requests, later.error)
  {
    ReadCanonical(limit, s);
  }
}
