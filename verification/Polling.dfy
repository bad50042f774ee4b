/** The parent's non-blocking response reader: two buffer-filling loops around one header decode. */
module Polling {
  import opened Basics
  import opened Wire
  import opened Protocol
  import opened Frame

  /**
   * What the operating system does at one turn of a polling loop. `Deliver(extra)` is a read that
   * returns up to `1 + extra` bytes if that many have arrived and fit, `Idle` a read that would block
   * followed by a poll that times out, succeeds or is interrupted.
   */
  datatype Event = Deliver(extra: nat) | Idle | Cancel | Hangup | IoError

  /** `Starved` means that the script ends before the loop does. */
  datatype Outcome = Full | Starved | Cancelled | Closed | Failed

  datatype Filled = Filled(outcome: Outcome, taken: seq<byte>, data: seq<byte>, script: seq<Event>)

  function Chunk(extra: nat, need: nat, data: seq<byte>): (n: nat)
    ensures n <= need && n <= |data| && n <= 1 + extra && (need > 0 && data != [] ==> n > 0)
  {
    if 1 + extra <= need && 1 + extra <= |data| then 1 + extra else if need <= |data| then need else |data|
  }

  /** One polling loop that wants `need` bytes from `data`. */
  function Fill(need: nat, data: seq<byte>, script: seq<Event>): Filled
    decreases |script|
  {
    if need == 0 then Filled(Full, [], data, script)
    else if script == [] then Filled(Starved, [], data, script)
    else match script[0]
      case Cancel => Filled(Cancelled, [], data, script[1..])
      case Hangup => Filled(Closed, [], data, script[1..])
      case IoError => Filled(Failed, [], data, script[1..])
      case Idle => Fill(need, data, script[1..])
      case Deliver(extra) =>
        var n := Chunk(extra, need, data);
        var later := Fill(need - n, data[n..], script[1..]);
        later.(taken := data[..n] + later.taken)
  }

  datatype Reply = Answer(response: Response) | Malformed(error: Error) | Stopped(outcome: Outcome)

  datatype Polled = Polled(reply: Reply, data: seq<byte>, script: seq<Event>)

  /** The whole read: the ten header bytes, the header check, then the payload. */
  function Poll(limit: u64, data: seq<byte>, script: seq<Event>): Polled {
    var first := Fill(RESPONSE_HEADER, data, script);
    if first.outcome != Full then Polled(Stopped(first.outcome), first.data, first.script)
    else
      FillTakes(RESPONSE_HEADER, data, script);
      match DecodeResponseHeader(limit, first.taken)
      case Err(e) => Polled(Malformed(e), first.data, first.script)
      case Ok(h) =>
        var body := Fill(h.payload, first.data, first.script);
        if body.outcome != Full then Polled(Stopped(body.outcome), body.data, body.script)
        else Polled(Answer(Response(h.success, h.shared, body.taken)), body.data, body.script)
  }

  // ---------------------------------------------------------------- what the loops achieve

  /** A loop takes a prefix of the stream: all it wants when it ends full, and less than that otherwise. */
  lemma {:induction false} FillTakes(need: nat, data: seq<byte>, script: seq<Event>)
    ensures var f := Fill(need, data, script);
            data == f.taken + f.data && (if f.outcome == Full then |f.taken| == need else |f.taken| < need)
    decreases |script|
  {
    if need > 0 && script != [] {
      match script[0] {
        case Deliver(extra) =>
          var n := Chunk(extra, need, data);
          FillTakes(need - n, data[n..], script[1..]);
          var later := Fill(need - n, data[n..], script[1..]);
          Rejoin(data, n);
          Assoc(data[..n], later.taken, later.data);
        case Idle => FillTakes(need, data, script[1..]);
        case _ =>
      }
    }
  }

  /** The event that ends a loop early, if `outcome` is an early end. */
  function Cause(outcome: Outcome): Event
    requires outcome == Cancelled || outcome == Closed || outcome == Failed
  {
    match outcome
    case Cancelled => Cancel
    case Closed => Hangup
    case Failed => IoError
  }

  /**
   * A loop obeys the first disturbance: it passes over reads and idle polls only, ends early exactly on the event
   * that says so, and runs dry only when every event was harmless.
   */
  lemma {:induction false} FillObeys(need: nat, data: seq<byte>, script: seq<Event>)
    ensures var f := Fill(need, data, script);
            var used := |script| - |f.script|;
            && 0 <= used && f.script == script[used..]
            && match f.outcome
               case Full => Undisturbed(script[..used])
               case Starved => f.script == [] && Undisturbed(script)
               case _ => used > 0 && script[used - 1] == Cause(f.outcome) && Undisturbed(script[..used - 1])
    decreases |script|
  {
    if need > 0 && script != [] && (script[0].Deliver? || script[0].Idle?) {
      var n := if script[0].Deliver? then Chunk(script[0].extra, need, data) else 0;
      FillObeys(need - n, data[n..], script[1..]);
      assert data[0..] == data;
      var f := Fill(need, data, script);
      var used := |script| - |f.script|;
      assert script[1..][..used - 1] == script[..used][1..];
      assert used > 1 ==> script[1..][..used - 2] == script[..used - 1][1..];
    }
  }

  predicate Undisturbed(script: seq<Event>) {
    forall i | 0 <= i < |script| :: script[i].Deliver? || script[i].Idle?
  }

  function Deliveries(script: seq<Event>): nat {
    if script == [] then 0 else (if script[0].Deliver? then 1 else 0) + Deliveries(script[1..])
  }

  /** Every delivery makes progress, so as many of them as there are bytes always suffice. */
  lemma {:induction false} FillFinishes(need: nat, data: seq<byte>, script: seq<Event>)
    requires Undisturbed(script) && need <= |data| && need <= Deliveries(script)
    ensures var f := Fill(need, data, script);
            f.outcome == Full && Undisturbed(f.script) && Deliveries(f.script) + need >= Deliveries(script)
    decreases |script|
  {
    if need > 0 {
      if script[0].Deliver? {
        var n := Chunk(script[0].extra, need, data);
        FillFinishes(need - n, data[n..], script[1..]);
      } else {
        FillFinishes(need, data, script[1..]);
      }
    }
  }

  /** The bytes `read_response` has to see before it can answer. */
  function Extent(limit: u64, data: seq<byte>): nat
    requires |data| >= RESPONSE_HEADER
  {
    match DecodeResponseHeader(limit, data[..RESPONSE_HEADER])
    case Err(_) => RESPONSE_HEADER
    case Ok(h) => RESPONSE_HEADER + h.payload
  }

  /** Whatever the chunking, an answer or a refusal is the one the blocking reader gives, and it takes the same bytes. */
  lemma PollRefines(limit: u64, data: seq<byte>, script: seq<Event>)
    ensures var p := Poll(limit, data, script);
            && (p.reply.Answer? ==> ReadResponse(limit, data) == Ok(Read(p.reply.response, p.data)) &&
                                    |data| - |p.data| == RESPONSE_HEADER + |p.reply.response.payload|)
            && (p.reply.Malformed? ==> ReadResponse(limit, data) == Err(p.reply.error))
            && p.reply != Stopped(Full)
  {
    FillTakes(RESPONSE_HEADER, data, script);
    var first := Fill(RESPONSE_HEADER, data, script);
    if first.outcome == Full {
      Cut(first.taken, first.data);
      var header := DecodeResponseHeader(limit, first.taken);
      if header.Ok? {
        var n := header.value.payload;
        FillTakes(n, first.data, first.script);
        var body := Fill(n, first.data, first.script);
        Cut(body.taken, body.data);
      }
    }
  }

  /** Without cancellation, hang-up or error, enough deliveries of enough bytes give the blocking reader's answer. */
  lemma PollCompletes(limit: u64, data: seq<byte>, script: seq<Event>)
    requires |data| >= RESPONSE_HEADER && |data| >= Extent(limit, data)
    requires Undisturbed(script) && Deliveries(script) >= Extent(limit, data)
    ensures var p := Poll(limit, data, script);
            match ReadResponse(limit, data)
            case Ok(d) => p.reply == Answer(d.value) && p.data == d.rest
            case Err(e) => p.reply == Malformed(e)
  {
    FillTakes(RESPONSE_HEADER, data, script);
    FillFinishes(RESPONSE_HEADER, data, script);
    var first := Fill(RESPONSE_HEADER, data, script);
    Cut(first.taken, first.data);
    var header := DecodeResponseHeader(limit, first.taken);
    if header.Ok? {
      FillFinishes(header.value.payload, first.data, first.script);
    }
    PollRefines(limit, data, script);
  }

  // ---------------------------------------------------------------- the loops themselves

  /** The parent's end of the worker socket in non-blocking mode. */
  class Channel {
    var data: seq<byte>
    var script: seq<Event>

    constructor (bytes: seq<byte>, events: seq<Event>)
      ensures data == bytes && script == events
    {
      data, script := bytes, events;
    }

    /** `while read < buf.len()`: cancellation check, read into the free part of the buffer, advance. */
    method FillBuffer(buf: array<byte>) returns (outcome: Outcome)
      modifies this, buf
      ensures var f := Fill(buf.Length, old(data), old(script));
              outcome == f.outcome && data == f.data && script == f.script && (outcome == Full ==> buf[..] == f.taken)
    {
      var read := 0;
      ghost var all := Fill(buf.Length, data, script);
      while read < buf.Length
        invariant read <= buf.Length
        invariant var f := Fill(buf.Length - read, data, script);
                  all == f.(taken := buf[..read] + f.taken)
        decreases |script|
      {
        if script == [] {
          return Starved;
        }
        var event := script[0];
        script := script[1..];
        match event {
          case Cancel => return Cancelled;
          case Hangup => return Closed;
          case IoError => return Failed;
          case Idle =>
          case Deliver(extra) =>
            var n := Chunk(extra, buf.Length - read, data);
            ghost var front, later := buf[..read], Fill(buf.Length - read - n, data[n..], script);
            CopyInto(buf, read, data[..n]);
            Concat3([], front, data[..n], later.taken);
            data := data[n..];
            read := read + n;
        }
      }
      assert buf[..] == buf[..read];
      return Full;
    }

    /** The read itself: the chunk lands behind what is already there. */
    method CopyInto(buf: array<byte>, at: nat, chunk: seq<byte>)
      requires at + |chunk| <= buf.Length
      modifies buf
      ensures buf[..at + |chunk|] == old(buf[..at]) + chunk
    {
      forall i | 0 <= i < |chunk| {
        buf[at + i] := chunk[i];
      }
    }

    method PollResponse(limit: u64) returns (reply: Reply)
      modifies this
      ensures Polled(reply, data, script) == Poll(limit, old(data), old(script))
    {
      FillTakes(RESPONSE_HEADER, data, script);
      var header := new byte[RESPONSE_HEADER];
      var outcome := FillBuffer(header);
      if outcome != Full {
        return Stopped(outcome);
      }
      var h := DecodeResponseHeader(limit, header[..]);
      if h.Err? {
        return Malformed(h.error);
      }
      var body := new byte[h.value.payload];
      outcome := FillBuffer(body);
      if outcome != Full {
        return Stopped(outcome);
      }
      return Answer(Response(h.value.success, h.value.shared, body[..]));
    }
  }
}
