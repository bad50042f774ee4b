/** Runs of the parent/child machine that reach the two states in which a tempting promise fails. */
module IpcRuns {
  import opened Basics
  import opened Wire
  import opened Protocol
  import opened Frame
  import opened Ipc
  import opened IpcTheorems

  ghost predicate Reachable(s: State) {
    exists r :: Run(r) && r[|r| - 1] == s
  }

  lemma Reach(s: State, step: Step, s': State)
    requires Reachable(s) && Does(s, step, s')
    ensures Reachable(s')
  {
    var r :| Run(r) && r[|r| - 1] == s;
    var r' := r + [s'];
    forall i | 0 <= i < |r'| - 1 ensures StepAt(r', i) {
      if i < |r| - 1 {
        assert StepAt(r, i);
      }
    }
    assert Run(r');
  }

  lemma ReachStart(s: State)
    requires Init(s)
    ensures Reachable(s)
  {
    assert Run([s]);
  }

  // ---------------------------------------------------------------- one exchange, byte by byte

  /** The state of an exchange whose first `k` request bytes have been written and taken. */
  function Asked(s: State, job: Job, request: Request, k: nat): State
    requires k <= |RequestFrame(request)|
  {
    s.(parent := Sending(job, request, RequestFrame(request)[k..]),
       link := s.link.(child := Awaiting(RequestFrame(request)[..k]), toChild := []))
  }

  /** Moving one byte across the cut of a frame. */
  lemma NextByte(frame: seq<byte>, k: nat)
    requires k < |frame|
    ensures frame[k..][..1] == [frame[k]] && frame[k..][1..] == frame[k + 1..]
    ensures frame[..k] + [frame[k]][..1] == frame[..k + 1] && [frame[k]][1..] == []
  {
  }

  lemma AskByte(s: State, job: Job, request: Request, k: nat)
    requires s.config.capacity > 0 && Sendable(s.config.limit, request)
    requires k < |RequestFrame(request)| && Reachable(Asked(s, job, request, k))
    ensures Reachable(Asked(s, job, request, k + 1))
  {
    var frame, a, b := RequestFrame(request), Asked(s, job, request, k), Asked(s, job, request, k + 1);
    var mid := b.(link := a.link.(toChild := [frame[k]]));
    NextByte(frame, k);
    assert Writes(a, mid, 1);
    assert TransferDoes(a, Writing(1), mid);
    Reach(a, Writing(1), mid);
    RequestNeedWithin(s.config.limit, request, k);
    assert ChildTakes(mid, b, 1);
    assert ChildDoes(mid, ChildTaking(1), b);
    Reach(mid, ChildTaking(1), b);
  }

  /** A chain of single steps. */
  lemma {:induction false} Climb(holds: nat -> bool, n: nat)
    requires holds(0) && forall k {:trigger holds(k)} | 0 <= k < n && holds(k) :: holds(k + 1)
    ensures holds(n)
  {
    if n > 0 {
      Climb(holds, n - 1);
    }
  }

  lemma AskAll(s: State, job: Job, request: Request)
    requires s.config.capacity > 0 && Sendable(s.config.limit, request) && Reachable(Asked(s, job, request, 0))
    ensures Reachable(Asked(s, job, request, |RequestFrame(request)|))
  {
    var n := |RequestFrame(request)|;
    var holds := (k: nat) => k <= n && Reachable(Asked(s, job, request, k));
    forall k | 0 <= k < n && holds(k) ensures holds(k + 1) {
      AskByte(s, job, request, k);
    }
    Climb(holds, n);
  }

  /** A request that is about to be sent to a quiet child. */
  predicate Poised(s: State, job: Job, request: Request) {
    && s.parent == Sending(job, request, RequestFrame(request)) && FullyQuiet(s.link) && s.link.reply.None?
    && s.config.capacity > 0 && Sendable(s.config.limit, request)
  }

  /** An answer the child may give to it. */
  predicate MayAnswer(s: State, request: Request, done: Done, held: map<Key, Value>, segment: Option<Segment>) {
    && done.request == request && done.input == InputOf(s.config, s.link, request, true) && done.input.Some?
    && Runs(s.link.held, held, request.meta, done.input.value, done.success, done.bytes)
    && done.used == Used(s.link.held, request.meta)
    && Answers(s.config, done.success, done.bytes, done.answer, segment)
    && |done.answer.payload| <= s.config.limit
  }

  /** The parent has sent everything and the child has the answer ready. */
  function ServedState(s: State, job: Job, request: Request, done: Done, held: map<Key, Value>, segment: Option<Segment>): State {
    s.(parent := Sending(job, request, []),
       link := s.link.(child := Answering(ResponseFrame(done.answer), segment.Some?), held := held,
                       responseSegment := segment, reply := Some(done)))
  }

  lemma WholeRequest(limit: u64, request: Request)
    requires Sendable(limit, request)
    ensures RequestNeed(limit, RequestFrame(request)) == 0
    ensures ReadRequest(limit, RequestFrame(request)) == Ok(Some(Read(request, [])))
  {
    var frame := RequestFrame(request);
    assert frame[..|frame|] == frame && frame + [] == frame;
    RequestNeedWithin(limit, request, |frame|);
    ReadWritten(limit, request, []);
  }

  lemma ReachServed(s: State, job: Job, request: Request, done: Done, held: map<Key, Value>, segment: Option<Segment>)
    requires Reachable(s) && Poised(s, job, request) && MayAnswer(s, request, done, held, segment)
    ensures Reachable(ServedState(s, job, request, done, held, segment))
  {
    AskedEnds(s, job, request);
    AskAll(s, job, request);
    var a, b := Asked(s, job, request, |RequestFrame(request)|), ServedState(s, job, request, done, held, segment);
    ServesAsked(s, job, request, done, held, segment);
    Reach(a, Serving(true, done, held, segment), b);
  }

  lemma AskedEnds(s: State, job: Job, request: Request)
    requires Poised(s, job, request)
    ensures Asked(s, job, request, 0) == s
  {
    var frame := RequestFrame(request);
    assert frame[0..] == frame && frame[..0] == [];
  }

  lemma ServesAsked(s: State, job: Job, request: Request, done: Done, held: map<Key, Value>, segment: Option<Segment>)
    requires Poised(s, job, request) && MayAnswer(s, request, done, held, segment)
    ensures Does(Asked(s, job, request, |RequestFrame(request)|), Serving(true, done, held, segment),
                 ServedState(s, job, request, done, held, segment))
  {
    var frame := RequestFrame(request);
    assert frame[|frame|..] == [] && frame[..|frame|] == frame;
    WholeRequest(s.config.limit, request);
    var a, b := Asked(s, job, request, |frame|), ServedState(s, job, request, done, held, segment);
    assert Serves(a, b, true, done, held, segment);
    assert ChildDoes(a, Serving(true, done, held, segment), b);
  }

  /** The state after `k` bytes of the answer have been written and read. */
  function Told(s: State, job: Job, request: Request, answer: Response, keep: bool, k: nat): State
    requires k <= |ResponseFrame(answer)|
  {
    s.(parent := Receiving(job, request, ResponseFrame(answer)[..k]),
       link := s.link.(child := if k < |ResponseFrame(answer)| then Answering(ResponseFrame(answer)[k..], keep)
                                else if keep then AwaitingAck else Awaiting([])))
  }

  lemma TellByte(s: State, job: Job, request: Request, answer: Response, keep: bool, k: nat)
    requires s.config.capacity > 0 && s.link.toParent == [] && |answer.payload| <= s.config.limit
    requires k < |ResponseFrame(answer)| && Reachable(Told(s, job, request, answer, keep, k))
    ensures Reachable(Told(s, job, request, answer, keep, k + 1))
  {
    var frame, a, b := ResponseFrame(answer), Told(s, job, request, answer, keep, k), Told(s, job, request, answer, keep, k + 1);
    var mid := b.(parent := a.parent, link := b.link.(toParent := [frame[k]]));
    NextByte(frame, k);
    assert ChildWrites(a, mid, 1);
    assert ChildDoes(a, ChildWriting(1), mid);
    Reach(a, ChildWriting(1), mid);
    ResponseNeedWithin(s.config.limit, answer, k);
    assert Reads(mid, b, 1);
    assert TransferDoes(mid, Reading(1), b);
    Reach(mid, Reading(1), b);
  }

  lemma TellAll(s: State, job: Job, request: Request, answer: Response, keep: bool)
    requires s.config.capacity > 0 && s.link.toParent == [] && |answer.payload| <= s.config.limit
    requires Reachable(Told(s, job, request, answer, keep, 0))
    ensures Reachable(Told(s, job, request, answer, keep, |ResponseFrame(answer)|))
  {
    var n := |ResponseFrame(answer)|;
    var holds := (k: nat) => k <= n && Reachable(Told(s, job, request, answer, keep, k));
    forall k | 0 <= k < n && holds(k) ensures holds(k + 1) {
      TellByte(s, job, request, answer, keep, k);
    }
    Climb(holds, n);
  }

  /** The parent has the whole answer. */
  function AnsweredState(s: State, job: Job, request: Request, done: Done, held: map<Key, Value>, segment: Option<Segment>): State {
    s.(parent := Receiving(job, request, ResponseFrame(done.answer)),
       link := s.link.(child := if segment.Some? then AwaitingAck else Awaiting([]), held := held,
                       responseSegment := segment, reply := Some(done)))
  }

  lemma ReachAnswered(s: State, job: Job, request: Request, done: Done, held: map<Key, Value>, segment: Option<Segment>)
    requires Reachable(s) && Poised(s, job, request) && MayAnswer(s, request, done, held, segment)
    ensures Reachable(AnsweredState(s, job, request, done, held, segment))
    ensures ResponseNeed(s.config.limit, ResponseFrame(done.answer)) == 0
    ensures ReadResponse(s.config.limit, ResponseFrame(done.answer)) == Ok(Read(done.answer, []))
  {
    var frame := ResponseFrame(done.answer);
    ReachServed(s, job, request, done, held, segment);
    var a := ServedState(s, job, request, done, held, segment);
    assert frame[0..] == frame && frame[..0] == [] && frame[..|frame|] == frame && frame + [] == frame;
    var b := Told(a, job, request, done.answer, segment.Some?, 0);
    assert TransferDoes(a, Turning, b);
    Reach(a, Turning, b);
    TellAll(a, job, request, done.answer, segment.Some?);
    assert Told(a, job, request, done.answer, segment.Some?, |frame|) == AnsweredState(s, job, request, done, held, segment);
    ResponseNeedWithin(s.config.limit, done.answer, |frame|);
    ReadResponseWritten(s.config.limit, done.answer, []);
  }

  // ---------------------------------------------------------------- an acknowledgement that outlives its task

  function Fresh(config: Config, registry: Registry): State {
    State(config, registry, map[], Link([], [], Awaiting([]), map[], None, None, None),
          BootWasms(map k | k in registry.entries && k.WasmKey? :: registry.entries[k]))
  }

  const EMPTY: Registry := Registry(map[], 0, map[])

  const PYTHON: Task := Task(Python, [])

  /** The dylib snapshot is empty, so the worker is handed over. */
  lemma ReachAcquired(d: State, task: Task) returns (s: State)
    requires Reachable(d) && d.parent == BootWasms(map[]) && IsTask(task) && forall k | k in d.registry.entries :: k.WasmKey?
    ensures Reachable(s) && s == d.(parent := Acquired(task))
  {
    var e := d.(parent := BootDylibs(map k | k in d.registry.entries && k.DylibKey? :: d.registry.entries[k]));
    assert OwnerDoes(d, Booting(WasmKey([]), task), e);
    Reach(d, Booting(WasmKey([]), task), e);
    assert e.parent.todo == map[];
    s := e.(parent := Acquired(task));
    assert OwnerDoes(e, Booting(WasmKey([]), task), s);
    Reach(e, Booting(WasmKey([]), task), s);
  }

  /** With nothing registered a new worker goes straight to the request of its first task. */
  lemma ReachPythonRequest(config: Config) returns (s: State)
    requires config.capacity > 0
    ensures Reachable(s) && Poised(s, Execute(PYTHON, None), Request(Python, false, [])) && s.config == config
    ensures s.link.held == map[] && s.link.requestSegment == None
  {
    var a := Fresh(config, EMPTY);
    ReachStart(a);
    assert a.parent == BootWasms(map[]);
    var c := ReachAcquired(a, PYTHON);
    var d := c.(parent := Ready(PYTHON, None));
    assert OwnerDoes(c, Syncing(true), d);
    Reach(c, Syncing(true), d);
    s := Begin(d, Execute(PYTHON, None), Request(Python, false, []));
    assert |Encode(Python)| == 1;
    assert OwnerDoes(d, Dispatching([], false), s);
    Reach(d, Dispatching([], false), s);
  }

  /** A task can return any bytes within the limit: a run of a Python task whose body returns them inline. */
  lemma TaskCanReturn(config: Config, bytes: seq<byte>) returns (s: State)
    requires config.capacity > 0 && |bytes| <= config.limit
    ensures Reachable(s) && s.parent == Finished(PYTHON, None, Returned(bytes)) && s.config == config && !s.link.child.Exited?
  {
    var job, request := Execute(PYTHON, None), Request(Python, false, []);
    var a := ReachPythonRequest(config);
    var done := Done(request, Some([]), None, true, bytes, Response(true, false, bytes));
    ReachAnswered(a, job, request, done, map[], None);
    var b := AnsweredState(a, job, request, done, map[], None);
    s := b.(parent := Finished(PYTHON, None, Returned(bytes)));
    assert TransferDoes(b, Concluding, s);
    Reach(b, Concluding, s);
  }

  /** A task can be answered through a segment in every configuration that admits payloads of the threshold size. */
  lemma ReachOpening(config: Config, name: Text) returns (s: State)
    requires config.capacity > 0 && config.threshold <= config.limit && |name| <= config.limit
    ensures Reachable(s) && s.parent.Opening? && s.link.child.AwaitingAck? && s.config == config
  {
    var job, request := Execute(PYTHON, None), Request(Python, false, []);
    var a := ReachPythonRequest(config);
    var bytes: seq<byte> := seq(config.threshold, _ => 0);
    var segment := Some(Segment(name, bytes));
    var done := Done(request, Some([]), None, true, bytes, Response(true, true, name));
    ReachAnswered(a, job, request, done, map[], segment);
    var b := AnsweredState(a, job, request, done, map[], segment);
    s := b.(parent := Opening(PYTHON, None, name));
    assert TransferDoes(b, Concluding, s);
    Reach(b, Concluding, s);
  }

  /**
   * A pooled worker that is not fully quiet, in every configuration that admits payloads of the threshold
   * size: a Python task was answered through a segment and its acknowledgement is still on the way.
   */
  lemma PooledWithAckInFlight(config: Config, name: Text) returns (r: seq<State>)
    requires config.capacity > 0 && config.threshold <= config.limit && |name| <= config.limit
    ensures Run(r) && r[0].config == config
    ensures var last := r[|r| - 1];
            last.parent.Pooled? && last.link.child.AwaitingAck? && last.link.toChild == [1] && !FullyQuiet(last.link)
  {
    var s := ReachOpening(config, name);
    var r0 :| Run(r0) && r0[|r0| - 1] == s;
    r := AckCanOutliveTask(r0);
    ConfigStays(r0, |r0| - 1);
    assert r[0] == r0[0];
  }

  lemma ConfigAt(r: seq<State>, n: nat)
    requires Run(r) && n + 1 < |r|
    ensures r[n + 1].config == r[n].config
  {
    assert StepAt(r, n);
    ConfigStep(r[n], r[n + 1]);
  }

  lemma {:induction false} ConfigStays(r: seq<State>, n: nat)
    requires Run(r) && n < |r|
    ensures r[n].config == r[0].config
  {
    if n > 0 {
      ConfigStays(r, n - 1);
      ConfigAt(r, n - 1);
    }
  }

  lemma ConfigStep(s: State, s': State)
    requires Next(s, s')
    ensures s'.config == s.config
  {
  }

  // ---------------------------------------------------------------- a record behind the child

  /** The entry that publication number `generation` made. */
  function Published(key: Key, value: Value, generation: nat): Registry {
    Registry(map[key := Entry(value, generation)], generation + 1, map[generation := Stored(key, value)])
  }

  function RegisteredDone(key: Key, value: Value): Done
    requires Fits(key, value)
  {
    var request := Registration(key, value);
    Done(request, Some(request.payload), None, true, [], Response(true, false, []))
  }

  /** A registration exchange can always succeed with an inline answer. */
  lemma RegistrationAnswers(s: State, key: Key, value: Value)
    requires Fits(key, value)
    ensures MayAnswer(s, Registration(key, value), RegisteredDone(key, value), s.link.held[key := value], None)
  {
  }

  /** A worker booted with module `old` under `key`, held by a task that is about to synchronise. */
  lemma ReachBooted(config: Config, key: Key, old_: Value, task: Task) returns (s: State)
    requires config.capacity > 0 && IsTask(task)
    requires key.WasmKey? && Fits(key, old_) && Sendable(config.limit, Registration(key, old_))
    ensures Reachable(s) && s.parent == Acquired(task) && s.registry == Published(key, old_, 0) && s.config == config
    ensures s.recorded == map[key := 0] && FullyQuiet(s.link) && s.link.held == map[key := old_]
  {
    var registry := Published(key, old_, 0);
    var entry, request := Entry(old_, 0), Registration(key, old_);
    var a := Fresh(config, registry);
    ReachStart(a);
    assert a.parent.todo == map[key := entry];
    var job := Boot(key, entry, a.parent.todo - {key});
    var b := Begin(a, job, request);
    assert OwnerDoes(a, Booting(key, task), b);
    Reach(a, Booting(key, task), b);
    var d := ReachRegistered(b, job, key, old_);
    assert d.parent.todo == map[];
    s := ReachAcquired(d, task);
  }

  lemma ReachRegistered(b: State, job: Job, key: Key, value: Value) returns (d: State)
    requires Reachable(b) && Fits(key, value) && Poised(b, job, Registration(key, value)) && job.Boot?
    ensures Reachable(d) && FullyQuiet(d.link) && d.link.held == b.link.held[key := value]
    ensures d == Registered(b, job).(link := d.link)
  {
    var request, done := Registration(key, value), RegisteredDone(key, value);
    RegistrationAnswers(b, key, value);
    ReachAnswered(b, job, request, done, b.link.held[key := value], None);
    var c := AnsweredState(b, job, request, done, b.link.held[key := value], None);
    d := Registered(c, job);
    assert TransferDoes(c, Concluding, d);
    Reach(c, Concluding, d);
  }

  /**
   * For any two different modules published under one name, a worker that recorded the first holds the second
   * once it has carried out the replacement, while its record still names the first.
   */
  lemma RecordBehindChild(config: Config, key: Key, old_: Value, new_: Value, task: Task) returns (r: seq<State>)
    requires config.capacity > 0 && IsTask(task) && KeyOf(task.meta) == Some(key)
    requires key.WasmKey? && Fits(key, old_) && Fits(key, new_) && old_ != new_
    requires Sendable(config.limit, Registration(key, old_)) && Sendable(config.limit, Registration(key, new_))
    ensures Run(r)
    ensures var last := r[|r| - 1];
            && key in last.recorded && last.recorded[key] in last.registry.log && BeingReplaced(last, key)
            && last.registry.log[last.recorded[key]].value == old_
            && !last.link.child.Exited? && key in last.link.held && last.link.held[key] == new_
  {
    var a := ReachBooted(config, key, old_, task);
    var g := a.registry;
    var b := a.(registry := Registry(g.entries[key := Entry(new_, g.next)], g.next + 1, g.log[g.next := Stored(key, new_)]));
    assert OthersDo(a, Publishing(key, new_), b);
    Reach(a, Publishing(key, new_), b);
    var entry, request, done := Entry(new_, 1), Registration(key, new_), RegisteredDone(key, new_);
    var job := Update(task, key, entry);
    var c := Begin(b, job, request);
    assert OwnerDoes(b, Syncing(true), c);
    Reach(b, Syncing(true), c);
    RegistrationAnswers(c, key, new_);
    ReachServed(c, job, request, done, c.link.held[key := new_], None);
    var d := ServedState(c, job, request, done, c.link.held[key := new_], None);
    r :| Run(r) && r[|r| - 1] == d;
  }
}
