/**
 * One worker process and the parent thread that owns it: two automata joined by two byte streams,
 * with lazy registration traffic, shared-memory segments and the one-byte acknowledgement. Other
 * threads change the parent's registry at any moment. A worker belongs to one thread at a time, so
 * other workers are not part of the state.
 */
module Ipc {
  import opened Basics
  import opened Wire
  import opened Protocol
  import opened Frame

  // ---------------------------------------------------------------- registries

  datatype Key = WasmKey(name: Text) | DylibKey(name: Text)

  datatype Value = Module(bytes: seq<byte>) | Library(path: Text, freeFn: Option<Text>)

  datatype Entry = Entry(value: Value, generation: nat)

  datatype RegistrySync = Missing | Current | Changed(entry: Entry)

  function Known(recorded: map<Key, nat>, key: Key): Option<nat> {
    if key in recorded then Some(recorded[key]) else None
  }

  /** `registry_sync`: compares the generation the worker is known to have with the parent's. */
  function Sync(registrations: map<Key, Entry>, key: Key, known: Option<nat>): RegistrySync {
    if key !in registrations then Missing
    else if known == Some(registrations[key].generation) then Current
    else Changed(registrations[key])
  }

  /** What was stored under a generation. */
  datatype Stored = Stored(key: Key, value: Value)

  /** The two generation-stamped maps behind one key space, and everything ever stored. */
  datatype Registry = Registry(entries: map<Key, Entry>, next: nat, log: map<nat, Stored>)

  predicate Fits(key: Key, value: Value) {
    key.WasmKey? == value.Module?
  }

  function Registration(key: Key, value: Value): Request
    requires Fits(key, value)
  {
    match value
    case Module(bytes) => Request(RegisterWasm(key.name), false, bytes)
    case Library(path, freeFn) => Request(RegisterDylib(key.name, path, freeFn), false, [])
  }

  function Unregistration(key: Key): Request {
    Request(UnregisterDylib(key.name), false, [])
  }

  // ---------------------------------------------------------------- the two automata

  datatype Task = Task(meta: Metadata, payload: seq<byte>)

  predicate IsTask(t: Task) {
    t.meta.Python? || t.meta.Wasm? || t.meta.Dylib?
  }

  function KeyOf(m: Metadata): Option<Key> {
    match m
    case Wasm(module_, _, _, _) => Some(WasmKey(module_))
    case Dylib(plugin, _, _) => Some(DylibKey(plugin))
    case _ => None
  }

  /** What the parent does with the answer to the exchange in progress. */
  datatype Job =
    | Boot(key: Key, entry: Entry, todo: map<Key, Entry>)
    | Drop(task: Task, key: Key, entry: Entry)
    | Update(task: Task, key: Key, entry: Entry)
    | Execute(task: Task, seen: Option<Entry>)

  datatype Outcome = Returned(bytes: seq<byte>) | Refused(text: seq<byte>) | Unopened

  datatype ParentPc =
    | BootWasms(todo: map<Key, Entry>)
    | BootDylibs(todo: map<Key, Entry>)
    | Pooled
    | Acquired(task: Task)
    | Stale(task: Task, key: Key, entry: Entry)
    | Ready(task: Task, seen: Option<Entry>)
    | Sending(job: Job, request: Request, unsent: seq<byte>)
    | Receiving(job: Job, request: Request, got: seq<byte>)
    | Opening(task: Task, seen: Option<Entry>, name: seq<byte>)
    | Finished(task: Task, seen: Option<Entry>, outcome: Outcome)
    | Dropped

  datatype ChildPc =
    | Awaiting(taken: seq<byte>)
    | Answering(unsent: seq<byte>, keep: bool)
    | AwaitingAck
    | Exited

  datatype Segment = Segment(name: seq<byte>, bytes: seq<byte>)

  /**
   * The child's latest answer and how it came about: the payload it ran on, absent when the request's
   * segment was unusable, and the registration it ran against.
   */
  datatype Done = Done(request: Request, input: Option<seq<byte>>, used: Option<Value>,
                       success: bool, bytes: seq<byte>, answer: Response)

  datatype Link = Link(toChild: seq<byte>, toParent: seq<byte>, child: ChildPc, held: map<Key, Value>,
                       requestSegment: Option<Segment>, responseSegment: Option<Segment>, reply: Option<Done>)

  /** The largest payload, the size from which segments are used, and what each stream can hold unread. */
  datatype Config = Config(limit: u64, threshold: nat, capacity: nat)

  datatype State = State(config: Config, registry: Registry, recorded: map<Key, nat>, link: Link, parent: ParentPc)

  // ---------------------------------------------------------------- other threads

  ghost predicate Publish(s: State, s': State, key: Key, value: Value) {
    var r := s.registry;
    && Fits(key, value)
    && s' == s.(registry := Registry(r.entries[key := Entry(value, r.next)], r.next + 1,
                                     r.log[r.next := Stored(key, value)]))
  }

  ghost predicate Withdraw(s: State, s': State, key: Key) {
    key.DylibKey? && s' == s.(registry := s.registry.(entries := s.registry.entries - {key}))
  }

  // ---------------------------------------------------------------- the parent

  /** The worker goes out of scope: its child is killed. */
  function Kill(s: State): State {
    s.(parent := Dropped, link := s.link.(child := Exited))
  }

  /** `write_request` refuses before the first byte, and the caller then loses the worker. */
  function Begin(s: State, job: Job, request: Request): State {
    if Writable(s.config.limit, request)
    then s.(parent := Sending(job, request, RequestFrame(request)), link := s.link.(reply := None))
    else Kill(s)
  }

  predicate Boots(s: State, s': State, key: Key, task: Task) {
    match s.parent
    case BootWasms(todo) =>
      if todo == map[] then s' == s.(parent := BootDylibs(map k | k in s.registry.entries && k.DylibKey? :: s.registry.entries[k]))
      else key in todo && Fits(key, todo[key].value) &&
           s' == Begin(s, Boot(key, todo[key], todo - {key}), Registration(key, todo[key].value))
    case BootDylibs(todo) =>
      if todo == map[] then IsTask(task) && s' == s.(parent := Acquired(task))
      else key in todo && Fits(key, todo[key].value) &&
           s' == Begin(s, Boot(key, todo[key], todo - {key}), Registration(key, todo[key].value))
    case _ => false
  }

  /** `acquire_worker` hands out a pooled worker; a dead one is dropped, and so is a reaped one. */
  predicate Takes(s: State, s': State, task: Task, retire: bool) {
    s.parent.Pooled? && IsTask(task) && s' == if retire then Kill(s) else s.(parent := Acquired(task))
  }

  /** `release_worker`: recycled, shut down or dead workers are dropped. */
  function Release(s: State, keep: bool): State {
    if keep then s.(parent := Pooled) else Kill(s)
  }

  /** The lazy registry synchronisation. */
  predicate Syncs(s: State, s': State, keep: bool) {
    && s.parent.Acquired?
    && var task := s.parent.task;
       match KeyOf(task.meta)
       case None => s' == s.(parent := Ready(task, None))
       case Some(key) =>
         match Sync(s.registry.entries, key, Known(s.recorded, key))
         case Missing => s' == Release(s, keep)
         case Current => s' == s.(parent := Ready(task, Some(s.registry.entries[key])))
         case Changed(entry) =>
           if key.WasmKey? then Fits(key, entry.value) && s' == Begin(s, Update(task, key, entry), Registration(key, entry.value))
           else if key in s.recorded then s' == Begin(s.(recorded := s.recorded - {key}), Drop(task, key, entry), Unregistration(key))
           else s' == s.(parent := Stale(task, key, entry))
  }

  predicate Reregisters(s: State, s': State) {
    && s.parent.Stale?
    && Fits(s.parent.key, s.parent.entry.value)
    && s' == Begin(s, Update(s.parent.task, s.parent.key, s.parent.entry), Registration(s.parent.key, s.parent.entry.value))
  }

  /** Builds and starts the task's own request, through a segment when the payload is large and one can be made. */
  predicate Dispatches(s: State, s': State, name: Text, made: bool) {
    && s.parent.Ready?
    && var task, job := s.parent.task, Execute(s.parent.task, s.parent.seen);
       if |task.payload| > s.config.limit then s' == Kill(s)
       else if |task.payload| >= s.config.threshold && made then
         s' == Begin(s.(link := s.link.(requestSegment := Some(Segment(name, task.payload)))), job, Request(task.meta, true, name))
       else
         s' == Begin(s.(link := s.link.(requestSegment := None)), job, Request(task.meta, false, task.payload))
  }

  predicate Writes(s: State, s': State, n: nat) {
    && s.parent.Sending?
    && 0 < n <= |s.parent.unsent| && |s.link.toChild| + n <= s.config.capacity
    && s' == s.(parent := Sending(s.parent.job, s.parent.request, s.parent.unsent[n..]),
                link := s.link.(toChild := s.link.toChild + s.parent.unsent[..n]))
  }

  predicate Turns(s: State, s': State) {
    && s.parent.Sending? && s.parent.unsent == []
    && s' == s.(parent := Receiving(s.parent.job, s.parent.request, []))
  }

  predicate Reads(s: State, s': State, n: nat) {
    && s.parent.Receiving?
    && 0 < n <= ResponseNeed(s.config.limit, s.parent.got) && n <= |s.link.toParent|
    && s' == s.(parent := Receiving(s.parent.job, s.parent.request, s.parent.got + s.link.toParent[..n]),
                link := s.link.(toParent := s.link.toParent[n..]))
  }

  /** What follows a successful registration exchange. */
  function Registered(s: State, job: Job): State
    requires !job.Execute?
  {
    match job
    case Boot(key, entry, todo) =>
      s.(recorded := s.recorded[key := entry.generation],
         parent := if key.WasmKey? then BootWasms(todo) else BootDylibs(todo))
    case Drop(task, key, entry) => s.(parent := Stale(task, key, entry))
    case Update(task, key, entry) =>
      s.(recorded := s.recorded[key := entry.generation], parent := Ready(task, Some(entry)))
  }

  predicate Concludes(s: State, s': State) {
    && s.parent.Receiving?
    && ResponseNeed(s.config.limit, s.parent.got) == 0
    && match ReadResponse(s.config.limit, s.parent.got)
       case Err(_) => s' == Kill(s)
       case Ok(d) =>
         if !s.parent.job.Execute? then
           s' == if d.value.shared || !d.value.success then Kill(s) else Registered(s, s.parent.job)
         else
           var task, seen := s.parent.job.task, s.parent.job.seen;
           s' == s.(parent := if d.value.success && d.value.shared then Opening(task, seen, d.value.payload)
                              else if d.value.success then Finished(task, seen, Returned(d.value.payload))
                              else Finished(task, seen, Refused(d.value.payload)))
  }

  /** An acknowledgement that cannot be written is ignored; that happens only when the child is gone. */
  function Acknowledge(k: Link, ack: byte, lost: bool): Link {
    if lost && k.child.Exited? then k else k.(toChild := k.toChild + [ack])
  }

  /** The write of the acknowledgement blocks while the stream is full. */
  predicate CanAcknowledge(s: State) {
    s.link.child.Exited? || |s.link.toChild| < s.config.capacity
  }

  /** Opens the response segment: `usable` is what the operating system says about a segment that exists. */
  predicate Opens(s: State, s': State, usable: bool, lost: bool) {
    && s.parent.Opening?
    && var p, segment := s.parent, s.link.responseSegment;
       if !Utf8(p.name) then s' == Kill(s)
       else if usable && segment.Some? && segment.value.name == p.name then
         if |segment.value.bytes| > s.config.limit then s' == Kill(s)
         else CanAcknowledge(s) &&
              s' == s.(parent := Finished(p.task, p.seen, Returned(segment.value.bytes)),
                       link := Acknowledge(s.link.(responseSegment := None), 1, lost))
       else
         CanAcknowledge(s) &&
         s' == s.(parent := Finished(p.task, p.seen, Unopened), link := Acknowledge(s.link, 0, lost))
  }

  predicate Finishes(s: State, s': State, keep: bool) {
    s.parent.Finished? && s' == Release(s.(link := s.link.(requestSegment := None)), keep)
  }

  /** Cancellation, end of file, input/output errors and poll errors all lose the worker. */
  predicate Aborts(s: State, s': State) {
    (s.parent.Sending? || s.parent.Receiving?) && s' == Kill(s)
  }

  // ---------------------------------------------------------------- the child

  predicate ChildTakes(s: State, s': State, n: nat) {
    && s.link.child.Awaiting?
    && 0 < n <= RequestNeed(s.config.limit, s.link.child.taken) && n <= |s.link.toChild|
    && s' == s.(link := s.link.(child := Awaiting(s.link.child.taken + s.link.toChild[..n]), toChild := s.link.toChild[n..]))
  }

  /** `execute_worker_task`: its effect on the child's registries, and what each arm can return. */
  predicate Runs(held: map<Key, Value>, held': map<Key, Value>, meta: Metadata, input: seq<byte>, success: bool, bytes: seq<byte>) {
    match meta
    case RegisterWasm(name) =>
      (if success then bytes == [] && held' == held[WasmKey(name) := Module(input)] else held' == held)
    case RegisterDylib(name, path, freeFn) =>
      (if success then bytes == [] && held' == held[DylibKey(name) := Library(path, freeFn)] else held' == held)
    case UnregisterDylib(name) =>
      (if success then bytes == [] && held' == held - {DylibKey(name)} else held' == held)
    case _ => held' == held && (success && KeyOf(meta).Some? ==> KeyOf(meta).value in held)
  }

  /** The payload of a request: inline, or the segment it names; `None` if that cannot be used. */
  function InputOf(config: Config, k: Link, r: Request, usable: bool): Option<seq<byte>> {
    if !r.shared then Some(r.payload)
    else if !Utf8(r.payload) || !usable || k.requestSegment.None? || k.requestSegment.value.name != r.payload then None
    else if |k.requestSegment.value.bytes| > config.limit then None
    else Some(k.requestSegment.value.bytes)
  }

  function Used(held: map<Key, Value>, meta: Metadata): Option<Value> {
    var key := KeyOf(meta);
    if key.Some? && key.value in held then Some(held[key.value]) else None
  }

  /** The answer to a finished body: an error text when it is too long, a segment when it is large and one can be made. */
  predicate Answers(config: Config, success: bool, bytes: seq<byte>, answer: Response, segment: Option<Segment>) {
    if !success || |bytes| > config.limit then
      segment == None && answer.success == false && answer.shared == false && (|bytes| <= config.limit ==> answer.payload == bytes)
    else if answer.shared then
      && |bytes| >= config.threshold && Utf8(answer.payload) && answer.success
      && segment == Some(Segment(answer.payload, bytes))
    else
      segment == None && answer == Response(true, false, bytes)
  }

  /** One turn of the child's loop between reading a request and writing the answer. */
  predicate Serves(s: State, s': State, usable: bool, done: Done, held: map<Key, Value>, segment: Option<Segment>) {
    var k, limit := s.link, s.config.limit;
    && k.child.Awaiting?
    && RequestNeed(limit, k.child.taken) == 0
    && match ReadRequest(limit, k.child.taken)
       case Err(_) => s' == s.(link := k.(child := Exited))
       case Ok(d) =>
         && d.Some?
         && done.request == d.value.value
         && done.input == InputOf(s.config, k, done.request, usable)
         && match done.input
            case None =>
              && held == k.held && done.used == None && !done.success && segment == None
              && done.answer == Response(false, false, done.bytes)
              && s' == Answered(s, done, held, segment)
            case Some(input) =>
              && Runs(k.held, held, done.request.meta, input, done.success, done.bytes)
              && done.used == Used(k.held, done.request.meta)
              && Answers(s.config, done.success, done.bytes, done.answer, segment)
              && s' == Answered(s, done, held, segment)
  }

  /** `write_response` refuses an answer over the limit, and the child then exits. */
  function Answered(s: State, done: Done, held: map<Key, Value>, segment: Option<Segment>): State {
    if |done.answer.payload| > s.config.limit
    then s.(link := s.link.(child := Exited, held := held))
    else s.(link := s.link.(child := Answering(ResponseFrame(done.answer), segment.Some?), held := held,
                            responseSegment := segment, reply := Some(done)))
  }

  predicate ChildWrites(s: State, s': State, n: nat) {
    && s.link.child.Answering?
    && var unsent := s.link.child.unsent;
       && 0 < n <= |unsent| && |s.link.toParent| + n <= s.config.capacity
       && s' == s.(link := s.link.(toParent := s.link.toParent + unsent[..n],
                                   child := if n < |unsent| then Answering(unsent[n..], s.link.child.keep)
                                            else if s.link.child.keep then AwaitingAck else Awaiting([])))
  }

  predicate ChildAcked(s: State, s': State) {
    && s.link.child.AwaitingAck? && s.link.toChild != []
    && s' == s.(link := s.link.(toChild := s.link.toChild[1..], child := Awaiting([]), responseSegment := None))
  }

  predicate Crashes(s: State, s': State) {
    s' == s.(link := s.link.(child := Exited))
  }

  // ---------------------------------------------------------------- runs

  datatype Step =
    | Publishing(key: Key, value: Value) | Withdrawing(key: Key)
    | Booting(key: Key, task: Task) | Taking(task: Task, retire: bool) | Syncing(keep: bool) | Reregistering
    | Dispatching(name: Text, made: bool) | Writing(n: nat) | Turning | Reading(n: nat) | Concluding
    | Acking(usable: bool, lost: bool) | Finishing(keep: bool) | Aborting
    | ChildTaking(n: nat) | Serving(usable: bool, done: Done, held: map<Key, Value>, segment: Option<Segment>)
    | ChildWriting(n: nat) | ChildAcking | Crashing

  ghost predicate OthersDo(s: State, step: Step, s': State) {
    match step
    case Publishing(key, value) => Publish(s, s', key, value)
    case Withdrawing(key) => Withdraw(s, s', key)
    case _ => false
  }

  /** The parent outside an exchange. */
  ghost predicate OwnerDoes(s: State, step: Step, s': State) {
    match step
    case Booting(key, task) => Boots(s, s', key, task)
    case Taking(task, retire) => Takes(s, s', task, retire)
    case Syncing(keep) => Syncs(s, s', keep)
    case Reregistering => Reregisters(s, s')
    case Dispatching(name, made) => Dispatches(s, s', name, made)
    case Acking(usable, lost) => Opens(s, s', usable, lost)
    case Finishing(keep) => Finishes(s, s', keep)
    case _ => false
  }

  /** The parent within an exchange. */
  ghost predicate TransferDoes(s: State, step: Step, s': State) {
    match step
    case Writing(n) => Writes(s, s', n)
    case Turning => Turns(s, s')
    case Reading(n) => Reads(s, s', n)
    case Concluding => Concludes(s, s')
    case Aborting => Aborts(s, s')
    case _ => false
  }

  ghost predicate ChildDoes(s: State, step: Step, s': State) {
    match step
    case ChildTaking(n) => ChildTakes(s, s', n)
    case Serving(usable, done, held, segment) => Serves(s, s', usable, done, held, segment)
    case ChildWriting(n) => ChildWrites(s, s', n)
    case ChildAcking => ChildAcked(s, s')
    case Crashing => Crashes(s, s')
    case _ => false
  }

  ghost predicate Does(s: State, step: Step, s': State) {
    OthersDo(s, step, s') || OwnerDoes(s, step, s') || TransferDoes(s, step, s') || ChildDoes(s, step, s')
  }

  ghost predicate Next(s: State, s': State) {
    exists step :: Does(s, step, s')
  }

  /** A registry built by the same publications, as it is when the worker is spawned. */
  predicate RegistryOk(r: Registry) {
    && (forall g | g in r.log :: g < r.next && Fits(r.log[g].key, r.log[g].value))
    && (forall k | k in r.entries :: EntryOk(r, k, r.entries[k]))
  }

  predicate EntryOk(r: Registry, key: Key, e: Entry) {
    e.generation in r.log && r.log[e.generation] == Stored(key, e.value)
  }

  /** A freshly connected worker: no traffic yet, the WASM snapshot about to be sent. */
  ghost predicate Init(s: State) {
    && s.config.capacity > 0 && RegistryOk(s.registry)
    && s.recorded == map[]
    && s.link == Link([], [], Awaiting([]), map[], None, None, None)
    && s.parent == BootWasms(map k | k in s.registry.entries && k.WasmKey? :: s.registry.entries[k])
  }

  ghost predicate StepAt(r: seq<State>, n: nat)
    requires n + 1 < |r|
  {
    Next(r[n], r[n + 1])
  }

  ghost predicate Run(r: seq<State>) {
    && r != [] && Init(r[0])
    && forall n :: 0 <= n < |r| - 1 ==> StepAt(r, n)
  }
}
