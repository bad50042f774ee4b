/** The invariant of the parent/child machine and its preservation by every step. */
module IpcProof {
  import opened Basics
  import opened Wire
  import opened Protocol
  import opened Frame
  import opened Ipc

  // ---------------------------------------------------------------- streams

  /** Between exchanges: nothing on the way to the parent, and at most an acknowledgement on the way to the child. */
  predicate Settled(k: Link) {
    && k.toParent == []
    && match k.child
       case Awaiting(taken) => taken == [] && k.toChild == []
       case Answering(_, _) => false
       case AwaitingAck => |k.toChild| == 1
       case Exited => true
  }

  /** The answer agrees with what the body returned, and its segment is in place. */
  predicate AnswerOk(config: Config, k: Link, d: Done) {
    && |d.answer.payload| <= config.limit
    && (d.answer.success ==> d.success && d.input.Some? && |d.bytes| <= config.limit)
    && (d.answer.success && !d.answer.shared ==> d.answer.payload == d.bytes)
    && (d.answer.shared ==> d.answer.success && Utf8(d.answer.payload))
    && (d.answer.shared ==> k.responseSegment == Some(Segment(d.answer.payload, d.bytes)))
  }

  /** The request is on its way to the child. */
  predicate Outbound(k: Link, request: Request, unsent: seq<byte>) {
    && k.toParent == []
    && match k.child
       case Awaiting(taken) => taken + k.toChild + unsent == RequestFrame(request)
       case Answering(_, _) => false
       case AwaitingAck => |k.toChild| > 0 && k.toChild[1..] + unsent == RequestFrame(request)
       case Exited => true
  }

  /** The answer is on its way to the parent, which has `got` so far. */
  predicate Inbound(k: Link, answer: Response, got: seq<byte>) {
    && k.toChild == [] && |got + k.toParent| <= |ResponseFrame(answer)|
    && match k.child
       case Awaiting(taken) => taken == [] && !answer.shared && got + k.toParent == ResponseFrame(answer)
       case Answering(unsent, keep) =>
         unsent != [] && keep == answer.shared && got + k.toParent + unsent == ResponseFrame(answer)
       case AwaitingAck => answer.shared && got + k.toParent == ResponseFrame(answer)
       case Exited => got + k.toParent == ResponseFrame(answer)[..|got + k.toParent|]
  }

  predicate Exchange(config: Config, k: Link, request: Request, unsent: seq<byte>, got: seq<byte>) {
    && Writable(config.limit, request)
    && match k.reply
       case None => got == [] && Outbound(k, request, unsent)
       case Some(d) => unsent == [] && d.request == request && AnswerOk(config, k, d) && Inbound(k, d.answer, got)
  }

  lemma WriteExchange(config: Config, k: Link, request: Request, unsent: seq<byte>, n: nat)
    requires Exchange(config, k, request, unsent, []) && 0 < n <= |unsent|
    ensures Exchange(config, k.(toChild := k.toChild + unsent[..n]), request, unsent[n..], [])
  {
    assert unsent == unsent[..n] + unsent[n..];
    if k.child.Awaiting? {
      Concat3([], k.child.taken + k.toChild, unsent[..n], unsent[n..]);
    } else if k.child.AwaitingAck? {
      assert (k.toChild + unsent[..n])[1..] == k.toChild[1..] + unsent[..n];
    }
  }

  lemma ReadExchange(config: Config, k: Link, request: Request, got: seq<byte>, n: nat)
    requires Exchange(config, k, request, [], got) && 0 < n <= |k.toParent|
    ensures Exchange(config, k.(toParent := k.toParent[n..]), request, [], got + k.toParent[..n])
  {
    assert k.toParent == k.toParent[..n] + k.toParent[n..];
    assert got + k.toParent == got + k.toParent[..n] + k.toParent[n..];
  }

  lemma TakeExchange(config: Config, k: Link, request: Request, unsent: seq<byte>, got: seq<byte>, n: nat)
    requires Exchange(config, k, request, unsent, got) && k.child.Awaiting?
    requires 0 < n <= RequestNeed(config.limit, k.child.taken) && n <= |k.toChild|
    ensures Exchange(config, k.(child := Awaiting(k.child.taken + k.toChild[..n]), toChild := k.toChild[n..]), request, unsent, got)
  {
    assert k.toChild == k.toChild[..n] + k.toChild[n..];
    Concat3([], k.child.taken, k.toChild[..n], k.toChild[n..]);
  }

  lemma ChildWriteExchange(config: Config, k: Link, k': Link, request: Request, unsent: seq<byte>, got: seq<byte>, n: nat)
    requires Exchange(config, k, request, unsent, got) && k.child.Answering? && 0 < n <= |k.child.unsent|
    requires k' == k.(toParent := k.toParent + k.child.unsent[..n],
                      child := if n < |k.child.unsent| then Answering(k.child.unsent[n..], k.child.keep)
                               else if k.child.keep then AwaitingAck else Awaiting([]))
    ensures Exchange(config, k', request, unsent, got)
  {
    var rest := k.child.unsent;
    assert rest == rest[..n] + rest[n..];
    Concat3([], got + k.toParent, rest[..n], rest[n..]);
    Concat3([], got, k.toParent, rest[..n]);
  }

  lemma AckExchange(config: Config, k: Link, request: Request, unsent: seq<byte>, got: seq<byte>)
    requires Exchange(config, k, request, unsent, got) && k.child.AwaitingAck? && k.toChild != []
    ensures k.reply == None
    ensures Exchange(config, k.(toChild := k.toChild[1..], child := Awaiting([]), responseSegment := None), request, unsent, got)
  {
    assert [] + k.toChild[1..] == k.toChild[1..];
  }

  lemma CrashExchange(config: Config, k: Link, request: Request, unsent: seq<byte>, got: seq<byte>)
    requires Exchange(config, k, request, unsent, got)
    ensures Exchange(config, k.(child := Exited), request, unsent, got)
  {
    if k.reply.Some? && k.child.Answering? {
      var sent, rest := got + k.toParent, k.child.unsent;
      assert (sent + rest)[..|sent|] == sent;
    }
  }

  /** What the child has read when it stops reading: the parent's request, whole, unless its arguments are refused. */
  lemma ServedRequest(config: Config, k: Link, request: Request, unsent: seq<byte>, got: seq<byte>)
    requires Exchange(config, k, request, unsent, got) && k.child.Awaiting?
    requires RequestNeed(config.limit, k.child.taken) == 0
    ensures k.reply == None && got == [] && k.toParent == []
    ensures FewArguments(request.meta) ==>
              k.toChild == [] && unsent == [] && ReadRequest(config.limit, k.child.taken) == Ok(Some(Read(request, [])))
    ensures !FewArguments(request.meta) ==> ReadRequest(config.limit, k.child.taken).Err?
  {
    var frame, taken := RequestFrame(request), k.child.taken;
    assert k.reply == None;
    Concat3([], taken, k.toChild, unsent);
    assert frame[..|taken|] == taken;
    RequestNeedWithin(config.limit, request, |taken|);
    if FewArguments(request.meta) {
      assert |k.toChild| == 0 && |unsent| == 0;
      assert frame + [] == taken;
      ReadWritten(config.limit, request, []);
    }
  }

  /** What the parent has read when it stops reading: the child's answer, whole. */
  lemma ReceivedAnswer(config: Config, k: Link, request: Request, got: seq<byte>)
    requires Exchange(config, k, request, [], got) && ResponseNeed(config.limit, got) == 0
    ensures k.reply.Some? && k.toParent == [] && k.toChild == []
    ensures ReadResponse(config.limit, got) == Ok(Read(k.reply.value.answer, []))
    ensures k.child == (if k.reply.value.answer.shared then AwaitingAck else Awaiting([])) || k.child == Exited
  {
    var answer := k.reply.value.answer;
    var frame := ResponseFrame(answer);
    assert frame[..|got|] == got by {
      if k.child.Answering? {
        Concat3([], got, k.toParent, k.child.unsent);
      } else if k.child.Exited? {
        assert got == (got + k.toParent)[..|got|];
      }
    }
    ResponseNeedWithin(config.limit, answer, |got|);
    assert got == frame;
    assert frame + [] == frame;
    ReadResponseWritten(config.limit, answer, []);
  }

  // ---------------------------------------------------------------- registrations and tasks

  predicate TodoOk(r: Registry, todo: map<Key, Entry>) {
    forall k | k in todo :: EntryOk(r, k, todo[k])
  }

  /** The entry the task saw is the one recorded for this worker. */
  predicate SeenOk(s: State, task: Task, seen: Option<Entry>) {
    && IsTask(task)
    && match KeyOf(task.meta)
       case None => seen == None
       case Some(key) =>
         && seen.Some? && key in s.recorded && s.recorded[key] == seen.value.generation
         && EntryOk(s.registry, key, seen.value)
  }

  /** The answer is that of the task's own body, run against the entry the task saw. */
  predicate RanOk(d: Done, task: Task, seen: Option<Entry>) {
    && d.request.meta == task.meta
    && (d.input.Some? ==> d.input.value == task.payload)
    && (d.input.Some? && KeyOf(task.meta).Some? ==> seen.Some? && d.used == Some(seen.value.value))
  }

  /** The request stands for the task, inline or through its segment. */
  predicate Carries(k: Link, request: Request, task: Task) {
    && request.meta == task.meta
    && (if request.shared then k.requestSegment == Some(Segment(request.payload, task.payload))
        else request.payload == task.payload)
  }

  predicate JobOk(s: State, job: Job, request: Request) {
    match job
    case Boot(key, entry, todo) =>
      EntryOk(s.registry, key, entry) && Fits(key, entry.value) && request == Registration(key, entry.value) && TodoOk(s.registry, todo)
    case Drop(task, key, entry) =>
      EntryOk(s.registry, key, entry) && key.DylibKey? && key !in s.recorded && request == Unregistration(key) && TaskFor(task, key)
    case Update(task, key, entry) =>
      EntryOk(s.registry, key, entry) && Fits(key, entry.value) && request == Registration(key, entry.value) && TaskFor(task, key)
    case Execute(task, seen) =>
      && SeenOk(s, task, seen)
      && match s.link.reply
         case None => Carries(s.link, request, task)
         case Some(d) => RanOk(d, task, seen)
  }

  predicate TaskFor(task: Task, key: Key) {
    IsTask(task) && KeyOf(task.meta) == Some(key)
  }

  predicate OutcomeOk(d: Done, outcome: Outcome) {
    match outcome
    case Returned(bytes) => d.success && d.input.Some? && d.bytes == bytes
    case Refused(text) => !d.answer.success && d.answer.payload == text
    case Unopened => d.answer.shared
  }

  predicate OpeningOk(s: State) {
    && s.parent.Opening?
    && s.link.toParent == [] && s.link.toChild == []
    && (s.link.child.AwaitingAck? || s.link.child.Exited?)
    && SeenOk(s, s.parent.task, s.parent.seen)
    && s.link.reply.Some?
    && s.link.reply.value.answer.shared && s.parent.name == s.link.reply.value.answer.payload
    && AnswerOk(s.config, s.link, s.link.reply.value)
    && RanOk(s.link.reply.value, s.parent.task, s.parent.seen)
  }

  predicate ParentOk(s: State) {
    match s.parent
    case BootWasms(todo) => Settled(s.link) && TodoOk(s.registry, todo)
    case BootDylibs(todo) => Settled(s.link) && TodoOk(s.registry, todo)
    case Pooled => Settled(s.link)
    case Acquired(task) => Settled(s.link) && IsTask(task)
    case Stale(task, key, entry) => Settled(s.link) && EntryOk(s.registry, key, entry) && TaskFor(task, key)
    case Ready(task, seen) => Settled(s.link) && SeenOk(s, task, seen)
    case Sending(job, request, unsent) => Exchange(s.config, s.link, request, unsent, []) && JobOk(s, job, request)
    case Receiving(job, request, got) => Exchange(s.config, s.link, request, [], got) && JobOk(s, job, request)
    case Opening(_, _, _) => OpeningOk(s)
    case Finished(task, seen, outcome) =>
      && Settled(s.link) && SeenOk(s, task, seen)
      && s.link.reply.Some? && RanOk(s.link.reply.value, task, seen) && OutcomeOk(s.link.reply.value, outcome)
    case Dropped => s.link.child.Exited?
  }

  /** The registration that the child has carried out and the parent has not recorded yet. */
  function Installed(s: State): Option<(Key, Entry)> {
    if (s.parent.Sending? || s.parent.Receiving?) && (s.parent.job.Boot? || s.parent.job.Update?) &&
       s.link.reply.Some? && s.link.reply.value.success
    then Some((s.parent.job.key, s.parent.job.entry))
    else None
  }

  /** The value a live child holds for a key the parent has recorded. */
  function Expected(s: State, key: Key): Option<Value> {
    if Installed(s).Some? && Installed(s).value.0 == key then Some(Installed(s).value.1.value)
    else if key in s.recorded && s.recorded[key] in s.registry.log then Some(s.registry.log[s.recorded[key]].value)
    else None
  }

  predicate RecordOk(s: State, key: Key) {
    key in s.recorded ==> s.recorded[key] in s.registry.log && s.registry.log[s.recorded[key]].key == key
  }

  predicate HoldsOk(s: State, key: Key) {
    Expected(s, key).Some? ==> key in s.link.held && s.link.held[key] == Expected(s, key).value
  }

  ghost predicate HeldOk(s: State) {
    && (forall key :: RecordOk(s, key))
    && (!s.link.child.Exited? ==> forall key :: HoldsOk(s, key))
  }

  ghost predicate Inv(s: State) {
    s.config.capacity > 0 && RegistryOk(s.registry) && HeldOk(s) && ParentOk(s)
  }

  // ---------------------------------------------------------------- other threads

  /** Stored values are never forgotten, so whatever refers to them stays true. */
  predicate Grows(log: map<nat, Stored>, log': map<nat, Stored>) {
    forall g | g in log :: g in log' && log'[g] == log[g]
  }

  lemma GrownParent(s: State, r: Registry)
    requires ParentOk(s) && Grows(s.registry.log, r.log)
    ensures ParentOk(s.(registry := r))
  {
  }

  lemma GrownHeld(s: State, r: Registry)
    requires HeldOk(s) && Grows(s.registry.log, r.log)
    ensures HeldOk(s.(registry := r))
  {
    var s' := s.(registry := r);
    forall k ensures RecordOk(s', k) && (!s'.link.child.Exited? ==> HoldsOk(s', k)) {
      assert RecordOk(s, k) && (!s.link.child.Exited? ==> HoldsOk(s, k));
    }
  }

  lemma OthersInv(s: State, step: Step, s': State)
    requires Inv(s) && OthersDo(s, step, s')
    ensures Inv(s')
  {
    GrownParent(s, s'.registry);
    GrownHeld(s, s'.registry);
  }

  // ---------------------------------------------------------------- the parent

  lemma KillInv(s: State)
    requires s.config.capacity > 0 && RegistryOk(s.registry) && forall key :: RecordOk(s, key)
    ensures Inv(Kill(s))
  {
    forall k ensures RecordOk(Kill(s), k) {
      assert RecordOk(s, k);
    }
  }

  /** A step that starts nothing and installs nothing keeps what the child is expected to hold. */
  lemma SameHeld(s: State, s': State)
    requires HeldOk(s) && s'.registry == s.registry && s'.recorded == s.recorded && s'.link.held == s.link.held
    requires s'.link.child.Exited? || (!s.link.child.Exited? && Installed(s') == Installed(s))
    ensures HeldOk(s')
  {
    forall k ensures RecordOk(s', k) && (!s'.link.child.Exited? ==> HoldsOk(s', k)) {
      assert RecordOk(s, k) && (!s.link.child.Exited? ==> HoldsOk(s, k));
    }
  }

  lemma BeginExchange(config: Config, k: Link, request: Request)
    requires Settled(k) && Writable(config.limit, request)
    ensures Exchange(config, k.(reply := None), request, RequestFrame(request), [])
  {
    assert [] + [] + RequestFrame(request) == RequestFrame(request);
    if k.child.AwaitingAck? {
      assert k.toChild[1..] + RequestFrame(request) == RequestFrame(request);
    }
  }

  lemma BeginInv(s: State, job: Job, request: Request)
    requires s.config.capacity > 0 && RegistryOk(s.registry) && HeldOk(s) && Settled(s.link) && Installed(s) == None
    requires JobOk(s.(link := s.link.(reply := None)), job, request)
    ensures Inv(Begin(s, job, request))
  {
    var s' := Begin(s, job, request);
    if Writable(s.config.limit, request) {
      SameHeld(s, s');
      BeginExchange(s.config, s.link, request);
    } else {
      KillInv(s);
    }
  }

  lemma BootsInv(s: State, s': State, key: Key, task: Task)
    requires Inv(s) && Boots(s, s', key, task)
    ensures Inv(s')
  {
    var todo := s.parent.todo;
    if todo == map[] {
      SameHeld(s, s');
    } else {
      BeginInv(s, Boot(key, todo[key], todo - {key}), Registration(key, todo[key].value));
    }
  }

  lemma TakesInv(s: State, s': State, task: Task, retire: bool)
    requires Inv(s) && Takes(s, s', task, retire)
    ensures Inv(s')
  {
    SameHeld(s, s');
  }

  /** Forgetting a record leaves the others as they were. */
  lemma ForgetHeld(s: State, key: Key)
    requires HeldOk(s) && Installed(s) == None
    ensures HeldOk(s.(recorded := s.recorded - {key}))
  {
    var s' := s.(recorded := s.recorded - {key});
    forall k ensures RecordOk(s', k) && (!s'.link.child.Exited? ==> HoldsOk(s', k)) {
      assert RecordOk(s, k) && (!s.link.child.Exited? ==> HoldsOk(s, k));
    }
  }

  lemma SyncsInv(s: State, s': State, keep: bool)
    requires Inv(s) && Syncs(s, s', keep)
    ensures Inv(s')
  {
    var task := s.parent.task;
    if KeyOf(task.meta).Some? {
      var key := KeyOf(task.meta).value;
      match Sync(s.registry.entries, key, Known(s.recorded, key)) {
        case Missing => SameHeld(s, s');
        case Current => SameHeld(s, s');
        case Changed(entry) =>
          if key.WasmKey? {
            BeginInv(s, Update(task, key, entry), Registration(key, entry.value));
          } else if key in s.recorded {
            ForgetHeld(s, key);
            BeginInv(s.(recorded := s.recorded - {key}), Drop(task, key, entry), Unregistration(key));
          } else {
            SameHeld(s, s');
          }
      }
    } else {
      SameHeld(s, s');
    }
  }

  lemma ReregistersInv(s: State, s': State)
    requires Inv(s) && Reregisters(s, s')
    ensures Inv(s')
  {
    BeginInv(s, Update(s.parent.task, s.parent.key, s.parent.entry), Registration(s.parent.key, s.parent.entry.value));
  }

  lemma DispatchesInv(s: State, s': State, name: Text, made: bool)
    requires Inv(s) && Dispatches(s, s', name, made)
    ensures Inv(s')
  {
    var task, job := s.parent.task, Execute(s.parent.task, s.parent.seen);
    if |task.payload| > s.config.limit {
      KillInv(s);
    } else if |task.payload| >= s.config.threshold && made {
      var t := s.(link := s.link.(requestSegment := Some(Segment(name, task.payload))));
      SameHeld(s, t);
      BeginInv(t, job, Request(task.meta, true, name));
    } else {
      var t := s.(link := s.link.(requestSegment := None));
      SameHeld(s, t);
      BeginInv(t, job, Request(task.meta, false, task.payload));
    }
  }

  lemma TransferInv(s: State, s': State, n: nat)
    requires Inv(s) && (Writes(s, s', n) || Turns(s, s') || Reads(s, s', n))
    ensures Inv(s')
  {
    SameHeld(s, s');
    if Writes(s, s', n) {
      WriteExchange(s.config, s.link, s.parent.request, s.parent.unsent, n);
    } else if Reads(s, s', n) {
      ReadExchange(s.config, s.link, s.parent.request, s.parent.got, n);
    }
  }

  /** Recording the generation just installed turns the exception into a record. */
  lemma RecordHeld(s: State, s': State, key: Key, entry: Entry)
    requires HeldOk(s) && EntryOk(s.registry, key, entry)
    requires Installed(s) == Some((key, entry)) && Installed(s') == None
    requires s' == s.(recorded := s.recorded[key := entry.generation], parent := s'.parent)
    ensures HeldOk(s')
  {
    forall k ensures RecordOk(s', k) && (!s'.link.child.Exited? ==> HoldsOk(s', k)) {
      assert RecordOk(s, k) && (!s.link.child.Exited? ==> HoldsOk(s, k));
    }
  }

  lemma ConcludesInv(s: State, s': State)
    requires Inv(s) && Concludes(s, s')
    ensures Inv(s')
  {
    var job := s.parent.job;
    ReceivedAnswer(s.config, s.link, s.parent.request, s.parent.got);
    var answer := s.link.reply.value.answer;
    if job.Execute? {
      SameHeld(s, s');
    } else if answer.shared || !answer.success {
      KillInv(s);
    } else if job.Drop? {
      SameHeld(s, s');
    } else {
      RecordHeld(s, s', job.key, job.entry);
    }
  }

  lemma OpensInv(s: State, s': State, usable: bool, lost: bool)
    requires Inv(s) && Opens(s, s', usable, lost)
    ensures Inv(s')
  {
    SameHeld(s, s');
  }

  lemma FinishesInv(s: State, s': State, keep: bool)
    requires Inv(s) && Finishes(s, s', keep)
    ensures Inv(s')
  {
    SameHeld(s, s');
  }

  lemma AbortsInv(s: State, s': State)
    requires Inv(s) && Aborts(s, s')
    ensures Inv(s')
  {
    KillInv(s);
  }

  // ---------------------------------------------------------------- the child

  lemma ChildTakesInv(s: State, s': State, n: nat)
    requires Inv(s) && ChildTakes(s, s', n)
    ensures Inv(s')
  {
    SameHeld(s, s');
    match s.parent {
      case Sending(_, request, unsent) => TakeExchange(s.config, s.link, request, unsent, [], n);
      case Receiving(_, request, got) => TakeExchange(s.config, s.link, request, [], got, n);
      case _ => assert false;
    }
  }

  lemma ChildWritesInv(s: State, s': State, n: nat)
    requires Inv(s) && ChildWrites(s, s', n)
    ensures Inv(s')
  {
    SameHeld(s, s');
    match s.parent {
      case Sending(_, request, unsent) => ChildWriteExchange(s.config, s.link, s'.link, request, unsent, [], n);
      case Receiving(_, request, got) => ChildWriteExchange(s.config, s.link, s'.link, request, [], got, n);
      case _ => assert false;
    }
  }

  lemma ChildAckedInv(s: State, s': State)
    requires Inv(s) && ChildAcked(s, s')
    ensures Inv(s')
  {
    SameHeld(s, s');
    match s.parent {
      case Sending(_, request, unsent) => AckExchange(s.config, s.link, request, unsent, []);
      case Receiving(_, request, got) => AckExchange(s.config, s.link, request, [], got);
      case _ =>
    }
  }

  lemma CrashesInv(s: State, s': State)
    requires Inv(s) && Crashes(s, s')
    ensures Inv(s')
  {
    SameHeld(s, s');
    match s.parent {
      case Sending(_, request, unsent) => CrashExchange(s.config, s.link, request, unsent, []);
      case Receiving(_, request, got) => CrashExchange(s.config, s.link, request, [], got);
      case _ =>
    }
  }

  /** The child's registries after a request that stands for `job`. */
  lemma RunsHeld(s: State, s': State, job: Job, request: Request, done: Done)
    requires HeldOk(s) && JobOk(s, job, request) && !s.link.child.Exited? && Installed(s) == None
    requires (s.parent.Sending? || s.parent.Receiving?) && s.parent.job == job && s.link.reply == None
    requires done.request == request && done.input.Some? && (!request.shared ==> done.input.value == request.payload)
    requires Runs(s.link.held, s'.link.held, request.meta, done.input.value, done.success, done.bytes)
    requires s'.registry == s.registry && s'.recorded == s.recorded && s'.parent == s.parent && s'.link.reply == Some(done)
    ensures HeldOk(s')
  {
    forall k ensures RecordOk(s', k) && HoldsOk(s', k) {
      assert RecordOk(s, k) && HoldsOk(s, k);
    }
  }

  lemma ServesInv(s: State, s': State, usable: bool, done: Done, held: map<Key, Value>, segment: Option<Segment>)
    requires Inv(s) && Serves(s, s', usable, done, held, segment)
    ensures Inv(s')
  {
    var k, limit := s.link, s.config.limit;
    assert s.parent.Sending? || s.parent.Receiving?;
    var unsent, got := if s.parent.Sending? then s.parent.unsent else [], if s.parent.Sending? then [] else s.parent.got;
    var request, job := s.parent.request, s.parent.job;
    ServedRequest(s.config, k, request, unsent, got);
    if !FewArguments(request.meta) {
      CrashesInv(s, s');
    } else {
      ServedInv(s, s', usable, done, held, segment, request, job, unsent, got);
    }
  }

  lemma ServedInv(s: State, s': State, usable: bool, done: Done, held: map<Key, Value>, segment: Option<Segment>,
                  request: Request, job: Job, unsent: seq<byte>, got: seq<byte>)
    requires Inv(s) && Serves(s, s', usable, done, held, segment)
    requires s.parent.Sending? || s.parent.Receiving?
    requires s.parent.job == job && s.parent.request == request && s.link.reply == None
    requires unsent == [] && got == [] && s.link.toParent == [] && s.link.toChild == []
    requires s.parent.Sending? ==> s.parent.unsent == unsent
    requires s.parent.Receiving? ==> s.parent.got == got
    requires ReadRequest(s.config.limit, s.link.child.taken) == Ok(Some(Read(request, [])))
    ensures Inv(s')
  {
    if |done.answer.payload| > s.config.limit {
      MuteInv(s, held);
    } else {
      assert s'.link.reply == Some(done);
      assert [] + [] + ResponseFrame(done.answer) == ResponseFrame(done.answer);
      if done.input.None? {
        SameHeld(s, s');
      } else {
        RunsHeld(s, s', job, request, done);
      }
      ServedJob(s, s', usable, done, job, request);
    }
  }

  /** A child that cannot write its answer exits; what it holds no longer matters. */
  lemma MuteInv(s: State, held: map<Key, Value>)
    requires Inv(s) && (s.parent.Sending? || s.parent.Receiving?) && s.link.reply == None
    ensures Inv(s.(link := s.link.(child := Exited, held := held)))
  {
    var s' := s.(link := s.link.(child := Exited, held := held));
    forall key ensures RecordOk(s', key) {
      assert RecordOk(s, key);
    }
  }

  lemma ServedJob(s: State, s': State, usable: bool, done: Done, job: Job, request: Request)
    requires HeldOk(s) && JobOk(s, job, request) && !s.link.child.Exited? && s.link.reply == None
    requires Installed(s) == None
    requires s'.registry == s.registry && s'.recorded == s.recorded && s'.link.reply == Some(done)
    requires done.request == request && done.input == InputOf(s.config, s.link, request, usable)
    requires done.input.Some? ==> done.used == Used(s.link.held, request.meta)
    ensures JobOk(s', job, request)
  {
    if job.Execute? && KeyOf(request.meta).Some? {
      assert HoldsOk(s, KeyOf(request.meta).value);
    }
  }

  // ---------------------------------------------------------------- runs

  lemma InitInv(s: State)
    requires Init(s)
    ensures Inv(s)
  {
    forall k ensures RecordOk(s, k) && HoldsOk(s, k) {
    }
  }

  lemma OwnerInv(s: State, step: Step, s': State)
    requires Inv(s) && OwnerDoes(s, step, s')
    ensures Inv(s')
  {
    match step {
      case Booting(key, task) => BootsInv(s, s', key, task);
      case Taking(task, retire) => TakesInv(s, s', task, retire);
      case Syncing(keep) => SyncsInv(s, s', keep);
      case Reregistering => ReregistersInv(s, s');
      case Dispatching(name, made) => DispatchesInv(s, s', name, made);
      case Acking(usable, lost) => OpensInv(s, s', usable, lost);
      case Finishing(keep) => FinishesInv(s, s', keep);
    }
  }

  lemma TransfersInv(s: State, step: Step, s': State)
    requires Inv(s) && TransferDoes(s, step, s')
    ensures Inv(s')
  {
    match step {
      case Writing(n) => TransferInv(s, s', n);
      case Turning => TransferInv(s, s', 0);
      case Reading(n) => TransferInv(s, s', n);
      case Concluding => ConcludesInv(s, s');
      case Aborting => AbortsInv(s, s');
    }
  }

  lemma ChildInv(s: State, step: Step, s': State)
    requires Inv(s) && ChildDoes(s, step, s')
    ensures Inv(s')
  {
    match step {
      case ChildTaking(n) => ChildTakesInv(s, s', n);
      case Serving(usable, done, held, segment) => ServesInv(s, s', usable, done, held, segment);
      case ChildWriting(n) => ChildWritesInv(s, s', n);
      case ChildAcking => ChildAckedInv(s, s');
      case Crashing => CrashesInv(s, s');
    }
  }

  lemma NextInv(s: State, s': State)
    requires Inv(s) && Next(s, s')
    ensures Inv(s')
  {
    var step :| Does(s, step, s');
    if OthersDo(s, step, s') {
      OthersInv(s, step, s');
    } else if OwnerDoes(s, step, s') {
      OwnerInv(s, step, s');
    } else if TransferDoes(s, step, s') {
      TransfersInv(s, step, s');
    } else {
      ChildInv(s, step, s');
    }
  }

  lemma {:induction false} RunInv(r: seq<State>, n: nat)
    requires Run(r) && n < |r|
    ensures Inv(r[n])
  {
    if n == 0 {
      InitInv(r[0]);
    } else {
      RunInv(r, n - 1);
      assert StepAt(r, n - 1);
      NextInv(r[n - 1], r[n]);
    }
  }
}
