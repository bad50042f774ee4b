/** What each step of the parent and the child must do: answers are owed, and workers are lost, only for cause. */
module IpcLaws {
  import opened Basics
  import opened Wire
  import opened Protocol
  import opened Frame
  import opened Ipc
  import opened IpcProof
  import opened IpcTheorems

  // ---------------------------------------------------------------- the child tells the truth

  /** The answer reports success exactly for a body that succeeded with a result within the limit, and an inline
      request always reaches its body. */
  predicate Truthful(limit: u64, d: Done) {
    && (d.answer.success <==> d.input.Some? && d.success && |d.bytes| <= limit)
    && (!d.answer.shared && |d.bytes| <= limit ==> d.answer.payload == d.bytes)
    && (!d.request.shared ==> d.input == Some(d.request.payload))
  }

  predicate ReplyTruthful(s: State) {
    s.link.reply.Some? ==> Truthful(s.config.limit, s.link.reply.value)
  }

  lemma TruthfulChild(s: State, step: Step, s': State)
    requires ReplyTruthful(s) && ChildDoes(s, step, s')
    ensures ReplyTruthful(s')
  {
  }

  lemma TruthfulParent(s: State, step: Step, s': State)
    requires ReplyTruthful(s) && (OwnerDoes(s, step, s') || TransferDoes(s, step, s'))
    ensures ReplyTruthful(s')
  {
    RepliesKept(s, step, s');
  }

  /** The parent never writes a reply; it only clears the last one before a new request. */
  lemma RepliesKept(s: State, step: Step, s': State)
    requires OwnerDoes(s, step, s') || TransferDoes(s, step, s')
    ensures s'.config == s.config && (s'.link.reply == s.link.reply || s'.link.reply == None)
  {
  }

  lemma TruthfulAt(r: seq<State>, n: nat)
    requires Run(r) && n + 1 < |r| && ReplyTruthful(r[n])
    ensures ReplyTruthful(r[n + 1])
  {
    var s, s' := r[n], r[n + 1];
    assert StepAt(r, n);
    var step :| Does(s, step, s');
    if ChildDoes(s, step, s') {
      TruthfulChild(s, step, s');
    } else if !OthersDo(s, step, s') {
      TruthfulParent(s, step, s');
    }
  }

  lemma {:induction false} AnswersTruly(r: seq<State>, n: nat)
    requires Run(r) && n < |r|
    ensures ReplyTruthful(r[n])
  {
    if n > 0 {
      AnswersTruly(r, n - 1);
      TruthfulAt(r, n - 1);
    }
  }

  /** A child that can open the request's segment runs the task on the task's own payload. */
  lemma ServesThePayload(r: seq<State>, n: nat, done: Done, held: map<Key, Value>, segment: Option<Segment>)
    requires Run(r) && n + 1 < |r| && Serves(r[n], r[n + 1], true, done, held, segment)
    requires Talking(r[n].parent) && r[n].parent.job.Execute? && FewArguments(r[n].parent.request.meta)
    requires |r[n].parent.job.task.payload| <= r[n].config.limit && Utf8(r[n].parent.request.payload)
    ensures done.request.meta == r[n].parent.job.task.meta && done.input == Some(r[n].parent.job.task.payload)
  {
    var s := r[n];
    RunInv(r, n);
    ServesSentRequest(r, n);
    ServingIsFirst(s);
  }

  /** A child leaves its loop only by crashing, over an argument list it refuses, or over an answer it cannot write. */
  lemma ChildLeavesForCause(r: seq<State>, n: nat, step: Step)
    requires Run(r) && n + 1 < |r| && ChildDoes(r[n], step, r[n + 1]) && !step.Crashing?
    requires !r[n].link.child.Exited? && r[n + 1].link.child.Exited?
    ensures step.Serving? && Talking(r[n].parent)
    ensures !FewArguments(r[n].parent.request.meta) || |step.done.answer.payload| > r[n].config.limit
  {
    if step.Serving? {
      ServesSentRequest(r, n);
    }
  }

  // ---------------------------------------------------------------- the parent hands on what it got

  /** The parent's reader has stopped on an answer to the task's own request. */
  predicate HasAnswer(s: State) {
    s.parent.Receiving? && ResponseNeed(s.config.limit, s.parent.got) == 0
  }

  /**
   * The answer to a task decides its outcome: an inline success returns the body's bytes, a success through a
   * segment is opened under its name, and anything else is refused with the child's text.
   */
  lemma AnswerDecides(r: seq<State>, n: nat)
    requires Run(r) && n + 1 < |r| && HasAnswer(r[n]) && r[n].parent.job.Execute? && Concludes(r[n], r[n + 1])
    ensures r[n].link.reply.Some? && r[n + 1].link == r[n].link
    ensures var d, job, pc := r[n].link.reply.value, r[n].parent.job, r[n + 1].parent;
            if d.input.Some? && d.success && |d.bytes| <= r[n].config.limit
            then if d.answer.shared then pc == Opening(job.task, job.seen, d.answer.payload)
                 else pc == Finished(job.task, job.seen, Returned(d.bytes))
            else pc == Finished(job.task, job.seen, Refused(d.answer.payload))
  {
    RunInv(r, n);
    ReceivedAnswer(r[n].config, r[n].link, r[n].parent.request, r[n].parent.got);
    AnswersTruly(r, n);
  }

  /** A response segment that can be opened yields the body's bytes; one that cannot ends the task without them. */
  lemma SegmentDecides(r: seq<State>, n: nat, usable: bool, lost: bool)
    requires Run(r) && n + 1 < |r| && Opens(r[n], r[n + 1], usable, lost)
    ensures r[n].link.reply.Some?
    ensures r[n + 1].parent == Finished(r[n].parent.task, r[n].parent.seen,
                                        if usable then Returned(r[n].link.reply.value.bytes) else Unopened)
  {
    RunInv(r, n);
  }

  /** The next state of a worker whose registration exchange has succeeded. */
  predicate Recorded(s: State, s': State)
    requires s.parent.Receiving?
  {
    match s.parent.job
    case Boot(key, entry, todo) =>
      && s'.recorded == s.recorded[key := entry.generation]
      && s'.parent == if key.WasmKey? then BootWasms(todo) else BootDylibs(todo)
    case Update(task, key, entry) =>
      s'.recorded == s.recorded[key := entry.generation] && s'.parent == Ready(task, Some(entry))
    case Drop(task, key, entry) => s'.recorded == s.recorded && s'.parent == Stale(task, key, entry)
    case Execute(_, _) => false
  }

  /** A registration that the child carried out and reported inline is recorded and followed up; any other loses the worker. */
  lemma RegistrationDecides(r: seq<State>, n: nat)
    requires Run(r) && n + 1 < |r| && HasAnswer(r[n]) && !r[n].parent.job.Execute? && Concludes(r[n], r[n + 1])
    ensures r[n].link.reply.Some?
    ensures if r[n].link.reply.value.success && !r[n].link.reply.value.answer.shared
            then Recorded(r[n], r[n + 1]) && r[n + 1].link == r[n].link
            else r[n + 1].parent.Dropped?
  {
    RunInv(r, n);
    ReceivedAnswer(r[n].config, r[n].link, r[n].parent.request, r[n].parent.got);
    AnswersTruly(r, n);
    RegistrationIsShort(r, n);
  }

  /** The body of a successful registration returns nothing. */
  predicate QuietRegistration(d: Done) {
    (d.request.meta.RegisterWasm? || d.request.meta.RegisterDylib? || d.request.meta.UnregisterDylib?) && d.success ==> d.bytes == []
  }

  predicate QuietReply(s: State) {
    s.link.reply.Some? ==> QuietRegistration(s.link.reply.value)
  }

  lemma QuietStep(s: State, s': State)
    requires QuietReply(s) && Next(s, s')
    ensures QuietReply(s')
  {
    var step :| Does(s, step, s');
    if OwnerDoes(s, step, s') || TransferDoes(s, step, s') {
      RepliesKept(s, step, s');
    } else if ChildDoes(s, step, s') {
      QuietChild(s, step, s');
    }
  }

  lemma QuietChild(s: State, step: Step, s': State)
    requires QuietReply(s) && ChildDoes(s, step, s')
    ensures QuietReply(s')
  {
  }

  lemma QuietAt(r: seq<State>, n: nat)
    requires Run(r) && n + 1 < |r| && QuietReply(r[n])
    ensures QuietReply(r[n + 1])
  {
    assert StepAt(r, n);
    QuietStep(r[n], r[n + 1]);
  }

  lemma {:induction false} RegistrationIsShort(r: seq<State>, n: nat)
    requires Run(r) && n < |r|
    ensures QuietReply(r[n])
  {
    if n > 0 {
      RegistrationIsShort(r, n - 1);
      QuietAt(r, n - 1);
    }
  }

  // ---------------------------------------------------------------- the parent's registry

  /** Registering a name replaces its entry under a generation never used before; unregistering removes it. Neither
      touches another name, and what was stored under a generation stays known. */
  lemma RegistryChanges(r: seq<State>, n: nat, step: Step)
    requires Run(r) && n + 1 < |r| && OthersDo(r[n], step, r[n + 1])
    ensures var old_, new_ := r[n].registry, r[n + 1].registry;
            match step
            case Publishing(key, value) =>
              && key in new_.entries && new_.entries[key].value == value
              && new_.entries[key].generation !in old_.log && (forall k | k in old_.entries :: old_.entries[k].generation != new_.entries[key].generation)
              && new_.entries - {key} == old_.entries - {key}
            case Withdrawing(key) => key !in new_.entries && new_.entries == old_.entries - {key}
            case _ => false
    ensures forall g | g in r[n].registry.log :: g in r[n + 1].registry.log && r[n + 1].registry.log[g] == r[n].registry.log[g]
  {
    RunInv(r, n);
    forall k | k in r[n].registry.entries ensures r[n].registry.entries[k].generation < r[n].registry.next {
      assert EntryOk(r[n].registry, k, r[n].registry.entries[k]);
    }
  }

  // ---------------------------------------------------------------- from the task to its request

  /** The synchronisation turns a task away exactly when its name is not registered. */
  lemma SyncDecides(r: seq<State>, n: nat, keep: bool)
    requires Run(r) && n + 1 < |r| && Syncs(r[n], r[n + 1], keep)
    ensures var s, s', task := r[n], r[n + 1], r[n].parent.task;
            match KeyOf(task.meta)
            case None => s'.parent == Ready(task, None)
            case Some(key) =>
              if key !in s.registry.entries then s'.parent == if keep then Pooled else Dropped
              else
                var entry := s.registry.entries[key];
                || (key in s.recorded && s.recorded[key] == entry.generation && s'.parent == Ready(task, Some(entry)))
                || (!(key in s.recorded && s.recorded[key] == entry.generation) && Renews(s, s', task, key, entry))
  {
    var key := KeyOf(r[n].parent.task.meta);
    if key.Some? && key.value in r[n].registry.entries {
      RegistryFits(r, n, key.value);
    }
  }

  /** The worker is being brought up to date, or is lost because the registration cannot be written. */
  predicate Renews(s: State, s': State, task: Task, key: Key, entry: Entry) {
    if key.DylibKey? && key !in s.recorded then s'.parent == Stale(task, key, entry)
    else
      && Fits(key, entry.value)
      && var request := if key.WasmKey? then Registration(key, entry.value) else Unregistration(key);
         if !Writable(s.config.limit, request) then s'.parent.Dropped?
         else
           && s'.parent.Sending? && s'.parent.request == request && s'.parent.unsent == RequestFrame(request)
           && s'.parent.job == if key.WasmKey? then Update(task, key, entry) else Drop(task, key, entry)
  }

  lemma RegistryFits(r: seq<State>, n: nat, key: Key)
    requires Run(r) && n < |r| && key in r[n].registry.entries
    ensures Fits(key, r[n].registry.entries[key].value)
  {
    RunInv(r, n);
    assert EntryOk(r[n].registry, key, r[n].registry.entries[key]);
  }

  /**
   * A task whose payload is within the limit and whose metadata can be written is sent: inline, or through a
   * segment that holds its payload, and that only from the threshold on.
   */
  lemma DispatchDecides(r: seq<State>, n: nat, name: Text, made: bool)
    requires Run(r) && n + 1 < |r| && Dispatches(r[n], r[n + 1], name, made)
    requires |r[n].parent.task.payload| <= r[n].config.limit && |Encode(r[n].parent.task.meta)| <= MAX_METADATA
    requires |name| <= r[n].config.limit
    ensures var s', task := r[n + 1], r[n].parent.task;
            && s'.parent.Sending? && s'.parent.job == Execute(task, r[n].parent.seen)
            && s'.parent.request.meta == task.meta && s'.parent.unsent == RequestFrame(s'.parent.request)
            && (if s'.parent.request.shared
                then s'.link.requestSegment == Some(Segment(s'.parent.request.payload, task.payload)) && |task.payload| >= r[n].config.threshold
                else s'.parent.request.payload == task.payload)
            && (s'.parent.request.shared <==> made && |task.payload| >= r[n].config.threshold)
  {
  }

  // ---------------------------------------------------------------- the owner never hangs

  lemma BootMoves(s: State) returns (step: Step, s': State)
    requires Inv(s) && (s.parent.BootWasms? || s.parent.BootDylibs?)
    ensures OwnerDoes(s, step, s')
  {
    var task, todo := Task(Python, []), s.parent.todo;
    if todo == map[] {
      step := Booting(WasmKey([]), task);
      s' := if s.parent.BootWasms?
            then s.(parent := BootDylibs(map k | k in s.registry.entries && k.DylibKey? :: s.registry.entries[k]))
            else s.(parent := Acquired(task));
    } else {
      var key :| key in todo;
      assert EntryOk(s.registry, key, todo[key]);
      step := Booting(key, task);
      s' := Begin(s, Boot(key, todo[key], todo - {key}), Registration(key, todo[key].value));
    }
  }

  lemma SyncMoves(s: State) returns (step: Step, s': State)
    requires Inv(s) && s.parent.Acquired?
    ensures OwnerDoes(s, step, s')
  {
    step := Syncing(true);
    var task := s.parent.task;
    if KeyOf(task.meta).None? {
      s' := s.(parent := Ready(task, None));
    } else {
      var key := KeyOf(task.meta).value;
      match Sync(s.registry.entries, key, Known(s.recorded, key)) {
        case Missing => s' := Release(s, true);
        case Current => s' := s.(parent := Ready(task, Some(s.registry.entries[key])));
        case Changed(entry) =>
          assert EntryOk(s.registry, key, entry);
          if key.WasmKey? {
            s' := Begin(s, Update(task, key, entry), Registration(key, entry.value));
          } else if key in s.recorded {
            s' := Begin(s.(recorded := s.recorded - {key}), Drop(task, key, entry), Unregistration(key));
          } else {
            s' := s.(parent := Stale(task, key, entry));
          }
      }
    }
  }

  lemma DispatchMoves(s: State) returns (step: Step, s': State)
    requires s.parent.Ready?
    ensures OwnerDoes(s, step, s')
  {
    step := Dispatching([], false);
    var task, job := s.parent.task, Execute(s.parent.task, s.parent.seen);
    s' := if |task.payload| > s.config.limit then Kill(s)
          else Begin(s.(link := s.link.(requestSegment := None)), job, Request(task.meta, false, task.payload));
  }

  lemma OpenMoves(s: State) returns (step: Step, s': State)
    requires Inv(s) && s.parent.Opening?
    ensures OwnerDoes(s, step, s')
  {
    step := Acking(false, false);
    s' := s.(parent := Finished(s.parent.task, s.parent.seen, Unopened), link := Acknowledge(s.link, 0, false));
  }

  /** Outside an exchange the thread that owns a worker can always take its next step. */
  lemma OwnerNeverHangs(r: seq<State>, n: nat) returns (step: Step, s': State)
    requires Run(r) && n < |r| && !Talking(r[n].parent) && !r[n].parent.Dropped?
    ensures OwnerDoes(r[n], step, s')
  {
    var s := r[n];
    RunInv(r, n);
    match s.parent {
      case BootWasms(_) => step, s' := BootMoves(s);
      case BootDylibs(_) => step, s' := BootMoves(s);
      case Pooled =>
        var task := Task(Python, []);
        step, s' := Taking(task, false), s.(parent := Acquired(task));
      case Acquired(_) => step, s' := SyncMoves(s);
      case Stale(task, key, entry) =>
        assert EntryOk(s.registry, key, entry);
        step, s' := Reregistering, Begin(s, Update(task, key, entry), Registration(key, entry.value));
      case Ready(_, _) => step, s' := DispatchMoves(s);
      case Opening(_, _, _) => step, s' := OpenMoves(s);
      case Finished(_, _, _) => step, s' := Finishing(true), Release(s.(link := s.link.(requestSegment := None)), true);
    }
  }

  // ---------------------------------------------------------------- workers are lost only for cause

  /** The request the parent is about to write cannot be written. */
  predicate Unwritable(s: State, step: Step) {
    match s.parent
    case BootWasms(todo) => step.Booting? && step.key in todo && Fits(step.key, todo[step.key].value) &&
                            !Writable(s.config.limit, Registration(step.key, todo[step.key].value))
    case BootDylibs(todo) => step.Booting? && step.key in todo && Fits(step.key, todo[step.key].value) &&
                             !Writable(s.config.limit, Registration(step.key, todo[step.key].value))
    case Acquired(task) =>
      && KeyOf(task.meta).Some? && KeyOf(task.meta).value in s.registry.entries
      && var key := KeyOf(task.meta).value;
         && Fits(key, s.registry.entries[key].value)
         && !Writable(s.config.limit, if key.WasmKey? then Registration(key, s.registry.entries[key].value) else Unregistration(key))
    case Stale(_, key, entry) => Fits(key, entry.value) && !Writable(s.config.limit, Registration(key, entry.value))
    case Ready(task, _) =>
      || |task.payload| > s.config.limit || |Encode(task.meta)| > MAX_METADATA
      || (step.Dispatching? && |step.name| > s.config.limit)
    case _ => false
  }

  /** Why a step may cost the worker. */
  predicate LossCause(s: State, step: Step) {
    || step.Aborting?
    || (step.Taking? && step.retire)
    || (step.Finishing? && !step.keep)
    || (step.Syncing? && !step.keep && s.parent.Acquired? && KeyOf(s.parent.task.meta).Some? &&
        KeyOf(s.parent.task.meta).value !in s.registry.entries)
    || Unwritable(s, step)
    || (step.Concluding? && s.parent.Receiving? && !s.parent.job.Execute? && s.link.reply.Some? &&
        (!s.link.reply.value.answer.success || s.link.reply.value.answer.shared))
  }

  lemma OwnerLoss(r: seq<State>, n: nat, step: Step)
    requires Run(r) && n + 1 < |r| && OwnerDoes(r[n], step, r[n + 1])
    requires !r[n].parent.Dropped? && r[n + 1].parent.Dropped?
    ensures LossCause(r[n], step)
  {
    RunInv(r, n);
    if step.Syncing? {
      SyncLoss(r, n, step.keep);
    } else if step.Acking? {
      SegmentDecides(r, n, step.usable, step.lost);
    }
  }

  lemma SyncLoss(r: seq<State>, n: nat, keep: bool)
    requires Run(r) && n + 1 < |r| && Syncs(r[n], r[n + 1], keep) && r[n + 1].parent.Dropped?
    ensures LossCause(r[n], Syncing(keep))
  {
    SyncDecides(r, n, keep);
    if KeyOf(r[n].parent.task.meta).Some? && KeyOf(r[n].parent.task.meta).value in r[n].registry.entries {
      RegistryFits(r, n, KeyOf(r[n].parent.task.meta).value);
    }
  }

  /**
   * The parent gives a worker up only when the exchange is aborted, the worker is retired or not kept on release, the
   * request cannot be written, or the child did not carry out a registration.
   */
  lemma WorkerLostForCause(r: seq<State>, n: nat, step: Step)
    requires Run(r) && n + 1 < |r| && Does(r[n], step, r[n + 1])
    requires !r[n].parent.Dropped? && r[n + 1].parent.Dropped?
    ensures LossCause(r[n], step)
  {
    var s, s' := r[n], r[n + 1];
    if OwnerDoes(s, step, s') {
      OwnerLoss(r, n, step);
    } else if TransferDoes(s, step, s') {
      if step.Concluding? {
        RunInv(r, n);
        ReceivedAnswer(s.config, s.link, s.parent.request, s.parent.got);
      }
    } else {
      Bystanders(s, step, s');
    }
  }

  // ---------------------------------------------------------------- a new worker gets everything

  /** The worker is still being filled with the registrations of its snapshots. */
  predicate Filling(p: ParentPc) {
    p.BootWasms? || p.BootDylibs? || (Talking(p) && p.job.Boot?)
  }

  /** The keys the worker has or is about to get. */
  function Covered(s: State): set<Key>
    requires Filling(s.parent)
  {
    s.recorded.Keys + (if Talking(s.parent) then {s.parent.job.key} + s.parent.job.todo.Keys else s.parent.todo.Keys)
  }

  lemma FillingOwner(s: State, step: Step, s': State)
    requires OwnerDoes(s, step, s') && Filling(s'.parent)
    ensures Filling(s.parent) && Covered(s) <= Covered(s')
  {
  }

  lemma FillingTransfer(s: State, step: Step, s': State)
    requires TransferDoes(s, step, s') && Filling(s'.parent)
    ensures Filling(s.parent) && Covered(s) <= Covered(s')
  {
  }

  lemma FillingStep(s: State, s': State)
    requires Next(s, s') && Filling(s'.parent)
    ensures Filling(s.parent) && Covered(s) <= Covered(s')
  {
    var step :| Does(s, step, s');
    if OwnerDoes(s, step, s') {
      FillingOwner(s, step, s');
    } else if TransferDoes(s, step, s') {
      FillingTransfer(s, step, s');
    } else {
      Bystanders(s, step, s');
    }
  }

  lemma FillingAt(r: seq<State>, n: nat)
    requires Run(r) && n + 1 < |r| && Filling(r[n + 1].parent)
    ensures Filling(r[n].parent) && Covered(r[n]) <= Covered(r[n + 1])
  {
    assert StepAt(r, n);
    FillingStep(r[n], r[n + 1]);
  }

  lemma {:induction false} FillingCovers(r: seq<State>, m: nat, n: nat)
    requires Run(r) && m <= n < |r| && Filling(r[n].parent)
    ensures Filling(r[m].parent) && Covered(r[m]) <= Covered(r[n])
  {
    if m < n {
      FillingAt(r, n - 1);
      FillingCovers(r, m, n - 1);
    }
  }

  function KeysOf(registry: Registry, wasm: bool): set<Key> {
    set k | k in registry.entries && k.WasmKey? == wasm
  }

  /** The worker has gone on to the dylib snapshot. */
  predicate Second(p: ParentPc) {
    p.BootDylibs? || (Talking(p) && p.job.Boot? && p.job.key.DylibKey?)
  }

  lemma SecondStep(s: State, s': State)
    requires Next(s, s') && BootOk(s) && Second(s'.parent) && !Second(s.parent)
    ensures s.parent.BootWasms? && KeysOf(s.registry, false) <= Covered(s')
  {
    var step :| Does(s, step, s');
    if OwnerDoes(s, step, s') {
      SecondOwner(s, step, s');
    } else if TransferDoes(s, step, s') {
      SecondTransfer(s, step, s');
    } else {
      Bystanders(s, step, s');
    }
  }

  lemma SecondOwner(s: State, step: Step, s': State)
    requires OwnerDoes(s, step, s') && BootOk(s) && Second(s'.parent) && !Second(s.parent)
    ensures s.parent.BootWasms? && KeysOf(s.registry, false) <= Covered(s')
  {
  }

  lemma SecondTransfer(s: State, step: Step, s': State)
    requires TransferDoes(s, step, s') && Second(s'.parent)
    ensures Second(s.parent)
  {
  }

  /** Where the dylib snapshot was taken. */
  lemma {:induction false} FirstDylib(r: seq<State>, n: nat) returns (m: nat)
    requires Run(r) && n < |r| && Second(r[n].parent)
    ensures m < n && r[m].parent.BootWasms? && Second(r[m + 1].parent) && KeysOf(r[m].registry, false) <= Covered(r[m + 1])
  {
    if n == 0 {
      assert false;
    } else if Second(r[n - 1].parent) {
      m := FirstDylib(r, n - 1);
    } else {
      assert StepAt(r, n - 1);
      BootsAreNew(r, n - 1);
      SecondStep(r[n - 1], r[n]);
      m := n - 1;
    }
  }

  /**
   * A new worker is handed over only with every registration recorded that its two snapshots held: the WASM
   * modules registered at its start, and the libraries registered at step `m`.
   */
  lemma BootIsComplete(r: seq<State>, n: nat) returns (m: nat)
    requires Run(r) && n < |r| && r[n].parent == BootDylibs(map[])
    ensures m < n && KeysOf(r[0].registry, true) <= r[n].recorded.Keys && KeysOf(r[m].registry, false) <= r[n].recorded.Keys
  {
    FillingCovers(r, 0, n);
    assert KeysOf(r[0].registry, true) <= Covered(r[0]);
    m := FirstDylib(r, n);
    FillingCovers(r, m + 1, n);
  }
}
