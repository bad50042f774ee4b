/** What the parent/child machine guarantees in every run. */
module IpcTheorems {
  import opened Basics
  import opened Wire
  import opened Protocol
  import opened Frame
  import opened Ipc
  import opened IpcProof

  predicate Talking(p: ParentPc) {
    p.Sending? || p.Receiving?
  }

  // ---------------------------------------------------------------- lockstep

  /** When the parent's reader stops it holds exactly the child's answer to the request the parent last wrote. */
  lemma AnswersLastRequest(r: seq<State>, n: nat)
    requires Run(r) && n < |r|
    requires r[n].parent.Receiving? && ResponseNeed(r[n].config.limit, r[n].parent.got) == 0
    ensures var k := r[n].link;
            && k.reply.Some? && k.reply.value.request == r[n].parent.request
            && ReadResponse(r[n].config.limit, r[n].parent.got) == Ok(Read(k.reply.value.answer, []))
            && k.toParent == [] && k.toChild == []
  {
    RunInv(r, n);
    ReceivedAnswer(r[n].config, r[n].link, r[n].parent.request, r[n].parent.got);
  }

  /**
   * When the child's reader stops, the parent is talking to it and it holds exactly the parent's request.
   * Only a request with too many FFI arguments is refused, and no other bytes ever are.
   */
  lemma ServesSentRequest(r: seq<State>, n: nat)
    requires Run(r) && n < |r|
    requires r[n].link.child.Awaiting? && RequestNeed(r[n].config.limit, r[n].link.child.taken) == 0
    ensures Talking(r[n].parent)
    ensures var read := ReadRequest(r[n].config.limit, r[n].link.child.taken);
            if FewArguments(r[n].parent.request.meta)
            then read == Ok(Some(Read(r[n].parent.request, []))) && r[n].link.toChild == []
            else read.Err?
  {
    RunInv(r, n);
    if r[n].parent.Sending? {
      ServedRequest(r[n].config, r[n].link, r[n].parent.request, r[n].parent.unsent, []);
    } else if r[n].parent.Receiving? {
      ServedRequest(r[n].config, r[n].link, r[n].parent.request, [], r[n].parent.got);
    }
  }

  predicate AwaitsAck(k: Link) {
    k.child.AwaitingAck? && k.toChild == []
  }

  /**
   * The parent is about to acknowledge only when a live child waits for it, and a child waits for it only
   * when the parent is about to acknowledge or is still receiving the answer that will make it do so.
   */
  lemma AckExactlyWhenAwaited(r: seq<State>, n: nat)
    requires Run(r) && n < |r|
    ensures r[n].parent.Opening? && !r[n].link.child.Exited? ==> AwaitsAck(r[n].link)
    ensures AwaitsAck(r[n].link) ==>
              || r[n].parent.Opening?
              || (Talking(r[n].parent) && r[n].link.reply.Some? &&
                  r[n].link.reply.value.answer.success && r[n].link.reply.value.answer.shared)
  {
    RunInv(r, n);
  }

  /** The acknowledging step puts one byte in front of a waiting child, or finds the child gone. */
  lemma AckIsOneByte(r: seq<State>, n: nat, usable: bool, lost: bool)
    requires Run(r) && n + 1 < |r| && Opens(r[n], r[n + 1], usable, lost)
    ensures r[n + 1].parent.Finished?
    ensures r[n + 1].link.child.Exited? || (r[n + 1].link.child.AwaitingAck? && |r[n + 1].link.toChild| == 1)
  {
    RunInv(r, n);
  }

  /**
   * Outside an exchange a child waits for an acknowledgement only if its last answer came through a segment,
   * which takes a configuration that admits payloads of the segment threshold.
   */
  predicate AckShared(s: State) {
    && (s.link.reply.Some? && s.link.reply.value.answer.shared ==> s.config.threshold <= s.config.limit)
    && (!Talking(s.parent) && !s.parent.Opening? && s.link.child.AwaitingAck? ==>
          s.link.reply.Some? && s.link.reply.value.answer.shared)
  }

  lemma AckSharedOwner(s: State, step: Step, s': State)
    requires ParentOk(s) && AckShared(s) && OwnerDoes(s, step, s')
    ensures AckShared(s')
  {
    if step.Acking? {
      AckSharedOpen(s, s', step.usable, step.lost);
    } else if step.Syncing? {
      AckSharedSync(s, s', step.keep);
    }
  }

  lemma AckSharedOpen(s: State, s': State, usable: bool, lost: bool)
    requires ParentOk(s) && AckShared(s) && Opens(s, s', usable, lost)
    ensures AckShared(s')
  {
  }

  lemma AckSharedSync(s: State, s': State, keep: bool)
    requires AckShared(s) && Syncs(s, s', keep)
    ensures AckShared(s')
  {
  }

  lemma AckSharedTransfer(s: State, step: Step, s': State)
    requires ParentOk(s) && AckShared(s) && TransferDoes(s, step, s')
    ensures AckShared(s')
  {
    if step.Concluding? {
      ReceivedAnswer(s.config, s.link, s.parent.request, s.parent.got);
    }
  }

  lemma AckSharedChild(s: State, step: Step, s': State)
    requires ParentOk(s) && AckShared(s) && ChildDoes(s, step, s')
    ensures AckShared(s')
  {
  }

  lemma AckSharedStep(r: seq<State>, n: nat)
    requires Run(r) && n + 1 < |r| && AckShared(r[n])
    ensures AckShared(r[n + 1])
  {
    var s, s' := r[n], r[n + 1];
    RunInv(r, n);
    assert StepAt(r, n);
    var step :| Does(s, step, s');
    if OwnerDoes(s, step, s') {
      AckSharedOwner(s, step, s');
    } else if TransferDoes(s, step, s') {
      AckSharedTransfer(s, step, s');
    } else if ChildDoes(s, step, s') {
      AckSharedChild(s, step, s');
    }
  }

  lemma {:induction false} AckSharedAlways(r: seq<State>, n: nat)
    requires Run(r) && n < |r|
    ensures AckShared(r[n])
  {
    if n > 0 {
      AckSharedAlways(r, n - 1);
      AckSharedStep(r, n - 1);
    }
  }

  /** Both streams are empty and the child waits for a request. */
  predicate FullyQuiet(k: Link) {
    k.toChild == [] && k.toParent == [] && k.child == Awaiting([])
  }

  /**
   * A pooled live worker whose last answer did not come through a segment is fully quiet, and so is every one
   * when payloads of the segment threshold are over the limit. Otherwise at most its acknowledgement is on the way.
   */
  lemma PooledWorkerIsQuiet(r: seq<State>, n: nat)
    requires Run(r) && n < |r| && r[n].parent.Pooled? && !r[n].link.child.Exited?
    ensures r[n].link.reply.None? || !r[n].link.reply.value.answer.shared ==> FullyQuiet(r[n].link)
    ensures r[n].config.limit < r[n].config.threshold ==> FullyQuiet(r[n].link)
    ensures FullyQuiet(r[n].link) || (r[n].link.toParent == [] && r[n].link.child.AwaitingAck? && |r[n].link.toChild| == 1)
  {
    RunInv(r, n);
    AckSharedAlways(r, n);
  }

  /** The acknowledgement in flight is taken by the child's next step, and the worker is then fully quiet. */
  lemma PooledAckDrains(r: seq<State>, n: nat, step: Step)
    requires Run(r) && n + 1 < |r| && r[n].parent.Pooled? && r[n].link.child.AwaitingAck?
    requires ChildDoes(r[n], step, r[n + 1]) && !step.Crashing?
    ensures r[n + 1].link.toChild == [] && r[n + 1].link.toParent == [] && r[n + 1].link.child == Awaiting([])
  {
    RunInv(r, n);
  }

  /**
   * Both streams of a pooled worker need not be empty: every task answered through a segment can be back
   * in the pool while its acknowledgement is still on the way.
   */
  lemma AckCanOutliveTask(r: seq<State>) returns (r': seq<State>)
    requires Run(r) && r[|r| - 1].parent.Opening? && !r[|r| - 1].link.child.Exited?
    ensures Run(r') && |r'| == |r| + 2 && r'[..|r|] == r
    ensures var last := r'[|r| + 1]; last.parent.Pooled? && last.link.toChild == [1] && last.link.child.AwaitingAck?
  {
    var n := |r| - 1;
    var s := r[n];
    RunInv(r, n);
    var segment := s.link.responseSegment.value;
    var t := s.(parent := Finished(s.parent.task, s.parent.seen, Returned(segment.bytes)),
                link := Acknowledge(s.link.(responseSegment := None), 1, false));
    var u := Release(t.(link := t.link.(requestSegment := None)), true);
    assert OwnerDoes(s, Acking(true, false), t);
    assert Does(s, Acking(true, false), t);
    assert OwnerDoes(t, Finishing(true), u);
    assert Does(t, Finishing(true), u);
    r' := r + [t, u];
    forall i | 0 <= i < |r'| - 1 ensures StepAt(r', i) {
      if i < n {
        assert StepAt(r, i);
      }
    }
  }

  /** A task's result is what its own body returned in the child, for its own metadata and payload. */
  lemma ResultIsTheChilds(r: seq<State>, n: nat)
    requires Run(r) && n < |r| && r[n].parent.Finished? && r[n].parent.outcome.Returned?
    ensures var task, seen := r[n].parent.task, r[n].parent.seen;
            && r[n].link.reply.Some?
            && var d := r[n].link.reply.value;
               && d.request.meta == task.meta && d.input == Some(task.payload)
               && d.success && d.bytes == r[n].parent.outcome.bytes
               && (KeyOf(task.meta).Some? ==> seen.Some? && d.used == Some(seen.value.value))
  {
    RunInv(r, n);
  }

  /**
   * A live worker in an exchange is never stuck, whatever the two streams can hold: one of the two sides can
   * always take a step of the protocol.
   */
  lemma NeverWedged(r: seq<State>, n: nat) returns (step: Step, s': State)
    requires Run(r) && n < |r| && Talking(r[n].parent) && !r[n].link.child.Exited?
    ensures Does(r[n], step, s') && !step.Aborting? && !step.Crashing? && !OthersDo(r[n], step, s')
  {
    var s := r[n];
    RunInv(r, n);
    var k := s.link;
    if s.parent.Sending? {
      step, s' := SenderMoves(s);
    } else if ResponseNeed(s.config.limit, s.parent.got) == 0 {
      step, s' := ReceiverConcludes(s);
    } else if k.reply.None? {
      step, s' := ChildMoves(s, []);
    } else {
      step, s' := AnswerMoves(s);
    }
  }

  /** The sender can write or turn, or the stream is full and the child can take from it. */
  lemma SenderMoves(s: State) returns (step: Step, s': State)
    requires Inv(s) && s.parent.Sending? && !s.link.child.Exited?
    ensures Does(s, step, s') && !step.Aborting? && !step.Crashing? && !OthersDo(s, step, s')
  {
    if s.parent.unsent == [] {
      step, s' := Turning, s.(parent := Receiving(s.parent.job, s.parent.request, []));
      assert TransferDoes(s, step, s');
    } else if |s.link.toChild| < s.config.capacity {
      step := Writing(1);
      s' := s.(parent := Sending(s.parent.job, s.parent.request, s.parent.unsent[1..]),
               link := s.link.(toChild := s.link.toChild + s.parent.unsent[..1]));
      assert TransferDoes(s, step, s');
    } else {
      step, s' := ChildMoves(s, s.parent.unsent);
    }
  }

  /** The answer moves on: the parent takes what is there, or the stream is empty and the child can write. */
  lemma AnswerMoves(s: State) returns (step: Step, s': State)
    requires Inv(s) && s.parent.Receiving? && !s.link.child.Exited? && s.link.reply.Some?
    requires ResponseNeed(s.config.limit, s.parent.got) > 0
    ensures Does(s, step, s') && !step.Aborting? && !step.Crashing? && !OthersDo(s, step, s')
  {
    var k, got := s.link, s.parent.got;
    if k.toParent != [] {
      step := Reading(1);
      s' := s.(parent := Receiving(s.parent.job, s.parent.request, got + k.toParent[..1]), link := k.(toParent := k.toParent[1..]));
      assert TransferDoes(s, step, s');
    } else {
      if !k.child.Answering? {
        var frame := ResponseFrame(k.reply.value.answer);
        assert got + [] == got && frame[..|frame|] == frame;
        ResponseNeedWithin(s.config.limit, k.reply.value.answer, |frame|);
        assert false;
      }
      step := ChildWriting(1);
      s' := s.(link := k.(toParent := k.toParent + k.child.unsent[..1],
                          child := if 1 < |k.child.unsent| then Answering(k.child.unsent[1..], k.child.keep)
                                   else if k.child.keep then AwaitingAck else Awaiting([])));
      assert ChildDoes(s, step, s');
    }
  }

  lemma ReceiverConcludes(s: State) returns (step: Step, s': State)
    requires Inv(s) && s.parent.Receiving? && ResponseNeed(s.config.limit, s.parent.got) == 0
    ensures TransferDoes(s, step, s') && !step.Aborting?
  {
    ReceivedAnswer(s.config, s.link, s.parent.request, s.parent.got);
    var answer, job := s.link.reply.value.answer, s.parent.job;
    step := Concluding;
    if !job.Execute? {
      s' := if answer.shared || !answer.success then Kill(s) else Registered(s, job);
    } else if answer.success && answer.shared {
      s' := s.(parent := Opening(job.task, job.seen, answer.payload));
    } else if answer.success {
      s' := s.(parent := Finished(job.task, job.seen, Returned(answer.payload)));
    } else {
      s' := s.(parent := Finished(job.task, job.seen, Refused(answer.payload)));
    }
  }

  lemma ChildMoves(s: State, unsent: seq<byte>) returns (step: Step, s': State)
    requires Inv(s) && s.link.reply.None? && !s.link.child.Exited?
    requires (s.parent.Receiving? && unsent == []) || (s.parent.Sending? && unsent == s.parent.unsent && s.link.toChild != [])
    ensures Does(s, step, s') && !step.Aborting? && !step.Crashing? && !OthersDo(s, step, s')
  {
    var k, limit, request := s.link, s.config.limit, s.parent.request;
    assert Exchange(s.config, k, request, unsent, []);
    if k.child.AwaitingAck? {
      step := ChildAcking;
      s' := s.(link := k.(toChild := k.toChild[1..], child := Awaiting([]), responseSegment := None));
    } else if RequestNeed(limit, k.child.taken) == 0 {
      ServedRequest(s.config, k, request, unsent, []);
      step, s' := ChildFails(s);
    } else {
      var frame, taken := RequestFrame(request), k.child.taken;
      Concat3([], taken, k.toChild, unsent);
      assert frame[..|taken|] == taken;
      RequestNeedWithin(limit, request, |taken|);
      step := ChildTaking(1);
      s' := s.(link := k.(child := Awaiting(taken + k.toChild[..1]), toChild := k.toChild[1..]));
    }
    assert ChildDoes(s, step, s');
  }

  /** A child that has read a request can always answer it, for instance with an error. */
  lemma ChildFails(s: State) returns (step: Step, s': State)
    requires s.link.child.Awaiting? && RequestNeed(s.config.limit, s.link.child.taken) == 0
    requires ReadRequest(s.config.limit, s.link.child.taken).Ok? ==> ReadRequest(s.config.limit, s.link.child.taken).value.Some?
    ensures ChildDoes(s, step, s') && !step.Crashing?
  {
    var read := ReadRequest(s.config.limit, s.link.child.taken);
    if read.Err? {
      step := Serving(true, Done(Request(Python, false, []), None, None, false, [], Response(false, false, [])), map[], None);
      s' := s.(link := s.link.(child := Exited));
    } else {
      var request := read.value.value.value;
      var input := InputOf(s.config, s.link, request, true);
      var used := if input.None? then None else Used(s.link.held, request.meta);
      var done := Done(request, input, used, false, [], Response(false, false, []));
      step, s' := Serving(true, done, s.link.held, None), Answered(s, done, s.link.held, None);
    }
  }

  // ---------------------------------------------------------------- an exchange ends

  /** In the middle of an exchange with a live child. */
  predicate Live(s: State) {
    Talking(s.parent) && !s.link.child.Exited?
  }

  /** Bounds the protocol steps that can follow within the exchange: bytes still to move, each written and read once. */
  function Remaining(s: State): nat {
    var k := s.link;
    (if s.parent.Sending? then 1 + 2 * |s.parent.unsent| else 0) +
    (if k.reply.None? then |k.toChild| + 2 * (RESPONSE_HEADER + s.config.limit) + 1
     else |k.toParent| + if k.child.Answering? then 2 * |k.child.unsent| else 0)
  }

  lemma TransferUses(s: State, step: Step, s': State)
    requires Inv(s) && Live(s) && Live(s') && TransferDoes(s, step, s')
    ensures Remaining(s') < Remaining(s)
  {
  }

  lemma ServeUses(s: State, s': State, usable: bool, done: Done, held: map<Key, Value>, segment: Option<Segment>)
    requires s.link.reply.None? && s.link.toParent == [] && Live(s) && Live(s') && Serves(s, s', usable, done, held, segment)
    ensures Remaining(s') < Remaining(s)
  {
    assert s' == Answered(s, done, held, segment);
    assert |ResponseFrame(done.answer)| == RESPONSE_HEADER + |done.answer.payload|;
  }

  /** A child that has read a request has not answered it yet. */
  lemma ServingIsFirst(s: State)
    requires ParentOk(s) && Live(s) && s.link.child.Awaiting? && RequestNeed(s.config.limit, s.link.child.taken) == 0
    ensures s.link.reply.None? && s.link.toParent == []
  {
  }

  lemma ChildUses(s: State, step: Step, s': State)
    requires Inv(s) && Live(s) && Live(s') && ChildDoes(s, step, s')
    ensures Remaining(s') < Remaining(s)
  {
    if step.Serving? {
      ServingIsFirst(s);
      ServeUses(s, s', step.usable, step.done, step.held, step.segment);
    }
  }

  /** Every step within an exchange uses up some of what remains, or is another thread's and leaves the exchange alone. */
  lemma ExchangeStep(r: seq<State>, n: nat)
    requires Run(r) && n + 1 < |r| && Live(r[n]) && Live(r[n + 1])
    ensures if Moves(r, n) then Remaining(r[n + 1]) < Remaining(r[n]) else Remaining(r[n + 1]) == Remaining(r[n])
  {
    var s, s' := r[n], r[n + 1];
    RunInv(r, n);
    assert StepAt(r, n);
    var step :| Does(s, step, s');
    if OwnerDoes(s, step, s') {
      assert false;
    } else if TransferDoes(s, step, s') {
      TransferUses(s, step, s');
    } else if ChildDoes(s, step, s') {
      ChildUses(s, step, s');
    }
  }

  /** Step `n` of the run is one of the parent or the child. */
  predicate Moves(r: seq<State>, n: nat)
    requires n + 1 < |r|
  {
    r[n + 1].link != r[n].link || r[n + 1].parent != r[n].parent
  }

  function MovesBetween(r: seq<State>, n: nat, m: nat): nat
    requires n <= m < |r|
    decreases m - n
  {
    if n == m then 0 else (if Moves(r, n) then 1 else 0) + MovesBetween(r, n + 1, m)
  }

  /** While an exchange with a live child lasts, it takes at most `Remaining` steps of the two sides. */
  lemma {:induction false} ExchangeIsBounded(r: seq<State>, n: nat, m: nat)
    requires Run(r) && n <= m < |r| && forall i | n <= i <= m :: Live(r[i])
    ensures MovesBetween(r, n, m) <= Remaining(r[n])
    decreases m - n
  {
    if n < m {
      ExchangeStep(r, n);
      ExchangeIsBounded(r, n + 1, m);
    }
  }

  // ---------------------------------------------------------------- registry freshness

  /** The child has already installed a newer value for `key` than the one the parent has on record. */
  predicate BeingReplaced(s: State, key: Key)
    requires key in s.recorded && s.recorded[key] in s.registry.log
  {
    && Talking(s.parent) && s.parent.job.Update? && s.parent.job.key == key
    && s.link.reply.Some? && s.link.reply.value.success
    && s.parent.job.entry.value != s.registry.log[s.recorded[key]].value
  }

  /**
   * A recorded generation names a value once stored for that key, and a live child holds exactly that value,
   * except between the child's installing a replacement and the parent's recording it.
   */
  lemma RecordsAreFresh(r: seq<State>, n: nat, key: Key)
    requires Run(r) && n < |r| && key in r[n].recorded
    ensures r[n].recorded[key] in r[n].registry.log && r[n].registry.log[r[n].recorded[key]].key == key
    ensures !r[n].link.child.Exited? ==> key in r[n].link.held
    ensures !r[n].link.child.Exited? ==>
              (r[n].link.held[key] == r[n].registry.log[r[n].recorded[key]].value <==> !BeingReplaced(r[n], key))
  {
    RunInv(r, n);
    var s := r[n];
    assert RecordOk(s, key);
    if !s.link.child.Exited? {
      assert HoldsOk(s, key);
      BootsAreNew(r, n);
    }
  }

  /** What remains of a snapshot, and its entry on the way, has no record yet. */
  predicate BootOk(s: State) {
    match s.parent
    case BootWasms(todo) => Fresh(s, todo, true) && WasmOnly(s)
    case BootDylibs(todo) => Fresh(s, todo, false)
    case Sending(job, _, _) => JobFresh(s, job)
    case Receiving(job, _, _) => JobFresh(s, job)
    case _ => true
  }

  predicate Fresh(s: State, todo: map<Key, Entry>, wasm: bool) {
    forall k | k in todo :: k.WasmKey? == wasm && k !in s.recorded
  }

  predicate WasmOnly(s: State) {
    forall k | k in s.recorded :: k.WasmKey?
  }

  predicate JobFresh(s: State, job: Job) {
    job.Boot? ==>
      job.key !in s.recorded && job.key !in job.todo && Fresh(s, job.todo, job.key.WasmKey?) && (job.key.WasmKey? ==> WasmOnly(s))
  }

  /** Other threads and the child leave the parent and its records alone. */
  lemma Bystanders(s: State, step: Step, s': State)
    requires OthersDo(s, step, s') || ChildDoes(s, step, s')
    ensures s'.parent == s.parent && s'.recorded == s.recorded
  {
  }

  lemma BootTransfer(s: State, step: Step, s': State)
    requires BootOk(s) && TransferDoes(s, step, s')
    ensures BootOk(s')
  {
  }

  lemma BootOwner(s: State, step: Step, s': State)
    requires BootOk(s) && OwnerDoes(s, step, s')
    ensures BootOk(s')
  {
    if step.Booting? {
      BootTurn(s, s', step.key, step.task);
    }
  }

  lemma BootTurn(s: State, s': State, key: Key, task: Task)
    requires BootOk(s) && Boots(s, s', key, task)
    ensures BootOk(s')
  {
  }

  lemma BootStep(s: State, s': State)
    requires BootOk(s) && Next(s, s')
    ensures BootOk(s')
  {
    var step :| Does(s, step, s');
    if TransferDoes(s, step, s') {
      BootTransfer(s, step, s');
    } else if OwnerDoes(s, step, s') {
      BootOwner(s, step, s');
    } else {
      Bystanders(s, step, s');
    }
  }

  lemma BootAt(r: seq<State>, n: nat)
    requires Run(r) && n + 1 < |r| && BootOk(r[n])
    ensures BootOk(r[n + 1])
  {
    assert StepAt(r, n);
    BootStep(r[n], r[n + 1]);
  }

  lemma {:induction false} BootsAreNew(r: seq<State>, n: nat)
    requires Run(r) && n < |r|
    ensures BootOk(r[n])
  {
    if n > 0 {
      BootsAreNew(r, n - 1);
      BootAt(r, n - 1);
    }
  }

  /** The task a parent serves and the registry entry it decided on. */
  datatype Decision = Decision(task: Task, entry: Entry)

  function DecisionOf(p: ParentPc): Option<Decision> {
    match p
    case Stale(task, _, entry) => Some(Decision(task, entry))
    case Ready(task, seen) => Seen(task, seen)
    case Sending(job, _, _) => JobDecision(job)
    case Receiving(job, _, _) => JobDecision(job)
    case Opening(task, seen, _) => Seen(task, seen)
    case Finished(task, seen, _) => Seen(task, seen)
    case _ => None
  }

  function Seen(task: Task, seen: Option<Entry>): Option<Decision> {
    if seen.Some? then Some(Decision(task, seen.value)) else None
  }

  function JobDecision(job: Job): Option<Decision> {
    match job
    case Boot(_, _, _) => None
    case Drop(task, _, entry) => Some(Decision(task, entry))
    case Update(task, _, entry) => Some(Decision(task, entry))
    case Execute(task, seen) => Seen(task, seen)
  }

  /** `entry` is the parent's registration for the task's key, and the task is at its synchronisation step. */
  predicate DecidedAt(s: State, d: Decision) {
    && s.parent == Acquired(d.task) && KeyOf(d.task.meta).Some?
    && KeyOf(d.task.meta).value in s.registry.entries
    && s.registry.entries[KeyOf(d.task.meta).value] == d.entry
  }

  lemma DecisionTransfer(s: State, step: Step, s': State)
    requires TransferDoes(s, step, s') && DecisionOf(s'.parent).Some?
    ensures DecisionOf(s.parent) == DecisionOf(s'.parent)
  {
  }

  lemma DecisionOwner(s: State, step: Step, s': State)
    requires OwnerDoes(s, step, s') && DecisionOf(s'.parent).Some?
    ensures DecisionOf(s.parent) == DecisionOf(s'.parent) || DecidedAt(s, DecisionOf(s'.parent).value)
  {
    if step.Syncing? {
      DecisionSync(s, s', step.keep);
    } else if step.Booting? {
      BootDecides(s, s', step.key, step.task);
    }
  }

  lemma DecisionSync(s: State, s': State, keep: bool)
    requires Syncs(s, s', keep) && DecisionOf(s'.parent).Some?
    ensures DecidedAt(s, DecisionOf(s'.parent).value)
  {
  }

  /** Filling a new worker serves no task yet. */
  lemma BootDecides(s: State, s': State, key: Key, task: Task)
    requires Boots(s, s', key, task)
    ensures DecisionOf(s'.parent).None?
  {
  }

  lemma DecisionStep(s: State, s': State)
    requires Next(s, s') && DecisionOf(s'.parent).Some?
    ensures DecisionOf(s.parent) == DecisionOf(s'.parent) || DecidedAt(s, DecisionOf(s'.parent).value)
  {
    var step :| Does(s, step, s');
    if TransferDoes(s, step, s') {
      DecisionTransfer(s, step, s');
    } else if OwnerDoes(s, step, s') {
      DecisionOwner(s, step, s');
    } else {
      Bystanders(s, step, s');
    }
  }

  lemma DecisionMoves(r: seq<State>, n: nat)
    requires Run(r) && n + 1 < |r| && DecisionOf(r[n + 1].parent).Some?
    ensures DecisionOf(r[n].parent) == DecisionOf(r[n + 1].parent) || DecidedAt(r[n], DecisionOf(r[n + 1].parent).value)
  {
    assert StepAt(r, n);
    DecisionStep(r[n], r[n + 1]);
  }

  /**
   * Whatever a task runs against was the parent's registration for its key at the task's own synchronisation
   * step `m`, and the task has not been at another one since.
   */
  lemma {:induction false} DecisionWasCurrent(r: seq<State>, n: nat) returns (m: nat)
    requires Run(r) && n < |r| && DecisionOf(r[n].parent).Some?
    ensures m < n && DecidedAt(r[m], DecisionOf(r[n].parent).value)
    ensures forall i | m < i <= n :: DecisionOf(r[i].parent) == DecisionOf(r[n].parent)
  {
    if n > 0 {
      DecisionMoves(r, n - 1);
      if DecidedAt(r[n - 1], DecisionOf(r[n].parent).value) {
        m := n - 1;
      } else {
        m := DecisionWasCurrent(r, n - 1);
      }
    }
  }

  /** A WASM or dynamic-library body ran in the child against a registration that was current at the task's sync step. */
  lemma RunsAgainstCurrent(r: seq<State>, n: nat) returns (m: nat)
    requires Run(r) && n < |r| && r[n].parent.Finished? && KeyOf(r[n].parent.task.meta).Some?
    requires r[n].link.reply.Some? && r[n].link.reply.value.input.Some?
    ensures m < n && r[m].parent == Acquired(r[n].parent.task)
    ensures var key := KeyOf(r[n].parent.task.meta).value;
            key in r[m].registry.entries && r[n].link.reply.value.used == Some(r[m].registry.entries[key].value)
    ensures forall i | m < i <= n :: !r[i].parent.Acquired?
  {
    RunInv(r, n);
    m := DecisionWasCurrent(r, n);
  }
}
