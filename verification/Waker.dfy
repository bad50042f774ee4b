/**
 * The asynchronous wake-up path: engine threads write one byte per completion into a bounded pipe, a waker
 * thread turns bytes into event-loop callbacks for every pending future, and the callbacks resolve the
 * futures of finished tasks. Any number of tasks, coroutines and event loops; a future belongs to the loop of
 * its coroutine and a callback to the loop it was posted on.
 */
module Waker {
  import opened Sums

  /** A future of one await of task `id`, on the event loop of the coroutine that made it. */
  datatype Future = Future(id: nat, serial: nat, loop: nat)

  /** The one coroutine inside `result_async` for a task; tasks without one are not in the map. */
  datatype Coroutine =
    | Entered(loop: nat)
    | Registered(loop: nat)
    | Checking(future: Future)
    | Awaiting(future: Future)
    | Leaving(future: Future, gaveUp: bool)

  datatype WakerPc =
    | Reading
    | Snapshotting
    | Posting(items: seq<Future>)

  /** How far a `_resolve_future_safe` callback has got, from its posting to its end. */
  datatype Stage =
    | Queued(id: nat)
    | Found(future: Future)
    | Terminal(future: Future)
    | Popped(future: Future)
    | Ended

  /** A callback and the event loop that runs it. */
  datatype Call = Call(loop: nat, stage: Stage)

  /** `foreign` is history: the futures that a callback of another loop resolved. */
  datatype State = State(
    capacity: nat, pipe: nat, registered: bool,
    terminal: set<nat>, notified: set<nat>,
    pending: map<nat, Future>, coroutines: map<nat, Coroutine>, done: set<Future>, next: nat,
    waker: WakerPc, calls: seq<Call>, foreign: set<Future>)

  const READ_SIZE: nat := 4096

  // ---------------------------------------------------------------- engine threads

  /** A status store; statuses never leave a terminal value, and a freed task reads as finished. */
  predicate Finishes(s: State, s': State, id: nat) {
    s' == s.(terminal := s.terminal + {id})
  }

  /** `notify_waker` after the status store: one byte, dropped when the pipe is full, nothing without a waker. */
  predicate Notifies(s: State, s': State, id: nat) {
    && id in s.terminal
    && s' == s.(notified := s.notified + {id},
                pipe := if s.registered && s.pipe < s.capacity then s.pipe + 1 else s.pipe)
  }

  // ---------------------------------------------------------------- coroutines

  /** `result_async`; a second concurrent waiter is refused. */
  predicate Enters(s: State, s': State, id: nat, loop: nat) {
    id !in s.coroutines && s' == s.(coroutines := s.coroutines[id := Entered(loop)])
  }

  predicate CoroutineStep(s: State, s': State, id: nat) {
    && id in s.coroutines
    && match s.coroutines[id]
       case Entered(loop) => s' == s.(registered := true, coroutines := s.coroutines[id := Registered(loop)])
       case Registered(loop) =>
         var future := Future(id, s.next, loop);
         s' == s.(next := s.next + 1, pending := s.pending[id := future], coroutines := s.coroutines[id := Checking(future)])
       case Checking(future) =>
         s' == s.(coroutines := s.coroutines[id := if id in s.terminal then Leaving(future, false) else Awaiting(future)])
       case Awaiting(future) => future in s.done && s' == s.(coroutines := s.coroutines[id := Leaving(future, false)])
       case Leaving(future, _) =>
         s' == s.(coroutines := s.coroutines - {id},
                  pending := if id in s.pending && s.pending[id] == future then s.pending - {id} else s.pending)
  }

  /** A timeout or a cancellation of the coroutine cancels its future. */
  predicate GivesUp(s: State, s': State, id: nat) {
    && id in s.coroutines && s.coroutines[id].Awaiting?
    && s' == s.(done := s.done + {s.coroutines[id].future}, coroutines := s.coroutines[id := Leaving(s.coroutines[id].future, true)])
  }

  // ---------------------------------------------------------------- the waker thread and the callbacks

  /** A listing of the pending futures, in any order. */
  ghost predicate Lists(pending: map<nat, Future>, items: seq<Future>) {
    (forall id | id in pending :: pending[id] in items) && (forall f | f in items :: f in pending.Values) && |items| == |pending|
  }

  /** Each item is posted on the loop of its own future. */
  ghost predicate WakerStep(s: State, s': State, items: seq<Future>) {
    match s.waker
    case Reading =>
      s.pipe > 0 && s' == s.(pipe := if s.pipe <= READ_SIZE then 0 else s.pipe - READ_SIZE, waker := Snapshotting)
    case Snapshotting => Lists(s.pending, items) && s' == s.(waker := Posting(items))
    case Posting(rest) =>
      if rest == [] then s' == s.(waker := Reading)
      else s' == s.(waker := Posting(rest[1..]), calls := s.calls + [Call(rest[0].loop, Queued(rest[0].id))])
  }

  /** The callback's own lock sections and future updates; it looks the future up by task id alone. */
  predicate CallStep(s: State, s': State, c: nat) {
    && c < |s.calls|
    && var loop := s.calls[c].loop;
       match s.calls[c].stage
       case Queued(id) =>
         s' == s.(calls := s.calls[c := Call(loop, if id in s.pending && s.pending[id] !in s.done then Found(s.pending[id]) else Ended)])
       case Found(future) =>
         s' == s.(calls := s.calls[c := Call(loop, if future.id in s.terminal then Terminal(future) else Ended)])
       case Terminal(future) =>
         s' == s.(calls := s.calls[c := Call(loop, Popped(future))],
                  pending := if future.id in s.pending && s.pending[future.id] == future then s.pending - {future.id} else s.pending)
       case Popped(future) =>
         s' == s.(calls := s.calls[c := Call(loop, Ended)], done := s.done + {future},
                  foreign := if future !in s.done && loop != future.loop then s.foreign + {future} else s.foreign)
       case Ended => false
  }

  // ---------------------------------------------------------------- runs

  datatype Step =
    | Finishing(id: nat) | Notifying(id: nat) | Entering(id: nat, loop: nat) | Continuing(id: nat) | GivingUp(id: nat)
    | Waking(items: seq<Future>) | Calling(c: nat)

  ghost predicate Does(s: State, step: Step, s': State) {
    match step
    case Finishing(id) => Finishes(s, s', id)
    case Notifying(id) => Notifies(s, s', id)
    case Entering(id, loop) => Enters(s, s', id, loop)
    case Continuing(id) => CoroutineStep(s, s', id)
    case GivingUp(id) => GivesUp(s, s', id)
    case Waking(items) => WakerStep(s, s', items)
    case Calling(c) => CallStep(s, s', c)
  }

  ghost predicate Next(s: State, s': State) {
    exists step :: Does(s, step, s')
  }

  predicate Init(s: State) {
    && s.capacity > 0 && s.pipe == 0 && !s.registered && s.terminal == {} && s.notified == {}
    && s.pending == map[] && s.coroutines == map[] && s.done == {} && s.next == 0
    && s.waker == Reading && s.calls == [] && s.foreign == {}
  }

  ghost predicate StepAt(r: seq<State>, n: nat)
    requires n + 1 < |r|
  {
    Next(r[n], r[n + 1])
  }

  ghost predicate Run(r: seq<State>) {
    && r != [] && Init(r[0])
    && forall n :: 0 <= n < |r| - 1 ==> StepAt(r, n)
  }

  // ---------------------------------------------------------------- the invariant

  /** Some callback is at this stage. */
  predicate Has(calls: seq<Call>, stage: Stage) {
    exists c :: 0 <= c < |calls| && calls[c].stage == stage
  }

  /** Some callback holds `future` and will resolve it if its task is finished. */
  predicate Held(s: State, future: Future) {
    Has(s.calls, Found(future)) || Has(s.calls, Terminal(future)) || Has(s.calls, Popped(future))
  }

  predicate Listed(items: seq<Future>, id: nat) {
    exists i :: 0 <= i < |items| && items[i].id == id
  }

  /** A wake-up for task `id` is on its way. */
  predicate Coming(s: State, id: nat, future: Future) {
    || s.pipe > 0
    || s.waker.Snapshotting?
    || (s.waker.Posting? && Listed(s.waker.items, id))
    || Has(s.calls, Queued(id))
    || Held(s, future)
  }

  predicate InMap(s: State, id: nat, future: Future) {
    id in s.pending && s.pending[id] == future
  }

  predicate CoroutineOk(s: State, id: nat, pc: Coroutine) {
    match pc
    case Entered(_) => true
    case Registered(_) => s.registered
    case Checking(f) =>
      && s.registered && f.id == id && f.serial < s.next && (f in s.done ==> id in s.terminal)
      && (f !in s.done ==> InMap(s, id, f) || Has(s.calls, Popped(f)))
    case Awaiting(f) =>
      && s.registered && f.id == id && f.serial < s.next && (f in s.done ==> id in s.terminal)
      && (f !in s.done ==> InMap(s, id, f) || Has(s.calls, Popped(f)))
      && (f !in s.done && id in s.notified ==> Coming(s, id, f))
    case Leaving(f, gaveUp) => f.id == id && f.serial < s.next && (!gaveUp ==> id in s.terminal)
  }

  predicate CallOk(s: State, stage: Stage) {
    match stage
    case Queued(_) => true
    case Found(f) => f.serial < s.next
    case Terminal(f) => f.serial < s.next && f.id in s.terminal
    case Popped(f) => f.serial < s.next && f.id in s.terminal
    case Ended => true
  }

  /** A pending future is that of the coroutine now awaiting its task. */
  predicate PendingOk(s: State, id: nat) {
    id in s.pending ==>
      && s.pending[id].id == id && s.pending[id].serial < s.next
      && id in s.coroutines && !s.coroutines[id].Entered? && !s.coroutines[id].Registered?
      && s.coroutines[id].future == s.pending[id]
  }

  ghost predicate Inv(s: State) {
    && s.capacity > 0 && s.notified <= s.terminal
    && (forall id | id in s.coroutines :: CoroutineOk(s, id, s.coroutines[id]))
    && (forall c | 0 <= c < |s.calls| :: CallOk(s, s.calls[c].stage))
    && (forall id | id in s.pending :: PendingOk(s, id))
    && (forall f | f in s.done :: f.serial < s.next)
  }

  // ---------------------------------------------------------------- preservation

  lemma EngineInv(s: State, s': State, id: nat)
    requires Inv(s) && (Finishes(s, s', id) || Notifies(s, s', id))
    ensures Inv(s')
  {
  }

  lemma EntersInv(s: State, s': State, id: nat, loop: nat)
    requires Inv(s) && (Enters(s, s', id, loop) || GivesUp(s, s', id))
    ensures Inv(s')
  {
    forall k | k in s'.coroutines ensures CoroutineOk(s', k, s'.coroutines[k]) {
      assert k in s.coroutines ==> CoroutineOk(s, k, s.coroutines[k]);
      assert id in s.coroutines ==> CoroutineOk(s, id, s.coroutines[id]);
    }
  }

  lemma CoroutineInv(s: State, s': State, id: nat)
    requires Inv(s) && CoroutineStep(s, s', id)
    ensures Inv(s')
  {
    assert CoroutineOk(s, id, s.coroutines[id]);
    CoroutinePending(s, s', id);
    forall k | k in s'.coroutines ensures CoroutineOk(s', k, s'.coroutines[k]) {
      assert CoroutineOk(s, k, s.coroutines[k]);
    }
  }

  lemma CoroutinePending(s: State, s': State, id: nat)
    requires Inv(s) && CoroutineStep(s, s', id)
    ensures forall k | k in s'.pending :: PendingOk(s', k)
  {
    assert CoroutineOk(s, id, s.coroutines[id]);
    forall k | k in s'.pending ensures PendingOk(s', k) {
      assert PendingOk(s, k);
    }
  }

  lemma HasMore(calls: seq<Call>, call: Call, stage: Stage)
    requires Has(calls, stage) || call.stage == stage
    ensures Has(calls + [call], stage)
  {
    if Has(calls, stage) {
      var c :| 0 <= c < |calls| && calls[c].stage == stage;
      assert (calls + [call])[c].stage == stage;
    } else {
      assert (calls + [call])[|calls|].stage == stage;
    }
  }

  lemma HasOther(calls: seq<Call>, c: nat, call: Call, stage: Stage)
    requires c < |calls| && ((Has(calls, stage) && stage != calls[c].stage) || stage == call.stage)
    ensures Has(calls[c := call], stage)
  {
    if stage == call.stage {
      assert calls[c := call][c].stage == stage;
    } else {
      var b :| 0 <= b < |calls| && calls[b].stage == stage;
      assert calls[c := call][b].stage == stage;
    }
  }

  /** Posting one item on loses nobody. */
  lemma PostKeeps(s: State, s': State, id: nat, f: Future)
    requires s.waker.Posting? && s.waker.items != [] && WakerStep(s, s', [])
    ensures Coming(s, id, f) ==> Coming(s', id, f)
    ensures Has(s.calls, Popped(f)) ==> Has(s'.calls, Popped(f))
  {
    var items, call := s.waker.items, Call(s.waker.items[0].loop, Queued(s.waker.items[0].id));
    forall stage | Has(s.calls, stage) || call.stage == stage ensures Has(s'.calls, stage) {
      HasMore(s.calls, call, stage);
    }
    if Listed(items, id) && items[0].id != id {
      var i :| 0 <= i < |items| && items[i].id == id;
      assert items[1..][i - 1].id == id;
    }
  }

  lemma SnapshotLists(s: State, items: seq<Future>, id: nat)
    requires Lists(s.pending, items) && id in s.pending && PendingOk(s, id)
    ensures Listed(items, id)
  {
    var i :| 0 <= i < |items| && items[i] == s.pending[id];
  }

  lemma WakerCoroutine(s: State, s': State, items: seq<Future>, id: nat)
    requires Inv(s) && WakerStep(s, s', items) && id in s.coroutines
    ensures CoroutineOk(s', id, s'.coroutines[id])
  {
    assert CoroutineOk(s, id, s.coroutines[id]);
    if s.coroutines[id].Awaiting? || s.coroutines[id].Checking? {
      if s.waker.Posting? && s.waker.items != [] {
        PostKeeps(s, s', id, s.coroutines[id].future);
      } else if s.waker.Snapshotting? && id in s.pending {
        assert PendingOk(s, id);
        SnapshotLists(s, items, id);
      }
    }
  }

  lemma WakerInv(s: State, s': State, items: seq<Future>)
    requires Inv(s) && WakerStep(s, s', items)
    ensures Inv(s')
  {
    forall id | id in s'.coroutines ensures CoroutineOk(s', id, s'.coroutines[id]) {
      WakerCoroutine(s, s', items, id);
    }
    forall c | 0 <= c < |s'.calls| ensures CallOk(s', s'.calls[c].stage) {
      assert c < |s.calls| ==> CallOk(s, s.calls[c].stage);
    }
  }

  /** One callback step as the others see it. */
  lemma CallFrame(s: State, s': State, c: nat, stage: Stage)
    requires CallStep(s, s', c) && ((Has(s.calls, stage) && stage != s.calls[c].stage) || stage == s'.calls[c].stage)
    ensures s'.calls == s.calls[c := s'.calls[c]] && Has(s'.calls, stage)
  {
    assert s'.calls == s.calls[c := s'.calls[c]];
    HasOther(s.calls, c, s'.calls[c], stage);
  }

  lemma CallCoroutine(s: State, s': State, c: nat, id: nat)
    requires Inv(s) && CallStep(s, s', c) && id in s.coroutines
    ensures CoroutineOk(s', id, s'.coroutines[id])
  {
    forall stage | (Has(s.calls, stage) && stage != s.calls[c].stage) || stage == s'.calls[c].stage ensures Has(s'.calls, stage) {
      CallFrame(s, s', c, stage);
    }
    assert CoroutineOk(s, id, s.coroutines[id]);
    assert CallOk(s, s.calls[c].stage);
  }

  lemma CallStages(s: State, s': State, c: nat)
    requires Inv(s) && CallStep(s, s', c)
    ensures forall b | 0 <= b < |s'.calls| :: CallOk(s', s'.calls[b].stage)
    ensures forall id | id in s'.pending :: PendingOk(s', id)
    ensures forall f | f in s'.done :: f.serial < s'.next
  {
    assert CallOk(s, s.calls[c].stage);
    if s.calls[c].stage.Queued? && s.calls[c].stage.id in s.pending {
      assert PendingOk(s, s.calls[c].stage.id);
    }
    forall b | 0 <= b < |s'.calls| ensures CallOk(s', s'.calls[b].stage) {
      assert CallOk(s, s.calls[b].stage);
    }
    forall id | id in s'.pending ensures PendingOk(s', id) {
      assert PendingOk(s, id);
    }
  }

  lemma CallInv(s: State, s': State, c: nat)
    requires Inv(s) && CallStep(s, s', c)
    ensures Inv(s')
  {
    CallStages(s, s', c);
    forall id | id in s'.coroutines ensures CoroutineOk(s', id, s'.coroutines[id]) {
      CallCoroutine(s, s', c, id);
    }
  }

  lemma NextInv(s: State, step: Step, s': State)
    requires Inv(s) && Does(s, step, s')
    ensures Inv(s')
  {
    match step {
      case Finishing(id) => EngineInv(s, s', id);
      case Notifying(id) => EngineInv(s, s', id);
      case Entering(id, loop) => EntersInv(s, s', id, loop);
      case GivingUp(id) => EntersInv(s, s', id, 0);
      case Continuing(id) => CoroutineInv(s, s', id);
      case Waking(items) => WakerInv(s, s', items);
      case Calling(c) => CallInv(s, s', c);
    }
  }

  lemma {:induction false} RunInv(r: seq<State>, n: nat)
    requires Run(r) && n < |r|
    ensures Inv(r[n])
  {
    if n > 0 {
      RunInv(r, n - 1);
      assert StepAt(r, n - 1);
      var step :| Does(r[n - 1], step, r[n]);
      NextInv(r[n - 1], step, r[n]);
    }
  }

  // ---------------------------------------------------------------- no completion is lost

  /** A coroutine whose task has finished and been announced while it still waits. */
  predicate Overdue(s: State, id: nat) {
    && id in s.coroutines && s.coroutines[id].Awaiting?
    && id in s.terminal && id in s.notified && s.coroutines[id].future !in s.done
  }

  /** Whenever a coroutine is overdue its wake-up is in the pipe, with the waker thread, or with a callback. */
  lemma NoLostCompletion(r: seq<State>, n: nat, id: nat)
    requires Run(r) && n < |r| && Overdue(r[n], id)
    ensures Coming(r[n], id, r[n].coroutines[id].future)
    ensures InMap(r[n], id, r[n].coroutines[id].future) || Has(r[n].calls, Popped(r[n].coroutines[id].future))
  {
    RunInv(r, n);
    assert CoroutineOk(r[n], id, r[n].coroutines[id]);
  }

  /** A coroutine leaves `result_async` only when its task has ended, or because it gave up. */
  lemma NoEarlyReturn(r: seq<State>, n: nat, id: nat)
    requires Run(r) && n < |r| && id in r[n].coroutines && r[n].coroutines[id].Leaving? && !r[n].coroutines[id].gaveUp
    ensures id in r[n].terminal
  {
    RunInv(r, n);
    assert CoroutineOk(r[n], id, r[n].coroutines[id]);
  }

  /** No future outlives its await: whatever is pending belongs to the coroutine now inside `result_async`. */
  lemma NoLeakedFuture(r: seq<State>, n: nat, id: nat)
    requires Run(r) && n < |r| && id in r[n].pending
    ensures id in r[n].coroutines && r[n].coroutines[id] in {Checking(r[n].pending[id]), Awaiting(r[n].pending[id]),
                                                            Leaving(r[n].pending[id], true), Leaving(r[n].pending[id], false)}
  {
    RunInv(r, n);
    assert PendingOk(r[n], id);
  }

  /** A coroutine is held up only by an unresolved future: in every other state it has a step, and its last one frees the task for the next waiter. */
  lemma CoroutineMoves(s: State, id: nat) returns (s': State)
    requires id in s.coroutines && (s.coroutines[id].Awaiting? ==> s.coroutines[id].future in s.done)
    ensures CoroutineStep(s, s', id)
    ensures s.coroutines[id].Leaving? ==> id !in s'.coroutines && !InMap(s', id, s.coroutines[id].future)
  {
    match s.coroutines[id] {
      case Entered(loop) => s' := s.(registered := true, coroutines := s.coroutines[id := Registered(loop)]);
      case Registered(loop) =>
        var future := Future(id, s.next, loop);
        s' := s.(next := s.next + 1, pending := s.pending[id := future], coroutines := s.coroutines[id := Checking(future)]);
      case Checking(future) =>
        s' := s.(coroutines := s.coroutines[id := if id in s.terminal then Leaving(future, false) else Awaiting(future)]);
      case Awaiting(future) => s' := s.(coroutines := s.coroutines[id := Leaving(future, false)]);
      case Leaving(future, _) =>
        s' := s.(coroutines := s.coroutines - {id},
                 pending := if id in s.pending && s.pending[id] == future then s.pending - {id} else s.pending);
    }
  }

  /** A coroutine is woken only by the end of its own task. */
  lemma NoEarlyWake(r: seq<State>, n: nat, id: nat)
    requires Run(r) && n < |r| && id in r[n].coroutines && r[n].coroutines[id].Awaiting?
    requires r[n].coroutines[id].future in r[n].done
    ensures id in r[n].terminal
  {
    RunInv(r, n);
    assert CoroutineOk(r[n], id, r[n].coroutines[id]);
  }

  ghost predicate NobodyForgotten(s: State) {
    forall id | id in s.coroutines && Overdue(s, id) :: Coming(s, id, s.coroutines[id].future)
  }

  /** A notification that finds the pipe full is dropped without harm: the bytes already there stand for it. */
  lemma DroppedWriteIsHarmless(r: seq<State>, n: nat, id: nat)
    requires Run(r) && n + 1 < |r| && Notifies(r[n], r[n + 1], id)
    requires r[n].registered && r[n + 1].pipe == r[n].pipe
    ensures r[n + 1].pipe > 0 && NobodyForgotten(r[n + 1])
  {
    RunInv(r, n);
    RunInv(r, n + 1);
    var s := r[n + 1];
    forall k | k in s.coroutines && Overdue(s, k) ensures Coming(s, k, s.coroutines[k].future) {
      assert CoroutineOk(s, k, s.coroutines[k]);
    }
  }

  // ---------------------------------------------------------------- wake-ups arrive

  /** The waker thread has nothing to read or post and no callback is left. */
  predicate Quiet(s: State) {
    s.waker == Reading && s.pipe == 0 && forall c | 0 <= c < |s.calls| :: s.calls[c].stage.Ended?
  }

  /** In a quiet state nobody is overdue. */
  lemma QuietMeansDelivered(r: seq<State>, n: nat, id: nat)
    requires Run(r) && n < |r| && Quiet(r[n])
    ensures !Overdue(r[n], id)
  {
    if Overdue(r[n], id) {
      NoLostCompletion(r, n, id);
    }
  }

  ghost predicate NobodyOverdue(s: State) {
    forall id :: !Overdue(s, id)
  }

  predicate Internal(step: Step) {
    step.Waking? || step.Calling?
  }

  /** A state that is not quiet has a waker or callback step. */
  lemma NotQuietMoves(s: State) returns (step: Step, s': State)
    requires !Quiet(s)
    ensures Internal(step) && Does(s, step, s')
  {
    if c :| 0 <= c < |s.calls| && !s.calls[c].stage.Ended? {
      step, s' := CallMoves(s, c);
    } else if s.waker.Snapshotting? {
      var items := ListOf(s.pending);
      step, s' := Waking(items), s.(waker := Posting(items));
    } else if s.waker.Reading? {
      assert s.pipe > 0;
      step, s' := Waking([]), s.(pipe := if s.pipe <= READ_SIZE then 0 else s.pipe - READ_SIZE, waker := Snapshotting);
    } else if s.waker.items == [] {
      step, s' := Waking([]), s.(waker := Reading);
    } else {
      var first := s.waker.items[0];
      step, s' := Waking([]), s.(waker := Posting(s.waker.items[1..]), calls := s.calls + [Call(first.loop, Queued(first.id))]);
    }
  }

  lemma CallMoves(s: State, c: nat) returns (step: Step, s': State)
    requires c < |s.calls| && !s.calls[c].stage.Ended?
    ensures step == Calling(c) && CallStep(s, s', c)
  {
    step := Calling(c);
    var loop := s.calls[c].loop;
    match s.calls[c].stage {
      case Queued(id) =>
        s' := s.(calls := s.calls[c := Call(loop, if id in s.pending && s.pending[id] !in s.done then Found(s.pending[id]) else Ended)]);
      case Found(future) =>
        s' := s.(calls := s.calls[c := Call(loop, if future.id in s.terminal then Terminal(future) else Ended)]);
      case Terminal(future) =>
        s' := s.(calls := s.calls[c := Call(loop, Popped(future))],
                 pending := if future.id in s.pending && s.pending[future.id] == future then s.pending - {future.id} else s.pending);
      case Popped(future) =>
        s' := s.(calls := s.calls[c := Call(loop, Ended)], done := s.done + {future},
                 foreign := if future !in s.done && loop != future.loop then s.foreign + {future} else s.foreign);
    }
  }

  lemma ListOf(pending: map<nat, Future>) returns (items: seq<Future>)
    ensures Lists(pending, items)
    decreases |pending|
  {
    if pending == map[] {
      items := [];
    } else {
      var id :| id in pending;
      var rest := ListOf(pending - {id});
      assert pending.Keys == (pending - {id}).Keys + {id};
      assert |pending| == |pending.Keys| && |pending - {id}| == |(pending - {id}).Keys|;
      items := [pending[id]] + rest;
      forall k | k in pending ensures pending[k] in items {
        if k != id {
          assert k in pending - {id} && (pending - {id})[k] in rest;
        }
      }
      forall f | f in items ensures f in pending.Values {
        if f in rest {
          var k :| k in pending - {id} && (pending - {id})[k] == f;
          assert pending[k] == f;
        }
      }
    }
  }

  function CallWork(call: Call): nat {
    match call.stage
    case Queued(_) => 4
    case Found(_) => 3
    case Terminal(_) => 2
    case Popped(_) => 1
    case Ended => 0
  }

  function WakerWork(w: WakerPc, pending: nat): nat {
    match w
    case Reading => 0
    case Snapshotting => 2 + 5 * pending
    case Posting(items) => 1 + 5 * |items|
  }

  function PipeWork(pipe: nat, pending: nat): nat {
    pipe * (3 + 5 * pending)
  }

  /** Bounds the waker and callback steps that can follow without a new notification. */
  function Work(s: State): nat {
    PipeWork(s.pipe, |s.pending|) + WakerWork(s.waker, |s.pending|) + Sum(CallWork, s.calls)
  }

  lemma PipeWorkDrops(pipe: nat, less: nat, pending: nat)
    requires less < pipe
    ensures PipeWork(less, pending) + 3 + 5 * pending <= PipeWork(pipe, pending)
  {
    assert (less + 1) * (3 + 5 * pending) <= pipe * (3 + 5 * pending);
  }

  lemma PipeWorkShrinks(pipe: nat, pending: nat, fewer: nat)
    requires fewer <= pending
    ensures PipeWork(pipe, fewer) <= PipeWork(pipe, pending)
  {
  }

  lemma WakerStepWorks(s: State, s': State, items: seq<Future>)
    requires WakerStep(s, s', items)
    ensures Work(s') < Work(s)
  {
    if s.waker.Reading? {
      PipeWorkDrops(s.pipe, s'.pipe, |s.pending|);
    } else if s.waker.Posting? && s.waker.items != [] {
      SumAppend(CallWork, s.calls, Call(s.waker.items[0].loop, Queued(s.waker.items[0].id)));
    }
  }

  lemma CallStepPending(s: State, s': State, c: nat)
    requires CallStep(s, s', c)
    ensures |s'.pending| <= |s.pending| && s'.pipe == s.pipe && s'.waker == s.waker
  {
    if s'.pending != s.pending {
      var id := s.calls[c].stage.future.id;
      assert s.pending.Keys == s'.pending.Keys + {id};
      assert |s.pending| == |s.pending.Keys| && |s'.pending| == |s'.pending.Keys|;
    }
  }

  lemma CallStepCounts(s: State, s': State, c: nat)
    requires CallStep(s, s', c)
    ensures Sum(CallWork, s'.calls) < Sum(CallWork, s.calls)
  {
    SumUpdate(CallWork, s.calls, c, s'.calls[c]);
    assert s'.calls == s.calls[c := s'.calls[c]];
  }

  /** Every waker or callback step uses up work. */
  lemma InternalStepWorks(s: State, step: Step, s': State)
    requires Internal(step) && Does(s, step, s')
    ensures Work(s') < Work(s)
  {
    match step {
      case Waking(items) => WakerStepWorks(s, s', items);
      case Calling(c) =>
        CallStepPending(s, s', c);
        CallStepCounts(s, s', c);
        PipeWorkShrinks(s.pipe, |s.pending|, |s'.pending|);
    }
  }

  /** From state `n` on, only the waker thread and the callbacks have moved. */
  ghost predicate OnlyInternal(r: seq<State>, n: nat) {
    forall i {:trigger r[i]} | n <= i < |r| - 1 :: exists step :: Internal(step) && Does(r[i], step, r[i + 1])
  }

  /**
   * Left alone, the waker thread and the callbacks come to rest within `Work` steps, and when they do every
   * announced completion has reached its coroutine's future.
   */
  lemma {:induction false} WakeupsArrive(r: seq<State>, n: nat)
    requires Run(r) && n < |r| && OnlyInternal(r, n)
    ensures |r| - 1 - n <= Work(r[n])
    ensures |r| - 1 - n == Work(r[n]) ==> Quiet(r[|r| - 1])
    ensures Quiet(r[|r| - 1]) ==> NobodyOverdue(r[|r| - 1])
    decreases |r| - n
  {
    if n == |r| - 1 {
      if !Quiet(r[n]) && Work(r[n]) == 0 {
        var step, s' := NotQuietMoves(r[n]);
        InternalStepWorks(r[n], step, s');
      }
      if Quiet(r[n]) {
        forall id ensures !Overdue(r[n], id) {
          QuietMeansDelivered(r, n, id);
        }
      }
    } else {
      var step :| Internal(step) && Does(r[n], step, r[n + 1]);
      InternalStepWorks(r[n], step, r[n + 1]);
      WakeupsArrive(r, n + 1);
    }
  }

  // ---------------------------------------------------------------- which loop resolves a future

  function LoopOf(pc: Coroutine): nat {
    match pc
    case Entered(loop) => loop
    case Registered(loop) => loop
    case Checking(f) => f.loop
    case Awaiting(f) => f.loop
    case Leaving(f, _) => f.loop
  }

  /** Everything the machine has on task `id` belongs to loop `home`. */
  predicate AtHome(id: nat, home: nat, f: Future) {
    f.id == id ==> f.loop == home
  }

  predicate CallAtHome(id: nat, home: nat, call: Call) {
    match call.stage
    case Queued(k) => k == id ==> call.loop == home
    case Found(f) => AtHome(id, home, f) && (f.id == id ==> call.loop == home)
    case Terminal(f) => AtHome(id, home, f) && (f.id == id ==> call.loop == home)
    case Popped(f) => AtHome(id, home, f) && (f.id == id ==> call.loop == home)
    case Ended => true
  }

  ghost predicate HomeOk(s: State, id: nat, home: nat) {
    && (forall k | k in s.pending :: AtHome(id, home, s.pending[k]) && s.pending[k].id == k)
    && (s.waker.Posting? ==> forall i | 0 <= i < |s.waker.items| :: AtHome(id, home, s.waker.items[i]))
    && (forall c | 0 <= c < |s.calls| :: CallAtHome(id, home, s.calls[c]))
    && (forall f | f in s.foreign :: f.id != id)
  }

  predicate AwaitedOn(s: State, id: nat, home: nat) {
    id in s.coroutines ==> LoopOf(s.coroutines[id]) == home
  }

  lemma HomeWaker(s: State, s': State, items: seq<Future>, id: nat, home: nat)
    requires HomeOk(s, id, home) && WakerStep(s, s', items)
    ensures HomeOk(s', id, home)
  {
    if s.waker.Snapshotting? {
      forall i | 0 <= i < |items| ensures AtHome(id, home, items[i]) {
        assert items[i] in items;
        assert items[i] in s.pending.Values;
        var k :| k in s.pending && s.pending[k] == items[i];
      }
    }
  }

  lemma HomeCall(s: State, s': State, c: nat, id: nat, home: nat)
    requires HomeOk(s, id, home) && CallStep(s, s', c)
    ensures HomeOk(s', id, home)
  {
    assert CallAtHome(id, home, s.calls[c]);
    forall b | 0 <= b < |s'.calls| ensures CallAtHome(id, home, s'.calls[b]) {
      assert CallAtHome(id, home, s.calls[b]);
    }
  }

  lemma HomeStep(s: State, step: Step, s': State, id: nat, home: nat)
    requires HomeOk(s, id, home) && AwaitedOn(s, id, home) && Does(s, step, s')
    ensures HomeOk(s', id, home)
  {
    if step.Waking? {
      HomeWaker(s, s', step.items, id, home);
    } else if step.Calling? {
      HomeCall(s, s', step.c, id, home);
    }
  }

  /** A task awaited on one loop only is resolved by callbacks of that loop only, as asyncio demands. */
  lemma {:induction false} ResolvedAtHome(r: seq<State>, n: nat, id: nat, home: nat)
    requires Run(r) && n < |r| && forall m | 0 <= m <= n :: AwaitedOn(r[m], id, home)
    ensures HomeOk(r[n], id, home) && forall f | f in r[n].foreign :: f.id != id
  {
    if n > 0 {
      ResolvedAtHome(r, n - 1, id, home);
      assert StepAt(r, n - 1);
      var step :| Does(r[n - 1], step, r[n]);
      HomeStep(r[n - 1], step, r[n], id, home);
    }
  }

  ghost predicate Reachable(s: State) {
    exists r :: Run(r) && r[|r| - 1] == s
  }

  lemma Reach(s: State, step: Step, s': State)
    requires Reachable(s) && Does(s, step, s')
    ensures Reachable(s')
  {
    var r :| Run(r) && r[|r| - 1] == s;
    var r' := r + [s'];
    forall i | 0 <= i < |r'| - 1 ensures StepAt(r', i) {
      if i < |r| - 1 {
        assert StepAt(r, i);
      } else {
        assert Next(s, s');
      }
    }
    assert Run(r');
  }

  /** From before an await to its wait: the coroutine registers its future and finds the task unfinished. */
  lemma ReachAwaiting(s: State, id: nat, loop: nat) returns (s': State)
    requires Reachable(s) && id !in s.coroutines && id !in s.terminal
    ensures var f := Future(id, s.next, loop);
            s' == s.(registered := true, next := s.next + 1, pending := s.pending[id := f], coroutines := s.coroutines[id := Awaiting(f)])
    ensures Reachable(s')
  {
    var f := Future(id, s.next, loop);
    var a := s.(coroutines := s.coroutines[id := Entered(loop)]);
    Reach(s, Entering(id, loop), a);
    var b := a.(registered := true, coroutines := a.coroutines[id := Registered(loop)]);
    Reach(a, Continuing(id), b);
    var c := b.(next := b.next + 1, pending := b.pending[id := f], coroutines := b.coroutines[id := Checking(f)]);
    Reach(b, Continuing(id), c);
    s' := c.(coroutines := c.coroutines[id := Awaiting(f)]);
    Reach(c, Continuing(id), s');
    assert s'.coroutines == s.coroutines[id := Awaiting(f)];
  }

  /** Another task's completion makes the waker post a callback for every pending future. */
  lemma ReachPosted(s: State, other: nat, f: Future) returns (s': State)
    requires Reachable(s) && s.registered && s.waker.Reading? && s.pipe == 0 && s.capacity > 0 && s.pending == map[f.id := f]
    ensures s' == s.(terminal := s.terminal + {other}, notified := s.notified + {other}, waker := Posting([]),
                     calls := s.calls + [Call(f.loop, Queued(f.id))])
    ensures Reachable(s')
  {
    var a := s.(terminal := s.terminal + {other});
    Reach(s, Finishing(other), a);
    var b := a.(notified := a.notified + {other}, pipe := 1);
    Reach(a, Notifying(other), b);
    var c := b.(pipe := 0, waker := Snapshotting);
    Reach(b, Waking([]), c);
    assert c.pending[f.id] == f && |c.pending| == 1;
    var d := c.(waker := Posting([f]));
    Reach(c, Waking([f]), d);
    s' := d.(waker := Posting([]), calls := d.calls + [Call(f.loop, Queued(f.id))]);
    assert [f][1..] == [];
    Reach(d, Waking([]), s');
  }

  /** The callback posted for an earlier future finds and resolves the later one. */
  lemma ReachResolved(s: State, loop: nat, f: Future) returns (s': State)
    requires Reachable(s) && s.calls == [Call(loop, Queued(f.id))] && s.pending == map[f.id := f] && f !in s.done
    ensures s'.done == s.done + {f} && s'.coroutines == s.coroutines
    ensures s'.foreign == if loop != f.loop then s.foreign + {f} else s.foreign
    ensures Reachable(s')
  {
    var a := s.(terminal := s.terminal + {f.id});
    Reach(s, Finishing(f.id), a);
    var b := a.(calls := [Call(loop, Found(f))]);
    assert b.calls == a.calls[0 := Call(loop, Found(f))];
    Reach(a, Calling(0), b);
    var c := b.(calls := [Call(loop, Terminal(f))]);
    assert c.calls == b.calls[0 := Call(loop, Terminal(f))];
    Reach(b, Calling(0), c);
    var d := c.(calls := [Call(loop, Popped(f))], pending := c.pending - {f.id});
    assert d.calls == c.calls[0 := Call(loop, Popped(f))];
    Reach(c, Calling(0), d);
    s' := d.(calls := [Call(loop, Ended)], done := d.done + {f}, foreign := if loop != f.loop then d.foreign + {f} else d.foreign);
    assert s'.calls == d.calls[0 := Call(loop, Ended)];
    Reach(d, Calling(0), s');
  }

  /**
   * For any task and any two loops there is a run in which the task is awaited on the first, given up, and
   * awaited on the second, and the callback posted for the first await resolves the second future from the
   * first loop: a foreign resolution exactly when the loops differ.
   */
  lemma ForeignResolution(capacity: nat, id: nat, first: nat, second: nat) returns (s: State)
    requires capacity > 0
    ensures Reachable(s) && id in s.coroutines && s.coroutines[id].Awaiting? && s.coroutines[id].future.loop == second
    ensures s.coroutines[id].future in s.done && (s.coroutines[id].future in s.foreign <==> first != second)
  {
    var start := State(capacity, 0, false, {}, {}, map[], map[], {}, 0, Reading, [], {});
    assert Run([start]);
    var f, g := Future(id, 0, first), Future(id, 1, second);
    var a := ReachAwaiting(start, id, first);
    var b := ReachPosted(a, id + 1, f);
    var c := b.(done := {f}, coroutines := b.coroutines[id := Leaving(f, true)]);
    Reach(b, GivingUp(id), c);
    var d := c.(coroutines := map[], pending := map[]);
    assert d.coroutines == c.coroutines - {id} && d.pending == c.pending - {id};
    Reach(c, Continuing(id), d);
    var e := ReachAwaiting(d, id, second);
    s := ReachResolved(e, first, g);
  }
}
