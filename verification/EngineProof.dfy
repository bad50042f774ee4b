/** Every step of the engine keeps its invariant. */
module EngineProof {
  import opened Sums
  import opened Engine
  import opened EngineInv

  lemma TaskSums(ts: seq<Task>, i: nat, t: Task)
    requires i < |ts|
    ensures Sum(CountedCompleted, ts[i := t]) == Sum(CountedCompleted, ts) - CountedCompleted(ts[i]) + CountedCompleted(t)
    ensures Sum(CountedFailed, ts[i := t]) == Sum(CountedFailed, ts) - CountedFailed(ts[i]) + CountedFailed(t)
    ensures Sum(CountedCancelled, ts[i := t]) == Sum(CountedCancelled, ts) - CountedCancelled(ts[i]) + CountedCancelled(t)
    ensures Sum(IsSent, ts[i := t]) == Sum(IsSent, ts) - IsSent(ts[i]) + IsSent(t)
    ensures Sum(SlabCounted, ts[i := t]) == Sum(SlabCounted, ts) - SlabCounted(ts[i]) + SlabCounted(t)
  {
    SumUpdate(CountedCompleted, ts, i, t);
    SumUpdate(CountedFailed, ts, i, t);
    SumUpdate(CountedCancelled, ts, i, t);
    SumUpdate(IsSent, ts, i, t);
    SumUpdate(SlabCounted, ts, i, t);
  }

  lemma WorkerSums(ws: seq<Worker>, w: nat, x: Worker)
    requires w < |ws|
    ensures Sum(InHand, ws[w := x]) == Sum(InHand, ws) - InHand(ws[w]) + InHand(x)
    ensures Sum(InRunning, ws[w := x]) == Sum(InRunning, ws) - InRunning(ws[w]) + InRunning(x)
    ensures Sum(WorkerDebt, ws[w := x]) == Sum(WorkerDebt, ws) - WorkerDebt(ws[w]) + WorkerDebt(x)
    ensures Sum(ExitedIn, ws[w := x]) == Sum(ExitedIn, ws) - ExitedIn(ws[w]) + ExitedIn(x)
    ensures Sum(ExitedIso, ws[w := x]) == Sum(ExitedIso, ws) - ExitedIso(ws[w]) + ExitedIso(x)
    ensures Sum(InProcess, ws[w := x]) == Sum(InProcess, ws) - InProcess(ws[w]) + InProcess(x)
    ensures Sum(Coordinator, ws[w := x]) == Sum(Coordinator, ws) - Coordinator(ws[w]) + Coordinator(x)
  {
    SumUpdate(InHand, ws, w, x);
    SumUpdate(InRunning, ws, w, x);
    SumUpdate(WorkerDebt, ws, w, x);
    SumUpdate(ExitedIn, ws, w, x);
    SumUpdate(ExitedIso, ws, w, x);
    SumUpdate(InProcess, ws, w, x);
    SumUpdate(Coordinator, ws, w, x);
  }

  lemma CallerSums(cs: seq<CallerPc>, a: nat, pc: CallerPc)
    requires a < |cs|
    ensures Sum(HeldPermits, cs[a := pc]) == Sum(HeldPermits, cs) - HeldPermits(cs[a]) + HeldPermits(pc)
    ensures Sum(SentUncounted, cs[a := pc]) == Sum(SentUncounted, cs) - SentUncounted(cs[a]) + SentUncounted(pc)
    ensures Sum(CallerDebt, cs[a := pc]) == Sum(CallerDebt, cs) - CallerDebt(cs[a]) + CallerDebt(pc)
  {
    SumUpdate(HeldPermits, cs, a, pc);
    SumUpdate(SentUncounted, cs, a, pc);
    SumUpdate(CallerDebt, cs, a, pc);
  }

  // ---------------------------------------------------------------- a worker holding a task

  /** The parts of the state a worker's step on a task leaves alone. */
  predicate HoldFrame(s: State, s': State, w: nat, i: nat) {
    && i < |s.tasks| == |s'.tasks| && w < |s.workers| == |s'.workers|
    && s'.tasks == s.tasks[i := s'.tasks[i]]
    && s'.workers == s.workers[w := s'.workers[w]] && s'.workers[w].isolated == s.workers[w].isolated
    && s'.callers == s.callers && s'.inQueue == s.inQueue && s'.isoQueue == s.isoQueue
    && s'.cancelPending == s.cancelPending && s'.shutdownStarted == s.shutdownStarted && s'.adm.closed == s.adm.closed
    && s'.stopper == s.stopper && s'.spawner == s.spawner && s'.adm.capacity == s.adm.capacity
    && ((s'.adm.epoch == s.adm.epoch && s'.adm.available == s.adm.available) || s'.adm.epoch > s.adm.epoch)
  }

  /** What the worker's step does to the task and to its own view. */
  predicate HoldEffect(s: State, s': State, w: nat, i: nat)
    requires HoldFrame(s, s', w, i)
  {
    var t, t', pc' := s.tasks[i], s'.tasks[i], s'.workers[w].pc;
    && t.owner == Held(w) && t.life.isolated == s.workers[w].isolated
    && TaskOk(t') && (t'.life.late ==> s.cancelPending) && t'.life.isolated == t.life.isolated
    && t'.slot.counted && !pc'.Exited? && t'.life.tally == TallyAfter(s.workers[w].pc, t.life)
    && (t'.life.winner == t.life.winner || t'.life.winner.Shutdown?)
    && if Holds(pc') then pc'.id == i && t'.owner == t.owner && WorkerView(pc', t'.life) else t'.owner.Finished?
  }

  /** A queue that did not change stays in order if its tasks stay queued and nobody leaves the pool. */
  lemma QueueKept(s: State, s': State, iso: bool)
    requires QueueOk(s, iso) && Queue(s', iso) == Queue(s, iso) && s'.stopper == s.stopper && |s.tasks| <= |s'.tasks|
    requires forall i | 0 <= i < |s.tasks| && s.tasks[i].owner.Queued? ::
               s'.tasks[i].owner.Queued? && s'.tasks[i].life.isolated == s.tasks[i].life.isolated
    requires forall w | 0 <= w < |s'.workers| && s'.workers[w].isolated == iso && s'.workers[w].pc.Exited? ::
               w < |s.workers| && s.workers[w].isolated == iso && s.workers[w].pc.Exited?
    ensures QueueOk(s', iso)
  {
    var q := Queue(s, iso);
    forall x | 0 <= x < |q| && q[x].Id?
      ensures q[x].id < |s'.tasks| && s'.tasks[q[x].id].owner.Queued? && s'.tasks[q[x].id].life.isolated == iso
    {
      assert s.tasks[q[x].id].owner.Queued?;
    }
  }

  /** Workers that keep their pool and do not come back keep the bookkeeping of the threads. */
  lemma StopThreadsKept(s: State, s': State)
    requires StopThreads(s) && s'.stopper == s.stopper && |s'.workers| == |s.workers|
    requires forall v | 0 <= v < |s.workers| ::
               s'.workers[v].isolated == s.workers[v].isolated && (s.workers[v].pc.Exited? ==> s'.workers[v].pc.Exited?)
    ensures StopThreads(s')
  {
    var v :| 0 <= v < |s.workers| && !s.workers[v].isolated;
    assert !s'.workers[v].isolated;
    var u :| 0 <= u < |s.workers| && s.workers[u].isolated;
    assert s'.workers[u].isolated;
  }

  predicate HoldReady(s: State, w: nat) {
    && w < |s.workers| && Holds(s.workers[w].pc) && WorkerOk(s, w)
    && TaskOk(s.tasks[s.workers[w].pc.id]) && Linked(s, s.workers[w].pc.id)
  }

  lemma HoldKeepsFrame(s: State, s': State, w: nat)
    requires w < |s.workers| && Holds(s.workers[w].pc) && WorkerHoldStep(s, s', w)
    ensures HoldFrame(s, s', w, s.workers[w].pc.id)
  {
  }

  lemma HoldLocal(s: State, s': State, w: nat)
    requires HoldReady(s, w) && WorkerHoldStep(s, s', w) && HoldFrame(s, s', w, s.workers[w].pc.id)
    ensures HoldEffect(s, s', w, s.workers[w].pc.id)
  {
    var pc := s.workers[w].pc;
    WorkerKeepsTask(w, s.cancelPending, pc, s.tasks[pc.id], s'.workers[w].pc, s'.tasks[pc.id]);
  }

  lemma HoldThreads(s: State, s': State, w: nat, i: nat)
    requires TasksOk(s) && LinksOk(s) && WorkersOk(s)
    requires HoldFrame(s, s', w, i) && HoldEffect(s, s', w, i)
    ensures TasksOk(s') && LinksOk(s') && WorkersOk(s')
  {
    assert Linked(s, i);
    forall j | 0 <= j < |s'.tasks| ensures TaskOk(s'.tasks[j]) && Linked(s', j) {
      assert TaskOk(s.tasks[j]) && Linked(s, j);
    }
    forall v | 0 <= v < |s'.workers| ensures WorkerOk(s', v) {
      assert WorkerOk(s, v);
    }
  }

  lemma HoldViews(s: State, s': State, w: nat, a: nat)
    requires HoldReady(s, w) && WorkerHoldStep(s, s', w) && HoldFrame(s, s', w, s.workers[w].pc.id)
    requires a < |s.callers| && CallerOk(s, a) && Targets(s.callers[a])
    ensures CallerView(a, s.callers[a], s'.tasks[s.callers[a].id])
  {
    var pc := s.workers[w].pc;
    var i := pc.id;
    if s.callers[a].id == i {
      WorkerKeepsCaller(a, s.callers[a], w, s.cancelPending, pc, s.tasks[i], s'.workers[w].pc, s'.tasks[i]);
    }
  }

  lemma HoldCallers(s: State, s': State, w: nat, i: nat)
    requires CallersOk(s) && HoldFrame(s, s', w, i) && s.tasks[i].owner == Held(w)
    requires forall a {:trigger CallerOk(s, a)} | 0 <= a < |s.callers| && Targets(s.callers[a]) ::
               s.callers[a].id < |s.tasks| && CallerView(a, s.callers[a], s'.tasks[s.callers[a].id])
    ensures CallersOk(s')
  {
    forall a | 0 <= a < |s'.callers| ensures CallerOk(s', a) {
      assert CallerOk(s, a);
    }
  }

  lemma HoldQueues(s: State, s': State, w: nat, i: nat)
    requires QueueOk(s, false) && QueueOk(s, true) && GateOk(s)
    requires HoldFrame(s, s', w, i) && s.tasks[i].owner == Held(w)
    requires !s'.workers[w].pc.Exited?
    ensures QueueOk(s', false) && QueueOk(s', true) && GateOk(s')
  {
    HoldQueue(s, s', w, i, false);
    HoldQueue(s, s', w, i, true);
  }

  lemma HoldQueue(s: State, s': State, w: nat, i: nat, iso: bool)
    requires QueueOk(s, iso) && HoldFrame(s, s', w, i) && s.tasks[i].owner == Held(w) && !s'.workers[w].pc.Exited?
    ensures QueueOk(s', iso)
  {
    QueueKept(s, s', iso);
  }

  lemma HoldStops(s: State, s': State, w: nat, i: nat)
    requires StopsOk(s) && HoldFrame(s, s', w, i)
    requires !s.workers[w].pc.Exited? && !s'.workers[w].pc.Exited?
    ensures StopsOk(s')
  {
    WorkerSums(s.workers, w, s'.workers[w]);
    StopThreadsKept(s, s');
  }

  lemma HoldSlot(flag: bool, pc: WorkerPc, t: Task, pc': WorkerPc, t': Task)
    requires Holds(pc) && WorkerTaskStep(flag, pc, t, pc', t') && t.slot.counted
    ensures SlabCounted(t) == SlabCounted(t') + if pc'.CountDown? then 1 else 0
  {
  }

  lemma HoldWorkerWeights(flag: bool, w: Worker, t: Task, pc': WorkerPc, t': Task)
    requires Holds(w.pc) && WorkerTaskStep(flag, w.pc, t, pc', t') && LifeOk(t.life) && WorkerView(w.pc, t.life)
    ensures InHand(w.(pc := pc')) == 0
    ensures InRunning(w.(pc := pc')) - InRunning(w) == if w.pc.Started? then 1 else if w.pc.LeaveRunning? then -1 else 0
  {
  }

  lemma HoldPermits(s: State, s': State, w: nat)
    requires HoldReady(s, w) && WorkerHoldStep(s, s', w) && Permits(s)
    ensures Permits(s')
  {
    var pc := s.workers[w].pc;
    HoldWorkerWeights(s.cancelPending, s.workers[w], s.tasks[pc.id], s'.workers[w].pc, s'.tasks[pc.id]);
    SumUpdate(InHand, s.workers, w, s'.workers[w]);
    SumAtLeast(InHand, s.workers, w);
  }

  lemma HoldTallies(s: State, s': State, w: nat, i: nat)
    requires Tallies(s) && HoldReady(s, w) && s.workers[w].pc.id == i
    requires HoldFrame(s, s', w, i) && HoldEffect(s, s', w, i)
    requires s'.counts == WorkerCounters(s.counts, s.workers[w].pc, s.tasks[i].life.status)
    ensures Tallies(s')
  {
    assert TallyMove(s.counts, s'.counts, s.tasks[i], s'.tasks[i]);
    MoveTallies(s, s', i);
  }

  /** The outcome counters move with the task. */
  predicate TallyMove(c: Counters, c': Counters, t: Task, t': Task) {
    && c'.completed - c.completed == CountedCompleted(t') - CountedCompleted(t)
    && c'.failed - c.failed == CountedFailed(t') - CountedFailed(t)
    && c'.cancelled - c.cancelled == CountedCancelled(t') - CountedCancelled(t)
    && c'.submitted == c.submitted && IsSent(t') == IsSent(t)
  }

  lemma MoveTallies(s: State, s': State, i: nat)
    requires i < |s.tasks| == |s'.tasks| && s'.tasks == s.tasks[i := s'.tasks[i]] && s'.callers == s.callers
    requires Tallies(s) && TallyMove(s.counts, s'.counts, s.tasks[i], s'.tasks[i])
    ensures Tallies(s')
  {
    TaskSums(s.tasks, i, s'.tasks[i]);
  }

  /** The size counters move with the worker and the task. */
  predicate SizeMove(c: Counters, c': Counters, w: Worker, w': Worker, t: Task, t': Task) {
    && c'.running - c.running == InRunning(w') - InRunning(w)
    && c'.taskCount - c.taskCount == SlabCounted(t') - SlabCounted(t) + WorkerDebt(w') - WorkerDebt(w)
  }

  lemma HoldSizeMove(s: State, s': State, w: nat)
    requires HoldReady(s, w) && WorkerHoldStep(s, s', w)
    ensures var i := s.workers[w].pc.id; SizeMove(s.counts, s'.counts, s.workers[w], s'.workers[w], s.tasks[i], s'.tasks[i])
  {
    var pc := s.workers[w].pc;
    HoldSlot(s.cancelPending, pc, s.tasks[pc.id], s'.workers[w].pc, s'.tasks[pc.id]);
    HoldWorkerWeights(s.cancelPending, s.workers[w], s.tasks[pc.id], s'.workers[w].pc, s'.tasks[pc.id]);
  }

  lemma HoldSizes(s: State, s': State, w: nat, i: nat)
    requires HoldFrame(s, s', w, i) && Sizes(s)
    requires SizeMove(s.counts, s'.counts, s.workers[w], s'.workers[w], s.tasks[i], s'.tasks[i])
    ensures Sizes(s')
  {
    SumUpdate(SlabCounted, s.tasks, i, s'.tasks[i]);
    SumUpdate(InRunning, s.workers, w, s'.workers[w]);
    SumUpdate(WorkerDebt, s.workers, w, s'.workers[w]);
  }

  lemma HoldKeepsThreads(s: State, s': State, w: nat)
    requires Inv(s) && HoldReady(s, w) && WorkerHoldStep(s, s', w)
    requires HoldFrame(s, s', w, s.workers[w].pc.id) && HoldEffect(s, s', w, s.workers[w].pc.id)
    ensures TasksOk(s') && LinksOk(s') && WorkersOk(s') && CallersOk(s')
  {
    HoldThreads(s, s', w, s.workers[w].pc.id);
    forall a | 0 <= a < |s.callers| && Targets(s.callers[a])
      ensures s.callers[a].id < |s.tasks| && CallerView(a, s.callers[a], s'.tasks[s.callers[a].id])
    {
      assert CallerOk(s, a);
      HoldViews(s, s', w, a);
    }
    HoldCallers(s, s', w, s.workers[w].pc.id);
  }

  lemma HoldInv(s: State, s': State, w: nat)
    requires Inv(s) && w < |s.workers| && Holds(s.workers[w].pc) && WorkerHoldStep(s, s', w)
    ensures Inv(s')
  {
    var i := s.workers[w].pc.id;
    assert WorkerOk(s, w);
    assert TaskOk(s.tasks[i]) && Linked(s, i);
    HoldKeepsFrame(s, s', w);
    HoldLocal(s, s', w);
    HoldKeepsThreads(s, s', w);
    HoldQueues(s, s', w, i);
    HoldStops(s, s', w, i);
    HoldPermits(s, s', w);
    HoldTallies(s, s', w, i);
    HoldSizeMove(s, s', w);
    HoldSizes(s, s', w, i);
  }

  // ---------------------------------------------------------------- a canceller or closer

  predicate TargetFrame(s: State, s': State, a: nat, i: nat) {
    && i < |s.tasks| == |s'.tasks| && a < |s.callers| == |s'.callers|
    && s'.tasks == s.tasks[i := s'.tasks[i]] && s'.callers == s.callers[a := s'.callers[a]]
    && s' == s.(tasks := s'.tasks, callers := s'.callers, counts := s'.counts)
  }

  predicate TargetReady(s: State, a: nat) {
    && a < |s.callers| && Targets(s.callers[a]) && CallerOk(s, a)
    && TaskOk(s.tasks[s.callers[a].id]) && Linked(s, s.callers[a].id)
  }

  lemma TargetTasks(s: State, s': State, a: nat, i: nat)
    requires TasksOk(s) && TargetFrame(s, s', a, i) && TaskOk(s'.tasks[i])
    ensures TasksOk(s')
  {
    forall j | 0 <= j < |s'.tasks| ensures TaskOk(s'.tasks[j]) {
      assert TaskOk(s.tasks[j]);
    }
  }

  lemma TargetLinks(s: State, s': State, a: nat, i: nat)
    requires LinksOk(s) && TargetFrame(s, s', a, i)
    requires Targets(s.callers[a]) && s.callers[a].id == i && CallerMoved(a, s.callers[a], s.tasks[i], s'.callers[a], s'.tasks[i])
    ensures LinksOk(s')
  {
    TargetLink(s, s', a, i);
    forall j | 0 <= j < |s'.tasks| ensures Linked(s', j) {
      assert Linked(s, j);
    }
  }

  lemma TargetLink(s: State, s': State, a: nat, i: nat)
    requires LinksOk(s) && TargetFrame(s, s', a, i)
    requires Targets(s.callers[a]) && s.callers[a].id == i && CallerMoved(a, s.callers[a], s.tasks[i], s'.callers[a], s'.tasks[i])
    ensures Linked(s', i)
  {
    assert Linked(s, i);
  }

  lemma TargetWorkers(s: State, s': State, a: nat, i: nat)
    requires WorkersOk(s) && TargetFrame(s, s', a, i)
    requires s'.tasks[i].owner == s.tasks[i].owner && s'.tasks[i].life.isolated == s.tasks[i].life.isolated
    requires forall v {:trigger WorkerOk(s, v)} | 0 <= v < |s.workers| && Holds(s.workers[v].pc) && s.workers[v].pc.id == i ::
               WorkerView(s.workers[v].pc, s'.tasks[i].life)
    ensures WorkersOk(s')
  {
    forall v | 0 <= v < |s'.workers| ensures WorkerOk(s', v) {
      assert WorkerOk(s, v);
    }
  }

  lemma TargetCallers(s: State, s': State, a: nat, i: nat)
    requires CallersOk(s) && TargetFrame(s, s', a, i) && Sent(s.tasks[i].owner)
    requires Targets(s.callers[a]) && s.callers[a].id == i && CallerMoved(a, s.callers[a], s.tasks[i], s'.callers[a], s'.tasks[i])
    requires forall b {:trigger CallerOk(s, b)} | 0 <= b < |s.callers| && b != a && Targets(s.callers[b]) && s.callers[b].id == i ::
               CallerView(b, s.callers[b], s'.tasks[i])
    ensures CallersOk(s')
  {
    forall b | 0 <= b < |s'.callers| ensures CallerOk(s', b) {
      assert CallerOk(s, b);
    }
  }

  lemma TargetQueues(s: State, s': State, a: nat, i: nat)
    requires QueueOk(s, false) && QueueOk(s, true) && TargetFrame(s, s', a, i)
    requires s'.tasks[i].owner == s.tasks[i].owner && s'.tasks[i].life.isolated == s.tasks[i].life.isolated
    ensures QueueOk(s', false) && QueueOk(s', true)
  {
    QueueKept(s, s', false);
    QueueKept(s, s', true);
  }

  lemma TargetGate(s: State, s': State, a: nat, i: nat)
    requires GateOk(s) && StopsOk(s) && TargetFrame(s, s', a, i)
    requires Targets(s'.callers[a]) || s'.callers[a].Idle? || s'.callers[a].KCountDown?
    ensures GateOk(s') && StopsOk(s')
  {
  }

  lemma TargetSlot(a: nat, pc: CallerPc, t: Task, pc': CallerPc, t': Task)
    requires Targets(pc) && CallerTaskStep(a, pc, t, pc', t') && t.slot.counted
    ensures SlabCounted(t) == SlabCounted(t') + if pc'.KCountDown? then 1 else 0
  {
  }

  lemma TargetNumbers(s: State, s': State, a: nat)
    requires a < |s.callers| && Targets(s.callers[a]) && TargetStep(s, s', a)
    ensures TargetFrame(s, s', a, s.callers[a].id)
    ensures s'.counts == s.counts.(cancelled := s.counts.cancelled + if s.callers[a].CCount? then 1 else 0)
  {
  }

  lemma TargetCounts(s: State, s': State, a: nat, i: nat)
    requires TargetFrame(s, s', a, i) && Targets(s.callers[a]) && Sizes(s)
    requires var pc, pc', t, t' := s.callers[a], s'.callers[a], s.tasks[i], s'.tasks[i];
      && (Targets(pc') || pc'.Idle? || pc'.KCountDown?)
      && s'.counts == s.counts.(cancelled := s'.counts.cancelled)
      && SlabCounted(t) == SlabCounted(t') + if pc'.KCountDown? then 1 else 0
    ensures Sizes(s')
  {
    TaskSums(s.tasks, i, s'.tasks[i]);
    CallerSums(s.callers, a, s'.callers[a]);
  }

  lemma TargetPermits(s: State, s': State, a: nat, i: nat)
    requires TargetFrame(s, s', a, i) && Targets(s.callers[a]) && Permits(s)
    requires Targets(s'.callers[a]) || s'.callers[a].Idle? || s'.callers[a].KCountDown?
    ensures Permits(s')
  {
    CallerSums(s.callers, a, s'.callers[a]);
  }

  lemma TargetTallies(s: State, s': State, a: nat, i: nat)
    requires TargetFrame(s, s', a, i) && Targets(s.callers[a]) && Tallies(s)
    requires Sent(s.tasks[i].owner) && s'.tasks[i].owner == s.tasks[i].owner
    requires var pc, pc', t, t' := s.callers[a], s'.callers[a], s.tasks[i], s'.tasks[i];
      && (Targets(pc') || pc'.Idle? || pc'.KCountDown?)
      && s'.counts == s.counts.(cancelled := s.counts.cancelled + if pc.CCount? then 1 else 0)
      && t'.life.tally == (if pc.CCount? then AsCancelled else t.life.tally)
      && (pc.CCount? ==> t.life.tally.Untallied?)
    ensures Tallies(s')
  {
    TaskSums(s.tasks, i, s'.tasks[i]);
    CallerSums(s.callers, a, s'.callers[a]);
  }

  lemma TargetKeepsThreads(s: State, s': State, a: nat)
    requires Inv(s) && TargetReady(s, a) && TargetFrame(s, s', a, s.callers[a].id)
    requires CallerMove(a, s.callers[a], s.tasks[s.callers[a].id], s'.callers[a], s'.tasks[s.callers[a].id])
    requires CallerMoved(a, s.callers[a], s.tasks[s.callers[a].id], s'.callers[a], s'.tasks[s.callers[a].id])
    ensures TasksOk(s') && LinksOk(s') && WorkersOk(s') && CallersOk(s')
  {
    var pc := s.callers[a];
    var i := pc.id;
    var t, t' := s.tasks[i], s'.tasks[i];
    forall v | 0 <= v < |s.workers| && Holds(s.workers[v].pc) && s.workers[v].pc.id == i
      ensures WorkerView(s.workers[v].pc, t'.life)
    {
      assert WorkerOk(s, v);
      CallerKeepsWorker(s.workers[v].pc, a, pc, t, s'.callers[a], t');
    }
    forall b | 0 <= b < |s.callers| && b != a && Targets(s.callers[b]) && s.callers[b].id == i
      ensures CallerView(b, s.callers[b], t')
    {
      assert CallerOk(s, b);
      CallerKeepsCaller(b, s.callers[b], a, pc, t, s'.callers[a], t');
    }
    TargetTasks(s, s', a, i);
    TargetLinks(s, s', a, i);
    TargetWorkers(s, s', a, i);
    TargetCallers(s, s', a, i);
  }

  lemma TargetInv(s: State, s': State, a: nat)
    requires Inv(s) && a < |s.callers| && Targets(s.callers[a]) && TargetStep(s, s', a)
    ensures Inv(s')
  {
    var pc := s.callers[a];
    var i := pc.id;
    assert CallerOk(s, a);
    assert TaskOk(s.tasks[i]) && Linked(s, i);
    TargetNumbers(s, s', a);
    CallerKeepsTask(a, pc, s.tasks[i], s'.callers[a], s'.tasks[i]);
    TargetSlot(a, pc, s.tasks[i], s'.callers[a], s'.tasks[i]);
    TargetKeepsThreads(s, s', a);
    TargetQueues(s, s', a, i);
    TargetGate(s, s', a, i);
    TargetCounts(s, s', a, i);
    TargetPermits(s, s', a, i);
    TargetTallies(s, s', a, i);
  }
}
