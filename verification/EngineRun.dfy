/** Workers between tasks, the shutdown thread, and the invariant over every run. */
module EngineRun {
  import opened Sums
  import opened Engine
  import opened EngineInv
  import opened EngineProof
  import opened EngineSubmit

  // ---------------------------------------------------------------- beginning a call, shutting down

  lemma BeginQuiet(s: State, s': State, a: nat)
    requires a < |s.callers| && s.callers[a].Idle? && BeginStep(s, s', a)
    ensures Quiet(s, s', a)
  {
  }

  lemma ClosingQuiet(s: State, s': State, a: nat)
    requires a < |s.callers| && (s.callers[a].DFlag? || s.callers[a].DClose?) && ShutdownStep(s, s', a)
    ensures Quiet(s, s', a)
  {
  }

  lemma ShutdownQuiet(s: State, s': State, a: nat)
    requires a < |s.callers| && CallerOk(s, a) && ShutdownStep(s, s', a) && !s.callers[a].DSwap? && !s.callers[a].DSpawn?
    ensures Quiet(s, s', a)
  {
    if s.callers[a].DFlag? || s.callers[a].DClose? {
      ClosingQuiet(s, s', a);
    } else if s.callers[a].DGate? {
      GateQuiet(s, s', a);
    } else if s.callers[a].DUnlock? {
      UnlockQuiet(s, s', a);
    }
  }

  lemma UnlockQuiet(s: State, s': State, a: nat)
    requires a < |s.callers| && CallerOk(s, a) && s.callers[a].DUnlock? && ShutdownStep(s, s', a)
    ensures Quiet(s, s', a)
  {
  }

  lemma GateQuiet(s: State, s': State, a: nat)
    requires a < |s.callers| && s.callers[a].DGate? && ShutdownStep(s, s', a)
    ensures Quiet(s, s', a)
  {
    assert QuietFrame(s, s', a);
  }

  /** The swap is made with the gate held for writing: no submitter is behind it. */
  lemma SwapInv(s: State, s': State, a: nat)
    requires Inv(s) && a < |s.callers| && s.callers[a].DSwap? && ShutdownStep(s, s', a)
    ensures Inv(s')
  {
    assert CallerOk(s, a);
    SwapThreads(s, s', a);
    assert GateOk(s');
    assert QueueOk(s', false) && QueueOk(s', true) && StopsOk(s');
    OutsideCounts(s, s', a);
  }

  lemma SwapThreads(s: State, s': State, a: nat)
    requires TasksOk(s) && LinksOk(s) && WorkersOk(s) && CallersOk(s) && GateOk(s) && StopsOk(s)
    requires a < |s.callers| && s.callers[a].DSwap? && ShutdownStep(s, s', a)
    ensures TasksOk(s') && LinksOk(s') && WorkersOk(s') && CallersOk(s')
  {
    assert CallerOk(s, a);
    assert Writes(s.callers[a]);
    forall i | 0 <= i < |s'.tasks| ensures TaskOk(s'.tasks[i]) {
      assert TaskOk(s.tasks[i]);
    }
    forall i | 0 <= i < |s'.tasks| ensures Linked(s', i) {
      assert Linked(s, i);
    }
    forall w | 0 <= w < |s'.workers| ensures WorkerOk(s', w) {
      assert WorkerOk(s, w);
    }
    forall b | 0 <= b < |s'.callers| ensures CallerOk(s', b) {
      assert CallerOk(s, b);
      assert !Reads(s.callers[b]);
    }
  }

  lemma SpawnThreads(s: State, s': State, a: nat)
    requires TasksOk(s) && LinksOk(s) && WorkersOk(s) && CallersOk(s)
    requires a < |s.callers| && s.callers[a].DSpawn? && ShutdownStep(s, s', a)
    ensures TasksOk(s') && LinksOk(s') && WorkersOk(s') && CallersOk(s')
  {
    assert CallerOk(s, a);
    forall i | 0 <= i < |s'.tasks| ensures TaskOk(s'.tasks[i]) {
      assert TaskOk(s.tasks[i]);
    }
    forall i | 0 <= i < |s'.tasks| ensures Linked(s', i) {
      assert Linked(s, i);
    }
    forall w | 0 <= w < |s'.workers| ensures WorkerOk(s', w) {
      assert WorkerOk(s, w);
    }
    forall b | 0 <= b < |s'.callers| ensures CallerOk(s', b) {
      assert CallerOk(s, b);
    }
  }

  /** A shutdown caller holds no permit and owes nothing. */
  lemma OutsideCounts(s: State, s': State, a: nat)
    requires Permits(s) && Tallies(s) && Sizes(s)
    requires a < |s.callers| && (s.callers[a].DSpawn? || s.callers[a].DSwap?) && ShutdownStep(s, s', a)
    ensures Permits(s') && Tallies(s') && Sizes(s')
  {
    CallerSums(s.callers, a, s'.callers[a]);
  }

  lemma SpawnQueues(s: State, s': State, a: nat)
    requires QueueOk(s, false) && QueueOk(s, true) && GateOk(s) && StopsOk(s) && CallersOk(s)
    requires a < |s.callers| && s.callers[a].DSpawn? && ShutdownStep(s, s', a)
    ensures QueueOk(s', false) && QueueOk(s', true) && GateOk(s') && StopsOk(s')
  {
    assert CallerOk(s, a);
  }

  lemma SpawnInv(s: State, s': State, a: nat)
    requires Inv(s) && a < |s.callers| && s.callers[a].DSpawn? && ShutdownStep(s, s', a)
    ensures Inv(s')
  {
    SpawnThreads(s, s', a);
    SpawnQueues(s, s', a);
    OutsideCounts(s, s', a);
  }

  lemma CallerInv(s: State, s': State, a: nat)
    requires Inv(s) && a < |s.callers| && CallerStep(s, s', a)
    ensures Inv(s')
  {
    if Targets(s.callers[a]) {
      TargetedInv(s, s', a);
    } else {
      UntargetedInv(s, s', a);
    }
  }

  lemma TargetedInv(s: State, s': State, a: nat)
    requires Inv(s) && a < |s.callers| && Targets(s.callers[a]) && CallerStep(s, s', a)
    ensures Inv(s')
  {
    TargetInv(s, s', a);
  }

  lemma UntargetedInv(s: State, s': State, a: nat)
    requires Inv(s) && a < |s.callers| && CallerStep(s, s', a) && !Targets(s.callers[a])
    ensures Inv(s')
  {
    if Batching(s.callers[a]) {
      BatchInv(s, s', a);
    } else {
      OutsideInv(s, s', a);
    }
  }

  lemma OutsideInv(s: State, s': State, a: nat)
    requires Inv(s) && a < |s.callers| && CallerStep(s, s', a) && !Targets(s.callers[a]) && !Batching(s.callers[a])
    ensures Inv(s')
  {
    assert CallerOk(s, a);
    if s.callers[a].DSwap? {
      SwapInv(s, s', a);
    } else if s.callers[a].DSpawn? {
      SpawnInv(s, s', a);
    } else {
      CallerQuiet(s, s', a);
      QuietInv(s, s', a);
    }
  }

  lemma CallerQuiet(s: State, s': State, a: nat)
    requires Permits(s) && a < |s.callers| && CallerOk(s, a) && CallerStep(s, s', a)
    requires !Targets(s.callers[a]) && !Batching(s.callers[a]) && !s.callers[a].DSwap? && !s.callers[a].DSpawn?
    ensures Quiet(s, s', a)
  {
    var pc := s.callers[a];
    if pc.Idle? {
      BeginQuiet(s, s', a);
    } else if Reserving(pc) {
      ReservingQuiet(s, s', a);
    } else if Entering(pc) {
      EnteringQuiet(s, s', a);
    } else if Backing(pc) {
      BackingQuiet(s, s', a);
    } else if !pc.KCountDown? {
      ShutdownQuiet(s, s', a);
    }
  }

  // ---------------------------------------------------------------- workers between tasks

  predicate PopFrame(s: State, s': State, w: nat, i: nat) {
    && w < |s.workers| && s.workers[w].pc.Receiving? && i < |s.tasks|
    && var me := s.workers[w]; var q := Queue(s, me.isolated);
       && q != [] && q[0] == Id(i)
       && s' == WithQueue(s, me.isolated, q[1..]).(
                  tasks := s.tasks[i := s.tasks[i].(owner := Held(w))],
                  workers := s.workers[w := me.(pc := Popped(i))])
  }

  lemma PopTask(s: State, s': State, w: nat, i: nat)
    requires PopFrame(s, s', w, i) && QueueOk(s, s.workers[w].isolated) && TasksOk(s) && LinksOk(s)
    ensures s.tasks[i].owner.Queued? && s.tasks[i].life.isolated == s.workers[w].isolated && PreClaim(s.tasks[i].life)
    ensures TaskOk(s'.tasks[i]) && Linked(s', i)
  {
    assert TaskOk(s.tasks[i]) && Linked(s, i);
  }

  lemma PopLinks(s: State, s': State, w: nat, i: nat)
    requires PopFrame(s, s', w, i) && LinksOk(s) && Linked(s', i)
    ensures LinksOk(s')
  {
    forall j | 0 <= j < |s'.tasks| ensures Linked(s', j) {
      assert Linked(s, j);
      var q := Queue(s, s.workers[w].isolated);
      if j != i && Id(j) in q {
        var x :| 0 <= x < |q| && q[x] == Id(j);
        assert q[1..][x - 1] == Id(j);
      }
    }
  }

  lemma PopThreads(s: State, s': State, w: nat, i: nat)
    requires PopFrame(s, s', w, i) && TasksOk(s) && WorkersOk(s) && TaskOk(s'.tasks[i])
    requires s.tasks[i].owner.Queued? && s.tasks[i].life.isolated == s.workers[w].isolated && PreClaim(s.tasks[i].life)
    ensures TasksOk(s') && WorkersOk(s')
  {
    forall j | 0 <= j < |s'.tasks| ensures TaskOk(s'.tasks[j]) {
      assert TaskOk(s.tasks[j]);
    }
    forall v | 0 <= v < |s'.workers| ensures WorkerOk(s', v) {
      assert WorkerOk(s, v);
    }
  }

  lemma PopCallers(s: State, s': State, w: nat, i: nat)
    requires PopFrame(s, s', w, i) && CallersOk(s) && s.tasks[i].owner.Queued?
    ensures CallersOk(s')
  {
    forall a | 0 <= a < |s'.callers| ensures CallerOk(s', a) {
      assert CallerOk(s, a);
    }
  }

  lemma PopQueue(s: State, s': State, w: nat, i: nat, iso: bool)
    requires PopFrame(s, s', w, i) && QueueOk(s, iso) && s.tasks[i].life.isolated == s.workers[w].isolated
    ensures QueueOk(s', iso)
  {
    if iso == s.workers[w].isolated {
      var q := Queue(s, iso);
      assert Queue(s', iso) == q[1..];
      assert forall x | 0 <= x < |q[1..]| :: q[1..][x] == q[x + 1];
    }
  }

  lemma PopStops(s: State, s': State, w: nat, i: nat)
    requires PopFrame(s, s', w, i) && StopsOk(s)
    ensures StopsOk(s')
  {
    WorkerSums(s.workers, w, s'.workers[w]);
    StopThreadsKept(s, s');
  }

  lemma PopCounts(s: State, s': State, w: nat, i: nat)
    requires PopFrame(s, s', w, i) && Permits(s) && Tallies(s) && Sizes(s) && s.tasks[i].owner.Queued?
    ensures Permits(s') && Tallies(s') && Sizes(s')
  {
    WorkerSums(s.workers, w, s'.workers[w]);
    TaskSums(s.tasks, i, s'.tasks[i]);
  }

  lemma PopInv(s: State, s': State, w: nat, i: nat)
    requires PopFrame(s, s', w, i) && Inv(s)
    ensures Inv(s')
  {
    PopTask(s, s', w, i);
    PopThreads(s, s', w, i);
    PopCallers(s, s', w, i);
    PopLinks(s, s', w, i);
    PopQueue(s, s', w, i, false);
    PopQueue(s, s', w, i, true);
    PopStops(s, s', w, i);
    PopCounts(s, s', w, i);
  }

  /** Tasks and callers stay, and every task in hand or in a queue stays where it is. */
  predicate Unmoved(s: State, s': State) {
    && s'.tasks == s.tasks && s'.callers == s.callers && s'.adm == s.adm && s'.spawner == s.spawner
    && s'.shutdownStarted == s.shutdownStarted && s'.cancelPending == s.cancelPending
    && (s.stopper.NotSpawned? ==> s'.stopper.NotSpawned?)
    && (forall m | m in s.inQueue && m.Id? :: m in s'.inQueue)
    && (forall m | m in s.isoQueue && m.Id? :: m in s'.isoQueue)
    && |s'.workers| == |s.workers|
    && (forall v | 0 <= v < |s.workers| ::
          s'.workers[v] == s.workers[v] || (!Holds(s.workers[v].pc) && !Holds(s'.workers[v].pc)))
  }

  lemma UnmovedThreads(s: State, s': State)
    requires TasksOk(s) && LinksOk(s) && WorkersOk(s) && CallersOk(s) && Unmoved(s, s')
    ensures TasksOk(s') && LinksOk(s') && WorkersOk(s') && CallersOk(s')
  {
    forall j | 0 <= j < |s'.tasks| ensures TaskOk(s'.tasks[j]) {
      assert TaskOk(s.tasks[j]);
    }
    forall j | 0 <= j < |s'.tasks| ensures Linked(s', j) {
      assert Linked(s, j);
    }
    forall v | 0 <= v < |s'.workers| ensures WorkerOk(s', v) {
      assert WorkerOk(s, v);
    }
    forall a | 0 <= a < |s'.callers| ensures CallerOk(s', a) {
      assert CallerOk(s, a);
    }
  }

  /** The worker leaves the pool on a Stop. */
  predicate ExitFrame(s: State, s': State, w: nat) {
    && w < |s.workers| && s.workers[w].pc.Receiving?
    && var me := s.workers[w]; var q := Queue(s, me.isolated);
       && q != [] && q[0].Stop?
       && s' == WithQueue(s, me.isolated, q[1..]).(workers := s.workers[w := me.(pc := Exited)])
  }

  lemma ExitUnmoved(s: State, s': State, w: nat)
    requires ExitFrame(s, s', w)
    ensures Unmoved(s, s')
  {
    var q := Queue(s, s.workers[w].isolated);
    assert forall m | m in q && m.Id? :: m in q[1..];
  }

  lemma AllStops(q: seq<Message>)
    requires q != [] && q[0].Stop? && forall x, y | 0 <= x < y < |q| :: q[x].Stop? ==> q[y].Stop?
    ensures Sum(IsId, q) == 0 && Sum(IsId, q[1..]) == 0 && Sum(IsStop, q) == 1 + Sum(IsStop, q[1..])
  {
    SumZero(IsId, q);
    SumZero(IsId, q[1..]);
  }

  lemma ExitQueues(s: State, s': State, w: nat)
    requires ExitFrame(s, s', w) && QueueOk(s, false) && QueueOk(s, true) && GateOk(s)
    ensures QueueOk(s', false) && QueueOk(s', true) && GateOk(s')
  {
    ExitQueue(s, s', w);
    ExitOtherQueue(s, s', w);
  }

  lemma ExitQueue(s: State, s': State, w: nat)
    requires ExitFrame(s, s', w) && QueueOk(s, s.workers[w].isolated)
    ensures QueueOk(s', s.workers[w].isolated)
  {
    var q, q' := Queue(s, s.workers[w].isolated), Queue(s', s.workers[w].isolated);
    AllStops(q);
    assert q' == q[1..];
    assert forall x | 0 <= x < |q'| :: q'[x] == q[x + 1];
    assert !s.stopper.NotSpawned?;
  }

  lemma ExitOtherQueue(s: State, s': State, w: nat)
    requires ExitFrame(s, s', w) && QueueOk(s, !s.workers[w].isolated)
    ensures QueueOk(s', !s.workers[w].isolated)
  {
    QueueKept(s, s', !s.workers[w].isolated);
  }

  lemma ExitStops(s: State, s': State, w: nat)
    requires ExitFrame(s, s', w) && StopsOk(s)
    ensures StopsOk(s')
  {
    WorkerSums(s.workers, w, s'.workers[w]);
    StopThreadsKept(s, s');
  }

  lemma ExitCounts(s: State, s': State, w: nat)
    requires ExitFrame(s, s', w) && QueueOk(s, s.workers[w].isolated) && Permits(s) && Tallies(s) && Sizes(s)
    ensures Permits(s') && Tallies(s') && Sizes(s')
  {
    AllStops(Queue(s, s.workers[w].isolated));
    WorkerSums(s.workers, w, s'.workers[w]);
  }

  predicate CountDownFrame(s: State, s': State, w: nat) {
    && w < |s.workers| && s.workers[w].pc.CountDown?
    && s' == s.(counts := s.counts.(taskCount := s.counts.taskCount - 1),
                workers := s.workers[w := s.workers[w].(pc := Receiving)])
  }

  lemma CountDownQueues(s: State, s': State, w: nat)
    requires CountDownFrame(s, s', w) && QueueOk(s, false) && QueueOk(s, true) && GateOk(s)
    ensures QueueOk(s', false) && QueueOk(s', true) && GateOk(s')
  {
    QueueKept(s, s', false);
    QueueKept(s, s', true);
  }

  lemma CountDownStops(s: State, s': State, w: nat)
    requires CountDownFrame(s, s', w) && StopsOk(s)
    ensures StopsOk(s')
  {
    WorkerSums(s.workers, w, s'.workers[w]);
    StopThreadsKept(s, s');
  }

  lemma CountDownCounts(s: State, s': State, w: nat)
    requires CountDownFrame(s, s', w) && Permits(s) && Tallies(s) && Sizes(s)
    ensures Permits(s') && Tallies(s') && Sizes(s')
  {
    WorkerSums(s.workers, w, s'.workers[w]);
  }

  lemma WorkerInv(s: State, s': State, w: nat)
    requires Inv(s) && w < |s.workers| && WorkerStep(s, s', w)
    ensures Inv(s')
  {
    if Holds(s.workers[w].pc) {
      HoldInv(s, s', w);
    } else {
      FreeInv(s, s', w);
    }
  }

  lemma CountDownInv(s: State, s': State, w: nat)
    requires Inv(s) && CountDownFrame(s, s', w)
    ensures Inv(s')
  {
    UnmovedThreads(s, s');
    CountDownQueues(s, s', w);
    CountDownStops(s, s', w);
    CountDownCounts(s, s', w);
  }

  lemma FreeInv(s: State, s': State, w: nat)
    requires Inv(s) && w < |s.workers| && !Holds(s.workers[w].pc) && WorkerFreeStep(s, s', w)
    ensures Inv(s')
  {
    var me := s.workers[w];
    if me.pc.CountDown? {
      CountDownInv(s, s', w);
    } else if Queue(s, me.isolated)[0].Stop? {
      ExitUnmoved(s, s', w);
      UnmovedThreads(s, s');
      ExitQueues(s, s', w);
      ExitStops(s, s', w);
      ExitCounts(s, s', w);
    } else {
      PopInv(s, s', w, Queue(s, me.isolated)[0].id);
    }
  }

  // ---------------------------------------------------------------- the shutdown thread

  /** A Stop is sent, or the thread moves on. */
  predicate StopperFrame(s: State, s': State) {
    && s' == s.(stopper := s'.stopper, inQueue := s'.inQueue, isoQueue := s'.isoQueue)
    && !s.stopper.NotSpawned? && !s'.stopper.NotSpawned?
    && (s'.inQueue == s.inQueue || s'.inQueue == s.inQueue + [Stop])
    && (s'.isoQueue == s.isoQueue || s'.isoQueue == s.isoQueue + [Stop])
  }

  lemma StopperQueue(s: State, s': State, iso: bool)
    requires QueueOk(s, iso) && StopperFrame(s, s')
    ensures QueueOk(s', iso) && Sum(IsId, Queue(s', iso)) == Sum(IsId, Queue(s, iso))
  {
    SumAppend(IsId, Queue(s, iso), Stop);
  }

  lemma StopperStops(s: State, s': State)
    requires StopsOk(s) && StopperStep(s, s')
    ensures StopsOk(s') && StopperFrame(s, s')
  {
    if s.stopper.SendIn? || s.stopper.SendIso? {
      StopSent(s, s');
    }
  }

  lemma StopSent(s: State, s': State)
    requires StopsOk(s) && (s.stopper.SendIn? || s.stopper.SendIso?) && StopperStep(s, s')
    ensures StopsOk(s') && StopperFrame(s, s')
  {
    SumAppend(IsStop, s.inQueue, Stop);
    SumAppend(IsStop, s.isoQueue, Stop);
  }

  lemma StopperInv(s: State, s': State)
    requires Inv(s) && StopperStep(s, s')
    ensures Inv(s')
  {
    StopperStops(s, s');
    UnmovedThreads(s, s');
    StopperQueue(s, s', false);
    StopperQueue(s, s', true);
  }

  // ---------------------------------------------------------------- every run

  lemma InitCounts(s: State)
    requires Init(s)
    ensures Permits(s) && Tallies(s) && Sizes(s)
    ensures Sum(ExitedIn, s.workers) == 0 && Sum(ExitedIso, s.workers) == 0
  {
    SumZero(HeldPermits, s.callers);
    SumZero(SentUncounted, s.callers);
    SumZero(CallerDebt, s.callers);
    SumZero(InHand, s.workers);
    SumZero(InRunning, s.workers);
    SumZero(WorkerDebt, s.workers);
    SumZero(ExitedIn, s.workers);
    SumZero(ExitedIso, s.workers);
  }

  lemma InitInv(s: State)
    requires Init(s)
    ensures Inv(s)
  {
    InitCounts(s);
  }

  lemma NextInv(s: State, s': State)
    requires Inv(s) && Next(s, s')
    ensures Inv(s')
  {
    if w :| 0 <= w < |s.workers| && WorkerStep(s, s', w) {
      WorkerInv(s, s', w);
    } else if a :| 0 <= a < |s.callers| && CallerStep(s, s', a) {
      CallerInv(s, s', a);
    } else {
      StopperInv(s, s');
    }
  }

  lemma StartInv(r: seq<State>)
    requires Run(r)
    ensures Inv(r[0])
  {
    InitInv(r[0]);
  }

  lemma StepInv(r: seq<State>, n: nat)
    requires Run(r) && n + 1 < |r| && Inv(r[n])
    ensures Inv(r[n + 1])
  {
    assert StepAt(r, n);
    NextInv(r[n], r[n + 1]);
  }

  /** The invariant holds at every point of every run. */
  lemma RunInv(r: seq<State>, n: nat)
    requires Run(r) && n < |r|
    ensures Inv(r[n])
  {
    StartInv(r);
    forall m | 0 <= m && m + 1 < |r| && Inv(r[m]) ensures Inv(r[m + 1]) {
      StepInv(r, m);
    }
    Inductive(Inv, r, n);
  }

  /** What holds at the start and is kept by every step holds throughout. */
  lemma {:induction false} Inductive(holds: State -> bool, r: seq<State>, n: nat)
    requires n < |r| && holds(r[0]) && forall m {:trigger r[m]} | 0 <= m && m + 1 < |r| && holds(r[m]) :: holds(r[m + 1])
    ensures holds(r[n])
  {
    if n > 0 {
      Inductive(holds, r, n - 1);
    }
  }
}
