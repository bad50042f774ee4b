/** Nobody is left hanging: while a call is under way or a task is not finished, some thread can move. */
module EngineProgress {
  import opened Sums
  import opened Engine
  import opened EngineInv
  import opened EngineSubmit
  import opened EngineRun
  import opened EngineTheorems
  import opened EngineShutdown
  import opened EngineCalls

  /** A step of some thread that changes the state. */
  ghost predicate Moves(s: State, s': State) {
    s' != s && Next(s, s')
  }

  ghost predicate CanMove(s: State) {
    exists s' :: Moves(s, s')
  }

  lemma CallerMoves(s: State, s': State, a: nat)
    requires a < |s.callers| && CallerStep(s, s', a) && s' != s
    ensures CanMove(s)
  {
    assert Moves(s, s');
  }

  lemma EngineMoves(s: State, s': State)
    requires EngineStep(s, s')
    ensures CanMove(s)
  {
    assert Moves(s, s');
  }

  /** A caller set to another program counter is a changed state. */
  lemma Changed(s: State, t: State, a: nat, pc: CallerPc)
    requires a < |s.callers| && |t.callers| == |s.callers| && t.callers == s.callers && pc != s.callers[a]
    ensures SetCaller(t, a, pc) != s
  {
    assert SetCaller(t, a, pc).callers[a] == pc;
  }

  // ---------------------------------------------------------------- callers that are never blocked

  lemma ReserverMoves(s: State, a: nat)
    requires a < |s.callers| && Reserving(s.callers[a])
    ensures CanMove(s)
  {
    var t, pc := s, Idle;
    match s.callers[a] {
      case SCheckStarted(k, iso) => pc := if s.shutdownStarted then Idle else SCheckClosed(k, iso);
      case SCheckClosed(k, iso) => pc := if s.adm.closed then Idle else SReserve(k, iso);
      case SReserve(k, iso) => t, pc := Granted(s, k, iso);
      case SWaiting(k, iso, _) => t, pc := Granted(s, k, iso);
      case SFailed(k) => t := if s.adm.closed then s else s.(counts := s.counts.(rejected := s.counts.rejected + k));
    }
    Changed(s, t, a, pc);
    CallerMoves(s, SetCaller(t, a, pc), a);
  }

  /** Grant what can be granted, give up otherwise. */
  lemma Granted(s: State, k: nat, iso: bool) returns (t: State, pc: CallerPc)
    ensures t.callers == s.callers && (pc == SBuild(k, iso) || pc == SFailed(k))
    ensures forall a | 0 <= a < |s.callers| :: ReserveSection(s, SetCaller(t, a, pc), a, k, iso)
  {
    if !s.adm.closed && k <= s.adm.available {
      t, pc := s.(adm := s.adm.(available := s.adm.available - k)), SBuild(k, iso);
    } else {
      t, pc := s, SFailed(k);
    }
  }

  lemma EntererMoves(s: State, a: nat)
    requires a < |s.callers| && (s.callers[a].SBuild? || s.callers[a].SCheck? || (s.callers[a].SGate? && NoWriter(s)))
    ensures CanMove(s)
  {
    var pc := Idle;
    match s.callers[a] {
      case SBuild(k, iso) => pc := SGate(k, iso);
      case SGate(k, iso) => pc := SCheck(k, iso);
      case SCheck(k, iso) => pc := if s.shutdownStarted then SRelease(k, true, false) else SInsert(k, iso, []);
    }
    Changed(s, s, a, pc);
    CallerMoves(s, SetCaller(s, a, pc), a);
  }

  lemma BackerMoves(s: State, a: nat)
    requires a < |s.callers| && Backing(s.callers[a])
    ensures CanMove(s)
  {
    var t, pc := s, Idle;
    match s.callers[a] {
      case SUndoCount(k, ids) => t, pc := s.(counts := s.counts.(taskCount := s.counts.taskCount - |ids|)), SRelease(k, true, true);
      case SRelease(k, gate, reject) => t, pc := s.(adm := Release(s.adm, k)), if reject then SReject(k, gate) else Idle;
      case SReject(k, _) => t := s.(counts := s.counts.(rejected := s.counts.rejected + k));
    }
    Changed(s, t, a, pc);
    CallerMoves(s, SetCaller(t, a, pc), a);
  }

  lemma InserterMoves(s: State, a: nat)
    requires a < |s.callers| && s.callers[a].SInsert?
    ensures CanMove(s)
  {
    var k, iso, ids := s.callers[a].k, s.callers[a].iso, s.callers[a].ids;
    var t, pc := s, SSend(k, iso, ids, 0);
    if |ids| < k {
      t, pc := s.(tasks := s.tasks + [NewTask(iso, a)]), SCount(k, iso, ids + [|s.tasks|]);
    }
    Changed(s, t, a, pc);
    CallerMoves(s, SetCaller(t, a, pc), a);
  }

  lemma CounterMoves(s: State, a: nat)
    requires a < |s.callers| && s.callers[a].SCount? && CallerOk(s, a)
    ensures CanMove(s)
  {
    var k, iso, ids := s.callers[a].k, s.callers[a].iso, s.callers[a].ids;
    var i := ids[|ids| - 1];
    assert OwnsUnsent(s, a, iso, i, false);
    var t := SetTask(s.(counts := s.counts.(taskCount := s.counts.taskCount + 1)), i, s.tasks[i].(slot := s.tasks[i].slot.(counted := true)));
    Changed(s, t, a, SInsert(k, iso, ids));
    CallerMoves(s, SetCaller(t, a, SInsert(k, iso, ids)), a);
  }

  lemma SenderMoves(s: State, a: nat)
    requires a < |s.callers| && s.callers[a].SSend? && CallerOk(s, a)
    ensures CanMove(s)
  {
    var k, iso, ids, n := s.callers[a].k, s.callers[a].iso, s.callers[a].ids, s.callers[a].n;
    var t, pc := s, Idle;
    if n >= |ids| {
      t := s.(counts := s.counts.(submitted := s.counts.submitted + k));
    } else if SendRefused(s, iso) {
      pc := SUndo(k, iso, ids, 0);
    } else {
      assert OwnsUnsent(s, a, iso, ids[n], true);
      t := SetTask(WithQueue(s, iso, Queue(s, iso) + [Id(ids[n])]), ids[n], s.tasks[ids[n]].(owner := Queued));
      pc := SSend(k, iso, ids, n + 1);
    }
    Changed(s, t, a, pc);
    CallerMoves(s, SetCaller(t, a, pc), a);
  }

  lemma UndoerMoves(s: State, a: nat)
    requires a < |s.callers| && s.callers[a].SUndo? && CallerOk(s, a)
    ensures CanMove(s)
  {
    var k, iso, ids, n := s.callers[a].k, s.callers[a].iso, s.callers[a].ids, s.callers[a].n;
    var t, pc := s, SUndoCount(k, ids);
    if n < |ids| {
      assert OwnsUnsent(s, a, iso, ids[n], true);
      var x := s.tasks[ids[n]];
      t := SetTask(s, ids[n], x.(owner := Discarded, slot := x.slot.(inSlab := false)));
      pc := SUndo(k, iso, ids, n + 1);
    }
    Changed(s, t, a, pc);
    CallerMoves(s, SetCaller(t, a, pc), a);
  }

  lemma WriterMoves(s: State, a: nat)
    requires a < |s.callers| && (Writes(s.callers[a]) || s.callers[a].DSpawn? || (s.callers[a].DGate? && GateFree(s)))
    ensures CanMove(s)
  {
    var t, pc := s, Idle;
    match s.callers[a] {
      case DGate(wait, cancel) => pc := DFlag(wait, cancel);
      case DFlag(wait, cancel) => t, pc := s.(cancelPending := s.cancelPending || cancel), DClose(wait);
      case DClose(wait) => t, pc := s.(adm := s.adm.(closed := true, epoch := s.adm.epoch + 1)), DSwap(wait);
      case DSwap(wait) =>
        t := s.(shutdownStarted := true, spawner := if s.shutdownStarted then s.spawner else Basics.Some(a));
        pc := DUnlock(wait, !s.shutdownStarted);
      case DUnlock(wait, first) => pc := if first then DSpawn(wait) else if wait then DWait else Idle;
      case DSpawn(wait) => t, pc := s.(stopper := SendIn(0)), if wait then DWait else Idle;
    }
    Changed(s, t, a, pc);
    CallerMoves(s, SetCaller(t, a, pc), a);
  }

  // ---------------------------------------------------------------- callers that may have to wait

  /** The state after a canceller or closer has moved to `pc'` and its task to `t'`. */
  function AfterTarget(s: State, a: nat, pc': CallerPc, t': Task): State
    requires a < |s.callers| && Targets(s.callers[a]) && s.callers[a].id < |s.tasks|
  {
    s.(counts := s.counts.(cancelled := s.counts.cancelled + if s.callers[a].CCount? then 1 else 0),
       tasks := s.tasks[s.callers[a].id := t'], callers := s.callers[a := pc'])
  }

  lemma TargetMoves(s: State, a: nat, pc': CallerPc, t': Task)
    requires a < |s.callers| && Targets(s.callers[a]) && s.callers[a].id < |s.tasks|
    requires CallerTaskStep(a, s.callers[a], s.tasks[s.callers[a].id], pc', t') && pc' != s.callers[a]
    ensures CanMove(s)
  {
    var s' := AfterTarget(s, a, pc', t');
    assert s'.callers[a] == pc' && s'.tasks[s.callers[a].id] == t';
    CallerMoves(s, s', a);
  }

  lemma CancellerMoves(s: State, a: nat)
    requires a < |s.callers| && Targets(s.callers[a]) && !Closing(s.callers[a]) && CallerOk(s, a)
    requires s.callers[a].CWrite? ==> !s.tasks[s.callers[a].id].life.resultLocked
    ensures CanMove(s)
  {
    var i := s.callers[a].id;
    var t := s.tasks[i];
    var l := t.life;
    match s.callers[a] {
      case CGet(_) => TargetMoves(s, a, if t.slot.inSlab then CLoad(i) else Idle, t);
      case CLoad(_) => TargetMoves(s, a, CLoop(i, l.status), t);
      case CLoop(_, cur) =>
        if Terminal(cur) || (cur.Running? && !l.isolated) {
          TargetMoves(s, a, Idle, t);
        } else if l.status == cur {
          TargetMoves(s, a, CCount(i, cur.Pending?), t.(life := l.(status := Cancelled, winner := Caller(a, cur.Pending?, true))));
        } else {
          TargetMoves(s, a, CLoop(i, l.status), t);
        }
      case CCount(_, signals) => TargetMoves(s, a, CFlag(i, signals), t.(life := l.(tally := AsCancelled)));
      case CFlag(_, signals) => TargetMoves(s, a, CWrite(i, signals), t.(life := l.(cancelled := true)));
      case CWrite(_, signals) =>
        TargetMoves(s, a, if signals then CSignal(i) else Idle,
                    t.(life := l.(result := CANCELLED_RESULT, wrote := true, winner := Caller(a, signals, signals))));
      case CSignal(_) => TargetMoves(s, a, Idle, t.(life := l.(completed := true, winner := Caller(a, true, false))));
    }
  }

  lemma CloserMoves(s: State, a: nat)
    requires a < |s.callers| && Closing(s.callers[a]) && CallerOk(s, a)
    ensures CanMove(s)
  {
    var i := s.callers[a].id;
    var t := s.tasks[i];
    var e := t.slot;
    match s.callers[a] {
      case KGet(_) =>
        if e.inSlab {
          TargetMoves(s, a, KLoad(i), t);
        } else {
          TargetMoves(s, a, Idle, t.(slot := e.(closed := true)));
        }
      case KLoad(_) => TargetMoves(s, a, if Terminal(t.life.status) then KRemove(i) else KAutoGet(i), t);
      case KAutoGet(_) =>
        if e.inSlab {
          TargetMoves(s, a, KAutoStore(i), t);
        } else {
          TargetMoves(s, a, Idle, t.(slot := e.(closed := true)));
        }
      case KAutoStore(_) => TargetMoves(s, a, KAutoLoad(i), t.(slot := e.(autofree := true)));
      case KAutoLoad(_) =>
        if Terminal(t.life.status) {
          TargetMoves(s, a, KRemove(i), t);
        } else {
          TargetMoves(s, a, Idle, t.(slot := e.(owed := true, closed := true)));
        }
      case KRemove(_) =>
        TargetMoves(s, a, if e.inSlab then KCountDown else Idle, t.(slot := e.(inSlab := false, closed := true)));
    }
  }

  /** Whoever holds the lock of a result is a worker about to let go of it. */
  lemma LockHolderMoves(s: State, i: nat)
    requires Inv(s) && i < |s.tasks| && Sent(s.tasks[i].owner) && s.tasks[i].life.resultLocked
    ensures CanMove(s)
  {
    assert TaskOk(s.tasks[i]) && Linked(s, i);
    var w := s.tasks[i].owner.worker;
    assert WorkerOk(s, w);
    var s' := WorkerCanStep(s, w);
    EngineMoves(s, s');
  }

  lemma TargetCallerMoves(s: State, a: nat)
    requires Inv(s) && a < |s.callers| && Targets(s.callers[a])
    ensures CanMove(s)
  {
    assert CallerOk(s, a);
    if Closing(s.callers[a]) {
      CloserMoves(s, a);
    } else if s.callers[a].CWrite? && s.tasks[s.callers[a].id].life.resultLocked {
      LockHolderMoves(s, s.callers[a].id);
    } else {
      CancellerMoves(s, a);
    }
  }

  /** Whoever holds the submission gate can move. */
  lemma GateHolderMoves(s: State, b: nat)
    requires CallersOk(s) && b < |s.callers| && (Reads(s.callers[b]) || Writes(s.callers[b]))
    ensures CanMove(s)
  {
    var pc := s.callers[b];
    assert CallerOk(s, b);
    if Writes(pc) {
      WriterMoves(s, b);
    } else if pc.SCheck? {
      EntererMoves(s, b);
    } else if pc.SInsert? {
      InserterMoves(s, b);
    } else if pc.SCount? {
      CounterMoves(s, b);
    } else if pc.SSend? {
      SenderMoves(s, b);
    } else if pc.SUndo? {
      UndoerMoves(s, b);
    } else {
      BackerMoves(s, b);
    }
  }

  lemma GateWaiterMoves(s: State, a: nat)
    requires CallersOk(s) && a < |s.callers| && (s.callers[a].SGate? || s.callers[a].DGate?)
    ensures CanMove(s)
  {
    if b :| 0 <= b < |s.callers| && (Reads(s.callers[b]) || Writes(s.callers[b])) {
      GateHolderMoves(s, b);
    } else if s.callers[a].SGate? {
      EntererMoves(s, a);
    } else {
      WriterMoves(s, a);
    }
  }

  /** A caller that waits for the end of shutdown waits for threads that can move. */
  lemma ShutdownWaiterMoves(s: State, a: nat)
    requires Inv(s) && a < |s.callers| && s.callers[a].DWait? && s.shutdownStarted && SpawnOwed(s)
    ensures CanMove(s)
  {
    if s.stopper.Complete? {
      Changed(s, s, a, Idle);
      CallerMoves(s, SetCaller(s, a, Idle), a);
    } else if s.stopper.NotSpawned? {
      WriterMoves(s, s.spawner.value);
    } else {
      var s' := Progress(s);
      EngineMoves(s, s');
    }
  }

  lemma SubmitterMoves(s: State, a: nat)
    requires CallersOk(s) && a < |s.callers| && Submitting(s.callers[a])
    ensures CanMove(s)
  {
    var pc := s.callers[a];
    if Reserving(pc) {
      ReserverMoves(s, a);
    } else if pc.SGate? {
      GateWaiterMoves(s, a);
    } else if pc.SBuild? {
      EntererMoves(s, a);
    } else if Backing(pc) {
      BackerMoves(s, a);
    } else {
      GateHolderMoves(s, a);
    }
  }

  /** An idle caller may begin any call: a submission of any size to either pool, a shutdown, or the cancellation or
      closing of any task that was sent. */
  lemma AnyCallBegins(s: State, a: nat, pc: CallerPc)
    requires a < |s.callers| && s.callers[a].Idle?
    requires pc.SCheckStarted? || pc.DGate? || ((pc.CGet? || pc.KGet?) && pc.id < |s.tasks| && Sent(s.tasks[pc.id].owner))
    ensures CallerStep(s, SetCaller(s, a, pc), a)
  {
    assert SetCaller(s, a, pc).callers[a] == pc;
  }

  // ---------------------------------------------------------------- over runs

  /** A caller that waits is inside a shutdown that has started. */
  lemma {:induction false} WaitersStarted(r: seq<State>, n: nat, a: nat)
    requires Run(r) && n < |r| && a < |r[n].callers| && (r[n].callers[a].DWait? || r[n].callers[a].DUnlock? || r[n].callers[a].DSpawn?)
    ensures r[n].shutdownStarted
  {
    if n > 0 {
      SameCallers(r, n - 1);
      OwnStepAt(r, n - 1, a);
      if r[n].callers[a] == r[n - 1].callers[a] {
        WaitersStarted(r, n - 1, a);
        StartedStays(r, n - 1);
      } else {
        IntoShutdown(r[n - 1], r[n], a);
        ShutdownAt(r, n - 1, a);
        if !r[n - 1].callers[a].DSwap? {
          WaitersStarted(r, n - 1, a);
        }
      }
    }
  }

  /** No deadlock: while any call is under way, some thread can take a step that changes the state. */
  lemma NoDeadlock(r: seq<State>, n: nat, a: nat)
    requires Run(r) && n < |r| && a < |r[n].callers| && !r[n].callers[a].Idle?
    ensures CanMove(r[n])
  {
    var s := r[n];
    RunInv(r, n);
    var pc := s.callers[a];
    if Submitting(pc) {
      SubmitterMoves(s, a);
    } else if Targets(pc) {
      TargetCallerMoves(s, a);
    } else if pc.KCountDown? {
      var t := s.(counts := s.counts.(taskCount := s.counts.taskCount - 1));
      Changed(s, t, a, Idle);
      CallerMoves(s, SetCaller(t, a, Idle), a);
    } else if pc.DWait? {
      WaitersStarted(r, n, a);
      ShutdownSpawns(r, n);
      ShutdownWaiterMoves(s, a);
    } else if pc.DGate? {
      GateWaiterMoves(s, a);
    } else {
      WriterMoves(s, a);
    }
  }

  /** No task is forgotten: while an accepted task is queued or in a worker's hands, some worker can take a step. */
  lemma AcceptedTaskMoves(r: seq<State>, n: nat, i: nat) returns (w: nat, s': State)
    requires Run(r) && n < |r| && i < |r[n].tasks| && (r[n].tasks[i].owner.Queued? || r[n].tasks[i].owner.Held?)
    ensures w < |r[n].workers| && WorkerStep(r[n], s', w) && s' != r[n]
  {
    var s := r[n];
    RunInv(r, n);
    assert Linked(s, i);
    if s.tasks[i].owner.Held? {
      w := s.tasks[i].owner.worker;
      assert WorkerOk(s, w);
    } else {
      w := SomeoneServes(s, i);
    }
    s' := WorkerCanStep(s, w);
  }

  /** A body that is being executed may return anything. */
  lemma BodyReturnsAnything(r: seq<State>, n: nat, w: nat, o: Outcome) returns (s': State)
    requires Run(r) && n < |r| && w < |r[n].workers| && r[n].workers[w].pc.Executing? && !o.Absent?
    ensures WorkerStep(r[n], s', w) && w < |s'.workers| && s'.workers[w].pc == Store(r[n].workers[w].pc.id, o)
  {
    var s := r[n];
    RunInv(r, n);
    assert WorkerOk(s, w);
    var i := s.workers[w].pc.id;
    var t' := s.tasks[i].(life := s.tasks[i].life.(body := o));
    HeldStep(s, w, Store(i, o), t');
    s' := AfterHold(s, w, Store(i, o), t');
  }

  /** A queue with an id in it has a worker that has not left. */
  lemma SomeoneServes(s: State, i: nat) returns (w: nat)
    requires QueueOk(s, false) && QueueOk(s, true) && StopThreads(s) && i < |s.tasks| && s.tasks[i].owner.Queued? && Linked(s, i)
    ensures w < |s.workers| && !s.workers[w].pc.Exited? && Queue(s, s.workers[w].isolated) != []
  {
    var iso := s.tasks[i].life.isolated;
    var q := Queue(s, iso);
    var x :| 0 <= x < |q| && q[x] == Id(i);
    SumAtLeast(IsId, q, x);
    if iso {
      w :| 0 <= w < |s.workers| && s.workers[w].isolated;
    } else {
      w :| 0 <= w < |s.workers| && !s.workers[w].isolated;
    }
  }

  // ---------------------------------------------------------------- a submission that nothing opposes

  function Last(r: seq<State>): State
    requires r != []
  {
    r[|r| - 1]
  }

  lemma Extend(r: seq<State>, a: nat, s': State)
    requires Run(r) && a < |Last(r).callers| && CallerStep(Last(r), s', a)
    ensures Run(r + [s']) && Last(r + [s']) == s'
  {
    var r' := r + [s'];
    forall n | 0 <= n < |r'| - 1 ensures StepAt(r', n) {
      if n < |r| - 1 {
        assert StepAt(r, n);
      } else {
        assert Next(Last(r), s');
      }
    }
  }

  /** The caller moves alone: everybody else, the queues and the counters stay as in `s`. */
  predicate Alone(s: State, t: State, a: nat) {
    && a < |s.callers| == |t.callers| && t == s.(callers := t.callers, adm := t.adm, tasks := t.tasks, counts := t.counts,
                                               inQueue := t.inQueue, isoQueue := t.isoQueue)
    && t.callers == s.callers[a := t.callers[a]] && t.counts.submitted == s.counts.submitted && t.adm.closed == s.adm.closed
  }

  lemma BeginAlone(r: seq<State>, a: nat, k: nat, iso: bool) returns (r': seq<State>)
    requires Run(r) && a < |Last(r).callers| && Last(r).callers[a].Idle? && !Last(r).adm.closed && !Last(r).shutdownStarted
    ensures Run(r') && r <= r' && Last(r') == SetCaller(Last(r), a, SReserve(k, iso))
  {
    var s := Last(r);
    var b, c, d := SetCaller(s, a, SCheckStarted(k, iso)), SetCaller(s, a, SCheckClosed(k, iso)), SetCaller(s, a, SReserve(k, iso));
    AnyCallBegins(s, a, SCheckStarted(k, iso));
    Extend(r, a, b);
    Overwrite(s, a, SCheckStarted(k, iso), SCheckClosed(k, iso));
    Extend(r + [b], a, c);
    Overwrite(s, a, SCheckClosed(k, iso), SReserve(k, iso));
    Extend(r + [b] + [c], a, d);
    r' := r + [b] + [c] + [d];
  }

  lemma Overwrite(s: State, a: nat, pc: CallerPc, pc': CallerPc)
    requires a < |s.callers|
    ensures SetCaller(SetCaller(s, a, pc), a, pc') == SetCaller(s, a, pc') && SetCaller(s, a, pc).callers[a] == pc
  {
  }

  lemma ReserveAlone(r: seq<State>, a: nat, k: nat, iso: bool) returns (r': seq<State>)
    requires Run(r) && a < |Last(r).callers| && Last(r).callers[a] == SReserve(k, iso)
    requires !Last(r).adm.closed && k <= Last(r).adm.available
    ensures Run(r') && Alone(Last(r), Last(r'), a) && Last(r').callers[a] == SBuild(k, iso) && r <= r'
  {
    var d := Last(r);
    var e := SetCaller(d.(adm := d.adm.(available := d.adm.available - k)), a, SBuild(k, iso));
    Extend(r, a, e);
    r' := r + [e];
  }

  lemma EnterAlone(r: seq<State>, a: nat, k: nat, iso: bool) returns (r': seq<State>)
    requires Run(r) && a < |Last(r).callers| && Last(r).callers[a] == SBuild(k, iso)
    requires NoWriter(Last(r)) && !Last(r).shutdownStarted
    ensures Run(r') && r <= r' && Last(r') == SetCaller(Last(r), a, SInsert(k, iso, []))
  {
    var s := Last(r);
    var b, c, d := SetCaller(s, a, SGate(k, iso)), SetCaller(s, a, SCheck(k, iso)), SetCaller(s, a, SInsert(k, iso, []));
    Extend(r, a, b);
    assert NoWriter(b);
    Overwrite(s, a, SGate(k, iso), SCheck(k, iso));
    Extend(r + [b], a, c);
    Overwrite(s, a, SCheck(k, iso), SInsert(k, iso, []));
    Extend(r + [b] + [c], a, d);
    r' := r + [b] + [c] + [d];
  }

  /** One more record in the slab. */
  lemma InsertOne(r: seq<State>, a: nat, k: nat, iso: bool, ids: seq<nat>) returns (r': seq<State>)
    requires Run(r) && a < |Last(r).callers| && Last(r).callers[a] == SInsert(k, iso, ids) && |ids| < k
    ensures Run(r') && Alone(Last(r), Last(r'), a) && Last(r').callers[a] == SInsert(k, iso, ids + [|Last(r).tasks|]) && r <= r'
  {
    var s := Last(r);
    var b := SetCaller(s.(tasks := s.tasks + [NewTask(iso, a)]), a, SCount(k, iso, ids + [|s.tasks|]));
    Extend(r, a, b);
    r' := CountOne(r + [b], a, k, iso, ids + [|s.tasks|]);
    assert b.callers == s.callers[a := b.callers[a]];
  }

  lemma CountOne(r: seq<State>, a: nat, k: nat, iso: bool, ids: seq<nat>) returns (r': seq<State>)
    requires Run(r) && a < |Last(r).callers| && Last(r).callers[a] == SCount(k, iso, ids) && ids != [] && ids[|ids| - 1] < |Last(r).tasks|
    ensures Run(r') && Alone(Last(r), Last(r'), a) && Last(r').callers[a] == SInsert(k, iso, ids) && r <= r'
  {
    var s, i := Last(r), ids[|ids| - 1];
    var t := s.tasks[i].(slot := s.tasks[i].slot.(counted := true));
    var c := SetCaller(SetTask(s.(counts := s.counts.(taskCount := s.counts.taskCount + 1)), i, t), a, SInsert(k, iso, ids));
    Extend(r, a, c);
    r' := r + [c];
  }

  lemma {:induction false} InsertAlone(r: seq<State>, a: nat, k: nat, iso: bool, ids: seq<nat>) returns (r': seq<State>)
    requires Run(r) && a < |Last(r).callers| && Last(r).callers[a] == SInsert(k, iso, ids) && |ids| <= k
    ensures Run(r') && Alone(Last(r), Last(r'), a) && r <= r'
    ensures Last(r').callers[a].SSend? && Last(r').callers[a].k == k && Last(r').callers[a].n == 0
    decreases k - |ids|
  {
    if |ids| == k {
      var b := SetCaller(Last(r), a, SSend(k, iso, ids, 0));
      Extend(r, a, b);
      r' := r + [b];
    } else {
      var mid := InsertOne(r, a, k, iso, ids);
      r' := InsertAlone(mid, a, k, iso, ids + [|Last(r).tasks|]);
    }
  }

  /** The next id goes to its queue; nothing refuses it. */
  lemma SendOne(r: seq<State>, a: nat) returns (r': seq<State>)
    requires Run(r) && a < |Last(r).callers| && Last(r).callers[a].SSend? && Last(r).callers[a].n < |Last(r).callers[a].ids|
    ensures Run(r') && Alone(Last(r), Last(r'), a) && r <= r'
    ensures var pc := Last(r).callers[a]; Last(r').callers[a] == SSend(pc.k, pc.iso, pc.ids, pc.n + 1)
  {
    var s, pc := Last(r), Last(r).callers[a];
    SendNeverRefused(r, |r| - 1, a);
    SenderOwns(r, a);
    var i := pc.ids[pc.n];
    var b := SetCaller(SetTask(WithQueue(s, pc.iso, Queue(s, pc.iso) + [Id(i)]), i, s.tasks[i].(owner := Queued)),
                       a, SSend(pc.k, pc.iso, pc.ids, pc.n + 1));
    Extend(r, a, b);
    r' := r + [b];
  }

  lemma SenderOwns(r: seq<State>, a: nat)
    requires Run(r) && a < |Last(r).callers| && Last(r).callers[a].SSend?
    ensures var pc := Last(r).callers[a]; |pc.ids| == pc.k && pc.n <= pc.k && (pc.n < pc.k ==> pc.ids[pc.n] < |Last(r).tasks|)
  {
    RunInv(r, |r| - 1);
    assert CallerOk(Last(r), a);
    var pc := Last(r).callers[a];
    if pc.n < pc.k {
      assert OwnsUnsent(Last(r), a, pc.iso, pc.ids[pc.n], true);
    }
  }

  lemma {:induction false} SendAlone(r: seq<State>, a: nat) returns (r': seq<State>)
    requires Run(r) && a < |Last(r).callers| && Last(r).callers[a].SSend?
    ensures Run(r') && r <= r' && |Last(r').callers| == |Last(r).callers| && Last(r').callers[a].Idle?
    ensures Last(r').counts.submitted == Last(r).counts.submitted + Last(r).callers[a].k
    decreases |Last(r).callers[a].ids| - Last(r).callers[a].n
  {
    SenderOwns(r, a);
    var pc := Last(r).callers[a];
    if pc.n == |pc.ids| {
      var b := SetCaller(Last(r).(counts := Last(r).counts.(submitted := Last(r).counts.submitted + pc.k)), a, Idle);
      Extend(r, a, b);
      r' := r + [b];
    } else {
      var mid := SendOne(r, a);
      r' := SendAlone(mid, a);
    }
  }

  /**
   * Whenever the engine is open, holds at least `k` permits and nobody has the gate for writing, an idle caller can submit
   * `k` tasks to either pool by its own steps alone and has them all counted as submitted.
   */
  lemma SubmissionCanSucceed(r: seq<State>, a: nat, k: nat, iso: bool) returns (r': seq<State>)
    requires Run(r) && a < |Last(r).callers| && Last(r).callers[a].Idle?
    requires !Last(r).adm.closed && !Last(r).shutdownStarted && k <= Last(r).adm.available && NoWriter(Last(r))
    ensures Run(r') && r <= r' && a < |Last(r').callers| && Last(r').callers[a].Idle?
    ensures Last(r').counts.submitted == Last(r).counts.submitted + k
  {
    var r0 := BeginAlone(r, a, k, iso);
    var r1 := ReserveAlone(r0, a, k, iso);
    assert NoWriter(Last(r1));
    var r2 := EnterAlone(r1, a, k, iso);
    var r3 := InsertAlone(r2, a, k, iso, []);
    r' := SendAlone(r3, a);
  }
}
