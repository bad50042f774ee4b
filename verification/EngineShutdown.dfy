/** Shutdown cannot get stuck and takes boundedly many steps of the workers and the shutdown thread,
    whatever the callers do meanwhile. */
module EngineShutdown {
  import opened Sums
  import opened Engine
  import opened EngineInv
  import opened EngineProof
  import opened EngineRun

  /** Steps a worker still has before it receives again. */
  function Rank(pc: WorkerPc): nat {
    match pc
    case Popped(_) => 30
    case Released(_) => 29
    case Got(_) => 28
    case ShutdownCas(_) => 27
    case CheckCancelled(_) => 26
    case Claim(_) => 25
    case PostClaim(_) => 24
    case PostCas(_) => 23
    case Started(_) => 22
    case Executing(_) => 21
    case Store(_, _) => 20
    case StoreLocked(_, _, _) => 19
    case FinalLoad(_, _) => 18
    case FinalCas(_, _, cur) => if cur.Cancelled? then 16 else 17
    case Bump(_) => 15
    case LeaveRunning(_) => 14
    case Signal(_) => 13
    case RecordFlag(_) => 12
    case RecordCount(_) => 11
    case RecordResult(_) => 10
    case RecordSignal(_) => 9
    case AutoCheck(_) => 3
    case Remove(_) => 2
    case CountDown => 1
    case Receiving => 0
    case Exited => 0
  }

  function WorkerRank(w: Worker): nat { Rank(w.pc) }
  function MessageRank(m: Message): nat { if m.Id? then 31 else 1 }

  function StopperRank(p: StopperPc, inProcess: nat, coordinators: nat): nat {
    var all := inProcess + coordinators;
    match p
    case NotSpawned => 0
    case SendIn(n) => 2 * (if n < inProcess then inProcess - n else 0) + 2 * coordinators + all + 4
    case SendIso(n) => 2 * (if n < coordinators then coordinators - n else 0) + all + 3
    case Joining(n) => (if n < all then all - n else 0) + 2
    case ClosePool => 1
    case Complete => 0
  }

  function DrainRank(s: State): nat {
    Sum(MessageRank, s.inQueue) + Sum(MessageRank, s.isoQueue) + Sum(WorkerRank, s.workers)
      + StopperRank(s.stopper, Sum(InProcess, s.workers), Sum(Coordinator, s.workers))
  }

  /** A step of a worker or of the shutdown thread that changes anything. */
  ghost predicate EngineStep(s: State, s': State) {
    s' != s && ((exists w :: 0 <= w < |s.workers| && WorkerStep(s, s', w)) || StopperStep(s, s'))
  }

  // ---------------------------------------------------------------- every such step counts down

  lemma LifeRank(flag: bool, pc: WorkerPc, l: Life, pc': WorkerPc, l': Life)
    requires WorkerMove(flag, pc, l, pc', l')
    ensures Rank(pc') < Rank(pc) || (pc' == pc && l' == l)
  {
    if Claiming(pc) {
      ClaimRank(flag, pc, l, pc', l');
    } else if RunningBody(pc) {
      BodyRank(pc, l, pc', l');
    } else if Finalising(pc) {
      FinalRank(pc, l, pc', l');
    } else {
      RecordRank(pc, l, pc', l');
    }
  }

  lemma BodyRank(pc: WorkerPc, l: Life, pc': WorkerPc, l': Life)
    requires RunningBody(pc) && BodyStep(pc, l, pc', l')
    ensures Rank(pc') < Rank(pc)
  {
  }

  lemma RecordRank(pc: WorkerPc, l: Life, pc': WorkerPc, l': Life)
    requires Recording(pc) && RecordStep(pc, l, pc', l')
    ensures Rank(pc') < Rank(pc)
  {
  }

  lemma ClaimRank(flag: bool, pc: WorkerPc, l: Life, pc': WorkerPc, l': Life)
    requires Claiming(pc) && ClaimStep(flag, pc, l, pc', l')
    ensures Rank(pc') < Rank(pc)
  {
  }

  lemma FinalRank(pc: WorkerPc, l: Life, pc': WorkerPc, l': Life)
    requires Finalising(pc) && FinalStep(pc, l, pc', l') && WorkerView(pc, l) && LifeOk(l)
    ensures Rank(pc') < Rank(pc) || (pc' == pc && l' == l)
  {
  }

  lemma TaskRank(flag: bool, pc: WorkerPc, t: Task, pc': WorkerPc, t': Task)
    requires Holds(pc) && WorkerTaskStep(flag, pc, t, pc', t') && LifeOk(t.life) && WorkerView(pc, t.life) && (t.life.late ==> flag)
    ensures Rank(pc') < Rank(pc) || (pc' == pc && t' == t && pc.FinalCas?)
  {
    if Working(pc) {
      LifeRank(flag, pc, t.life, pc', t'.life);
    }
  }

  lemma HoldRank(s: State, s': State, w: nat)
    requires HoldReady(s, w) && WorkerHoldStep(s, s', w)
    ensures Rank(s'.workers[w].pc) < Rank(s.workers[w].pc) || s' == s
  {
    var pc := s.workers[w].pc;
    TaskRank(s.cancelPending, pc, s.tasks[pc.id], s'.workers[w].pc, s'.tasks[pc.id]);
    if s'.workers[w].pc == pc {
      assert s'.workers == s.workers && s'.tasks == s.tasks;
    }
  }

  lemma HoldDrains(s: State, s': State, w: nat)
    requires w < |s.workers| && Holds(s.workers[w].pc) && HoldFrame(s, s', w, s.workers[w].pc.id)
    requires Rank(s'.workers[w].pc) < Rank(s.workers[w].pc)
    ensures DrainRank(s') < DrainRank(s)
  {
    RankSums(s.workers, w, s'.workers[w]);
  }

  lemma RankSums(ws: seq<Worker>, w: nat, x: Worker)
    requires w < |ws|
    ensures Sum(WorkerRank, ws[w := x]) == Sum(WorkerRank, ws) - Rank(ws[w].pc) + Rank(x.pc)
    ensures x.isolated == ws[w].isolated ==>
              Sum(InProcess, ws[w := x]) == Sum(InProcess, ws) && Sum(Coordinator, ws[w := x]) == Sum(Coordinator, ws)
  {
    SumUpdate(WorkerRank, ws, w, x);
    SumUpdate(InProcess, ws, w, x);
    SumUpdate(Coordinator, ws, w, x);
  }

  lemma FreeRank(s: State, s': State, w: nat)
    requires w < |s.workers| && !Holds(s.workers[w].pc) && WorkerFreeStep(s, s', w)
    ensures DrainRank(s') < DrainRank(s)
  {
    if s.workers[w].pc.Receiving? {
      TakeRank(s, s', w);
    } else {
      RankSums(s.workers, w, s'.workers[w]);
    }
  }

  lemma TakeRank(s: State, s': State, w: nat)
    requires w < |s.workers| && s.workers[w].pc.Receiving? && WorkerFreeStep(s, s', w)
    ensures DrainRank(s') < DrainRank(s)
  {
    RankSums(s.workers, w, s'.workers[w]);
  }

  lemma {:induction false} PoolSizes(ws: seq<Worker>)
    ensures |ws| == Sum(InProcess, ws) + Sum(Coordinator, ws)
  {
    if ws != [] {
      PoolSizes(ws[1..]);
    }
  }

  lemma StopperStepRank(s: State, s': State)
    requires StopperStep(s, s')
    ensures DrainRank(s') < DrainRank(s)
  {
    PoolSizes(s.workers);
    SumAppend(MessageRank, s.inQueue, Stop);
    SumAppend(MessageRank, s.isoQueue, Stop);
  }

  lemma HolderRank(s: State, s': State, w: nat)
    requires TasksOk(s) && LinksOk(s) && WorkersOk(s) && w < |s.workers| && Holds(s.workers[w].pc) && WorkerHoldStep(s, s', w)
    ensures s' == s || (DrainRank(s') < DrainRank(s) && s'.stopper == s.stopper)
  {
    assert WorkerOk(s, w);
    var i := s.workers[w].pc.id;
    assert TaskOk(s.tasks[i]) && Linked(s, i);
    HoldKeepsFrame(s, s', w);
    HoldRank(s, s', w);
    if s' != s {
      HoldDrains(s, s', w);
    }
  }

  lemma EngineStepRank(s: State, s': State)
    requires Inv(s) && EngineStep(s, s')
    ensures DrainRank(s') < DrainRank(s) && (!s.stopper.NotSpawned? ==> !s'.stopper.NotSpawned?)
  {
    if w :| 0 <= w < |s.workers| && WorkerStep(s, s', w) {
      if Holds(s.workers[w].pc) {
        HolderRank(s, s', w);
      } else {
        FreeRank(s, s', w);
      }
    } else {
      StopperStepRank(s, s');
    }
  }

  /** After the shutdown thread was spawned, no caller touches a queue, a worker or that thread. */
  lemma CallerKeepsRank(s: State, s': State, a: nat)
    requires Permits(s) && StopsOk(s) && !s.stopper.NotSpawned? && a < |s.callers| && CallerOk(s, a) && CallerStep(s, s', a)
    ensures DrainRank(s') == DrainRank(s) && s'.stopper == s.stopper
  {
    var pc := s.callers[a];
    if Targets(pc) {
      TargetNumbers(s, s', a);
    } else if Batching(pc) {
      UndoKeepsRank(s, s', a);
    } else if !pc.DSwap? {
      QuietKeepsRank(s, s', a);
    }
  }

  lemma QuietKeepsRank(s: State, s': State, a: nat)
    requires Permits(s) && a < |s.callers| && CallerOk(s, a) && CallerStep(s, s', a)
    requires !Targets(s.callers[a]) && !Batching(s.callers[a]) && !s.callers[a].DSwap? && !s.callers[a].DSpawn?
    ensures DrainRank(s') == DrainRank(s) && s'.stopper == s.stopper
  {
    CallerQuiet(s, s', a);
  }

  lemma UndoKeepsRank(s: State, s': State, a: nat)
    requires StopsOk(s) && !s.stopper.NotSpawned? && a < |s.callers| && CallerOk(s, a)
    requires Batching(s.callers[a]) && BatchStep(s, s', a)
    ensures DrainRank(s') == DrainRank(s) && s'.stopper == s.stopper
  {
    assert s.callers[a].SUndo?;
  }

  // ---------------------------------------------------------------- and one is always possible

  lemma CanWork(flag: bool, pc: WorkerPc, l: Life) returns (pc': WorkerPc, l': Life)
    requires Working(pc) && LifeOk(l) && WorkerView(pc, l)
    ensures LifeStep(flag, pc, l, pc', l') && pc' != pc
  {
    var i := pc.id;
    match pc
    case Got(_) => pc', l' := (if flag then ShutdownCas(i) else CheckCancelled(i)), l;
    case ShutdownCas(_) =>
      if l.status.Pending? {
        pc', l' := RecordFlag(i), l.(status := Cancelled, winner := Shutdown(true));
      } else {
        pc', l' := CheckCancelled(i), l;
      }
    case CheckCancelled(_) => pc', l' := (if l.cancelled then AutoCheck(i) else Claim(i)), l;
    case Claim(_) =>
      if l.status.Pending? {
        pc', l' := PostClaim(i), l.(status := Running, late := flag);
      } else {
        pc', l' := AutoCheck(i), l;
      }
    case PostClaim(_) => pc', l' := (if flag then PostCas(i) else Started(i)), l;
    case PostCas(_) =>
      if l.status.Running? {
        pc', l' := RecordFlag(i), l.(status := Cancelled, winner := Shutdown(true));
      } else {
        pc', l' := Started(i), l;
      }
    case Started(_) => pc', l' := Executing(i), l.(entered := true);
    case Executing(_) => pc', l' := Store(i, Ok(0)), l.(body := Ok(0));
    case Store(_, r) => pc', l' := StoreLocked(i, r, l.status.Cancelled?), l.(resultLocked := true);
    case StoreLocked(_, r, saw) => pc', l' := FinalLoad(i, r), l.(resultLocked := false, result := if saw then l.result else r);
    case FinalLoad(_, r) => pc', l' := FinalCas(i, r, l.status), l;
    case FinalCas(_, r, cur) =>
      if cur.Cancelled? {
        pc', l' := LeaveRunning(i), l;
      } else if l.status == cur {
        pc', l' := Bump(i), l.(status := StatusFor(r));
      } else {
        pc', l' := FinalCas(i, r, l.status), l;
      }
    case Bump(_) => pc', l' := LeaveRunning(i), l.(tally := if l.status.Completed? then AsCompleted else AsFailed);
    case LeaveRunning(_) => pc', l' := Signal(i), l;
    case Signal(_) => pc', l' := AutoCheck(i), l.(completed := true);
    case RecordFlag(_) => pc', l' := RecordCount(i), l.(cancelled := true);
    case RecordCount(_) => pc', l' := RecordResult(i), l.(tally := AsCancelled);
    case RecordResult(_) => pc', l' := RecordSignal(i), l.(result := CANCELLED_RESULT, wrote := true);
    case RecordSignal(_) => pc', l' := AutoCheck(i), l.(completed := true, winner := Shutdown(false));
  }

  lemma CanHold(flag: bool, pc: WorkerPc, t: Task) returns (pc': WorkerPc, t': Task)
    requires Holds(pc) && LifeOk(t.life) && WorkerView(pc, t.life)
    ensures WorkerTaskStep(flag, pc, t, pc', t') && pc' != pc
  {
    var i := pc.id;
    if Working(pc) {
      var l';
      pc', l' := CanWork(flag, pc, t.life);
      t' := t.(life := l');
    } else {
      match pc
      case Popped(_) => pc', t' := Released(i), t;
      case Released(_) =>
        if t.slot.inSlab {
          pc', t' := Got(i), t;
        } else {
          pc', t' := Receiving, t.(owner := Finished);
        }
      case AutoCheck(_) =>
        if t.slot.autofree {
          pc', t' := Remove(i), t;
        } else {
          pc', t' := Receiving, t.(owner := Finished);
        }
      case Remove(_) =>
        pc' := if t.slot.inSlab then CountDown else Receiving;
        t' := t.(owner := Finished, slot := t.slot.(inSlab := false));
    }
  }

  /** A worker that is not out of work can take a step. */
  lemma WorkerCanStep(s: State, w: nat) returns (s': State)
    requires Inv(s) && w < |s.workers| && !s.workers[w].pc.Exited?
    requires s.workers[w].pc.Receiving? ==> Queue(s, s.workers[w].isolated) != []
    ensures WorkerStep(s, s', w) && s' != s
  {
    var me := s.workers[w];
    assert WorkerOk(s, w);
    if Holds(me.pc) {
      assert TaskOk(s.tasks[me.pc.id]);
      s' := HolderStep(s, w);
    } else if me.pc.CountDown? {
      s' := s.(counts := s.counts.(taskCount := s.counts.taskCount - 1), workers := s.workers[w := me.(pc := Receiving)]);
      assert s'.workers[w].pc != me.pc;
    } else {
      var q := Queue(s, me.isolated);
      if q[0].Stop? {
        s' := WithQueue(s, me.isolated, q[1..]).(workers := s.workers[w := me.(pc := Exited)]);
      } else {
        var i := q[0].id;
        s' := WithQueue(s, me.isolated, q[1..]).(
          tasks := s.tasks[i := s.tasks[i].(owner := Held(w))], workers := s.workers[w := me.(pc := Popped(i))]);
      }
      assert s'.workers[w].pc != me.pc;
    }
  }

  lemma HolderStep(s: State, w: nat) returns (s': State)
    requires w < |s.workers| && Holds(s.workers[w].pc) && s.workers[w].pc.id < |s.tasks|
    requires LifeOk(s.tasks[s.workers[w].pc.id].life) && WorkerView(s.workers[w].pc, s.tasks[s.workers[w].pc.id].life)
    ensures WorkerHoldStep(s, s', w) && s' != s
  {
    var pc := s.workers[w].pc;
    var pc', t' := CanHold(s.cancelPending, pc, s.tasks[pc.id]);
    s' := AfterHold(s, w, pc', t');
    HeldStep(s, w, pc', t');
  }

  lemma HeldStep(s: State, w: nat, pc': WorkerPc, t': Task)
    requires w < |s.workers| && Holds(s.workers[w].pc) && s.workers[w].pc.id < |s.tasks|
    requires WorkerTaskStep(s.cancelPending, s.workers[w].pc, s.tasks[s.workers[w].pc.id], pc', t') && pc' != s.workers[w].pc
    ensures WorkerHoldStep(s, AfterHold(s, w, pc', t'), w) && AfterHold(s, w, pc', t') != s
  {
    var s' := AfterHold(s, w, pc', t');
    assert s'.workers[w].pc == pc' && s'.tasks[s.workers[w].pc.id] == t';
  }

  /** A worker that has not exited while every Stop was sent has one waiting, or work. */
  lemma StopWaits(s: State, w: nat)
    requires Inv(s) && w < |s.workers| && !s.workers[w].pc.Exited?
    requires s.stopper.Joining? || s.stopper.ClosePool? || s.stopper.Complete?
    ensures Queue(s, s.workers[w].isolated) != []
  {
    if s.workers[w].isolated {
      SomeoneLeft(ExitedIso, Coordinator, s.workers, w);
    } else {
      SomeoneLeft(ExitedIn, InProcess, s.workers, w);
    }
  }

  lemma {:induction false} SomeoneLeft(exited: Worker -> nat, all: Worker -> nat, ws: seq<Worker>, w: nat)
    requires w < |ws| && exited(ws[w]) < all(ws[w]) && forall v | 0 <= v < |ws| :: exited(ws[v]) <= all(ws[v])
    ensures Sum(exited, ws) < Sum(all, ws)
  {
    if w == 0 {
      NoMore(exited, all, ws[1..]);
    } else {
      SomeoneLeft(exited, all, ws[1..], w - 1);
    }
  }

  lemma {:induction false} NoMore(exited: Worker -> nat, all: Worker -> nat, ws: seq<Worker>)
    requires forall v | 0 <= v < |ws| :: exited(ws[v]) <= all(ws[v])
    ensures Sum(exited, ws) <= Sum(all, ws)
  {
    if ws != [] {
      NoMore(exited, all, ws[1..]);
    }
  }

  /** A blocked send of a Stop leaves a worker of that pool something to take. */
  lemma SendingProgress(s: State) returns (s': State)
    requires Inv(s) && (s.stopper.SendIn? || s.stopper.SendIso?)
    ensures EngineStep(s, s')
  {
    if s.stopper.SendIn? {
      var n := s.stopper.n;
      if n >= Sum(InProcess, s.workers) {
        s' := s.(stopper := SendIso(0));
      } else if |s.inQueue| < s.adm.capacity {
        s' := s.(inQueue := s.inQueue + [Stop], stopper := SendIn(n + 1));
      } else {
        var w := SumDeficit(ExitedIn, InProcess, s.workers);
        s' := WorkerCanStep(s, w);
      }
    } else {
      var n := s.stopper.n;
      if n >= Sum(Coordinator, s.workers) {
        s' := s.(stopper := Joining(0));
      } else if |s.isoQueue| < s.adm.capacity {
        s' := s.(isoQueue := s.isoQueue + [Stop], stopper := SendIso(n + 1));
      } else {
        var w := SumDeficit(ExitedIso, Coordinator, s.workers);
        s' := WorkerCanStep(s, w);
      }
    }
  }

  /** Until shutdown is complete, some worker or the shutdown thread can take a step that changes something. */
  lemma Progress(s: State) returns (s': State)
    requires Inv(s) && !s.stopper.NotSpawned? && !s.stopper.Complete?
    ensures EngineStep(s, s')
  {
    match s.stopper
    case SendIn(_) => s' := SendingProgress(s);
    case SendIso(_) => s' := SendingProgress(s);
    case Joining(n) =>
      if n >= |s.workers| {
        s' := s.(stopper := ClosePool);
      } else if s.workers[n].pc.Exited? {
        s' := s.(stopper := Joining(n + 1));
      } else {
        StopWaits(s, n);
        s' := WorkerCanStep(s, n);
      }
    case ClosePool => s' := s.(stopper := Complete);
  }

  // ---------------------------------------------------------------- over runs

  /** Shutdown cannot get stuck. */
  lemma ShutdownNeverStuck(r: seq<State>, n: nat)
    requires Run(r) && n < |r| && !r[n].stopper.NotSpawned? && !r[n].stopper.Complete?
    ensures exists s' :: EngineStep(r[n], s')
  {
    RunInv(r, n);
    var s' := Progress(r[n]);
  }

  /** How many steps of the run after `n` are steps of a worker or the shutdown thread that change anything. */
  ghost function EngineSteps(r: seq<State>, n: nat): nat
    decreases |r| - n
  {
    if n + 1 >= |r| then 0 else (if EngineStep(r[n], r[n + 1]) then 1 else 0) + EngineSteps(r, n + 1)
  }

  lemma CallerOrEngine(s: State, s': State) returns (a: nat)
    requires Next(s, s') && !EngineStep(s, s') && s' != s
    ensures a < |s.callers| && CallerStep(s, s', a)
  {
    a :| 0 <= a < |s.callers| && CallerStep(s, s', a);
  }

  lemma StepRank(s: State, s': State)
    requires Inv(s) && Next(s, s') && !s.stopper.NotSpawned?
    ensures DrainRank(s') + (if EngineStep(s, s') then 1 else 0) <= DrainRank(s) && !s'.stopper.NotSpawned?
  {
    if EngineStep(s, s') {
      EngineStepRank(s, s');
    } else if s' != s {
      var a := CallerOrEngine(s, s');
      assert CallerOk(s, a);
      CallerKeepsRank(s, s', a);
    }
  }

  /** Shutdown takes boundedly many steps: whatever the callers do, at most `DrainRank` more steps of the workers
      and the shutdown thread happen, and until it is complete one more is always possible. */
  lemma {:induction false} ShutdownIsBounded(r: seq<State>, n: nat)
    requires Run(r) && n < |r| && !r[n].stopper.NotSpawned?
    ensures EngineSteps(r, n) <= DrainRank(r[n])
    decreases |r| - n
  {
    if n + 1 < |r| {
      RunInv(r, n);
      assert StepAt(r, n);
      StepRank(r[n], r[n + 1]);
      ShutdownIsBounded(r, n + 1);
    }
  }
}
