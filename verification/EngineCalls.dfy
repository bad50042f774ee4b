/** What each public call owes its caller: when a cancel must cancel, when a submission must be accepted, what a
    shutdown has done when it returns, and which tasks must run. */
module EngineCalls {
  import opened Sums
  import opened Engine
  import opened EngineInv
  import opened EngineSubmit
  import opened EngineRun
  import opened EngineTheorems

  /** Caller `a` is inside one call from `k` to `n`. */
  predicate InCall(r: seq<State>, k: nat, n: nat, a: nat) {
    k <= n < |r| && forall j | k <= j <= n :: a < |r[j].callers| && !r[j].callers[a].Idle?
  }

  /** It took its own step at `n`. */
  predicate Acts(r: seq<State>, n: nat, a: nat) {
    n + 1 < |r| && a < |r[n].callers| && CallerStep(r[n], r[n + 1], a)
  }

  predicate Submitting(pc: CallerPc) {
    Reserving(pc) || Entering(pc) || Batching(pc) || Backing(pc)
  }

  predicate ShuttingDown(pc: CallerPc) {
    pc.DGate? || pc.DFlag? || pc.DClose? || pc.DSwap? || pc.DUnlock? || pc.DSpawn? || pc.DWait?
  }

  lemma SubmitStays(s: State, s': State, a: nat)
    requires a < |s.callers| && CallerStep(s, s', a)
    requires Reserving(s.callers[a]) || Entering(s.callers[a]) || Backing(s.callers[a])
    ensures a < |s'.callers| && (s'.callers[a].Idle? || Submitting(s'.callers[a]))
  {
    if Reserving(s.callers[a]) {
      ReserveStays(s, s', a);
    } else if Entering(s.callers[a]) {
      EnterStays(s, s', a);
    } else {
      BackStays(s, s', a);
    }
  }

  lemma ReserveStays(s: State, s': State, a: nat)
    requires a < |s.callers| && Reserving(s.callers[a]) && ReserveStep(s, s', a)
    ensures a < |s'.callers| && (s'.callers[a].Idle? || Submitting(s'.callers[a]))
  {
  }

  lemma EnterStays(s: State, s': State, a: nat)
    requires a < |s.callers| && Entering(s.callers[a]) && EnterStep(s, s', a)
    ensures a < |s'.callers| && (s'.callers[a].Idle? || Submitting(s'.callers[a]))
  {
  }

  lemma BackStays(s: State, s': State, a: nat)
    requires a < |s.callers| && Backing(s.callers[a]) && BackStep(s, s', a)
    ensures a < |s'.callers| && (s'.callers[a].Idle? || Submitting(s'.callers[a]))
  {
  }

  lemma BatchStays(s: State, s': State, a: nat)
    requires a < |s.callers| && Batching(s.callers[a]) && BatchStep(s, s', a)
    ensures a < |s'.callers| && (s'.callers[a].Idle? || Submitting(s'.callers[a]))
  {
  }

  lemma TargetStays(s: State, s': State, a: nat)
    requires a < |s.callers| && Targets(s.callers[a]) && TargetStep(s, s', a)
    ensures a < |s'.callers| && (s'.callers[a].Idle? || s'.callers[a].KCountDown? || Targets(s'.callers[a]))
  {
  }

  /** A call stays the call it is until it returns. */
  lemma CallStays(s: State, s': State, a: nat)
    requires a < |s.callers| && CallerStep(s, s', a) && !s.callers[a].Idle?
    ensures a < |s'.callers|
    ensures s'.callers[a].Idle? || (Submitting(s.callers[a]) && Submitting(s'.callers[a])) ||
            (ShuttingDown(s.callers[a]) && ShuttingDown(s'.callers[a])) ||
            (Targets(s.callers[a]) && (Targets(s'.callers[a]) || s'.callers[a].KCountDown?))
  {
    var pc := s.callers[a];
    if Batching(pc) {
      BatchStays(s, s', a);
    } else if Submitting(pc) {
      SubmitStays(s, s', a);
    } else if Targets(pc) {
      TargetStays(s, s', a);
    }
  }

  // ---------------------------------------------------------------- the cancel-pending flag

  lemma CallerFlag(s: State, s': State, a: nat)
    requires a < |s.callers| && CallerStep(s, s', a)
    ensures s.cancelPending ==> s'.cancelPending
    ensures s'.cancelPending && !s.cancelPending ==> s.callers[a].DFlag? && s.callers[a].cancel
    ensures s.callers[a].DFlag? && s.callers[a].cancel ==> s'.cancelPending
  {
  }

  lemma FlagStep(r: seq<State>, n: nat) returns (a: nat)
    requires Run(r) && n + 1 < |r|
    ensures r[n].cancelPending ==> r[n + 1].cancelPending
    ensures r[n + 1].cancelPending && !r[n].cancelPending ==> Acts(r, n, a) && r[n].callers[a].DFlag? && r[n].callers[a].cancel
  {
    var s, s' := r[n], r[n + 1];
    a := 0;
    assert StepAt(r, n);
    if b :| 0 <= b < |s.callers| && CallerStep(s, s', b) {
      a := b;
      CallerFlag(s, s', b);
    }
  }

  lemma {:induction false} FlagStays(r: seq<State>, m: nat, n: nat)
    requires Run(r) && m <= n < |r| && r[m].cancelPending
    ensures r[n].cancelPending
  {
    if m < n {
      FlagStays(r, m, n - 1);
      var a := FlagStep(r, n - 1);
    }
  }

  /** A shutdown call that asks for it sets the flag, for good. */
  lemma ShutdownSetsFlag(r: seq<State>, k: nat, n: nat, a: nat)
    requires Run(r) && k < n < |r| && Acts(r, k, a) && r[k].callers[a].DFlag? && r[k].callers[a].cancel
    ensures r[n].cancelPending
  {
    CallerFlag(r[k], r[k + 1], a);
    FlagStays(r, k + 1, n);
  }

  /** Only such a call sets it: if the flag is set, some caller was in a shutdown call with `cancel_pending`. */
  lemma {:induction false} FlagFromCall(r: seq<State>, n: nat) returns (k: nat, a: nat)
    requires Run(r) && n < |r| && r[n].cancelPending
    ensures k < n && Acts(r, k, a) && r[k].callers[a].DFlag? && r[k].callers[a].cancel
  {
    if n == 0 {
      assert false;
    } else if r[n - 1].cancelPending {
      k, a := FlagFromCall(r, n - 1);
    } else {
      k := n - 1;
      a := FlagStep(r, n - 1);
    }
  }

  /** The caller at the flag entered shutdown with the same arguments. */
  lemma {:induction false} FlagCallBegan(r: seq<State>, k: nat, a: nat) returns (j: nat)
    requires Run(r) && k < |r| && a < |r[k].callers| && r[k].callers[a].DFlag?
    ensures j < k && a < |r[j].callers| && r[j].callers[a] == DGate(r[k].callers[a].wait, r[k].callers[a].cancel)
  {
    if k == 0 {
      assert false;
    } else {
      SameCallers(r, k - 1);
      OwnStepAt(r, k - 1, a);
      if r[k - 1].callers[a] == r[k].callers[a] {
        j := FlagCallBegan(r, k - 1, a);
      } else {
        IntoFlag(r[k - 1], r[k], a);
        j := k - 1;
      }
    }
  }

  lemma IntoFlag(s: State, s': State, a: nat)
    requires a < |s.callers| && a < |s'.callers| && CallerStep(s, s', a) && s'.callers[a].DFlag?
    ensures s.callers[a] == DGate(s'.callers[a].wait, s'.callers[a].cancel)
  {
    IntoShutdown(s, s', a);
    ShutdownOwn(s, s', a);
  }

  /** Past its first point a shutdown call is reached only from within. */
  lemma IntoShutdown(s: State, s': State, a: nat)
    requires a < |s.callers| && a < |s'.callers| && CallerStep(s, s', a)
    requires ShuttingDown(s'.callers[a]) && !s'.callers[a].DGate?
    ensures ShuttingDown(s.callers[a])
  {
    if s.callers[a].Idle? {
      BeginsAtTheStart(s, s', a);
    } else {
      CallKindsDiffer(s'.callers[a]);
      CallStays(s, s', a);
    }
  }

  lemma CallKindsDiffer(pc: CallerPc)
    requires ShuttingDown(pc)
    ensures !pc.Idle? && !Submitting(pc) && !Targets(pc) && !pc.KCountDown?
  {
  }

  lemma BeginsAtTheStart(s: State, s': State, a: nat)
    requires a < |s.callers| && s.callers[a].Idle? && BeginStep(s, s', a)
    ensures a < |s'.callers| && (ShuttingDown(s'.callers[a]) ==> s'.callers[a].DGate?)
  {
  }

  /** What one own step of a shutdown call does. */
  predicate ShutdownTurn(s: State, s': State, a: nat)
    requires a < |s.callers| && a < |s'.callers|
  {
    var pc' := s'.callers[a];
    match s.callers[a]
    case DGate(wait, cancel) => pc' == DFlag(wait, cancel)
    case DFlag(wait, cancel) => pc' == DClose(wait) && (cancel ==> s'.cancelPending)
    case DClose(wait) => pc' == DSwap(wait)
    case DSwap(wait) => pc'.DUnlock? && pc'.wait == wait && s'.shutdownStarted
    case DUnlock(wait, first) => pc' == if first then DSpawn(wait) else if wait then DWait else Idle
    case DSpawn(wait) => pc' == (if wait then DWait else Idle) && !s'.stopper.NotSpawned?
    case DWait => pc' == Idle && s'.stopper.Complete?
    case _ => false
  }

  lemma ShutdownOwn(s: State, s': State, a: nat)
    requires a < |s.callers| && ShuttingDown(s.callers[a]) && CallerStep(s, s', a)
    ensures a < |s'.callers| && ShutdownTurn(s, s', a)
  {
  }

  lemma SameCallers(r: seq<State>, n: nat)
    requires Run(r) && n + 1 < |r|
    ensures |r[n + 1].callers| == |r[n].callers|
  {
    RunInv(r, n);
    assert StepAt(r, n);
    var s, s' := r[n], r[n + 1];
    if w :| 0 <= w < |s.workers| && WorkerStep(s, s', w) {
      WorkerTouch(s, s', w, 0);
    } else if a :| 0 <= a < |s.callers| && CallerStep(s, s', a) {
      assert CallerOk(s, a);
      CallerTouch(s, s', a, 0);
    }
  }

  /** A task claimed after a shutdown call with `cancel_pending` has set the flag never becomes Completed or Failed and
      comes to rest Cancelled; an in-process one is never executed. */
  lemma ShutdownClaimGap(r: seq<State>, j: nat, a: nat, k: nat, n: nat, w: nat, i: nat)
    requires Run(r) && j < k < n < |r| && Acts(r, j, a) && r[j].callers[a].DFlag? && r[j].callers[a].cancel
    requires w < |r[k].workers| && i < |r[k].tasks| && r[k].workers[w].pc == Claim(i)
    requires r[k].tasks[i].life.status.Pending? && WorkerStep(r[k], r[k + 1], w)
    ensures i < |r[n].tasks| && !r[n].tasks[i].life.status.Completed? && !r[n].tasks[i].life.status.Failed?
    ensures !r[k].tasks[i].life.isolated ==> !Executes(r[n], i)
    ensures AtRest(r[n], i) ==> r[n].tasks[i].life.status.Cancelled?
  {
    ShutdownSetsFlag(r, j, k, a);
    LateClaim(r, k, n, w, i);
  }

  // ---------------------------------------------------------------- tasks that shutdown cancels

  /** Workers cancel for shutdown only under the flag. */
  ghost predicate FlagNeeded(s: State) {
    && (forall w | 0 <= w < |s.workers| :: s.workers[w].pc.ShutdownCas? || s.workers[w].pc.PostCas? ==> s.cancelPending)
    && (forall i | 0 <= i < |s.tasks| :: s.tasks[i].life.winner.Shutdown? ==> s.cancelPending)
  }

  lemma FlagNeededTask(flag: bool, pc: WorkerPc, t: Task, pc': WorkerPc, t': Task)
    requires Holds(pc) && WorkerTaskStep(flag, pc, t, pc', t')
    ensures pc'.ShutdownCas? || pc'.PostCas? ==> flag
    ensures t'.life.winner.Shutdown? ==> t.life.winner.Shutdown? || pc.ShutdownCas? || pc.PostCas? || Recording(pc)
  {
    if Claiming(pc) {
      FlagNeededClaim(flag, pc, t.life, pc', t'.life);
    } else if RunningBody(pc) {
      FlagNeededBody(pc, t.life, pc', t'.life);
    }
  }

  lemma FlagNeededClaim(flag: bool, pc: WorkerPc, l: Life, pc': WorkerPc, l': Life)
    requires Claiming(pc) && ClaimStep(flag, pc, l, pc', l')
    ensures pc'.ShutdownCas? || pc'.PostCas? ==> flag
    ensures l'.winner.Shutdown? ==> l.winner.Shutdown? || pc.ShutdownCas? || pc.PostCas?
  {
  }

  lemma FlagNeededBody(pc: WorkerPc, l: Life, pc': WorkerPc, l': Life)
    requires RunningBody(pc) && BodyStep(pc, l, pc', l')
    ensures !pc'.ShutdownCas? && !pc'.PostCas? && l'.winner == l.winner
  {
  }

  lemma FlagNeededWorker(s: State, s': State, w: nat)
    requires WorkersOk(s) && FlagNeeded(s) && w < |s.workers| && WorkerStep(s, s', w)
    ensures FlagNeeded(s')
  {
    if Holds(s.workers[w].pc) {
      var pc := s.workers[w].pc;
      assert WorkerOk(s, w);
      FlagNeededTask(s.cancelPending, pc, s.tasks[pc.id], s'.workers[w].pc, s'.tasks[pc.id]);
    }
  }

  lemma FlagNeededCaller(r: seq<State>, n: nat, a: nat)
    requires Run(r) && n + 1 < |r| && a < |r[n].callers| && CallerStep(r[n], r[n + 1], a) && FlagNeeded(r[n])
    ensures FlagNeeded(r[n + 1])
  {
    var s, s' := r[n], r[n + 1];
    CallerFlag(s, s', a);
    CallerWorkers(s, s', a);
    forall i | 0 <= i < |s'.tasks| ensures s'.tasks[i].life.winner.Shutdown? ==> s'.cancelPending {
      CallerWinner(r, n, a, i);
    }
  }

  lemma CallerWorkers(s: State, s': State, a: nat)
    requires a < |s.callers| && CallerStep(s, s', a)
    ensures s'.workers == s.workers
  {
  }

  /** A caller never makes shutdown the winner. */
  lemma CallerWinner(r: seq<State>, n: nat, a: nat, i: nat)
    requires Run(r) && n + 1 < |r| && a < |r[n].callers| && CallerStep(r[n], r[n + 1], a) && i < |r[n + 1].tasks|
    ensures r[n + 1].tasks[i].life.winner.Shutdown? ==> i < |r[n].tasks| && r[n].tasks[i].life.winner.Shutdown?
  {
    var s, s' := r[n], r[n + 1];
    TouchAt(r, n, a, i);
    if i >= |s.tasks| {
      NewTasks(s, s', a, i);
    } else if Targets(s.callers[a]) && s.callers[a].id == i {
      TargetWinner(a, s.callers[a], s.tasks[i], s'.callers[a], s'.tasks[i]);
    }
  }

  lemma TouchAt(r: seq<State>, n: nat, a: nat, i: nat)
    requires Run(r) && n + 1 < |r| && a < |r[n].callers| && CallerStep(r[n], r[n + 1], a)
    ensures Touched(r[n], r[n + 1], a, i)
  {
    RunInv(r, n);
    assert CallerOk(r[n], a);
    CallerTouch(r[n], r[n + 1], a, i);
  }

  lemma TargetWinner(a: nat, pc: CallerPc, t: Task, pc': CallerPc, t': Task)
    requires Targets(pc) && CallerTaskStep(a, pc, t, pc', t')
    ensures t'.life.winner == t.life.winner || t'.life.winner.Caller?
  {
    if Announcing(pc) {
      AnnounceWinner(a, pc, t.life, pc', t'.life);
    }
  }

  lemma AnnounceWinner(a: nat, pc: CallerPc, l: Life, pc': CallerPc, l': Life)
    requires Announcing(pc) && AnnounceStep(a, pc, l, pc', l')
    ensures l'.winner == l.winner || l'.winner.Caller?
  {
  }

  lemma NewTasks(s: State, s': State, a: nat, i: nat)
    requires a < |s.callers| && CallerStep(s, s', a) && |s.tasks| <= i < |s'.tasks|
    ensures s'.tasks[i].life.winner.NoWinner?
  {
    if Batching(s.callers[a]) {
      NewInBatch(s, s', a, i);
    }
  }

  lemma NewInBatch(s: State, s': State, a: nat, i: nat)
    requires a < |s.callers| && Batching(s.callers[a]) && BatchStep(s, s', a) && |s.tasks| <= i < |s'.tasks|
    ensures s'.tasks[i].life.winner.NoWinner?
  {
  }

  lemma {:induction false} FlagNeededAlways(r: seq<State>, n: nat)
    requires Run(r) && n < |r|
    ensures FlagNeeded(r[n])
  {
    if n > 0 {
      FlagNeededAlways(r, n - 1);
      FlagNeededStep(r, n - 1);
    }
  }

  lemma FlagNeededStep(r: seq<State>, n: nat)
    requires Run(r) && n + 1 < |r| && FlagNeeded(r[n])
    ensures FlagNeeded(r[n + 1])
  {
    var s, s' := r[n], r[n + 1];
    assert StepAt(r, n);
    if w :| 0 <= w < |s.workers| && WorkerStep(s, s', w) {
      RunInv(r, n);
      FlagNeededWorker(s, s', w);
    } else if a :| 0 <= a < |s.callers| && CallerStep(s, s', a) {
      FlagNeededCaller(r, n, a);
    }
  }

  /** A task that shutdown cancelled goes back to a shutdown call with `cancel_pending`. */
  lemma ShutdownCancelsOnRequest(r: seq<State>, n: nat, i: nat) returns (k: nat, a: nat)
    requires Run(r) && n < |r| && i < |r[n].tasks| && r[n].tasks[i].life.winner.Shutdown?
    ensures k < n && Acts(r, k, a) && r[k].callers[a].DFlag? && r[k].callers[a].cancel
  {
    FlagNeededAlways(r, n);
    k, a := FlagFromCall(r, n);
  }

  /** Every task at rest that nobody cancelled has run: it is Completed or Failed with the result of its own body. */
  lemma UncancelledTaskRan(r: seq<State>, n: nat, i: nat)
    requires Run(r) && n < |r| && AtRest(r[n], i) && r[n].tasks[i].life.winner.NoWinner?
    ensures var l := r[n].tasks[i].life;
      l.status == StatusFor(l.body) && !l.body.Absent? && l.result == l.body
  {
    RunInv(r, n);
    RestSettles(r[n], i);
    assert TaskOk(r[n].tasks[i]);
  }

  /** No body runs twice. */
  lemma BodyRunsOnce(r: seq<State>, j: nat, k: nat, i: nat, o: Outcome, p: Outcome)
    requires Run(r) && Returns(r, j, i, o) && Returns(r, k, i, p)
    ensures j == k
  {
    ReturnedOnce(r, j, k, i, o, p);
    ReturnedOnce(r, k, j, i, p, o);
  }

  lemma ReturnedOnce(r: seq<State>, j: nat, k: nat, i: nat, o: Outcome, p: Outcome)
    requires Run(r) && Returns(r, j, i, o) && Returns(r, k, i, p)
    ensures k <= j
  {
    if j < k {
      ReturnLeavesBody(r, j, i, o);
      RunCarries(r, j + 1, k, i);
      ExecutingHasNoBody(r, k, i);
    }
  }

  lemma ExecutingHasNoBody(r: seq<State>, k: nat, i: nat)
    requires Run(r) && k < |r| && exists w :: 0 <= w < |r[k].workers| && r[k].workers[w].pc == Executing(i)
    ensures i < |r[k].tasks| && r[k].tasks[i].life.body.Absent?
  {
    RunInv(r, k);
    var w :| 0 <= w < |r[k].workers| && r[k].workers[w].pc == Executing(i);
    assert WorkerOk(r[k], w);
  }

  lemma ReturnLeavesBody(r: seq<State>, j: nat, i: nat, o: Outcome)
    requires Run(r) && Returns(r, j, i, o)
    ensures i < |r[j + 1].tasks| && !r[j + 1].tasks[i].life.body.Absent?
  {
    var w :| 0 <= w < |r[j].workers| && w < |r[j + 1].workers| && r[j + 1].workers[w].pc == Store(i, o);
    StoreHasBody(r, j + 1, w, i, o);
  }

  lemma StoreHasBody(r: seq<State>, n: nat, w: nat, i: nat, o: Outcome)
    requires Run(r) && n < |r| && w < |r[n].workers| && r[n].workers[w].pc == Store(i, o)
    ensures i < |r[n].tasks| && !r[n].tasks[i].life.body.Absent?
  {
    RunInv(r, n);
    assert WorkerOk(r[n], w);
  }

  // ---------------------------------------------------------------- cancel_task

  predicate Cancelling(pc: CallerPc, i: nat) {
    (pc.CGet? || pc.CLoad? || pc.CLoop? || Announcing(pc)) && pc.id == i
  }

  /** At step `m` caller `a` exchanges the status of task `i` to Cancelled. */
  predicate WonAt(r: seq<State>, m: nat, a: nat, i: nat) {
    && m + 1 < |r| && i < |r[m].tasks| && i < |r[m + 1].tasks| && a < |r[m].callers| && a < |r[m + 1].callers|
    && r[m].callers[a].CLoop? && Cancelling(r[m].callers[a], i) && r[m + 1].callers[a].CCount?
    && (r[m].tasks[i].life.status.Pending? || (r[m].tasks[i].life.status.Running? && r[m].tasks[i].life.isolated))
    && r[m + 1].tasks[i].life.status.Cancelled?
    && r[m + 1].tasks[i].life.winner == Caller(a, r[m].tasks[i].life.status.Pending?, true)
  }

  /** At `j` there is nothing to cancel: the task is gone, has ended, or is running in-process. */
  predicate NothingToCancel(r: seq<State>, j: nat, i: nat) {
    && j < |r| && i < |r[j].tasks|
    && var t := r[j].tasks[i];
       !t.slot.inSlab || Terminal(t.life.status) || (t.life.status.Running? && !t.life.isolated)
  }

  predicate HadStatus(r: seq<State>, j: nat, i: nat, st: Status) {
    j < |r| && i < |r[j].tasks| && r[j].tasks[i].life.status == st
  }

  /** What one own step of a cancel call does. */
  predicate CancelTurn(s: State, s': State, a: nat, i: nat)
    requires a < |s.callers| && a < |s'.callers| && i < |s.tasks| == |s'.tasks|
  {
    var pc, pc', l := s.callers[a], s'.callers[a], s.tasks[i].life;
    match pc
    case CGet(_) => pc' == CLoad(i) || (pc' == Idle && !s.tasks[i].slot.inSlab)
    case CLoad(_) => pc' == CLoop(i, l.status)
    case CLoop(_, cur) =>
      || pc' == CLoop(i, l.status)
      || (pc' == Idle && (Terminal(cur) || (cur.Running? && !l.isolated)))
      || (pc'.CCount? && pc'.id == i && (l.status.Pending? || (l.status.Running? && l.isolated)) &&
          s'.tasks[i].life.status.Cancelled? && s'.tasks[i].life.winner == Caller(a, l.status.Pending?, true))
    case _ => Announcing(pc) && ((Announcing(pc') && pc'.id == i && !pc'.CCount?) || (pc' == Idle && s'.tasks[i].life.wrote))
  }

  lemma CancelOwnStep(s: State, s': State, a: nat, i: nat)
    requires a < |s.callers| && Cancelling(s.callers[a], i) && CallerOk(s, a) && CallerStep(s, s', a)
    ensures a < |s'.callers| && i < |s.tasks| == |s'.tasks| && CancelTurn(s, s', a, i)
  {
  }

  lemma CancelOwnAt(r: seq<State>, n: nat, a: nat, i: nat)
    requires Run(r) && n + 1 < |r| && a < |r[n].callers| && Cancelling(r[n].callers[a], i) && CallerStep(r[n], r[n + 1], a)
    ensures a < |r[n + 1].callers| && i < |r[n].tasks| == |r[n + 1].tasks| && CancelTurn(r[n], r[n + 1], a, i)
  {
    RunInv(r, n);
    assert CallerOk(r[n], a);
    CancelOwnStep(r[n], r[n + 1], a, i);
  }

  /** A caller inside a cancel call stays where it is or takes its turn. */
  lemma CancelAt(r: seq<State>, n: nat, a: nat, i: nat)
    requires Run(r) && n + 1 < |r| && a < |r[n].callers| && Cancelling(r[n].callers[a], i) && i < |r[n].tasks|
    ensures a < |r[n + 1].callers| && i < |r[n + 1].tasks|
    ensures r[n + 1].callers[a] == r[n].callers[a] || (|r[n].tasks| == |r[n + 1].tasks| && CancelTurn(r[n], r[n + 1], a, i))
  {
    OwnStepAt(r, n, a);
    CarriedAt(r, n, i);
    if r[n + 1].callers[a] != r[n].callers[a] {
      CancelOwnAt(r, n, a, i);
    }
  }

  /** Where a cancel call stands: it has looked in vain so far, or it has won. */
  predicate CancelProgress(r: seq<State>, k: nat, n: nat, a: nat, i: nat)
    requires n < |r| && a < |r[n].callers|
  {
    && i < |r[n].tasks| && Cancelling(r[n].callers[a], i)
    && (if Announcing(r[n].callers[a]) then exists m :: k <= m < n && WonAt(r, m, a, i)
        else forall m | k <= m < n :: !WonAt(r, m, a, i))
    && (r[n].callers[a].CLoop? ==> exists j :: k <= j < n && HadStatus(r, j, i, r[n].callers[a].cur))
  }

  lemma CancelAdvance(r: seq<State>, k: nat, n: nat, a: nat, i: nat)
    requires Run(r) && k <= n && n + 1 < |r| && a < |r[n].callers| && CancelProgress(r, k, n, a, i)
    ensures a < |r[n + 1].callers|
    ensures r[n + 1].callers[a].Idle? || CancelProgress(r, k, n + 1, a, i)
  {
    var pc := r[n].callers[a];
    CancelAt(r, n, a, i);
    if r[n + 1].callers[a] == pc {
      assert !WonAt(r, n, a, i);
      if Announcing(pc) {
        var m :| k <= m < n && WonAt(r, m, a, i);
        assert k <= m < n + 1 && WonAt(r, m, a, i);
      }
      if pc.CLoop? {
        var j :| k <= j < n && HadStatus(r, j, i, pc.cur);
        assert k <= j < n + 1 && HadStatus(r, j, i, pc.cur);
      }
    } else {
      CancelTaken(r, k, n, a, i);
    }
  }

  lemma CancelTaken(r: seq<State>, k: nat, n: nat, a: nat, i: nat)
    requires k <= n && n + 1 < |r| && a < |r[n].callers| && CancelProgress(r, k, n, a, i)
    requires a < |r[n + 1].callers| && i < |r[n].tasks| == |r[n + 1].tasks| && CancelTurn(r[n], r[n + 1], a, i)
    ensures r[n + 1].callers[a].Idle? || CancelProgress(r, k, n + 1, a, i)
  {
    var pc, pc' := r[n].callers[a], r[n + 1].callers[a];
    if pc'.CCount? {
      assert k <= n < n + 1 && WonAt(r, n, a, i);
    } else if Announcing(pc) {
      var m :| k <= m < n && WonAt(r, m, a, i);
      assert k <= m < n + 1 && WonAt(r, m, a, i);
    } else {
      assert !WonAt(r, n, a, i);
      if pc'.CLoop? {
        assert k <= n < n + 1 && HadStatus(r, n, i, pc'.cur);
      }
    }
  }

  lemma {:induction false} CancelTrace(r: seq<State>, k: nat, n: nat, a: nat, i: nat)
    requires Run(r) && InCall(r, k, n, a) && r[k].callers[a] == CGet(i)
    ensures CancelProgress(r, k, n, a, i)
  {
    if n == k {
      RunInv(r, k);
      assert CallerOk(r[k], a);
    } else {
      CancelTrace(r, k, n - 1, a, i);
      CancelAdvance(r, k, n - 1, a, i);
    }
  }

  /**
   * A cancel call either wins, and then the task is Cancelled with the cancelled result and the caller as winner when the
   * call returns, or it never wins, and then at some point of the call there was nothing to cancel.
   */
  lemma CancelDecides(r: seq<State>, k: nat, n: nat, a: nat, i: nat)
    requires Run(r) && k <= n && n + 1 < |r| && InCall(r, k, n, a) && r[k].callers[a] == CGet(i)
    requires a < |r[n + 1].callers| && r[n + 1].callers[a].Idle?
    ensures i < |r[n + 1].tasks|
    ensures
      || (exists m :: k <= m < n && WonAt(r, m, a, i) &&
            var l := r[n + 1].tasks[i].life;
            l.status.Cancelled? && l.result == CANCELLED_RESULT && l.winner.Caller? && l.winner.caller == a)
      || ((forall m | k <= m <= n :: !WonAt(r, m, a, i)) && exists j :: k <= j <= n && NothingToCancel(r, j, i))
  {
    CancelTrace(r, k, n, a, i);
    CancelAt(r, n, a, i);
    if Announcing(r[n].callers[a]) {
      var m :| k <= m < n && WonAt(r, m, a, i);
      WonForGood(r, m, n + 1, a, i);
    } else {
      assert !WonAt(r, n, a, i);
      CancelLost(r, k, n, a, i);
    }
  }

  lemma WonForGood(r: seq<State>, m: nat, n: nat, a: nat, i: nat)
    requires Run(r) && m < n < |r| && WonAt(r, m, a, i) && i < |r[n].tasks| && r[n].tasks[i].life.wrote
    ensures var l := r[n].tasks[i].life;
      l.status.Cancelled? && l.result == CANCELLED_RESULT && l.winner.Caller? && l.winner.caller == a
  {
    RunCarries(r, m + 1, n, i);
    WroteResult(r, n, i);
  }

  lemma WroteResult(r: seq<State>, n: nat, i: nat)
    requires Run(r) && n < |r| && i < |r[n].tasks| && r[n].tasks[i].life.wrote
    ensures r[n].tasks[i].life.status.Cancelled? && r[n].tasks[i].life.result == CANCELLED_RESULT
  {
    RunInv(r, n);
    assert TaskOk(r[n].tasks[i]);
  }

  lemma CancelLost(r: seq<State>, k: nat, n: nat, a: nat, i: nat)
    requires Run(r) && k <= n && n + 1 < |r| && a < |r[n].callers| && CancelProgress(r, k, n, a, i)
    requires !Announcing(r[n].callers[a])
    requires var s := r[n]; var pc := s.callers[a];
      (pc.CGet? && !s.tasks[i].slot.inSlab) ||
      (pc.CLoop? && (Terminal(pc.cur) || (pc.cur.Running? && !s.tasks[i].life.isolated)))
    ensures exists j :: k <= j <= n && NothingToCancel(r, j, i)
  {
    if r[n].callers[a].CGet? {
      assert NothingToCancel(r, n, i);
    } else {
      var j :| k <= j < n && HadStatus(r, j, i, r[n].callers[a].cur);
      RunCarries(r, j, n, i);
      assert NothingToCancel(r, j, i);
    }
  }

  /** A cancel call that finds the task Pending at every look before it wins does cancel it. */
  lemma PendingIsCancelled(r: seq<State>, k: nat, n: nat, a: nat, i: nat)
    requires Run(r) && k <= n && n + 1 < |r| && InCall(r, k, n, a) && r[k].callers[a] == CGet(i)
    requires a < |r[n + 1].callers| && r[n + 1].callers[a].Idle?
    requires forall j | k <= j <= n && (forall m | k <= m < j :: !WonAt(r, m, a, i)) :: HadStatus(r, j, i, Pending)
    ensures i < |r[n + 1].tasks|
    ensures var l := r[n + 1].tasks[i].life;
      l.status.Cancelled? && l.result == CANCELLED_RESULT && l.winner.Caller? && l.winner.caller == a
  {
    CancelDecides(r, k, n, a, i);
    if forall m | k <= m <= n :: !WonAt(r, m, a, i) {
      var j :| k <= j <= n && NothingToCancel(r, j, i);
      assert HadStatus(r, j, i, Pending);
      PendingIsInSlab(r, k, j, a, i);
    }
  }

  lemma PendingIsInSlab(r: seq<State>, k: nat, j: nat, a: nat, i: nat)
    requires Run(r) && k <= j < |r| && a < |r[k].callers| && r[k].callers[a] == CGet(i) && HadStatus(r, j, i, Pending)
    ensures r[j].tasks[i].slot.inSlab
  {
    RunInv(r, k);
    assert CallerOk(r[k], a);
    RunCarries(r, k, j, i);
    RunInv(r, j);
    assert TaskOk(r[j].tasks[i]);
  }

  // ---------------------------------------------------------------- shutdown_engine

  /** Where a shutdown call with these arguments stands. */
  predicate ShutdownProgress(s: State, a: nat, wait: bool, cancel: bool)
    requires a < |s.callers|
  {
    match s.callers[a]
    case DGate(w, c) => w == wait && c == cancel
    case DFlag(w, c) => w == wait && c == cancel
    case DClose(w) => w == wait && (cancel ==> s.cancelPending)
    case DSwap(w) => w == wait && (cancel ==> s.cancelPending)
    case DUnlock(w, _) => w == wait && (cancel ==> s.cancelPending) && s.shutdownStarted
    case DSpawn(w) => w == wait && (cancel ==> s.cancelPending) && s.shutdownStarted
    case DWait => wait && (cancel ==> s.cancelPending) && s.shutdownStarted
    case _ => false
  }

  lemma CallerStarted(s: State, s': State, a: nat)
    requires a < |s.callers| && CallerStep(s, s', a) && s.shutdownStarted
    ensures s'.shutdownStarted
  {
  }

  lemma StartedStays(r: seq<State>, n: nat)
    requires Run(r) && n + 1 < |r| && r[n].shutdownStarted
    ensures r[n + 1].shutdownStarted
  {
    var s, s' := r[n], r[n + 1];
    assert StepAt(r, n);
    if a :| 0 <= a < |s.callers| && CallerStep(s, s', a) {
      CallerStarted(s, s', a);
    }
  }

  /** A caller inside a shutdown call stays where it is or takes its turn, and the flags stay up. */
  lemma ShutdownAt(r: seq<State>, n: nat, a: nat)
    requires Run(r) && n + 1 < |r| && a < |r[n].callers| && ShuttingDown(r[n].callers[a])
    ensures a < |r[n + 1].callers|
    ensures r[n + 1].callers[a] == r[n].callers[a] || ShutdownTurn(r[n], r[n + 1], a)
    ensures (r[n].cancelPending ==> r[n + 1].cancelPending) && (r[n].shutdownStarted ==> r[n + 1].shutdownStarted)
  {
    var b := FlagStep(r, n);
    if r[n].shutdownStarted {
      StartedStays(r, n);
    }
    OwnStepAt(r, n, a);
    if r[n + 1].callers[a] != r[n].callers[a] {
      ShutdownOwn(r[n], r[n + 1], a);
    }
  }

  lemma {:induction false} ShutdownTrace(r: seq<State>, k: nat, n: nat, a: nat, wait: bool, cancel: bool)
    requires Run(r) && InCall(r, k, n, a) && r[k].callers[a] == DGate(wait, cancel)
    ensures ShutdownProgress(r[n], a, wait, cancel)
  {
    if n > k {
      ShutdownTrace(r, k, n - 1, a, wait, cancel);
      ShutdownAt(r, n - 1, a);
    }
  }

  /**
   * When a shutdown call returns the engine takes no more submissions, the cancel-pending flag is set if the call asked
   * for it, and a call that waits returns only when shutdown is complete.
   */
  lemma ShutdownReturns(r: seq<State>, k: nat, n: nat, a: nat, wait: bool, cancel: bool)
    requires Run(r) && k <= n && n + 1 < |r| && InCall(r, k, n, a) && r[k].callers[a] == DGate(wait, cancel)
    requires a < |r[n + 1].callers| && r[n + 1].callers[a].Idle?
    ensures r[n + 1].shutdownStarted && r[n + 1].adm.closed
    ensures (cancel ==> r[n + 1].cancelPending) && (wait ==> r[n + 1].stopper.Complete?)
  {
    ShutdownTrace(r, k, n, a, wait, cancel);
    ShutdownAt(r, n, a);
    RunInv(r, n + 1);
  }

  /** The first shutdown call has not yet started the shutdown thread. */
  predicate AboutToSpawn(s: State) {
    && s.spawner.Some? && s.spawner.value < |s.callers|
    && var pc := s.callers[s.spawner.value]; (pc.DUnlock? && pc.first) || pc.DSpawn?
  }

  predicate SpawnOwed(s: State) {
    s.shutdownStarted && s.stopper.NotSpawned? ==> AboutToSpawn(s)
  }

  lemma CallerKeepsStopper(s: State, s': State, a: nat)
    requires a < |s.callers| && CallerStep(s, s', a) && !s.callers[a].DSwap? && !s.callers[a].DSpawn?
    ensures s'.stopper == s.stopper && s'.spawner == s.spawner && s'.shutdownStarted == s.shutdownStarted
  {
    if Batching(s.callers[a]) {
      BatchKeepsStopper(s, s', a);
    } else if Reserving(s.callers[a]) {
      ReserveKeepsStopper(s, s', a);
    } else if Targets(s.callers[a]) {
      TargetKeepsStopper(s, s', a);
    }
  }

  lemma BatchKeepsStopper(s: State, s': State, a: nat)
    requires a < |s.callers| && Batching(s.callers[a]) && BatchStep(s, s', a)
    ensures s'.stopper == s.stopper && s'.spawner == s.spawner && s'.shutdownStarted == s.shutdownStarted
  {
  }

  lemma ReserveKeepsStopper(s: State, s': State, a: nat)
    requires a < |s.callers| && Reserving(s.callers[a]) && ReserveStep(s, s', a)
    ensures s'.stopper == s.stopper && s'.spawner == s.spawner && s'.shutdownStarted == s.shutdownStarted
  {
  }

  lemma TargetKeepsStopper(s: State, s': State, a: nat)
    requires a < |s.callers| && Targets(s.callers[a]) && TargetStep(s, s', a)
    ensures s'.stopper == s.stopper && s'.spawner == s.spawner && s'.shutdownStarted == s.shutdownStarted
  {
  }

  lemma SwapSpawn(s: State, s': State, a: nat)
    requires a < |s.callers| && s.callers[a].DSwap? && ShutdownStep(s, s', a) && SpawnOwed(s)
    ensures SpawnOwed(s')
  {
  }

  /** Only the spawning caller moves, if it is the one, and then towards the spawn. */
  lemma CallerSpawn(s: State, s': State, a: nat)
    requires a < |s.callers| == |s'.callers| && s'.callers == s.callers[a := s'.callers[a]] && SpawnOwed(s)
    requires CallerStep(s, s', a)
    ensures SpawnOwed(s')
  {
    if s.callers[a].DSwap? {
      SwapSpawn(s, s', a);
    } else if s.callers[a].DSpawn? {
      ShutdownOwn(s, s', a);
    } else {
      CallerKeepsStopper(s, s', a);
      if s.callers[a].DUnlock? {
        ShutdownOwn(s, s', a);
      }
    }
  }

  lemma {:induction false} ShutdownSpawns(r: seq<State>, n: nat)
    requires Run(r) && n < |r|
    ensures r[n].shutdownStarted && r[n].stopper.NotSpawned? ==> AboutToSpawn(r[n])
  {
    if n > 0 {
      ShutdownSpawns(r, n - 1);
      SpawnStep(r, n - 1);
    }
  }

  lemma SpawnStep(r: seq<State>, n: nat)
    requires Run(r) && n + 1 < |r| && SpawnOwed(r[n])
    ensures SpawnOwed(r[n + 1])
  {
    var s, s' := r[n], r[n + 1];
    assert StepAt(r, n);
    if w :| 0 <= w < |s.workers| && WorkerStep(s, s', w) {
      WorkerTouch(s, s', w, 0);
      WorkerKeepsStopper(s, s', w);
    } else if a :| 0 <= a < |s.callers| && CallerStep(s, s', a) {
      TouchAt(r, n, a, 0);
      CallerSpawn(s, s', a);
    }
  }

  lemma WorkerKeepsStopper(s: State, s': State, w: nat)
    requires w < |s.workers| && WorkerStep(s, s', w)
    ensures s'.stopper == s.stopper && s'.spawner == s.spawner && s'.shutdownStarted == s.shutdownStarted
  {
  }

  // ---------------------------------------------------------------- submissions

  function SizeOf(pc: CallerPc): nat
    requires Submitting(pc)
  {
    pc.k
  }

  /** A submission that has not failed so far. */
  predicate Hopeful(pc: CallerPc) {
    pc.SCheckStarted? || pc.SCheckClosed? || pc.SReserve? || pc.SWaiting? || Entering(pc) || pc.SInsert? || pc.SCount? || pc.SSend?
  }

  /** What one own step of a submission does. */
  predicate SubmitTurn(s: State, s': State, a: nat)
    requires a < |s.callers| && a < |s'.callers|
  {
    var pc', c, c' := s'.callers[a], s.counts, s'.counts;
    match s.callers[a]
    case SCheckStarted(k, iso) => if s.shutdownStarted then pc' == Idle && c' == c else pc' == SCheckClosed(k, iso)
    case SCheckClosed(k, iso) => if s.adm.closed then pc' == Idle && c' == c else pc' == SReserve(k, iso)
    case SReserve(k, iso) => Section(s.adm, pc', k, iso)
    case SWaiting(k, iso, _) => Section(s.adm, pc', k, iso)
    case SFailed(k) => pc' == Idle && c' == c.(rejected := c.rejected + if s.adm.closed then 0 else k)
    case SBuild(k, iso) => pc' == SGate(k, iso) || pc' == SRelease(k, false, false)
    case SGate(k, iso) => pc' == SCheck(k, iso)
    case SCheck(k, iso) => pc' == if s.shutdownStarted then SRelease(k, true, false) else SInsert(k, iso, [])
    case SInsert(k, iso, ids) =>
      if |ids| >= k then pc' == SSend(k, iso, ids, 0)
      else (pc'.SCount? && pc'.k == k && pc'.iso == iso) || pc' == SUndo(k, iso, ids, 0)
    case SCount(k, iso, ids) => pc' == SInsert(k, iso, ids)
    case SSend(k, iso, ids, n) =>
      || (n < |ids| && pc' == SSend(k, iso, ids, n + 1) && SentAs(s', ids[n], iso))
      || (n == |ids| == k && pc' == Idle && c' == c.(submitted := c.submitted + k))
    case SUndo(k, _, _, _) => (pc'.SUndo? || pc'.SUndoCount?) && pc'.k == k
    case SUndoCount(k, _) => pc' == SRelease(k, true, true)
    case SRelease(k, gate, reject) => pc' == (if reject then SReject(k, gate) else Idle) && c' == c
    case SReject(k, _) => pc' == Idle && c' == c.(rejected := c.rejected + k)
    case _ => false
  }

  /** A reservation under the lock: granted when it can be, refused or put to sleep only when it cannot. */
  predicate Section(m: Admission, pc': CallerPc, k: nat, iso: bool) {
    if k <= m.capacity && !m.closed && k <= m.available then pc' == SBuild(k, iso)
    else pc' == SFailed(k) || (pc'.SWaiting? && pc'.k == k && pc'.iso == iso && !m.closed && k <= m.capacity)
  }

  predicate SentAs(s: State, i: nat, iso: bool) {
    i < |s.tasks| && Sent(s.tasks[i].owner) && s.tasks[i].life.isolated == iso
  }

  lemma ReserveOwn(s: State, s': State, a: nat)
    requires a < |s.callers| && Reserving(s.callers[a]) && ReserveStep(s, s', a) && s.adm.available <= s.adm.capacity
    ensures a < |s'.callers| && SubmitTurn(s, s', a)
  {
  }

  lemma EnterOwn(s: State, s': State, a: nat)
    requires a < |s.callers| && (Entering(s.callers[a]) || Backing(s.callers[a])) && CallerStep(s, s', a)
    ensures a < |s'.callers| && SubmitTurn(s, s', a)
  {
  }

  lemma SendOwn(s: State, s': State, a: nat)
    requires Permits(s) && StopsOk(s) && QueueOk(s, false) && QueueOk(s, true)
    requires a < |s.callers| && CallerOk(s, a) && s.callers[a].SSend? && BatchStep(s, s', a)
    ensures a < |s'.callers| && SubmitTurn(s, s', a)
  {
    var pc := s.callers[a];
    if pc.n < |pc.ids| {
      assert OwnsUnsent(s, a, pc.iso, pc.ids[pc.n], true);
      SendAccepted(s, a);
    }
  }

  lemma InsertOwn(s: State, s': State, a: nat)
    requires a < |s.callers| && Batching(s.callers[a]) && !s.callers[a].SSend? && BatchStep(s, s', a)
    ensures a < |s'.callers| && SubmitTurn(s, s', a)
  {
  }

  lemma SubmitOwn(r: seq<State>, n: nat, a: nat)
    requires Run(r) && n + 1 < |r| && a < |r[n].callers| && Submitting(r[n].callers[a]) && CallerStep(r[n], r[n + 1], a)
    ensures a < |r[n + 1].callers| && SubmitTurn(r[n], r[n + 1], a)
  {
    var s, s' := r[n], r[n + 1];
    RunInv(r, n);
    if Reserving(s.callers[a]) {
      ReserveOwn(s, s', a);
    } else if s.callers[a].SSend? {
      assert CallerOk(s, a);
      SendOwn(s, s', a);
    } else if Batching(s.callers[a]) {
      InsertOwn(s, s', a);
    } else {
      EnterOwn(s, s', a);
    }
  }

  lemma SubmitAt(r: seq<State>, n: nat, a: nat)
    requires Run(r) && n + 1 < |r| && a < |r[n].callers| && Submitting(r[n].callers[a])
    ensures a < |r[n + 1].callers| && (r[n + 1].callers[a] == r[n].callers[a] || SubmitTurn(r[n], r[n + 1], a))
  {
    OwnStepAt(r, n, a);
    if r[n + 1].callers[a] != r[n].callers[a] {
      SubmitOwn(r, n, a);
    }
  }

  /**
   * A cause for turning a submission of `k` tasks away: the engine is shutting down, the reservation found too few
   * permits, the task factory failed, or the slab was full.
   */
  predicate TurnedAway(r: seq<State>, j: nat, a: nat, k: nat) {
    && j + 1 < |r| && a < |r[j].callers| && a < |r[j + 1].callers|
    && var pc, pc' := r[j].callers[a], r[j + 1].callers[a];
       || r[j].shutdownStarted || r[j].adm.closed
       || ((pc.SReserve? || pc.SWaiting?) && pc'.SFailed? && (k > r[j].adm.capacity || r[j].adm.available < k))
       || (pc.SBuild? && pc'.SRelease?)
       || (pc.SInsert? && pc'.SUndo?)
  }

  /** Where a submission stands. */
  predicate SubmitProgress(r: seq<State>, j: nat, n: nat, a: nat, k: nat, iso: bool)
    requires n < |r| && a < |r[n].callers|
  {
    var pc := r[n].callers[a];
    && Submitting(pc) && SizeOf(pc) == k
    && (if Hopeful(pc) then pc.iso == iso else exists m :: j <= m < n && TurnedAway(r, m, a, k))
    && (pc.SSend? ==> pc.n <= |pc.ids| && forall x | 0 <= x < pc.n :: SentAs(r[n], pc.ids[x], iso))
  }

  lemma SentStays(r: seq<State>, n: nat, i: nat, iso: bool)
    requires Run(r) && n + 1 < |r| && SentAs(r[n], i, iso)
    ensures SentAs(r[n + 1], i, iso)
  {
    CarriedAt(r, n, i);
  }

  lemma SubmitTaken(r: seq<State>, j: nat, n: nat, a: nat, k: nat, iso: bool)
    requires j <= n && n + 1 < |r| && a < |r[n].callers| && SubmitProgress(r, j, n, a, k, iso)
    requires a < |r[n + 1].callers| && SubmitTurn(r[n], r[n + 1], a)
    requires forall i {:trigger SentAs(r[n], i, iso)} :: SentAs(r[n], i, iso) ==> SentAs(r[n + 1], i, iso)
    ensures r[n + 1].callers[a].Idle? || SubmitProgress(r, j, n + 1, a, k, iso)
  {
    var pc, pc' := r[n].callers[a], r[n + 1].callers[a];
    if Hopeful(pc) {
      if !Hopeful(pc') && !pc'.Idle? {
        assert j <= n < n + 1 && TurnedAway(r, n, a, k);
      }
    } else {
      var m :| j <= m < n && TurnedAway(r, m, a, k);
      assert j <= m < n + 1 && TurnedAway(r, m, a, k);
    }
  }

  lemma SubmitAdvance(r: seq<State>, j: nat, n: nat, a: nat, k: nat, iso: bool)
    requires Run(r) && j <= n && n + 1 < |r| && a < |r[n].callers| && SubmitProgress(r, j, n, a, k, iso)
    ensures a < |r[n + 1].callers|
    ensures r[n + 1].callers[a].Idle? || SubmitProgress(r, j, n + 1, a, k, iso)
  {
    SubmitAt(r, n, a);
    forall i | SentAs(r[n], i, iso) ensures SentAs(r[n + 1], i, iso) {
      SentStays(r, n, i, iso);
    }
    if r[n + 1].callers[a] != r[n].callers[a] {
      SubmitTaken(r, j, n, a, k, iso);
    } else if !Hopeful(r[n].callers[a]) {
      var m :| j <= m < n && TurnedAway(r, m, a, k);
      assert j <= m < n + 1 && TurnedAway(r, m, a, k);
    }
  }

  lemma {:induction false} SubmitTrace(r: seq<State>, j: nat, n: nat, a: nat, k: nat, iso: bool)
    requires Run(r) && InCall(r, j, n, a) && r[j].callers[a] == SCheckStarted(k, iso)
    ensures SubmitProgress(r, j, n, a, k, iso)
  {
    if n > j {
      SubmitTrace(r, j, n - 1, a, k, iso);
      SubmitAdvance(r, j, n - 1, a, k, iso);
    }
  }

  /** The call ended with its whole batch sent to the pool it asked for and counted as submitted. */
  predicate Accepted(r: seq<State>, n: nat, a: nat, k: nat, iso: bool) {
    && n + 1 < |r| && a < |r[n].callers| && r[n].callers[a].SSend?
    && var ids := r[n].callers[a].ids;
       && |ids| == k && Increasing(ids) && (forall x | 0 <= x < k :: SentAs(r[n + 1], ids[x], iso))
       && r[n + 1].counts == r[n].counts.(submitted := r[n].counts.submitted + k)
  }

  /**
   * A submission that returns was accepted as a whole, or it was turned away for a cause that arose during the
   * call; then nothing is counted as submitted, and the batch is counted as rejected exactly when the reservation
   * or the slab refused it.
   */
  lemma SubmissionDecides(r: seq<State>, j: nat, n: nat, a: nat, k: nat, iso: bool)
    requires Run(r) && j <= n && n + 1 < |r| && InCall(r, j, n, a) && r[j].callers[a] == SCheckStarted(k, iso)
    requires a < |r[n + 1].callers| && r[n + 1].callers[a].Idle?
    ensures
      || Accepted(r, n, a, k, iso)
      || ((exists m :: j <= m <= n && TurnedAway(r, m, a, k)) &&
          var pc, c := r[n].callers[a], r[n].counts;
          r[n + 1].counts == c.(rejected := c.rejected + if pc.SReject? || (pc.SFailed? && !r[n].adm.closed) then k else 0))
  {
    SubmitTrace(r, j, n, a, k, iso);
    SubmitAt(r, n, a);
    var pc := r[n].callers[a];
    if pc.SSend? {
      AcceptedWhole(r, n, a, k, iso);
    } else if Hopeful(pc) {
      assert TurnedAway(r, n, a, k);
    }
  }

  lemma AcceptedWhole(r: seq<State>, n: nat, a: nat, k: nat, iso: bool)
    requires Run(r) && n + 1 < |r| && a < |r[n].callers| && r[n].callers[a].SSend? && a < |r[n + 1].callers|
    requires r[n + 1].callers[a].Idle? && SubmitTurn(r[n], r[n + 1], a) && r[n].callers[a].k == k
    requires forall x | 0 <= x < r[n].callers[a].n :: x < |r[n].callers[a].ids| && SentAs(r[n], r[n].callers[a].ids[x], iso)
    ensures Accepted(r, n, a, k, iso)
  {
    RunInv(r, n);
    assert CallerOk(r[n], a);
    forall x | 0 <= x < k ensures SentAs(r[n + 1], r[n].callers[a].ids[x], iso) {
      SentStays(r, n, r[n].callers[a].ids[x], iso);
    }
  }
}
