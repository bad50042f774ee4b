/** What every run of the engine guarantees. */
module EngineTheorems {
  import opened Sums
  import opened Engine
  import opened EngineInv
  import opened EngineProof
  import opened EngineSubmit
  import opened EngineRun

  // ---------------------------------------------------------------- admission

  /** No permit is lost or made: what is available, held by submissions, queued or just popped is the capacity. */
  lemma PermitConservation(r: seq<State>, n: nat)
    requires Run(r) && n < |r|
    ensures var s := r[n];
      s.adm.available + Sum(HeldPermits, s.callers) + Sum(IsId, s.inQueue) + Sum(IsId, s.isoQueue) + Sum(InHand, s.workers)
        == s.adm.capacity
  {
    RunInv(r, n);
  }

  /** Hence the clipping in `release` never clips, for the worker that popped an id... */
  lemma WorkerReleaseNeverClips(r: seq<State>, n: nat, w: nat)
    requires Run(r) && n < |r| && w < |r[n].workers| && r[n].workers[w].pc.Popped?
    ensures Release(r[n].adm, 1).available == r[n].adm.available + 1
  {
    RunInv(r, n);
    SumAtLeast(InHand, r[n].workers, w);
  }

  /** ...and for a submission that gives its permits back. */
  lemma CallerReleaseNeverClips(r: seq<State>, n: nat, a: nat)
    requires Run(r) && n < |r| && a < |r[n].callers| && r[n].callers[a].SRelease?
    ensures Release(r[n].adm, r[n].callers[a].k).available == r[n].adm.available + r[n].callers[a].k
  {
    RunInv(r, n);
    NoClip(r[n], a);
  }

  /** `try_send` reports neither Full nor Disconnected. */
  lemma SendNeverRefused(r: seq<State>, n: nat, a: nat)
    requires Run(r) && n < |r| && a < |r[n].callers|
    requires r[n].callers[a].SSend? && r[n].callers[a].n < |r[n].callers[a].ids|
    ensures !SendRefused(r[n], r[n].callers[a].iso)
  {
    RunInv(r, n);
    assert CallerOk(r[n], a);
    SendAccepted(r[n], a);
  }

  /** A step leaves task `i` as it is, except for its place in the pipeline. */
  predicate Untouched(s: State, s': State, i: nat) {
    && i < |s.tasks| && i < |s'.tasks|
    && s'.tasks[i].life == s.tasks[i].life && s'.tasks[i].slot.closed == s.tasks[i].slot.closed
    && (Sent(s.tasks[i].owner) ==> Sent(s'.tasks[i].owner))
  }

  lemma SendTouch(s: State, s': State, a: nat, i: nat)
    requires Permits(s) && StopsOk(s) && QueueOk(s, false) && QueueOk(s, true)
    requires a < |s.callers| && CallerOk(s, a) && s.callers[a].SSend? && BatchStep(s, s', a)
    ensures |s'.callers| == |s.callers| && s'.callers == s.callers[a := s'.callers[a]]
    ensures if i < |s.tasks| then Untouched(s, s', i) else i >= |s'.tasks|
    ensures s'.adm == s.adm
  {
    var pc := s.callers[a];
    if pc.n < |pc.ids| {
      assert OwnsUnsent(s, a, pc.iso, pc.ids[pc.n], true);
      SendAccepted(s, a);
    }
  }

  lemma UndoTouch(s: State, s': State, a: nat, i: nat)
    requires a < |s.callers| && CallerOk(s, a) && s.callers[a].SUndo? && BatchStep(s, s', a)
    ensures |s'.callers| == |s.callers| && s'.callers == s.callers[a := s'.callers[a]]
    ensures if i < |s.tasks| then Untouched(s, s', i) else i >= |s'.tasks|
    ensures s'.adm == s.adm
  {
    var pc := s.callers[a];
    if pc.n < |pc.ids| {
      assert OwnsUnsent(s, a, pc.iso, pc.ids[pc.n], true);
    }
  }

  lemma BatchTouch(s: State, s': State, a: nat, i: nat)
    requires Permits(s) && StopsOk(s) && QueueOk(s, false) && QueueOk(s, true)
    requires a < |s.callers| && CallerOk(s, a) && Batching(s.callers[a]) && BatchStep(s, s', a)
    ensures |s'.callers| == |s.callers| && s'.callers == s.callers[a := s'.callers[a]]
    ensures if i < |s.tasks| then Untouched(s, s', i) else i < |s'.tasks| ==> s'.tasks[i].life.body.Absent?
    ensures s'.adm == s.adm
  {
    var pc := s.callers[a];
    if pc.SSend? {
      SendTouch(s, s', a, i);
    } else if pc.SUndo? {
      UndoTouch(s, s', a, i);
    }
  }

  lemma OutsideTouch(s: State, s': State, a: nat, i: nat)
    requires Permits(s) && a < |s.callers| && CallerOk(s, a) && CallerStep(s, s', a)
    requires !Targets(s.callers[a]) && !Batching(s.callers[a])
    ensures |s'.callers| == |s.callers| && s'.callers == s.callers[a := s'.callers[a]]
    ensures s'.tasks == s.tasks && (s.adm.closed ==> s'.adm.closed)
  {
    if !s.callers[a].DSwap? && !s.callers[a].DSpawn? {
      CallerQuiet(s, s', a);
    }
  }

  lemma TargetTouch(s: State, s': State, a: nat, i: nat)
    requires a < |s.callers| && Targets(s.callers[a]) && TargetStep(s, s', a)
    ensures |s'.callers| == |s.callers| && s'.callers == s.callers[a := s'.callers[a]]
    ensures if i < |s.tasks| then s.callers[a].id == i || Untouched(s, s', i) else i >= |s'.tasks|
    ensures s'.adm == s.adm
  {
    TargetNumbers(s, s', a);
  }

  /** A caller's step moves that caller and at most its own task. */
  predicate Touched(s: State, s': State, a: nat, i: nat)
    requires a < |s.callers|
  {
    && |s'.callers| == |s.callers| && s'.callers == s.callers[a := s'.callers[a]]
    && (if i < |s.tasks| then (Targets(s.callers[a]) && s.callers[a].id == i) || Untouched(s, s', i)
        else i < |s'.tasks| ==> s'.tasks[i].life.body.Absent?)
    && (s.adm.closed ==> s'.adm.closed)
  }

  lemma SubmitTouch(s: State, s': State, a: nat, i: nat)
    requires Permits(s) && StopsOk(s) && QueueOk(s, false) && QueueOk(s, true)
    requires a < |s.callers| && CallerOk(s, a) && !Targets(s.callers[a]) && CallerStep(s, s', a)
    ensures Touched(s, s', a, i)
  {
    if Batching(s.callers[a]) {
      BatchTouch(s, s', a, i);
    } else {
      OutsideTouch(s, s', a, i);
    }
  }

  lemma CallerTouch(s: State, s': State, a: nat, i: nat)
    requires Permits(s) && StopsOk(s) && QueueOk(s, false) && QueueOk(s, true)
    requires a < |s.callers| && CallerOk(s, a) && CallerStep(s, s', a)
    ensures Touched(s, s', a, i)
  {
    var pc := s.callers[a];
    if Targets(pc) {
      TargetTouch(s, s', a, i);
    } else {
      SubmitTouch(s, s', a, i);
    }
  }

  lemma WorkerTouch(s: State, s': State, w: nat, i: nat)
    requires w < |s.workers| && WorkerStep(s, s', w)
    ensures i < |s.tasks| ==> (Holds(s.workers[w].pc) && s.workers[w].pc.id == i) || Untouched(s, s', i)
    ensures s'.callers == s.callers && s'.adm.closed == s.adm.closed
  {
    if Holds(s.workers[w].pc) {
      HoldKeepsFrame(s, s', w);
    }
  }

  /** Only a caller's own step moves it. */
  lemma OwnStepOnly(s: State, s': State, a: nat)
    requires Inv(s) && a < |s.callers| && Next(s, s')
    ensures a < |s'.callers| && (s'.callers[a] == s.callers[a] || CallerStep(s, s', a))
  {
    if w :| 0 <= w < |s.workers| && WorkerStep(s, s', w) {
      WorkerTouch(s, s', w, 0);
    } else if b :| 0 <= b < |s.callers| && CallerStep(s, s', b) {
      assert CallerOk(s, b);
      CallerTouch(s, s', b, 0);
    }
  }

  lemma SendMoves(s: State, s': State, a: nat)
    requires Permits(s) && StopsOk(s) && QueueOk(s, false) && QueueOk(s, true)
    requires a < |s.callers| && CallerOk(s, a) && s.callers[a].SSend? && BatchStep(s, s', a)
    ensures a < |s'.callers|
    ensures var pc, pc' := s.callers[a], s'.callers[a];
      || pc' == SSend(pc.k, pc.iso, pc.ids, pc.n + 1)
      || (pc' == Idle && pc.n == |pc.ids| == pc.k && s'.counts.submitted == s.counts.submitted + pc.k)
  {
    if s.callers[a].n < |s.callers[a].ids| {
      SendAccepted(s, a);
    }
  }

  lemma SendMovesAt(r: seq<State>, n: nat, a: nat)
    requires Run(r) && n + 1 < |r| && a < |r[n].callers| && r[n].callers[a].SSend? && CallerStep(r[n], r[n + 1], a)
    ensures a < |r[n + 1].callers|
    ensures var pc, pc' := r[n].callers[a], r[n + 1].callers[a];
      || pc' == SSend(pc.k, pc.iso, pc.ids, pc.n + 1)
      || (pc' == Idle && pc.n == |pc.ids| == pc.k && r[n + 1].counts.submitted == r[n].counts.submitted + pc.k)
  {
    RunInv(r, n);
    assert CallerOk(r[n], a);
    SendMoves(r[n], r[n + 1], a);
  }

  lemma OwnStepAt(r: seq<State>, n: nat, a: nat)
    requires Run(r) && n + 1 < |r| && a < |r[n].callers|
    ensures a < |r[n + 1].callers| && (r[n + 1].callers[a] == r[n].callers[a] || CallerStep(r[n], r[n + 1], a))
  {
    RunInv(r, n);
    assert StepAt(r, n);
    OwnStepOnly(r[n], r[n + 1], a);
  }

  /** Batches are all or nothing: a batch that has begun to send is never undone, it ends with all `k` ids
      queued and all `k` counted as submitted. */
  lemma BatchAllOrNothing(r: seq<State>, n: nat, a: nat)
    requires Run(r) && n + 1 < |r| && a < |r[n].callers| && r[n].callers[a].SSend?
    ensures a < |r[n + 1].callers|
    ensures var pc, pc' := r[n].callers[a], r[n + 1].callers[a];
      || pc' == pc
      || pc' == SSend(pc.k, pc.iso, pc.ids, pc.n + 1)
      || (pc' == Idle && pc.n == |pc.ids| == pc.k && r[n + 1].counts.submitted == r[n].counts.submitted + pc.k)
  {
    OwnStepAt(r, n, a);
    if r[n + 1].callers[a] != r[n].callers[a] {
      SendMovesAt(r, n, a);
    }
  }

  /** No reservation is asleep while the admission is closed or has enough for it. */
  lemma NoMissedWakeup(r: seq<State>, n: nat, a: nat)
    requires Run(r) && n < |r| && a < |r[n].callers|
    requires r[n].callers[a].SWaiting? && r[n].callers[a].epoch == r[n].adm.epoch
    ensures !r[n].adm.closed && r[n].adm.available < r[n].callers[a].k
  {
    RunInv(r, n);
    assert CallerOk(r[n], a);
  }

  // ---------------------------------------------------------------- routing

  /** In-process workers only ever hold in-process tasks, coordinators only isolated ones. */
  lemma PoolsDoNotMix(r: seq<State>, n: nat, w: nat)
    requires Run(r) && n < |r| && w < |r[n].workers| && Holds(r[n].workers[w].pc)
    ensures r[n].workers[w].pc.id < |r[n].tasks|
    ensures r[n].tasks[r[n].workers[w].pc.id].life.isolated == r[n].workers[w].isolated
  {
    RunInv(r, n);
    assert WorkerOk(r[n], w);
  }

  // ---------------------------------------------------------------- one step seen from a task

  /** What every step keeps of every task. */
  predicate Carried(s: State, s': State, i: nat) {
    && i < |s.tasks| && i < |s'.tasks| && Lives(s.tasks[i].life, s'.tasks[i].life)
    && (s.tasks[i].slot.closed ==> s'.tasks[i].slot.closed)
    && (Sent(s.tasks[i].owner) ==> Sent(s'.tasks[i].owner))
  }

  lemma WorkerCarries(s: State, s': State, w: nat, i: nat)
    requires Inv(s) && w < |s.workers| && WorkerStep(s, s', w) && i < |s.tasks|
    ensures Carried(s, s', i)
  {
    WorkerTouch(s, s', w, i);
    if Holds(s.workers[w].pc) && s.workers[w].pc.id == i {
      assert WorkerOk(s, w);
      assert TaskOk(s.tasks[i]) && Linked(s, i);
      WorkerKeepsTask(w, s.cancelPending, s.workers[w].pc, s.tasks[i], s'.workers[w].pc, s'.tasks[i]);
    }
  }

  lemma CallerCarries(s: State, s': State, a: nat, i: nat)
    requires Inv(s) && a < |s.callers| && CallerStep(s, s', a) && i < |s.tasks|
    ensures Carried(s, s', i)
  {
    assert CallerOk(s, a);
    CallerTouch(s, s', a, i);
    if Targets(s.callers[a]) && s.callers[a].id == i {
      assert TaskOk(s.tasks[i]);
      CallerKeepsTask(a, s.callers[a], s.tasks[i], s'.callers[a], s'.tasks[i]);
    }
  }

  lemma WorkerCarriesAt(r: seq<State>, n: nat, w: nat, i: nat)
    requires Run(r) && n + 1 < |r| && i < |r[n].tasks| && w < |r[n].workers| && WorkerStep(r[n], r[n + 1], w)
    ensures Carried(r[n], r[n + 1], i)
  {
    RunInv(r, n);
    WorkerCarries(r[n], r[n + 1], w, i);
  }

  lemma CallerCarriesAt(r: seq<State>, n: nat, a: nat, i: nat)
    requires Run(r) && n + 1 < |r| && i < |r[n].tasks| && a < |r[n].callers| && CallerStep(r[n], r[n + 1], a)
    ensures Carried(r[n], r[n + 1], i)
  {
    RunInv(r, n);
    CallerCarries(r[n], r[n + 1], a, i);
  }

  lemma CarriedFurther(s: State, t: State, u: State, i: nat)
    requires Carried(s, t, i) && Carried(t, u, i)
    ensures Carried(s, u, i)
  {
  }

  lemma CarriedAt(r: seq<State>, n: nat, i: nat)
    requires Run(r) && n + 1 < |r| && i < |r[n].tasks|
    ensures Carried(r[n], r[n + 1], i)
  {
    var s, s' := r[n], r[n + 1];
    assert StepAt(r, n);
    if w :| 0 <= w < |s.workers| && WorkerStep(s, s', w) {
      WorkerCarriesAt(r, n, w, i);
    } else if a :| 0 <= a < |s.callers| && CallerStep(s, s', a) {
      CallerCarriesAt(r, n, a, i);
    }
  }

  lemma {:induction false} RunCarries(r: seq<State>, m: nat, n: nat, i: nat)
    requires Run(r) && m <= n < |r| && i < |r[m].tasks|
    ensures Carried(r[m], r[n], i)
  {
    if m < n {
      RunCarries(r, m, n - 1, i);
      CarriedAt(r, n - 1, i);
      CarriedFurther(r[m], r[n - 1], r[n], i);
    }
  }

  // ---------------------------------------------------------------- completion, status and result

  /** Terminal states are absorbing. */
  lemma TerminalAbsorbing(r: seq<State>, m: nat, n: nat, i: nat)
    requires Run(r) && m <= n < |r| && i < |r[m].tasks| && Terminal(r[m].tasks[i].life.status)
    ensures i < |r[n].tasks| && r[n].tasks[i].life.status == r[m].tasks[i].life.status
  {
    RunCarries(r, m, n, i);
  }

  /** Some worker is running the body of task `i` or has claimed it to run it. */
  predicate Executes(s: State, i: nat) {
    exists w :: 0 <= w < |s.workers| && (s.workers[w].pc == Started(i) || s.workers[w].pc == Executing(i))
  }

  lemma CompletedNotExecuted(s: State, i: nat)
    requires Inv(s) && i < |s.tasks| && s.tasks[i].life.completed
    ensures !Executes(s, i)
  {
    forall w | 0 <= w < |s.workers| ensures s.workers[w].pc != Started(i) && s.workers[w].pc != Executing(i) {
      assert WorkerOk(s, w);
    }
  }

  /** No early completion: from the point at which `completed` is true, the status is terminal
      and nobody executes the task, now or later. */
  lemma NoEarlyCompletion(r: seq<State>, m: nat, n: nat, i: nat)
    requires Run(r) && m <= n < |r| && i < |r[m].tasks| && r[m].tasks[i].life.completed
    ensures i < |r[n].tasks| && r[n].tasks[i].life.completed && Terminal(r[m].tasks[i].life.status)
    ensures !Executes(r[n], i)
  {
    RunInv(r, m);
    RunInv(r, n);
    RunCarries(r, m, n, i);
    assert TaskOk(r[m].tasks[i]);
    CompletedNotExecuted(r[n], i);
  }

  /** The id is in no queue and in no worker's hands, and no canceller that won it is still at work. */
  predicate AtRest(s: State, i: nat) {
    && i < |s.tasks| && Sent(s.tasks[i].owner) && Id(i) !in s.inQueue && Id(i) !in s.isoQueue
    && (forall w | 0 <= w < |s.workers| :: !(Holds(s.workers[w].pc) && s.workers[w].pc.id == i))
    && (forall a | 0 <= a < |s.callers| :: !Winning(s.callers[a], i))
  }

  lemma RestSettles(s: State, i: nat)
    requires Inv(s) && AtRest(s, i)
    ensures var l := s.tasks[i].life;
      && s.tasks[i].owner.Finished? && Terminal(l.status) && l.completed
      && l.tally == (if l.status.Completed? then AsCompleted else if l.status.Failed? then AsFailed else AsCancelled)
      && (l.status.Cancelled? ==> l.result == CANCELLED_RESULT && l.wrote)
      && (!l.status.Cancelled? ==> l.result == l.body && l.status == StatusFor(l.body) && !l.body.Absent?)
  {
    assert TaskOk(s.tasks[i]) && Linked(s, i);
  }

  /** No lost completion: once the popping worker and any winner of the exchange to Cancelled have done their
      steps, the completion has been signalled. */
  lemma NoLostCompletion(r: seq<State>, n: nat, i: nat)
    requires Run(r) && n < |r| && AtRest(r[n], i)
    ensures r[n].tasks[i].life.completed && Terminal(r[n].tasks[i].life.status)
  {
    RunInv(r, n);
    RestSettles(r[n], i);
  }

  /** Each outcome counter is the number of tasks counted in it, and a task at rest is counted in exactly the one
      of its final status. */
  lemma OutcomeCountedOnce(r: seq<State>, n: nat, i: nat)
    requires Run(r) && n < |r| && AtRest(r[n], i)
    ensures var s := r[n];
      && s.counts.completed == Sum(CountedCompleted, s.tasks)
      && s.counts.failed == Sum(CountedFailed, s.tasks)
      && s.counts.cancelled == Sum(CountedCancelled, s.tasks)
    ensures var t := r[n].tasks[i];
      && CountedCompleted(t) == (if t.life.status.Completed? then 1 else 0)
      && CountedFailed(t) == (if t.life.status.Failed? then 1 else 0)
      && CountedCancelled(t) == (if t.life.status.Cancelled? then 1 else 0)
  {
    RunInv(r, n);
    RestSettles(r[n], i);
  }

  /** A reader that sees Completed or Failed finds the result there: Ok exactly for Completed. */
  lemma ResultBeforeStatus(r: seq<State>, n: nat, i: nat)
    requires Run(r) && n < |r| && i < |r[n].tasks|
    requires r[n].tasks[i].life.status.Completed? || r[n].tasks[i].life.status.Failed?
    ensures var l := r[n].tasks[i].life; !l.result.Absent? && (l.status.Completed? <==> l.result.Ok?)
  {
    RunInv(r, n);
    assert TaskOk(r[n].tasks[i]);
  }

  /** Once the winner of the exchange to Cancelled has written the cancelled result, it stays for ever, and a task at
      rest in Cancelled has it. */
  lemma CancelledResultStays(r: seq<State>, m: nat, n: nat, i: nat)
    requires Run(r) && m <= n < |r| && i < |r[m].tasks|
    requires r[m].tasks[i].life.wrote || (AtRest(r[m], i) && r[m].tasks[i].life.status.Cancelled?)
    ensures i < |r[n].tasks| && r[n].tasks[i].life.status.Cancelled? && r[n].tasks[i].life.result == CANCELLED_RESULT
  {
    RunInv(r, m);
    assert TaskOk(r[m].tasks[i]);
    if AtRest(r[m], i) {
      RestSettles(r[m], i);
    }
    RunCarries(r, m, n, i);
  }

  /** At step `k` a worker leaves the body of task `i` with outcome `o`. */
  predicate Returns(r: seq<State>, k: nat, i: nat, o: Outcome) {
    && k + 1 < |r|
    && exists w :: 0 <= w < |r[k].workers| && w < |r[k + 1].workers| &&
         r[k].workers[w].pc == Executing(i) && r[k + 1].workers[w].pc == Store(i, o)
  }

  lemma StepKeepsBody(s: State, s': State, i: nat) returns (w: nat)
    requires Inv(s) && Next(s, s') && i < |s'.tasks|
    ensures i >= |s.tasks| ==> s'.tasks[i].life.body.Absent?
    ensures i < |s.tasks| && s'.tasks[i].life.body != s.tasks[i].life.body ==>
              && w < |s.workers| && w < |s'.workers| && s.workers[w].pc == Executing(i)
              && s'.workers[w].pc == Store(i, s'.tasks[i].life.body)
  {
    w := 0;
    if v :| 0 <= v < |s.workers| && WorkerStep(s, s', v) {
      w := v;
      WorkerKeepsBody(s, s', v, i);
    } else if a :| 0 <= a < |s.callers| && CallerStep(s, s', a) {
      CallerKeepsBody(s, s', a, i);
    }
  }

  lemma WorkerKeepsBody(s: State, s': State, w: nat, i: nat)
    requires Inv(s) && w < |s.workers| && WorkerStep(s, s', w) && i < |s'.tasks|
    ensures i < |s.tasks| && w < |s'.workers|
    ensures s'.tasks[i].life.body != s.tasks[i].life.body ==>
              s.workers[w].pc == Executing(i) && s'.workers[w].pc == Store(i, s'.tasks[i].life.body)
  {
    assert |s'.tasks| == |s.tasks|;
    WorkerTouch(s, s', w, i);
    if Holds(s.workers[w].pc) && s.workers[w].pc.id == i {
      assert WorkerOk(s, w);
      assert TaskOk(s.tasks[i]) && Linked(s, i);
      WorkerKeepsTask(w, s.cancelPending, s.workers[w].pc, s.tasks[i], s'.workers[w].pc, s'.tasks[i]);
    }
  }

  lemma CallerKeepsBody(s: State, s': State, a: nat, i: nat)
    requires Inv(s) && a < |s.callers| && CallerStep(s, s', a) && i < |s'.tasks|
    ensures if i < |s.tasks| then s'.tasks[i].life.body == s.tasks[i].life.body else s'.tasks[i].life.body.Absent?
  {
    assert CallerOk(s, a);
    CallerTouch(s, s', a, i);
    if i < |s.tasks| && Targets(s.callers[a]) && s.callers[a].id == i {
      assert TaskOk(s.tasks[i]);
      CallerKeepsTask(a, s.callers[a], s.tasks[i], s'.callers[a], s'.tasks[i]);
    }
  }

  /** A body outcome that no return accounts for was there before. */
  lemma BodyStays(r: seq<State>, n: nat, i: nat)
    requires Run(r) && n + 1 < |r| && i < |r[n + 1].tasks| && !r[n + 1].tasks[i].life.body.Absent?
    requires !Returns(r, n, i, r[n + 1].tasks[i].life.body)
    ensures i < |r[n].tasks| && r[n].tasks[i].life.body == r[n + 1].tasks[i].life.body
  {
    RunInv(r, n);
    assert StepAt(r, n);
    var w := StepKeepsBody(r[n], r[n + 1], i);
  }

  /** Nothing but a worker's return from the body puts a body outcome on record. */
  lemma {:induction false} BodyWasReturned(r: seq<State>, n: nat, i: nat) returns (k: nat)
    requires Run(r) && n < |r| && i < |r[n].tasks| && !r[n].tasks[i].life.body.Absent?
    ensures k < n && Returns(r, k, i, r[n].tasks[i].life.body)
  {
    if n == 0 {
      assert false;
    } else if Returns(r, n - 1, i, r[n].tasks[i].life.body) {
      k := n - 1;
    } else {
      BodyStays(r, n - 1, i);
      k := BodyWasReturned(r, n - 1, i);
    }
  }

  /** The stored result of a Completed or Failed task is what the worker that ran it returned. */
  lemma ResultIsTheWorkers(r: seq<State>, n: nat, i: nat) returns (k: nat)
    requires Run(r) && n < |r| && i < |r[n].tasks|
    requires r[n].tasks[i].life.status.Completed? || r[n].tasks[i].life.status.Failed?
    ensures k < n && Returns(r, k, i, r[n].tasks[i].life.result)
  {
    RunInv(r, n);
    assert TaskOk(r[n].tasks[i]);
    k := BodyWasReturned(r, n, i);
  }

  // ---------------------------------------------------------------- shutdown against claims

  /** A task claimed under the cancel-pending flag never becomes Completed or Failed and comes to rest Cancelled;
      an in-process one is never executed. */
  lemma LateClaim(r: seq<State>, k: nat, n: nat, w: nat, i: nat)
    requires Run(r) && k < n < |r| && w < |r[k].workers| && i < |r[k].tasks|
    requires r[k].cancelPending && r[k].workers[w].pc == Claim(i) && r[k].tasks[i].life.status.Pending?
    requires WorkerStep(r[k], r[k + 1], w)
    ensures i < |r[n].tasks| && !r[n].tasks[i].life.status.Completed? && !r[n].tasks[i].life.status.Failed?
    ensures !r[k].tasks[i].life.isolated ==> !Executes(r[n], i)
    ensures AtRest(r[n], i) ==> r[n].tasks[i].life.status.Cancelled?
  {
    RunCarries(r, k + 1, n, i);
    RunInv(r, n);
    LateIsNotFinished(r[n], i);
    if AtRest(r[n], i) {
      RestSettles(r[n], i);
    }
  }

  lemma LateIsNotFinished(s: State, i: nat)
    requires Inv(s) && i < |s.tasks| && s.tasks[i].life.late
    ensures !s.tasks[i].life.status.Completed? && !s.tasks[i].life.status.Failed?
    ensures !s.tasks[i].life.isolated ==> !Executes(s, i)
  {
    assert TaskOk(s.tasks[i]);
    if !s.tasks[i].life.isolated {
      forall w | 0 <= w < |s.workers| ensures s.workers[w].pc != Started(i) && s.workers[w].pc != Executing(i) {
        assert WorkerOk(s, w);
      }
    }
  }

  // ---------------------------------------------------------------- slots

  /** No leaked slot: once some close call on the handle and the worker that popped the id have finished,
      the slab does not hold the task. */
  lemma NoLeakedSlot(r: seq<State>, k: nat, n: nat, a: nat, i: nat)
    requires Run(r) && k < n < |r| && a < |r[k].callers| && CallerStep(r[k], r[k + 1], a)
    requires Closing(r[k].callers[a]) && r[k].callers[a].id == i && !Targets(r[k + 1].callers[a])
    requires i < |r[n].tasks| && Id(i) !in r[n].inQueue && Id(i) !in r[n].isoQueue
    requires forall w | 0 <= w < |r[n].workers| :: !(Holds(r[n].workers[w].pc) && r[n].workers[w].pc.id == i)
    ensures !r[n].tasks[i].slot.inSlab
  {
    RunInv(r, k);
    CloseLeavesMark(r[k], r[k + 1], a);
    RunCarries(r, k + 1, n, i);
    RunInv(r, n);
    ClosedIsFreed(r[n], i);
  }

  lemma ClosedIsFreed(s: State, i: nat)
    requires Inv(s) && i < |s.tasks| && s.tasks[i].slot.closed && Sent(s.tasks[i].owner)
    requires Id(i) !in s.inQueue && Id(i) !in s.isoQueue
    requires forall w | 0 <= w < |s.workers| :: !(Holds(s.workers[w].pc) && s.workers[w].pc.id == i)
    ensures !s.tasks[i].slot.inSlab
  {
    assert TaskOk(s.tasks[i]) && Linked(s, i);
  }

  lemma CloseLeavesMark(s: State, s': State, a: nat)
    requires CallersOk(s) && a < |s.callers| && Closing(s.callers[a]) && CallerStep(s, s', a) && !Targets(s'.callers[a])
    ensures s.callers[a].id < |s'.tasks| && s'.tasks[s.callers[a].id].slot.closed && Sent(s'.tasks[s.callers[a].id].owner)
  {
    assert CallerOk(s, a);
  }

  function InSlab(t: Task): nat { if t.slot.inSlab then 1 else 0 }

  /** Between an insertion or a removal and its count. */
  predicate Counting(pc: CallerPc) {
    pc.SCount? || pc.SUndo? || pc.SUndoCount? || pc.KCountDown?
  }

  /** `task_count` never underflows... */
  lemma TaskCountNeverUnderflows(r: seq<State>, n: nat)
    requires Run(r) && n < |r|
    ensures r[n].counts.taskCount >= 0 && r[n].counts.running >= 0
  {
    RunInv(r, n);
  }

  /** ...and is the number of slab entries whenever no insertion or removal is under way. */
  lemma TaskCountExact(r: seq<State>, n: nat)
    requires Run(r) && n < |r|
    requires forall a | 0 <= a < |r[n].callers| :: !Counting(r[n].callers[a])
    requires forall w | 0 <= w < |r[n].workers| :: !r[n].workers[w].pc.CountDown?
    ensures r[n].counts.taskCount == Sum(InSlab, r[n].tasks)
  {
    var s := r[n];
    RunInv(r, n);
    SumZero(CallerDebt, s.callers);
    SumZero(WorkerDebt, s.workers);
    forall i | 0 <= i < |s.tasks| ensures SlabCounted(s.tasks[i]) == InSlab(s.tasks[i]) {
      assert Linked(s, i);
    }
    SumSame(SlabCounted, InSlab, s.tasks);
  }

  // ---------------------------------------------------------------- shutdown drains the engine

  predicate Quiescent(s: State) {
    forall a | 0 <= a < |s.callers| :: s.callers[a].Idle?
  }

  lemma NoneLeft(s: State, i: nat)
    requires Inv(s) && s.stopper.Complete? && Quiescent(s) && i < |s.tasks|
    ensures if Sent(s.tasks[i].owner) then AtRest(s, i) else s.tasks[i].owner.Discarded?
  {
    assert Linked(s, i);
    assert !s.tasks[i].owner.Unsent?;
    QueuesDrained(s);
    NoIdLeft(s.inQueue, i);
    NoIdLeft(s.isoQueue, i);
  }

  lemma NoIdLeft(q: seq<Message>, i: nat)
    requires Sum(IsId, q) == 0
    ensures Id(i) !in q
  {
    forall x | 0 <= x < |q| ensures q[x] != Id(i) {
      SumAtLeast(IsId, q, x);
    }
  }

  lemma QueuesDrained(s: State)
    requires Inv(s) && s.stopper.Complete?
    ensures Sum(IsId, s.inQueue) == 0 && Sum(IsId, s.isoQueue) == 0
  {
    var w :| 0 <= w < |s.workers| && !s.workers[w].isolated;
    assert s.workers[w].pc.Exited?;
    var v :| 0 <= v < |s.workers| && s.workers[v].isolated;
    assert s.workers[v].pc.Exited?;
  }

  /** When shutdown is complete and no API call is in flight: no id is queued, every accepted task is terminal
      and signalled, nothing runs, every permit is back, and the outcomes add up to the submissions. */
  lemma ShutdownDrains(r: seq<State>, n: nat)
    requires Run(r) && n < |r| && r[n].stopper.Complete? && Quiescent(r[n])
    ensures var s := r[n];
      && Sum(IsId, s.inQueue) == 0 && Sum(IsId, s.isoQueue) == 0 && s.counts.running == 0
      && s.adm.available == s.adm.capacity
      && s.counts.submitted == s.counts.completed + s.counts.failed + s.counts.cancelled
      && (forall i | 0 <= i < |s.tasks| && Sent(s.tasks[i].owner) ::
            Terminal(s.tasks[i].life.status) && s.tasks[i].life.completed)
  {
    var s := r[n];
    RunInv(r, n);
    QueuesDrained(s);
    forall i | 0 <= i < |s.tasks|
      ensures Sent(s.tasks[i].owner) ==> Terminal(s.tasks[i].life.status) && s.tasks[i].life.completed
      ensures IsSent(s.tasks[i]) == CountedCompleted(s.tasks[i]) + CountedFailed(s.tasks[i]) + CountedCancelled(s.tasks[i])
    {
      DrainedTask(s, i);
    }
    SumZero(HeldPermits, s.callers);
    SumZero(SentUncounted, s.callers);
    SumZero(InHand, s.workers);
    SumZero(InRunning, s.workers);
    SumSplit(IsSent, CountedCompleted, CountedFailed, CountedCancelled, s.tasks);
  }

  lemma DrainedTask(s: State, i: nat)
    requires Inv(s) && s.stopper.Complete? && Quiescent(s) && i < |s.tasks|
    ensures Sent(s.tasks[i].owner) ==> Terminal(s.tasks[i].life.status) && s.tasks[i].life.completed
    ensures IsSent(s.tasks[i]) == CountedCompleted(s.tasks[i]) + CountedFailed(s.tasks[i]) + CountedCancelled(s.tasks[i])
  {
    NoneLeft(s, i);
    assert TaskOk(s.tasks[i]);
    if Sent(s.tasks[i].owner) {
      RestSettles(s, i);
    }
  }

  // ---------------------------------------------------------------- closing the admission

  lemma StepKeepsClosed(s: State, s': State)
    requires Inv(s) && Next(s, s') && s.adm.closed
    ensures s'.adm.closed
  {
    if w :| 0 <= w < |s.workers| && WorkerStep(s, s', w) {
      WorkerTouch(s, s', w, 0);
    } else if a :| 0 <= a < |s.callers| && CallerStep(s, s', a) {
      assert CallerOk(s, a);
      CallerTouch(s, s', a, 0);
    }
  }

  lemma ClosedAt(r: seq<State>, n: nat)
    requires Run(r) && n + 1 < |r| && r[n].adm.closed
    ensures r[n + 1].adm.closed
  {
    RunInv(r, n);
    assert StepAt(r, n);
    StepKeepsClosed(r[n], r[n + 1]);
  }

  lemma {:induction false} ClosedStays(r: seq<State>, m: nat, n: nat)
    requires Run(r) && m <= n < |r| && r[m].adm.closed
    ensures r[n].adm.closed
  {
    if m < n {
      ClosedStays(r, m, n - 1);
      ClosedAt(r, n - 1);
    }
  }

  /** No reservation is granted after `close`. */
  lemma NoGrantAfterClose(r: seq<State>, m: nat, n: nat, a: nat)
    requires Run(r) && m <= n && n + 1 < |r| && r[m].adm.closed && a < |r[n].callers|
    requires r[n].callers[a].SReserve? || r[n].callers[a].SWaiting?
    ensures a < |r[n + 1].callers| && !r[n + 1].callers[a].SBuild?
  {
    ClosedStays(r, m, n);
    OwnStepAt(r, n, a);
  }
}
