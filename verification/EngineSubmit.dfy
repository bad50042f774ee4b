/** The steps of submitters, of shutdown and of workers between tasks keep the invariant. */
module EngineSubmit {
  import opened Sums
  import opened Engine
  import opened EngineInv
  import opened EngineProof

  // ---------------------------------------------------------------- caller steps that touch no task

  /** Only the caller, the admission, the counters and the flags change, and those only forward. */
  predicate QuietFrame(s: State, s': State, a: nat) {
    && a < |s.callers| == |s'.callers| && s'.callers == s.callers[a := s'.callers[a]]
    && s' == s.(callers := s'.callers, adm := s'.adm, counts := s'.counts, cancelPending := s'.cancelPending)
    && (s.cancelPending ==> s'.cancelPending)
    && s'.adm.capacity == s.adm.capacity && (s.adm.closed ==> s'.adm.closed)
    && (s'.adm.epoch > s.adm.epoch ||
        (s'.adm.epoch == s.adm.epoch && s'.adm.closed == s.adm.closed && s'.adm.available <= s.adm.available))
  }

  /** The caller gives up no unsent task, wins nothing, and respects the gate. */
  ghost predicate QuietTurn(s: State, s': State, a: nat)
    requires QuietFrame(s, s', a)
  {
    var pc, pc' := s.callers[a], s'.callers[a];
    && !Announcing(pc) && !pc.SCount? && CallerOk(s', a)
    && (forall i :: Submits(pc, i) ==> Submits(pc', i))
    && (Writes(pc') ==> Writes(pc) || GateFree(s))
    && (Reads(pc') ==> Reads(pc) || NoWriter(s))
  }

  lemma QuietThreads(s: State, s': State, a: nat)
    requires TasksOk(s) && LinksOk(s) && WorkersOk(s) && CallersOk(s)
    requires QuietFrame(s, s', a) && QuietTurn(s, s', a)
    ensures TasksOk(s') && LinksOk(s') && WorkersOk(s') && CallersOk(s')
  {
    forall i | 0 <= i < |s'.tasks| ensures TaskOk(s'.tasks[i]) {
      assert TaskOk(s.tasks[i]);
    }
    forall i | 0 <= i < |s'.tasks| ensures Linked(s', i) {
      assert Linked(s, i);
    }
    forall w | 0 <= w < |s'.workers| ensures WorkerOk(s', w) {
      assert WorkerOk(s, w);
    }
    forall b | 0 <= b < |s'.callers| ensures CallerOk(s', b) {
      assert CallerOk(s, b);
    }
  }

  lemma QuietQueues(s: State, s': State, a: nat)
    requires QueueOk(s, false) && QueueOk(s, true) && GateOk(s) && StopsOk(s)
    requires QuietFrame(s, s', a) && QuietTurn(s, s', a)
    ensures QueueOk(s', false) && QueueOk(s', true) && GateOk(s') && StopsOk(s')
  {
    assert QueueOk(s', false) && QueueOk(s', true) && StopsOk(s');
  }

  /** What the caller holds moves to or from the counters, and nothing is lost. */
  predicate QuietNumbers(s: State, s': State, a: nat)
    requires QuietFrame(s, s', a)
  {
    var pc, pc', c, c' := s.callers[a], s'.callers[a], s.counts, s'.counts;
    && s'.adm.available + HeldPermits(pc') == s.adm.available + HeldPermits(pc)
    && c'.submitted + SentUncounted(pc') == c.submitted + SentUncounted(pc)
    && c'.taskCount + CallerDebt(pc) == c.taskCount + CallerDebt(pc')
    && c'.running == c.running && c'.completed == c.completed && c'.failed == c.failed && c'.cancelled == c.cancelled
  }

  lemma QuietCounts(s: State, s': State, a: nat)
    requires Permits(s) && Tallies(s) && Sizes(s) && QuietFrame(s, s', a) && QuietNumbers(s, s', a)
    ensures Permits(s') && Tallies(s') && Sizes(s')
  {
    CallerSums(s.callers, a, s'.callers[a]);
  }

  ghost predicate Quiet(s: State, s': State, a: nat) {
    QuietFrame(s, s', a) && QuietTurn(s, s', a) && QuietNumbers(s, s', a)
  }

  lemma QuietInv(s: State, s': State, a: nat)
    requires Inv(s) && Quiet(s, s', a)
    ensures Inv(s')
  {
    QuietThreads(s, s', a);
    QuietQueues(s, s', a);
    QuietCounts(s, s', a);
  }

  /** Permits held by a caller fit back: `release` never clips. */
  lemma NoClip(s: State, a: nat)
    requires Permits(s) && a < |s.callers|
    ensures s.adm.available + HeldPermits(s.callers[a]) <= s.adm.capacity
  {
    SumAtLeast(HeldPermits, s.callers, a);
  }

  lemma SectionQuiet(s: State, s': State, a: nat, k: nat, iso: bool)
    requires a < |s.callers| && (s.callers[a].SReserve? || s.callers[a].SWaiting?) && ReserveSection(s, s', a, k, iso)
    ensures Quiet(s, s', a)
  {
    if s'.callers[a].SBuild? {
      GrantQuiet(s, s', a, k, iso);
    }
  }

  lemma GrantQuiet(s: State, s': State, a: nat, k: nat, iso: bool)
    requires a < |s.callers| && (s.callers[a].SReserve? || s.callers[a].SWaiting?) && k <= s.adm.available
    requires s' == SetCaller(s.(adm := s.adm.(available := s.adm.available - k)), a, SBuild(k, iso))
    ensures Quiet(s, s', a)
  {
  }

  lemma FailedQuiet(s: State, s': State, a: nat)
    requires a < |s.callers| && s.callers[a].SFailed? && ReserveStep(s, s', a)
    ensures Quiet(s, s', a)
  {
  }

  lemma ReservingQuiet(s: State, s': State, a: nat)
    requires a < |s.callers| && Reserving(s.callers[a]) && ReserveStep(s, s', a)
    ensures Quiet(s, s', a)
  {
    if s.callers[a].SReserve? || s.callers[a].SWaiting? {
      SectionQuiet(s, s', a, s.callers[a].k, s.callers[a].iso);
    } else if s.callers[a].SFailed? {
      FailedQuiet(s, s', a);
    }
  }

  lemma BuildQuiet(s: State, s': State, a: nat)
    requires a < |s.callers| && s.callers[a].SBuild? && EnterStep(s, s', a)
    ensures Quiet(s, s', a)
  {
  }

  lemma EnteringQuiet(s: State, s': State, a: nat)
    requires a < |s.callers| && Entering(s.callers[a]) && EnterStep(s, s', a)
    ensures Quiet(s, s', a)
  {
    if s.callers[a].SBuild? {
      BuildQuiet(s, s', a);
    }
  }

  lemma ReleaseQuiet(s: State, s': State, a: nat)
    requires Permits(s) && a < |s.callers| && s.callers[a].SRelease? && BackStep(s, s', a)
    ensures Quiet(s, s', a)
  {
    NoClip(s, a);
  }

  lemma RejectQuiet(s: State, s': State, a: nat)
    requires a < |s.callers| && s.callers[a].SReject? && BackStep(s, s', a)
    ensures Quiet(s, s', a)
  {
  }

  lemma BackingQuiet(s: State, s': State, a: nat)
    requires Permits(s) && a < |s.callers| && Backing(s.callers[a]) && BackStep(s, s', a)
    ensures Quiet(s, s', a)
  {
    if s.callers[a].SRelease? {
      ReleaseQuiet(s, s', a);
    } else if s.callers[a].SReject? {
      RejectQuiet(s, s', a);
    }
  }

  /** The insertion loop ends, or gives up. */
  lemma InsertedQuiet(s: State, s': State, a: nat)
    requires a < |s.callers| && CallerOk(s, a) && s.callers[a].SInsert? && BatchStep(s, s', a) && s'.tasks == s.tasks
    ensures Quiet(s, s', a)
  {
    if s'.callers[a].SUndo? {
      FullQuiet(s, s', a);
    } else {
      var ids := s.callers[a].ids;
      assert ids[0..] == ids;
    }
  }

  lemma FullQuiet(s: State, s': State, a: nat)
    requires a < |s.callers| && CallerOk(s, a) && s.callers[a].SInsert?
    requires s' == SetCaller(s, a, SUndo(s.callers[a].k, s.callers[a].iso, s.callers[a].ids, 0))
    ensures Quiet(s, s', a)
  {
    var ids := s.callers[a].ids;
    assert ids[0..] == ids;
  }

  /** The send loop or the undo loop ends. */
  lemma EndedQuiet(s: State, s': State, a: nat)
    requires a < |s.callers| && CallerOk(s, a) && (s.callers[a].SSend? || s.callers[a].SUndo?) && BatchStep(s, s', a)
    requires s.callers[a].n >= |s.callers[a].ids|
    ensures Quiet(s, s', a)
  {
  }

  // ---------------------------------------------------------------- a submitter and one of its unsent tasks

  /** Task `i` is this caller's, unsent: nobody else can see it. */
  predicate OwnFrame(s: State, s': State, a: nat, i: nat) {
    && i < |s.tasks| == |s'.tasks| && a < |s.callers| == |s'.callers|
    && s.tasks[i].owner == Unsent(a)
    && s'.tasks == s.tasks[i := s'.tasks[i]] && s'.callers == s.callers[a := s'.callers[a]]
    && s' == s.(tasks := s'.tasks, callers := s'.callers, counts := s'.counts, inQueue := s'.inQueue, isoQueue := s'.isoQueue)
    && TaskOk(s'.tasks[i]) && s'.tasks[i].life == s.tasks[i].life
    && Batching(s.callers[a]) && Batching(s'.callers[a]) && CallerOk(s', a)
  }

  lemma OwnThreads(s: State, s': State, a: nat, i: nat)
    requires TasksOk(s) && WorkersOk(s) && CallersOk(s) && OwnFrame(s, s', a, i)
    ensures TasksOk(s') && WorkersOk(s') && CallersOk(s')
  {
    forall j | 0 <= j < |s'.tasks| ensures TaskOk(s'.tasks[j]) {
      assert TaskOk(s.tasks[j]);
    }
    forall w | 0 <= w < |s'.workers| ensures WorkerOk(s', w) {
      assert WorkerOk(s, w);
    }
    forall b | 0 <= b < |s'.callers| ensures CallerOk(s', b) {
      assert CallerOk(s, b);
    }
  }

  /** The submitter moves past task `i` of its batch. */
  predicate OwnAdvance(pc: CallerPc, pc': CallerPc, i: nat) {
    || (pc.SCount? && pc'.SInsert? && pc'.ids == pc.ids && pc.ids != [] && i == pc.ids[|pc.ids| - 1])
    || (pc.SSend? && pc'.SSend? && pc'.ids == pc.ids && pc.n < |pc.ids| && pc'.n == pc.n + 1 && i == pc.ids[pc.n])
    || (pc.SUndo? && pc'.SUndo? && pc'.ids == pc.ids && pc.n < |pc.ids| && pc'.n == pc.n + 1 && i == pc.ids[pc.n])
  }

  lemma StillListed(pc: CallerPc, pc': CallerPc, i: nat, j: nat)
    requires OwnAdvance(pc, pc', i) && Submits(pc, j) && j != i
    ensures Submits(pc', j)
  {
    if !pc.SCount? {
      var x :| pc.n <= x < |pc.ids| && pc.ids[x] == j;
      assert pc.ids[pc.n + 1..][x - pc.n - 1] == j;
    }
  }

  lemma OwnLinks(s: State, s': State, a: nat, i: nat)
    requires LinksOk(s) && OwnFrame(s, s', a, i) && Linked(s', i) && OwnAdvance(s.callers[a], s'.callers[a], i)
    requires forall m | m in s.inQueue :: m in s'.inQueue
    requires forall m | m in s.isoQueue :: m in s'.isoQueue
    ensures LinksOk(s')
  {
    forall j | 0 <= j < |s'.tasks| ensures Linked(s', j) {
      assert Linked(s, j);
      if j != i && s.tasks[j].owner == Unsent(a) {
        StillListed(s.callers[a], s'.callers[a], i, j);
      }
    }
  }

  lemma OwnGate(s: State, s': State, a: nat, i: nat)
    requires GateOk(s) && StopsOk(s) && OwnFrame(s, s', a, i)
    requires Sum(IsStop, s'.inQueue) == Sum(IsStop, s.inQueue) && Sum(IsStop, s'.isoQueue) == Sum(IsStop, s.isoQueue)
    ensures GateOk(s') && StopsOk(s')
  {
  }

  /** Queues that did not change still hold only queued tasks. */
  lemma OwnQueues(s: State, s': State, a: nat, i: nat, iso: bool)
    requires QueueOk(s, iso) && OwnFrame(s, s', a, i) && Queue(s', iso) == Queue(s, iso)
    ensures QueueOk(s', iso)
  {
    QueueKept(s, s', iso);
  }

  lemma OwnCounts(s: State, s': State, a: nat, i: nat)
    requires Permits(s) && Tallies(s) && Sizes(s) && OwnFrame(s, s', a, i)
    requires var pc, pc', t, t', c, c' := s.callers[a], s'.callers[a], s.tasks[i], s'.tasks[i], s.counts, s'.counts;
      && HeldPermits(pc') + Sum(IsId, s'.inQueue) + Sum(IsId, s'.isoQueue)
           == HeldPermits(pc) + Sum(IsId, s.inQueue) + Sum(IsId, s.isoQueue)
      && c' == c.(taskCount := c'.taskCount)
      && IsSent(t') + SentUncounted(pc) == IsSent(t) + SentUncounted(pc')
      && c'.taskCount + SlabCounted(t) + CallerDebt(pc) == c.taskCount + SlabCounted(t') + CallerDebt(pc')
    ensures Permits(s') && Tallies(s') && Sizes(s')
  {
    TaskSums(s.tasks, i, s'.tasks[i]);
    CallerSums(s.callers, a, s'.callers[a]);
  }

  /** The submitter moves past task `i` without sending it. */
  predicate OwnEffect(s: State, s': State, a: nat, i: nat) {
    && OwnFrame(s, s', a, i) && Linked(s', i) && OwnAdvance(s.callers[a], s'.callers[a], i)
    && s'.inQueue == s.inQueue && s'.isoQueue == s.isoQueue
    && s'.counts == s.counts.(taskCount := s'.counts.taskCount)
    && HeldPermits(s'.callers[a]) == HeldPermits(s.callers[a])
    && SentUncounted(s.callers[a]) == 0 && SentUncounted(s'.callers[a]) == 0 && IsSent(s'.tasks[i]) == 0
    && s'.counts.taskCount + SlabCounted(s.tasks[i]) + CallerDebt(s.callers[a])
         == s.counts.taskCount + SlabCounted(s'.tasks[i]) + CallerDebt(s'.callers[a])
  }

  lemma OwnInv(s: State, s': State, a: nat, i: nat)
    requires Inv(s) && OwnEffect(s, s', a, i)
    ensures Inv(s')
  {
    OwnThreads(s, s', a, i);
    OwnLinks(s, s', a, i);
    OwnQueues(s, s', a, i, false);
    OwnQueues(s, s', a, i, true);
    OwnGate(s, s', a, i);
    OwnCounts(s, s', a, i);
  }

  lemma CountFrame(s: State, s': State, a: nat)
    requires CallersOk(s) && TasksOk(s) && LinksOk(s) && a < |s.callers| && s.callers[a].SCount? && BatchStep(s, s', a)
    ensures var ids := s.callers[a].ids; ids != [] && OwnEffect(s, s', a, ids[|ids| - 1])
  {
    assert CallerOk(s, a);
    var ids := s.callers[a].ids;
    var i := ids[|ids| - 1];
    assert OwnsUnsent(s, a, s.callers[a].iso, i, false);
    assert TaskOk(s.tasks[i]) && Linked(s, i);
    CountCaller(s, s', a);
  }

  lemma CountCaller(s: State, s': State, a: nat)
    requires a < |s.callers| && CallerOk(s, a) && s.callers[a].SCount? && BatchStep(s, s', a)
    ensures a < |s'.callers| && CallerOk(s', a)
  {
    var ids := s.callers[a].ids;
    forall x | 0 <= x < |ids| ensures OwnsUnsent(s', a, s.callers[a].iso, ids[x], true) {
      assert OwnsUnsent(s, a, s.callers[a].iso, ids[x], x < |ids| - 1);
    }
  }

  lemma UndoFrame(s: State, s': State, a: nat)
    requires CallersOk(s) && TasksOk(s) && LinksOk(s) && a < |s.callers| && s.callers[a].SUndo? && BatchStep(s, s', a)
    requires s.callers[a].n < |s.callers[a].ids|
    ensures OwnEffect(s, s', a, s.callers[a].ids[s.callers[a].n])
  {
    assert CallerOk(s, a);
    var pc := s.callers[a];
    var i := pc.ids[pc.n];
    assert OwnsUnsent(s, a, pc.iso, i, true);
    assert TaskOk(s.tasks[i]) && Linked(s, i);
    UndoCaller(s, s', a);
  }

  lemma UndoCaller(s: State, s': State, a: nat)
    requires a < |s.callers| && CallerOk(s, a) && s.callers[a].SUndo? && BatchStep(s, s', a)
    requires s.callers[a].n < |s.callers[a].ids|
    ensures a < |s'.callers| && CallerOk(s', a)
  {
    var pc := s.callers[a];
    forall x | pc.n + 1 <= x < |pc.ids| ensures OwnsUnsent(s', a, pc.iso, pc.ids[x], true) {
      assert OwnsUnsent(s, a, pc.iso, pc.ids[x], true);
    }
  }

  // ---------------------------------------------------------------- sending

  lemma {:induction false} QueueLength(q: seq<Message>)
    ensures |q| == Sum(IsId, q) + Sum(IsStop, q)
  {
    if q != [] {
      QueueLength(q[1..]);
    }
  }

  lemma NoStop(q: seq<Message>)
    requires Sum(IsStop, q) == 0
    ensures forall x | 0 <= x < |q| :: q[x].Id?
  {
    forall x | 0 <= x < |q| ensures q[x].Id? {
      SumAtLeast(IsStop, q, x);
    }
  }

  /** `try_send` is never refused: the permit the submitter still holds is a free place in the channel,
      and no worker leaves before the gate is closed. */
  lemma SendAccepted(s: State, a: nat)
    requires Permits(s) && StopsOk(s) && QueueOk(s, false) && QueueOk(s, true) && a < |s.callers| && CallerOk(s, a)
    requires s.callers[a].SSend? && s.callers[a].n < |s.callers[a].ids|
    ensures !SendRefused(s, s.callers[a].iso)
  {
    var iso := s.callers[a].iso;
    QueueLength(Queue(s, iso));
    SumAtLeast(HeldPermits, s.callers, a);
    if iso {
      var w :| 0 <= w < |s.workers| && s.workers[w].isolated;
      assert !s.workers[w].pc.Exited?;
    } else {
      var w :| 0 <= w < |s.workers| && !s.workers[w].isolated;
      assert !s.workers[w].pc.Exited?;
    }
  }

  /** The next id of the batch goes to its queue. */
  predicate SendEffect(s: State, s': State, a: nat) {
    && a < |s.callers| && s.callers[a].SSend? && s.callers[a].n < |s.callers[a].ids| == s.callers[a].k
    && var pc := s.callers[a]; var i := pc.ids[pc.n];
      && OwnFrame(s, s', a, i) && s.tasks[i].life.isolated == pc.iso
      && s'.counts == s.counts && s'.callers[a] == SSend(pc.k, pc.iso, pc.ids, pc.n + 1)
      && s'.tasks[i] == s.tasks[i].(owner := Queued)
      && Queue(s', pc.iso) == Queue(s, pc.iso) + [Id(i)] && Queue(s', !pc.iso) == Queue(s, !pc.iso)
  }

  lemma SendFrame(s: State, s': State, a: nat)
    requires CallersOk(s) && TasksOk(s) && LinksOk(s) && a < |s.callers| && s.callers[a].SSend? && BatchStep(s, s', a)
    requires s.callers[a].n < |s.callers[a].ids| && !SendRefused(s, s.callers[a].iso)
    ensures SendEffect(s, s', a) && Linked(s', s.callers[a].ids[s.callers[a].n])
  {
    assert CallerOk(s, a);
    var pc := s.callers[a];
    var i := pc.ids[pc.n];
    assert OwnsUnsent(s, a, pc.iso, i, true);
    assert TaskOk(s.tasks[i]) && Linked(s, i);
    assert Queue(s', pc.iso)[|Queue(s, pc.iso)|] == Id(i);
    SendCaller(s, s', a);
  }

  lemma SendCaller(s: State, s': State, a: nat)
    requires a < |s.callers| && CallerOk(s, a) && s.callers[a].SSend? && BatchStep(s, s', a)
    requires s.callers[a].n < |s.callers[a].ids| && !SendRefused(s, s.callers[a].iso)
    ensures a < |s'.callers| && CallerOk(s', a)
  {
    var pc := s.callers[a];
    forall x | pc.n + 1 <= x < |pc.ids| ensures OwnsUnsent(s', a, pc.iso, pc.ids[x], true) {
      assert OwnsUnsent(s, a, pc.iso, pc.ids[x], true);
    }
  }

  lemma SendQueue(s: State, s': State, a: nat, i: nat, iso: bool)
    requires QueueOk(s, iso) && StopsOk(s) && OwnFrame(s, s', a, i) && !s.shutdownStarted
    requires Queue(s', iso) == Queue(s, iso) + [Id(i)] && s'.tasks[i].owner.Queued? && s.tasks[i].life.isolated == iso
    ensures QueueOk(s', iso) && Sum(IsStop, Queue(s', iso)) == Sum(IsStop, Queue(s, iso)) == 0
    ensures Sum(IsId, Queue(s', iso)) == Sum(IsId, Queue(s, iso)) + 1
  {
    var q := Queue(s, iso);
    SumAppend(IsStop, q, Id(i));
    SumAppend(IsId, q, Id(i));
    NoStop(q);
  }

  lemma SendThreads(s: State, s': State, a: nat)
    requires TasksOk(s) && LinksOk(s) && WorkersOk(s) && CallersOk(s)
    requires a < |s.callers| && s.callers[a].SSend? && BatchStep(s, s', a)
    requires s.callers[a].n < |s.callers[a].ids| && !SendRefused(s, s.callers[a].iso)
    ensures TasksOk(s') && LinksOk(s') && WorkersOk(s') && CallersOk(s')
  {
    var i := s.callers[a].ids[s.callers[a].n];
    SendFrame(s, s', a);
    OwnThreads(s, s', a, i);
    OwnLinks(s, s', a, i);
  }

  lemma SendQueues(s: State, s': State, a: nat)
    requires QueueOk(s, false) && QueueOk(s, true) && GateOk(s) && StopsOk(s) && SendEffect(s, s', a) && !s.shutdownStarted
    ensures QueueOk(s', false) && QueueOk(s', true) && GateOk(s') && StopsOk(s')
    ensures Sum(IsId, s'.inQueue) + Sum(IsId, s'.isoQueue) == Sum(IsId, s.inQueue) + Sum(IsId, s.isoQueue) + 1
  {
    var pc := s.callers[a];
    var i := pc.ids[pc.n];
    SendQueue(s, s', a, i, pc.iso);
    OwnQueues(s, s', a, i, !pc.iso);
    OwnGate(s, s', a, i);
  }

  lemma SendCounts(s: State, s': State, a: nat)
    requires Permits(s) && Tallies(s) && Sizes(s) && SendEffect(s, s', a)
    requires Sum(IsId, s'.inQueue) + Sum(IsId, s'.isoQueue) == Sum(IsId, s.inQueue) + Sum(IsId, s.isoQueue) + 1
    ensures Permits(s') && Tallies(s') && Sizes(s')
  {
    OwnCounts(s, s', a, s.callers[a].ids[s.callers[a].n]);
  }

  lemma SendInv(s: State, s': State, a: nat)
    requires Inv(s) && a < |s.callers| && s.callers[a].SSend? && BatchStep(s, s', a)
    requires s.callers[a].n < |s.callers[a].ids|
    ensures Inv(s')
  {
    assert CallerOk(s, a);
    SendAccepted(s, a);
    SendThreads(s, s', a);
    SendFrame(s, s', a);
    SendQueues(s, s', a);
    SendCounts(s, s', a);
  }

  // ---------------------------------------------------------------- inserting

  predicate InsertFrame(s: State, s': State, a: nat) {
    && a < |s.callers| && s.callers[a].SInsert?
    && var pc := s.callers[a];
       && |pc.ids| < pc.k
       && s' == SetCaller(s.(tasks := s.tasks + [NewTask(pc.iso, a)]), a, SCount(pc.k, pc.iso, pc.ids + [|s.tasks|]))
  }

  lemma InsertThreads(s: State, s': State, a: nat)
    requires TasksOk(s) && LinksOk(s) && WorkersOk(s) && CallersOk(s) && InsertFrame(s, s', a)
    ensures TasksOk(s') && LinksOk(s') && WorkersOk(s')
  {
    var ids, ids' := s.callers[a].ids, s'.callers[a].ids;
    assert CallerOk(s, a);
    forall j | 0 <= j < |s'.tasks| ensures TaskOk(s'.tasks[j]) {
      if j < |s.tasks| {
        assert TaskOk(s.tasks[j]);
      }
    }
    forall j | 0 <= j < |s'.tasks| ensures Linked(s', j) {
      assert ids'[|ids|] == |s.tasks|;
      if j < |s.tasks| {
        assert Linked(s, j);
        if s.tasks[j].owner == Unsent(a) {
          var x :| 0 <= x < |ids| && ids[x] == j;
          assert ids'[x] == j;
        }
      }
    }
    forall w | 0 <= w < |s'.workers| ensures WorkerOk(s', w) {
      assert WorkerOk(s, w);
    }
  }

  lemma InsertCallers(s: State, s': State, a: nat)
    requires CallersOk(s) && InsertFrame(s, s', a)
    ensures CallersOk(s')
  {
    var pc := s.callers[a];
    assert CallerOk(s, a);
    forall b | 0 <= b < |s'.callers| ensures CallerOk(s', b) {
      assert CallerOk(s, b);
      if b == a {
        var ids' := s'.callers[a].ids;
        forall x | 0 <= x < |ids'| ensures OwnsUnsent(s', a, pc.iso, ids'[x], x < |ids'| - 1) {
          assert x < |pc.ids| ==> OwnsUnsent(s, a, pc.iso, pc.ids[x], true);
        }
        assert Increasing(ids');
      }
    }
  }

  lemma InsertQueues(s: State, s': State, a: nat)
    requires QueueOk(s, false) && QueueOk(s, true) && GateOk(s) && StopsOk(s) && InsertFrame(s, s', a)
    ensures QueueOk(s', false) && QueueOk(s', true) && GateOk(s') && StopsOk(s')
  {
    QueueKept(s, s', false);
    QueueKept(s, s', true);
  }

  lemma InsertCounts(s: State, s': State, a: nat)
    requires Permits(s) && Tallies(s) && Sizes(s) && InsertFrame(s, s', a)
    ensures Permits(s') && Tallies(s') && Sizes(s')
  {
    var t := NewTask(s.callers[a].iso, a);
    SumAppend(CountedCompleted, s.tasks, t);
    SumAppend(CountedFailed, s.tasks, t);
    SumAppend(CountedCancelled, s.tasks, t);
    SumAppend(IsSent, s.tasks, t);
    SumAppend(SlabCounted, s.tasks, t);
    CallerSums(s.callers, a, s'.callers[a]);
  }

  lemma BatchInv(s: State, s': State, a: nat)
    requires Inv(s) && a < |s.callers| && Batching(s.callers[a]) && BatchStep(s, s', a)
    ensures Inv(s')
  {
    var pc := s.callers[a];
    assert CallerOk(s, a);
    if pc.SCount? {
      CountFrame(s, s', a);
      OwnInv(s, s', a, pc.ids[|pc.ids| - 1]);
    } else if pc.SInsert? {
      if InsertFrame(s, s', a) {
        InsertThreads(s, s', a);
        InsertCallers(s, s', a);
        InsertQueues(s, s', a);
        InsertCounts(s, s', a);
      } else {
        InsertedQuiet(s, s', a);
        QuietInv(s, s', a);
      }
    } else if pc.n >= |pc.ids| {
      EndedQuiet(s, s', a);
      QuietInv(s, s', a);
    } else if pc.SSend? {
      SendInv(s, s', a);
    } else {
      UndoFrame(s, s', a);
      OwnInv(s, s', a, pc.ids[pc.n]);
    }
  }
}
