/** The inductive invariant of the engine. What relates one task to the threads working on it is
    said by predicates over a task record and a program counter alone (`TaskOk`, `WorkerView`,
    `CallerView`); what relates a counter to the whole state is an equation between sums. */
module EngineInv {
  import opened Sums
  import opened Engine

  // ---------------------------------------------------------------- one task

  /** The worker that popped the id may leave the task for good. */
  predicate Settled(l: Life) {
    && Terminal(l.status) && !l.resultLocked
    && (!l.status.Cancelled? ==> !l.tally.Untallied? && l.completed)
    && (l.status.Cancelled? ==>
          && (l.completed || (l.winner.Caller? && l.winner.signals && l.winner.open))
          && (l.winner.Shutdown? ==> !l.winner.open))
  }

  /** Not claimed: pending, or cancelled by a caller that signals the completion itself. */
  predicate PreClaim(l: Life) {
    && l.body.Absent? && !l.entered && !l.late && !l.resultLocked
    && (l.status.Pending? || (l.status.Cancelled? && l.winner.Caller? && l.winner.signals))
  }

  /** Claimed and not finalised: running, or an isolated task that a caller cancelled while running. */
  predicate Active(l: Life) {
    && !l.completed
    && (l.status.Running? || (l.status.Cancelled? && l.winner.Caller? && !l.winner.signals))
  }

  predicate CancelledOk(l: Life) {
    && !l.winner.NoWinner?
    && (l.tally.Untallied? || l.tally.AsCancelled?)
    && (l.wrote ==> l.result == CANCELLED_RESULT)
    && (l.winner.Caller? && !l.winner.signals ==> l.isolated)
    && (!l.winner.open ==>
          && l.wrote && l.cancelled && l.tally.AsCancelled?
          && (l.winner.Shutdown? || l.winner.signals ==> l.completed))
  }

  predicate LifeOk(l: Life) {
    && (l.completed ==> Terminal(l.status))
    && (l.entered && !l.isolated ==> !l.late)
    && match l.status
       case Pending =>
         && l.result.Absent? && l.body.Absent? && l.tally.Untallied? && l.winner.NoWinner?
         && !l.cancelled && !l.wrote && !l.entered && !l.late
       case Running => l.tally.Untallied? && l.winner.NoWinner? && !l.cancelled && !l.wrote
       case Cancelled => CancelledOk(l)
       case _ =>
         && l.winner.NoWinner? && !l.cancelled && !l.wrote && !l.late
         && !l.body.Absent? && l.result == l.body && l.status == StatusFor(l.body)
         && (l.tally.Untallied? || l.tally == (if l.status.Completed? then AsCompleted else AsFailed))
  }

  predicate OwnerOk(o: Owner, l: Life, e: Slot) {
    match o
    case Unsent(_) => l.status.Pending? && !l.resultLocked && e == Slot(true, false, e.counted, false, false)
    case Discarded => l.status.Pending? && !e.inSlab && e.counted
    case Queued => PreClaim(l) && e.counted
    case Held(_) => e.counted
    case Finished => Settled(l) && e.counted && (e.owed ==> !e.inSlab)
  }

  /** A sent task leaves the slab only when terminal; after a close call it has left or the worker owes it. */
  predicate SlotOk(o: Owner, l: Life, e: Slot) {
    && (Sent(o) && !e.inSlab ==> Terminal(l.status))
    && (e.owed ==> e.autofree)
    && (e.closed ==> !e.inSlab || e.owed)
  }

  predicate TaskOk(t: Task) {
    LifeOk(t.life) && OwnerOk(t.owner, t.life, t.slot) && SlotOk(t.owner, t.life, t.slot)
  }

  predicate Bodied(l: Life, r: Outcome) {
    Active(l) && l.body == r && !r.Absent? && (l.late ==> l.status.Cancelled?)
  }

  predicate BodyView(pc: WorkerPc, l: Life)
    requires RunningBody(pc)
  {
    match pc
    case Started(_) => Active(l) && !l.entered && l.body.Absent? && !l.resultLocked && (l.late ==> l.status.Cancelled?)
    case Executing(_) => Active(l) && l.body.Absent? && !l.resultLocked && (l.late ==> l.status.Cancelled?)
    case Store(_, r) => Bodied(l, r) && !l.resultLocked
    case StoreLocked(_, r, saw) => Bodied(l, r) && l.resultLocked && (if saw then l.status.Cancelled? else !l.wrote)
  }

  /** Executed and finalised, the completion not yet signalled. */
  predicate Ended(l: Life) {
    && Terminal(l.status) && !l.completed
    && (!l.status.Cancelled? ==> !l.tally.Untallied?)
    && (l.status.Cancelled? ==> l.winner.Caller? && !l.winner.signals)
  }

  predicate FinalView(pc: WorkerPc, l: Life)
    requires Finalising(pc)
  {
    && !l.resultLocked
    && match pc
       case FinalLoad(_, r) => Bodied(l, r) && (l.status.Running? ==> l.result == l.body)
       case FinalCas(_, r, cur) =>
         && Bodied(l, r) && (l.status.Running? ==> l.result == l.body)
         && (cur.Running? || (cur.Cancelled? && l.status.Cancelled?))
       case Bump(_) => (l.status.Completed? || l.status.Failed?) && l.tally.Untallied? && !l.completed
       case _ => Ended(l)
  }

  predicate RecordView(pc: WorkerPc, l: Life)
    requires Recording(pc)
  {
    && l.status.Cancelled? && l.winner == Shutdown(true) && !l.resultLocked
    && l.cancelled == !pc.RecordFlag?
    && l.tally == (if pc.RecordFlag? || pc.RecordCount? then Untallied else AsCancelled)
    && l.wrote == pc.RecordSignal?
  }

  /** What the worker holding the task relies on at each program counter. */
  predicate WorkerView(pc: WorkerPc, l: Life)
    requires Holds(pc)
  {
    if pc.AutoCheck? || pc.Remove? then Settled(l)
    else if pc.PostClaim? || pc.PostCas? then Active(l) && !l.entered && l.body.Absent? && !l.resultLocked
    else if RunningBody(pc) then BodyView(pc, l)
    else if Finalising(pc) then FinalView(pc, l)
    else if Recording(pc) then RecordView(pc, l)
    else PreClaim(l)
  }

  /** What the caller that won the exchange to Cancelled relies on until its last step. */
  predicate WinnerView(a: nat, pc: CallerPc, l: Life)
    requires Announcing(pc)
  {
    && l.status.Cancelled? && l.winner == Caller(a, pc.CSignal? || pc.signals, true)
    && l.tally == (if pc.CCount? then Untallied else AsCancelled)
    && l.cancelled == (pc.CWrite? || pc.CSignal?)
    && l.wrote == pc.CSignal?
  }

  /** What a canceller or closer `a` relies on at each program counter. */
  predicate CallerView(a: nat, pc: CallerPc, t: Task)
    requires Targets(pc)
  {
    && Sent(t.owner)
    && (Announcing(pc) ==> WinnerView(a, pc, t.life))
    && (pc.KAutoLoad? ==> t.slot.autofree)
    && (pc.KRemove? ==> Terminal(t.life.status))
  }

  /** The caller is between winning the exchange to Cancelled on task `i` and its last step there. */
  predicate Winning(pc: CallerPc, i: nat) {
    Announcing(pc) && pc.id == i
  }

  // Each actor keeps the task in order, its own view true and everybody else's view undisturbed.

  /** What every step keeps of a life, whoever takes it. */
  predicate Lives(l: Life, l': Life) {
    && l'.isolated == l.isolated
    && (Terminal(l.status) ==> l'.status == l.status && l'.winner.NoWinner? == l.winner.NoWinner?)
    && (l.wrote ==> l'.wrote && l'.result == l.result)
    && (l.completed ==> l'.completed)
    && (l.late ==> l'.late)
    && (l.winner.Caller? ==> l'.winner.Caller? && l'.winner.caller == l.winner.caller)
    && (l.winner.Shutdown? ==> l'.winner.Shutdown?)
    && (!l.body.Absent? ==> l'.body == l.body)
    && (!l.tally.Untallied? ==> l'.tally == l.tally)
  }

  /** The counter a task is counted in after a worker's step at `pc`. */
  function TallyAfter(pc: WorkerPc, l: Life): Tally {
    if pc.Bump? then if l.status.Completed? then AsCompleted else AsFailed
    else if pc.RecordCount? then AsCancelled
    else l.tally
  }

  /** A step of the worker at a working program counter, with what holds before it. */
  predicate WorkerMove(flag: bool, pc: WorkerPc, l: Life, pc': WorkerPc, l': Life) {
    Working(pc) && LifeStep(flag, pc, l, pc', l') && LifeOk(l) && WorkerView(pc, l) && (l.late ==> flag)
  }

  /** What holds after it. */
  predicate WorkerMoved(flag: bool, pc: WorkerPc, l: Life, pc': WorkerPc, l': Life)
    requires Working(pc)
  {
    && LifeOk(l') && (l'.late ==> flag) && Lives(l, l') && l'.tally == TallyAfter(pc, l)
    && Holds(pc') && pc'.id == pc.id && WorkerView(pc', l')
    && (l'.body == l.body || (pc.Executing? && pc' == Store(pc.id, l'.body)))
    && (l'.winner == l.winner || l'.winner.Shutdown?)
    && (l.winner.Caller? ==> l'.winner == l.winner && l'.tally == l.tally && l'.cancelled == l.cancelled && l'.wrote == l.wrote)
  }

  lemma WorkerChecks(flag: bool, pc: WorkerPc, l: Life, pc': WorkerPc, l': Life)
    requires WorkerMove(flag, pc, l, pc', l') && (pc.Got? || pc.ShutdownCas? || pc.CheckCancelled?)
    ensures WorkerMoved(flag, pc, l, pc', l')
  {
  }

  lemma WorkerClaims(flag: bool, pc: WorkerPc, l: Life, pc': WorkerPc, l': Life)
    requires WorkerMove(flag, pc, l, pc', l') && (pc.Claim? || pc.PostClaim? || pc.PostCas?)
    ensures WorkerMoved(flag, pc, l, pc', l')
  {
  }

  lemma WorkerRunsBody(flag: bool, pc: WorkerPc, l: Life, pc': WorkerPc, l': Life)
    requires WorkerMove(flag, pc, l, pc', l') && RunningBody(pc)
    ensures WorkerMoved(flag, pc, l, pc', l')
  {
  }

  lemma WorkerExchanges(flag: bool, pc: WorkerPc, l: Life, pc': WorkerPc, l': Life)
    requires WorkerMove(flag, pc, l, pc', l') && (pc.FinalLoad? || pc.FinalCas?)
    ensures WorkerMoved(flag, pc, l, pc', l')
  {
  }

  lemma WorkerSignals(flag: bool, pc: WorkerPc, l: Life, pc': WorkerPc, l': Life)
    requires WorkerMove(flag, pc, l, pc', l') && (pc.Bump? || pc.LeaveRunning? || pc.Signal?)
    ensures WorkerMoved(flag, pc, l, pc', l')
  {
  }

  lemma WorkerRecords(flag: bool, pc: WorkerPc, l: Life, pc': WorkerPc, l': Life)
    requires WorkerMove(flag, pc, l, pc', l') && Recording(pc)
    ensures WorkerMoved(flag, pc, l, pc', l')
  {
  }

  lemma WorkerKeepsLife(flag: bool, pc: WorkerPc, l: Life, pc': WorkerPc, l': Life)
    requires WorkerMove(flag, pc, l, pc', l')
    ensures WorkerMoved(flag, pc, l, pc', l')
  {
    if pc.Got? || pc.ShutdownCas? || pc.CheckCancelled? {
      WorkerChecks(flag, pc, l, pc', l');
    } else if Claiming(pc) {
      WorkerClaims(flag, pc, l, pc', l');
    } else if RunningBody(pc) {
      WorkerRunsBody(flag, pc, l, pc', l');
    } else if pc.FinalLoad? || pc.FinalCas? {
      WorkerExchanges(flag, pc, l, pc', l');
    } else if Finalising(pc) {
      WorkerSignals(flag, pc, l, pc', l');
    } else {
      WorkerRecords(flag, pc, l, pc', l');
    }
  }

  /** The same for the whole task, at every program counter that holds one. */
  lemma WorkerKeepsTask(w: nat, flag: bool, pc: WorkerPc, t: Task, pc': WorkerPc, t': Task)
    requires Holds(pc) && WorkerTaskStep(flag, pc, t, pc', t')
    requires TaskOk(t) && t.owner == Held(w) && WorkerView(pc, t.life) && (t.life.late ==> flag)
    ensures TaskOk(t') && (t'.life.late ==> flag) && Lives(t.life, t'.life)
    ensures t'.slot == t.slot.(inSlab := t'.slot.inSlab)
    ensures t'.life.tally == TallyAfter(pc, t.life)
    ensures t'.life.body == t.life.body || (pc.Executing? && pc' == Store(pc.id, t'.life.body))
    ensures t'.life.winner == t.life.winner || t'.life.winner.Shutdown?
    ensures if Holds(pc') then pc'.id == pc.id && t'.owner == t.owner && WorkerView(pc', t'.life) else t'.owner.Finished?
    ensures t.life.winner.Caller? ==>
              && t'.life.winner == t.life.winner && t'.life.tally == t.life.tally
              && t'.life.cancelled == t.life.cancelled && t'.life.wrote == t.life.wrote
  {
    if Working(pc) {
      WorkerKeepsLife(flag, pc, t.life, pc', t'.life);
    }
  }

  lemma WorkerKeepsCaller(a: nat, apc: CallerPc, w: nat, flag: bool, pc: WorkerPc, t: Task, pc': WorkerPc, t': Task)
    requires Holds(pc) && WorkerTaskStep(flag, pc, t, pc', t')
    requires TaskOk(t) && t.owner == Held(w) && WorkerView(pc, t.life) && (t.life.late ==> flag)
    requires Targets(apc) && CallerView(a, apc, t)
    ensures CallerView(a, apc, t')
  {
    WorkerKeepsTask(w, flag, pc, t, pc', t');
  }

  predicate CancelMove(a: nat, pc: CallerPc, l: Life, pc': CallerPc, l': Life) {
    && LifeOk(l)
    && if Announcing(pc) then WinnerView(a, pc, l) && AnnounceStep(a, pc, l, pc', l')
       else (pc.CLoad? || pc.CLoop?) && CancelStep(a, pc, l, pc', l')
  }

  predicate CancelMoved(a: nat, pc: CallerPc, l: Life, pc': CallerPc, l': Life)
    requires Announcing(pc) || pc.CLoad? || pc.CLoop?
  {
    && LifeOk(l') && Lives(l, l') && l'.late == l.late && l'.body == l.body && l'.tally == (if pc.CCount? then AsCancelled else l.tally)
    && (pc'.Idle? || (Targets(pc') && !Closing(pc') && pc'.id == pc.id && (Announcing(pc') ==> WinnerView(a, pc', l'))))
    && (l'.winner.Caller? && l'.winner.open ==>
          if l'.winner == l.winner then Announcing(pc') == Announcing(pc) else l'.winner.caller == a && Announcing(pc'))
  }

  lemma CancelKeepsLife(a: nat, pc: CallerPc, l: Life, pc': CallerPc, l': Life)
    requires CancelMove(a, pc, l, pc', l')
    ensures CancelMoved(a, pc, l, pc', l')
  {
  }

  lemma CancelKeepsPhase(a: nat, pc: CallerPc, l: Life, pc': CallerPc, l': Life)
    requires CancelMove(a, pc, l, pc', l')
    ensures PreClaim(l) ==> PreClaim(l')
    ensures Settled(l) ==> Settled(l')
  {
  }

  lemma CancelKeepsOwner(o: Owner, e: Slot, a: nat, pc: CallerPc, l: Life, pc': CallerPc, l': Life)
    requires CancelMove(a, pc, l, pc', l')
    requires Sent(o) && OwnerOk(o, l, e) && SlotOk(o, l, e)
    ensures OwnerOk(o, l', e) && SlotOk(o, l', e)
  {
    CancelKeepsPhase(a, pc, l, pc', l');
    CancelKeepsLife(a, pc, l, pc', l');
  }

  lemma CancelKeepsWorker(wpc: WorkerPc, a: nat, pc: CallerPc, l: Life, pc': CallerPc, l': Life)
    requires CancelMove(a, pc, l, pc', l')
    requires Holds(wpc) && WorkerView(wpc, l)
    ensures WorkerView(wpc, l')
  {
    CancelKeepsPhase(a, pc, l, pc', l');
  }

  predicate CallerMove(a: nat, pc: CallerPc, t: Task, pc': CallerPc, t': Task) {
    Targets(pc) && CallerTaskStep(a, pc, t, pc', t') && TaskOk(t) && CallerView(a, pc, t)
  }

  lemma CloserKeepsSlot(pc: CallerPc, o: Owner, l: Life, e: Slot, pc': CallerPc, e': Slot)
    requires Closing(pc) && CloseStep(pc, l.status, e, pc', e') && Sent(o)
    requires OwnerOk(o, l, e) && SlotOk(o, l, e)
    requires (pc.KAutoLoad? ==> e.autofree) && (pc.KRemove? ==> Terminal(l.status))
    ensures OwnerOk(o, l, e') && SlotOk(o, l, e') && e'.counted == e.counted && (e.autofree ==> e'.autofree) && (e.closed ==> e'.closed)
    ensures (pc'.KAutoLoad? ==> e'.autofree) && (pc'.KRemove? ==> Terminal(l.status))
    ensures pc'.Idle? || pc'.KCountDown? || (Closing(pc') && pc'.id == pc.id)
  {
  }

  predicate CallerMoved(a: nat, pc: CallerPc, t: Task, pc': CallerPc, t': Task)
    requires Targets(pc)
  {
    && TaskOk(t') && Lives(t.life, t'.life) && t'.life.late == t.life.late && t'.life.body == t.life.body
    && t'.owner == t.owner && t'.slot.counted == t.slot.counted && (t.slot.closed ==> t'.slot.closed)
    && t'.life.tally == (if pc.CCount? then AsCancelled else t.life.tally)
    && (if Targets(pc') then pc'.id == pc.id && CallerView(a, pc', t') else pc'.Idle? || pc'.KCountDown?)
    && var w := t'.life.winner;
       (w.Caller? && w.open ==>
          if w == t.life.winner then Announcing(pc') == Announcing(pc) else w.caller == a && Announcing(pc'))
  }

  lemma CloserKeepsTask(a: nat, pc: CallerPc, t: Task, pc': CallerPc, t': Task)
    requires CallerMove(a, pc, t, pc', t') && (Closing(pc) || pc.CGet?)
    ensures CallerMoved(a, pc, t, pc', t')
  {
    if Closing(pc) {
      CloserKeepsSlot(pc, t.owner, t.life, t.slot, pc', t'.slot);
    }
  }

  lemma CancellerKeepsTask(a: nat, pc: CallerPc, t: Task, pc': CallerPc, t': Task)
    requires CallerMove(a, pc, t, pc', t') && !Closing(pc) && !pc.CGet?
    ensures CallerMoved(a, pc, t, pc', t')
  {
    CancelKeepsLife(a, pc, t.life, pc', t'.life);
    CancelKeepsOwner(t.owner, t.slot, a, pc, t.life, pc', t'.life);
  }

  lemma CallerKeepsTask(a: nat, pc: CallerPc, t: Task, pc': CallerPc, t': Task)
    requires CallerMove(a, pc, t, pc', t')
    ensures CallerMoved(a, pc, t, pc', t')
  {
    if Closing(pc) || pc.CGet? {
      CloserKeepsTask(a, pc, t, pc', t');
    } else {
      CancellerKeepsTask(a, pc, t, pc', t');
    }
  }

  lemma CallerKeepsWorker(wpc: WorkerPc, a: nat, pc: CallerPc, t: Task, pc': CallerPc, t': Task)
    requires CallerMove(a, pc, t, pc', t')
    requires Holds(wpc) && WorkerView(wpc, t.life)
    ensures WorkerView(wpc, t'.life)
  {
    if !Closing(pc) && !pc.CGet? {
      CancelKeepsWorker(wpc, a, pc, t.life, pc', t'.life);
    }
  }

  lemma CallerKeepsCaller(b: nat, bpc: CallerPc, a: nat, pc: CallerPc, t: Task, pc': CallerPc, t': Task)
    requires CallerMove(a, pc, t, pc', t')
    requires a != b && Targets(bpc) && CallerView(b, bpc, t)
    ensures CallerView(b, bpc, t')
  {
    if !Closing(pc) && !pc.CGet? {
      CancelKeepsLife(a, pc, t.life, pc', t'.life);
    }
  }

  // ---------------------------------------------------------------- the counters

  function HeldPermits(pc: CallerPc): nat {
    match pc
    case SBuild(k, _) => k
    case SGate(k, _) => k
    case SCheck(k, _) => k
    case SInsert(k, _, _) => k
    case SCount(k, _, _) => k
    case SSend(k, _, _, n) => if n <= k then k - n else 0
    case SUndo(k, _, _, _) => k
    case SUndoCount(k, _) => k
    case SRelease(k, _, _) => k
    case _ => 0
  }

  function SentUncounted(pc: CallerPc): nat { if pc.SSend? then pc.n else 0 }

  function CallerDebt(pc: CallerPc): nat {
    match pc
    case SUndo(_, _, _, n) => n
    case SUndoCount(_, ids) => |ids|
    case KCountDown => 1
    case _ => 0
  }

  function IsId(m: Message): nat { if m.Id? then 1 else 0 }
  function IsStop(m: Message): nat { if m.Stop? then 1 else 0 }

  function InHand(w: Worker): nat { if w.pc.Popped? then 1 else 0 }
  function WorkerDebt(w: Worker): nat { if w.pc.CountDown? then 1 else 0 }
  function InRunning(w: Worker): nat {
    if w.pc.Executing? || w.pc.Store? || w.pc.StoreLocked? || w.pc.FinalLoad? || w.pc.FinalCas? || w.pc.Bump? || w.pc.LeaveRunning?
    then 1 else 0
  }
  function ExitedIn(w: Worker): nat { if !w.isolated && w.pc.Exited? then 1 else 0 }
  function ExitedIso(w: Worker): nat { if w.isolated && w.pc.Exited? then 1 else 0 }

  function CountedCompleted(t: Task): nat { if t.life.tally.AsCompleted? then 1 else 0 }
  function CountedFailed(t: Task): nat { if t.life.tally.AsFailed? then 1 else 0 }
  function CountedCancelled(t: Task): nat { if t.life.tally.AsCancelled? then 1 else 0 }
  function IsSent(t: Task): nat { if Sent(t.owner) then 1 else 0 }
  function SlabCounted(t: Task): nat { if t.slot.inSlab && t.slot.counted then 1 else 0 }

  predicate Permits(s: State) {
    s.adm.available + Sum(HeldPermits, s.callers) + Sum(IsId, s.inQueue) + Sum(IsId, s.isoQueue) + Sum(InHand, s.workers)
      == s.adm.capacity
  }

  predicate Tallies(s: State) {
    && s.counts.completed == Sum(CountedCompleted, s.tasks)
    && s.counts.failed == Sum(CountedFailed, s.tasks)
    && s.counts.cancelled == Sum(CountedCancelled, s.tasks)
    && s.counts.submitted + Sum(SentUncounted, s.callers) == Sum(IsSent, s.tasks)
  }

  predicate Sizes(s: State) {
    && s.counts.running == Sum(InRunning, s.workers)
    && s.counts.taskCount == Sum(SlabCounted, s.tasks) + Sum(CallerDebt, s.callers) + Sum(WorkerDebt, s.workers)
  }

  // ---------------------------------------------------------------- threads, queues, gate

  /** `i` is an inserted id this submitter has neither sent nor discarded. */
  predicate Submits(pc: CallerPc, i: nat) {
    match pc
    case SInsert(_, _, ids) => i in ids
    case SCount(_, _, ids) => i in ids
    case SSend(_, _, ids, n) => n <= |ids| && i in ids[n..]
    case SUndo(_, _, ids, n) => n <= |ids| && i in ids[n..]
    case _ => false
  }

  predicate Linked(s: State, i: nat)
    requires i < |s.tasks|
  {
    var t := s.tasks[i];
    && (t.owner.Queued? ==> Id(i) in Queue(s, t.life.isolated))
    && (t.owner.Held? ==>
          t.owner.worker < |s.workers| && Holds(s.workers[t.owner.worker].pc) && s.workers[t.owner.worker].pc.id == i)
    && (t.owner.Unsent? ==> t.owner.caller < |s.callers| && Submits(s.callers[t.owner.caller], i))
    && (t.life.winner.Caller? && t.life.winner.open ==>
          t.life.winner.caller < |s.callers| && Winning(s.callers[t.life.winner.caller], i))
    && (t.life.late ==> s.cancelPending)
    && (!t.slot.counted ==>
          && t.owner.Unsent? && s.callers[t.owner.caller].SCount?
          && var ids := s.callers[t.owner.caller].ids; ids[|ids| - 1] == i)
  }

  predicate WorkerOk(s: State, w: nat)
    requires w < |s.workers|
  {
    var pc := s.workers[w].pc;
    Holds(pc) ==>
      && pc.id < |s.tasks| && s.tasks[pc.id].owner == Held(w)
      && s.tasks[pc.id].life.isolated == s.workers[w].isolated && WorkerView(pc, s.tasks[pc.id].life)
  }

  predicate OwnsUnsent(s: State, a: nat, iso: bool, i: nat, counted: bool) {
    && i < |s.tasks| && s.tasks[i].owner == Unsent(a) && s.tasks[i].life.isolated == iso && s.tasks[i].slot.counted == counted
  }

  predicate Increasing(ids: seq<nat>) {
    forall x, y | 0 <= x < y < |ids| :: ids[x] < ids[y]
  }

  predicate SubmitterOk(s: State, a: nat, pc: CallerPc) {
    match pc
    case SWaiting(k, _, e) => e <= s.adm.epoch && (e == s.adm.epoch ==> !s.adm.closed && s.adm.available < k)
    case SInsert(k, iso, ids) =>
      && !s.shutdownStarted && |ids| <= k && Increasing(ids)
      && (forall x | 0 <= x < |ids| :: OwnsUnsent(s, a, iso, ids[x], true))
    case SCount(k, iso, ids) =>
      && !s.shutdownStarted && 0 < |ids| <= k && Increasing(ids)
      && (forall x | 0 <= x < |ids| :: OwnsUnsent(s, a, iso, ids[x], x < |ids| - 1))
    case SSend(k, iso, ids, n) =>
      && !s.shutdownStarted && n <= |ids| == k && Increasing(ids)
      && (forall x | n <= x < |ids| :: OwnsUnsent(s, a, iso, ids[x], true))
    case SUndo(k, iso, ids, n) =>
      && n <= |ids| <= k && Increasing(ids)
      && (forall x | n <= x < |ids| :: OwnsUnsent(s, a, iso, ids[x], true))
    case _ => true
  }

  predicate CallerOk(s: State, a: nat)
    requires a < |s.callers|
  {
    var pc := s.callers[a];
    && (Targets(pc) ==> pc.id < |s.tasks| && CallerView(a, pc, s.tasks[pc.id]))
    && SubmitterOk(s, a, pc)
    && (pc.DSwap? ==> s.adm.closed)
    && ((pc.DUnlock? && pc.first) || pc.DSpawn? ==> s.spawner == Basics.Some(a) && s.stopper.NotSpawned?)
  }

  /** Ids before Stops, each id once, each id that of a queued task of this pool. */
  predicate QueueOk(s: State, iso: bool) {
    var q := Queue(s, iso);
    && (forall x | 0 <= x < |q| && q[x].Id? ::
          q[x].id < |s.tasks| && s.tasks[q[x].id].owner.Queued? && s.tasks[q[x].id].life.isolated == iso)
    && (forall x, y | 0 <= x < y < |q| :: q[x].Id? ==> q[x] != q[y])
    && (forall x, y | 0 <= x < y < |q| :: q[x].Stop? ==> q[y].Stop?)
    && (s.stopper.NotSpawned? ==> Sum(IsStop, q) == 0)
    && (forall w | 0 <= w < |s.workers| && s.workers[w].isolated == iso && s.workers[w].pc.Exited? ::
          !s.stopper.NotSpawned? && Sum(IsId, q) == 0)
  }

  predicate GateOk(s: State) {
    forall a, b | 0 <= a < |s.callers| && 0 <= b < |s.callers| && Writes(s.callers[a]) ::
      !Reads(s.callers[b]) && (Writes(s.callers[b]) ==> a == b)
  }

  function StopsToIn(p: StopperPc, all: nat): nat {
    match p
    case NotSpawned => 0
    case SendIn(n) => n
    case _ => all
  }

  function StopsToIso(p: StopperPc, all: nat): nat {
    match p
    case NotSpawned => 0
    case SendIn(_) => 0
    case SendIso(n) => n
    case _ => all
  }

  /** One Stop per worker: sent, waiting or taken. */
  predicate StopCounts(s: State) {
    && Sum(IsStop, s.inQueue) + Sum(ExitedIn, s.workers) == StopsToIn(s.stopper, Sum(InProcess, s.workers))
    && Sum(IsStop, s.isoQueue) + Sum(ExitedIso, s.workers) == StopsToIso(s.stopper, Sum(Coordinator, s.workers))
    && (s.stopper.SendIn? ==> s.stopper.n <= Sum(InProcess, s.workers))
    && (s.stopper.SendIso? ==> s.stopper.n <= Sum(Coordinator, s.workers))
  }

  predicate StopFlags(s: State) {
    && s.adm.capacity > 0
    && (!s.stopper.NotSpawned? ==> s.shutdownStarted)
    && (s.shutdownStarted <==> s.spawner.Some?)
    && (s.shutdownStarted ==> s.adm.closed)
  }

  /** The joined workers have left, and each pool has someone. */
  predicate StopThreads(s: State) {
    && (s.stopper.Joining? ==> s.stopper.n <= |s.workers| && forall w | 0 <= w < s.stopper.n :: s.workers[w].pc.Exited?)
    && (s.stopper.ClosePool? || s.stopper.Complete? ==> forall w | 0 <= w < |s.workers| :: s.workers[w].pc.Exited?)
    && (exists w :: 0 <= w < |s.workers| && !s.workers[w].isolated)
    && (exists w :: 0 <= w < |s.workers| && s.workers[w].isolated)
  }

  predicate StopsOk(s: State) {
    StopCounts(s) && StopFlags(s) && StopThreads(s)
  }

  predicate TasksOk(s: State) { forall i {:trigger TaskOk(s.tasks[i])} | 0 <= i < |s.tasks| :: TaskOk(s.tasks[i]) }
  predicate LinksOk(s: State) { forall i | 0 <= i < |s.tasks| :: Linked(s, i) }
  predicate WorkersOk(s: State) { forall w | 0 <= w < |s.workers| :: WorkerOk(s, w) }
  predicate CallersOk(s: State) { forall a | 0 <= a < |s.callers| :: CallerOk(s, a) }

  predicate Inv(s: State) {
    && TasksOk(s) && LinksOk(s) && WorkersOk(s) && CallersOk(s)
    && QueueOk(s, false) && QueueOk(s, true) && GateOk(s) && StopsOk(s)
    && Permits(s) && Tallies(s) && Sizes(s)
  }
}
