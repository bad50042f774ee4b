/** The task engine as a step machine: submitters, cancellers, handle closers and shutdown callers
    (`callers`), the two worker pools (`workers`) and the shutdown thread (`stopper`) interleave
    over one shared state. Every atomic operation, lock section or channel operation of
    src/broker.rs and src/worker.rs is one step; interleavings are sequentially consistent.

    A task id is the position of its record in `tasks`: ids are never reused. */
module Engine {
  import opened Sums
  import Basics

  datatype Status = Pending | Running | Completed | Failed | Cancelled

  predicate Terminal(st: Status) {
    st.Completed? || st.Failed? || st.Cancelled?
  }

  datatype ErrorText = TaskCancelled | Other(text: int)

  /** What a task body returns, and what is stored as its result; `Absent` before that. */
  datatype Outcome = Absent | Ok(value: int) | Err(error: ErrorText)

  const CANCELLED_RESULT := Err(TaskCancelled)

  /** The outcome counter a task was counted in (history). */
  datatype Tally = Untallied | AsCompleted | AsFailed | AsCancelled

  function StatusFor(r: Outcome): Status {
    if r.Ok? then Completed else Failed
  }

  /** Who won the exchange to Cancelled (history). `open` until the winner has done all its steps;
      `signals` unless the winner leaves the completion signal to the coordinator. */
  datatype Winner = NoWinner | Caller(caller: nat, signals: bool, open: bool) | Shutdown(open: bool)

  /** The life of a task: its atomic cells, and what has happened to it so far. */
  datatype Life = Life(
    isolated: bool,
    status: Status,
    result: Outcome,
    resultLocked: bool,
    completed: bool,
    cancelled: bool,
    // History: no step reads these.
    winner: Winner,
    wrote: bool,        // the winner has written the cancelled result
    body: Outcome,      // what the body returned
    entered: bool,      // the body was started
    late: bool,         // claimed after the cancel-pending store
    tally: Tally)

  /** The slab entry and the autofree cell. */
  datatype Slot = Slot(
    inSlab: bool,
    autofree: bool,
    // History: no step reads these.
    counted: bool,      // task_count was raised for it
    owed: bool,         // a closer left the removal to the worker
    closed: bool)       // some close call on the handle has finished

  /** Who is responsible for a task id (history; only a caller's first step reads it). */
  datatype Owner = Unsent(caller: nat) | Discarded | Queued | Held(worker: nat) | Finished

  datatype Task = Task(owner: Owner, life: Life, slot: Slot)

  function NewTask(isolated: bool, caller: nat): Task {
    Task(Unsent(caller),
         Life(isolated, Pending, Absent, false, false, false, NoWinner, false, Absent, false, false, Untallied),
         Slot(true, false, false, false, false))
  }

  predicate Sent(o: Owner) {
    o.Queued? || o.Held? || o.Finished?
  }

  datatype Message = Id(id: nat) | Stop

  /** Program counter of a worker thread (`worker_loop`, `isolated_worker_loop`). */
  datatype WorkerPc =
    | Receiving
    | Popped(id: nat)                  // before admission.release(1)
    | Released(id: nat)                // before the slab lookup
    | Got(id: nat)                     // before the first cancel-pending check
    | ShutdownCas(id: nat)             // before Pending -> Cancelled
    | CheckCancelled(id: nat)
    | Claim(id: nat)                   // before Pending -> Running
    | PostClaim(id: nat)               // before the second cancel-pending check
    | PostCas(id: nat)                 // before Running -> Cancelled
    | Started(id: nat)                 // before running_count + 1
    | Executing(id: nat)
    | Store(id: nat, r: Outcome)       // before taking the result lock
    | StoreLocked(id: nat, r: Outcome, saw: bool)
    | FinalLoad(id: nat, r: Outcome)
    | FinalCas(id: nat, r: Outcome, cur: Status)
    | Bump(id: nat)                    // before completed/failed + 1
    | LeaveRunning(id: nat)            // before running_count - 1
    | Signal(id: nat)                  // before completed := true
    | RecordFlag(id: nat) | RecordCount(id: nat) | RecordResult(id: nat) | RecordSignal(id: nat)
    | AutoCheck(id: nat)               // before the autofree check
    | Remove(id: nat)                  // before the slab removal
    | CountDown                        // before task_count - 1
    | Exited

  predicate Holds(pc: WorkerPc) {
    !(pc.Receiving? || pc.CountDown? || pc.Exited?)
  }

  datatype Worker = Worker(isolated: bool, pc: WorkerPc)

  /** Program counter of a thread calling the public API. */
  datatype CallerPc =
    | Idle
    // enqueue_task / enqueue_batch; a single task is a batch of one
    | SCheckStarted(k: nat, iso: bool)
    | SCheckClosed(k: nat, iso: bool)
    | SReserve(k: nat, iso: bool)
    | SWaiting(k: nat, iso: bool, epoch: nat)   // on the condvar; asleep while no later notify
    | SFailed(k: nat)
    | SBuild(k: nat, iso: bool)
    | SGate(k: nat, iso: bool)
    | SCheck(k: nat, iso: bool)
    | SInsert(k: nat, iso: bool, ids: seq<nat>)
    | SCount(k: nat, iso: bool, ids: seq<nat>)
    | SSend(k: nat, iso: bool, ids: seq<nat>, n: nat)
    | SUndo(k: nat, iso: bool, ids: seq<nat>, n: nat)
    | SUndoCount(k: nat, ids: seq<nat>)
    | SRelease(k: nat, gate: bool, reject: bool)
    | SReject(k: nat, gate: bool)
    // cancel_task
    | CGet(id: nat) | CLoad(id: nat) | CLoop(id: nat, cur: Status)
    | CCount(id: nat, signals: bool) | CFlag(id: nat, signals: bool)
    | CWrite(id: nat, signals: bool) | CSignal(id: nat)
    // TaskHandle.close, set_autofree, free_task
    | KGet(id: nat) | KLoad(id: nat) | KAutoGet(id: nat) | KAutoStore(id: nat) | KAutoLoad(id: nat)
    | KRemove(id: nat) | KCountDown
    // shutdown_engine
    | DGate(wait: bool, cancel: bool) | DFlag(wait: bool, cancel: bool) | DClose(wait: bool)
    | DSwap(wait: bool) | DUnlock(wait: bool, first: bool) | DSpawn(wait: bool) | DWait

  predicate Targets(pc: CallerPc) {
    pc.CGet? || pc.CLoad? || pc.CLoop? || pc.CCount? || pc.CFlag? || pc.CWrite? || pc.CSignal? ||
    pc.KGet? || pc.KLoad? || pc.KAutoGet? || pc.KAutoStore? || pc.KAutoLoad? || pc.KRemove?
  }

  /** Holds the submission gate for reading. */
  predicate Reads(pc: CallerPc) {
    pc.SCheck? || pc.SInsert? || pc.SCount? || pc.SSend? || pc.SUndo? || pc.SUndoCount? ||
    (pc.SRelease? && pc.gate) || (pc.SReject? && pc.gate)
  }

  /** Holds the submission gate for writing. */
  predicate Writes(pc: CallerPc) {
    pc.DFlag? || pc.DClose? || pc.DSwap? || pc.DUnlock?
  }

  datatype StopperPc = NotSpawned | SendIn(n: nat) | SendIso(n: nat) | Joining(n: nat) | ClosePool | Complete

  /** `QueueAdmission`; `epoch` is the number of notify_all calls on its condvar. */
  datatype Admission = Admission(capacity: nat, available: nat, epoch: nat, closed: bool)

  /** The statistics of the broker. */
  datatype Counters = Counters(
    taskCount: int, submitted: nat, rejected: nat, running: int, completed: nat, failed: nat, cancelled: nat)

  datatype State = State(
    adm: Admission,
    inQueue: seq<Message>,
    isoQueue: seq<Message>,
    tasks: seq<Task>,
    counts: Counters,
    shutdownStarted: bool,
    cancelPending: bool,
    callers: seq<CallerPc>,
    workers: seq<Worker>,
    stopper: StopperPc,
    spawner: Basics.Option<nat>)     // history: the caller whose swap was first

  function Queue(s: State, iso: bool): seq<Message> {
    if iso then s.isoQueue else s.inQueue
  }

  function WithQueue(s: State, iso: bool, q: seq<Message>): State {
    if iso then s.(isoQueue := q) else s.(inQueue := q)
  }

  function SetCaller(s: State, a: nat, pc: CallerPc): State
    requires a < |s.callers|
  {
    s.(callers := s.callers[a := pc])
  }

  function SetTask(s: State, i: nat, t: Task): State
    requires i < |s.tasks|
  {
    s.(tasks := s.tasks[i := t])
  }

  /** `QueueAdmission::release`: the addition is clipped and every waiter is notified. */
  function Release(m: Admission, k: nat): Admission {
    m.(available := Min(m.available + k, m.capacity), epoch := m.epoch + 1)
  }

  function InProcess(w: Worker): nat { if w.isolated then 0 else 1 }
  function Coordinator(w: Worker): nat { if w.isolated then 1 else 0 }

  // ---------------------------------------------------------------- worker threads

  predicate Claiming(pc: WorkerPc) {
    pc.Got? || pc.ShutdownCas? || pc.CheckCancelled? || pc.Claim? || pc.PostClaim? || pc.PostCas?
  }

  predicate RunningBody(pc: WorkerPc) {
    pc.Started? || pc.Executing? || pc.Store? || pc.StoreLocked?
  }

  predicate Finalising(pc: WorkerPc) {
    pc.FinalLoad? || pc.FinalCas? || pc.Bump? || pc.LeaveRunning? || pc.Signal?
  }

  predicate Recording(pc: WorkerPc) {
    pc.RecordFlag? || pc.RecordCount? || pc.RecordResult? || pc.RecordSignal?
  }

  /** `claim_pending_for_execution`; `flag` is the cancel-pending-on-shutdown flag. */
  predicate ClaimStep(flag: bool, pc: WorkerPc, l: Life, pc': WorkerPc, l': Life)
    requires Claiming(pc)
  {
    var i := pc.id;
    match pc
    case Got(_) => pc' == (if flag then ShutdownCas(i) else CheckCancelled(i)) && l' == l
    case ShutdownCas(_) =>
      if l.status.Pending? then pc' == RecordFlag(i) && l' == l.(status := Cancelled, winner := Shutdown(true))
      else pc' == CheckCancelled(i) && l' == l
    case CheckCancelled(_) => pc' == (if l.cancelled then AutoCheck(i) else Claim(i)) && l' == l
    case Claim(_) =>
      if l.status.Pending? then pc' == PostClaim(i) && l' == l.(status := Running, late := flag)
      else pc' == AutoCheck(i) && l' == l
    case PostClaim(_) => pc' == (if flag then PostCas(i) else Started(i)) && l' == l
    case PostCas(_) =>
      if l.status.Running? then pc' == RecordFlag(i) && l' == l.(status := Cancelled, winner := Shutdown(true))
      else pc' == Started(i) && l' == l
  }

  /** The body, with any outcome, and the store of its result under the result lock. */
  predicate BodyStep(pc: WorkerPc, l: Life, pc': WorkerPc, l': Life)
    requires RunningBody(pc)
  {
    var i := pc.id;
    match pc
    case Started(_) => pc' == Executing(i) && l' == l.(entered := true)
    case Executing(_) => pc'.Store? && pc'.id == i && !pc'.r.Absent? && l' == l.(body := pc'.r)
    case Store(_, r) =>
      !l.resultLocked && pc' == StoreLocked(i, r, l.status.Cancelled?) && l' == l.(resultLocked := true)
    case StoreLocked(_, r, saw) =>
      pc' == FinalLoad(i, r) && l' == l.(resultLocked := false, result := if saw then l.result else r)
  }

  /** The exchange loop to the final status, the counters and the completion signal. */
  predicate FinalStep(pc: WorkerPc, l: Life, pc': WorkerPc, l': Life)
    requires Finalising(pc)
  {
    var i := pc.id;
    match pc
    case FinalLoad(_, r) => pc' == FinalCas(i, r, l.status) && l' == l
    case FinalCas(_, r, cur) =>
      if cur.Cancelled? then pc' == LeaveRunning(i) && l' == l
      else
        || (l.status == cur && pc' == Bump(i) && l' == l.(status := StatusFor(r)))
        || (pc' == FinalCas(i, r, l.status) && l' == l)   // failed exchange, spurious or not
    case Bump(_) => pc' == LeaveRunning(i) && l' == l.(tally := if l.status.Completed? then AsCompleted else AsFailed)
    case LeaveRunning(_) => pc' == Signal(i) && l' == l
    case Signal(_) => pc' == AutoCheck(i) && l' == l.(completed := true)
  }

  /** `record_shutdown_cancellation`. */
  predicate RecordStep(pc: WorkerPc, l: Life, pc': WorkerPc, l': Life)
    requires Recording(pc)
  {
    var i := pc.id;
    match pc
    case RecordFlag(_) => pc' == RecordCount(i) && l' == l.(cancelled := true)
    case RecordCount(_) => pc' == RecordResult(i) && l' == l.(tally := AsCancelled)
    case RecordResult(_) =>
      !l.resultLocked && pc' == RecordSignal(i) && l' == l.(result := CANCELLED_RESULT, wrote := true)
    case RecordSignal(_) => pc' == AutoCheck(i) && l' == l.(completed := true, winner := Shutdown(false))
  }

  /** The program counters at which the worker acts on the life of its task, not on its slot. */
  predicate Working(pc: WorkerPc) {
    Claiming(pc) || RunningBody(pc) || Finalising(pc) || Recording(pc)
  }

  predicate LifeStep(flag: bool, pc: WorkerPc, l: Life, pc': WorkerPc, l': Life)
    requires Working(pc)
  {
    if Claiming(pc) then ClaimStep(flag, pc, l, pc', l')
    else if RunningBody(pc) then BodyStep(pc, l, pc', l')
    else if Finalising(pc) then FinalStep(pc, l, pc', l')
    else RecordStep(pc, l, pc', l')
  }

  /** One step of the worker holding task `t`, seen from the task. */
  predicate WorkerTaskStep(flag: bool, pc: WorkerPc, t: Task, pc': WorkerPc, t': Task)
    requires Holds(pc)
  {
    var i := pc.id;
    if Working(pc) then t' == t.(life := t'.life) && LifeStep(flag, pc, t.life, pc', t'.life)
    else match pc
    case Popped(_) => pc' == Released(i) && t' == t
    case Released(_) =>
      if t.slot.inSlab then pc' == Got(i) && t' == t
      else pc' == Receiving && t' == t.(owner := Finished)
    case AutoCheck(_) =>
      if t.slot.autofree then pc' == Remove(i) && t' == t
      else pc' == Receiving && t' == t.(owner := Finished)
    case Remove(_) =>
      && pc' == (if t.slot.inSlab then CountDown else Receiving)
      && t' == t.(owner := Finished, slot := t.slot.(inSlab := false))
  }

  /** The counters a step of a worker at `pc` on a task of status `st` changes. */
  function WorkerCounters(c: Counters, pc: WorkerPc, st: Status): Counters {
    match pc
    case Started(_) => c.(running := c.running + 1)
    case LeaveRunning(_) => c.(running := c.running - 1)
    case Bump(_) => if st.Completed? then c.(completed := c.completed + 1) else c.(failed := c.failed + 1)
    case RecordCount(_) => c.(cancelled := c.cancelled + 1)
    case _ => c
  }

  predicate WorkerHoldStep(s: State, s': State, w: nat)
    requires w < |s.workers| && Holds(s.workers[w].pc)
  {
    var pc := s.workers[w].pc;
    var i := pc.id;
    && i < |s.tasks| == |s'.tasks| && w < |s'.workers|
    && WorkerTaskStep(s.cancelPending, pc, s.tasks[i], s'.workers[w].pc, s'.tasks[i])
    && s' == AfterHold(s, w, s'.workers[w].pc, s'.tasks[i])
  }

  /** The state after worker `w` has moved to `pc'` and its task to `t'`. */
  function AfterHold(s: State, w: nat, pc': WorkerPc, t': Task): State
    requires w < |s.workers| && Holds(s.workers[w].pc) && s.workers[w].pc.id < |s.tasks|
  {
    var pc := s.workers[w].pc;
    s.(adm := if pc.Popped? then Release(s.adm, 1) else s.adm,
       counts := WorkerCounters(s.counts, pc, s.tasks[pc.id].life.status),
       tasks := s.tasks[pc.id := t'],
       workers := s.workers[w := Worker(s.workers[w].isolated, pc')])
  }

  predicate WorkerFreeStep(s: State, s': State, w: nat)
    requires w < |s.workers| && !Holds(s.workers[w].pc)
  {
    var me := s.workers[w];
    var q := Queue(s, me.isolated);
    match me.pc
    case Receiving =>
      && q != []
      && (match q[0]
          case Stop =>
            s' == WithQueue(s, me.isolated, q[1..]).(workers := s.workers[w := me.(pc := Exited)])
          case Id(i) =>
            && i < |s.tasks|
            && s' == WithQueue(s, me.isolated, q[1..]).(
                       tasks := s.tasks[i := s.tasks[i].(owner := Held(w))],
                       workers := s.workers[w := me.(pc := Popped(i))]))
    case CountDown => s' == s.(counts := s.counts.(taskCount := s.counts.taskCount - 1), workers := s.workers[w := me.(pc := Receiving)])
    case _ => false
  }

  predicate WorkerStep(s: State, s': State, w: nat)
    requires w < |s.workers|
  {
    if Holds(s.workers[w].pc) then WorkerHoldStep(s, s', w) else WorkerFreeStep(s, s', w)
  }

  // ---------------------------------------------------------------- cancel and close

  predicate Announcing(pc: CallerPc) { pc.CCount? || pc.CFlag? || pc.CWrite? || pc.CSignal? }
  predicate Closing(pc: CallerPc) {
    pc.KGet? || pc.KLoad? || pc.KAutoGet? || pc.KAutoStore? || pc.KAutoLoad? || pc.KRemove?
  }

  /** `cancel_task` up to the exchange to Cancelled. */
  predicate CancelStep(a: nat, pc: CallerPc, l: Life, pc': CallerPc, l': Life)
    requires pc.CLoad? || pc.CLoop?
  {
    var i := pc.id;
    match pc
    case CLoad(_) => pc' == CLoop(i, l.status) && l' == l
    case CLoop(_, cur) =>
      if Terminal(cur) || (cur.Running? && !l.isolated) then pc' == Idle && l' == l
      else
        || (l.status == cur && pc' == CCount(i, cur.Pending?) &&
            l' == l.(status := Cancelled, winner := Caller(a, cur.Pending?, true)))
        || (pc' == CLoop(i, l.status) && l' == l)         // failed exchange, spurious or not
  }

  /** `cancel_task` after it won the exchange. */
  predicate AnnounceStep(a: nat, pc: CallerPc, l: Life, pc': CallerPc, l': Life)
    requires Announcing(pc)
  {
    var i := pc.id;
    match pc
    case CCount(_, signals) => pc' == CFlag(i, signals) && l' == l.(tally := AsCancelled)
    case CFlag(_, signals) => pc' == CWrite(i, signals) && l' == l.(cancelled := true)
    case CWrite(_, signals) =>
      && !l.resultLocked
      && pc' == (if signals then CSignal(i) else Idle)
      && l' == l.(result := CANCELLED_RESULT, wrote := true, winner := Caller(a, signals, signals))
    case CSignal(_) => pc' == Idle && l' == l.(completed := true, winner := Caller(a, true, false))
  }

  /** `TaskHandle.close`: free a terminal task, otherwise `set_autofree`. */
  predicate CloseStep(pc: CallerPc, st: Status, e: Slot, pc': CallerPc, e': Slot)
    requires Closing(pc)
  {
    var i := pc.id;
    match pc
    case KGet(_) =>
      if e.inSlab then pc' == KLoad(i) && e' == e else pc' == Idle && e' == e.(closed := true)
    case KLoad(_) => pc' == (if Terminal(st) then KRemove(i) else KAutoGet(i)) && e' == e
    case KAutoGet(_) =>
      if e.inSlab then pc' == KAutoStore(i) && e' == e else pc' == Idle && e' == e.(closed := true)
    case KAutoStore(_) => pc' == KAutoLoad(i) && e' == e.(autofree := true)
    case KAutoLoad(_) =>
      if Terminal(st) then pc' == KRemove(i) && e' == e
      else pc' == Idle && e' == e.(owed := true, closed := true)
    case KRemove(_) =>
      pc' == (if e.inSlab then KCountDown else Idle) && e' == e.(inSlab := false, closed := true)
  }

  /** One step of a canceller or closer `a`, seen from its task. */
  predicate CallerTaskStep(a: nat, pc: CallerPc, t: Task, pc': CallerPc, t': Task)
    requires Targets(pc)
  {
    if pc.CGet? then pc' == (if t.slot.inSlab then CLoad(pc.id) else Idle) && t' == t
    else if Closing(pc) then t' == t.(slot := t'.slot) && CloseStep(pc, t.life.status, t.slot, pc', t'.slot)
    else
      && t' == t.(life := t'.life)
      && if Announcing(pc) then AnnounceStep(a, pc, t.life, pc', t'.life) else CancelStep(a, pc, t.life, pc', t'.life)
  }

  predicate TargetStep(s: State, s': State, a: nat)
    requires a < |s.callers| && Targets(s.callers[a])
  {
    var pc := s.callers[a];
    var i := pc.id;
    && i < |s.tasks| == |s'.tasks| && a < |s'.callers|
    && CallerTaskStep(a, pc, s.tasks[i], s'.callers[a], s'.tasks[i])
    && s' == s.(counts := s.counts.(cancelled := s.counts.cancelled + if pc.CCount? then 1 else 0),
                tasks := s.tasks[i := s'.tasks[i]],
                callers := s.callers[a := s'.callers[a]])
  }

  // ---------------------------------------------------------------- submission

  predicate NoWriter(s: State) {
    forall b | 0 <= b < |s.callers| :: !Writes(s.callers[b])
  }

  predicate GateFree(s: State) {
    forall b | 0 <= b < |s.callers| :: !Writes(s.callers[b]) && !Reads(s.callers[b])
  }

  /** The lock section of `reserve`: fail, grant, or (re-)enter the wait. */
  predicate ReserveSection(s: State, s': State, a: nat, k: nat, iso: bool)
    requires a < |s.callers|
  {
    || ((k > s.adm.capacity || s.adm.closed || s.adm.available < k) && s' == SetCaller(s, a, SFailed(k)))
    || (!s.adm.closed && k <= s.adm.available &&
        s' == SetCaller(s.(adm := s.adm.(available := s.adm.available - k)), a, SBuild(k, iso)))
    || (!s.adm.closed && s.adm.available < k <= s.adm.capacity && s' == SetCaller(s, a, SWaiting(k, iso, s.adm.epoch)))
  }

  predicate AllExited(s: State, iso: bool) {
    forall w | 0 <= w < |s.workers| && s.workers[w].isolated == iso :: s.workers[w].pc.Exited?
  }

  /** `try_send` is refused: the channel is full or every receiver is gone. */
  predicate SendRefused(s: State, iso: bool) {
    |Queue(s, iso)| >= s.adm.capacity || AllExited(s, iso)
  }

  predicate Reserving(pc: CallerPc) {
    pc.SCheckStarted? || pc.SCheckClosed? || pc.SReserve? || pc.SWaiting? || pc.SFailed?
  }

  predicate Entering(pc: CallerPc) {
    pc.SBuild? || pc.SGate? || pc.SCheck?
  }

  predicate Batching(pc: CallerPc) {
    pc.SInsert? || pc.SCount? || pc.SSend? || pc.SUndo?
  }

  predicate Backing(pc: CallerPc) {
    pc.SUndoCount? || pc.SRelease? || pc.SReject?
  }

  /** The early checks and `reserve`. */
  predicate ReserveStep(s: State, s': State, a: nat)
    requires a < |s.callers| && Reserving(s.callers[a])
  {
    match s.callers[a]
    case SCheckStarted(k, iso) =>
      s' == SetCaller(s, a, if s.shutdownStarted then Idle else SCheckClosed(k, iso))
    case SCheckClosed(k, iso) => s' == SetCaller(s, a, if s.adm.closed then Idle else SReserve(k, iso))
    case SReserve(k, iso) => ReserveSection(s, s', a, k, iso)
    // woken by a notification, a timeout or spuriously
    case SWaiting(k, iso, _) => ReserveSection(s, s', a, k, iso)
    case SFailed(k) =>
      s' == if s.adm.closed then SetCaller(s, a, Idle)
            else SetCaller(s.(counts := s.counts.(rejected := s.counts.rejected + k)), a, Idle)
  }

  /** Building the records, taking the gate for reading, the check behind it. */
  predicate EnterStep(s: State, s': State, a: nat)
    requires a < |s.callers| && Entering(s.callers[a])
  {
    match s.callers[a]
    case SBuild(k, iso) =>
      || s' == SetCaller(s, a, SGate(k, iso))
      || s' == SetCaller(s, a, SRelease(k, false, false))   // the task factory failed
    case SGate(k, iso) => NoWriter(s) && s' == SetCaller(s, a, SCheck(k, iso))
    case SCheck(k, iso) =>
      s' == SetCaller(s, a, if s.shutdownStarted then SRelease(k, true, false) else SInsert(k, iso, []))
  }

  /** Inserting and sending the batch; undoing it when the slab is full or a send is refused. */
  predicate BatchStep(s: State, s': State, a: nat)
    requires a < |s.callers| && Batching(s.callers[a])
  {
    match s.callers[a]
    case SInsert(k, iso, ids) =>
      if |ids| >= k then s' == SetCaller(s, a, SSend(k, iso, ids, 0))
      else
        || s' == SetCaller(s.(tasks := s.tasks + [NewTask(iso, a)]), a, SCount(k, iso, ids + [|s.tasks|]))
        || s' == SetCaller(s, a, SUndo(k, iso, ids, 0))     // the slab is full
    case SCount(k, iso, ids) =>
      && ids != [] && ids[|ids| - 1] < |s.tasks|
      && var i := ids[|ids| - 1];
         s' == SetCaller(SetTask(s.(counts := s.counts.(taskCount := s.counts.taskCount + 1)),
                                 i, s.tasks[i].(slot := s.tasks[i].slot.(counted := true))),
                         a, SInsert(k, iso, ids))
    case SSend(k, iso, ids, n) =>
      if n >= |ids| then s' == SetCaller(s.(counts := s.counts.(submitted := s.counts.submitted + k)), a, Idle)
      else if SendRefused(s, iso) then s' == SetCaller(s, a, SUndo(k, iso, ids, 0))
      else
        && ids[n] < |s.tasks|
        && s' == SetCaller(
                   SetTask(WithQueue(s, iso, Queue(s, iso) + [Id(ids[n])]), ids[n], s.tasks[ids[n]].(owner := Queued)),
                   a, SSend(k, iso, ids, n + 1))
    case SUndo(k, iso, ids, n) =>
      if n >= |ids| then s' == SetCaller(s, a, SUndoCount(k, ids))
      else
        && ids[n] < |s.tasks|
        && var t := s.tasks[ids[n]];
           s' == SetCaller(SetTask(s, ids[n], t.(owner := Discarded, slot := t.slot.(inSlab := false))),
                           a, SUndo(k, iso, ids, n + 1))
  }

  /** The counters and permits on the failing paths. */
  predicate BackStep(s: State, s': State, a: nat)
    requires a < |s.callers| && Backing(s.callers[a])
  {
    match s.callers[a]
    case SUndoCount(k, ids) =>
      s' == SetCaller(s.(counts := s.counts.(taskCount := s.counts.taskCount - |ids|)), a, SRelease(k, true, true))
    case SRelease(k, gate, reject) =>
      s' == SetCaller(s.(adm := Release(s.adm, k)), a, if reject then SReject(k, gate) else Idle)
    case SReject(k, _) => s' == SetCaller(s.(counts := s.counts.(rejected := s.counts.rejected + k)), a, Idle)
  }

  // ---------------------------------------------------------------- shutdown

  predicate ShutdownStep(s: State, s': State, a: nat)
    requires a < |s.callers|
  {
    match s.callers[a]
    case DGate(wait, cancel) => GateFree(s) && s' == SetCaller(s, a, DFlag(wait, cancel))
    case DFlag(wait, cancel) => s' == SetCaller(s.(cancelPending := s.cancelPending || cancel), a, DClose(wait))
    case DClose(wait) => s' == SetCaller(s.(adm := s.adm.(closed := true, epoch := s.adm.epoch + 1)), a, DSwap(wait))
    case DSwap(wait) =>
      s' == SetCaller(s.(shutdownStarted := true, spawner := if s.shutdownStarted then s.spawner else Basics.Some(a)),
                      a, DUnlock(wait, !s.shutdownStarted))
    case DUnlock(wait, first) =>
      s' == SetCaller(s, a, if first then DSpawn(wait) else if wait then DWait else Idle)
    case DSpawn(wait) => s' == SetCaller(s.(stopper := SendIn(0)), a, if wait then DWait else Idle)
    case DWait => s.stopper.Complete? && s' == SetCaller(s, a, Idle)
    case _ => false
  }

  /** The thread spawned by the first shutdown: one Stop per worker, then join them all. */
  predicate StopperStep(s: State, s': State) {
    match s.stopper
    case NotSpawned => false
    case SendIn(n) =>
      if n >= Sum(InProcess, s.workers) then s' == s.(stopper := SendIso(0))
      else |s.inQueue| < s.adm.capacity && s' == s.(inQueue := s.inQueue + [Stop], stopper := SendIn(n + 1))
    case SendIso(n) =>
      if n >= Sum(Coordinator, s.workers) then s' == s.(stopper := Joining(0))
      else |s.isoQueue| < s.adm.capacity && s' == s.(isoQueue := s.isoQueue + [Stop], stopper := SendIso(n + 1))
    case Joining(n) =>
      if n >= |s.workers| then s' == s.(stopper := ClosePool)
      else s.workers[n].pc.Exited? && s' == s.(stopper := Joining(n + 1))
    case ClosePool => s' == s.(stopper := Complete)
    case Complete => false
  }

  // ---------------------------------------------------------------- the machine

  /** A caller enters the API: any submission, a cancel or close of an id that was sent, a shutdown. */
  predicate BeginStep(s: State, s': State, a: nat)
    requires a < |s.callers|
  {
    && s.callers[a].Idle? && a < |s'.callers|
    && s' == SetCaller(s, a, s'.callers[a])
    && (match s'.callers[a]
        case SCheckStarted(_, _) => true
        case CGet(i) => i < |s.tasks| && Sent(s.tasks[i].owner)
        case KGet(i) => i < |s.tasks| && Sent(s.tasks[i].owner)
        case DGate(_, _) => true
        case _ => false)
  }

  predicate CallerStep(s: State, s': State, a: nat)
    requires a < |s.callers|
  {
    var pc := s.callers[a];
    if pc.Idle? then BeginStep(s, s', a)
    else if Reserving(pc) then ReserveStep(s, s', a)
    else if Entering(pc) then EnterStep(s, s', a)
    else if Batching(pc) then BatchStep(s, s', a)
    else if Backing(pc) then BackStep(s, s', a)
    else if Targets(pc) then TargetStep(s, s', a)
    else if pc.KCountDown? then
      s' == SetCaller(s.(counts := s.counts.(taskCount := s.counts.taskCount - 1)), a, Idle)
    else ShutdownStep(s, s', a)
  }

  ghost predicate Next(s: State, s': State) {
    || (exists w :: 0 <= w < |s.workers| && WorkerStep(s, s', w))
    || (exists a :: 0 <= a < |s.callers| && CallerStep(s, s', a))
    || StopperStep(s, s')
  }

  /** `get_engine`: empty, with at least one worker in each pool and a positive capacity. */
  predicate Init(s: State) {
    && s.adm.capacity > 0 && s.adm.available == s.adm.capacity && s.adm.epoch == 0 && !s.adm.closed
    && s.inQueue == [] && s.isoQueue == [] && s.tasks == []
    && s.counts.taskCount == 0 && s.counts.submitted == 0 && s.counts.rejected == 0 && s.counts.running == 0
    && s.counts.completed == 0 && s.counts.failed == 0 && s.counts.cancelled == 0
    && !s.shutdownStarted && !s.cancelPending
    && s.stopper.NotSpawned? && s.spawner.None?
    && (forall a | 0 <= a < |s.callers| :: s.callers[a].Idle?)
    && (forall w | 0 <= w < |s.workers| :: s.workers[w].pc.Receiving?)
    && (exists w :: 0 <= w < |s.workers| && !s.workers[w].isolated)
    && (exists w :: 0 <= w < |s.workers| && s.workers[w].isolated)
  }

  ghost predicate StepAt(r: seq<State>, n: nat)
    requires n + 1 < |r|
  {
    Next(r[n], r[n + 1])
  }

  /** A run: any finite sequence of steps from an initial state. */
  ghost predicate Run(r: seq<State>) {
    && r != [] && Init(r[0])
    && forall n :: 0 <= n < |r| - 1 ==> StepAt(r, n)
  }
}
