/** The pool of idle worker processes: acquire, release with recycling, the idle reaper and shutdown. */
module Pool {
  import opened Basics
  import opened Sums

  /** A worker process. `ran` is history: the task requests ever written to it. */
  datatype Worker = Worker(tasksRun: nat, lastUsed: nat, alive: bool, ran: nat)

  // ---------------------------------------------------------------- acquire

  datatype Popped = Popped(worker: Option<Worker>, rest: seq<Worker>)

  /** `acquire_worker` under the lock: pops from the back until a live worker turns up. */
  function Pop(workers: seq<Worker>): Popped {
    if workers == [] then Popped(None, [])
    else
      var last := workers[|workers| - 1];
      if last.alive then Popped(Some(last), workers[..|workers| - 1]) else Pop(workers[..|workers| - 1])
  }

  /** The youngest live worker, with everything behind it dropped; none exactly when all are dead, and then the pool is empty. */
  lemma {:induction false} PopFinds(workers: seq<Worker>)
    ensures var p := Pop(workers);
            match p.worker
            case Some(w) =>
              && w.alive && p.rest + [w] <= workers
              && forall i | |p.rest| < i < |workers| :: !workers[i].alive
            case None => p.rest == [] && forall i | 0 <= i < |workers| :: !workers[i].alive
  {
    if workers != [] && !workers[|workers| - 1].alive {
      PopFinds(workers[..|workers| - 1]);
    }
  }

  /** `release_worker` gives up a worker that is recycled, dead or late. */
  predicate Keeps(limit: nat, shutdown: bool, w: Worker) {
    !shutdown && !(limit > 0 && w.tasksRun >= limit) && w.alive
  }

  // ---------------------------------------------------------------- the reaper

  predicate Expired(now: nat, timeout: nat, w: Worker) {
    (if now >= w.lastUsed then now - w.lastUsed else 0) > timeout
  }

  function Active(now: nat, timeout: nat): Worker -> nat {
    (w: Worker) => if Expired(now, timeout, w) then 0 else 1
  }

  /** `Vec::swap_remove`: the last element takes the place of the removed one. */
  function SwapRemove(s: seq<Worker>, i: nat): (r: seq<Worker>)
    requires i < |s|
    ensures |r| == |s| - 1
  {
    s[i := s[|s| - 1]][..|s| - 1]
  }

  lemma CancelCommon(a: multiset<Worker>, b: multiset<Worker>, common: multiset<Worker>)
    requires a + common == b + common
    ensures a == b
  {
    forall w ensures a[w] == b[w] {
      assert (a + common)[w] == (b + common)[w];
    }
  }

  lemma SwapRemoveKeeps(s: seq<Worker>, i: nat)
    requires i < |s|
    ensures multiset(SwapRemove(s, i)) == multiset(s) - multiset{s[i]}
    ensures forall j | 0 <= j < i :: SwapRemove(s, i)[j] == s[j]
  {
    var last := |s| - 1;
    var t := s[i := s[last]];
    assert t == t[..last] + [s[last]];
    var m := multiset(s) - multiset{s[i]};
    assert multiset(t) == m + multiset{s[last]};
    assert multiset(t) == multiset(t[..last]) + multiset{s[last]};
    assert SwapRemove(s, i) == t[..last];
    CancelCommon(multiset(t[..last]), m, multiset{s[last]});
  }

  lemma SwapRemoveCount(weight: Worker -> nat, s: seq<Worker>, i: nat)
    requires i < |s|
    ensures Sum(weight, SwapRemove(s, i)) == Sum(weight, s) - weight(s[i])
  {
    SumUpdate(weight, s, i, s[|s| - 1]);
    SumDropLast(weight, s[i := s[|s| - 1]]);
  }

  lemma {:induction false} ActiveCount(now: nat, timeout: nat, s: seq<Worker>)
    ensures Sum(Active(now, timeout), s) <= |s|
    ensures (forall w | w in s :: !Expired(now, timeout, w)) ==> Sum(Active(now, timeout), s) == |s|
  {
    if s != [] {
      ActiveCount(now, timeout, s[1..]);
    }
  }

  function Max(a: int, b: int): int {
    if a < b then b else a
  }

  /** The exact effect of one reaper pass. */
  ghost predicate ReapedExactly(before: seq<Worker>, after: seq<Worker>, victims: seq<Worker>, now: nat, timeout: nat, minimum: nat) {
    && multiset(after) + multiset(victims) == multiset(before)
    && (forall w | w in victims :: Expired(now, timeout, w))
    && |after| == Max(Sum(Active(now, timeout), before), Min(|before|, minimum))
  }

  /** What the pass has achieved once it stands at index `i`. */
  ghost predicate ReapPass(before: seq<Worker>, ws: seq<Worker>, victims: seq<Worker>, i: nat, now: nat, timeout: nat, minimum: nat) {
    && i <= |ws| <= |before|
    && multiset(ws) + multiset(victims) == multiset(before)
    && (forall w | w in victims :: Expired(now, timeout, w))
    && Sum(Active(now, timeout), ws) == Sum(Active(now, timeout), before)
    && |ws| >= Min(|before|, minimum)
    && (|ws| > minimum ==> forall j | 0 <= j < i :: !Expired(now, timeout, ws[j]))
  }

  lemma ReapOne(before: seq<Worker>, ws: seq<Worker>, victims: seq<Worker>, i: nat, now: nat, timeout: nat, minimum: nat)
    requires ReapPass(before, ws, victims, i, now, timeout, minimum)
    requires i < |ws| && |ws| > minimum && Expired(now, timeout, ws[i])
    ensures ReapPass(before, SwapRemove(ws, i), victims + [ws[i]], i, now, timeout, minimum)
  {
    SwapRemoveKeeps(ws, i);
    SwapRemoveCount(Active(now, timeout), ws, i);
    var rest := SwapRemove(ws, i);
    assert ws[i] in multiset(ws);
    assert multiset(victims + [ws[i]]) == multiset(victims) + multiset{ws[i]};
    assert multiset(rest) + multiset{ws[i]} == multiset(ws);
  }

  lemma ReapDone(before: seq<Worker>, ws: seq<Worker>, victims: seq<Worker>, now: nat, timeout: nat, minimum: nat)
    requires ReapPass(before, ws, victims, |ws|, now, timeout, minimum)
    ensures ReapedExactly(before, ws, victims, now, timeout, minimum)
    ensures forall w | w in victims :: w.lastUsed + timeout < now
    ensures |ws| > minimum ==> forall w | w in ws :: now <= w.lastUsed + timeout
  {
    ActiveCount(now, timeout, ws);
  }

  /** The vector of idle workers behind its mutex, and the shutdown flag. */
  class ProcessPool {
    var workers: seq<Worker>
    var shutdown: bool

    constructor ()
      ensures workers == [] && !shutdown
    {
      workers, shutdown := [], false;
    }

    /** The pop loop of `acquire_worker`. */
    method Acquire() returns (r: Option<Worker>)
      modifies this`workers
      ensures Popped(r, workers) == Pop(old(workers))
    {
      while workers != []
        invariant Pop(workers) == Pop(old(workers))
        decreases |workers|
      {
        var worker := workers[|workers| - 1];
        workers := workers[..|workers| - 1];
        if worker.alive {
          return Some(worker);
        }
      }
      return None;
    }

    method Release(limit: nat, worker: Worker, now: nat) returns (kept: bool)
      modifies this`workers
      ensures kept <==> !shutdown && (limit == 0 || worker.tasksRun < limit) && worker.alive
      ensures workers == old(workers) + if kept then [worker.(lastUsed := now)] else []
    {
      if shutdown || (limit > 0 && worker.tasksRun >= limit) {
        return false;
      }
      if worker.alive {
        workers := workers + [worker.(lastUsed := now)];
        return true;
      }
      return false;
    }

    /** One pass of the reaper, in place. */
    method Reap(now: nat, timeout: nat, minimum: nat) returns (victims: seq<Worker>)
      modifies this`workers
      ensures ReapedExactly(old(workers), workers, victims, now, timeout, minimum)
      ensures forall w | w in victims :: w.lastUsed + timeout < now
      ensures |workers| > minimum ==> forall w | w in workers :: now <= w.lastUsed + timeout
    {
      victims := [];
      var i := 0;
      while i < |workers|
        invariant ReapPass(old(workers), workers, victims, i, now, timeout, minimum)
        decreases |workers| - i
      {
        if |workers| > minimum && Expired(now, timeout, workers[i]) {
          ReapOne(old(workers), workers, victims, i, now, timeout, minimum);
          victims := victims + [workers[i]];
          workers := SwapRemove(workers, i);
        } else {
          i := i + 1;
        }
      }
      ReapDone(old(workers), workers, victims, now, timeout, minimum);
    }

    method Shutdown() returns (dropped: seq<Worker>)
      modifies this
      ensures shutdown && workers == [] && dropped == old(workers)
    {
      shutdown := true;
      dropped := workers;
      workers := [];
    }
  }

  // ---------------------------------------------------------------- coordinators around the pool

  /** One isolated-task coordinator. A worker value moves between coordinators and the pool, never copied. */
  datatype Coordinator =
    | Free
    | Checked
    | Spawning
    | Holding(worker: Worker)
    | Running(worker: Worker)
    | Returned(worker: Worker)
    | Pushing(worker: Worker)
    | Gone

  datatype State = State(limit: nat, idle: seq<Worker>, shutdown: bool, drained: bool, coordinators: seq<Coordinator>)

  /** Worker processes can die at any time; everything else about them stays. */
  predicate SameButAlive(w: Worker, w': Worker) {
    w' == w.(alive := w'.alive) && (w'.alive ==> w.alive)
  }

  predicate Deaths(s: seq<Worker>, s': seq<Worker>) {
    |s'| == |s| && forall i | 0 <= i < |s| :: SameButAlive(s[i], s'[i])
  }

  predicate HeldDeath(pc: Coordinator, pc': Coordinator) {
    || pc' == pc
    || (pc.Holding? && pc'.Holding? && SameButAlive(pc.worker, pc'.worker))
    || (pc.Running? && pc'.Running? && SameButAlive(pc.worker, pc'.worker))
    || (pc.Returned? && pc'.Returned? && SameButAlive(pc.worker, pc'.worker))
    || (pc.Pushing? && pc'.Pushing? && SameButAlive(pc.worker, pc'.worker))
  }

  predicate HeldDeaths(s: seq<Coordinator>, s': seq<Coordinator>) {
    |s'| == |s| && forall c | 0 <= c < |s| :: HeldDeath(s[c], s'[c])
  }

  predicate CoordinatorStep(s: State, s': State, pc: Coordinator, pc': Coordinator) {
    match pc
    case Free => s' == s && (pc'.Gone? || (pc'.Checked? && !s.shutdown))
    case Checked =>
      var p := Pop(s.idle);
      s' == s.(idle := p.rest) && pc' == if p.worker.Some? then Holding(p.worker.value) else Spawning
    case Spawning =>
      // the second shutdown check, a failed start, or a connected child with its registries synchronised
      s' == s && (pc'.Free? || (!s.shutdown && pc'.Holding? && pc'.worker.tasksRun == 0 && pc'.worker.ran == 0))
    case Holding(w) =>
      // an unregistered name gives the worker back unused, other early errors lose it
      s' == s && (pc'.Free? || pc' == Returned(w) || pc' == Running(w.(ran := w.ran + 1)))
    case Running(w) => s' == s && (pc'.Free? || pc' == Returned(w.(tasksRun := w.tasksRun + 1)))
    case Returned(w) =>
      && s' == s
      && (if Keeps(s.limit, s.shutdown, w) then pc'.Pushing? && pc'.worker == w.(lastUsed := pc'.worker.lastUsed) else pc' == Free)
    case Pushing(w) => s' == s.(idle := s.idle + [w]) && pc' == Free
    case Gone => false
  }

  datatype Step =
    | Coordinate(c: nat, pc: Coordinator)
    | Reaping(victims: seq<Worker>, now: nat, timeout: nat, minimum: nat)
    | Dying
    | Flagging
    | Draining

  /** `shutdown_process_pool` is called once every coordinator has been joined. */
  ghost predicate Does(s: State, step: Step, s': State) {
    match step
    case Coordinate(c, pc) =>
      && c < |s.coordinators|
      && CoordinatorStep(s, s'.(coordinators := s.coordinators), s.coordinators[c], pc)
      && s'.coordinators == s.coordinators[c := pc]
    case Reaping(victims, now, timeout, minimum) =>
      s' == s.(idle := s'.idle) && ReapedExactly(s.idle, s'.idle, victims, now, timeout, minimum)
    case Dying =>
      && s' == s.(idle := s'.idle, coordinators := s'.coordinators)
      && Deaths(s.idle, s'.idle) && HeldDeaths(s.coordinators, s'.coordinators)
    case Flagging => (forall c | 0 <= c < |s.coordinators| :: s.coordinators[c].Gone?) && s' == s.(shutdown := true)
    case Draining => s.shutdown && s' == s.(idle := [], drained := true)
  }

  ghost predicate Next(s: State, s': State) {
    exists step :: Does(s, step, s')
  }

  ghost predicate Init(s: State) {
    s.idle == [] && !s.shutdown && !s.drained && forall c | 0 <= c < |s.coordinators| :: s.coordinators[c] == Free
  }

  ghost predicate StepAt(r: seq<State>, n: nat)
    requires n + 1 < |r|
  {
    Next(r[n], r[n + 1])
  }

  ghost predicate Run(r: seq<State>) {
    && r != [] && Init(r[0])
    && forall n :: 0 <= n < |r| - 1 ==> StepAt(r, n)
  }

  // ---------------------------------------------------------------- the invariant

  /** A coordinator that owns a worker or is about to start one. */
  function Owns(pc: Coordinator): nat {
    if pc.Free? || pc.Checked? || pc.Gone? then 0 else 1
  }

  /** A worker that may still be given a task. */
  predicate Reusable(limit: nat, w: Worker) {
    w.ran == w.tasksRun && (limit > 0 ==> w.tasksRun < limit)
  }

  predicate WithinLimit(limit: nat, pc: Coordinator) {
    match pc
    case Holding(w) => Reusable(limit, w)
    case Running(w) => w.ran == w.tasksRun + 1 && (limit > 0 ==> w.ran <= limit)
    case Returned(w) => w.ran == w.tasksRun && (limit > 0 ==> w.ran <= limit)
    case Pushing(w) => Reusable(limit, w)
    case _ => true
  }

  ghost predicate Inv(s: State) {
    && |s.idle| + Sum(Owns, s.coordinators) <= |s.coordinators|
    && (forall w | w in s.idle :: Reusable(s.limit, w))
    && (forall c | 0 <= c < |s.coordinators| :: WithinLimit(s.limit, s.coordinators[c]))
    && (s.shutdown ==> forall c | 0 <= c < |s.coordinators| :: s.coordinators[c].Gone?)
    && (s.drained ==> s.shutdown && s.idle == [])
  }

  lemma {:induction false} OwnersAreFew(s: seq<Coordinator>)
    ensures Sum(Owns, s) <= |s|
  {
    if s != [] {
      OwnersAreFew(s[1..]);
    }
  }

  lemma PopShrinks(s: seq<Worker>)
    ensures var p := Pop(s); |p.rest| + (if p.worker.Some? then 1 else 0) <= |s| && forall w | w in p.rest :: w in s
    ensures Pop(s).worker.Some? ==> Pop(s).worker.value in s
  {
    PopFinds(s);
    var p := Pop(s);
    if p.worker.Some? {
      assert (p.rest + [p.worker.value])[|p.rest|] == p.worker.value;
      assert forall i | 0 <= i < |p.rest| :: p.rest[i] == (p.rest + [p.worker.value])[i];
    }
  }

  /** The ownership bound across one coordinator step: a new owner is paid for by a popped worker or an empty pool. */
  lemma CoordinateInv(s: State, s': State, c: nat, pc: Coordinator)
    requires Inv(s) && Does(s, Coordinate(c, pc), s')
    ensures Inv(s')
  {
    SumUpdate(Owns, s.coordinators, c, pc);
    OwnersAreFew(s'.coordinators);
    PopFinds(s.idle);
    PopShrinks(s.idle);
    assert WithinLimit(s.limit, s.coordinators[c]);
  }

  lemma ReapingInv(s: State, s': State, victims: seq<Worker>, now: nat, timeout: nat, minimum: nat)
    requires Inv(s) && Does(s, Reaping(victims, now, timeout, minimum), s')
    ensures Inv(s')
  {
    assert |multiset(s'.idle)| + |multiset(victims)| == |multiset(s.idle)|;
    forall w | w in s'.idle ensures w in s.idle {
      assert w in multiset(s'.idle) && w in multiset(s.idle);
    }
  }

  lemma {:induction false} SameOwners(s: seq<Coordinator>, s': seq<Coordinator>)
    requires HeldDeaths(s, s')
    ensures Sum(Owns, s') == Sum(Owns, s)
  {
    if s != [] {
      assert HeldDeath(s[0], s'[0]);
      assert HeldDeaths(s[1..], s'[1..]) by {
        forall c | 0 <= c < |s[1..]| ensures HeldDeath(s[1..][c], s'[1..][c]) {
          assert HeldDeath(s[c + 1], s'[c + 1]);
        }
      }
      SameOwners(s[1..], s'[1..]);
    }
  }

  lemma DyingInv(s: State, s': State)
    requires Inv(s) && Does(s, Dying, s')
    ensures Inv(s')
  {
    SameOwners(s.coordinators, s'.coordinators);
    forall w | w in s'.idle ensures Reusable(s.limit, w) {
      var i :| 0 <= i < |s'.idle| && s'.idle[i] == w;
      assert SameButAlive(s.idle[i], s'.idle[i]) && s.idle[i] in s.idle;
    }
    forall c | 0 <= c < |s'.coordinators|
      ensures WithinLimit(s.limit, s'.coordinators[c]) && (s.shutdown ==> s'.coordinators[c].Gone?)
    {
      assert WithinLimit(s.limit, s.coordinators[c]) && HeldDeath(s.coordinators[c], s'.coordinators[c]);
    }
  }

  lemma NextInv(s: State, step: Step, s': State)
    requires Inv(s) && Does(s, step, s')
    ensures Inv(s')
  {
    match step {
      case Coordinate(c, pc) => CoordinateInv(s, s', c, pc);
      case Reaping(victims, now, timeout, minimum) => ReapingInv(s, s', victims, now, timeout, minimum);
      case Dying =>
        DyingInv(s, s');
      case Flagging =>
      case Draining =>
    }
  }

  lemma {:induction false} RunInv(r: seq<State>, n: nat)
    requires Run(r) && n < |r|
    ensures Inv(r[n]) && |r[n].coordinators| == |r[0].coordinators| && r[n].limit == r[0].limit
  {
    if n == 0 {
      SumZero(Owns, r[0].coordinators);
    } else {
      RunInv(r, n - 1);
      assert StepAt(r, n - 1);
      var step :| Does(r[n - 1], step, r[n]);
      NextInv(r[n - 1], step, r[n]);
    }
  }

  // ---------------------------------------------------------------- what every run keeps

  /** Idle, held and starting workers together never outnumber the coordinators, which number `max_processes`. */
  lemma ProcessBound(r: seq<State>, n: nat)
    requires Run(r) && n < |r|
    ensures |r[n].idle| + Sum(Owns, r[n].coordinators) <= |r[0].coordinators|
  {
    RunInv(r, n);
  }

  /** With a positive recycle limit an idle worker has run fewer tasks than the limit and no worker ever runs more. */
  lemma RecycleLimit(r: seq<State>, n: nat)
    requires Run(r) && n < |r| && r[0].limit > 0
    ensures forall w | w in r[n].idle :: w.ran < r[0].limit
    ensures forall c | 0 <= c < |r[n].coordinators| ::
              match r[n].coordinators[c]
              case Holding(w) => w.ran < r[0].limit
              case Pushing(w) => w.ran < r[0].limit
              case Running(w) => w.ran <= r[0].limit
              case Returned(w) => w.ran <= r[0].limit
              case _ => true
  {
    RunInv(r, n);
    forall c | 0 <= c < |r[n].coordinators| ensures WithinLimit(r[0].limit, r[n].coordinators[c]) {
    }
  }

  /**
   * A coordinator that gives back a worker parts with it only for cause: shutdown, the recycle limit, or death.
   * Any other worker goes to the pool, unchanged but for its time stamp.
   */
  lemma ReleasedForCause(r: seq<State>, n: nat, c: nat, pc: Coordinator)
    requires Run(r) && n + 1 < |r| && Does(r[n], Coordinate(c, pc), r[n + 1]) && r[n].coordinators[c].Returned?
    ensures var w, limit := r[n].coordinators[c].worker, r[n].limit;
            if r[n].shutdown || (limit > 0 && w.ran >= limit) || !w.alive then pc == Free
            else pc.Pushing? && pc.worker == w.(lastUsed := pc.worker.lastUsed)
  {
    RunInv(r, n);
    assert WithinLimit(r[n].limit, r[n].coordinators[c]);
  }

  /** What a coordinator does next when nothing goes wrong. */
  function Onward(s: State, pc: Coordinator): Coordinator
    requires !pc.Gone?
  {
    match pc
    case Free => if s.shutdown then Gone else Checked
    case Checked => if Pop(s.idle).worker.Some? then Holding(Pop(s.idle).worker.value) else Spawning
    case Spawning => if s.shutdown then Free else Holding(Worker(0, 0, true, 0))
    case Holding(w) => Running(w.(ran := w.ran + 1))
    case Running(w) => Returned(w.(tasksRun := w.tasksRun + 1))
    case Returned(w) => if Keeps(s.limit, s.shutdown, w) then Pushing(w) else Free
    case Pushing(_) => Free
  }

  /** No coordinator ever hangs: until it is gone it can go on, through start, run, return and release. */
  lemma CoordinatorGoesOn(s: State, c: nat) returns (s': State)
    requires c < |s.coordinators| && !s.coordinators[c].Gone?
    ensures Does(s, Coordinate(c, Onward(s, s.coordinators[c])), s')
    ensures s.coordinators[c].Pushing? ==> s'.idle == s.idle + [s.coordinators[c].worker]
  {
    var pc := s.coordinators[c];
    var idle := if pc.Checked? then Pop(s.idle).rest else if pc.Pushing? then s.idle + [pc.worker] else s.idle;
    s' := s.(idle := idle, coordinators := s.coordinators[c := Onward(s, pc)]);
  }

  /** A coordinator that needs a worker takes the youngest live idle one, and starts one only when there is none. */
  lemma AcquiresIdle(r: seq<State>, n: nat, c: nat, pc: Coordinator)
    requires Run(r) && n + 1 < |r| && Does(r[n], Coordinate(c, pc), r[n + 1]) && r[n].coordinators[c].Checked?
    ensures if exists i :: 0 <= i < |r[n].idle| && r[n].idle[i].alive
            then exists i :: 0 <= i < |r[n].idle| && r[n].idle[i].alive && pc == Holding(r[n].idle[i]) && r[n + 1].idle == r[n].idle[..i]
                             && forall j | i < j < |r[n].idle| :: !r[n].idle[j].alive
            else pc == Spawning && r[n + 1].idle == []
  {
    PopFinds(r[n].idle);
    var p := Pop(r[n].idle);
    if p.worker.Some? {
      var i, idle := |p.rest|, r[n].idle;
      Snoc(p.rest, p.worker.value);
      assert idle[i] == p.worker.value && idle[..i] == p.rest;
    }
  }

  /** Once shutdown has drained the pool no worker is left anywhere, because every coordinator was joined first. */
  lemma DrainedForGood(r: seq<State>, n: nat)
    requires Run(r) && n < |r| && r[n].drained
    ensures r[n].idle == [] && Sum(Owns, r[n].coordinators) == 0
  {
    RunInv(r, n);
    SumZero(Owns, r[n].coordinators);
  }
}
