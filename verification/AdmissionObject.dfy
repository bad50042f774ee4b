/** `QueueAdmission` as the object it is, and why its lock sections are the admission steps of the engine. */
module AdmissionObject {
  import Engine
  import opened Sums

  type Admission = Engine.Admission

  datatype Reserved = Granted | Refused | Asleep

  /**
   * One turn of the wait loop: whether the deadline had passed before the wait, and, after it, whether the
   * wait timed out and what the other threads had made of the admission.
   */
  datatype Turn = Turn(expired: bool, timedOut: bool, found: Admission)

  datatype Reservation = Reservation(outcome: Reserved, after: Admission)

  /** The last lock section of a reservation that sees enough permits. */
  function Settle(m: Admission, count: nat): Reservation
    requires count <= m.available
  {
    if m.closed then Reservation(Refused, m) else Reservation(Granted, m.(available := m.available - count))
  }

  /** The wait loop, turn by turn; `bounded` unless the deadline overflowed. */
  function Waits(m: Admission, count: nat, bounded: bool, turns: seq<Turn>): Reservation
    decreases |turns|
  {
    if count <= m.available then Settle(m, count)
    else if m.closed then Reservation(Refused, m)
    else if turns == [] then Reservation(Asleep, m)
    else if bounded && turns[0].expired then Reservation(Refused, m)
    else
      var found := turns[0].found;
      if bounded && turns[0].timedOut && found.available < count then Reservation(Refused, found)
      else Waits(found, count, bounded, turns[1..])
  }

  function Reserves(m: Admission, count: nat, zero: bool, bounded: bool, turns: seq<Turn>): Reservation {
    if count > m.capacity || m.closed then Reservation(Refused, m)
    else if zero then if m.available < count then Reservation(Refused, m) else Settle(m, count)
    else Waits(m, count, bounded, turns)
  }

  /** The states of the admission in which the reservation had the lock. */
  function Seen(m: Admission, turns: seq<Turn>): set<Admission> {
    {m} + set t | t in turns :: t.found
  }

  /**
   * A grant takes exactly `count` permits from an open admission that has them, and changes nothing else. A
   * refusal changes nothing and a sleeper sleeps only on an open admission that is short of permits.
   */
  lemma {:induction false} WaitsOnce(m: Admission, count: nat, bounded: bool, turns: seq<Turn>)
    ensures var r := Waits(m, count, bounded, turns);
            match r.outcome
            case Granted =>
              exists last :: last in Seen(m, turns) && !last.closed && count <= last.available &&
                             r.after == last.(available := last.available - count)
            case Refused => r.after in Seen(m, turns) && (r.after.closed || r.after.available < count)
            case Asleep => r.after in Seen(m, turns) && !r.after.closed && r.after.available < count
    decreases |turns|
  {
    if m.available < count && !m.closed && turns != [] && !(bounded && turns[0].expired) {
      var found := turns[0].found;
      WaitsOnce(found, count, bounded, turns[1..]);
      assert Seen(found, turns[1..]) <= Seen(m, turns);
    }
  }

  // ---------------------------------------------------------------- what decides a reservation

  /** The admission at the reservation's stay number `i` under the lock. */
  function StateAt(m: Admission, turns: seq<Turn>, i: nat): Admission
    requires i <= |turns|
  {
    if i == 0 then m else turns[i - 1].found
  }

  predicate Short(m: Admission, count: nat) {
    !m.closed && m.available < count
  }

  predicate Enough(m: Admission, count: nat) {
    !m.closed && count <= m.available
  }

  /** The reservation has found the admission open and short at its first `i` stays, and its time was not up. */
  predicate StillWaiting(m: Admission, count: nat, bounded: bool, turns: seq<Turn>, i: nat)
    requires i <= |turns|
  {
    && (forall j | 0 <= j < i :: Short(StateAt(m, turns, j), count))
    && (bounded ==> forall j | 0 <= j < i :: !turns[j].expired && (turns[j].timedOut ==> j == i - 1))
  }

  lemma TailState(m: Admission, turns: seq<Turn>, i: nat)
    requires 0 < i <= |turns|
    ensures StateAt(turns[0].found, turns[1..], i - 1) == StateAt(m, turns, i)
  {
  }

  lemma TailWaiting(m: Admission, count: nat, bounded: bool, turns: seq<Turn>, i: nat)
    requires 0 < i <= |turns| && StillWaiting(m, count, bounded, turns, i)
    ensures StillWaiting(turns[0].found, count, bounded, turns[1..], i - 1)
  {
    forall j | 0 <= j < i - 1 ensures Short(StateAt(turns[0].found, turns[1..], j), count) {
      TailState(m, turns, j + 1);
      assert Short(StateAt(m, turns, j + 1), count);
    }
  }

  /** After waiting in vain for `i` stays the reservation is where it would be if it began there. */
  lemma {:induction false} WaitsFrom(m: Admission, count: nat, bounded: bool, turns: seq<Turn>, i: nat)
    requires i <= |turns| && StillWaiting(m, count, bounded, turns, i)
    requires i > 0 && bounded && turns[i - 1].timedOut ==> count <= turns[i - 1].found.available
    ensures Waits(m, count, bounded, turns) == Waits(StateAt(m, turns, i), count, bounded, turns[i..])
    decreases |turns|
  {
    if i == 0 {
      assert turns[0..] == turns;
    } else {
      assert Short(StateAt(m, turns, 0), count);
      TailWaiting(m, count, bounded, turns, i);
      TailState(m, turns, i);
      if i > 1 {
        assert Short(StateAt(m, turns, 1), count);
      }
      WaitsFrom(turns[0].found, count, bounded, turns[1..], i - 1);
      assert turns[1..][i - 1..] == turns[i..];
    }
  }

  /**
   * A reservation that waited in vain for `i` stays, its time not up, and then finds the admission open with
   * enough permits is granted there and takes exactly its count.
   */
  lemma GrantedWhenEnough(m: Admission, count: nat, zero: bool, bounded: bool, turns: seq<Turn>, i: nat)
    requires i <= |turns| && StillWaiting(m, count, bounded, turns, i) && Enough(StateAt(m, turns, i), count)
    requires count <= m.capacity && (zero ==> i == 0)
    ensures var last := StateAt(m, turns, i);
            Reserves(m, count, zero, bounded, turns) == Reservation(Granted, last.(available := last.available - count))
  {
    if i > 0 {
      assert Short(StateAt(m, turns, 0), count);
    }
    WaitsFrom(m, count, bounded, turns, i);
  }

  /** A reservation that finds the admission open and short every time, its time not up, goes on waiting. */
  lemma AsleepWhileShort(m: Admission, count: nat, bounded: bool, turns: seq<Turn>)
    requires count <= m.capacity && StillWaiting(m, count, bounded, turns, |turns|) && Short(StateAt(m, turns, |turns|), count)
    requires bounded && turns != [] ==> !turns[|turns| - 1].timedOut
    ensures Reserves(m, count, false, bounded, turns) == Reservation(Asleep, StateAt(m, turns, |turns|))
  {
    if turns != [] {
      assert Short(StateAt(m, turns, 0), count);
    }
    WaitsFrom(m, count, bounded, turns, |turns|);
  }

  /** The admission was found closed, or the time was up. */
  predicate WaitCause(m: Admission, bounded: bool, turns: seq<Turn>) {
    || (exists i :: 0 <= i <= |turns| && StateAt(m, turns, i).closed)
    || (bounded && exists i :: 0 <= i < |turns| && (turns[i].expired || turns[i].timedOut))
  }

  lemma {:induction false} WaitsRefused(m: Admission, count: nat, bounded: bool, turns: seq<Turn>)
    requires Waits(m, count, bounded, turns).outcome == Refused
    ensures WaitCause(m, bounded, turns)
    decreases |turns|
  {
    if m.closed {
      assert StateAt(m, turns, 0).closed;
    } else if !(bounded && (turns[0].expired || turns[0].timedOut)) {
      var found, rest := turns[0].found, turns[1..];
      WaitsRefused(found, count, bounded, rest);
      if i :| 0 <= i <= |rest| && StateAt(found, rest, i).closed {
        TailState(m, turns, i + 1);
      } else {
        var i :| 0 <= i < |rest| && (rest[i].expired || rest[i].timedOut);
        assert turns[i + 1] == rest[i];
      }
    }
  }

  /** A refusal has a cause: the batch is too large, a call that does not wait found too little, the admission was
      found closed, or the time was up. */
  lemma RefusedForCause(m: Admission, count: nat, zero: bool, bounded: bool, turns: seq<Turn>)
    requires Reserves(m, count, zero, bounded, turns).outcome == Refused
    ensures count > m.capacity || (zero && m.available < count) || WaitCause(m, bounded, turns)
  {
    if m.closed {
      assert StateAt(m, turns, 0).closed;
    } else if count <= m.capacity && !zero {
      WaitsRefused(m, count, bounded, turns);
    }
  }

  // ---------------------------------------------------------------- lock sections are engine steps

  /** One stay of the reservation under the lock: the engine before it and after it. */
  datatype Section = Section(before: Engine.State, after: Engine.State)

  /** Caller `a` of `s` is about to reserve, or has just been woken while reserving, with the admission as in `m`. */
  predicate Reserving(s: Engine.State, a: nat, count: nat, iso: bool, m: Admission) {
    && a < |s.callers| && s.adm == m
    && (s.callers[a] == Engine.SReserve(count, iso) || (s.callers[a].SWaiting? && s.callers[a].k == count && s.callers[a].iso == iso))
  }

  /** The engine whenever a wait returns: other threads have made of it what they like. */
  predicate Worlds(worlds: seq<Engine.State>, a: nat, count: nat, iso: bool, turns: seq<Turn>) {
    |worlds| == |turns| && forall i | 0 <= i < |turns| :: Reserving(worlds[i], a, count, iso, turns[i].found)
  }

  /** The section is a step of the caller. */
  predicate IsStep(section: Section, a: nat) {
    a < |section.before.callers| && Engine.CallerStep(section.before, section.after, a)
  }

  predicate AllSteps(sections: seq<Section>, a: nat) {
    forall i | 0 <= i < |sections| :: IsStep(sections[i], a)
  }

  lemma OneMoreStep(first: Section, later: seq<Section>, a: nat)
    requires IsStep(first, a) && AllSteps(later, a)
    ensures AllSteps([first] + later, a)
  {
    forall i | 0 <= i < |[first] + later| ensures IsStep(([first] + later)[i], a) {
      assert i > 0 ==> ([first] + later)[i] == later[i - 1];
    }
  }

  predicate EndsAsleep(section: Section, a: nat) {
    a < |section.after.callers| && section.after.callers[a].SWaiting?
  }

  /**
   * `sections` is a way through the engine for a reservation that starts in `s` and wakes in `worlds`: every
   * section is a step of the caller, all but the last end asleep, and the last ends as `r` says.
   */
  predicate Walk(sections: seq<Section>, s: Engine.State, worlds: seq<Engine.State>, a: nat, r: Reservation) {
    && AllSteps(sections, a)
    && Route(sections, s, worlds, a, r)
  }

  /** Where a walk leads, apart from its sections being steps. */
  predicate Route(sections: seq<Section>, s: Engine.State, worlds: seq<Engine.State>, a: nat, r: Reservation) {
    && 0 < |sections| <= 1 + |worlds|
    && sections[0].before == s
    && (forall i | 0 < i < |sections| :: sections[i].before == worlds[i - 1])
    && (forall i | 0 <= i < |sections| - 1 :: EndsAsleep(sections[i], a))
    && var last := sections[|sections| - 1].after;
       && last.adm == r.after && a < |last.callers|
       && match r.outcome
          case Granted => last.callers[a].SBuild?
          case Refused => last.callers[a].SFailed?
          case Asleep => last.callers[a].SWaiting?
  }

  /** The state after one section with the given outcome. */
  function After(s: Engine.State, a: nat, count: nat, iso: bool, outcome: Reserved): Engine.State
    requires a < |s.callers| && (outcome == Granted ==> count <= s.adm.available)
  {
    match outcome
    case Granted => Engine.SetCaller(s.(adm := s.adm.(available := s.adm.available - count)), a, Engine.SBuild(count, iso))
    case Refused => Engine.SetCaller(s, a, Engine.SFailed(count))
    case Asleep => Engine.SetCaller(s, a, Engine.SWaiting(count, iso, s.adm.epoch))
  }

  lemma SectionStep(s: Engine.State, a: nat, count: nat, iso: bool, outcome: Reserved)
    requires Reserving(s, a, count, iso, s.adm)
    requires match outcome
             case Granted => !s.adm.closed && count <= s.adm.available
             case Refused => count > s.adm.capacity || s.adm.closed || s.adm.available < count
             case Asleep => !s.adm.closed && s.adm.available < count <= s.adm.capacity
    ensures Engine.CallerStep(s, After(s, a, count, iso, outcome), a)
  {
  }

  /** A walk of one section. */
  lemma LastSection(s: Engine.State, worlds: seq<Engine.State>, a: nat, count: nat, iso: bool, r: Reservation) returns (sections: seq<Section>)
    requires Reserving(s, a, count, iso, s.adm)
    requires match r.outcome
             case Granted => !s.adm.closed && count <= s.adm.available && r.after == s.adm.(available := s.adm.available - count)
             case Refused => (count > s.adm.capacity || s.adm.closed || s.adm.available < count) && r.after == s.adm
             case Asleep => !s.adm.closed && s.adm.available < count <= s.adm.capacity && r.after == s.adm
    ensures Walk(sections, s, worlds, a, r)
  {
    SectionStep(s, a, count, iso, r.outcome);
    sections := [Section(s, After(s, a, count, iso, r.outcome))];
  }

  lemma MoreSections(s: Engine.State, worlds: seq<Engine.State>, a: nat, r: Reservation, first: Section, later: seq<Section>)
    requires worlds != [] && Walk(later, worlds[0], worlds[1..], a, r)
    requires first.before == s && IsStep(first, a) && EndsAsleep(first, a)
    ensures Walk([first] + later, s, worlds, a, r)
  {
    OneMoreStep(first, later, a);
    LongerRoute(s, worlds, a, r, first, later);
  }

  lemma LongerRoute(s: Engine.State, worlds: seq<Engine.State>, a: nat, r: Reservation, first: Section, later: seq<Section>)
    requires worlds != [] && Route(later, worlds[0], worlds[1..], a, r) && first.before == s && EndsAsleep(first, a)
    ensures Route([first] + later, s, worlds, a, r)
  {
    var all := [first] + later;
    forall i | 0 <= i < |all| - 1 ensures EndsAsleep(all[i], a) {
      assert i > 0 ==> all[i] == later[i - 1] && EndsAsleep(later[i - 1], a);
    }
    forall i | 0 < i < |all| ensures all[i].before == worlds[i - 1] {
      assert all[i] == later[i - 1];
    }
    assert all[|all| - 1] == later[|later| - 1];
  }

  lemma {:induction false} WaitsIsWalk(s: Engine.State, worlds: seq<Engine.State>, a: nat, count: nat, iso: bool,
                                       bounded: bool, turns: seq<Turn>)
    returns (sections: seq<Section>)
    requires Reserving(s, a, count, iso, s.adm) && count <= s.adm.capacity && Worlds(worlds, a, count, iso, turns)
    requires forall t | t in turns :: t.found.capacity == s.adm.capacity
    ensures Walk(sections, s, worlds, a, Waits(s.adm, count, bounded, turns))
    decreases |turns|
  {
    var m, r := s.adm, Waits(s.adm, count, bounded, turns);
    if count <= m.available || m.closed || turns == [] || (bounded && turns[0].expired) {
      sections := LastSection(s, worlds, a, count, iso, r);
    } else {
      SectionStep(s, a, count, iso, Asleep);
      var w := worlds[0];
      assert Reserving(w, a, count, iso, turns[0].found) && turns[0] in turns;
      var later;
      if bounded && turns[0].timedOut && turns[0].found.available < count {
        later := LastSection(w, worlds[1..], a, count, iso, r);
      } else {
        later := WaitsIsWalk(w, worlds[1..], a, count, iso, bounded, turns[1..]);
      }
      MoreSections(s, worlds, a, r, Section(s, After(s, a, count, iso, Asleep)), later);
      sections := [Section(s, After(s, a, count, iso, Asleep))] + later;
    }
  }

  /**
   * A whole reservation, from the first look to its outcome and through any number of waits, is a sequence of
   * steps of the engine's caller, one per stay under the lock, whatever the engine became in between.
   */
  lemma ReserveIsSteps(s: Engine.State, worlds: seq<Engine.State>, a: nat, count: nat, iso: bool,
                       zero: bool, bounded: bool, turns: seq<Turn>)
    returns (sections: seq<Section>)
    requires Reserving(s, a, count, iso, s.adm) && Worlds(worlds, a, count, iso, turns)
    requires forall t | t in turns :: t.found.capacity == s.adm.capacity
    ensures Walk(sections, s, worlds, a, Reserves(s.adm, count, zero, bounded, turns))
  {
    if count > s.adm.capacity || s.adm.closed || zero {
      sections := LastSection(s, worlds, a, count, iso, Reserves(s.adm, count, zero, bounded, turns));
    } else {
      sections := WaitsIsWalk(s, worlds, a, count, iso, bounded, turns);
    }
  }

  class QueueAdmission {
    const capacity: nat
    var available: nat
    var closed: bool
    ghost var epoch: nat

    ghost function Value(): Admission
      reads this
    {
      Engine.Admission(capacity, available, epoch, closed)
    }

    constructor (size: nat)
      ensures Value() == Engine.Admission(size, size, 0, false)
    {
      capacity, available, closed, epoch := size, size, false, 0;
    }

    /** Adds the permits back, clipped, and notifies. */
    method Release(count: nat)
      modifies this
      ensures Value() == Engine.Release(old(Value()), count)
    {
      available := Min(available + count, capacity);
      epoch := epoch + 1;
    }

    method Close()
      modifies this
      ensures Value() == old(Value()).(closed := true, epoch := old(epoch) + 1)
    {
      closed := true;
      epoch := epoch + 1;
    }

    /** `reserve`: each turn of the loop is one wait during which other threads run. */
    method Reserve(count: nat, zero: bool, bounded: bool, turns: seq<Turn>) returns (r: Reserved)
      requires forall t | t in turns :: t.found.capacity == capacity
      modifies this
      ensures Reservation(r, Value()) == Reserves(old(Value()), count, zero, bounded, turns)
    {
      if count > capacity || closed {
        return Refused;
      }
      if zero {
        if available < count {
          return Refused;
        }
        available := available - count;
        return Granted;
      }
      var n := 0;
      while available < count
        invariant n <= |turns|
        invariant Waits(Value(), count, bounded, turns[n..]) == Waits(old(Value()), count, bounded, turns)
        decreases |turns| - n
      {
        if closed {
          return Refused;
        }
        if n == |turns| {
          return Asleep;
        }
        var turn := turns[n];
        if bounded && turn.expired {
          return Refused;
        }
        available, closed, epoch := turn.found.available, turn.found.closed, turn.found.epoch;
        assert turns[n..][1..] == turns[n + 1..];
        n := n + 1;
        if bounded && turn.timedOut && available < count {
          return Refused;
        }
      }
      if closed {
        return Refused;
      }
      available := available - count;
      return Granted;
    }
  }
}
