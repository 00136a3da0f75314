/** The promise-chain lock, and the two of them that operations nest. A ticket is one call of `run`: it
    chains onto the promise the lock's map holds, and the map holds its own until nobody came after it. */
module Locks {
  import opened Options

  type Id = nat
  type Task = nat
  type Ticket = nat

  /** Operations take the lock of a bot's channel before the lock of the bot itself. */
  datatype Level = Channel | Instance
  datatype Lock = Lock(level: Level, id: Id)
  datatype Phase = Waiting | Running | Done
  /** `previous` is the promise found in the map: none when the map had no entry. */
  datatype Run = Run(lock: Lock, task: Task, previous: Option<Ticket>, phase: Phase)

  datatype State = State(locks: map<Lock, Ticket>, runs: seq<Run>)

  const Initial := State(map[], [])

  predicate IsHeld(s: State, lock: Lock) {
    lock in s.locks
  }

  ghost predicate ChainedBack(s: State) {
    forall t :: 0 <= t < |s.runs| && s.runs[t].previous.Some? ==> s.runs[t].previous.value < t
  }

  /** A chained promise settles once its own run is over and the promise it was chained onto has settled. */
  ghost predicate Settled(s: State, t: Ticket)
    requires ChainedBack(s) && t < |s.runs|
    decreases t
  {
    s.runs[t].phase.Done? && (s.runs[t].previous.Some? ==> Settled(s, s.runs[t].previous.value))
  }

  ghost predicate CanStart(s: State, t: Ticket) {
    && ChainedBack(s) && t < |s.runs| && s.runs[t].phase.Waiting?
    && (s.runs[t].previous.Some? ==> Settled(s, s.runs[t].previous.value))
  }

  predicate Outstanding(s: State, t: Ticket) {
    t < |s.runs| && !s.runs[t].phase.Done?
  }

  /** A run ends when the operation inside it has; the locks it took in turn are let go first. */
  ghost predicate CanFinish(s: State, t: Ticket) {
    && t < |s.runs| && s.runs[t].phase.Running?
    && (forall u :: t < u < |s.runs| && s.runs[u].task == s.runs[t].task ==> s.runs[u].phase.Done?)
  }

  /** A task asks for a lock only while it waits for none, and only above the level of those it has. */
  ghost predicate MayAsk(s: State, task: Task, lock: Lock) {
    forall t :: 0 <= t < |s.runs| && s.runs[t].task == task && !s.runs[t].phase.Done? ==>
      s.runs[t].phase.Running? && s.runs[t].lock.level.Channel? && lock.level.Instance?
  }

  datatype Event = Ask(task: Task, lock: Lock) | Start(t: Ticket) | Finish(t: Ticket, threw: bool)

  function Asks(s: State, task: Task, lock: Lock): State {
    var previous := if lock in s.locks then Some(s.locks[lock]) else None;
    State(s.locks[lock := |s.runs|], s.runs + [Run(lock, task, previous, Waiting)])
  }

  function Starts(s: State, t: Ticket): State
    requires t < |s.runs|
  {
    s.(runs := s.runs[t := s.runs[t].(phase := Running)])
  }

  /** Whether the task threw makes no difference: the lock is let go in a finally. */
  function Finishes(s: State, t: Ticket): State
    requires t < |s.runs|
  {
    var lock := s.runs[t].lock;
    State(if lock in s.locks &&
      s.locks[lock] == t then s.locks - {lock} else s.locks, s.runs[t := s.runs[t].(phase := Done)])
  }

  ghost function Step(s: State, e: Event): State {
    match e
    case Ask(task, lock) => if MayAsk(s, task, lock) then Asks(s, task, lock) else s
    case Start(t) => if CanStart(s, t) then Starts(s, t) else s
    case Finish(t, threw) => if CanFinish(s, t) then Finishes(s, t) else s
  }

  ghost function After(events: seq<Event>): State {
    if events == [] then Initial else Step(After(events[..|events| - 1]), events[|events| - 1])
  }

  // ----- What every run keeps -----

  predicate SameLock(s: State, t: Ticket, u: Ticket) {
    t < |s.runs| && u < |s.runs| && s.runs[t].lock == s.runs[u].lock
  }

  /** Everyone who asked before is through. */
  ghost predicate First(s: State, t: Ticket)
    requires t < |s.runs|
  {
    forall u :: 0 <= u < t && SameLock(s, u, t) ==> s.runs[u].phase.Done?
  }

  ghost predicate LastAsked(s: State, lock: Lock, t: Ticket) {
    && t < |s.runs| && s.runs[t].lock == lock
    && (forall u :: t < u < |s.runs| ==> s.runs[u].lock != lock)
  }

  /** A run is chained onto the one asked for right before it, or nobody was left to wait for. */
  ghost predicate ChainedInOrder(s: State, t: Ticket)
    requires t < |s.runs|
  {
    match s.runs[t].previous
    case None => First(s, t)
    case Some(p) => p < t && SameLock(s, p, t) && forall u :: p < u < t ==> !SameLock(s, u, t)
  }

  ghost predicate Chained(s: State) {
    && (forall t :: 0 <= t < |s.runs| ==> ChainedInOrder(s, t))
    && (forall t :: 0 <= t < |s.runs| && !s.runs[t].phase.Waiting? ==> First(s, t))
  }

  ghost predicate MapIsExact(s: State) {
    && (forall lock :: lock in s.locks ==> LastAsked(s, lock, s.locks[lock]) && !s.runs[s.locks[lock]].phase.Done?)
    && (forall t :: 0 <= t < |s.runs| && !s.runs[t].phase.Done? ==> s.runs[t].lock in s.locks)
  }

  ghost predicate Nested(s: State) {
    forall t, u | 0 <= t < u < |s.runs| && s.runs[t].task == s.runs[u].task ::
      !s.runs[t].phase.Done? && !s.runs[u].phase.Done? ==>
        s.runs[t].phase.Running? && s.runs[t].lock.level.Channel? && s.runs[u].lock.level.Instance?
  }

  ghost predicate Inv(s: State) {
    Chained(s) && MapIsExact(s) && Nested(s)
  }

  lemma ChainedInOrderMeansBack(s: State)
    requires Chained(s)
    ensures ChainedBack(s)
  {
    forall t | 0 <= t < |s.runs| && s.runs[t].previous.Some?
      ensures s.runs[t].previous.value < t
    {
      assert ChainedInOrder(s, t);
    }
  }

  /** A settled promise means all before it on its lock are through. */
  lemma {:induction false} SettledMeansThrough(s: State, t: Ticket)
    requires Chained(s) && ChainedBack(s) && t < |s.runs| && Settled(s, t)
    ensures First(s, t) && s.runs[t].phase.Done?
    decreases t
  {
    assert ChainedInOrder(s, t);
    if s.runs[t].previous.Some? {
      SettledMeansThrough(s, s.runs[t].previous.value);
    }
  }

  lemma {:induction false} ThroughMeansSettled(s: State, t: Ticket)
    requires Chained(s) && ChainedBack(s) && t < |s.runs| && First(s, t) && s.runs[t].phase.Done?
    ensures Settled(s, t)
    decreases t
  {
    assert ChainedInOrder(s, t);
    if s.runs[t].previous.Some? {
      var p := s.runs[t].previous.value;
      assert First(s, p) by {
        forall u | 0 <= u < p && SameLock(s, u, p)
          ensures s.runs[u].phase.Done?
        {
          assert SameLock(s, u, t);
        }
      }
      ThroughMeansSettled(s, p);
    }
  }

  /** A waiting run starts exactly when all who asked before it are through: first come, first served. */
  lemma StartsInTurn(s: State, t: Ticket)
    requires Inv(s) && t < |s.runs| && s.runs[t].phase.Waiting?
    ensures CanStart(s, t) <==> First(s, t)
  {
    ChainedInOrderMeansBack(s);
    assert ChainedInOrder(s, t);
    if s.runs[t].previous.Some? {
      var p := s.runs[t].previous.value;
      if Settled(s, p) {
        SettledMeansThrough(s, p);
        forall u | 0 <= u < t && SameLock(s, u, t)
          ensures s.runs[u].phase.Done?
        {
          assert u < p ==> SameLock(s, u, p);
        }
      } else if First(s, t) {
        assert First(s, p) by {
          forall u | 0 <= u < p && SameLock(s, u, p)
            ensures s.runs[u].phase.Done?
          {
            assert SameLock(s, u, t);
          }
        }
        ThroughMeansSettled(s, p);
      }
    }
  }

  // ----- The steps keep it -----

  lemma AsksKeepsChain(s: State, task: Task, lock: Lock)
    requires Inv(s)
    ensures Chained(Asks(s, task, lock))
  {
    var s', n := Asks(s, task, lock), |s.runs|;
    forall t | 0 <= t < n
      ensures ChainedInOrder(s', t)
      ensures !s'.runs[t].phase.Waiting? ==> First(s', t)
    {
      assert ChainedInOrder(s, t);
      assert forall u :: 0 <= u < n ==> SameLock(s', u, t) == SameLock(s, u, t);
    }
    assert ChainedInOrder(s', n) by {
      if lock in s.locks {
        assert LastAsked(s, lock, s.locks[lock]);
      }
    }
  }

  lemma AsksKeeps(s: State, task: Task, lock: Lock)
    requires Inv(s) && MayAsk(s, task, lock)
    ensures Inv(Asks(s, task, lock))
  {
    AsksKeepsChain(s, task, lock);
    hide Chained;
    var s' := Asks(s, task, lock);
    forall l | l in s'.locks
      ensures LastAsked(s', l, s'.locks[l]) && !s'.runs[s'.locks[l]].phase.Done?
    {
      assert l != lock ==> LastAsked(s, l, s.locks[l]);
    }
  }

  /** Moving a run on keeps the chain, as long as those started had their turn. */
  lemma PhaseKeepsChain(s: State, t: Ticket, phase: Phase)
    requires Chained(s) && t < |s.runs| && !phase.Waiting? && First(s, t)
    requires phase.Running? ==> !s.runs[t].phase.Done?
    ensures Chained(s.(runs := s.runs[t := s.runs[t].(phase := phase)]))
  {
    var s' := s.(runs := s.runs[t := s.runs[t].(phase := phase)]);
    assert forall u, v :: SameLock(s', u, v) == SameLock(s, u, v);
    forall u | 0 <= u < |s'.runs|
      ensures ChainedInOrder(s', u)
      ensures !s'.runs[u].phase.Waiting? ==> First(s', u)
    {
      assert ChainedInOrder(s, u);
      assert First(s, u) ==> First(s', u) by {
        forall v | First(s, u) && 0 <= v < u && SameLock(s', v, u)
          ensures s'.runs[v].phase.Done?
        {
          assert SameLock(s, v, u);
        }
      }
    }
  }

  lemma StartsKeeps(s: State, t: Ticket)
    requires Inv(s) && CanStart(s, t)
    ensures Inv(Starts(s, t))
  {
    StartsInTurn(s, t);
    PhaseKeepsChain(s, t, Running);
    hide Chained, CanStart;
    var s' := Starts(s, t);
    forall lock | lock in s'.locks
      ensures LastAsked(s', lock, s'.locks[lock]) && !s'.runs[s'.locks[lock]].phase.Done?
    {
      assert LastAsked(s, lock, s.locks[lock]);
    }
  }

  lemma FinishesKeeps(s: State, t: Ticket)
    requires Inv(s) && CanFinish(s, t)
    ensures Inv(Finishes(s, t))
  {
    assert First(s, t);
    PhaseKeepsChain(s, t, Done);
    var s' := Finishes(s, t);
    assert Chained(s') by {
      assert s'.runs == s.(runs := s.runs[t := s.runs[t].(phase := Done)]).runs;
      SameRunsSameChain(s.(runs := s.runs[t := s.runs[t].(phase := Done)]), s');
    }
    EndedLockIsFree(s, t);
  }

  lemma SameRunsSameChain(s: State, s': State)
    requires s.runs == s'.runs && Chained(s)
    ensures Chained(s')
  {
    assert forall u, v :: SameLock(s', u, v) == SameLock(s, u, v);
    forall u | 0 <= u < |s'.runs|
      ensures ChainedInOrder(s', u)
      ensures !s'.runs[u].phase.Waiting? ==> First(s', u)
    {
      assert ChainedInOrder(s, u);
      assert First(s, u) ==> First(s', u);
    }
  }

  lemma EndedLockIsFree(s: State, t: Ticket)
    requires Inv(s) && CanFinish(s, t)
    ensures MapIsExact(Finishes(s, t)) && Nested(Finishes(s, t))
  {
    var s' := Finishes(s, t);
    assert First(s, t);
    forall lock | lock in s'.locks
      ensures LastAsked(s', lock, s'.locks[lock]) && !s'.runs[s'.locks[lock]].phase.Done?
    {
      assert LastAsked(s, lock, s.locks[lock]);
    }
  }

  lemma {:induction false} RunKeeps(events: seq<Event>)
    ensures Inv(After(events))
  {
    hide Inv, MayAsk, CanStart, CanFinish;
    if events == [] {
      EmptyKeeps();
    } else {
      var s := After(events[..|events| - 1]);
      RunKeeps(events[..|events| - 1]);
      match events[|events| - 1]
      case Ask(task, lock) => if MayAsk(s, task, lock) { AsksKeeps(s, task, lock); }
      case Start(t) => if CanStart(s, t) { StartsKeeps(s, t); }
      case Finish(t, threw) => if CanFinish(s, t) { FinishesKeeps(s, t); }
    }
  }

  lemma EmptyKeeps()
    ensures Inv(Initial)
  {}

  // ----- What callers rely on -----

  /** At most one run at a time holds a lock, and they held it in the order they asked. */
  lemma OneHolderInOrder(events: seq<Event>, t: Ticket, u: Ticket)
    requires var s := After(events); t < u < |s.runs| && SameLock(s, t, u) && !s.runs[u].phase.Waiting?
    ensures After(events).runs[t].phase.Done?
  {
    RunKeeps(events);
    assert First(After(events), u);
  }

  /** The map has an entry exactly while someone holds the lock or waits for it. */
  lemma HeldIsExact(events: seq<Event>, lock: Lock)
    ensures var s := After(events);
            IsHeld(s, lock) <==> exists t: Ticket :: Outstanding(s, t) && s.runs[t].lock == lock
  {
    RunKeeps(events);
    var s := After(events);
    if lock in s.locks {
      assert LastAsked(s, lock, s.locks[lock]);
      assert Outstanding(s, s.locks[lock]);
    }
  }

  ghost predicate OutstandingAt(s: State, level: Level, t: Ticket) {
    Outstanding(s, t) && s.runs[t].lock.level == level
  }

  lemma Earliest(s: State, level: Level, t: Ticket) returns (first: Ticket)
    requires OutstandingAt(s, level, t)
    ensures OutstandingAt(s, level, first) && forall u :: 0 <= u < first ==> !OutstandingAt(s, level, u)
    decreases t
  {
    if u: Ticket :| u < t && OutstandingAt(s, level, u) {
      first := Earliest(s, level, u);
    } else {
      first := t;
    }
  }

  lemma EarliestCanStep(s: State, level: Level, t: Ticket)
    requires Inv(s) && OutstandingAt(s, level, t) && forall u :: 0 <= u < t ==> !OutstandingAt(s, level, u)
    requires level.Channel? ==> forall u :: !OutstandingAt(s, Instance, u)
    ensures CanStart(s, t) || CanFinish(s, t)
  {
    if s.runs[t].phase.Waiting? {
      assert First(s, t) by {
        forall u | 0 <= u < t && SameLock(s, u, t)
          ensures s.runs[u].phase.Done?
        {
          assert !OutstandingAt(s, level, u);
        }
      }
      StartsInTurn(s, t);
    } else {
      forall u | t < u < |s.runs| && s.runs[u].task == s.runs[t].task
        ensures s.runs[u].phase.Done?
      {
        assert !OutstandingAt(s, Instance, u) || level.Instance?;
      }
    }
  }

  /** No run of operations that take channel locks before bot locks can lock up: while anyone holds or waits,
      some run can start or finish. */
  lemma SomeoneCanStep(events: seq<Event>, t: Ticket)
    requires Outstanding(After(events), t)
    ensures exists u: Ticket :: CanStart(After(events), u) || CanFinish(After(events), u)
  {
    RunKeeps(events);
    var s := After(events);
    hide Inv, CanStart, CanFinish;
    if u: Ticket :| OutstandingAt(s, Instance, u) {
      var first := Earliest(s, Instance, u);
      EarliestCanStep(s, Instance, first);
    } else {
      assert !OutstandingAt(s, Instance, t);
      var first := Earliest(s, Channel, t);
      EarliestCanStep(s, Channel, first);
    }
  }

  // ----- The lock -----

  class InstanceOperationLock {
    var locks: map<Lock, Ticket>
    var runs: seq<Run>

    ghost function Now(): State
      reads this
    {
      State(locks, runs)
    }

    ghost predicate Valid()
      reads this
    {
      Inv(Now())
    }

    constructor ()
      ensures Now() == Initial && Valid()
    {
      locks, runs := map[], [];
    }

    method Held(lock: Lock) returns (held: bool)
      requires Valid()
      ensures held <==> exists t: Ticket :: Outstanding(Now(), t) && runs[t].lock == lock
    {
      held := lock in locks;
      assert held ==> LastAsked(Now(), lock, locks[lock]) && Outstanding(Now(), locks[lock]);
    }

    /** `run` up to its first await. */
    method Enter(lock: Lock, task: Task) returns (t: Ticket)
      requires Valid() && MayAsk(Now(), task, lock)
      modifies this
      ensures Valid() && Now() == Asks(old(Now()), task, lock) && t == |old(runs)|
    {
      AsksKeeps(Now(), task, lock);
      t := |runs|;
      var previous := if lock in locks then Some(locks[lock]) else None;
      runs := runs + [Run(lock, task, previous, Waiting)];
      locks := locks[lock := t];
    }

    /** The previous promise settled: everyone who asked before is through. */
    method Begin(t: Ticket)
      requires Valid() && CanStart(Now(), t)
      modifies `runs
      ensures Valid() && Now() == Starts(old(Now()), t) && First(old(Now()), t)
    {
      StartsKeeps(Now(), t);
      StartsInTurn(Now(), t);
      runs := runs[t := runs[t].(phase := Running)];
    }

    /** The finally: whatever the operation did, the next in line may start. */
    method Leave(t: Ticket)
      requires Valid() && CanFinish(Now(), t)
      modifies this
      ensures Valid() && Now() == Finishes(old(Now()), t)
    {
      FinishesKeeps(Now(), t);
      runs := runs[t := runs[t].(phase := Done)];
      var lock := runs[t].lock;
      if lock in locks && locks[lock] == t {
        locks := locks - {lock};
      }
    }
  }
}
