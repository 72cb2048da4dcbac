/**
 The sleeping locks of `mecocoa/taskman-lock.cpp`.

 The guard spinlock makes every `Acquire` and `Release` one section; only the `Unblock` that ends
 `Mutex::Release` comes after it. Ownership is handed over while the new owner still sleeps.
 */
module SleepLocks {
  import opened FileBytes

  type Thread = nat

  // ---- Mutex ----

  /**
   `locked` and `queue` are the fields of the lock. `arrivals` lists the calls of Acquire and `grants`
   those that got the lock, in order, and `releases` counts the releases; `waking` are the threads dequeued but not yet unblocked.
   */
  datatype MutexState = MutexState(locked: bool, queue: seq<Thread>, owner: Option<Thread>, blocked: set<Thread>,
                                   waking: set<Thread>, arrivals: seq<Thread>, grants: seq<Thread>, releases: nat)

  const FREE_MUTEX := MutexState(false, [], None, {}, {}, [], [], 0)

  function MutexAcquire(s: MutexState, t: Thread): MutexState {
    if t in s.blocked then s
    else if s.locked then
      s.(queue := s.queue + [t], blocked := s.blocked + {t}, arrivals := s.arrivals + [t])
    else
      s.(locked := true, owner := Some(t), arrivals := s.arrivals + [t], grants := s.grants + [t])
  }

  /** Only the owner releases, and it is running. */
  function MutexRelease(s: MutexState, t: Thread): MutexState {
    if s.owner != Some(t) || t in s.blocked then s
    else if s.queue != [] then
      s.(queue := s.queue[1..], owner := Some(s.queue[0]), waking := s.waking + {s.queue[0]}, grants := s.grants + [s.queue[0]],
         releases := s.releases + 1)
    else s.(locked := false, owner := None, releases := s.releases + 1)
  }

  function MutexUnblock(s: MutexState, t: Thread): MutexState {
    if t !in s.waking then s else s.(blocked := s.blocked - {t}, waking := s.waking - {t})
  }

  datatype MutexAction = Acquire(thread: Thread) | Release(thread: Thread) | Unblock(thread: Thread)

  function MutexApply(s: MutexState, a: MutexAction): MutexState {
    match a
    case Acquire(t) => MutexAcquire(s, t)
    case Release(t) => MutexRelease(s, t)
    case Unblock(t) => MutexUnblock(s, t)
  }

  function MutexRun(s: MutexState, run: seq<MutexAction>): MutexState
    decreases |run|
  {
    if run == [] then s else MutexRun(MutexApply(s, run[0]), run[1..])
  }

  predicate Distinct(queue: seq<Thread>) {
    forall i, j :: 0 <= i < j < |queue| ==> queue[i] != queue[j]
  }

  ghost predicate MutexSafe(s: MutexState) {
    && (s.locked <==> s.owner.Some?)
    && (s.queue != [] ==> s.locked)
    && s.arrivals == s.grants + s.queue
    && Distinct(s.queue)
    && (forall t :: t in s.blocked <==> t in s.queue || t in s.waking)
    && (forall t :: t in s.waking ==> t !in s.queue)
    && (s.locked ==> s.grants != [] && s.owner == Some(s.grants[|s.grants| - 1]))
    && |s.grants| == s.releases + (if s.locked then 1 else 0)
  }

  lemma MutexActionSafe(s: MutexState, a: MutexAction)
    requires MutexSafe(s)
    ensures MutexSafe(MutexApply(s, a))
  {
    if a.Release? && s.queue != [] {
      assert s.queue == [s.queue[0]] + s.queue[1..];
      assert s.grants + s.queue == (s.grants + [s.queue[0]]) + s.queue[1..];
    }
  }

  lemma {:induction false} MutexRunSafe(s: MutexState, run: seq<MutexAction>)
    requires MutexSafe(s)
    ensures MutexSafe(MutexRun(s, run))
    decreases |run|
  {
    hide MutexSafe, MutexApply;
    if run != [] {
      MutexActionSafe(s, run[0]);
      MutexRunSafe(MutexApply(s, run[0]), run[1..]);
    }
  }

  /**
   Over every run in which only owners release: the lock is taken exactly while it has an owner, a
   waiting queue means it is taken, the k-th thread to arrive is the k-th to be granted it, the owner
   is the last one granted, and never more than one grant is outstanding.
   */
  lemma MutexHandsOff(run: seq<MutexAction>)
    ensures var s := MutexRun(FREE_MUTEX, run);
      && (s.locked <==> s.owner.Some?)
      && (s.queue != [] ==> s.locked)
      && s.arrivals == s.grants + s.queue
      && (s.locked ==> s.grants != [] && s.owner == Some(s.grants[|s.grants| - 1]))
      && |s.grants| == s.releases + (if s.locked then 1 else 0)
  {
    MutexRunSafe(FREE_MUTEX, run);
  }

  /** A thread sleeps only while it queues or while the release that granted it the lock still has to unblock it. */
  lemma MutexSleepersAreWoken(run: seq<MutexAction>, t: Thread)
    ensures var s := MutexRun(FREE_MUTEX, run); t in s.blocked <==> t in s.queue || t in s.waking
    ensures var s := MutexRun(FREE_MUTEX, run); s.waking == {} && s.owner == Some(t) && t !in s.queue ==> t !in s.blocked
  {
    MutexRunSafe(FREE_MUTEX, run);
  }

  class Mutex {
    var locked: bool
    var waitQueue: seq<Thread>

    ghost predicate Shows(s: MutexState)
      reads this
    {
      locked == s.locked && waitQueue == s.queue
    }

    constructor ()
      ensures Shows(FREE_MUTEX)
    {
      locked, waitQueue := false, [];
    }

    /** `Acquire` by a running thread; `sleeps` when it has to wait for the hand-over. */
    method Acquire(ghost s: MutexState, t: Thread) returns (sleeps: bool)
      requires Shows(s) && MutexSafe(s) && t !in s.blocked
      modifies this
      ensures Shows(MutexAcquire(s, t)) && MutexSafe(MutexAcquire(s, t))
      ensures sleeps <==> MutexAcquire(s, t).owner != Some(t) || s.owner == Some(t)
      ensures sleeps <==> t in MutexAcquire(s, t).blocked
    {
      MutexActionSafe(s, MutexAction.Acquire(t));
      if locked {
        waitQueue := waitQueue + [t];
        return true;
      }
      locked := true;
      return false;
    }

    /** `Release` by the running owner; the returned thread is unblocked after the guard is let go. */
    method Release(ghost s: MutexState, ghost t: Thread) returns (wakeup: Option<Thread>)
      requires Shows(s) && MutexSafe(s) && s.owner == Some(t) && t !in s.blocked
      modifies this
      ensures Shows(MutexRelease(s, t)) && MutexSafe(MutexRelease(s, t))
      ensures wakeup == MutexRelease(s, t).owner
      ensures wakeup.Some? ==> MutexRelease(s, t).waking == s.waking + {wakeup.value}
    {
      MutexActionSafe(s, MutexAction.Release(t));
      if waitQueue != [] {
        wakeup := Some(waitQueue[0]);
        waitQueue := waitQueue[1..];
      } else {
        wakeup := None;
        locked := false;
      }
    }
  }

  // ---- Semaphore ----

  datatype SemaphoreState = SemaphoreState(value: nat, queue: seq<Thread>, releases: nat, arrivals: seq<Thread>, grants: seq<Thread>)

  function Counting(initial: nat): SemaphoreState {
    SemaphoreState(initial, [], 0, [], [])
  }

  function SemaphoreAcquire(s: SemaphoreState, t: Thread): SemaphoreState {
    if s.value > 0 then s.(value := s.value - 1, arrivals := s.arrivals + [t], grants := s.grants + [t])
    else s.(queue := s.queue + [t], arrivals := s.arrivals + [t])
  }

  function SemaphoreRelease(s: SemaphoreState): SemaphoreState {
    if s.queue != [] then
      s.(queue := s.queue[1..], grants := s.grants + [s.queue[0]], releases := s.releases + 1)
    else s.(value := s.value + 1, releases := s.releases + 1)
  }

  datatype SemaphoreAction = Take(thread: Thread) | Give

  function SemaphoreRun(s: SemaphoreState, run: seq<SemaphoreAction>): SemaphoreState
    decreases |run|
  {
    if run == [] then s
    else SemaphoreRun(if run[0].Take? then SemaphoreAcquire(s, run[0].thread) else SemaphoreRelease(s), run[1..])
  }

  ghost predicate SemaphoreSafe(s: SemaphoreState, initial: nat) {
    && s.value + |s.grants| == initial + s.releases
    && (s.queue != [] ==> s.value == 0)
    && s.arrivals == s.grants + s.queue
  }

  lemma SemaphoreActionSafe(s: SemaphoreState, initial: nat, t: Thread)
    requires SemaphoreSafe(s, initial)
    ensures SemaphoreSafe(SemaphoreAcquire(s, t), initial) && SemaphoreSafe(SemaphoreRelease(s), initial)
  {
    if s.queue != [] {
      assert s.grants + s.queue == (s.grants + [s.queue[0]]) + s.queue[1..];
    }
  }

  lemma {:induction false} SemaphoreRunSafe(s: SemaphoreState, initial: nat, run: seq<SemaphoreAction>)
    requires SemaphoreSafe(s, initial)
    ensures SemaphoreSafe(SemaphoreRun(s, run), initial)
    decreases |run|
  {
    hide SemaphoreSafe, SemaphoreAcquire, SemaphoreRelease;
    if run != [] {
      SemaphoreActionSafe(s, initial, if run[0].Take? then run[0].thread else 0);
      SemaphoreRunSafe(if run[0].Take? then SemaphoreAcquire(s, run[0].thread) else SemaphoreRelease(s), initial, run[1..]);
    }
  }

  /** Over every run the value is the initial one plus releases minus grants, it is zero while someone waits, and service is first in, first out. */
  lemma SemaphoreCounts(initial: nat, run: seq<SemaphoreAction>)
    ensures var s := SemaphoreRun(Counting(initial), run);
      && s.value == initial + s.releases - |s.grants|
      && (s.queue != [] ==> s.value == 0)
      && s.arrivals == s.grants + s.queue
  {
    SemaphoreRunSafe(Counting(initial), initial, run);
  }

  class Semaphore {
    var value: nat
    var waitQueue: seq<Thread>

    ghost predicate Shows(s: SemaphoreState)
      reads this
    {
      value == s.value && waitQueue == s.queue
    }

    constructor (initial: nat)
      ensures Shows(Counting(initial))
    {
      value, waitQueue := initial, [];
    }

    method Acquire(ghost s: SemaphoreState, t: Thread) returns (sleeps: bool)
      requires Shows(s)
      modifies this
      ensures Shows(SemaphoreAcquire(s, t))
      ensures sleeps <==> SemaphoreAcquire(s, t).grants == s.grants
    {
      if value > 0 {
        value := value - 1;
        return false;
      }
      waitQueue := waitQueue + [t];
      return true;
    }

    method Release(ghost s: SemaphoreState) returns (wakeup: Option<Thread>)
      requires Shows(s)
      modifies this
      ensures Shows(SemaphoreRelease(s))
      ensures SemaphoreRelease(s).grants == s.grants + if wakeup.Some? then [wakeup.value] else []
    {
      if waitQueue != [] {
        wakeup := Some(waitQueue[0]);
        waitQueue := waitQueue[1..];
      } else {
        wakeup := None;
        value := value + 1;
      }
    }
  }
}
