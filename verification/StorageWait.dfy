/**
 `WaitStorage` against `NotifyStorageWait` (`mecocoa/devsman-storage.cpp`), step by step.

 One thread waits; any number of interrupts complete the request and notify, or only notify. Every
 atomic access, the probe, `Block` and `Unblock` is one step, so a run is any interleaving of them. The
 one-tick wake timer may fire whenever it is armed, but nothing here relies on it.
 */
module StorageWait {
  import opened FileBytes

  type ThreadId = nat

  /** Where the waiting thread is in its loop; `observed` is the notification count it read. */
  datatype Waiter =
    | Registering
    | Observing
    | Probing(observed: nat)
    | Deciding(observed: nat)
    | Rechecking(observed: nat)
    | Scheduled
    | Releasing
    | Done(timedOut: bool)

  /** Where an interrupt is in `NotifyStorageWait`. */
  datatype Notifier =
    | Quiet
    | Counting(direct: bool)
    | Loading
    | Waking(target: Option<ThreadId>)

  /** `completed` is the driver's state behind the probe; `blocked` the thread's BR_Resting reason. */
  datatype State = State(
    tid: ThreadId,
    notification: nat,
    waiter: Option<ThreadId>,
    completed: bool,
    blocked: bool,
    timer: bool,
    canSleep: bool,
    pc: Waiter,
    timedOut: bool,
    notifiers: map<nat, Notifier>)

  /** `release_waiter`: clears the field if it still names this thread. */
  function Released(s: State): Option<ThreadId> {
    if s.waiter == Some(s.tid) then None else s.waiter
  }

  datatype Choice = Poll | TimeOut | Sleep(interruptsOn: bool)

  // ---- The waiting thread ----

  function DoRegister(s: State): State {
    if s.pc != Registering then s
    else s.(waiter := if s.canSleep then Some(s.tid) else s.waiter, pc := Observing)
  }

  function DoObserve(s: State): State {
    if s.pc != Observing then s else s.(pc := Probing(s.notification))
  }

  function DoProbe(s: State): State {
    if !s.pc.Probing? then s
    else if s.completed then s.(pc := Releasing)
    else s.(pc := Deciding(s.pc.observed))
  }

  /** Still pending: give up, go round again, or block; without interrupts on the thread stops sleeping for good. */
  function DoDecide(s: State, choice: Choice): State {
    if !s.pc.Deciding? then s
    else match choice
      case Poll => s.(pc := Registering)
      case TimeOut => s.(pc := Releasing, timedOut := true)
      case Sleep(interruptsOn) =>
        if !s.canSleep then s.(pc := Registering)
        else if !interruptsOn then s.(canSleep := false, waiter := Released(s), pc := Registering)
        else s.(blocked := true, pc := Rechecking(s.pc.observed))
  }

  /** The recheck after `Block`; `armed` says whether the wake timer could be set. */
  function DoRecheck(s: State, armed: bool): State {
    if !s.pc.Rechecking? then s
    else if s.notification != s.pc.observed then s.(blocked := false, pc := Scheduled)
    else if !armed then s.(blocked := false, canSleep := false, waiter := Released(s), pc := Scheduled)
    else s.(timer := true, pc := Scheduled)
  }

  /** `Schedule` returns once the thread is no longer blocked; the timer is cancelled. */
  function DoResume(s: State): State {
    if s.pc != Scheduled || s.blocked then s else s.(timer := false, pc := Registering)
  }

  function DoRelease(s: State): State {
    if s.pc != Releasing then s else s.(waiter := Released(s), pc := Done(s.timedOut))
  }

  // ---- Interrupts and the timer ----

  function NotifierOf(s: State, i: nat): Notifier {
    if i in s.notifiers then s.notifiers[i] else Quiet
  }

  function AtNotifier(s: State, i: nat, n: Notifier): State {
    s.(notifiers := s.notifiers[i := n])
  }

  /** The driver makes the probe non-pending and starts to notify; `direct` names the waiter itself. */
  function DoComplete(s: State, i: nat, direct: bool): State {
    if !NotifierOf(s, i).Quiet? then s else AtNotifier(s.(completed := true), i, Counting(direct))
  }

  /** A notification that completes nothing. */
  function DoSpurious(s: State, i: nat): State {
    if !NotifierOf(s, i).Quiet? then s else AtNotifier(s, i, Counting(false))
  }

  function DoNotify(s: State, i: nat): State {
    match NotifierOf(s, i)
    case Quiet => s
    case Counting(direct) => AtNotifier(s.(notification := s.notification + 1), i, if direct then Waking(Some(s.tid)) else Loading)
    case Loading => AtNotifier(s, i, Waking(s.waiter))
    case Waking(target) => AtNotifier(s.(blocked := s.blocked && target != Some(s.tid)), i, Quiet)
  }

  function DoTimer(s: State): State {
    if s.timer then s.(blocked := false, timer := false) else s
  }

  datatype Action =
    | Register
    | Observe
    | Probe
    | Decide(choice: Choice)
    | Recheck(armed: bool)
    | Resume
    | Release
    | Complete(i: nat, direct: bool)
    | Spurious(i: nat)
    | Notify(i: nat)
    | Timer

  function Apply(s: State, a: Action): State {
    match a
    case Register => DoRegister(s)
    case Observe => DoObserve(s)
    case Probe => DoProbe(s)
    case Decide(choice) => DoDecide(s, choice)
    case Recheck(armed) => DoRecheck(s, armed)
    case Resume => DoResume(s)
    case Release => DoRelease(s)
    case Complete(i, direct) => DoComplete(s, i, direct)
    case Spurious(i) => DoSpurious(s, i)
    case Notify(i) => DoNotify(s, i)
    case Timer => DoTimer(s)
  }

  function Run(s: State, run: seq<Action>): State
    decreases |run|
  {
    if run == [] then s else Run(Apply(s, run[0]), run[1..])
  }

  function Initial(tid: ThreadId, completed: bool, canSleep: bool, notification: nat): State {
    State(tid, notification, None, completed, false, false, canSleep, Registering, false, map[])
  }

  // ---- The invariant ----

  /** The interrupt has not counted its notification yet. */
  predicate StillCounts(s: State, i: nat) {
    NotifierOf(s, i).Counting?
  }

  /** The interrupt will still unblock this thread. */
  predicate StillWakes(s: State, i: nat) {
    NotifierOf(s, i).Counting? || NotifierOf(s, i).Loading? || NotifierOf(s, i) == Waking(Some(s.tid))
  }

  predicate Asleep(s: State) {
    s.pc == Scheduled && s.blocked
  }

  /** Between the probe and the recheck: a completion is counted already or will be. */
  ghost predicate Uncounted(s: State, observed: nat) {
    observed <= s.notification &&
    (s.completed && s.notification == observed ==> exists i :: StillCounts(s, i))
  }

  ghost predicate Safe(s: State) {
    && (s.blocked ==> s.pc.Rechecking? || s.pc == Scheduled)
    && (s.canSleep && (s.pc.Observing? || s.pc.Probing? || s.pc.Deciding?) ==> s.waiter == Some(s.tid))
    && (s.pc.Probing? ==> s.pc.observed <= s.notification)
    && (s.pc.Deciding? ==> Uncounted(s, s.pc.observed))
    && (s.pc.Rechecking? ==> s.waiter == Some(s.tid) && s.canSleep && Uncounted(s, s.pc.observed))
    && (Asleep(s) ==> s.waiter == Some(s.tid))
    && (Asleep(s) && s.completed ==> exists i :: StillWakes(s, i))
    && (s.timedOut ==> s.pc.Releasing? || s.pc.Done?)
    && (s.pc.Done? ==> s.pc.timedOut == s.timedOut && s.waiter != Some(s.tid))
    && ((s.pc.Releasing? || s.pc.Done?) && !s.timedOut ==> s.completed)
  }

  lemma CountsKept(s: State, s': State)
    requires s'.notifiers == s.notifiers && s'.tid == s.tid
    ensures (exists i :: StillCounts(s, i)) ==> exists i :: StillCounts(s', i)
    ensures (exists i :: StillWakes(s, i)) ==> exists i :: StillWakes(s', i)
    ensures (exists i :: StillCounts(s, i)) ==> exists i :: StillWakes(s', i)
  {
    if i :| StillCounts(s, i) {
      assert StillCounts(s', i) && StillWakes(s', i);
    }
    if i :| StillWakes(s, i) {
      assert StillWakes(s', i);
    }
  }

  lemma LookingSafe(s: State, a: Action)
    requires Safe(s) && (a.Register? || a.Observe? || a.Probe? || a.Release?)
    ensures Safe(Apply(s, a))
  {
    hide StillCounts, StillWakes;
    CountsKept(s, Apply(s, a));
  }

  lemma DecideSafe(s: State, choice: Choice)
    requires Safe(s)
    ensures Safe(DoDecide(s, choice))
  {
    hide StillCounts, StillWakes;
    CountsKept(s, DoDecide(s, choice));
  }

  /** A completion not counted yet is what wakes the thread that goes to sleep now. */
  lemma RecheckSafe(s: State, armed: bool)
    requires Safe(s)
    ensures Safe(DoRecheck(s, armed))
  {
    hide StillCounts, StillWakes;
    CountsKept(s, DoRecheck(s, armed));
  }

  lemma WakingSafe(s: State, a: Action)
    requires Safe(s) && (a.Resume? || a.Timer?)
    ensures Safe(Apply(s, a))
  {
    hide StillCounts, StillWakes;
    CountsKept(s, Apply(s, a));
  }

  lemma StartSafe(s: State, i: nat, completes: bool, direct: bool)
    requires Safe(s)
    ensures Safe(if completes then DoComplete(s, i, direct) else DoSpurious(s, i))
  {
    var s' := if completes then DoComplete(s, i, direct) else DoSpurious(s, i);
    if s' != s {
      assert StillCounts(s', i) && StillWakes(s', i);
    }
  }

  /** A counted notification is either loaded next or wakes the waiter directly. */
  lemma NotifySafe(s: State, i: nat)
    requires Safe(s)
    ensures Safe(DoNotify(s, i))
  {
    var s' := DoNotify(s, i);
    if Asleep(s) && s.completed && Asleep(s') {
      var k :| StillWakes(s, k);
      if k == i {
        assert StillWakes(s', i);
      } else {
        assert StillWakes(s', k);
      }
    }
    if (s.pc.Deciding? || s.pc.Rechecking?) && s.completed && s'.notification == s.pc.observed {
      var k :| StillCounts(s, k);
      assert StillCounts(s', k);
    }
  }

  lemma SectionSafe(s: State, a: Action)
    requires Safe(s)
    ensures Safe(Apply(s, a))
  {
    hide Safe;
    match a
    case Complete(i, direct) => StartSafe(s, i, true, direct);
    case Spurious(i) => StartSafe(s, i, false, false);
    case Notify(i) => NotifySafe(s, i);
    case Decide(choice) => DecideSafe(s, choice);
    case Recheck(armed) => RecheckSafe(s, armed);
    case Resume => WakingSafe(s, a);
    case Timer => WakingSafe(s, a);
    case _ => LookingSafe(s, a);
  }

  lemma {:induction false} RunsSafe(s: State, run: seq<Action>)
    requires Safe(s)
    ensures Safe(Run(s, run))
    decreases |run|
  {
    hide Safe, Apply;
    if run != [] {
      SectionSafe(s, run[0]);
      RunsSafe(Apply(s, run[0]), run[1..]);
    }
  }

  // ---- Main results ----

  ghost predicate Reachable(s: State) {
    exists tid, completed, canSleep, notification, run :: s == Run(Initial(tid, completed, canSleep, notification), run)
  }

  lemma ReachableSafe(s: State)
    requires Reachable(s)
    ensures Safe(s)
  {
    var tid, completed, canSleep, notification, run :| s == Run(Initial(tid, completed, canSleep, notification), run);
    RunsSafe(Initial(tid, completed, canSleep, notification), run);
  }

  /**
   No lost wake-up: once the request is completed and every notification has finished, the waiting
   thread is not left blocked, whether or not the one-tick timer ever fires.
   */
  lemma NoLostWakeUp(s: State)
    requires Reachable(s) && s.completed && forall i :: i in s.notifiers ==> s.notifiers[i].Quiet?
    ensures !(s.pc == Scheduled && s.blocked)
  {
    hide Reachable;
    ReachableSafe(s);
  }

  /** While the thread sleeps on a completed request some notification in progress will unblock it. */
  lemma SleeperWillBeWoken(s: State)
    requires Reachable(s) && Asleep(s) && s.completed
    ensures exists i :: StillWakes(s, i)
    ensures forall i :: NotifierOf(s, i).Loading? ==> NotifierOf(DoNotify(s, i), i) == Waking(Some(s.tid))
    ensures forall i :: NotifierOf(s, i) == Waking(Some(s.tid)) ==> !DoNotify(s, i).blocked
  {
    hide Reachable;
    ReachableSafe(s);
  }

  /** The wait returns without a timeout only when the request is complete, and leaves itself unregistered and unblocked. */
  lemma DoneMeansCompleteOrTimedOut(s: State)
    requires Reachable(s) && s.pc.Done?
    ensures !s.pc.timedOut ==> s.completed
    ensures s.waiter != Some(s.tid) && !s.blocked
  {
    hide Reachable;
    ReachableSafe(s);
  }

  // ---- The wait ends ----

  /** What the waiting thread does next when it neither gives up nor goes to sleep again. */
  function NextStep(pc: Waiter): Action {
    match pc
    case Registering => Register
    case Observing => Observe
    case Probing(_) => Probe
    case Deciding(_) => Decide(Poll)
    case Rechecking(_) => Recheck(true)
    case Scheduled => Resume
    case Releasing => Release
    case Done(_) => Release
  }

  function OwnSteps(s: State, n: nat): State
    decreases n
  {
    if n == 0 then s else OwnSteps(Apply(s, NextStep(s.pc)), n - 1)
  }

  /** How many own steps are left. */
  function StepsLeft(pc: Waiter): nat {
    match pc
    case Done(_) => 0
    case Releasing => 1
    case Probing(_) => 2
    case Observing => 3
    case Registering => 4
    case Deciding(_) => 5
    case Scheduled => 5
    case Rechecking(_) => 6
  }

  lemma StepGoesOn(s: State)
    requires Safe(s) && s.completed && (forall i :: i in s.notifiers ==> s.notifiers[i].Quiet?) && !s.pc.Done?
    ensures var s' := Apply(s, NextStep(s.pc));
      && Safe(s') && s'.completed && s'.notifiers == s.notifiers && s'.timedOut == s.timedOut
      && StepsLeft(s'.pc) == StepsLeft(s.pc) - 1
  {
    SectionSafe(s, NextStep(s.pc));
  }

  lemma {:induction false} StepsFinish(s: State, n: nat)
    requires Safe(s) && s.completed && (forall i :: i in s.notifiers ==> s.notifiers[i].Quiet?) && n == StepsLeft(s.pc)
    ensures OwnSteps(s, n).pc == Done(s.timedOut)
    decreases n
  {
    if n > 0 {
      hide Safe, Apply;
      StepGoesOn(s);
      StepsFinish(Apply(s, NextStep(s.pc)), n - 1);
    }
  }

  /**
   Once the request is completed and every notification has finished, the thread needs at most six more
   steps of its own, wherever it stands, even blocked before its recheck; it reports a timeout only if it
   had given up before.
   */
  lemma WaitFinishes(s: State)
    requires Reachable(s) && s.completed && forall i :: i in s.notifiers ==> s.notifiers[i].Quiet?
    ensures exists n: nat :: n <= 6 && OwnSteps(s, n).pc.Done?
    ensures !s.pc.Releasing? && !s.pc.Done? ==> exists n: nat :: n <= 6 && OwnSteps(s, n).pc == Done(false)
  {
    hide Reachable;
    ReachableSafe(s);
    StepsFinish(s, StepsLeft(s.pc));
  }

  /** A request already complete is found by the first probe: four steps, no sleep, no timeout. */
  lemma CompleteAtOnce(tid: ThreadId, canSleep: bool, notification: nat)
    ensures Run(Initial(tid, true, canSleep, notification), [Register, Observe, Probe, Release]) ==
      Initial(tid, true, canSleep, notification).(pc := Done(false))
  {
    var s := Initial(tid, true, canSleep, notification);
    var run := [Register, Observe, Probe, Release];
    assert run[1..] == [Observe, Probe, Release] && run[1..][1..] == [Probe, Release] && run[1..][1..][1..] == [Release];
    assert run[1..][1..][1..][1..] == [];
    assert Run(DoProbe(DoObserve(DoRegister(s))), [Release]) == DoRelease(DoProbe(DoObserve(DoRegister(s))));
  }

  /** A thread that gives up reports the timeout, and only such a thread does. */
  lemma TimeoutIsReported(s: State)
    requires Reachable(s) && s.pc.Deciding?
    ensures DoRelease(DoDecide(s, TimeOut)).pc == Done(true)
    ensures forall choice: Choice :: !choice.TimeOut? ==> !DoDecide(s, choice).timedOut
  {
    hide Reachable;
    ReachableSafe(s);
  }
}
