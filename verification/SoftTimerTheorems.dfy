/** What the soft timers promise over every run. */
module SoftTimerTheorems {
  import opened FileBytes
  import opened SoftTimers
  import opened SoftTimerSafety
  import opened Counting

  ghost predicate Reachable(s: State) {
    exists run :: s == Run(INITIAL, run)
  }

  lemma ReachableSafe(s: State)
    requires Reachable(s)
    ensures Safe(s)
  {
    var run :| s == Run(INITIAL, run);
    InitialSafe();
    RunsSafe(INITIAL, run);
  }

  /**
   Every appended timer is in exactly one of: the main chain, the retry chain, a processor running it, the
   dispatcher's hands, or the record of timers fired, cancelled, dropped or requeued. Nothing else is anywhere.
   */
  lemma TimersAreConserved(s: State, k: nat)
    requires Reachable(s)
    ensures Occurs(s.main, k) + Occurs(s.retry, k) + |Callers(s.collectors, k)| + InHand(s.dispatcher, k) + One(k in s.fates)
      == One(k in s.appended)
  {
    hide Reachable, Safe;
    ReachableSafe(s);
    PlaceOf(s, k);
  }

  /** No timer is run, and none has fired, before its timeout. */
  lemma NeverEarly(s: State, k: nat, cpu: nat)
    requires Reachable(s)
    ensures k in s.fates && s.fates[k].Fired? ==> s.fates[k].timeout <= s.fates[k].at
    ensures CollectorOf(s, cpu).Calling? ==> CollectorOf(s, cpu).timer.timeout <= s.tick
    ensures s.dispatcher.Acting? ==> s.dispatcher.timer.timeout <= s.tick
  {
    hide Reachable;
    ReachableSafe(s);
    if k in s.fates { assert FateSafe(s, k); }
    if cpu in s.collectors { assert CollectorSafe(s, cpu); }
  }

  /** The flag is set exactly while one event is being delivered, queued or drained. */
  lemma PendingIsOneToken(s: State)
    requires Reachable(s)
    ensures |Announcers(s.collectors)| + s.events + One(!s.dispatcher.Sleeping?) == One(s.pending)
  {
    hide Reachable;
    ReachableSafe(s);
  }

  /** The dispatcher clears the flag only when no expired timer is left for it. */
  lemma ClearsOnlyWhenDrained(s: State)
    requires Reachable(s) && s.dispatcher.Draining? && DoDrain(s).dispatcher.Sleeping?
    ensures forall i :: 0 <= i < |s.main| && s.main[i].timeout <= s.tick ==> s.main[i].kind == Callback
  {
    hide Reachable;
    ReachableSafe(s);
    DeferredFound(s.main, s.tick, 0);
  }

  lemma {:induction false} DeferredFound(main: Chain, tick: nat, from: nat)
    requires from <= |main| && SortedMain(main) && FirstDeferred(main, tick, from) == |main|
    ensures forall i :: from <= i < |main| && main[i].timeout <= tick ==> main[i].kind == Callback
    decreases |main| - from
  {
    if from < |main| && main[from].timeout <= tick {
      DeferredFound(main, tick, from + 1);
    }
  }

  /** A processor leaves with nothing to do only when no plain callback is due and no deferred timer may be announced. */
  lemma LeavesNothingDue(s: State, cpu: nat, memory: bool)
    requires Reachable(s) && CollectorOf(s, cpu).Looking? && CollectorOf(DoLook(s, cpu, memory), cpu).Away?
    ensures var main := Revived(s, memory).main;
      forall i :: 0 <= i < |main| && main[i].timeout <= s.tick ==>
        main[i].kind != Callback && (s.pending || s.tick < main[i].retryAfter)
  {
    hide Reachable, Safe, Revived, ScanMain;
    var r := Revived(s, memory);
    ReachableSafe(s);
    ReviveSafe(s, memory);
    RevivedKeeps(s, memory);
    ScanFacts(r.main, r.tick, r.pending, 0, None);
    MainSorted(r);
    NothingDue(r.main, r.tick, r.pending, 0);
  }

  lemma MainSorted(s: State)
    requires Safe(s)
    ensures SortedMain(s.main)
  {
  }

  lemma RevivedKeeps(s: State, memory: bool)
    ensures var r := Revived(s, memory); r.tick == s.tick && r.pending == s.pending && r.collectors == s.collectors
  {
  }

  lemma {:induction false} NothingDue(main: Chain, tick: nat, pending: bool, from: nat)
    requires from <= |main| && SortedMain(main) && ScanMain(main, tick, pending, from, None).Nothing?
    ensures forall i :: from <= i < |main| && main[i].timeout <= tick ==>
      main[i].kind != Callback && (pending || tick < main[i].retryAfter)
    decreases |main| - from
  {
    if from < |main| && main[from].timeout <= tick && main[from].kind != Callback {
      if !pending && tick >= main[from].retryAfter {
        CandidateStays(main, tick, pending, from + 1, from);
      } else {
        NothingDue(main, tick, pending, from + 1);
      }
    }
  }

  lemma {:induction false} CandidateStays(main: Chain, tick: nat, pending: bool, from: nat, candidate: nat)
    requires from <= |main|
    ensures !ScanMain(main, tick, pending, from, Some(candidate)).Nothing?
    decreases |main| - from
  {
    if from < |main| && main[from].timeout <= tick && main[from].kind != Callback {
      CandidateStays(main, tick, pending, from + 1, candidate);
    }
  }

  // ---- Dropping ----

  /** A timer was dropped after exactly five failed deliveries, or earlier when it could not be appended again. */
  lemma DroppedAfterFiveOrOutOfMemory(s: State, k: nat)
    requires Reachable(s) && k in s.fates && s.fates[k].Dropped?
    ensures if s.fates[k].outOfMemory then s.fates[k].attempts < ATTEMPT_LIMIT else s.fates[k].attempts == ATTEMPT_LIMIT
  {
    hide Reachable;
    ReachableSafe(s);
    assert FateSafe(s, k);
  }

  ghost predicate NoEarlyDrop(s: State) {
    forall k :: k in s.fates && s.fates[k].Dropped? ==> !s.fates[k].outOfMemory
  }

  lemma OnlyRequeueDropsEarly(s: State, a: Action)
    requires NoEarlyDrop(s) && !(a.Requeue? && !a.memory)
    ensures NoEarlyDrop(Apply(s, a))
  {
    hide Keep, CancelledSerials, InsertMain, InsertRetry, ScanMain, Find, FirstDeferred, Without;
  }

  lemma {:induction false} NoEarlyDropOver(s: State, run: seq<Action>)
    requires NoEarlyDrop(s) && forall i :: 0 <= i < |run| ==> !(run[i].Requeue? && !run[i].memory)
    ensures NoEarlyDrop(Run(s, run))
    decreases |run|
  {
    hide NoEarlyDrop, Apply;
    if run != [] {
      OnlyRequeueDropsEarly(s, run[0]);
      NoEarlyDropOver(Apply(s, run[0]), run[1..]);
    }
  }

  /** As long as every re-append finds memory, a failed delivery drops a timer only after five attempts. */
  lemma FiveAttempts(run: seq<Action>, k: nat)
    requires forall i :: 0 <= i < |run| ==> !(run[i].Requeue? && !run[i].memory)
    requires var s := Run(INITIAL, run); k in s.fates && s.fates[k].Dropped?
    ensures Run(INITIAL, run).fates[k].attempts == ATTEMPT_LIMIT
  {
    hide Apply;
    NoEarlyDropOver(INITIAL, run);
    DroppedAfterFiveOrOutOfMemory(Run(INITIAL, run), k);
  }

  /** A message below its fifth attempt is lost exactly when its re-append finds no memory; otherwise it goes on. */
  lemma LostIffOutOfMemory(s: State, memory: bool)
    requires Reachable(s) && s.dispatcher.Requeueing?
    ensures var k, s' := s.dispatcher.timer.serial, DoRequeue(s, memory);
      && s.dispatcher.timer.attempts < ATTEMPT_LIMIT
      && (k in s'.fates && s'.fates[k].Dropped? <==> !memory)
      && (memory ==> Occurs(s'.main, s.serial + 1) == 1)
  {
    hide Reachable, Safe;
    ReachableSafe(s);
    RequeueSafe(s, memory);
    DispatcherFacts(s);
    PlaceOf(s, s.serial + 1);
    InsertMainFacts(s.main, s.dispatcher.timer.(timeout := s.tick + RETRY_DELAY, serial := s.serial + 1), s.serial + 1);
  }

  lemma DispatcherFacts(s: State)
    requires Safe(s)
    ensures DispatcherSafe(s) && SortedMain(s.main) && s.serial + 1 !in s.appended
  {
  }

  /** Five attempts are not always made: one undelivered message and a failed allocation lose the timer. */
  lemma DroppedAfterOneAttempt()
    ensures exists run :: var s := Run(INITIAL, run); 1 in s.fates && s.fates[1] == Dropped(1, true)
  {
    hide Run;
    var first := [Append(0, SAMPLE, true), Start(0), Look(0, true), Notify(0, true)];
    var second := [TakeEvent, Drain, Act(false), Requeue(false)];
    RunJoin(INITIAL, first, second);
    SampleAnnounced();
    SampleLost();
    var s := Run(INITIAL, first + second);
    assert 1 in s.fates && s.fates[1] == Dropped(1, true);
  }

  const SAMPLE := Request(7, 0, DriverMessage, 3, 1)

  const ANNOUNCED := INITIAL.(serial := 1, main := [NewTimer(SAMPLE).(serial := 1)], appended := {1},
                              collectors := map[0 := Away], pending := true, events := 1)

  lemma SampleAnnounced()
    ensures Run(INITIAL, [Append(0, SAMPLE, true), Start(0), Look(0, true), Notify(0, true)]) == ANNOUNCED
  {
    var t := NewTimer(SAMPLE).(serial := 1);
    var s1 := Apply(INITIAL, Append(0, SAMPLE, true));
    assert s1 == INITIAL.(serial := 1, main := [t], appended := {1});
    var s2 := Apply(s1, Start(0));
    LookAnnounces(s2, t);
    var s3 := Apply(s2, Look(0, true));
    assert Apply(s3, Notify(0, true)) == ANNOUNCED;
    var run := [Append(0, SAMPLE, true), Start(0), Look(0, true), Notify(0, true)];
    FourActions(INITIAL, run);
  }

  lemma SampleLost()
    ensures var s := Run(ANNOUNCED, [TakeEvent, Drain, Act(false), Requeue(false)]);
      1 in s.fates && s.fates[1] == Dropped(1, true)
  {
    var t := NewTimer(SAMPLE).(serial := 1);
    var s1 := Apply(ANNOUNCED, TakeEvent);
    var s2 := Apply(s1, Drain);
    assert s2.dispatcher == Acting(t);
    var s3 := Apply(s2, Act(false));
    assert Apply(s3, Requeue(false)).fates[1] == Dropped(1, true);
    FourActions(ANNOUNCED, [TakeEvent, Drain, Act(false), Requeue(false)]);
  }

  lemma FourActions(s: State, run: seq<Action>)
    requires |run| == 4
    ensures Run(s, run) == Apply(Apply(Apply(Apply(s, run[0]), run[1]), run[2]), run[3])
  {
    hide Apply;
    var s1 := Apply(s, run[0]);
    var s2 := Apply(s1, run[1]);
    var s3 := Apply(s2, run[2]);
    assert Run(s, run) == Run(s1, run[1..]) == Run(s2, run[2..]) == Run(s3, run[3..]) == Run(Apply(s3, run[3]), []) by {
      assert run[1..][1..] == run[2..] && run[2..][1..] == run[3..] && run[3..][1..] == [];
    }
  }

  lemma {:induction false} RunJoin(s: State, first: seq<Action>, second: seq<Action>)
    ensures Run(s, first + second) == Run(Run(s, first), second)
    decreases |first|
  {
    hide Apply;
    if first == [] {
      assert first + second == second;
    } else {
      RunJoin(Apply(s, first[0]), first[1..], second);
      assert (first + second)[1..] == first[1..] + second;
    }
  }

  lemma LookAnnounces(s: State, t: Timer)
    requires s.main == [t] && s.retry == [] && !s.pending && CollectorOf(s, 0).Looking?
    requires t.kind != Callback && t.timeout <= s.tick && t.retryAfter <= s.tick
    ensures DoLook(s, 0, true) == AtCpu(s.(pending := true), 0, Notifying(t.serial))
  {
    assert ScanMain(s.main, s.tick, false, 1, Some(0)) == Announce(0);
  }
}
