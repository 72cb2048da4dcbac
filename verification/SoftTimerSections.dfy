/** What single sections of the soft timers do, timer by timer. */
module SoftTimerSections {
  import opened FileBytes
  import opened SoftTimers
  import opened SoftTimerSafety

  // ---- Append ----

  lemma {:induction false} InsertedOnce(chain: Chain, t: Timer)
    ensures multiset(InsertMain(chain, t)) == multiset(chain) + multiset{t}
    ensures multiset(InsertRetry(chain, t)) == multiset(chain) + multiset{t}
  {
    if chain != [] {
      InsertedOnce(chain[1..], t);
      assert chain == [chain[0]] + chain[1..];
    }
  }

  /** The timer a request asks for, due `delay` ticks from now. */
  function Wanted(tick: nat, delay: nat, r: Request, serial: nat): Timer {
    Timer(tick + delay, r.iden, r.hand, r.kind, r.target, r.messageType, 0, serial, 0)
  }

  /**
   A request with memory adds exactly one timer, under a new serial, due after its delay and with what it asked for; without
   memory only the serial is used up, and a deferred callback without a function is refused.
   */
  lemma RequestAddsOne(s: State, delay: nat, r: Request, memory: bool)
    ensures var s' := DoRequest(s, delay, r, memory);
      if r.kind == DeferredCallback && r.hand == 0 then s' == s
      else
        && s'.serial == s.serial + 1 && s'.retry == s.retry && s'.tick == s.tick && s'.pending == s.pending
        && multiset(s'.main) == multiset(s.main) + (if memory then multiset{Wanted(s.tick, delay, r, s.serial + 1)} else multiset{})
        && (SortedMain(s.main) ==> SortedMain(s'.main))
  {
    hide InsertMain, SortedMain;
    var t := Wanted(s.tick, delay, r, s.serial + 1);
    InsertedOnce(s.main, t);
    if SortedMain(s.main) { InsertMainFacts(s.main, t, 0); }
    assert NewTimer(r).(timeout := s.tick + delay, serial := s.serial + 1) == t;
  }

  // ---- Cancel ----

  lemma {:induction false} KeptOthers(chain: Chain, p: Pattern, t: Timer)
    ensures multiset(Keep(chain, p))[t] == if Matches(t, p) then 0 else multiset(chain)[t]
  {
    if chain != [] {
      KeptOthers(chain[1..], p, t);
      assert chain == [chain[0]] + chain[1..];
      assert multiset(chain)[t] == multiset(chain[1..])[t] + (if chain[0] == t then 1 else 0);
    }
  }

  /** Cancelling the wake-ups of a thread takes exactly these, from both chains. */
  lemma CancelWakesTakes(s: State, thread: nat, t: Timer)
    ensures var s' := DoCancel(s, Wakes(thread));
      && multiset(s'.main)[t] == (if t.kind == ThreadWake && t.target == thread then 0 else multiset(s.main)[t])
      && multiset(s'.retry)[t] == (if t.kind == ThreadWake && t.target == thread then 0 else multiset(s.retry)[t])
  {
    KeptOthers(s.main, Wakes(thread), t);
    KeptOthers(s.retry, Wakes(thread), t);
  }

  /** Cancelling deferred callbacks takes those with the number and, if one is named, the function. */
  lemma CancelDeferredTakes(s: State, iden: nat, hand: nat, t: Timer)
    ensures var s' := DoCancel(s, Deferred(iden, hand));
      var taken := t.kind == DeferredCallback && t.iden == iden && (hand != 0 ==> t.hand == hand);
      && multiset(s'.main)[t] == (if taken then 0 else multiset(s.main)[t])
      && multiset(s'.retry)[t] == (if taken then 0 else multiset(s.retry)[t])
  {
    KeptOthers(s.main, Deferred(iden, hand), t);
    KeptOthers(s.retry, Deferred(iden, hand), t);
  }

  /** What is taken is recorded as cancelled, and nothing else is. */
  lemma CancelRecords(s: State, p: Pattern, k: nat)
    ensures var s' := DoCancel(s, p);
      if exists t :: (t in s.main || t in s.retry) && t.serial == k && Matches(t, p)
      then k in s'.fates && s'.fates[k] == Cancelled
      else (k in s'.fates <==> k in s.fates) && (k in s.fates ==> s'.fates[k] == s.fates[k])
  {
    if t :| (t in s.main || t in s.retry) && t.serial == k && Matches(t, p) {
      if t in s.main {
        var i :| 0 <= i < |s.main| && s.main[i] == t;
        assert k in CancelledSerials(s.main, p);
      } else {
        var i :| 0 <= i < |s.retry| && s.retry[i] == t;
        assert k in CancelledSerials(s.retry, p);
      }
    }
  }

  // ---- Collect ----

  predicate DueCallback(t: Timer, tick: nat) {
    t.kind == Callback && t.timeout <= tick
  }

  predicate NoneBefore(main: Chain, tick: nat, i: nat)
    requires i <= |main|
  {
    forall k :: 0 <= k < i ==> !DueCallback(main[k], tick)
  }

  predicate FirstRipe(main: Chain, tick: nat, i: nat) {
    i < |main| && Ripe(main[i], tick) && forall k :: 0 <= k < i ==> !Ripe(main[k], tick)
  }

  lemma {:induction false} ScanFinds(main: Chain, tick: nat, pending: bool, from: nat, candidate: Option<nat>)
    requires from <= |main| && SortedMain(main) && NoneBefore(main, tick, from)
    requires candidate.Some? ==> !pending && candidate.value < from && FirstRipe(main, tick, candidate.value)
    requires candidate.None? ==> pending || forall k :: 0 <= k < from ==> !Ripe(main[k], tick)
    ensures var r := ScanMain(main, tick, pending, from, candidate);
      && (r.Extract? ==> r.at < |main| && DueCallback(main[r.at], tick) && NoneBefore(main, tick, r.at))
      && (!r.Extract? ==> NoneBefore(main, tick, |main|))
      && (r.Announce? ==> !pending && FirstRipe(main, tick, r.at))
      && (r.Nothing? ==> pending || forall k :: 0 <= k < |main| ==> !Ripe(main[k], tick))
    decreases |main| - from
  {
    if from < |main| && main[from].timeout <= tick {
      if main[from].kind != Callback {
        if !pending && candidate.None? && tick >= main[from].retryAfter {
          ScanFinds(main, tick, pending, from + 1, Some(from));
        } else {
          ScanFinds(main, tick, pending, from + 1, candidate);
        }
      }
    }
  }

  /**
   One turn of the collector: the earliest due callback is taken and called; if none is due and nothing is pending, the
   earliest deferred timer whose rest is over is announced; otherwise the processor leaves.
   */
  lemma CollectsEarliest(s: State, cpu: nat, memory: bool)
    requires Safe(s) && CollectorOf(s, cpu).Looking?
    ensures var main, s' := Revived(s, memory).main, DoLook(s, cpu, memory);
      if exists i :: 0 <= i < |main| && DueCallback(main[i], s.tick)
      then exists i :: 0 <= i < |main| && DueCallback(main[i], s.tick) && NoneBefore(main, s.tick, i)
                       && CollectorOf(s', cpu) == Calling(main[i]) && s'.main == Without(main, i) && s'.pending == s.pending
      else if !s.pending && exists i :: 0 <= i < |main| && Ripe(main[i], s.tick)
      then exists i: nat :: FirstRipe(main, s.tick, i) && CollectorOf(s', cpu) == Notifying(main[i].serial) && s'.main == main && s'.pending
      else CollectorOf(s', cpu) == Away && s'.main == main && s'.pending == s.pending
  {
    hide Safe, ScanMain, Revived, Without;
    var r := Revived(s, memory);
    ReviveSafe(s, memory);
    RevivedSame(s, memory);
    MainIsSorted(r);
    ScanFinds(r.main, r.tick, r.pending, 0, None);
    var found := ScanMain(r.main, r.tick, r.pending, 0, None);
    if found.Announce? { assert Ripe(r.main[found.at], s.tick); }
  }

  lemma MainIsSorted(s: State)
    requires Safe(s)
    ensures SortedMain(s.main) && SortedRetry(s.retry)
  {
  }

  lemma RevivedSame(s: State, memory: bool)
    ensures var r := Revived(s, memory); r.tick == s.tick && r.pending == s.pending && r.collectors == s.collectors
  {
  }

  /** At most one timer comes back from the retry chain, the one that has rested longest, and only when nothing is pending. */
  lemma RevivesLongestRested(s: State, memory: bool)
    requires Safe(s)
    ensures var s' := Revived(s, memory);
      if !s.pending && memory && exists t :: t in s.retry && t.retryAfter <= s.tick
      then s.retry != [] && s.retry == [s.retry[0]] + s'.retry && (forall t :: t in s.retry ==> s.retry[0].retryAfter <= t.retryAfter)
           && multiset(s'.main) == multiset(s.main) + multiset{s.retry[0].(retryAfter := 0)}
      else s' == s
  {
    hide Safe;
    MainIsSorted(s);
    if s.retry != [] {
      InsertedOnce(s.main, s.retry[0].(retryAfter := 0));
      forall t | t in s.retry ensures s.retry[0].retryAfter <= t.retryAfter {
        var i :| 0 <= i < |s.retry| && s.retry[i] == t;
      }
      assert s.retry[0] in s.retry;
    }
  }

  // ---- Dispatch ----

  predicate DueDeferred(t: Timer, tick: nat) {
    t.kind != Callback && t.timeout <= tick
  }

  lemma {:induction false} FirstDeferredExact(main: Chain, tick: nat, from: nat)
    requires from <= |main| && SortedMain(main)
    ensures var i := FirstDeferred(main, tick, from);
      && (i < |main| ==> DueDeferred(main[i], tick))
      && forall k :: from <= k < i ==> !DueDeferred(main[k], tick)
    decreases |main| - from
  {
    if from < |main| && main[from].timeout <= tick && main[from].kind == Callback {
      FirstDeferredExact(main, tick, from + 1);
    }
  }

  /** One turn of the dispatcher: the earliest due deferred timer is taken and acted on, else the announcement is over. */
  lemma DispatchesEarliest(s: State)
    requires Safe(s) && s.dispatcher.Draining?
    ensures var s' := DoDrain(s);
      if exists i :: 0 <= i < |s.main| && DueDeferred(s.main[i], s.tick)
      then exists i :: 0 <= i < |s.main| && DueDeferred(s.main[i], s.tick) && (forall k :: 0 <= k < i ==> !DueDeferred(s.main[k], s.tick))
                       && s'.dispatcher == Acting(s.main[i]) && s'.main == Without(s.main, i) && s'.pending == s.pending
      else s'.dispatcher == Sleeping && s'.main == s.main && !s'.pending
  {
    hide Safe, FirstDeferred, Without;
    MainIsSorted(s);
    FirstDeferredExact(s.main, s.tick, 0);
  }

  /**
   After a refused event the timer has one more attempt behind it: it is dropped with the fifth, else it rests for two
   ticks, in the retry chain or, without memory, in place.
   */
  lemma RefusalCounts(s: State, cpu: nat, memory: bool, i: nat)
    requires CollectorOf(s, cpu).Failing? && i == Find(s.main, CollectorOf(s, cpu).serial) < |s.main|
    ensures var s', t := DoFail(s, cpu, memory), s.main[i];
      var rested := t.(attempts := t.attempts + 1, retryAfter := s.tick + 2);
      && !s'.pending && CollectorOf(s', cpu) == Away
      && (t.attempts + 1 >= 5 ==>
            multiset(s'.main) == multiset(s.main) - multiset{t} && s'.retry == s.retry
            && s'.fates == s.fates[t.serial := Dropped(t.attempts + 1, false)])
      && (t.attempts + 1 < 5 && memory ==>
            multiset(s'.main) == multiset(s.main) - multiset{t} && multiset(s'.retry) == multiset(s.retry) + multiset{rested}
            && s'.fates == s.fates)
      && (t.attempts + 1 < 5 && !memory ==> s'.main == s.main[i := rested] && s'.retry == s.retry && s'.fates == s.fates)
  {
    hide InsertRetry, Find;
    var t := s.main[i].(attempts := s.main[i].attempts + 1, retryAfter := s.tick + 2);
    InsertedOnce(s.retry, t);
    TakenOnce(s.main, i);
  }

  lemma TakenOnce(chain: Chain, i: nat)
    requires i < |chain|
    ensures multiset(Without(chain, i)) == multiset(chain) - multiset{chain[i]}
  {
    assert chain == chain[..i] + [chain[i]] + chain[i + 1..];
  }

  /**
   Only a driver message that was not delivered goes on: with its fifth attempt it is dropped, before that it is appended
   again, due in two ticks, with what it carried and one more attempt. Everything else has fired.
   */
  lemma UndeliveredGoesOn(s: State, delivered: bool, memory: bool)
    requires s.dispatcher.Acting?
    ensures var t, s1 := s.dispatcher.timer, DoAct(s, delivered);
      if t.kind != DriverMessage || delivered then s1 == s.(fates := s.fates[t.serial := Fired(s.tick, t.timeout)], dispatcher := Draining)
      else if t.attempts >= 4 then s1 == s.(fates := s.fates[t.serial := Dropped(t.attempts + 1, false)], dispatcher := Draining)
      else
        var s2 := DoRequeue(s1, memory);
        var again := t.(attempts := t.attempts + 1, timeout := s.tick + 2, serial := s.serial + 1);
        && s2.dispatcher == Draining && s2.serial == s.serial + 1 && s2.retry == s.retry
        && multiset(s2.main) == multiset(s.main) + (if memory then multiset{again} else multiset{})
        && s2.fates == s.fates[t.serial := if memory then Requeued(s.serial + 1) else Dropped(t.attempts + 1, true)]
  {
    hide InsertMain;
    var t := s.dispatcher.timer;
    InsertedOnce(s.main, t.(attempts := t.attempts + 1, timeout := s.tick + 2, serial := s.serial + 1));
  }
}
