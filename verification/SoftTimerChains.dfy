/** The locked sections as the kernel runs them on its two chains. */
module SoftTimerChains {
  import opened FileBytes
  import opened SoftTimers
  import opened SoftTimerSections

  /** `FindTimerBySerial`. */
  method FindTimerBySerial(chain: Chain, serial: nat) returns (i: nat)
    ensures i == Find(chain, serial)
  {
    i := 0;
    while i < |chain|
      invariant i <= |chain| && Find(chain, serial, i) == Find(chain, serial)
    {
      if chain[i].serial == serial {
        return;
      }
      i := i + 1;
    }
  }

  lemma KeepFrom(chain: Chain, i: nat, p: Pattern)
    requires i < |chain|
    ensures Keep(chain[i..], p) == (if Matches(chain[i], p) then [] else [chain[i]]) + Keep(chain[i + 1..], p)
  {
    assert chain[i..][1..] == chain[i + 1..];
  }

  /** `CancelThreadWakeFromChain` and `CancelDeferredCallbackFromChain`: unlinks the matching nodes one by one. */
  method CancelFromChain(chain: Chain, p: Pattern) returns (kept: Chain, cancelled: nat)
    ensures kept == Keep(chain, p) && cancelled == |chain| - |kept|
  {
    hide Matches, Keep;
    kept, cancelled := chain, 0;
    assert chain[0..] == chain;
    var i := 0;
    while i < |kept|
      invariant i <= |kept| && cancelled == |chain| - |kept|
      invariant Keep(chain, p) == kept[..i] + Keep(kept[i..], p)
    {
      KeepFrom(kept, i, p);
      if Matches(kept[i], p) {
        ghost var rest := kept[i + 1..];
        kept := kept[..i] + kept[i + 1..];
        cancelled := cancelled + 1;
        assert kept[i..] == rest;
      } else {
        i := i + 1;
      }
    }
    NothingKept(kept[i..], p);
  }

  lemma NothingKept(chain: Chain, p: Pattern)
    requires chain == []
    ensures Keep(chain, p) == []
  {
  }

  class Manager {
    var main: Chain
    var retry: Chain
    var pending: bool
    var serial: nat

    /** The chains, the flag and the counter hold what the state says. */
    ghost predicate Shows(s: State)
      reads this
    {
      main == s.main && retry == s.retry && pending == s.pending && serial == s.serial
    }

    constructor ()
      ensures Shows(INITIAL)
    {
      main, retry, pending, serial := [], [], false, 0;
    }

    method AppendTimer(ghost s: State, tick: nat, delay: nat, t: Timer, memory: bool) returns (appended: bool)
      requires Shows(s) && tick == s.tick
      modifies this
      ensures Shows(DoAppend(s, delay, t, memory)) && appended == memory
      ensures serial == old(serial) + 1 && retry == old(retry) && pending == old(pending)
      ensures multiset(main) == multiset(old(main)) +
        (if appended then multiset{t.(timeout := tick + delay, serial := old(serial) + 1)} else multiset{})
    {
      InsertedOnce(main, t.(timeout := tick + delay, serial := serial + 1));
      serial := serial + 1;
      if memory {
        main := InsertMain(main, t.(timeout := tick + delay, serial := serial));
      }
      return memory;
    }

    method Cancel(ghost s: State, p: Pattern) returns (cancelled: nat)
      requires Shows(s)
      modifies this
      ensures Shows(DoCancel(s, p)) && cancelled == |s.main| + |s.retry| - |main| - |retry|
    {
      var inMain, inRetry;
      main, inMain := CancelFromChain(main, p);
      retry, inRetry := CancelFromChain(retry, p);
      return inMain + inRetry;
    }

    /** One turn of the loop in `CollectExpired` under the lock. */
    method CollectSection(ghost s: State, cpu: nat, tick: nat, memory: bool) returns (found: Scan, callback: Option<Timer>)
      requires Shows(s) && tick == s.tick && CollectorOf(s, cpu).Looking?
      modifies this
      ensures Shows(DoLook(s, cpu, memory))
      ensures CollectorOf(DoLook(s, cpu, memory), cpu) == match found
        case Nothing => Away
        case Extract(at) => (if callback.Some? then Calling(callback.value) else Looking)
        case Announce(at) => (if at < |main| then Notifying(main[at].serial) else Looking)
    {
      callback := None;
      if !pending && retry != [] && tick >= retry[0].retryAfter && memory {
        main := InsertMain(main, retry[0].(retryAfter := 0));
        retry := retry[1..];
      }
      ghost var revived := Revived(s, memory);
      assert Shows(revived);
      var i, dispatch: Option<nat> := 0, None;
      while i < |main| && main[i].timeout <= tick && main[i].kind != Callback
        invariant i <= |main| && Shows(revived)
        invariant dispatch.Some? ==> dispatch.value < |main|
        invariant ScanMain(main, tick, pending, i, dispatch) == ScanMain(main, tick, pending, 0, None)
      {
        if !pending && dispatch.None? && tick >= main[i].retryAfter {
          dispatch := Some(i);
        }
        i := i + 1;
      }
      if i < |main| && main[i].timeout <= tick {
        found, callback := Extract(i), Some(main[i]);
        main := Without(main, i);
      } else if dispatch.Some? {
        found, pending := Announce(dispatch.value), true;
      } else {
        found := Nothing;
      }
    }

    /** The section of `CollectExpired` after the event was refused. */
    method FailSection(ghost s: State, cpu: nat, notified: nat, tick: nat, memory: bool)
      requires Shows(s) && tick == s.tick && CollectorOf(s, cpu) == Failing(notified)
      modifies this
      ensures Shows(DoFail(s, cpu, memory))
    {
      pending := false;
      var i := FindTimerBySerial(main, notified);
      if i == |main| {
        return;
      }
      var again := main[i].(attempts := main[i].attempts + 1);
      if again.attempts >= ATTEMPT_LIMIT {
        main := Without(main, i);
      } else {
        again := again.(retryAfter := tick + RETRY_DELAY);
        if memory {
          retry := InsertRetry(retry, again);
          main := Without(main, i);
        } else {
          main := main[i := again];
        }
      }
    }

    /** One turn of the loop in `DispatchExpired` under the lock. */
    method DrainSection(ghost s: State, tick: nat) returns (expired: Option<Timer>)
      requires Shows(s) && tick == s.tick && s.dispatcher.Draining?
      modifies this
      ensures Shows(DoDrain(s))
      ensures DoDrain(s).dispatcher == if expired.Some? then Acting(expired.value) else Sleeping
    {
      var i := 0;
      while i < |main| && main[i].timeout <= tick && main[i].kind == Callback
        invariant i <= |main| && FirstDeferred(main, tick, i) == FirstDeferred(main, tick)
      {
        i := i + 1;
      }
      if i == |main| || main[i].timeout > tick {
        pending := false;
        return None;
      }
      expired := Some(main[i]);
      main := Without(main, i);
    }
  }
}
