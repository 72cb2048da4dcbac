/** What every interleaving of appending, cancelling, collecting and dispatching keeps. */
module SoftTimerSafety {
  import opened FileBytes
  import opened Counting
  import opened SoftTimers

  // ---- Where a serial is ----

  function Occurs(chain: Chain, serial: nat): nat {
    if chain == [] then 0 else (if chain[0].serial == serial then 1 else 0) + Occurs(chain[1..], serial)
  }

  predicate Calls(c: Collector, serial: nat) {
    c.Calling? && c.timer.serial == serial
  }

  function Callers(collectors: map<nat, Collector>, serial: nat): set<nat> {
    set cpu | cpu in collectors && Calls(collectors[cpu], serial)
  }

  function InHand(d: Dispatcher, serial: nat): nat {
    if (d.Acting? || d.Requeueing?) && d.timer.serial == serial then 1 else 0
  }

  /** How many of the chains, processors, the dispatcher and the record of fates hold the serial. */
  function Holders(s: State, k: nat): nat {
    Occurs(s.main, k) + Occurs(s.retry, k) + |Callers(s.collectors, k)| + InHand(s.dispatcher, k) + One(k in s.fates)
  }

  // ---- Who holds the right to announce ----

  predicate Announces(c: Collector) {
    c.Notifying? || c.Failing?
  }

  function Announcers(collectors: map<nat, Collector>): set<nat> {
    set cpu | cpu in collectors && Announces(collectors[cpu])
  }

  function Tokens(s: State): nat {
    |Announcers(s.collectors)| + s.events + One(!s.dispatcher.Sleeping?)
  }

  // ---- The invariant ----

  predicate SortedMain(chain: Chain) {
    forall i, j :: 0 <= i < j < |chain| ==> chain[i].timeout <= chain[j].timeout
  }

  predicate SortedRetry(chain: Chain) {
    forall i, j :: 0 <= i < j < |chain| ==> chain[i].retryAfter <= chain[j].retryAfter
  }

  predicate Waiting(chain: Chain) {
    forall i :: 0 <= i < |chain| ==> chain[i].attempts < ATTEMPT_LIMIT
  }

  predicate FateSafe(s: State, k: nat)
    requires k in s.fates
  {
    match s.fates[k]
    case Fired(at, timeout) => timeout <= at <= s.tick
    case Cancelled => true
    case Dropped(attempts, outOfMemory) => if outOfMemory then attempts < ATTEMPT_LIMIT else attempts == ATTEMPT_LIMIT
    case Requeued(next) => next in s.appended
  }

  /** A timer being run has expired. */
  predicate CollectorSafe(s: State, cpu: nat)
    requires cpu in s.collectors
  {
    s.collectors[cpu].Calling? ==> s.collectors[cpu].timer.timeout <= s.tick
  }

  predicate DispatcherSafe(s: State) {
    s.dispatcher.Acting? || s.dispatcher.Requeueing? ==>
      s.dispatcher.timer.timeout <= s.tick && s.dispatcher.timer.attempts < ATTEMPT_LIMIT
  }

  /** Every serial that entered the chains is in exactly one place; no other is anywhere. */
  ghost predicate Conserved(s: State) {
    forall k :: Holders(s, k) == One(k in s.appended)
  }

  ghost predicate Safe(s: State) {
    && Conserved(s)
    && (forall k :: k in s.appended ==> 1 <= k <= s.serial)
    && SortedMain(s.main) && SortedRetry(s.retry) && Waiting(s.main) && Waiting(s.retry)
    && (forall k :: k in s.fates ==> FateSafe(s, k))
    && (forall cpu :: cpu in s.collectors ==> CollectorSafe(s, cpu))
    && DispatcherSafe(s)
    && Tokens(s) == One(s.pending)
  }

  // ---- Chains ----

  lemma {:induction false} InsertMainFacts(chain: Chain, t: Timer, k: nat)
    requires SortedMain(chain)
    ensures var r := InsertMain(chain, t);
      && SortedMain(r) && |r| == |chain| + 1
      && (forall i :: 0 <= i < |r| ==> r[i] == t || r[i] in chain)
      && Occurs(r, k) == Occurs(chain, k) + One(t.serial == k)
    decreases |chain|
  {
    var r := InsertMain(chain, t);
    if chain == [] || t.timeout < chain[0].timeout {
      assert r[1..] == chain;
    } else {
      InsertMainFacts(chain[1..], t, k);
      assert r[1..] == InsertMain(chain[1..], t);
      forall i | 0 <= i < |r| ensures (r[i] == t || r[i] in chain) && chain[0].timeout <= r[i].timeout {
        if i > 0 {
          assert r[i] == InsertMain(chain[1..], t)[i - 1];
        }
      }
    }
  }

  lemma {:induction false} InsertRetryFacts(chain: Chain, t: Timer, k: nat)
    requires SortedRetry(chain)
    ensures var r := InsertRetry(chain, t);
      && SortedRetry(r) && |r| == |chain| + 1
      && (forall i :: 0 <= i < |r| ==> r[i] == t || r[i] in chain)
      && Occurs(r, k) == Occurs(chain, k) + One(t.serial == k)
    decreases |chain|
  {
    var r := InsertRetry(chain, t);
    if chain == [] || t.retryAfter < chain[0].retryAfter {
      assert r[1..] == chain;
    } else {
      InsertRetryFacts(chain[1..], t, k);
      assert r[1..] == InsertRetry(chain[1..], t);
      forall i | 0 <= i < |r| ensures (r[i] == t || r[i] in chain) && chain[0].retryAfter <= r[i].retryAfter {
        if i > 0 {
          assert r[i] == InsertRetry(chain[1..], t)[i - 1];
        }
      }
    }
  }

  lemma {:induction false} WithoutOccurs(chain: Chain, i: nat, k: nat)
    requires i < |chain|
    ensures Occurs(Without(chain, i), k) == Occurs(chain, k) - One(chain[i].serial == k)
    decreases |chain|
  {
    if i == 0 {
      assert Without(chain, 0) == chain[1..];
    } else {
      WithoutOccurs(chain[1..], i - 1, k);
      assert Without(chain, i)[1..] == Without(chain[1..], i - 1);
    }
  }

  lemma {:induction false} ReplaceOccurs(chain: Chain, i: nat, t: Timer, k: nat)
    requires i < |chain| && t.serial == chain[i].serial
    ensures Occurs(chain[i := t], k) == Occurs(chain, k)
    decreases |chain|
  {
    if i > 0 {
      ReplaceOccurs(chain[1..], i - 1, t, k);
      assert chain[i := t][1..] == chain[1..][i - 1 := t];
    } else {
      assert chain[0 := t][1..] == chain[1..];
    }
  }

  lemma {:induction false} KeepMembers(chain: Chain, p: Pattern)
    ensures forall i :: 0 <= i < |Keep(chain, p)| ==> Keep(chain, p)[i] in chain
    decreases |chain|
  {
    hide Matches;
    if chain != [] {
      KeepMembers(chain[1..], p);
    }
  }

  /** Filtering takes out exactly the matching timers. */
  lemma {:induction false} KeepFacts(chain: Chain, p: Pattern, k: nat)
    ensures Occurs(Keep(chain, p), k) <= Occurs(chain, k)
    ensures k !in CancelledSerials(chain, p) ==> Occurs(Keep(chain, p), k) == Occurs(chain, k)
    ensures k in CancelledSerials(chain, p) ==> Occurs(Keep(chain, p), k) < Occurs(chain, k)
    decreases |chain|
  {
    hide Matches;
    if chain != [] {
      KeepFacts(chain[1..], p, k);
      CancelledStep(chain, p);
      if Matches(chain[0], p) {
        assert Keep(chain, p) == Keep(chain[1..], p);
      } else {
        assert Keep(chain, p)[1..] == Keep(chain[1..], p);
      }
    }
  }

  lemma CancelledStep(chain: Chain, p: Pattern)
    requires chain != []
    ensures CancelledSerials(chain, p) ==
      CancelledSerials(chain[1..], p) + (if Matches(chain[0], p) then {chain[0].serial} else {})
  {
    hide Matches;
    assert forall i :: 0 <= i < |chain[1..]| ==> chain[1..][i] == chain[i + 1];
  }

  lemma {:induction false} KeepSorted(chain: Chain, p: Pattern)
    ensures SortedMain(chain) ==> SortedMain(Keep(chain, p))
    ensures SortedRetry(chain) ==> SortedRetry(Keep(chain, p))
    decreases |chain|
  {
    hide Occurs, CancelledSerials, Matches;
    if chain != [] {
      var rest := Keep(chain[1..], p);
      KeepSorted(chain[1..], p);
      KeepMembers(chain[1..], p);
      forall i | 0 <= i < |rest|
        ensures SortedMain(chain) ==> chain[0].timeout <= rest[i].timeout
        ensures SortedRetry(chain) ==> chain[0].retryAfter <= rest[i].retryAfter
      {
        assert rest[i] in chain[1..];
      }
      assert Keep(chain, p) == rest || Keep(chain, p) == [chain[0]] + rest;
    }
  }

  // ---- Collectors ----

  lemma CallersMoved(collectors: map<nat, Collector>, cpu: nat, c: Collector, k: nat)
    ensures |Callers(collectors[cpu := c], k)| ==
      |Callers(collectors, k)| - One(cpu in collectors && Calls(collectors[cpu], k)) + One(Calls(c, k))
  {
    hide One, Calls;
    Replaced(Callers(collectors, k), Callers(collectors[cpu := c], k), cpu);
  }

  lemma AnnouncersMoved(collectors: map<nat, Collector>, cpu: nat, c: Collector)
    ensures |Announcers(collectors[cpu := c])| ==
      |Announcers(collectors)| - One(cpu in collectors && Announces(collectors[cpu])) + One(Announces(c))
  {
    hide One, Announces;
    Replaced(Announcers(collectors), Announcers(collectors[cpu := c]), cpu);
  }

  // ---- The sections ----

  lemma PlaceOf(s: State, k: nat)
    requires Safe(s)
    ensures Holders(s, k) == One(k in s.appended)
  {
  }

  lemma AppendSafe(s: State, delay: nat, r: Request, memory: bool)
    requires Safe(s)
    ensures Safe(DoRequest(s, delay, r, memory))
  {
    hide Occurs, Callers, Announcers, InsertMain;
    var s' := DoRequest(s, delay, r, memory);
    if s' != s {
      var t := NewTimer(r).(timeout := s.tick + delay, serial := s.serial + 1);
      forall k ensures Holders(s', k) == One(k in s'.appended) { AppendedPlace(s, delay, NewTimer(r), memory, k); }
      InsertMainFacts(s.main, t, 0);
      forall k | k in s'.fates ensures FateSafe(s', k) { assert FateSafe(s, k); }
    }
  }

  lemma AppendedPlace(s: State, delay: nat, t: Timer, memory: bool, k: nat)
    requires Safe(s)
    ensures Holders(DoAppend(s, delay, t, memory), k) == One(k in DoAppend(s, delay, t, memory).appended)
  {
    hide Occurs, Callers, InsertMain;
    PlaceOf(s, k);
    InsertMainFacts(s.main, t.(timeout := s.tick + delay, serial := s.serial + 1), k);
  }

  lemma CancelSafe(s: State, p: Pattern)
    requires Safe(s)
    ensures Safe(DoCancel(s, p))
  {
    hide Occurs, Callers, Announcers, CancelledSerials, Keep;
    var s' := DoCancel(s, p);
    forall k ensures Holders(s', k) == One(k in s'.appended) {
      PlaceOf(s, k);
      KeepFacts(s.main, p, k);
      KeepFacts(s.retry, p, k);
    }
    KeepMembers(s.main, p);
    KeepMembers(s.retry, p);
    KeepSorted(s.main, p);
    KeepSorted(s.retry, p);
    forall k | k in s'.fates ensures FateSafe(s', k) { assert k in s.fates ==> FateSafe(s, k); }
  }

  lemma TickSafe(s: State)
    requires Safe(s)
    ensures Safe(Apply(s, Tick))
  {
    hide Occurs, Callers, Announcers;
    var s' := s.(tick := s.tick + 1);
    forall k ensures Holders(s', k) == One(k in s'.appended) { PlaceOf(s, k); }
    forall k | k in s'.fates ensures FateSafe(s', k) { assert FateSafe(s, k); }
    forall cpu | cpu in s'.collectors ensures CollectorSafe(s', cpu) { assert CollectorSafe(s, cpu); }
  }

  /** A processor's state changes, with no timer in hand before or after. */
  lemma MoveSafe(s: State, cpu: nat, c: Collector, pending: bool, events: nat)
    requires Safe(s) && !CollectorOf(s, cpu).Calling? && !c.Calling?
    requires One(Announces(c)) + events + One(s.pending) ==
      One(Announces(CollectorOf(s, cpu))) + s.events + One(pending)
    ensures Safe(AtCpu(s.(pending := pending, events := events), cpu, c))
  {
    hide Occurs, Callers, Announcers;
    var s' := AtCpu(s.(pending := pending, events := events), cpu, c);
    forall k ensures Holders(s', k) == One(k in s'.appended) {
      PlaceOf(s, k);
      CallersMoved(s.collectors, cpu, c, k);
    }
    AnnouncersMoved(s.collectors, cpu, c);
    forall k | k in s'.fates ensures FateSafe(s', k) { assert FateSafe(s, k); }
    forall u | u in s'.collectors ensures CollectorSafe(s', u) { assert u != cpu ==> CollectorSafe(s, u); }
  }

  lemma ReviveSafe(s: State, memory: bool)
    requires Safe(s)
    ensures Safe(Revived(s, memory))
  {
    hide Occurs, Callers, Announcers;
    var s' := Revived(s, memory);
    if s' != s {
      var t := s.retry[0].(retryAfter := 0);
      assert Without(s.retry, 0) == s.retry[1..];
      forall k ensures Holders(s', k) == One(k in s'.appended) {
        PlaceOf(s, k);
        InsertMainFacts(s.main, t, k);
        WithoutOccurs(s.retry, 0, k);
      }
      InsertMainFacts(s.main, t, 0);
      forall k | k in s'.fates ensures FateSafe(s', k) { assert FateSafe(s, k); }
    }
  }

  /** What the scan found is expired, of the right kind, and announced only while nothing is pending. */
  lemma {:induction false} ScanFacts(main: Chain, tick: nat, pending: bool, from: nat, candidate: Option<nat>)
    requires from <= |main|
    requires candidate.Some? ==> candidate.value < from && !pending && Ripe(main[candidate.value], tick)
    ensures var r := ScanMain(main, tick, pending, from, candidate);
      && (r.Extract? ==> r.at < |main| && main[r.at].kind == Callback && main[r.at].timeout <= tick)
      && (r.Announce? ==> r.at < |main| && !pending && Ripe(main[r.at], tick))
    decreases |main| - from
  {
    if from < |main| && main[from].timeout <= tick && main[from].kind != Callback {
      if !pending && candidate.None? && tick >= main[from].retryAfter {
        ScanFacts(main, tick, pending, from + 1, Some(from));
      } else {
        ScanFacts(main, tick, pending, from + 1, candidate);
      }
    }
  }

  predicate Ripe(t: Timer, tick: nat) {
    t.kind != Callback && t.timeout <= tick && t.retryAfter <= tick
  }

  lemma WithoutSafe(chain: Chain, i: nat)
    requires i < |chain|
    ensures SortedMain(chain) ==> SortedMain(Without(chain, i))
    ensures Waiting(chain) ==> Waiting(Without(chain, i))
  {
  }

  /** A plain callback leaves the chain and runs. */
  lemma ExtractSafe(s: State, cpu: nat, at: nat)
    requires Safe(s) && CollectorOf(s, cpu).Looking? && at < |s.main| && s.main[at].timeout <= s.tick
    ensures Safe(AtCpu(s.(main := Without(s.main, at)), cpu, Calling(s.main[at])))
  {
    hide Occurs, Callers, Announcers, Without;
    var c := Calling(s.main[at]);
    var s' := AtCpu(s.(main := Without(s.main, at)), cpu, c);
    forall k ensures Holders(s', k) == One(k in s'.appended) {
      PlaceOf(s, k);
      CallersMoved(s.collectors, cpu, c, k);
      WithoutOccurs(s.main, at, k);
    }
    AnnouncersMoved(s.collectors, cpu, c);
    WithoutSafe(s.main, at);
    forall k | k in s'.fates ensures FateSafe(s', k) { assert FateSafe(s, k); }
    forall u | u in s'.collectors ensures CollectorSafe(s', u) { assert u != cpu ==> CollectorSafe(s, u); }
  }

  lemma LookSafe(s: State, cpu: nat, memory: bool)
    requires Safe(s)
    ensures Safe(DoLook(s, cpu, memory))
  {
    hide Safe, Revived, ScanMain;
    if CollectorOf(s, cpu).Looking? {
      var r := Revived(s, memory);
      ReviveSafe(s, memory);
      RevivedCollectors(s, memory);
      ScanFacts(r.main, r.tick, r.pending, 0, None);
      match ScanMain(r.main, r.tick, r.pending, 0, None)
      case Nothing => MoveSafe(r, cpu, Away, r.pending, r.events);
      case Extract(at) => ExtractSafe(r, cpu, at);
      case Announce(at) => MoveSafe(r, cpu, Notifying(r.main[at].serial), true, r.events);
    }
  }

  lemma RevivedCollectors(s: State, memory: bool)
    ensures Revived(s, memory).collectors == s.collectors
  {
  }

  lemma ReturnSafe(s: State, cpu: nat)
    requires Safe(s)
    ensures Safe(DoReturn(s, cpu))
  {
    hide Occurs, Callers, Announcers;
    var c, s' := CollectorOf(s, cpu), DoReturn(s, cpu);
    if c.Calling? {
      forall k ensures Holders(s', k) == One(k in s'.appended) {
        PlaceOf(s, k);
        CallersMoved(s.collectors, cpu, Looking, k);
      }
      AnnouncersMoved(s.collectors, cpu, Looking);
      assert CollectorSafe(s, cpu);
      forall k | k in s'.fates ensures FateSafe(s', k) { assert k in s.fates ==> FateSafe(s, k); }
      forall u | u in s'.collectors ensures CollectorSafe(s', u) { assert u != cpu ==> CollectorSafe(s, u); }
    }
  }

  lemma NotifySafe(s: State, cpu: nat, accepted: bool)
    requires Safe(s)
    ensures Safe(DoNotify(s, cpu, accepted))
  {
    hide Safe;
    var c := CollectorOf(s, cpu);
    if c.Notifying? {
      if accepted {
        MoveSafe(s, cpu, Away, s.pending, s.events + 1);
      } else {
        MoveSafe(s, cpu, Failing(c.serial), s.pending, s.events);
      }
    }
  }

  // ---- After a refused event ----

  /** The announced timer gives up, or waits in the retry chain; `moved` says where it goes. */
  lemma LeaveMainSafe(s: State, i: nat, t: Timer, moved: bool)
    requires Safe(s) && i < |s.main| && t.serial == s.main[i].serial
    requires t.attempts == s.main[i].attempts + 1 && (moved <==> t.attempts < ATTEMPT_LIMIT)
    ensures Safe(
      if moved then s.(main := Without(s.main, i), retry := InsertRetry(s.retry, t))
      else s.(main := Without(s.main, i), fates := s.fates[t.serial := Dropped(t.attempts, false)]))
  {
    hide Occurs, Callers, Announcers, Without;
    var s' := if moved then s.(main := Without(s.main, i), retry := InsertRetry(s.retry, t))
              else s.(main := Without(s.main, i), fates := s.fates[t.serial := Dropped(t.attempts, false)]);
    forall k ensures Holders(s', k) == One(k in s'.appended) {
      PlaceOf(s, k);
      WithoutOccurs(s.main, i, k);
      InsertRetryFacts(s.retry, t, k);
    }
    InsertRetryFacts(s.retry, t, 0);
    WithoutSafe(s.main, i);
    forall k | k in s'.fates ensures FateSafe(s', k) { assert k in s.fates ==> FateSafe(s, k); }
  }

  /** Without memory for the retry chain the timer stays where it is, marked. */
  lemma MarkSafe(s: State, i: nat, t: Timer)
    requires Safe(s) && i < |s.main| && t.serial == s.main[i].serial && t.timeout == s.main[i].timeout
    requires t.attempts < ATTEMPT_LIMIT
    ensures Safe(s.(main := s.main[i := t]))
  {
    hide Occurs, Callers, Announcers;
    var s' := s.(main := s.main[i := t]);
    forall k ensures Holders(s', k) == One(k in s'.appended) {
      PlaceOf(s, k);
      ReplaceOccurs(s.main, i, t, k);
    }
    forall k | k in s'.fates ensures FateSafe(s', k) { assert FateSafe(s, k); }
  }

  lemma FailSafe(s: State, cpu: nat, memory: bool)
    requires Safe(s)
    ensures Safe(DoFail(s, cpu, memory))
  {
    hide Safe, InsertRetry, Without;
    var c := CollectorOf(s, cpu);
    if c.Failing? {
      PendingHeld(s, cpu);
      MoveSafe(s, cpu, Away, false, s.events);
      var r := AtCpu(s.(pending := false, events := s.events), cpu, Away);
      var i := Find(r.main, c.serial);
      if i < |r.main| {
        var t := r.main[i].(attempts := r.main[i].attempts + 1);
        if t.attempts >= ATTEMPT_LIMIT {
          LeaveMainSafe(r, i, t, false);
        } else if memory {
          LeaveMainSafe(r, i, t.(retryAfter := r.tick + RETRY_DELAY), true);
        } else {
          MarkSafe(r, i, t.(retryAfter := r.tick + RETRY_DELAY));
        }
      }
    }
  }

  /** A processor that is announcing holds the flag. */
  lemma PendingHeld(s: State, cpu: nat)
    requires Safe(s) && Announces(CollectorOf(s, cpu))
    ensures s.pending
  {
    assert cpu in Announcers(s.collectors);
  }

  // ---- Dispatch ----

  lemma TakeEventSafe(s: State)
    requires Safe(s)
    ensures Safe(DoTakeEvent(s))
  {
    hide Occurs, Callers, Announcers;
    var s' := DoTakeEvent(s);
    forall k ensures Holders(s', k) == One(k in s'.appended) { PlaceOf(s, k); }
    forall k | k in s'.fates ensures FateSafe(s', k) { assert FateSafe(s, k); }
  }

  lemma DrainSafe(s: State)
    requires Safe(s)
    ensures Safe(DoDrain(s))
  {
    hide Occurs, Callers, Announcers, Without, FirstDeferred;
    var s' := DoDrain(s);
    if s.dispatcher.Draining? {
      var i := FirstDeferred(s.main, s.tick);
      forall k ensures Holders(s', k) == One(k in s'.appended) {
        PlaceOf(s, k);
        if i < |s.main| { WithoutOccurs(s.main, i, k); }
      }
      if i < |s.main| { WithoutSafe(s.main, i); }
      forall k | k in s'.fates ensures FateSafe(s', k) { assert FateSafe(s, k); }
    }
  }

  lemma ActSafe(s: State, delivered: bool)
    requires Safe(s)
    ensures Safe(DoAct(s, delivered))
  {
    hide Occurs, Callers, Announcers;
    var s' := DoAct(s, delivered);
    if s.dispatcher.Acting? {
      forall k ensures Holders(s', k) == One(k in s'.appended) { PlaceOf(s, k); }
      forall k | k in s'.fates ensures FateSafe(s', k) { assert k in s.fates ==> FateSafe(s, k); }
    }
  }

  lemma RequeueSafe(s: State, memory: bool)
    requires Safe(s)
    ensures Safe(DoRequeue(s, memory))
  {
    hide Occurs, Callers, Announcers, InsertMain;
    var s' := DoRequeue(s, memory);
    if s.dispatcher.Requeueing? {
      var t := s.dispatcher.timer.(timeout := s.tick + RETRY_DELAY, serial := s.serial + 1);
      forall k ensures Holders(s', k) == One(k in s'.appended) {
        PlaceOf(s, k);
        AppendedPlace(s, RETRY_DELAY, s.dispatcher.timer, memory, k);
      }
      InsertMainFacts(s.main, t, 0);
      forall k | k in s'.fates ensures FateSafe(s', k) { assert k in s.fates ==> FateSafe(s, k); }
    }
  }

  // ---- Every run ----

  lemma SectionSafe(s: State, a: Action)
    requires Safe(s)
    ensures Safe(Apply(s, a))
  {
    hide Safe, DoRequest, DoCancel, DoLook, DoReturn, DoNotify, DoFail, DoTakeEvent, DoDrain, DoAct, DoRequeue;
    match a
    case Append(delay, request, memory) => AppendSafe(s, delay, request, memory);
    case Cancel(pattern) => CancelSafe(s, pattern);
    case Tick => TickSafe(s);
    case Start(cpu) => if CollectorOf(s, cpu).Away? { MoveSafe(s, cpu, Looking, s.pending, s.events); }
    case Look(cpu, memory) => LookSafe(s, cpu, memory);
    case Return(cpu) => ReturnSafe(s, cpu);
    case Notify(cpu, accepted) => NotifySafe(s, cpu, accepted);
    case Fail(cpu, memory) => FailSafe(s, cpu, memory);
    case TakeEvent => TakeEventSafe(s);
    case Drain => DrainSafe(s);
    case Act(delivered) => ActSafe(s, delivered);
    case Requeue(memory) => RequeueSafe(s, memory);
  }

  lemma InitialSafe()
    ensures Safe(INITIAL)
  {
    forall k ensures Holders(INITIAL, k) == 0 {
      assert Callers(INITIAL.collectors, k) == {};
    }
    assert Announcers(INITIAL.collectors) == {};
  }

  lemma {:induction false} RunsSafe(s: State, run: seq<Action>)
    requires Safe(s)
    ensures Safe(Run(s, run))
    decreases |run|
  {
    hide Safe, Apply;
    if run != [] {
      SectionSafe(s, run[0]);
      RunsSafe(Apply(s, run[0]), run[1..]);
    }
  }
}
