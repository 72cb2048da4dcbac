/** The refused deliveries behind every dropped timer, followed through the serials it was appended under. */
module SoftTimerRefusals {
  import opened FileBytes
  import opened SoftTimers
  import opened SoftTimerSafety
  import opened SoftTimerTheorems

  /** The serials whose delivery was refused, in order, and from which serial a requeued timer went on. */
  datatype History = History(refused: seq<nat>, previous: map<nat, nat>)

  const NOTHING := History([], map[])

  /** What an action adds: a refused event, an undelivered message, or a new serial for an old timer. */
  function Recorded(s: State, h: History, a: Action): History {
    match a
    case Fail(cpu, _) =>
      if CollectorOf(s, cpu).Failing? && Find(s.main, CollectorOf(s, cpu).serial) < |s.main|
      then h.(refused := h.refused + [CollectorOf(s, cpu).serial]) else h
    case Act(delivered) =>
      if s.dispatcher.Acting? && s.dispatcher.timer.kind == DriverMessage && !delivered
      then h.(refused := h.refused + [s.dispatcher.timer.serial]) else h
    case Requeue(memory) =>
      if s.dispatcher.Requeueing? && memory then h.(previous := h.previous[s.serial + 1 := s.dispatcher.timer.serial]) else h
    case _ => h
  }

  ghost function RecordedRun(s: State, h: History, run: seq<Action>): History
    decreases |run|
  {
    if run == [] then h else RecordedRun(Apply(s, run[0]), Recorded(s, h, run[0]), run[1..])
  }

  function Count(refused: seq<nat>, k: nat): nat {
    if refused == [] then 0 else Count(refused[..|refused| - 1], k) + if refused[|refused| - 1] == k then 1 else 0
  }

  /** The refusals of the serial and of those the timer had before. */
  function Refusals(h: History, k: nat): nat
    decreases k
  {
    Count(h.refused, k) + if k in h.previous && h.previous[k] < k then Refusals(h, h.previous[k]) else 0
  }

  // ---- The invariant ----

  ghost predicate ChainTold(h: History, chain: Chain) {
    forall t :: t in chain ==> t.attempts == Refusals(h, t.serial)
  }

  ghost predicate FatesTold(s: State, h: History) {
    forall k :: k in s.fates && s.fates[k].Dropped? ==> s.fates[k].attempts == Refusals(h, k)
  }

  ghost predicate Rooted(s: State, h: History) {
    && (forall k :: k in h.previous ==> h.previous[k] < k <= s.serial && h.previous[k] in s.fates)
    && (forall k :: k in h.refused ==> k <= s.serial)
  }

  ghost predicate Told(s: State, h: History) {
    && ChainTold(h, s.main) && ChainTold(h, s.retry) && FatesTold(s, h) && Rooted(s, h)
    && (s.dispatcher.Acting? || s.dispatcher.Requeueing? ==> s.dispatcher.timer.attempts == Refusals(h, s.dispatcher.timer.serial))
  }

  // ---- Counting ----

  lemma CountOneMore(refused: seq<nat>, x: nat, k: nat)
    ensures Count(refused + [x], k) == Count(refused, k) + if x == k then 1 else 0
  {
    assert (refused + [x])[..|refused|] == refused;
  }

  lemma {:induction false} CountNone(refused: seq<nat>, k: nat)
    requires k !in refused
    ensures Count(refused, k) == 0
    decreases |refused|
  {
    if refused != [] {
      CountNone(refused[..|refused| - 1], k);
    }
  }

  /** A refusal of a timer that is still there touches no other timer's account. */
  lemma {:induction false} RefusedElsewhere(s: State, h: History, x: nat, k: nat)
    requires Rooted(s, h) && x !in s.fates
    ensures Refusals(h.(refused := h.refused + [x]), k) == Refusals(h, k) + if x == k then 1 else 0
    decreases k
  {
    hide Count;
    var h' := h.(refused := h.refused + [x]);
    CountOneMore(h.refused, x, k);
    if k in h.previous {
      var p := h.previous[k];
      assert p != x;
      RefusedElsewhere(s, h, x, p);
      assert Refusals(h', k) == Count(h'.refused, k) + Refusals(h', p);
    }
  }

  /** A new serial changes the account of none that was there before. */
  lemma {:induction false} NewSerialElsewhere(s: State, h: History, x: nat, k: nat)
    requires Rooted(s, h) && k <= s.serial
    ensures Refusals(h.(previous := h.previous[s.serial + 1 := x]), k) == Refusals(h, k)
    decreases k
  {
    if k in h.previous {
      NewSerialElsewhere(s, h, x, h.previous[k]);
    }
  }

  // ---- Where a serial is ----

  lemma {:induction false} OccursHere(chain: Chain, i: nat)
    requires i < |chain|
    ensures Occurs(chain, chain[i].serial) >= 1
    decreases |chain|
  {
    if i > 0 {
      OccursHere(chain[1..], i - 1);
    }
  }

  /** A serial that occurs once stands in one place. */
  lemma {:induction false} OnePlace(chain: Chain, i: nat, t: Timer)
    requires i < |chain| && Occurs(chain, chain[i].serial) == 1 && t in Without(chain, i)
    ensures t in chain && t.serial != chain[i].serial
  {
    var rest := Without(chain, i);
    WithoutOccurs(chain, i, chain[i].serial);
    var j :| 0 <= j < |rest| && rest[j] == t;
    OccursHere(rest, j);
  }

  /** A timer in the main chain is nowhere else and has met no fate. */
  lemma MainPlace(s: State, i: nat)
    requires Safe(s) && i < |s.main|
    ensures s.main[i].serial !in s.fates && Occurs(s.main, s.main[i].serial) == 1 && s.main[i].serial <= s.serial
    ensures forall t :: t in s.retry ==> t.serial != s.main[i].serial
    ensures s.dispatcher.Acting? || s.dispatcher.Requeueing? ==> s.dispatcher.timer.serial != s.main[i].serial
  {
    hide Callers;
    var k := s.main[i].serial;
    PlaceOf(s, k);
    OccursHere(s.main, i);
    SerialBound(s, k);
    forall t | t in s.retry ensures t.serial != k {
      var j :| 0 <= j < |s.retry| && s.retry[j] == t;
      OccursHere(s.retry, j);
    }
  }

  lemma SerialBound(s: State, k: nat)
    requires Safe(s) && k in s.appended
    ensures k <= s.serial
  {
  }

  lemma HandPlace(s: State)
    requires Safe(s) && (s.dispatcher.Acting? || s.dispatcher.Requeueing?)
    ensures s.dispatcher.timer.serial !in s.fates && s.dispatcher.timer.serial <= s.serial
    ensures forall t :: t in s.main || t in s.retry ==> t.serial != s.dispatcher.timer.serial
  {
    hide Callers;
    var k := s.dispatcher.timer.serial;
    PlaceOf(s, k);
    SerialBound(s, k);
    forall t | t in s.main || t in s.retry ensures t.serial != k {
      if t in s.main {
        var j :| 0 <= j < |s.main| && s.main[j] == t;
        OccursHere(s.main, j);
      } else {
        var j :| 0 <= j < |s.retry| && s.retry[j] == t;
        OccursHere(s.retry, j);
      }
    }
  }

  lemma ChainBound(s: State, t: Timer)
    requires Safe(s) && (t in s.main || t in s.retry)
    ensures t.serial <= s.serial
  {
    hide Callers;
    PlaceOf(s, t.serial);
    if t in s.main {
      var j :| 0 <= j < |s.main| && s.main[j] == t;
      OccursHere(s.main, j);
    } else {
      var j :| 0 <= j < |s.retry| && s.retry[j] == t;
      OccursHere(s.retry, j);
    }
    SerialBound(s, t.serial);
  }

  // ---- The sections ----

  /** The accounts of all timers but the refused one stay. */
  lemma RefusedChain(s: State, h: History, x: nat, chain: Chain)
    requires Rooted(s, h) && x !in s.fates && ChainTold(h, chain) && forall t :: t in chain ==> t.serial != x
    ensures ChainTold(h.(refused := h.refused + [x]), chain)
  {
    forall t | t in chain ensures t.attempts == Refusals(h.(refused := h.refused + [x]), t.serial) {
      RefusedElsewhere(s, h, x, t.serial);
    }
  }

  lemma RefusedFates(s: State, h: History, x: nat)
    requires Rooted(s, h) && x !in s.fates && FatesTold(s, h)
    ensures FatesTold(s, h.(refused := h.refused + [x]))
  {
    forall k | k in s.fates && s.fates[k].Dropped? ensures s.fates[k].attempts == Refusals(h.(refused := h.refused + [x]), k) {
      RefusedElsewhere(s, h, x, k);
    }
  }

  lemma FailTold(s: State, h: History, cpu: nat, memory: bool)
    requires Safe(s) && Told(s, h)
    ensures Told(DoFail(s, cpu, memory), Recorded(s, h, Fail(cpu, memory)))
  {
    hide Safe, InsertRetry, ChainTold, FatesTold, Rooted;
    var c := CollectorOf(s, cpu);
    if c.Failing? && Find(s.main, c.serial) < |s.main| {
      var i, x := Find(s.main, c.serial), c.serial;
      var h' := h.(refused := h.refused + [x]);
      MainPlace(s, i);
      RefusedMain(s, h, i);
      RefusedChain(s, h, x, s.retry);
      RefusedFates(s, h, x);
      RefusedElsewhere(s, h, x, x);
      TimerTold(h, s.main, i);
      RefusedRooted(s, h, x);
      if s.dispatcher.Acting? || s.dispatcher.Requeueing? { RefusedElsewhere(s, h, x, s.dispatcher.timer.serial); }
      FailedTold(s, h', cpu, memory, i);
    } else if c.Failing? {
      SameTold(s, AtCpu(s.(pending := false), cpu, Away), h);
    }
  }

  lemma SameTold(s: State, s': State, h: History)
    requires Told(s, h) && s'.main == s.main && s'.retry == s.retry && s'.fates == s.fates && s'.serial == s.serial
    requires s'.dispatcher == s.dispatcher
    ensures Told(s', h)
  {
  }

  lemma TimerTold(h: History, chain: Chain, i: nat)
    requires i < |chain| && ChainTold(h, chain)
    ensures chain[i].attempts == Refusals(h, chain[i].serial)
  {
  }

  lemma RefusedRooted(s: State, h: History, x: nat)
    requires Rooted(s, h) && x <= s.serial
    ensures Rooted(s, h.(refused := h.refused + [x]))
  {
  }

  lemma RefusedMain(s: State, h: History, i: nat)
    requires i < |s.main| && Rooted(s, h) && s.main[i].serial !in s.fates && ChainTold(h, s.main) && Occurs(s.main, s.main[i].serial) == 1
    ensures ChainTold(h.(refused := h.refused + [s.main[i].serial]), Without(s.main, i))
  {
    hide Without, Occurs;
    var x := s.main[i].serial;
    forall t | t in Without(s.main, i) ensures t.attempts == Refusals(h.(refused := h.refused + [x]), t.serial) {
      OnePlace(s.main, i, t);
      RefusedElsewhere(s, h, x, t.serial);
    }
  }

  /** With the refusal recorded, the section leaves every account right. */
  lemma FailedTold(s: State, h: History, cpu: nat, memory: bool, i: nat)
    requires Safe(s) && CollectorOf(s, cpu).Failing? && i == Find(s.main, CollectorOf(s, cpu).serial) < |s.main|
    requires ChainTold(h, Without(s.main, i)) && ChainTold(h, s.retry) && FatesTold(s, h) && Rooted(s, h)
    requires s.main[i].attempts + 1 == Refusals(h, s.main[i].serial)
    requires s.dispatcher.Acting? || s.dispatcher.Requeueing? ==> s.dispatcher.timer.attempts == Refusals(h, s.dispatcher.timer.serial)
    ensures Told(DoFail(s, cpu, memory), h)
  {
    hide Safe, InsertRetry, Refusals, ChainTold;
    var t := s.main[i].(attempts := s.main[i].attempts + 1, retryAfter := s.tick + RETRY_DELAY);
    RetrySorted(s);
    RetriedTold(h, s.retry, t);
    MarkedTold(h, s.main, i, t);
    if t.attempts >= ATTEMPT_LIMIT {
      DroppedTold(s, h, t.serial, t.attempts);
    }
  }

  lemma RetriedTold(h: History, retry: Chain, t: Timer)
    requires ChainTold(h, retry) && SortedRetry(retry) && t.attempts == Refusals(h, t.serial)
    ensures ChainTold(h, InsertRetry(retry, t))
  {
    hide InsertRetry, Refusals;
    InsertRetryFacts(retry, t, 0);
  }

  lemma MarkedTold(h: History, main: Chain, i: nat, t: Timer)
    requires i < |main| && ChainTold(h, Without(main, i)) && t.attempts == Refusals(h, t.serial)
    ensures ChainTold(h, main[i := t])
  {
    hide Refusals;
    forall u | u in main[i := t] ensures u == t || u in Without(main, i) {
      var j :| 0 <= j < |main| && main[i := t][j] == u;
      if j < i { assert Without(main, i)[j] == u; }
      if j > i { assert Without(main, i)[j - 1] == u; }
    }
  }

  lemma DroppedTold(s: State, h: History, k: nat, attempts: nat)
    requires FatesTold(s, h) && Rooted(s, h) && attempts == Refusals(h, k)
    ensures FatesTold(s.(fates := s.fates[k := Dropped(attempts, false)]), h) && Rooted(s.(fates := s.fates[k := Dropped(attempts, false)]), h)
  {
    hide Refusals;
  }

  lemma RetrySorted(s: State)
    requires Safe(s)
    ensures SortedRetry(s.retry) && SortedMain(s.main)
  {
  }

  lemma ActTold(s: State, h: History, delivered: bool)
    requires Safe(s) && Told(s, h)
    ensures Told(DoAct(s, delivered), Recorded(s, h, Act(delivered)))
  {
    hide Safe, Refusals;
    if s.dispatcher.Acting? {
      var x := s.dispatcher.timer.serial;
      HandPlace(s);
      RefusedElsewhere(s, h, x, x);
      RefusedChain(s, h, x, s.main);
      RefusedChain(s, h, x, s.retry);
      RefusedFates(s, h, x);
      RefusedRooted(s, h, x);
    }
  }

  /** A timer that enters with a right account. */
  lemma AppendedTold(s: State, h: History, delay: nat, t: Timer, memory: bool)
    requires Safe(s) && Told(s, h) && t.attempts == Refusals(h, s.serial + 1)
    ensures Told(DoAppend(s, delay, t, memory), h)
  {
    hide Safe, Refusals, InsertMain;
    RetrySorted(s);
    InsertMainFacts(s.main, t.(timeout := s.tick + delay, serial := s.serial + 1), 0);
  }

  lemma FreshSerial(s: State, h: History)
    requires Rooted(s, h)
    ensures Refusals(h, s.serial + 1) == 0
  {
    CountNone(h.refused, s.serial + 1);
  }

  lemma RequestTold(s: State, h: History, delay: nat, r: Request, memory: bool)
    requires Safe(s) && Told(s, h)
    ensures Told(DoRequest(s, delay, r, memory), h)
  {
    hide Safe, Told, Refusals, DoAppend;
    if !(r.kind == DeferredCallback && r.hand == 0) {
      ToldRooted(s, h);
      FreshSerial(s, h);
      AppendedTold(s, h, delay, NewTimer(r), memory);
    }
  }

  lemma ToldRooted(s: State, h: History)
    requires Told(s, h)
    ensures Rooted(s, h)
  {
  }

  lemma RequeueTold(s: State, h: History, memory: bool)
    requires Safe(s) && Told(s, h)
    ensures Told(DoRequeue(s, memory), Recorded(s, h, Requeue(memory)))
  {
    hide Safe, Refusals, InsertMain;
    if s.dispatcher.Requeueing? {
      HandPlace(s);
      if memory {
        RequeuedTold(s, h);
      }
    }
  }

  lemma RequeuedTold(s: State, h: History)
    requires Safe(s) && Told(s, h) && s.dispatcher.Requeueing?
    requires s.dispatcher.timer.serial !in s.fates && s.dispatcher.timer.serial <= s.serial
    ensures Told(DoRequeue(s, true), h.(previous := h.previous[s.serial + 1 := s.dispatcher.timer.serial]))
  {
    hide Safe, Refusals, InsertMain;
    var x := s.dispatcher.timer.serial;
    var h' := h.(previous := h.previous[s.serial + 1 := x]);
    var t := s.dispatcher.timer.(timeout := s.tick + RETRY_DELAY, serial := s.serial + 1);
    RetrySorted(s);
    InsertMainFacts(s.main, t, 0);
    GoesOn(s, h, x);
    forall u | u in s.main || u in s.retry ensures u.attempts == Refusals(h', u.serial) {
      ChainBound(s, u);
      NewSerialElsewhere(s, h, x, u.serial);
    }
    forall k | k in s.fates && s.fates[k].Dropped? ensures s.fates[k].attempts == Refusals(h', k) {
      FateBound(s, k);
      NewSerialElsewhere(s, h, x, k);
    }
  }

  /** A requeued timer takes its account along. */
  lemma GoesOn(s: State, h: History, x: nat)
    requires Rooted(s, h) && x <= s.serial
    ensures Refusals(h.(previous := h.previous[s.serial + 1 := x]), s.serial + 1) == Refusals(h, x)
  {
    CountNone(h.refused, s.serial + 1);
    NewSerialElsewhere(s, h, x, x);
  }

  lemma FateBound(s: State, k: nat)
    requires Safe(s) && k in s.fates
    ensures k <= s.serial
  {
    hide Occurs, Callers;
    PlaceOf(s, k);
    SerialBound(s, k);
  }

  lemma LookTold(s: State, h: History, cpu: nat, memory: bool)
    requires Safe(s) && Told(s, h)
    ensures Told(DoLook(s, cpu, memory), h)
  {
    hide Safe, Refusals, InsertMain, ScanMain;
    if CollectorOf(s, cpu).Looking? {
      RevivedTold(s, h, memory);
    }
  }

  lemma RevivedTold(s: State, h: History, memory: bool)
    requires Safe(s) && Told(s, h)
    ensures Told(Revived(s, memory), h)
  {
    hide Safe, Refusals, InsertMain;
    if s.retry != [] {
      RetrySorted(s);
      InsertMainFacts(s.main, s.retry[0].(retryAfter := 0), 0);
    }
  }

  lemma CancelTold(s: State, h: History, p: Pattern)
    requires Safe(s) && Told(s, h)
    ensures Told(DoCancel(s, p), h)
  {
    hide Safe, Refusals, Keep, Matches;
    KeepMembers(s.main, p);
    KeepMembers(s.retry, p);
  }

  lemma OthersTold(s: State, h: History, a: Action)
    requires Told(s, h) && (a.Tick? || a.Start? || a.Return? || a.Notify? || a.TakeEvent? || a.Drain?)
    ensures Told(Apply(s, a), h)
  {
    hide Refusals, FirstDeferred;
  }

  lemma SectionTold(s: State, h: History, a: Action)
    requires Safe(s) && Told(s, h)
    ensures Told(Apply(s, a), Recorded(s, h, a))
  {
    hide Safe, Told, DoRequest, DoCancel, DoLook, DoFail, DoAct, DoRequeue;
    match a
    case Append(delay, request, memory) => RequestTold(s, h, delay, request, memory);
    case Cancel(p) => CancelTold(s, h, p);
    case Look(cpu, memory) => LookTold(s, h, cpu, memory);
    case Fail(cpu, memory) => FailTold(s, h, cpu, memory);
    case Act(delivered) => ActTold(s, h, delivered);
    case Requeue(memory) => RequeueTold(s, h, memory);
    case _ => OthersTold(s, h, a);
  }

  lemma {:induction false} RunTold(s: State, h: History, run: seq<Action>)
    requires Safe(s) && Told(s, h)
    ensures Told(Run(s, run), RecordedRun(s, h, run))
    decreases |run|
  {
    hide Safe, Told, Apply, Recorded;
    if run != [] {
      SectionTold(s, h, run[0]);
      SectionSafe(s, run[0]);
      RunTold(Apply(s, run[0]), Recorded(s, h, run[0]), run[1..]);
    }
  }

  /**
   Over every run: a timer dropped for want of delivery was refused exactly five times, counted through all the
   serials it was requeued under; one lost for want of memory was refused as often as its counter says, fewer than five.
   */
  lemma DropsFollowRefusals(run: seq<Action>, k: nat)
    requires var s := Run(INITIAL, run); k in s.fates && s.fates[k].Dropped?
    ensures var s, h := Run(INITIAL, run), RecordedRun(INITIAL, NOTHING, run);
      if s.fates[k].outOfMemory then Refusals(h, k) == s.fates[k].attempts < ATTEMPT_LIMIT
      else Refusals(h, k) == ATTEMPT_LIMIT
  {
    hide Apply, Recorded, Refusals;
    InitialSafe();
    RunTold(INITIAL, NOTHING, run);
    DroppedAfterFiveOrOutOfMemory(Run(INITIAL, run), k);
  }
}
