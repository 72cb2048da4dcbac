/** Every timer runs as it was asked for, and not before: what was asked is followed through the chains over every run. */
module SoftTimerDelays {
  import opened FileBytes
  import opened SoftTimers
  import opened SoftTimerSafety
  import opened SoftTimerTheorems
  import opened SoftTimerRefusals

  /** What a serial stands for: the tick and delay of the call that appended it, and what it asked for. */
  datatype Asked = Asked(at: nat, delay: nat, request: Request)

  /** `refusedAt` is when the event of a timer was last refused. */
  datatype Requests = Requests(asked: map<nat, Asked>, refusedAt: map<nat, nat>)

  const NOBODY := Requests(map[], map[])

  function RequestOf(t: Timer): Request {
    Request(t.iden, t.hand, t.kind, t.target, t.messageType)
  }

  function Noted(s: State, h: Requests, a: Action): Requests {
    match a
    case Append(delay, r, memory) =>
      if memory && !(r.kind == DeferredCallback && r.hand == 0)
      then h.(asked := h.asked[s.serial + 1 := Asked(s.tick, delay, r)]) else h
    case Requeue(memory) =>
      if s.dispatcher.Requeueing? && memory && s.dispatcher.timer.serial in h.asked
      then h.(asked := h.asked[s.serial + 1 := Asked(s.tick, 2, h.asked[s.dispatcher.timer.serial].request)]) else h
    case Fail(cpu, _) =>
      if CollectorOf(s, cpu).Failing? && Find(s.main, CollectorOf(s, cpu).serial) < |s.main|
      then h.(refusedAt := h.refusedAt[CollectorOf(s, cpu).serial := s.tick]) else h
    case _ => h
  }

  ghost function NotedRun(s: State, h: Requests, run: seq<Action>): Requests
    decreases |run|
  {
    if run == [] then h else NotedRun(Apply(s, run[0]), Noted(s, h, run[0]), run[1..])
  }

  // ---- The invariant ----

  /** The timer expires after the delay asked for and does what was asked. */
  predicate AsAsked(h: Requests, t: Timer) {
    t.serial in h.asked && t.timeout == h.asked[t.serial].at + h.asked[t.serial].delay && RequestOf(t) == h.asked[t.serial].request
  }

  /** A refused timer is not tried again for two ticks. */
  predicate Rests(h: Requests, tick: nat, t: Timer) {
    t.serial in h.refusedAt ==> t.retryAfter >= h.refusedAt[t.serial] + 2 || tick >= h.refusedAt[t.serial] + 2
  }

  predicate ChainKept(h: Requests, tick: nat, chain: Chain) {
    forall t :: t in chain ==> AsAsked(h, t) && Rests(h, tick, t)
  }

  predicate FateKept(h: Requests, k: nat, fate: Fate) {
    match fate
    case Fired(_, timeout) => k in h.asked && timeout == h.asked[k].at + h.asked[k].delay
    case Requeued(next) => k in h.asked && next in h.asked && h.asked[next].delay == 2 && h.asked[next].request == h.asked[k].request
    case _ => true
  }

  ghost predicate HandsKept(s: State, h: Requests) {
    && (forall cpu :: cpu in s.collectors && s.collectors[cpu].Calling? ==> AsAsked(h, s.collectors[cpu].timer))
    && (s.dispatcher.Acting? || s.dispatcher.Requeueing? ==> AsAsked(h, s.dispatcher.timer))
  }

  ghost predicate PastOnly(s: State, h: Requests) {
    && (forall k :: k in h.asked ==> k <= s.serial)
    && (forall k :: k in h.refusedAt ==> k <= s.serial)
  }

  ghost predicate FatesKept(s: State, h: Requests) {
    forall k :: k in s.fates ==> FateKept(h, k, s.fates[k])
  }

  ghost predicate Kept(s: State, h: Requests) {
    ChainKept(h, s.tick, s.main) && ChainKept(h, s.tick, s.retry) && HandsKept(s, h) && FatesKept(s, h) && PastOnly(s, h)
  }

  // ---- The sections ----

  /** A new serial disturbs nothing that was known before. */
  lemma NewSerialKeeps(s: State, h: Requests, q: Asked)
    requires Kept(s, h)
    ensures var h' := h.(asked := h.asked[s.serial + 1 := q]);
      ChainKept(h', s.tick, s.main) && ChainKept(h', s.tick, s.retry) && HandsKept(s, h') && FatesKept(s, h')
  {
    var h' := h.(asked := h.asked[s.serial + 1 := q]);
    forall t | t in s.main || t in s.retry ensures AsAsked(h', t) && Rests(h', s.tick, t) {}
    forall k | k in s.fates ensures FateKept(h', k, s.fates[k]) { assert FateKept(h, k, s.fates[k]); }
  }

  lemma AddedKept(h: Requests, tick: nat, chain: Chain, t: Timer)
    requires SortedMain(chain) && ChainKept(h, tick, chain) && AsAsked(h, t) && Rests(h, tick, t)
    ensures ChainKept(h, tick, InsertMain(chain, t))
  {
    hide AsAsked, Rests;
    InsertMainFacts(chain, t, 0);
  }

  lemma AppendKept(s: State, h: Requests, delay: nat, r: Request, memory: bool)
    requires Safe(s) && Kept(s, h)
    ensures Kept(DoRequest(s, delay, r, memory), Noted(s, h, Append(delay, r, memory)))
  {
    hide Safe, InsertMain;
    if memory && !(r.kind == DeferredCallback && r.hand == 0) {
      var q := Asked(s.tick, delay, r);
      var h' := h.(asked := h.asked[s.serial + 1 := q]);
      NewSerialKeeps(s, h, q);
      RetrySorted(s);
      AddedKept(h', s.tick, s.main, NewTimer(r).(timeout := s.tick + delay, serial := s.serial + 1));
    }
  }

  lemma RequeueKept(s: State, h: Requests, memory: bool)
    requires Safe(s) && Kept(s, h)
    ensures Kept(DoRequeue(s, memory), Noted(s, h, Requeue(memory)))
  {
    hide Safe, InsertMain;
    if s.dispatcher.Requeueing? && memory {
      var t := s.dispatcher.timer;
      var q := Asked(s.tick, 2, h.asked[t.serial].request);
      var h' := h.(asked := h.asked[s.serial + 1 := q]);
      NewSerialKeeps(s, h, q);
      RetrySorted(s);
      AddedKept(h', s.tick, s.main, t.(timeout := s.tick + RETRY_DELAY, serial := s.serial + 1));
    }
  }

  lemma CancelKept(s: State, h: Requests, p: Pattern)
    requires Safe(s) && Kept(s, h)
    ensures Kept(DoCancel(s, p), h)
  {
    hide Safe, Keep, Matches, AsAsked, Rests;
    KeepMembers(s.main, p);
    KeepMembers(s.retry, p);
  }

  lemma ReviveKept(s: State, h: Requests, memory: bool)
    requires Safe(s) && Kept(s, h)
    ensures Kept(Revived(s, memory), h)
  {
    hide Safe, InsertMain;
    if s.retry != [] && s.tick >= s.retry[0].retryAfter {
      RetrySorted(s);
      assert s.retry[0] in s.retry && AsAsked(h, s.retry[0]) && Rests(h, s.tick, s.retry[0]);
      AddedKept(h, s.tick, s.main, s.retry[0].(retryAfter := 0));
      assert forall t :: t in s.retry[1..] ==> t in s.retry;
    }
  }

  lemma TakenKept(h: Requests, tick: nat, chain: Chain, i: nat)
    requires i < |chain| && ChainKept(h, tick, chain)
    ensures ChainKept(h, tick, Without(chain, i))
  {
    hide AsAsked, Rests;
  }

  lemma LookKept(s: State, h: Requests, cpu: nat, memory: bool)
    requires Safe(s) && Kept(s, h)
    ensures Kept(DoLook(s, cpu, memory), h)
  {
    hide Safe, Revived, ScanMain, Without, AsAsked, Rests, FateKept;
    if CollectorOf(s, cpu).Looking? {
      var r := Revived(s, memory);
      ReviveKept(s, h, memory);
      match ScanMain(r.main, r.tick, r.pending, 0, None)
      case Extract(at) => if at < |r.main| { TakenKept(h, r.tick, r.main, at); }
      case _ =>
    }
  }

  lemma FailKept(s: State, h: Requests, cpu: nat, memory: bool)
    requires Safe(s) && Kept(s, h)
    ensures Kept(DoFail(s, cpu, memory), Noted(s, h, Fail(cpu, memory)))
  {
    hide Safe, InsertRetry, Without;
    var c := CollectorOf(s, cpu);
    if c.Failing? && Find(s.main, c.serial) < |s.main| {
      var i := Find(s.main, c.serial);
      var h' := h.(refusedAt := h.refusedAt[c.serial := s.tick]);
      var t := s.main[i].(attempts := s.main[i].attempts + 1, retryAfter := s.tick + RETRY_DELAY);
      MainPlace(s, i);
      OthersRest(s, h, i);
      RetrySorted(s);
      RefusedTimer(s, h, i, t);
      RetryKept(h', s.tick, s.retry, t);
      MarkKept(h', s.tick, s.main, i, t);
      FatesStay(s, h, c.serial);
    }
  }

  lemma RefusedTimer(s: State, h: Requests, i: nat, t: Timer)
    requires i < |s.main| && ChainKept(h, s.tick, s.main)
    requires t == s.main[i].(attempts := t.attempts, retryAfter := s.tick + 2)
    ensures var h' := h.(refusedAt := h.refusedAt[t.serial := s.tick]); AsAsked(h', t) && Rests(h', s.tick, t)
  {
    assert AsAsked(h, s.main[i]);
  }

  lemma FatesStay(s: State, h: Requests, x: nat)
    requires FatesKept(s, h)
    ensures FatesKept(s, h.(refusedAt := h.refusedAt[x := s.tick]))
  {
    forall k | k in s.fates ensures FateKept(h.(refusedAt := h.refusedAt[x := s.tick]), k, s.fates[k]) {
      assert FateKept(h, k, s.fates[k]);
    }
  }

  /** A refusal concerns one timer only. */
  lemma OthersRest(s: State, h: Requests, i: nat)
    requires i < |s.main| && ChainKept(h, s.tick, s.main) && ChainKept(h, s.tick, s.retry)
    requires Occurs(s.main, s.main[i].serial) == 1 && forall t :: t in s.retry ==> t.serial != s.main[i].serial
    ensures var h' := h.(refusedAt := h.refusedAt[s.main[i].serial := s.tick]);
      ChainKept(h', s.tick, Without(s.main, i)) && ChainKept(h', s.tick, s.retry)
  {
    hide Without, Occurs;
    var h' := h.(refusedAt := h.refusedAt[s.main[i].serial := s.tick]);
    forall t | t in Without(s.main, i) ensures AsAsked(h', t) && Rests(h', s.tick, t) {
      OnePlace(s.main, i, t);
      assert AsAsked(h, t) && Rests(h, s.tick, t);
    }
    forall t | t in s.retry ensures AsAsked(h', t) && Rests(h', s.tick, t) {
      assert AsAsked(h, t) && Rests(h, s.tick, t);
    }
  }

  lemma RetryKept(h: Requests, tick: nat, retry: Chain, t: Timer)
    requires SortedRetry(retry) && ChainKept(h, tick, retry) && AsAsked(h, t) && Rests(h, tick, t)
    ensures ChainKept(h, tick, InsertRetry(retry, t))
  {
    hide AsAsked, Rests;
    InsertRetryFacts(retry, t, 0);
  }

  lemma MarkKept(h: Requests, tick: nat, main: Chain, i: nat, t: Timer)
    requires i < |main| && ChainKept(h, tick, Without(main, i)) && AsAsked(h, t) && Rests(h, tick, t)
    ensures ChainKept(h, tick, main[i := t])
  {
    hide AsAsked, Rests;
    forall u | u in main[i := t] ensures u == t || u in Without(main, i) {
      var j :| 0 <= j < |main| && main[i := t][j] == u;
      if j < i { assert Without(main, i)[j] == u; }
      if j > i { assert Without(main, i)[j - 1] == u; }
    }
  }

  lemma DrainKept(s: State, h: Requests)
    requires Kept(s, h)
    ensures Kept(DoDrain(s), h)
  {
    hide FirstDeferred, Without, AsAsked, Rests, FateKept;
    var i := FirstDeferred(s.main, s.tick);
    if i < |s.main| { TakenKept(h, s.tick, s.main, i); }
  }

  lemma TickKept(s: State, h: Requests)
    requires Kept(s, h)
    ensures Kept(s.(tick := s.tick + 1), h)
  {
    hide AsAsked, FateKept;
    forall t | t in s.main || t in s.retry ensures Rests(h, s.tick + 1, t) { assert Rests(h, s.tick, t); }
  }

  lemma OthersKept(s: State, h: Requests, a: Action)
    requires Kept(s, h) && (a.Start? || a.Return? || a.Notify? || a.TakeEvent? || a.Act?)
    ensures Kept(Apply(s, a), h)
  {
    hide Rests;
  }

  lemma SectionKept(s: State, h: Requests, a: Action)
    requires Safe(s) && Kept(s, h)
    ensures Kept(Apply(s, a), Noted(s, h, a))
  {
    hide Safe, Kept, DoRequest, DoCancel, DoLook, DoFail, DoDrain, DoRequeue;
    match a
    case Append(delay, request, memory) => AppendKept(s, h, delay, request, memory);
    case Cancel(p) => CancelKept(s, h, p);
    case Tick => TickKept(s, h);
    case Look(cpu, memory) => LookKept(s, h, cpu, memory);
    case Fail(cpu, memory) => FailKept(s, h, cpu, memory);
    case Drain => DrainKept(s, h);
    case Requeue(memory) => RequeueKept(s, h, memory);
    case _ => OthersKept(s, h, a);
  }

  lemma {:induction false} RunKept(s: State, h: Requests, run: seq<Action>)
    requires Safe(s) && Kept(s, h)
    ensures Safe(Run(s, run)) && Kept(Run(s, run), NotedRun(s, h, run))
    decreases |run|
  {
    hide Safe, Kept, Apply, Noted;
    if run != [] {
      SectionKept(s, h, run[0]);
      SectionSafe(s, run[0]);
      RunKept(Apply(s, run[0]), Noted(s, h, run[0]), run[1..]);
    }
  }

  // ---- What clients can rely on ----

  /**
   Over every run: a timer has fired, is being called or is being dispatched only when the delay asked for has passed since
   it was appended, and it is called, woken or sent with what was asked for. A message that was sent again waited two ticks.
   */
  lemma NotBeforeTheDelay(run: seq<Action>, k: nat, cpu: nat)
    ensures var s, h := Run(INITIAL, run), NotedRun(INITIAL, NOBODY, run);
      && (k in s.fates && s.fates[k].Fired? ==> k in h.asked && s.fates[k].at >= h.asked[k].at + h.asked[k].delay)
      && (k in s.fates && s.fates[k].Requeued? ==>
            var next := s.fates[k].next;
            && k in h.asked && next in h.asked && h.asked[next].delay == 2 && h.asked[next].request == h.asked[k].request)
      && (CollectorOf(s, cpu).Calling? ==> Due(h, s.tick, CollectorOf(s, cpu).timer))
      && (s.dispatcher.Acting? ==> Due(h, s.tick, s.dispatcher.timer))
  {
    hide Run, NotedRun;
    InitialSafe();
    RunKept(INITIAL, NOBODY, run);
    var s := Run(INITIAL, run);
    if k in s.fates { assert FateSafe(s, k); }
    if cpu in s.collectors { assert CollectorSafe(s, cpu); }
  }

  /** The delay has passed and the timer carries what was asked. */
  predicate Due(h: Requests, tick: nat, t: Timer) {
    t.serial in h.asked && tick >= h.asked[t.serial].at + h.asked[t.serial].delay && RequestOf(t) == h.asked[t.serial].request
  }

  /** Over every run: a timer whose event was refused is announced again only two ticks later. */
  lemma RefusedTimersRest(run: seq<Action>, cpu: nat, memory: bool)
    requires CollectorOf(Run(INITIAL, run), cpu).Looking?
    ensures var s, h := Run(INITIAL, run), NotedRun(INITIAL, NOBODY, run);
      var c := CollectorOf(DoLook(s, cpu, memory), cpu);
      c.Notifying? && c.serial in h.refusedAt ==> s.tick >= h.refusedAt[c.serial] + 2
  {
    hide Run, NotedRun, Safe, ScanMain, Revived;
    InitialSafe();
    RunKept(INITIAL, NOBODY, run);
    var s, h := Run(INITIAL, run), NotedRun(INITIAL, NOBODY, run);
    var r := Revived(s, memory);
    ReviveKept(s, h, memory);
    RevivedKeeps(s, memory);
    ScanFacts(r.main, r.tick, r.pending, 0, None);
    var found := ScanMain(r.main, r.tick, r.pending, 0, None);
    if found.Announce? && found.at < |r.main| {
      assert Rests(h, r.tick, r.main[found.at]);
    }
  }
}
