/**
 The soft timers of `mecocoa/handler-tim.cpp` as an interleaving state machine.

 Any number of processors collect expired timers from their clock interrupt, one Devsman thread
 dispatches them, and anyone appends and cancels. Each action is one section under `timer_lock`, or
 what happens between two of them: a callback, the delivery of an event, a driver message.
 */
module SoftTimers {
  import opened FileBytes

  const ATTEMPT_LIMIT: nat := 5
  const RETRY_DELAY: nat := 2

  datatype Kind = Callback | DeferredCallback | ThreadWake | DriverMessage

  /** `MsgTimer`. */
  datatype Timer = Timer(timeout: nat, iden: nat, hand: nat, kind: Kind, target: nat, messageType: nat,
                         retryAfter: nat, serial: nat, attempts: nat)

  type Chain = seq<Timer>

  /** How a timer left: when it fired, who cancelled it, why it was dropped, or under which serial it went on. */
  datatype Fate =
    | Fired(at: nat, timeout: nat)
    | Cancelled
    | Dropped(attempts: nat, outOfMemory: bool)
    | Requeued(next: nat)

  datatype Collector = Away | Looking | Calling(timer: Timer) | Notifying(serial: nat) | Failing(serial: nat)

  datatype Dispatcher = Sleeping | Draining | Acting(timer: Timer) | Requeueing(timer: Timer)

  /**
   `events` counts the TimerExpired events Devsman has not taken yet. `appended` and `fates` record
   which serials entered the chains and how those that are gone left.
   */
  datatype State = State(
    main: Chain,
    retry: Chain,
    pending: bool,
    serial: nat,
    tick: nat,
    collectors: map<nat, Collector>,
    events: nat,
    dispatcher: Dispatcher,
    appended: set<nat>,
    fates: map<nat, Fate>)

  // ---- Chains ----

  /** Sorted insertion, behind equal keys. */
  function InsertMain(chain: Chain, t: Timer): Chain {
    if chain == [] || t.timeout < chain[0].timeout then [t] + chain else [chain[0]] + InsertMain(chain[1..], t)
  }

  function InsertRetry(chain: Chain, t: Timer): Chain {
    if chain == [] || t.retryAfter < chain[0].retryAfter then [t] + chain else [chain[0]] + InsertRetry(chain[1..], t)
  }

  function Without(chain: Chain, i: nat): Chain
    requires i < |chain|
  {
    chain[..i] + chain[i + 1..]
  }

  /** `FindTimerBySerial`. */
  function Find(chain: Chain, serial: nat, from: nat := 0): (i: nat)
    requires from <= |chain|
    ensures from <= i <= |chain| && (i < |chain| ==> chain[i].serial == serial)
    ensures forall k :: from <= k < i ==> chain[k].serial != serial
    decreases |chain| - from
  {
    if from == |chain| || chain[from].serial == serial then from else Find(chain, serial, from + 1)
  }

  /** What a cancel call takes out of a chain. */
  datatype Pattern = Wakes(target: nat) | Deferred(iden: nat, hand: nat)

  predicate Matches(t: Timer, p: Pattern) {
    match p
    case Wakes(target) => t.kind == ThreadWake && t.target == target
    case Deferred(iden, hand) => t.kind == DeferredCallback && t.iden == iden && (hand == 0 || t.hand == hand)
  }

  function Keep(chain: Chain, p: Pattern): Chain {
    if chain == [] then []
    else (if Matches(chain[0], p) then [] else [chain[0]]) + Keep(chain[1..], p)
  }

  predicate Listed(chain: Chain, serial: nat) {
    exists i :: 0 <= i < |chain| && chain[i].serial == serial
  }

  ghost function CancelledSerials(chain: Chain, p: Pattern): set<nat> {
    set i | 0 <= i < |chain| && Matches(chain[i], p) :: chain[i].serial
  }

  // ---- Append ----

  /** `AppendTimer`; `memory` says whether the copy could be allocated. */
  function DoAppend(s: State, delay: nat, t: Timer, memory: bool): State {
    var serial := s.serial + 1;
    if !memory then s.(serial := serial)
    else s.(serial := serial, main := InsertMain(s.main, t.(timeout := s.tick + delay, serial := serial)),
            appended := s.appended + {serial})
  }

  /** A client's request: a fresh timer of some kind. */
  datatype Request = Request(iden: nat, hand: nat, kind: Kind, target: nat, messageType: nat)

  function NewTimer(r: Request): Timer {
    Timer(0, r.iden, r.hand, r.kind, r.target, r.messageType, 0, 0, 0)
  }

  function DoRequest(s: State, delay: nat, r: Request, memory: bool): State {
    if r.kind == DeferredCallback && r.hand == 0 then s else DoAppend(s, delay, NewTimer(r), memory)
  }

  // ---- Cancel ----

  ghost function DoCancel(s: State, p: Pattern): State {
    s.(main := Keep(s.main, p), retry := Keep(s.retry, p),
       fates := s.fates + map serial | serial in CancelledSerials(s.main, p) + CancelledSerials(s.retry, p) :: Cancelled)
  }

  // ---- Collect ----

  function CollectorOf(s: State, cpu: nat): Collector {
    if cpu in s.collectors then s.collectors[cpu] else Away
  }

  function AtCpu(s: State, cpu: nat, c: Collector): State {
    s.(collectors := s.collectors[cpu := c])
  }

  /** The first part of the section: one ripe timer comes back from the retry chain. */
  function Revived(s: State, memory: bool): State {
    if s.pending || s.retry == [] || s.tick < s.retry[0].retryAfter || !memory then s
    else s.(main := InsertMain(s.main, s.retry[0].(retryAfter := 0)), retry := s.retry[1..])
  }

  datatype Scan = Nothing | Extract(at: nat) | Announce(at: nat)

  /** The scan of the main chain; `candidate` is the deferred timer met first, if one may be announced. */
  function ScanMain(main: Chain, tick: nat, pending: bool, from: nat, candidate: Option<nat>): (r: Scan)
    requires from <= |main|
    decreases |main| - from
  {
    if from == |main| || tick < main[from].timeout then
      if candidate.Some? then Announce(candidate.value) else Nothing
    else if main[from].kind == Callback then Extract(from)
    else if !pending && candidate.None? && tick >= main[from].retryAfter then ScanMain(main, tick, pending, from + 1, Some(from))
    else ScanMain(main, tick, pending, from + 1, candidate)
  }

  function DoLook(s: State, cpu: nat, memory: bool): State {
    if !CollectorOf(s, cpu).Looking? then s
    else
      var s := Revived(s, memory);
      match ScanMain(s.main, s.tick, s.pending, 0, None)
      case Nothing => AtCpu(s, cpu, Away)
      case Extract(at) =>
        if at >= |s.main| then s else AtCpu(s.(main := Without(s.main, at)), cpu, Calling(s.main[at]))
      case Announce(at) =>
        if at >= |s.main| then s else AtCpu(s.(pending := true), cpu, Notifying(s.main[at].serial))
  }

  function DoStart(s: State, cpu: nat): State {
    if CollectorOf(s, cpu).Away? then AtCpu(s, cpu, Looking) else s
  }

  /** The callback returns. */
  function DoReturn(s: State, cpu: nat): State {
    var c := CollectorOf(s, cpu);
    if !c.Calling? then s
    else AtCpu(s.(fates := s.fates[c.timer.serial := Fired(s.tick, c.timer.timeout)]), cpu, Looking)
  }

  /** `device_event_proc` accepts the event or not. */
  function DoNotify(s: State, cpu: nat, accepted: bool): State {
    var c := CollectorOf(s, cpu);
    if !c.Notifying? then s
    else if accepted then AtCpu(s.(events := s.events + 1), cpu, Away)
    else AtCpu(s, cpu, Failing(c.serial))
  }

  /** The section after a refused event: one more attempt, then the retry chain, or the end. */
  function DoFail(s: State, cpu: nat, memory: bool): State {
    var c := CollectorOf(s, cpu);
    if !c.Failing? then s
    else
      var s := AtCpu(s.(pending := false), cpu, Away);
      var i := Find(s.main, c.serial);
      if i == |s.main| then s
      else
        var t := s.main[i].(attempts := s.main[i].attempts + 1);
        if t.attempts >= ATTEMPT_LIMIT then
          s.(main := Without(s.main, i), fates := s.fates[t.serial := Dropped(t.attempts, false)])
        else
          var t := t.(retryAfter := s.tick + RETRY_DELAY);
          if memory then s.(main := Without(s.main, i), retry := InsertRetry(s.retry, t))
          else s.(main := s.main[i := t])
  }

  // ---- Dispatch ----

  function DoTakeEvent(s: State): State {
    if !s.dispatcher.Sleeping? || s.events == 0 then s else s.(events := s.events - 1, dispatcher := Draining)
  }

  /** The first expired timer that is not a plain callback, or the length. */
  function FirstDeferred(main: Chain, tick: nat, from: nat := 0): (i: nat)
    requires from <= |main|
    ensures from <= i <= |main| && (i < |main| ==> main[i].timeout <= tick && main[i].kind != Callback)
    decreases |main| - from
  {
    if from == |main| || tick < main[from].timeout then |main|
    else if main[from].kind != Callback then from
    else FirstDeferred(main, tick, from + 1)
  }

  function DoDrain(s: State): State {
    if !s.dispatcher.Draining? then s
    else
      var i := FirstDeferred(s.main, s.tick);
      if i == |s.main| then s.(pending := false, dispatcher := Sleeping)
      else s.(main := Without(s.main, i), dispatcher := Acting(s.main[i]))
  }

  /** The action itself; only a driver message can fail to be delivered. */
  function DoAct(s: State, delivered: bool): State {
    if !s.dispatcher.Acting? then s
    else
      var t := s.dispatcher.timer;
      if t.kind != DriverMessage || delivered then
        s.(fates := s.fates[t.serial := Fired(s.tick, t.timeout)], dispatcher := Draining)
      else if t.attempts + 1 >= ATTEMPT_LIMIT then
        s.(fates := s.fates[t.serial := Dropped(t.attempts + 1, false)], dispatcher := Draining)
      else s.(dispatcher := Requeueing(t.(attempts := t.attempts + 1)))
  }

  /** An undelivered message is appended again, under a new serial. */
  function DoRequeue(s: State, memory: bool): State {
    if !s.dispatcher.Requeueing? then s
    else
      var t := s.dispatcher.timer;
      var fate := if memory then Requeued(s.serial + 1) else Dropped(t.attempts, true);
      DoAppend(s, RETRY_DELAY, t, memory).(fates := s.fates[t.serial := fate], dispatcher := Draining)
  }

  datatype Action =
    | Append(delay: nat, request: Request, memory: bool)
    | Cancel(pattern: Pattern)
    | Tick
    | Start(cpu: nat)
    | Look(cpu: nat, memory: bool)
    | Return(cpu: nat)
    | Notify(cpu: nat, accepted: bool)
    | Fail(cpu: nat, memory: bool)
    | TakeEvent
    | Drain
    | Act(delivered: bool)
    | Requeue(memory: bool)

  ghost function Apply(s: State, a: Action): State {
    match a
    case Append(delay, request, memory) => DoRequest(s, delay, request, memory)
    case Cancel(pattern) => DoCancel(s, pattern)
    case Tick => s.(tick := s.tick + 1)
    case Start(cpu) => DoStart(s, cpu)
    case Look(cpu, memory) => DoLook(s, cpu, memory)
    case Return(cpu) => DoReturn(s, cpu)
    case Notify(cpu, accepted) => DoNotify(s, cpu, accepted)
    case Fail(cpu, memory) => DoFail(s, cpu, memory)
    case TakeEvent => DoTakeEvent(s)
    case Drain => DoDrain(s)
    case Act(delivered) => DoAct(s, delivered)
    case Requeue(memory) => DoRequeue(s, memory)
  }

  ghost function Run(s: State, run: seq<Action>): State
    decreases |run|
  {
    if run == [] then s else Run(Apply(s, run[0]), run[1..])
  }

  const INITIAL := State([], [], false, 0, 0, map[], 0, Sleeping, {}, map[])
}
