/** What the interrupt routing promises in every reachable state. */
module GsiTheorems {
  import opened FileBytes
  import opened GsiRouting
  import opened GsiSafety

  /** Reachable from the state in which nothing was ever bound. */
  ghost predicate Reachable(s: State) {
    exists apic, destination, run :: s == Run(Initial(apic, destination), run)
  }

  lemma ReachableSafe(s: State)
    requires Reachable(s)
    ensures Safe(s)
  {
    var apic, destination, run :| s == Run(Initial(apic, destination), run);
    InitialSafe(apic, destination);
    RunsSafe(Initial(apic, destination), run);
  }

  lemma {:induction false} RunThenAct(s: State, run: seq<Action>, a: Action)
    ensures Run(s, run + [a]) == Apply(Run(s, run), a)
    decreases |run|
  {
    hide Apply;
    if run != [] {
      assert (run + [a])[1..] == run[1..] + [a];
      RunThenAct(Apply(s, run[0]), run[1..], a);
    }
  }

  /**
   A filter that is running belongs to a binding whose Unbind has not returned, and it was called with
   that binding's own filter and context.
   */
  lemma NoFilterAfterUnbind(s: State, cpu: nat)
    requires Reachable(s) && DispatchOf(s, cpu).Calling?
    ensures var d := s.cpus[cpu];
      && d.generation in s.bound && d.generation !in s.unbound
      && s.bound[d.generation] == Binding(d.slot, d.filter, d.context)
  {
    hide Reachable, Safe;
    ReachableSafe(s);
    CpuFacts(s, cpu);
  }

  function AdmittedAt(s: State, i: nat): set<nat> {
    set cpu | cpu in s.cpus && IsAdmitted(s.cpus[cpu]) && s.cpus[cpu].slot == i
  }

  /** While an Unbind waits nobody is admitted to the slot any more, so the filters still inside only leave. */
  lemma DrainOnlyShrinks(s: State, a: Action, i: nat)
    requires i < |s.slots| && s.slots[i].phase == Draining
    ensures AdmittedAt(Apply(s, a), i) <= AdmittedAt(s, i)
  {
    hide AdmittedAt, DoAdvance, DoBind, DoUnbind, DoStartBind, DoDispatch;
    match a
    case Peek(cpu, k) => MovedShrinks(s, DoPeek(s, cpu, k), cpu, i);
    case Step(cpu) => DispatchMoves(s, cpu, i); MovedShrinks(s, DoDispatch(s, cpu), cpu, i);
    case _ => CallersKeepCpus(s, a); SameCpusShrink(s, Apply(s, a), i);
  }

  /** The processor's step does not let it in. */
  predicate StaysOut(s: State, s': State, cpu: nat, i: nat) {
    s'.cpus == s.cpus
    || (cpu in s'.cpus && s'.cpus == s.cpus[cpu := s'.cpus[cpu]]
        && (IsAdmitted(s'.cpus[cpu]) && s'.cpus[cpu].slot == i ==> cpu in AdmittedAt(s, i)))
  }

  lemma MovedShrinks(s: State, s': State, cpu: nat, i: nat)
    requires StaysOut(s, s', cpu, i)
    ensures AdmittedAt(s', i) <= AdmittedAt(s, i)
  {
  }

  lemma SameCpusShrink(s: State, s': State, i: nat)
    requires s'.cpus == s.cpus
    ensures AdmittedAt(s', i) <= AdmittedAt(s, i)
  {
  }

  lemma DispatchMoves(s: State, cpu: nat, i: nat)
    requires i < |s.slots| && s.slots[i].phase == Draining
    ensures StaysOut(s, DoDispatch(s, cpu), cpu, i)
  {
    hide StaysOut, AtCpu, Counted;
    var d := DispatchOf(s, cpu);
    SetCpuStaysOut(s, s, cpu, d, i);
    if !d.Outside? && d.slot < |s.slots| {
      var slot := s.slots[d.slot];
      match d
      case Seen(k) => CountedStaysOut(s, k, slot.dispatching + 1, cpu, Entered(k), i);
      case Entered(k) =>
        SetCpuStaysOut(s, s, cpu, if slot.phase == Live then Admitted(k, slot.generation) else Leaving(k), i);
      case Admitted(k, g) =>
        SetCpuStaysOut(s, s, cpu, if slot.filter.Some? then Named(k, g, slot.filter.value) else Leaving(k), i);
      case Named(k, g, filter) => SetCpuStaysOut(s, s, cpu, Calling(k, g, filter, slot.context), i);
      case Calling(k, _, _, _) => SetCpuStaysOut(s, s, cpu, Leaving(k), i);
      case Leaving(k) =>
        if slot.dispatching > 0 { CountedStaysOut(s, k, slot.dispatching - 1, cpu, Outside, i); }
    }
  }

  lemma SetCpuStaysOut(s: State, m: State, cpu: nat, d: Dispatch, i: nat)
    requires m.cpus == s.cpus && (IsAdmitted(d) && d.slot == i ==> IsAdmitted(DispatchOf(s, cpu)) && DispatchOf(s, cpu).slot == i)
    ensures StaysOut(s, AtCpu(m, cpu, d), cpu, i) && StaysOut(s, s, cpu, i)
  {
  }

  lemma CountedStaysOut(s: State, k: nat, n: nat, cpu: nat, d: Dispatch, i: nat)
    requires k < |s.slots| && !IsAdmitted(d)
    ensures StaysOut(s, AtCpu(Counted(s, k, n), cpu, d), cpu, i)
  {
    hide StaysOut, AtCpu;
    SetCpuStaysOut(s, Counted(s, k, n), cpu, d, i);
  }

  lemma CallersKeepCpus(s: State, a: Action)
    requires !a.Peek? && !a.Step?
    ensures Apply(s, a).cpus == s.cpus
  {
    hide DoBind, DoAdvance, Configure;
    match a
    case StartBind(_, _, _, _) =>
    case Bind(u, verified) => BindKeepsCpus(s, u, verified);
    case Unbind(_, _) =>
    case Advance(u) => AdvanceMovesOn(s, u);
  }

  lemma BindKeepsCpus(s: State, u: Caller, verified: bool)
    ensures DoBind(s, u, verified).cpus == s.cpus
  {
    hide Configure, FindRoute, FreeRoute, AtCall;
    forall m: State, c: Call ensures AtCall(m, u, c).cpus == m.cpus { AtCallKeepsCpus(m, u, c); }
  }

  lemma AtCallKeepsCpus(s: State, u: Caller, c: Call)
    ensures AtCall(s, u, c).cpus == s.cpus
  {
  }

  /** A step inside a call moves that call on and leaves the processors. */
  ghost predicate MovesOn(s: State, s': State, u: Caller) {
    && s'.cpus == s.cpus && s'.saved == s.saved && s'.baseline == s.baseline
    && ((s'.callers == s.callers && s'.apic == s.apic)
        || (u in s'.callers && s'.callers == s.callers[u := s'.callers[u]] && !s'.callers[u].Read?))
  }

  lemma AtCallMovesOn(s: State, m: State, u: Caller, c: Call)
    requires m.cpus == s.cpus && m.saved == s.saved && m.baseline == s.baseline && m.callers == s.callers && !c.Read?
    ensures MovesOn(s, AtCall(m, u, c), u)
  {
  }

  lemma ScanMovesOn(s: State, u: Caller)
    requires CallOf(s, u).Scanning?
    ensures MovesOn(s, DoScan(s, u), u)
  {
    hide MovesOn;
    var Scanning(filter, context, r, i) := CallOf(s, u);
    if i < |s.slots| {
      AtCallMovesOn(s, s, u, Naming(filter, context, r, i));
      AtCallMovesOn(s, s, u, Scanning(filter, context, r, i + 1));
    } else {
      AtCallMovesOn(s, s.(lock := None), u, Resting);
      if r < |s.routes| {
        AtCallMovesOn(s, s.(apic := Restored(s, r), routes := s.routes[r := EMPTY_ROUTE], lock := None), u, Resting);
      }
    }
  }

  lemma PublishMovesOn(s: State, u: Caller)
    requires CallOf(s, u).Publishing?
    ensures MovesOn(s, DoPublish(s, u), u)
  {
    hide Configure;
  }

  lemma ReleaseMovesOn(s: State, u: Caller)
    requires CallOf(s, u).Releasing?
    ensures MovesOn(s, DoRelease(s, u), u)
  {
  }

  lemma AdvanceMovesOn(s: State, u: Caller)
    ensures MovesOn(s, DoAdvance(s, u), u)
    ensures CallOf(s, u).Resting? || CallOf(s, u).Read? ==> DoAdvance(s, u) == s
  {
    hide DoScan, DoPublish, DoRelease;
    match CallOf(s, u)
    case Scanning(_, _, _, _) => ScanMovesOn(s, u);
    case Publishing(_, _, _, _) => PublishMovesOn(s, u);
    case Releasing(_, _, _) => ReleaseMovesOn(s, u);
    case _ =>
  }

  /** Unbind returns only after the last filter it let in has returned. */
  lemma UnbindReturnsDrained(s: State, u: Caller)
    requires Reachable(s) && CallOf(s, u).Releasing?
    ensures CallOf(s, u).slot < |s.slots| && AdmittedAt(s, CallOf(s, u).slot) == {}
  {
    hide Reachable, Safe;
    ReachableSafe(s);
    CallFacts(s, u);
    ReleasedSlot(s, u);
  }

  /** No call is under way. */
  predicate Quiet(s: State) {
    forall u :: u in s.callers ==> s.callers[u] == Resting
  }

  /** A route's reference count is the number of live bindings on it, however calls overlap. */
  lemma ReferencesCountBindings(s: State, r: nat)
    requires Reachable(s) && r < |s.routes|
    ensures s.routes[r].references == |Users(s.slots, r)|
    ensures Quiet(s) ==> (s.routes[r].active <==> Users(s.slots, r) != {})
  {
    hide Reachable, Safe;
    ReachableSafe(s);
    RouteFacts(s, r);
  }

  /**
   In every reachable state the line of a route with live bindings is unmasked, and that of a route without one, being
   opened or retired, is masked.
   */
  lemma MaskedExactlyWithoutBinding(s: State, r: nat)
    requires Reachable(s) && r < |s.routes| && s.routes[r].active
    ensures s.routes[r].configuration.gsi in s.apic
    ensures var entry := s.apic[s.routes[r].configuration.gsi];
      && (Masked(entry) <==> Users(s.slots, r) == {})
      && Delivers(entry, s.routes[r].configuration, s.destination)
    ensures s.routes[r].retiring ==> Masked(s.apic[s.routes[r].configuration.gsi])
  {
    hide Reachable, Safe, Configure, Masked, Delivers;
    ReachableSafe(s);
    RouteFacts(s, r);
    var route := s.routes[r];
    ConfigureSetsFields(route.original, route.configuration, s.destination, true);
    ConfigureSetsFields(route.original, route.configuration, s.destination, false);
  }

  predicate Bound(s: State, gsi: nat) {
    exists i :: 0 <= i < |s.slots| && BoundTo(s, i, gsi)
  }

  predicate BoundTo(s: State, i: nat, gsi: nat)
    requires i < |s.slots|
  {
    s.slots[i].phase == Live && s.slots[i].route < |s.routes| && Serves(s.routes[s.slots[i].route], gsi)
  }

  /**
   When no call is under way, a line without a live binding holds the entry read by the call that last opened a route
   on it, so it holds what it held before any binding exactly when that call had read just this; a line with a live
   binding holds the entry read then, reconfigured and unmasked.
   */
  lemma LastUnbindRestores(s: State, gsi: nat)
    requires Reachable(s) && Quiet(s) && gsi in s.apic
    ensures gsi in s.saved && gsi in s.baseline
    ensures !Bound(s, gsi) ==> s.apic[gsi] == s.saved[gsi]
    ensures !Bound(s, gsi) ==> (s.apic[gsi] == s.baseline[gsi] <==> s.saved[gsi] == s.baseline[gsi])
    ensures forall i :: 0 <= i < |s.slots| && BoundTo(s, i, gsi) ==>
      && s.apic[gsi] == Configure(s.saved[gsi], s.routes[s.slots[i].route].configuration, s.destination, false)
      && Delivers(s.apic[gsi], s.routes[s.slots[i].route].configuration, s.destination) && !Masked(s.apic[gsi])
  {
    hide Reachable, Safe, Configure;
    ReachableSafe(s);
    LineFacts(s, gsi);
    if Served(s, gsi) {
      var r :| 0 <= r < |s.routes| && Serves(s.routes[r], gsi);
      RouteFacts(s, r);
      var i :| i in Users(s.slots, r);
      assert BoundTo(s, i, gsi);
    }
    forall i | 0 <= i < |s.slots| && BoundTo(s, i, gsi)
      ensures s.apic[gsi] == Configure(s.saved[gsi], s.routes[s.slots[i].route].configuration, s.destination, false)
      ensures Delivers(s.apic[gsi], s.routes[s.slots[i].route].configuration, s.destination) && !Masked(s.apic[gsi])
    {
      UserCounted(s, i);
      ConfigureSetsFields(s.saved[gsi], s.routes[s.slots[i].route].configuration, s.destination, false);
    }
  }

  /** Unbind accepts exactly the handles of bindings that were made, not given back, and not being unbound. */
  lemma StaleHandleRefused(s: State, h: Handle)
    requires Reachable(s)
    ensures Accepts(s, h) <==>
      && h.generation in s.bound && h.generation !in s.unbound && s.bound[h.generation].slot == h.slot
      && forall u :: u in s.callers ==> !(Tearing(s.callers[u]) && s.callers[u].slot == h.slot)
  {
    hide Reachable, Safe;
    ReachableSafe(s);
    if h.generation in s.bound {
      BoundFacts(s, h.generation);
    }
    if h.slot < |s.slots| {
      SlotFacts(s, h.slot);
      forall u | u in s.callers ensures Tearing(s.callers[u]) && s.callers[u].slot == h.slot ==> s.slots[h.slot].phase == Draining {
        CallFacts(s, u);
      }
    }
  }

  /** Generations are never reused: what Bind hands out was never handed out before, and Unbind will take it. */
  lemma HandlesAreFresh(s: State, u: Caller)
    requires Reachable(s) && CallOf(s, u).Publishing?
    ensures s.generation + 1 !in s.bound
    ensures s.generation + 1 in DoPublish(s, u).bound
    ensures DoPublish(s, u).bound[s.generation + 1] == Binding(CallOf(s, u).slot, CallOf(s, u).filter, CallOf(s, u).context)
    ensures Accepts(DoPublish(s, u), Handle(CallOf(s, u).slot, s.generation + 1))
  {
    hide Reachable, Safe, Configure;
    ReachableSafe(s);
    NewGeneration(s);
    CallFacts(s, u);
  }

  // ---- When a Bind goes on, and what an interrupt does ----

  /** Some route serves the line already and may be shared as asked. */
  predicate Joinable(s: State, c: Configuration) {
    exists r :: 0 <= r < |s.routes| && JoinableAt(s, c, r)
  }

  predicate JoinableAt(s: State, c: Configuration, r: nat)
    requires r < |s.routes|
  {
    && Serves(s.routes[r], c.gsi) && !s.routes[r].retiring
    && s.routes[r].configuration.levelTriggered == c.levelTriggered && s.routes[r].configuration.activeLow == c.activeLow
    && s.routes[r].configuration.shareable && c.shareable
  }

  /** No route serves the line and there is a free one. */
  predicate Openable(s: State, gsi: nat) {
    !Served(s, gsi) && exists r :: 0 <= r < |s.routes| && !s.routes[r].active
  }

  /** The call goes on, on a route of its line with the configuration it asked for, or it returns. */
  predicate GoesOnIff(s: State, s': State, u: Caller, goes: bool) {
    var call, call' := CallOf(s, u), CallOf(s', u);
    && call.Read? && (call'.Scanning? <==> goes)
    && (!goes ==> call' == Resting && s'.lock == None)
    && (goes ==>
          && call' == Scanning(call.filter, call.context, call'.route, 0) && s'.lock == Some(u) && call'.route < |s'.routes|
          && Serves(s'.routes[call'.route], call.configuration.gsi)
          && s'.routes[call'.route].configuration.levelTriggered == call.configuration.levelTriggered
          && s'.routes[call'.route].configuration.activeLow == call.configuration.activeLow)
  }

  lemma JoinGoesOn(s: State, u: Caller, verified: bool)
    requires CallOf(s, u).Read? && s.lock == None && CallOf(s, u).configuration.gsi in s.apic
    requires var found := FindRoute(s.routes, CallOf(s, u).configuration.gsi); found < |s.routes|
    ensures var c := CallOf(s, u).configuration;
      GoesOnIff(s, DoBind(s, u, verified), u, JoinableAt(s, c, FindRoute(s.routes, c.gsi)))
  {
    hide Configure, FreeRoute;
  }

  lemma OpenGoesOn(s: State, u: Caller, verified: bool)
    requires CallOf(s, u).Read? && s.lock == None && CallOf(s, u).configuration.gsi in s.apic
    requires FindRoute(s.routes, CallOf(s, u).configuration.gsi) == |s.routes|
    ensures GoesOnIff(s, DoBind(s, u, verified), u, FreeRoute(s.routes) < |s.routes| && verified)
  {
    hide Configure;
  }

  /**
   Past the lock a Bind goes on exactly when it can share the line's route with the same trigger mode and polarity, or open
   one that the hardware confirms; it then works on a route of its line with the configuration it asked for.
   */
  lemma BindProceedsIff(s: State, u: Caller, verified: bool)
    requires Reachable(s) && CallOf(s, u).Read? && s.lock == None && CallOf(s, u).configuration.gsi in s.apic
    ensures var c := CallOf(s, u).configuration;
      GoesOnIff(s, DoBind(s, u, verified), u, Joinable(s, c) || (Openable(s, c.gsi) && verified))
  {
    hide Reachable, Safe, Configure, DoBind, GoesOnIff;
    ReachableSafe(s);
    var c := CallOf(s, u).configuration;
    var found := FindRoute(s.routes, c.gsi);
    if found < |s.routes| {
      JoinGoesOn(s, u, verified);
      assert Served(s, c.gsi);
      if Joinable(s, c) {
        var r :| 0 <= r < |s.routes| && JoinableAt(s, c, r);
        if r != found { DistinctFacts(s, found, r); }
      }
      assert JoinableAt(s, c, found) ==> Joinable(s, c);
    } else {
      OpenGoesOn(s, u, verified);
      assert !Joinable(s, c);
    }
  }

  /** A processor's next steps inside dispatch. */
  function Dispatched(s: State, cpu: nat, n: nat): State {
    if n == 0 then s else DoDispatch(Dispatched(s, cpu, n - 1), cpu)
  }

  /** The processor is inside the slot at that point, counted once. */
  function Inside(s: State, cpu: nat, i: nat, d: Dispatch): State
    requires i < |s.slots|
  {
    AtCpu(Counted(s, i, s.slots[i].dispatching + 1), cpu, d)
  }

  lemma InsideStep(s: State, cpu: nat, i: nat, g: nat, filter: Filter, context: Context)
    requires i < |s.slots| && s.slots[i].phase == Live && s.slots[i].generation == g
    requires s.slots[i].filter == Some(filter) && s.slots[i].context == context
    ensures DoDispatch(Inside(s, cpu, i, Entered(i)), cpu) == Inside(s, cpu, i, Admitted(i, g))
    ensures DoDispatch(Inside(s, cpu, i, Admitted(i, g)), cpu) == Inside(s, cpu, i, Named(i, g, filter))
    ensures DoDispatch(Inside(s, cpu, i, Named(i, g, filter)), cpu) == Inside(s, cpu, i, Calling(i, g, filter, context))
    ensures DoDispatch(Inside(s, cpu, i, Calling(i, g, filter, context)), cpu) == Inside(s, cpu, i, Leaving(i))
  {
    Replaced(s, cpu, i, Entered(i), Admitted(i, g));
    Replaced(s, cpu, i, Admitted(i, g), Named(i, g, filter));
    Replaced(s, cpu, i, Named(i, g, filter), Calling(i, g, filter, context));
    Replaced(s, cpu, i, Calling(i, g, filter, context), Leaving(i));
  }

  lemma Replaced(s: State, cpu: nat, i: nat, d: Dispatch, d': Dispatch)
    requires i < |s.slots|
    ensures AtCpu(Inside(s, cpu, i, d), cpu, d') == Inside(s, cpu, i, d')
  {
    assert s.cpus[cpu := d][cpu := d'] == s.cpus[cpu := d'];
  }

  lemma EnterSlot(s: State, cpu: nat, i: nat)
    requires i < |s.slots| && s.slots[i].phase == Live && DispatchOf(s, cpu) == Outside
    ensures DoDispatch(DoPeek(s, cpu, i), cpu) == Inside(s, cpu, i, Entered(i))
  {
    assert s.cpus[cpu := Seen(i)][cpu := Entered(i)] == s.cpus[cpu := Entered(i)];
  }

  lemma LeaveSlot(s: State, cpu: nat, i: nat)
    requires i < |s.slots|
    ensures var left := DoDispatch(Inside(s, cpu, i, Leaving(i)), cpu); DispatchOf(left, cpu) == Outside && left.slots == s.slots
  {
  }

  /** An interrupt that finds a live slot, with nobody in between, calls the slot's filter with its own context and leaves. */
  lemma InterruptCallsFilter(s: State, cpu: nat, i: nat)
    requires Reachable(s) && i < |s.slots| && s.slots[i].phase == Live && DispatchOf(s, cpu) == Outside
    ensures var g := s.slots[i].generation; var entered := DoPeek(s, cpu, i);
      && g in s.bound
      && DispatchOf(Dispatched(entered, cpu, 4), cpu) == Calling(i, g, s.bound[g].filter, s.bound[g].context)
      && DispatchOf(Dispatched(entered, cpu, 6), cpu) == Outside && Dispatched(entered, cpu, 6).slots == s.slots
  {
    hide Reachable, Safe, DoDispatch, DoPeek, Counted;
    ReachableSafe(s);
    SlotFacts(s, i);
    var slot, entered := s.slots[i], DoPeek(s, cpu, i);
    EnterSlot(s, cpu, i);
    LeaveSlot(s, cpu, i);
    InsideStep(s, cpu, i, slot.generation, slot.filter.value, slot.context);
    StepFrom(entered, cpu, 0);
    StepFrom(entered, cpu, 1);
    StepFrom(entered, cpu, 2);
    StepFrom(entered, cpu, 3);
    StepFrom(entered, cpu, 4);
    StepFrom(entered, cpu, 5);
  }

  lemma StepFrom(s: State, cpu: nat, n: nat)
    ensures Dispatched(s, cpu, n + 1) == DoDispatch(Dispatched(s, cpu, n), cpu)
  {
  }

  // ---- When the entry that was read is still in place ----

  /** A call begins only when no other is under way. */
  predicate OneAtATime(s: State, a: Action) {
    a.StartBind? || a.Unbind? ==> forall v :: v in s.callers && v != a.caller ==> s.callers[v] == Resting
  }

  ghost predicate Sequential(s: State, run: seq<Action>)
    decreases |run|
  {
    run == [] || (OneAtATime(s, run[0]) && Sequential(Apply(s, run[0]), run[1..]))
  }

  /** At most one call is under way, and what it read is in place. */
  ghost predicate Alone(s: State) {
    && s.saved == s.baseline
    && (forall u, v :: u in s.callers && v in s.callers && s.callers[u] != Resting && s.callers[v] != Resting ==> u == v)
    && (forall u :: u in s.callers && s.callers[u].Read? ==>
          s.callers[u].configuration.gsi in s.apic && s.callers[u].original == s.apic[s.callers[u].configuration.gsi])
  }

  /** Opening a route with the entry in place saves what was saved before. */
  lemma SavesTheSame(s: State, u: Caller)
    requires Safe(s) && Alone(s) && u in s.callers && s.callers[u].Read?
    requires FindRoute(s.routes, s.callers[u].configuration.gsi) == |s.routes|
    ensures s.saved[s.callers[u].configuration.gsi := s.callers[u].original] == s.saved
  {
    hide Safe;
    var gsi := s.callers[u].configuration.gsi;
    LineFacts(s, gsi);
    assert s.saved[gsi := s.saved[gsi]] == s.saved;
  }

  lemma BindAlone(s: State, u: Caller, verified: bool)
    requires Safe(s) && Alone(s)
    ensures Alone(DoBind(s, u, verified))
  {
    hide Safe, Configure, FreeRoute, Alone;
    var call := CallOf(s, u);
    ReturnedAlone(s, s, u, Resting);
    if call.Read? && s.lock == None && call.configuration.gsi in s.apic {
      var found, r := FindRoute(s.routes, call.configuration.gsi), FreeRoute(s.routes);
      if found < |s.routes| {
        ReturnedAlone(s, s.(lock := Some(u)), u, Scanning(call.filter, call.context, found, 0));
      } else if r < |s.routes| {
        SavesTheSame(s, u);
        BusyAlone(s, u, DoBind(s, u, verified));
      }
    }
  }

  lemma ReturnedAlone(s: State, m: State, u: Caller, c: Call)
    requires Alone(s) && m.callers == s.callers && m.apic == s.apic && m.saved == s.saved && m.baseline == s.baseline
    requires (CallOf(s, u) != Resting && !c.Read?) || c == Resting
    ensures Alone(AtCall(m, u, c))
  {
  }

  lemma BusyAlone(s: State, u: Caller, s': State)
    requires Alone(s) && CallOf(s, u) != Resting && s'.saved == s.saved && s'.baseline == s.baseline
    requires u in s'.callers && s'.callers == s.callers[u := s'.callers[u]] && !s'.callers[u].Read?
    ensures Alone(s')
  {
  }

  lemma AdvanceAlone(s: State, u: Caller)
    requires Alone(s)
    ensures Alone(DoAdvance(s, u))
  {
    hide DoAdvance;
    AdvanceMovesOn(s, u);
  }

  lemma StepAlone(s: State, a: Action)
    requires Safe(s) && Alone(s) && OneAtATime(s, a)
    ensures Alone(Apply(s, a))
  {
    hide Safe, Alone, DoBind, DoAdvance, DoStartBind, DoUnbind, DoPeek, DoDispatch, OneAtATime;
    match a
    case StartBind(u, c, filter, context) => StartBindAlone(s, u, c, filter, context);
    case Bind(u, verified) => BindAlone(s, u, verified);
    case Unbind(u, h) => UnbindAlone(s, u, h);
    case Advance(u) => AdvanceAlone(s, u);
    case Peek(cpu, i) => DispatchAlone(s, cpu, i);
    case Step(cpu) => DispatchAlone(s, cpu, 0);
  }

  lemma StartBindAlone(s: State, u: Caller, c: Configuration, filter: Option<Filter>, context: Option<Context>)
    requires Alone(s) && OneAtATime(s, StartBind(u, c, filter, context))
    ensures Alone(DoStartBind(s, u, c, filter, context))
  {
  }

  lemma UnbindAlone(s: State, u: Caller, h: Handle)
    requires Alone(s) && OneAtATime(s, Unbind(u, h))
    ensures Alone(DoUnbind(s, u, h))
  {
    hide Configure, Dereferenced;
  }

  lemma DispatchKeepsCalls(s: State, cpu: nat)
    ensures var s' := DoDispatch(s, cpu); s'.callers == s.callers && s'.apic == s.apic && s'.saved == s.saved && s'.baseline == s.baseline
  {
    hide AtCpu, Counted;
    forall t: State, d: Dispatch ensures AtCpu(t, cpu, d).callers == t.callers && AtCpu(t, cpu, d).apic == t.apic && AtCpu(t, cpu, d).saved == t.saved && AtCpu(t, cpu, d).baseline == t.baseline {
      AtCpuKeepsCalls(t, cpu, d);
    }
    forall i: nat, n: nat | i < |s.slots|
      ensures Counted(s, i, n).callers == s.callers && Counted(s, i, n).apic == s.apic && Counted(s, i, n).saved == s.saved && Counted(s, i, n).baseline == s.baseline
    {
      CountedKeepsCalls(s, i, n);
    }
  }

  lemma AtCpuKeepsCalls(s: State, cpu: nat, d: Dispatch)
    ensures AtCpu(s, cpu, d).callers == s.callers && AtCpu(s, cpu, d).apic == s.apic && AtCpu(s, cpu, d).saved == s.saved && AtCpu(s, cpu, d).baseline == s.baseline
  {
  }

  lemma CountedKeepsCalls(s: State, i: nat, n: nat)
    requires i < |s.slots|
    ensures Counted(s, i, n).callers == s.callers && Counted(s, i, n).apic == s.apic && Counted(s, i, n).saved == s.saved && Counted(s, i, n).baseline == s.baseline
  {
  }

  lemma AloneKept(s: State, s': State)
    requires Alone(s) && s'.callers == s.callers && s'.apic == s.apic && s'.saved == s.saved && s'.baseline == s.baseline
    ensures Alone(s')
  {
  }

  lemma DispatchAlone(s: State, cpu: nat, i: nat)
    requires Alone(s)
    ensures Alone(DoPeek(s, cpu, i)) && Alone(DoDispatch(s, cpu))
  {
    hide DoDispatch, Alone;
    DispatchKeepsCalls(s, cpu);
    AloneKept(s, DoDispatch(s, cpu));
    AloneKept(s, DoPeek(s, cpu, i));
  }

  /** When calls do not overlap, every route is opened with the entry that is in place. */
  lemma {:induction false} SequentialCallsReadCurrent(s: State, run: seq<Action>)
    requires Safe(s) && Alone(s) && Sequential(s, run)
    ensures Alone(Run(s, run))
    decreases |run|
  {
    hide Safe, Alone, Apply, OneAtATime;
    if run != [] {
      StepAlone(s, run[0]);
      SectionSafe(s, run[0]);
      SequentialCallsReadCurrent(Apply(s, run[0]), run[1..]);
    }
  }

  lemma InitialReached(apic: map<nat, Word>, destination: bv8, run: seq<Action>)
    ensures Reachable(Run(Initial(apic, destination), run))
  {
    hide Run;
  }

  /** So without overlap the last Unbind always restores the line. */
  lemma SequentialCallsRestore(apic: map<nat, Word>, destination: bv8, run: seq<Action>, gsi: nat)
    requires Sequential(Initial(apic, destination), run)
    requires var s := Run(Initial(apic, destination), run); Quiet(s) && gsi in s.apic && !Bound(s, gsi)
    ensures var s := Run(Initial(apic, destination), run); gsi in s.baseline && s.apic[gsi] == s.baseline[gsi]
  {
    hide Run, Bound;
    InitialSafe(apic, destination);
    InitialReached(apic, destination, run);
    SequentialCallsReadCurrent(Initial(apic, destination), run);
    LastUnbindRestores(Run(Initial(apic, destination), run), gsi);
  }
}
