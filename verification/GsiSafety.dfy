/** What every interleaving of binding, unbinding and dispatch keeps. */
module GsiSafety {
  import opened FileBytes
  import opened GsiRouting

  /** Counted in the slot's `dispatching`. */
  predicate InsideAt(d: Dispatch, i: nat) {
    !d.Outside? && !d.Seen? && d.slot == i
  }

  /** Between the second look at `active` and the return of the filter. */
  predicate IsAdmitted(d: Dispatch) {
    d.Admitted? || d.Named? || d.Calling?
  }

  function Insiders(cpus: map<nat, Dispatch>, i: nat): set<nat> {
    set cpu | cpu in cpus && InsideAt(cpus[cpu], i)
  }

  predicate Uses(slot: Slot, r: nat) {
    slot.phase == Live && slot.route == r
  }

  function Users(slots: seq<Slot>, r: nat): set<nat> {
    set i | 0 <= i < |slots| && Uses(slots[i], r)
  }

  predicate Building(c: Call) {
    c.Scanning? || c.Naming? || c.Passing? || c.Publishing?
  }

  predicate Tearing(c: Call) {
    c.Waiting? || c.Drained? || c.Clearing? || c.Wiping? || c.Releasing?
  }

  /** The call is inside a locked section. */
  predicate Locked(c: Call) {
    Building(c) || c.Clearing? || c.Wiping? || c.Releasing?
  }

  // ---- The invariant ----

  /** The slot's generation names a binding that was made here and not given back. */
  predicate Taken(s: State, i: nat)
    requires i < |s.slots|
  {
    var g := s.slots[i].generation;
    g in s.bound && g !in s.unbound && s.bound[g].slot == i
  }

  /** The slot shows exactly what its binding was made with. */
  predicate Owns(s: State, i: nat)
    requires i < |s.slots|
  {
    var slot := s.slots[i];
    Taken(s, i) && slot.filter == Some(s.bound[slot.generation].filter) && slot.context == s.bound[slot.generation].context
  }

  predicate SlotSafe(s: State, i: nat)
    requires i < |s.slots|
  {
    var slot := s.slots[i];
    && slot.dispatching == |Insiders(s.cpus, i)|
    && (slot.phase == Live ==> Owns(s, i) && slot.route < |s.routes|)
    && (slot.phase == Draining <==> slot.leaver.Some?)
    && (slot.leaver.Some? ==>
          var call := CallOf(s, slot.leaver.value);
          && Tearing(call) && call.slot == i && Taken(s, i)
          && (call.Waiting? || call.Drained? ==> Owns(s, i)))
  }

  predicate CpuSafe(s: State, cpu: nat)
    requires cpu in s.cpus
  {
    var d := s.cpus[cpu];
    && (!d.Outside? ==> d.slot < |s.slots|)
    && (IsAdmitted(d) ==>
          && s.slots[d.slot].phase != Free && s.slots[d.slot].generation == d.generation && Owns(s, d.slot)
          && (s.slots[d.slot].leaver.Some? ==> CallOf(s, s.slots[d.slot].leaver.value).Waiting?)
          && (!d.Admitted? ==> d.filter == s.bound[d.generation].filter)
          && (d.Calling? ==> d.context == s.bound[d.generation].context))
  }

  predicate CallSafe(s: State, u: Caller)
    requires u in s.callers
  {
    var c := s.callers[u];
    && (Locked(c) <==> s.lock == Some(u))
    && (Building(c) || Tearing(c) ==> c.route < |s.routes|)
    && (Building(c) ==> s.routes[c.route].active && !s.routes[c.route].retiring)
    && (Building(c) && !c.Scanning? ==> c.slot < |s.slots| && s.slots[c.slot].phase == Free)
    && (c.Passing? || c.Publishing? ==> s.slots[c.slot].filter == Some(c.filter))
    && (c.Publishing? ==> s.slots[c.slot].context == c.context)
    && (Tearing(c) ==> c.slot < |s.slots| && s.slots[c.slot].phase == Draining && s.slots[c.slot].leaver == Some(u))
    && (Tearing(c) && c.retire ==> s.routes[c.route].active && s.routes[c.route].retirer == Some(u))
  }

  predicate BoundSafe(s: State, g: nat)
    requires g in s.bound
  {
    && 1 <= g <= s.generation
    && (g !in s.unbound ==> s.bound[g].slot < |s.slots| && s.slots[s.bound[g].slot].generation == g
                            && s.slots[s.bound[g].slot].phase != Free)
  }

  /** The line's redirection entry delivers with the route's configuration. */
  predicate Unmasked(s: State, route: Route) {
    route.configuration.gsi in s.apic
    && s.apic[route.configuration.gsi] == Configure(route.original, route.configuration, s.destination, false)
  }

  /** It is configured and masked: nothing was bound yet, or the last binding is being given back. */
  predicate Silenced(s: State, route: Route) {
    route.configuration.gsi in s.apic
    && s.apic[route.configuration.gsi] == Configure(route.original, route.configuration, s.destination, true)
  }

  /** The lock holder is binding on this route. */
  predicate BuiltOn(s: State, r: nat) {
    s.lock.Some? && Building(CallOf(s, s.lock.value)) && CallOf(s, s.lock.value).route == r
  }

  /** The recorded Unbind is retiring this route. */
  predicate RetiredBy(s: State, r: nat, u: Caller) {
    Tearing(CallOf(s, u)) && CallOf(s, u).retire && CallOf(s, u).route == r
  }

  predicate RouteSafe(s: State, r: nat)
    requires r < |s.routes|
  {
    var route := s.routes[r];
    && route.references == |Users(s.slots, r)|
    && (!route.active ==> route == EMPTY_ROUTE)
    && (route.active ==>
          && route.configuration.gsi in s.apic && route.configuration.gsi in s.saved
          && route.original == s.saved[route.configuration.gsi]
          && (route.retiring <==> route.retirer.Some?) && (route.retiring ==> RetiredBy(s, r, route.retirer.value))
          && (route.references == 0 ==> Silenced(s, route) && (route.retiring || BuiltOn(s, r)))
          && (route.references > 0 ==> !route.retiring && Unmasked(s, route)))
  }

  predicate Distinct(s: State) {
    forall q, r :: 0 <= q < |s.routes| && 0 <= r < |s.routes| && SameLine(s.routes[q], s.routes[r]) ==> q == r
  }

  predicate SameLine(left: Route, right: Route) {
    left.active && right.active && left.configuration.gsi == right.configuration.gsi
  }

  predicate Served(s: State, gsi: nat) {
    exists r :: 0 <= r < |s.routes| && Serves(s.routes[r], gsi)
  }

  predicate LineSafe(s: State, gsi: nat)
    requires gsi in s.apic
  {
    gsi in s.saved && gsi in s.baseline && (!Served(s, gsi) ==> s.apic[gsi] == s.saved[gsi])
  }

  ghost predicate Safe(s: State) {
    && (forall i :: 0 <= i < |s.slots| ==> SlotSafe(s, i))
    && (forall cpu :: cpu in s.cpus ==> CpuSafe(s, cpu))
    && (forall u :: u in s.callers ==> CallSafe(s, u))
    && (s.lock.Some? ==> s.lock.value in s.callers)
    && (forall g :: g in s.bound ==> BoundSafe(s, g)) && s.unbound <= s.bound.Keys
    && (forall r :: 0 <= r < |s.routes| ==> RouteSafe(s, r))
    && Distinct(s)
    && (forall gsi :: gsi in s.apic ==> LineSafe(s, gsi))
  }

  // ---- Dispatch ----

  lemma InsidersMoved(cpus: map<nat, Dispatch>, cpu: nat, d: Dispatch, i: nat)
    ensures |Insiders(cpus[cpu := d], i)| ==
      |Insiders(cpus, i)| - (if cpu in cpus && InsideAt(cpus[cpu], i) then 1 else 0) + (if InsideAt(d, i) then 1 else 0)
  {
    var before, after := Insiders(cpus, i), Insiders(cpus[cpu := d], i);
    assert after == (before - {cpu}) + (if InsideAt(d, i) then {cpu} else {});
  }

  lemma UsersSame(slots: seq<Slot>, slots': seq<Slot>, r: nat)
    requires |slots'| == |slots| && forall k :: 0 <= k < |slots| ==> Uses(slots'[k], r) == Uses(slots[k], r)
    ensures Users(slots', r) == Users(slots, r)
  {
  }

  /** Only `cpus` and the counter of the processor's slot change. */
  predicate DispatchMove(s: State, s': State, cpu: nat, i: nat) {
    && i < |s.slots| == |s'.slots| && cpu in s'.cpus && s'.cpus == s.cpus[cpu := s'.cpus[cpu]]
    && s'.slots == s.slots[i := s.slots[i].(dispatching := s'.slots[i].dispatching)]
    && s' == s.(slots := s'.slots, cpus := s'.cpus)
  }

  lemma DispatchMoveSafe(s: State, s': State, cpu: nat, i: nat)
    requires Safe(s) && DispatchMove(s, s', cpu, i) && CpuSafe(s', cpu)
    requires s'.slots[i].dispatching == |Insiders(s'.cpus, i)|
    requires forall k :: 0 <= k < |s.slots| && k != i ==> |Insiders(s'.cpus, k)| == |Insiders(s.cpus, k)|
    ensures Safe(s')
  {
    forall r | 0 <= r < |s.routes| ensures RouteSafe(s', r) {
      assert RouteSafe(s, r);
      UsersSame(s.slots, s'.slots, r);
    }
    forall k | 0 <= k < |s.slots| ensures SlotSafe(s', k) { assert SlotSafe(s, k); }
    forall gsi | gsi in s'.apic ensures LineSafe(s', gsi) { assert LineSafe(s, gsi); }
    forall g | g in s'.bound ensures BoundSafe(s', g) { assert BoundSafe(s, g); }
    forall u | u in s'.cpus ensures CpuSafe(s', u) { assert u != cpu ==> CpuSafe(s, u); }
    forall u | u in s'.callers ensures CallSafe(s', u) { assert CallSafe(s, u); }
  }

  lemma PeekSafe(s: State, cpu: nat, i: nat)
    requires Safe(s)
    ensures Safe(DoPeek(s, cpu, i))
  {
    hide SlotSafe, RouteSafe, LineSafe, BoundSafe, CallSafe, Insiders;
    var s' := DoPeek(s, cpu, i);
    if s' != s {
      forall k | 0 <= k < |s.slots| ensures |Insiders(s'.cpus, k)| == |Insiders(s.cpus, k)| {
        InsidersMoved(s.cpus, cpu, Seen(i), k);
      }
      SlotCount(s, i);
      DispatchMoveSafe(s, s', cpu, i);
    }
  }

  lemma SlotCount(s: State, i: nat)
    requires Safe(s) && i < |s.slots|
    ensures s.slots[i].dispatching == |Insiders(s.cpus, i)|
  {
    assert SlotSafe(s, i);
  }

  lemma CpuFacts(s: State, cpu: nat)
    requires Safe(s) && cpu in s.cpus
    ensures CpuSafe(s, cpu)
  {
  }

  lemma SlotFacts(s: State, i: nat)
    requires Safe(s) && i < |s.slots|
    ensures SlotSafe(s, i)
  {
  }

  /** The next step keeps what the processor knows about its slot. */
  lemma StepCpu(s: State, cpu: nat)
    requires Safe(s) && cpu in s.cpus && DoDispatch(s, cpu) != s
    ensures cpu in DoDispatch(s, cpu).cpus && CpuSafe(DoDispatch(s, cpu), cpu)
  {
    hide Safe, Insiders;
    CpuFacts(s, cpu);
    SlotFacts(s, s.cpus[cpu].slot);
  }

  lemma CountedMoves(s: State, cpu: nat, d: Dispatch, i: nat, n: nat)
    requires i < |s.slots|
    ensures DispatchMove(s, AtCpu(Counted(s, i, n), cpu, d), cpu, i)
  {
  }

  lemma PlainMoves(s: State, cpu: nat, d: Dispatch, i: nat)
    requires i < |s.slots|
    ensures DispatchMove(s, AtCpu(s, cpu, d), cpu, i)
  {
    assert s.slots[i := s.slots[i].(dispatching := s.slots[i].dispatching)] == s.slots;
  }

  lemma StepMoves(s: State, cpu: nat)
    requires Safe(s) && cpu in s.cpus && DoDispatch(s, cpu) != s
    ensures s.cpus[cpu].slot < |s.slots| && DispatchMove(s, DoDispatch(s, cpu), cpu, s.cpus[cpu].slot)
  {
    hide Safe, DispatchMove, AtCpu, Counted;
    var d := s.cpus[cpu];
    var slot := s.slots[d.slot];
    match d
    case Seen(i) => CountedMoves(s, cpu, Entered(i), i, slot.dispatching + 1);
    case Entered(i) => PlainMoves(s, cpu, if slot.phase == Live then Admitted(i, slot.generation) else Leaving(i), i);
    case Admitted(i, g) => PlainMoves(s, cpu, if slot.filter.Some? then Named(i, g, slot.filter.value) else Leaving(i), i);
    case Named(i, g, filter) => PlainMoves(s, cpu, Calling(i, g, filter, slot.context), i);
    case Calling(i, _, _, _) => PlainMoves(s, cpu, Leaving(i), i);
    case Leaving(i) => CountedMoves(s, cpu, Outside, i, slot.dispatching - 1);
  }

  /** The counter moves with the processor. */
  lemma StepCount(s: State, cpu: nat)
    requires Safe(s) && cpu in s.cpus && DoDispatch(s, cpu) != s
    ensures var s', i := DoDispatch(s, cpu), s.cpus[cpu].slot;
      && i < |s.slots| == |s'.slots| && cpu in s'.cpus && s'.cpus == s.cpus[cpu := s'.cpus[cpu]]
      && (InsideAt(s'.cpus[cpu], i) || s'.cpus[cpu].Outside?)
      && s'.slots[i].dispatching ==
         |Insiders(s.cpus, i)| - (if InsideAt(s.cpus[cpu], i) then 1 else 0) + (if InsideAt(s'.cpus[cpu], i) then 1 else 0)
  {
    hide Safe, Insiders;
    CpuFacts(s, cpu);
    SlotCount(s, s.cpus[cpu].slot);
  }

  lemma StepSafe(s: State, cpu: nat)
    requires Safe(s)
    ensures Safe(DoDispatch(s, cpu))
  {
    hide Safe, DoDispatch, CpuSafe, Insiders, DispatchMove;
    var s' := DoDispatch(s, cpu);
    IdleStays(s, cpu);
    if s' != s {
      var i := s.cpus[cpu].slot;
      StepCpu(s, cpu);
      StepMoves(s, cpu);
      StepCount(s, cpu);
      forall k | 0 <= k < |s.slots| && k != i ensures |Insiders(s'.cpus, k)| == |Insiders(s.cpus, k)| {
        InsidersMoved(s.cpus, cpu, s'.cpus[cpu], k);
      }
      InsidersMoved(s.cpus, cpu, s'.cpus[cpu], i);
      DispatchMoveSafe(s, s', cpu, i);
    }
  }

  lemma IdleStays(s: State, cpu: nat)
    ensures DoDispatch(s, cpu) == s || (cpu in s.cpus && !s.cpus[cpu].Outside?)
  {
  }

  // ---- Facts ----

  lemma CallFacts(s: State, u: Caller)
    requires Safe(s)
    ensures u in s.callers ==> CallSafe(s, u)
    ensures u !in s.callers ==> s.lock != Some(u)
  {
  }

  lemma RouteFacts(s: State, r: nat)
    requires Safe(s) && r < |s.routes|
    ensures RouteSafe(s, r)
  {
  }

  lemma LineFacts(s: State, gsi: nat)
    requires Safe(s) && gsi in s.apic
    ensures LineSafe(s, gsi)
  {
  }

  lemma BoundFacts(s: State, g: nat)
    requires Safe(s) && g in s.bound
    ensures BoundSafe(s, g)
  {
  }

  lemma DistinctFacts(s: State, q: nat, r: nat)
    requires Safe(s) && q < |s.routes| && r < |s.routes| && q != r
    ensures !SameLine(s.routes[q], s.routes[r])
  {
  }

  // ---- A call that touches at most one slot and one route ----

  /** Other callers, slots and routes are as before; the lock passes only between nobody and this caller. */
  ghost predicate OthersSame(s: State, s': State, u: Caller, i: Option<nat>, r: Option<nat>) {
    && |s'.slots| == |s.slots| && |s'.routes| == |s.routes| && u in s'.callers
    && (i.Some? ==> i.value < |s.slots|) && (r.Some? ==> r.value < |s.routes|)
    && (forall v :: v != u ==> (v in s'.callers <==> v in s.callers))
    && (forall v :: v in s.callers && v in s'.callers && v != u ==> s'.callers[v] == s.callers[v])
    && (forall k :: 0 <= k < |s.slots| && Some(k) != i ==> s'.slots[k] == s.slots[k])
    && (forall q :: 0 <= q < |s.routes| && Some(q) != r ==> s'.routes[q] == s.routes[q])
    && s'.cpus == s.cpus && s'.baseline == s.baseline && s'.destination == s.destination && s'.apic.Keys == s.apic.Keys
    && (s'.lock == s.lock || ((s.lock == None || s.lock == Some(u)) && (s'.lock == None || s'.lock == Some(u))))
    && s'.saved.Keys == s.saved.Keys && (s'.saved == s.saved || CallOf(s, u).Read?) && s.generation <= s'.generation
  }

  /** The slot and the route are those of the call, and nobody else is at work on them. */
  ghost predicate Entitled(s: State, s': State, u: Caller, i: Option<nat>, r: Option<nat>)
    requires OthersSame(s, s', u, i, r)
  {
    var c := CallOf(s, u);
    && (i.Some? ==> s.slots[i.value].leaver == None || s.slots[i.value].leaver == Some(u))
    && (r.Some? ==> s.routes[r.value].retirer == None || s.routes[r.value].retirer == Some(u))
    && (s'.slots != s.slots || s'.routes != s.routes ==> s.lock == None || s.lock == Some(u))
    && (Tearing(c) ==> i == Some(c.slot))
    && (Building(c) || (Tearing(c) && c.retire) ==> r == Some(c.route))
    && (forall q :: 0 <= q < |s.routes| && Some(q) != r && i.Some? ==> Uses(s'.slots[i.value], q) == Uses(s.slots[i.value], q))
  }

  /** Bindings are only added, and only the slot's own is given back. */
  ghost predicate HistoryKept(s: State, s': State, i: Option<nat>) {
    && (forall g :: g in s.bound ==> g in s'.bound && s'.bound[g] == s.bound[g])
    && s.unbound <= s'.unbound
    && (forall g :: g in s'.unbound && g !in s.unbound ==> g in s.bound && Some(s.bound[g].slot) == i)
  }

  /** Only a line of the route changes, or one that no route serves. */
  predicate Touches(s: State, s': State, r: Option<nat>, gsi: nat) {
    || (r.Some? && r.value < |s.routes| && Serves(s.routes[r.value], gsi))
    || (r.Some? && r.value < |s'.routes| && Serves(s'.routes[r.value], gsi))
    || (!Served(s, gsi) && !Served(s', gsi))
  }

  ghost predicate LinesKept(s: State, s': State, r: Option<nat>) {
    && (forall gsi :: gsi in s.apic && gsi in s'.apic ==> s'.apic[gsi] == s.apic[gsi] || Touches(s, s', r, gsi))
    && (forall gsi :: gsi in s.saved && gsi in s'.saved ==> s'.saved[gsi] == s.saved[gsi] || Touches(s, s', r, gsi))
  }

  ghost predicate CallStep(s: State, s': State, u: Caller, i: Option<nat>, r: Option<nat>) {
    OthersSame(s, s', u, i, r) && Entitled(s, s', u, i, r) && HistoryKept(s, s', i) && LinesKept(s, s', r)
  }

  lemma OtherCall(s: State, s': State, u: Caller, i: Option<nat>, r: Option<nat>, v: Caller)
    requires CallStep(s, s', u, i, r) && v in s.callers && v != u && CallSafe(s, v)
    ensures CallSafe(s', v)
  {
    hide HistoryKept, LinesKept;
    if Building(s.callers[v]) {
      assert s'.slots == s.slots && s'.routes == s.routes;
    }
  }

  lemma OtherSlot(s: State, s': State, u: Caller, i: Option<nat>, r: Option<nat>, k: nat)
    requires CallStep(s, s', u, i, r) && k < |s.slots| && Some(k) != i && SlotSafe(s, k)
    ensures SlotSafe(s', k)
  {
    hide Insiders, LinesKept;
  }

  lemma OtherCpu(s: State, s': State, u: Caller, i: Option<nat>, r: Option<nat>, cpu: nat)
    requires CallStep(s, s', u, i, r) && cpu in s.cpus && CpuSafe(s, cpu)
    requires !s.cpus[cpu].Outside? ==> Some(s.cpus[cpu].slot) != i && SlotSafe(s, s.cpus[cpu].slot)
    ensures CpuSafe(s', cpu)
  {
    hide Insiders, LinesKept;
  }

  lemma OtherUsers(s: State, s': State, u: Caller, i: Option<nat>, r: Option<nat>, q: nat)
    requires CallStep(s, s', u, i, r) && q < |s.routes| && Some(q) != r
    ensures Users(s'.slots, q) == Users(s.slots, q)
  {
    hide HistoryKept, LinesKept;
    UsersSame(s.slots, s'.slots, q);
  }

  lemma OtherRoute(s: State, s': State, u: Caller, i: Option<nat>, r: Option<nat>, q: nat)
    requires Safe(s) && CallStep(s, s', u, i, r) && q < |s.routes| && Some(q) != r && Distinct(s')
    ensures RouteSafe(s', q)
  {
    hide Safe, Configure, Users, HistoryKept;
    RouteFacts(s, q);
    OtherUsers(s, s', u, i, r, q);
    CallFacts(s, u);
    if s.routes[q].active {
      var gsi := s.routes[q].configuration.gsi;
      assert Serves(s.routes[q], gsi) && Served(s, gsi);
      if r.Some? {
        DistinctFacts(s, q, r.value);
        assert !SameLine(s'.routes[q], s'.routes[r.value]);
      }
    }
  }

  lemma OtherLine(s: State, s': State, u: Caller, i: Option<nat>, r: Option<nat>, gsi: nat)
    requires CallStep(s, s', u, i, r) && gsi in s.apic && LineSafe(s, gsi)
    requires s'.apic[gsi] == s.apic[gsi] && s'.saved == s.saved && (r.Some? ==> !Serves(s.routes[r.value], gsi) && !Serves(s'.routes[r.value], gsi))
    ensures LineSafe(s', gsi)
  {
    hide HistoryKept, LinesKept, Entitled;
    if Served(s, gsi) {
      var q :| 0 <= q < |s.routes| && Serves(s.routes[q], gsi);
      assert Serves(s'.routes[q], gsi);
    }
  }

  lemma OtherBound(s: State, s': State, u: Caller, i: Option<nat>, r: Option<nat>, g: nat)
    requires CallStep(s, s', u, i, r) && g in s.bound && BoundSafe(s, g) && Some(s.bound[g].slot) != i
    ensures BoundSafe(s', g)
  {
    hide LinesKept, Entitled;
  }

  /** What remains to be shown of the call, its slot, its route and its lines. */
  ghost predicate Arrived(s: State, s': State, u: Caller, i: Option<nat>, r: Option<nat>)
    requires OthersSame(s, s', u, i, r)
  {
    && CallSafe(s', u) && Distinct(s') && s'.unbound <= s'.bound.Keys
    && (i.Some? ==> SlotSafe(s', i.value) && forall cpu :: cpu in s.cpus && !s.cpus[cpu].Outside? && s.cpus[cpu].slot == i.value ==> CpuSafe(s', cpu))
    && (r.Some? ==> RouteSafe(s', r.value))
    && (forall g :: g in s'.bound && (g !in s.bound || Some(s.bound[g].slot) == i) ==> BoundSafe(s', g))
    && (forall gsi :: gsi in s'.apic && (s'.apic[gsi] != s.apic[gsi] || s'.saved != s.saved || (r.Some? && (Serves(s.routes[r.value], gsi) || Serves(s'.routes[r.value], gsi))))
          ==> LineSafe(s', gsi))
  }

  lemma CallStepSafe(s: State, s': State, u: Caller, i: Option<nat>, r: Option<nat>)
    requires Safe(s) && CallStep(s, s', u, i, r) && Arrived(s, s', u, i, r)
    ensures Safe(s')
  {
    hide SlotSafe, CpuSafe, CallSafe, BoundSafe, RouteSafe, LineSafe, Entitled, LinesKept, Distinct;
    forall k | 0 <= k < |s'.slots| ensures SlotSafe(s', k) {
      if Some(k) != i { OtherSlot(s, s', u, i, r, k); }
    }
    forall cpu | cpu in s'.cpus ensures CpuSafe(s', cpu) {
      CpuFacts(s, cpu);
      if s.cpus[cpu].Outside? || Some(s.cpus[cpu].slot) != i {
        SlotOfCpu(s, cpu);
        OtherCpu(s, s', u, i, r, cpu);
      }
    }
    forall v | v in s'.callers ensures CallSafe(s', v) {
      if v != u { OtherCall(s, s', u, i, r, v); }
    }
    forall g | g in s'.bound ensures BoundSafe(s', g) {
      if g in s.bound && Some(s.bound[g].slot) != i { OtherBound(s, s', u, i, r, g); }
    }
    forall q | 0 <= q < |s'.routes| ensures RouteSafe(s', q) {
      if Some(q) != r { OtherRoute(s, s', u, i, r, q); }
    }
    forall gsi | gsi in s'.apic ensures LineSafe(s', gsi) {
      if s'.apic[gsi] == s.apic[gsi] && s'.saved == s.saved && (r.Some? ==> !Serves(s.routes[r.value], gsi) && !Serves(s'.routes[r.value], gsi)) {
        OtherLine(s, s', u, i, r, gsi);
      }
    }
  }

  lemma SlotOfCpu(s: State, cpu: nat)
    requires Safe(s) && cpu in s.cpus
    ensures !s.cpus[cpu].Outside? ==> s.cpus[cpu].slot < |s.slots| && SlotSafe(s, s.cpus[cpu].slot)
  {
    CpuFacts(s, cpu);
  }

  // ---- Steps inside a call ----

  /** The route a call is responsible for. */
  function RouteOf(c: Call): Option<nat> {
    if Building(c) || (Tearing(c) && c.retire) then Some(c.route) else None
  }

  predicate SameCall(c: Call, c': Call) {
    || (Building(c) && Building(c') && c'.route == c.route)
    || (Tearing(c) && Tearing(c') && c'.route == c.route && c'.slot == c.slot && c'.retire == c.retire)
  }

  /** Changes of `filter` and `context` only. */
  predicate SameStanding(slot: Slot, slot': Slot) {
    slot'.(filter := slot.filter, context := slot.context) == slot
  }

  /** The call goes on; at most `filter` and `context` of its slot change. */
  ghost predicate QuietMove(s: State, s': State, u: Caller, i: nat) {
    && u in s.callers && u in s'.callers && i < |s.slots| == |s'.slots|
    && s' == s.(slots := s.slots[i := s'.slots[i]], lock := s'.lock, callers := s.callers[u := s'.callers[u]])
    && SameStanding(s.slots[i], s'.slots[i]) && SameCall(s.callers[u], s'.callers[u])
    && (Tearing(s.callers[u]) ==> s.callers[u].slot == i)
    && (s.slots[i].leaver == None || s.slots[i].leaver == Some(u))
    && (s'.lock == s.lock || (s.lock == None && s'.lock == Some(u)))
    && (s'.slots[i] != s.slots[i] ==> s.lock == Some(u))
  }

  lemma QuietStep(s: State, s': State, u: Caller, i: nat)
    requires Safe(s) && QuietMove(s, s', u, i)
    ensures CallStep(s, s', u, Some(i), RouteOf(s.callers[u]))
  {
    hide Safe, SlotSafe;
    CallFacts(s, u);
    if RouteOf(s.callers[u]).Some? { QuietRetirer(s, u); }
  }

  lemma QuietRetirer(s: State, u: Caller)
    requires Safe(s) && u in s.callers && RouteOf(s.callers[u]).Some?
    ensures var r := s.callers[u].route; r < |s.routes| && (s.routes[r].retirer == None || s.routes[r].retirer == Some(u))
  {
    hide Safe;
    CallFacts(s, u);
    RouteFacts(s, s.callers[u].route);
  }

  lemma QuietRoute(s: State, s': State, u: Caller, i: nat, r: nat)
    requires Safe(s) && QuietMove(s, s', u, i) && RouteOf(s.callers[u]) == Some(r) && r < |s.routes|
    ensures RouteSafe(s', r)
  {
    hide Safe, Configure;
    CallFacts(s, u);
    RouteFacts(s, r);
    UsersSame(s.slots, s'.slots, r);
  }

  lemma QuietLine(s: State, s': State, u: Caller, i: nat, gsi: nat)
    requires Safe(s) && QuietMove(s, s', u, i) && gsi in s.apic
    ensures LineSafe(s', gsi)
  {
    hide Safe;
    LineFacts(s, gsi);
  }

  lemma QuietBound(s: State, s': State, u: Caller, i: nat, g: nat)
    requires Safe(s) && QuietMove(s, s', u, i) && g in s.bound
    ensures BoundSafe(s', g)
  {
    hide Safe;
    BoundFacts(s, g);
  }

  lemma QuietShape(s: State, s': State, u: Caller, i: nat)
    requires Safe(s) && QuietMove(s, s', u, i)
    ensures Distinct(s') && s'.unbound <= s'.bound.Keys
  {
    hide SlotSafe, CpuSafe, CallSafe, BoundSafe, RouteSafe, LineSafe;
  }

  lemma QuietSafe(s: State, s': State, u: Caller, i: nat)
    requires Safe(s) && QuietMove(s, s', u, i) && CallSafe(s', u) && SlotSafe(s', i)
    requires forall cpu :: cpu in s.cpus && !s.cpus[cpu].Outside? && s.cpus[cpu].slot == i ==> CpuSafe(s', cpu)
    ensures Safe(s')
  {
    hide Safe, SlotSafe, CpuSafe, CallSafe, BoundSafe, RouteSafe, LineSafe, Distinct, CallStep, SameCall, SameStanding;
    var r := RouteOf(s.callers[u]);
    QuietStep(s, s', u, i);
    QuietShape(s, s', u, i);
    StepBounds(s, s', u, Some(i), r);
    if r.Some? { QuietRoute(s, s', u, i, r.value); }
    forall gsi | gsi in s'.apic ensures LineSafe(s', gsi) { QuietLine(s, s', u, i, gsi); }
    forall g | g in s'.bound ensures BoundSafe(s', g) { QuietBound(s, s', u, i, g); }
    CallStepSafe(s, s', u, Some(i), r);
  }

  lemma StepBounds(s: State, s': State, u: Caller, i: Option<nat>, r: Option<nat>)
    requires CallStep(s, s', u, i, r)
    ensures OthersSame(s, s', u, i, r)
  {
  }

  /** The binding being made writes into a free slot, where nobody is admitted. */
  lemma BuildingSafe(s: State, u: Caller)
    requires Safe(s) && (CallOf(s, u).Naming? || CallOf(s, u).Passing?)
    ensures Safe(DoAdvance(s, u))
  {
    hide Safe, Insiders;
    CallFacts(s, u);
    var s', i := DoAdvance(s, u), s.callers[u].slot;
    SlotFacts(s, i);
    forall cpu | cpu in s.cpus && !s.cpus[cpu].Outside? && s.cpus[cpu].slot == i ensures CpuSafe(s', cpu) {
      CpuFacts(s, cpu);
    }
    QuietSafe(s, s', u, i);
  }

  /** Only the call itself changes; it stays responsible for the same route. */
  lemma CallOnlySafe(s: State, u: Caller, c: Call, lock: Option<Caller>)
    requires Safe(s) && !Tearing(CallOf(s, u)) && !Tearing(c)
    requires Building(CallOf(s, u)) ==> Building(c) && c.route == CallOf(s, u).route
    requires CallSafe(AtCall(s.(lock := lock), u, c), u)
    requires lock == s.lock || (s.lock == None && lock == Some(u))
    ensures Safe(AtCall(s.(lock := lock), u, c))
  {
    hide Safe, SlotSafe, CpuSafe, CallSafe, BoundSafe, LineSafe, Configure;
    var s', r := AtCall(s.(lock := lock), u, c), RouteOf(CallOf(s, u));
    if r.Some? {
      QuietRetirer(s, u);
      RouteFacts(s, r.value);
      LineOfRoute(s, s', r.value);
    }
    CallOnlyShape(s, u, c, lock);
    CallStepSafe(s, s', u, None, r);
  }

  lemma LineOfRoute(s: State, s': State, r: nat)
    requires Safe(s) && r < |s.routes| && s'.routes == s.routes && s'.apic == s.apic && s'.saved == s.saved && s'.baseline == s.baseline
    ensures forall gsi :: gsi in s'.apic ==> LineSafe(s', gsi)
  {
    forall gsi | gsi in s'.apic ensures LineSafe(s', gsi) { LineFacts(s, gsi); }
  }

  lemma CallOnlyShape(s: State, u: Caller, c: Call, lock: Option<Caller>)
    requires Safe(s)
    ensures Distinct(AtCall(s.(lock := lock), u, c)) && s.unbound <= s.bound.Keys
  {
    hide SlotSafe, CpuSafe, CallSafe, BoundSafe, RouteSafe, LineSafe;
  }

  lemma ScanSafe(s: State, u: Caller)
    requires Safe(s) && CallOf(s, u).Scanning? && CallOf(s, u).slot < |s.slots|
    ensures Safe(DoScan(s, u))
  {
    hide Safe;
    CallFacts(s, u);
    assert s.(lock := s.lock) == s;
    CallOnlySafe(s, u, DoScan(s, u).callers[u], s.lock);
  }

  /** Unbind sees nobody inside: the last filter it let in has returned. */
  lemma DrainedSafe(s: State, u: Caller)
    requires Safe(s) && CallOf(s, u).Waiting?
    ensures Safe(DoAdvance(s, u))
  {
    hide Safe;
    CallFacts(s, u);
    var s', i := DoAdvance(s, u), s.callers[u].slot;
    if s' != s {
      SlotFacts(s, i);
      assert Insiders(s.cpus, i) == {};
      forall cpu | cpu in s.cpus && !s.cpus[cpu].Outside? && s.cpus[cpu].slot == i ensures CpuSafe(s', cpu) {
        CpuFacts(s, cpu);
        assert InsideAt(s.cpus[cpu], i) ==> cpu in Insiders(s.cpus, i);
      }
      assert s.slots[i := s.slots[i]] == s.slots;
      QuietSafe(s, s', u, i);
    }
  }

  lemma TearingSafe(s: State, u: Caller)
    requires Safe(s) && (CallOf(s, u).Drained? || CallOf(s, u).Clearing? || CallOf(s, u).Wiping?)
    ensures Safe(DoAdvance(s, u))
  {
    hide Safe, Insiders;
    CallFacts(s, u);
    var s', i := DoAdvance(s, u), s.callers[u].slot;
    if s' != s {
      SlotFacts(s, i);
      forall cpu | cpu in s.cpus && !s.cpus[cpu].Outside? && s.cpus[cpu].slot == i ensures CpuSafe(s', cpu) {
        CpuFacts(s, cpu);
      }
      assert s.slots[i := s.slots[i]] == s.slots;
      QuietSafe(s, s', u, i);
    }
  }

  // ---- Starting to bind ----

  lemma StartBindSafe(s: State, u: Caller, c: Configuration, filter: Option<Filter>, context: Option<Context>)
    requires Safe(s)
    ensures Safe(DoStartBind(s, u, c, filter, context))
  {
    hide Safe;
    if DoStartBind(s, u, c, filter, context) != s {
      CallFacts(s, u);
      assert s.(lock := s.lock) == s;
      CallOnlySafe(s, u, Read(c, filter.value, context.value, s.apic[c.gsi]), s.lock);
    }
  }

  lemma RefusedSafe(s: State, u: Caller)
    requires Safe(s) && CallOf(s, u).Read?
    ensures Safe(AtCall(s, u, Resting))
  {
    hide Safe;
    CallFacts(s, u);
    assert s.(lock := s.lock) == s;
    CallOnlySafe(s, u, Resting, s.lock);
  }

  /** Joining a route that already serves the line. */
  lemma JoinSafe(s: State, u: Caller, r: nat)
    requires Safe(s) && CallOf(s, u).Read? && s.lock == None && r < |s.routes| && s.routes[r].active && !s.routes[r].retiring
    ensures Safe(AtCall(s.(lock := Some(u)), u, Scanning(CallOf(s, u).filter, CallOf(s, u).context, r, 0)))
  {
    hide Safe;
    CallFacts(s, u);
    CallOnlySafe(s, u, Scanning(CallOf(s, u).filter, CallOf(s, u).context, r, 0), Some(u));
  }

  /** A free place for a route of a line nobody serves. */
  predicate CanOpen(s: State, u: Caller, r: nat) {
    && CallOf(s, u).Read? && s.lock == None && r < |s.routes| && !s.routes[r].active
    && CallOf(s, u).configuration.gsi in s.apic && !Served(s, CallOf(s, u).configuration.gsi)
  }

  function Opened(s: State, u: Caller, r: nat): State
    requires CanOpen(s, u, r)
  {
    var call := CallOf(s, u);
    var c := call.configuration;
    AtCall(s.(routes := s.routes[r := Route(c, call.original, 0, true, false, None)],
              apic := s.apic[c.gsi := Configure(call.original, c, s.destination, true)],
              saved := s.saved[c.gsi := call.original], lock := Some(u)),
           u, Scanning(call.filter, call.context, r, 0))
  }

  lemma OpenedStep(s: State, u: Caller, r: nat)
    requires Safe(s) && CanOpen(s, u, r)
    ensures CallStep(s, Opened(s, u, r), u, None, Some(r))
  {
    hide Safe, Configure;
    RouteFacts(s, r);
    LineFacts(s, CallOf(s, u).configuration.gsi);
  }

  lemma OpenedRoute(s: State, u: Caller, r: nat)
    requires Safe(s) && CanOpen(s, u, r)
    ensures RouteSafe(Opened(s, u, r), r) && CallSafe(Opened(s, u, r), u)
  {
    hide Safe, Configure, Users;
    RouteFacts(s, r);
    LineFacts(s, CallOf(s, u).configuration.gsi);
  }

  lemma OpenedShape(s: State, u: Caller, r: nat)
    requires Safe(s) && CanOpen(s, u, r)
    ensures Distinct(Opened(s, u, r)) && s.unbound <= s.bound.Keys
  {
    hide SlotSafe, CpuSafe, CallSafe, BoundSafe, RouteSafe, LineSafe, Configure;
    var s', gsi := Opened(s, u, r), CallOf(s, u).configuration.gsi;
    forall q | 0 <= q < |s.routes| && q != r ensures !SameLine(s'.routes[q], s'.routes[r]) {
      assert Serves(s.routes[q], gsi) ==> Served(s, gsi);
    }
  }

  lemma OpenedLine(s: State, u: Caller, r: nat, gsi: nat)
    requires Safe(s) && CanOpen(s, u, r) && gsi in s.apic
    ensures LineSafe(Opened(s, u, r), gsi)
  {
    hide Safe, Configure;
    LineFacts(s, gsi);
    var s' := Opened(s, u, r);
    if Serves(s'.routes[r], gsi) {
      assert Served(s', gsi);
    } else if Served(s, gsi) {
      var q :| 0 <= q < |s.routes| && Serves(s.routes[q], gsi);
      assert Serves(s'.routes[q], gsi);
    }
  }

  lemma OpenSafe(s: State, u: Caller, r: nat)
    requires Safe(s) && CanOpen(s, u, r)
    ensures Safe(Opened(s, u, r))
  {
    hide Safe, SlotSafe, CpuSafe, CallSafe, BoundSafe, RouteSafe, LineSafe, Configure, CallStep, Distinct;
    var s' := Opened(s, u, r);
    OpenedStep(s, u, r);
    StepBounds(s, s', u, None, Some(r));
    OpenedRoute(s, u, r);
    OpenedShape(s, u, r);
    EmptyPlace(s, r);
    LineFacts(s, CallOf(s, u).configuration.gsi);
    forall gsi | gsi in s'.apic ensures LineSafe(s', gsi) { OpenedLine(s, u, r, gsi); }
    CallStepSafe(s, s', u, None, Some(r));
  }

  lemma EmptyPlace(s: State, r: nat)
    requires Safe(s) && r < |s.routes| && !s.routes[r].active
    ensures s.routes[r] == EMPTY_ROUTE && s.routes[r := EMPTY_ROUTE] == s.routes
  {
    RouteFacts(s, r);
  }

  function NotOpened(s: State, u: Caller, r: nat): State
    requires CanOpen(s, u, r)
  {
    var call := CallOf(s, u);
    AtCall(s.(routes := s.routes[r := EMPTY_ROUTE], apic := s.apic[call.configuration.gsi := call.original],
              saved := s.saved[call.configuration.gsi := call.original]), u, Resting)
  }

  lemma NotOpenedLine(s: State, u: Caller, r: nat, gsi: nat)
    requires Safe(s) && CanOpen(s, u, r) && gsi in s.apic
    ensures LineSafe(NotOpened(s, u, r), gsi)
  {
    hide Safe;
    EmptyPlace(s, r);
    LineFacts(s, gsi);
  }

  lemma NotOpenedStep(s: State, u: Caller, r: nat)
    requires Safe(s) && CanOpen(s, u, r)
    ensures CallStep(s, NotOpened(s, u, r), u, None, None) && CallSafe(NotOpened(s, u, r), u)
  {
    hide Safe, SlotSafe, CpuSafe, BoundSafe, RouteSafe;
    EmptyPlace(s, r);
    CallFacts(s, u);
    LineFacts(s, CallOf(s, u).configuration.gsi);
  }

  /** A failed read-back writes back the entry that was read, which need not be the one in place. */
  lemma NotOpenedSafe(s: State, u: Caller, r: nat)
    requires Safe(s) && CanOpen(s, u, r)
    ensures Safe(NotOpened(s, u, r))
  {
    hide Safe, SlotSafe, CpuSafe, CallSafe, BoundSafe, RouteSafe, LineSafe, CallStep, Distinct;
    var s' := NotOpened(s, u, r);
    EmptyPlace(s, r);
    LineFacts(s, CallOf(s, u).configuration.gsi);
    CallOnlyShape(s, u, Resting, s.lock);
    SameRoutesDistinct(s, s');
    NotOpenedStep(s, u, r);
    StepBounds(s, s', u, None, None);
    forall gsi | gsi in s'.apic ensures LineSafe(s', gsi) { NotOpenedLine(s, u, r, gsi); }
    CallStepSafe(s, s', u, None, None);
  }

  lemma SameRoutesDistinct(s: State, s': State)
    requires Safe(s) && s'.routes == s.routes
    ensures Distinct(s')
  {
    hide SlotSafe, CpuSafe, CallSafe, BoundSafe, RouteSafe, LineSafe;
  }

  lemma BindSafe(s: State, u: Caller, verified: bool)
    requires Safe(s)
    ensures Safe(DoBind(s, u, verified))
  {
    hide Safe, Configure;
    var call := CallOf(s, u);
    if call.Read? && s.lock == None && call.configuration.gsi in s.apic {
      var found := FindRoute(s.routes, call.configuration.gsi);
      if found < |s.routes| {
        if s.routes[found].retiring || !Shareable(s.routes[found].configuration, call.configuration) {
          RefusedSafe(s, u);
        } else {
          JoinSafe(s, u, found);
        }
      } else {
        var r := FreeRoute(s.routes);
        if r == |s.routes| {
          RefusedSafe(s, u);
        } else if verified {
          OpenSafe(s, u, r);
        } else {
          NotOpenedSafe(s, u, r);
        }
      }
    }
  }

  // ---- Counting the users of a route ----

  lemma UsersGain(slots: seq<Slot>, i: nat, slot: Slot, r: nat)
    requires i < |slots| && slots[i].phase != Live && slot.phase == Live
    ensures |Users(slots[i := slot], r)| == |Users(slots, r)| + (if slot.route == r then 1 else 0)
  {
    assert Users(slots[i := slot], r) == Users(slots, r) + (if slot.route == r then {i} else {});
  }

  lemma UsersLose(slots: seq<Slot>, i: nat, slot: Slot, r: nat)
    requires i < |slots| && slots[i].phase == Live && slot.phase != Live
    ensures |Users(slots[i := slot], r)| == |Users(slots, r)| - (if slots[i].route == r then 1 else 0)
  {
    assert Users(slots, r) == Users(slots[i := slot], r) + (if slots[i].route == r then {i} else {});
  }

  // ---- Publishing a slot ----

  lemma NewGeneration(s: State)
    requires Safe(s)
    ensures s.generation + 1 !in s.bound && s.generation + 1 !in s.unbound
  {
    if s.generation + 1 in s.bound {
      BoundFacts(s, s.generation + 1);
    }
  }

  lemma PublishStep(s: State, u: Caller)
    requires Safe(s) && CallOf(s, u).Publishing?
    ensures u in s.callers && CallSafe(s, u) && CallStep(s, DoPublish(s, u), u, Some(s.callers[u].slot), Some(s.callers[u].route))
  {
    hide Safe, Configure, SlotSafe;
    CallFacts(s, u);
    QuietRetirer(s, u);
    RouteFacts(s, s.callers[u].route);
    NewGeneration(s);
    FreeSlot(s, s.callers[u].slot);
  }

  lemma FreeSlot(s: State, i: nat)
    requires Safe(s) && i < |s.slots| && s.slots[i].phase == Free
    ensures s.slots[i].leaver == None
    ensures forall cpu :: cpu in s.cpus && !s.cpus[cpu].Outside? && s.cpus[cpu].slot == i ==> !IsAdmitted(s.cpus[cpu])
    ensures forall g :: g in s.bound && s.bound[g].slot == i ==> g in s.unbound
  {
    hide Safe;
    SlotFacts(s, i);
    forall cpu | cpu in s.cpus && !s.cpus[cpu].Outside? && s.cpus[cpu].slot == i ensures !IsAdmitted(s.cpus[cpu]) {
      CpuFacts(s, cpu);
    }
    forall g | g in s.bound && s.bound[g].slot == i ensures g in s.unbound {
      BoundFacts(s, g);
    }
  }

  lemma PublishSlot(s: State, u: Caller)
    requires Safe(s) && CallOf(s, u).Publishing? && u in s.callers && CallSafe(s, u)
    ensures SlotSafe(DoPublish(s, u), s.callers[u].slot) && CallSafe(DoPublish(s, u), u)
  {
    hide Safe, Insiders, Configure;
    SlotFacts(s, s.callers[u].slot);
    NewGeneration(s);
  }

  lemma PublishRoute(s: State, u: Caller)
    requires Safe(s) && CallOf(s, u).Publishing? && u in s.callers && CallSafe(s, u)
    ensures RouteSafe(DoPublish(s, u), s.callers[u].route)
  {
    hide Safe, Configure, Users, SlotSafe;
    var r, i := s.callers[u].route, s.callers[u].slot;
    RouteFacts(s, r);
    UsersGain(s.slots, i, DoPublish(s, u).slots[i], r);
  }

  lemma PublishBound(s: State, u: Caller, g: nat)
    requires Safe(s) && CallOf(s, u).Publishing? && u in s.callers && CallSafe(s, u) && g in DoPublish(s, u).bound
    requires forall h :: h in s.bound && s.bound[h].slot == s.callers[u].slot ==> h in s.unbound
    ensures BoundSafe(DoPublish(s, u), g)
  {
    hide Safe, Configure;
    if g in s.bound { BoundFacts(s, g); }
  }

  lemma PublishLines(s: State, u: Caller)
    requires Safe(s) && CallOf(s, u).Publishing? && u in s.callers && CallSafe(s, u)
    ensures var s', r := DoPublish(s, u), s.callers[u].route;
      && Distinct(s') && s'.unbound <= s'.bound.Keys
      && forall gsi :: gsi in s'.apic && (gsi !in s.apic || s'.apic[gsi] != s.apic[gsi] || Serves(s.routes[r], gsi) || Serves(s'.routes[r], gsi))
           ==> LineSafe(s', gsi)
  {
    hide SlotSafe, CpuSafe, BoundSafe, Configure;
    var s', r := DoPublish(s, u), s.callers[u].route;
    CallFacts(s, u);
    RouteFacts(s, r);
    assert Serves(s'.routes[r], s.routes[r].configuration.gsi);
  }

  lemma PublishSafe(s: State, u: Caller)
    requires Safe(s) && CallOf(s, u).Publishing?
    ensures Safe(DoPublish(s, u))
  {
    hide Safe, SlotSafe, CallSafe, BoundSafe, RouteSafe, LineSafe, Configure, CallStep, DoPublish, Distinct;
    PublishStep(s, u);
    var s', i, r := DoPublish(s, u), s.callers[u].slot, s.callers[u].route;
    PublishPlaces(s, u);
    FreeSlot(s, i);
    StepBounds(s, s', u, Some(i), Some(r));
    PublishSlot(s, u);
    PublishRoute(s, u);
    PublishLines(s, u);
    forall g | g in s'.bound ensures BoundSafe(s', g) { PublishBound(s, u, g); }
    forall cpu | cpu in s.cpus && !s.cpus[cpu].Outside? && s.cpus[cpu].slot == i ensures CpuSafe(s', cpu) { }
    CallStepSafe(s, s', u, Some(i), Some(r));
  }

  lemma PublishPlaces(s: State, u: Caller)
    requires u in s.callers && CallSafe(s, u) && s.callers[u].Publishing?
    ensures s.callers[u].slot < |s.slots| && s.callers[u].route < |s.routes| && s.slots[s.callers[u].slot].phase == Free
  {
  }

  // ---- Starting to unbind ----

  /** The unbound slot is one of its route's users. */
  lemma UserCounted(s: State, i: nat)
    requires Safe(s) && i < |s.slots| && s.slots[i].phase == Live
    ensures s.slots[i].route < |s.routes| && s.routes[s.slots[i].route].references > 0 && s.slots[i].leaver == None
    ensures s.routes[s.slots[i].route].active && s.routes[s.slots[i].route].retirer == None && RouteSafe(s, s.slots[i].route)
  {
    hide Safe;
    SlotFacts(s, i);
    RouteFacts(s, s.slots[i].route);
    assert i in Users(s.slots, s.slots[i].route);
  }

  ghost predicate Unbinds(s: State, u: Caller, h: Handle) {
    CallOf(s, u) == Resting && s.lock == None && Accepts(s, h)
  }

  lemma UnbindStep(s: State, u: Caller, h: Handle)
    requires Safe(s) && Unbinds(s, u, h)
    ensures CallStep(s, DoUnbind(s, u, h), u, Some(h.slot), Some(s.slots[h.slot].route))
  {
    hide Safe, Configure, SlotSafe, RouteSafe, DoUnbind, OthersSame, Entitled, LinesKept;
    UserCounted(s, h.slot);
    UnbindLineThere(s, h.slot);
    UnbindSame(s, u, h);
    UnbindTouches(s, u, h);
  }

  lemma UnbindSame(s: State, u: Caller, h: Handle)
    requires Unbinds(s, u, h) && s.routes[s.slots[h.slot].route].configuration.gsi in s.apic
    requires s.slots[h.slot].leaver == None && s.routes[s.slots[h.slot].route].retirer == None
    ensures var s' := DoUnbind(s, u, h);
      && OthersSame(s, s', u, Some(h.slot), Some(s.slots[h.slot].route)) && Entitled(s, s', u, Some(h.slot), Some(s.slots[h.slot].route))
      && s'.bound == s.bound && s'.unbound == s.unbound
  {
    hide Configure, Dereferenced;
  }

  lemma UnbindTouches(s: State, u: Caller, h: Handle)
    requires Unbinds(s, u, h) && s.routes[s.slots[h.slot].route].active
    ensures LinesKept(s, DoUnbind(s, u, h), Some(s.slots[h.slot].route))
  {
    hide Configure;
    var r := s.slots[h.slot].route;
    assert Serves(s.routes[r], s.routes[r].configuration.gsi);
  }

  lemma UnbindLineThere(s: State, i: nat)
    requires Safe(s) && i < |s.slots| && s.slots[i].phase == Live
    ensures s.slots[i].route < |s.routes| && s.routes[s.slots[i].route].configuration.gsi in s.apic
  {
    UserCounted(s, i);
  }

  lemma UnbindSlot(s: State, u: Caller, h: Handle)
    requires Safe(s) && Unbinds(s, u, h)
    ensures SlotSafe(DoUnbind(s, u, h), h.slot) && CallSafe(DoUnbind(s, u, h), u)
  {
    hide Safe, Insiders, Configure;
    SlotFacts(s, h.slot);
    UserCounted(s, h.slot);
    CallFacts(s, u);
  }

  lemma UnbindCpu(s: State, u: Caller, h: Handle, cpu: nat)
    requires Safe(s) && Unbinds(s, u, h) && cpu in s.cpus && !s.cpus[cpu].Outside? && s.cpus[cpu].slot == h.slot
    ensures CpuSafe(DoUnbind(s, u, h), cpu)
  {
    hide Safe, Configure;
    CpuFacts(s, cpu);
  }

  lemma UnbindBound(s: State, u: Caller, h: Handle, g: nat)
    requires Safe(s) && Unbinds(s, u, h) && g in s.bound
    ensures BoundSafe(DoUnbind(s, u, h), g)
  {
    hide Safe, Configure;
    BoundFacts(s, g);
  }

  lemma UnbindRoute(s: State, u: Caller, h: Handle)
    requires Safe(s) && Unbinds(s, u, h)
    ensures RouteSafe(DoUnbind(s, u, h), s.slots[h.slot].route)
  {
    hide Safe, Configure, Users, SlotSafe;
    UserCounted(s, h.slot);
    UsersLose(s.slots, h.slot, s.slots[h.slot].(phase := Draining, leaver := Some(u)), s.slots[h.slot].route);
  }

  lemma UnbindDistinct(s: State, u: Caller, h: Handle)
    requires Safe(s) && Unbinds(s, u, h)
    ensures var s' := DoUnbind(s, u, h); Distinct(s') && s'.unbound <= s'.bound.Keys && s'.bound == s.bound
  {
    hide SlotSafe, CpuSafe, CallSafe, BoundSafe, RouteSafe, LineSafe, Configure, Users;
  }

  lemma UnbindLines(s: State, u: Caller, h: Handle, gsi: nat)
    requires Safe(s) && Unbinds(s, u, h) && gsi in DoUnbind(s, u, h).apic
    requires var s', r := DoUnbind(s, u, h), s.slots[h.slot].route;
      r < |s.routes| == |s'.routes| && (gsi !in s.apic || s'.apic[gsi] != s.apic[gsi] || Serves(s.routes[r], gsi) || Serves(s'.routes[r], gsi))
    ensures LineSafe(DoUnbind(s, u, h), gsi)
  {
    hide Safe, RouteSafe, Configure, LineSafe;
    var s', r := DoUnbind(s, u, h), s.slots[h.slot].route;
    UserCounted(s, h.slot);
    UnbindLineThere(s, h.slot);
    LineFacts(s, s.routes[r].configuration.gsi);
    ServedLine(s, s', r, gsi);
  }

  /** A line that stays served. */
  lemma ServedLine(s: State, s': State, r: nat, gsi: nat)
    requires r < |s.routes| == |s'.routes| && gsi in s.apic && gsi in s'.apic && LineSafe(s, gsi) && s'.saved == s.saved && s'.baseline == s.baseline
    requires Serves(s'.routes[r], gsi)
    ensures LineSafe(s', gsi)
  {
  }

  lemma UnbindSafe(s: State, u: Caller, h: Handle)
    requires Safe(s)
    ensures Safe(DoUnbind(s, u, h))
  {
    hide Safe, SlotSafe, CpuSafe, CallSafe, BoundSafe, RouteSafe, LineSafe, Configure, CallStep, Distinct;
    if Unbinds(s, u, h) {
      var s', i, r := DoUnbind(s, u, h), h.slot, s.slots[h.slot].route;
      UnbindStep(s, u, h);
      StepBounds(s, s', u, Some(i), Some(r));
      UnbindSlot(s, u, h);
      UnbindRoute(s, u, h);
      UnbindDistinct(s, u, h);
      forall gsi | gsi in s'.apic && (gsi !in s.apic || s'.apic[gsi] != s.apic[gsi] || Serves(s.routes[r], gsi) || Serves(s'.routes[r], gsi))
        ensures LineSafe(s', gsi)
      {
        UnbindLines(s, u, h, gsi);
      }
      forall g | g in s'.bound ensures BoundSafe(s', g) { UnbindBound(s, u, h, g); }
      forall cpu | cpu in s.cpus && !s.cpus[cpu].Outside? && s.cpus[cpu].slot == i ensures CpuSafe(s', cpu) { UnbindCpu(s, u, h, cpu); }
      CallStepSafe(s, s', u, Some(i), Some(r));
    }
  }

  // ---- Ending an unbind ----

  lemma ReleaseStep(s: State, u: Caller)
    requires Safe(s) && CallOf(s, u).Releasing?
    ensures u in s.callers && CallSafe(s, u) && CallStep(s, DoRelease(s, u), u, Some(s.callers[u].slot), RouteOf(s.callers[u]))
  {
    hide Safe, SlotSafe;
    CallFacts(s, u);
    ReleasedSlot(s, u);
    if s.callers[u].retire {
      QuietRetirer(s, u);
      RouteFacts(s, s.callers[u].route);
    }
  }

  lemma ReleasedSlot(s: State, u: Caller)
    requires Safe(s) && CallOf(s, u).Releasing? && u in s.callers && CallSafe(s, u)
    ensures s.callers[u].slot < |s.slots| && Taken(s, s.callers[u].slot)
    ensures forall cpu :: cpu in s.cpus && !s.cpus[cpu].Outside? && s.cpus[cpu].slot == s.callers[u].slot ==> !IsAdmitted(s.cpus[cpu])
  {
    hide Safe, Insiders;
    var i := s.callers[u].slot;
    SlotFacts(s, i);
    forall cpu | cpu in s.cpus && !s.cpus[cpu].Outside? && s.cpus[cpu].slot == i ensures !IsAdmitted(s.cpus[cpu]) {
      CpuFacts(s, cpu);
    }
  }

  lemma ReleaseSlot(s: State, u: Caller)
    requires Safe(s) && CallOf(s, u).Releasing? && u in s.callers && CallSafe(s, u)
    ensures SlotSafe(DoRelease(s, u), s.callers[u].slot) && CallSafe(DoRelease(s, u), u)
  {
    hide Safe, Insiders;
    SlotFacts(s, s.callers[u].slot);
  }

  lemma ReleaseBound(s: State, u: Caller, g: nat)
    requires Safe(s) && CallOf(s, u).Releasing? && u in s.callers && CallSafe(s, u) && g in s.bound
    ensures BoundSafe(DoRelease(s, u), g)
  {
    hide Safe, Insiders;
    ReleasedSlot(s, u);
    BoundFacts(s, g);
  }

  lemma ReleaseRoute(s: State, u: Caller)
    requires Safe(s) && CallOf(s, u).Releasing? && u in s.callers && CallSafe(s, u) && s.callers[u].retire
    ensures RouteSafe(DoRelease(s, u), s.callers[u].route)
  {
    hide Safe, Configure, Users, SlotSafe;
    var r := s.callers[u].route;
    RouteFacts(s, r);
    UsersSame(s.slots, DoRelease(s, u).slots, r);
  }

  lemma ReleaseLines(s: State, u: Caller)
    requires Safe(s) && CallOf(s, u).Releasing? && u in s.callers && CallSafe(s, u)
    ensures var s', r := DoRelease(s, u), RouteOf(s.callers[u]);
      && Distinct(s') && s'.unbound <= s'.bound.Keys && s'.bound == s.bound && (r.Some? ==> r.value < |s.routes| == |s'.routes|)
      && forall gsi :: gsi in s'.apic && (gsi !in s.apic || s'.apic[gsi] != s.apic[gsi]
                                          || (r.Some? && (Serves(s.routes[r.value], gsi) || Serves(s'.routes[r.value], gsi))))
           ==> LineSafe(s', gsi)
  {
    hide SlotSafe, CpuSafe, BoundSafe;
    ReleasedSlot(s, u);
    if s.callers[u].retire {
      RouteFacts(s, s.callers[u].route);
    }
  }

  lemma ReleaseSafe(s: State, u: Caller)
    requires Safe(s) && CallOf(s, u).Releasing?
    ensures Safe(DoRelease(s, u))
  {
    hide Safe, SlotSafe, CallSafe, BoundSafe, RouteSafe, LineSafe, CallStep, DoRelease, Distinct;
    ReleaseStep(s, u);
    var s', i, r := DoRelease(s, u), s.callers[u].slot, RouteOf(s.callers[u]);
    ReleasedSlot(s, u);
    StepBounds(s, s', u, Some(i), r);
    ReleaseSlot(s, u);
    if s.callers[u].retire { ReleaseRoute(s, u); }
    ReleaseLines(s, u);
    forall g | g in s'.bound ensures BoundSafe(s', g) { ReleaseBound(s, u, g); }
    CallStepSafe(s, s', u, Some(i), r);
  }

  // ---- Giving up a bind ----

  lemma GiveUpStep(s: State, u: Caller)
    requires Safe(s) && CallOf(s, u).Scanning? && CallOf(s, u).slot >= |s.slots|
    ensures u in s.callers && CallSafe(s, u) && CallStep(s, DoScan(s, u), u, None, Some(s.callers[u].route))
  {
    hide Safe;
    CallFacts(s, u);
    QuietRetirer(s, u);
    RouteFacts(s, s.callers[u].route);
  }

  lemma GiveUpRoute(s: State, u: Caller)
    requires Safe(s) && CallOf(s, u).Scanning? && CallOf(s, u).slot >= |s.slots| && u in s.callers && CallSafe(s, u)
    ensures RouteSafe(DoScan(s, u), s.callers[u].route) && CallSafe(DoScan(s, u), u)
  {
    hide Safe, Users, Configure;
    RouteFacts(s, s.callers[u].route);
  }

  lemma GiveUpLines(s: State, u: Caller)
    requires Safe(s) && CallOf(s, u).Scanning? && CallOf(s, u).slot >= |s.slots| && u in s.callers && CallSafe(s, u)
    ensures var s', r := DoScan(s, u), s.callers[u].route;
      && Distinct(s') && s'.unbound <= s'.bound.Keys && s'.bound == s.bound
      && forall gsi :: gsi in s'.apic && (gsi !in s.apic || s'.apic[gsi] != s.apic[gsi] || Serves(s.routes[r], gsi) || Serves(s'.routes[r], gsi))
           ==> LineSafe(s', gsi)
  {
    hide SlotSafe, CpuSafe, BoundSafe;
    RouteFacts(s, s.callers[u].route);
  }

  lemma GiveUpSafe(s: State, u: Caller)
    requires Safe(s) && CallOf(s, u).Scanning? && CallOf(s, u).slot >= |s.slots|
    ensures Safe(DoScan(s, u))
  {
    hide Safe, SlotSafe, CallSafe, BoundSafe, RouteSafe, LineSafe, CallStep, DoScan, Distinct;
    GiveUpStep(s, u);
    var s', r := DoScan(s, u), s.callers[u].route;
    StepBounds(s, s', u, None, Some(r));
    GiveUpRoute(s, u);
    GiveUpLines(s, u);
    CallStepSafe(s, s', u, None, Some(r));
  }

  // ---- Every run ----

  lemma AdvanceSafe(s: State, u: Caller)
    requires Safe(s)
    ensures Safe(DoAdvance(s, u))
  {
    hide Safe, DoScan, DoPublish, DoRelease;
    var c := CallOf(s, u);
    if c.Publishing? {
      PublishSafe(s, u);
    } else if c.Releasing? {
      ReleaseSafe(s, u);
    } else if c.Scanning? {
      if c.slot >= |s.slots| { GiveUpSafe(s, u); } else { ScanSafe(s, u); }
    } else if c.Naming? || c.Passing? {
      BuildingSafe(s, u);
    } else if c.Waiting? {
      DrainedSafe(s, u);
    } else if Tearing(c) {
      TearingSafe(s, u);
    }
  }

  lemma SectionSafe(s: State, a: Action)
    requires Safe(s)
    ensures Safe(Apply(s, a))
  {
    hide Safe, DoStartBind, DoBind, DoUnbind, DoAdvance, DoPeek, DoDispatch;
    match a
    case StartBind(u, c, filter, context) => StartBindSafe(s, u, c, filter, context);
    case Bind(u, verified) => BindSafe(s, u, verified);
    case Unbind(u, h) => UnbindSafe(s, u, h);
    case Advance(u) => AdvanceSafe(s, u);
    case Peek(cpu, i) => PeekSafe(s, cpu, i);
    case Step(cpu) => StepSafe(s, cpu);
  }

  lemma InitialSafe(apic: map<nat, Word>, destination: bv8)
    ensures Safe(Initial(apic, destination))
  {
    hide Configure;
    var s := Initial(apic, destination);
    forall r | 0 <= r < |s.routes| ensures RouteSafe(s, r) {
      assert Users(s.slots, r) == {};
    }
    forall i | 0 <= i < |s.slots| ensures SlotSafe(s, i) {
      assert Insiders(s.cpus, i) == {};
    }
  }

  lemma {:induction false} RunsSafe(s: State, run: seq<Action>)
    requires Safe(s)
    ensures Safe(Run(s, run))
    decreases |run|
  {
    hide Safe, Apply;
    if run != [] {
      SectionSafe(s, run[0]);
      RunsSafe(Apply(s, run[0]), run[1..]);
    }
  }
}
