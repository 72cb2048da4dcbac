/**
 The ACPI interrupt routing of `mecocoa/devsman-acpi-gsi.cpp` as an interleaving state machine.

 Any number of callers run `BindACPIGSI` and `UnbindACPIGSI`, and any number of processors run
 `DispatchACPIGSIBinding` against them. `lock` is who holds `acpi_GSI_lock`. The atomics and the two fields dispatch
 reads without a lock (`filter`, `context`) are written in separate steps; what only the lock holder can
 see (routes, the I/O APIC, the generation) changes together with the step that ends the section.
 */
module GsiRouting {
  import opened FileBytes

  type Word = bv64
  type Filter = nat
  type Context = nat

  const ROUTE_CAPACITY: nat := 16
  const BINDING_CAPACITY: nat := 32
  const VECTOR: Word := 0xA0

  datatype Configuration = Configuration(gsi: nat, levelTriggered: bool, activeLow: bool, shareable: bool)

  type Caller = nat

  /** `retirer` records which Unbind is retiring the route. */
  datatype Route = Route(configuration: Configuration, original: Word, references: nat, active: bool, retiring: bool,
                         retirer: Option<Caller>)

  const EMPTY_ROUTE := Route(Configuration(0, false, false, false), 0, 0, false, false, None)

  /** The values 0, 1 and 2 of a slot's `active` field. */
  datatype Phase = Free | Live | Draining

  /** `leaver` records which Unbind is draining the slot. */
  datatype Slot = Slot(filter: Option<Filter>, context: Context, dispatching: nat, phase: Phase, generation: nat, route: nat,
                       leaver: Option<Caller>)

  const EMPTY_SLOT := Slot(None, 0, 0, Free, 0, 0, None)

  /** What a successful Bind was asked for; `slot` is where it put it. */
  datatype Binding = Binding(slot: nat, filter: Filter, context: Context)

  datatype Handle = Handle(slot: nat, generation: nat)

  /**
   How far a call is inside Bind (`Read` to `Publishing`) or Unbind (`Waiting` to `Releasing`). `original` is the
   redirection entry Bind read before it took the lock.
   */
  datatype Call =
    | Resting
    | Read(configuration: Configuration, filter: Filter, context: Context, original: Word)
    | Scanning(filter: Filter, context: Context, route: nat, slot: nat)
    | Naming(filter: Filter, context: Context, route: nat, slot: nat)
    | Passing(filter: Filter, context: Context, route: nat, slot: nat)
    | Publishing(filter: Filter, context: Context, route: nat, slot: nat)
    | Waiting(route: nat, slot: nat, retire: bool)
    | Drained(route: nat, slot: nat, retire: bool)
    | Clearing(route: nat, slot: nat, retire: bool)
    | Wiping(route: nat, slot: nat, retire: bool)
    | Releasing(route: nat, slot: nat, retire: bool)

  /** How far a processor is inside `DispatchACPIGSIBinding`; `generation` records the binding it was admitted to. */
  datatype Dispatch =
    | Outside
    | Seen(slot: nat)
    | Entered(slot: nat)
    | Admitted(slot: nat, generation: nat)
    | Named(slot: nat, generation: nat, filter: Filter)
    | Calling(slot: nat, generation: nat, filter: Filter, context: Context)
    | Leaving(slot: nat)

  /**
   `apic` holds the redirection entries; `baseline` is what they held before any binding. `bound` and
   `unbound` record, by generation, the bindings made and those whose Unbind has returned; `saved`, for each line, the
   entry that the call which last opened a route on it had read.
   */
  datatype State = State(
    routes: seq<Route>,
    slots: seq<Slot>,
    apic: map<nat, Word>,
    generation: nat,
    lock: Option<Caller>,
    callers: map<Caller, Call>,
    cpus: map<nat, Dispatch>,
    baseline: map<nat, Word>,
    destination: bv8,
    bound: map<nat, Binding>,
    unbound: set<nat>,
    saved: map<nat, Word>)

  // ---- Redirection entries ----

  const CONFIGURATION_MASK: Word := 0xFF00_0000_0001_AFFF

  /** Vector, polarity, trigger, mask and destination; `destination` is already in its field. */
  function Overlay(entry: Word, activeLow: bool, levelTriggered: bool, destination: Word, masked: bool): Word {
    (entry & !CONFIGURATION_MASK) | VECTOR | destination
    | (if activeLow then 0x2000 else 0) | (if levelTriggered then 0x8000 else 0) | (if masked then 0x1_0000 else 0)
  }

  function Configure(entry: Word, c: Configuration, destination: bv8, masked: bool): Word {
    Overlay(entry, c.activeLow, c.levelTriggered, (destination as Word) << 56, masked)
  }

  // ---- The fields of section 3.2.4 of the Intel 82093AA data sheet ----

  /** Bit 16. */
  predicate Masked(entry: Word) {
    entry & 0x1_0000 != 0
  }

  /**
   Bits 0 to 11 hold the vector 0xA0 and fixed delivery in physical mode, bit 13 the polarity, bit 15 the trigger mode and
   bits 56 to 63 the destination.
   */
  predicate Delivers(entry: Word, c: Configuration, destination: bv8) {
    && entry & 0xFFF == 0xA0
    && (entry & 0x2000 != 0 <==> c.activeLow)
    && (entry & 0x8000 != 0 <==> c.levelTriggered)
    && entry >> 56 == destination as Word
  }

  lemma OverlayFields(entry: Word, activeLow: bool, levelTriggered: bool, destination: Word, masked: bool)
    requires destination & 0x00FF_FFFF_FFFF_FFFF == 0
    ensures var r := Overlay(entry, activeLow, levelTriggered, destination, masked);
      && r & 0xFFF == 0xA0 && (r & 0x2000 != 0 <==> activeLow) && (r & 0x8000 != 0 <==> levelTriggered)
      && (r & 0x1_0000 != 0 <==> masked) && r & 0xFF00_0000_0000_0000 == destination
  {
  }

  lemma HighByte(entry: Word, destination: bv8)
    requires entry & 0xFF00_0000_0000_0000 == (destination as Word) << 56
    ensures entry >> 56 == destination as Word
  {
  }

  /** A configured entry has the mask bit exactly when asked for, and delivers as the configuration says. */
  lemma ConfigureSetsFields(entry: Word, c: Configuration, destination: bv8, masked: bool)
    ensures Masked(Configure(entry, c, destination, masked)) <==> masked
    ensures Delivers(Configure(entry, c, destination, masked), c, destination)
  {
    DestinationField(destination);
    OverlayFields(entry, c.activeLow, c.levelTriggered, (destination as Word) << 56, masked);
    HighByte(Configure(entry, c, destination, masked), destination);
  }

  lemma DestinationField(destination: bv8)
    ensures ((destination as Word) << 56) & 0x00FF_FFFF_FFFF_FFFF == 0
  {
  }

  /** Reconfiguring an entry touches only the fields of section 3.2.4 of the Intel 82093AA data sheet. */
  lemma ConfigureKeepsOtherBits(entry: Word, c: Configuration, destination: bv8, masked: bool)
    ensures Configure(entry, c, destination, masked) & !CONFIGURATION_MASK == entry & !CONFIGURATION_MASK
  {
    DestinationField(destination);
    OverlayKeepsOtherBits(entry, c.activeLow, c.levelTriggered, (destination as Word) << 56, masked);
  }

  lemma OverlayKeepsOtherBits(entry: Word, activeLow: bool, levelTriggered: bool, destination: Word, masked: bool)
    requires destination & 0x00FF_FFFF_FFFF_FFFF == 0
    ensures Overlay(entry, activeLow, levelTriggered, destination, masked) & !CONFIGURATION_MASK == entry & !CONFIGURATION_MASK
  {
  }

  // ---- Scans ----

  predicate SameConfiguration(left: Configuration, right: Configuration) {
    left.gsi == right.gsi && left.levelTriggered == right.levelTriggered && left.activeLow == right.activeLow
  }

  predicate Shareable(existing: Configuration, requested: Configuration) {
    SameConfiguration(existing, requested) && existing.shareable && requested.shareable
  }

  predicate Serves(route: Route, gsi: nat) {
    route.active && route.configuration.gsi == gsi
  }

  /** `FindGSI`: the first active route of the line, or the capacity. */
  function FindRoute(routes: seq<Route>, gsi: nat, from: nat := 0): (r: nat)
    requires from <= |routes|
    ensures from <= r <= |routes| && (r < |routes| ==> Serves(routes[r], gsi))
    ensures forall k :: from <= k < r ==> !Serves(routes[k], gsi)
    decreases |routes| - from
  {
    if from == |routes| || Serves(routes[from], gsi) then from else FindRoute(routes, gsi, from + 1)
  }

  /** `AllocateGSIRoute`: the first inactive route, or the capacity. */
  function FreeRoute(routes: seq<Route>, from: nat := 0): (r: nat)
    requires from <= |routes|
    ensures from <= r <= |routes| && (r < |routes| ==> !routes[r].active)
    ensures forall k :: from <= k < r ==> routes[k].active
    decreases |routes| - from
  {
    if from == |routes| || !routes[from].active then from else FreeRoute(routes, from + 1)
  }

  // ---- Bind ----

  function CallOf(s: State, u: Caller): Call {
    if u in s.callers then s.callers[u] else Resting
  }

  function AtCall(s: State, u: Caller, c: Call): State {
    s.(callers := s.callers[u := c])
  }

  /** The argument tests and the unlocked read of the redirection entry. */
  function DoStartBind(s: State, u: Caller, c: Configuration, filter: Option<Filter>, context: Option<Context>): State {
    if CallOf(s, u) != Resting || filter.None? || context.None? || c.gsi !in s.apic then s
    else AtCall(s, u, Read(c, filter.value, context.value, s.apic[c.gsi]))
  }

  /** Under the lock: the route and the masked entry; `verified` is the read-back of the first write. */
  function DoBind(s: State, u: Caller, verified: bool): State {
    var call := CallOf(s, u);
    if !call.Read? || s.lock.Some? || call.configuration.gsi !in s.apic then s
    else
      var c := call.configuration;
      var found := FindRoute(s.routes, c.gsi);
      if found < |s.routes| then
        if s.routes[found].retiring || !Shareable(s.routes[found].configuration, c) then AtCall(s, u, Resting)
        else AtCall(s.(lock := Some(u)), u, Scanning(call.filter, call.context, found, 0))
      else
        var r := FreeRoute(s.routes);
        var saved := s.saved[c.gsi := call.original];
        if r == |s.routes| then AtCall(s, u, Resting)
        else if !verified then
          AtCall(s.(routes := s.routes[r := EMPTY_ROUTE], apic := s.apic[c.gsi := call.original], saved := saved), u, Resting)
        else
          AtCall(s.(routes := s.routes[r := Route(c, call.original, 0, true, false, None)],
                    apic := s.apic[c.gsi := Configure(call.original, c, s.destination, true)],
                    saved := saved, lock := Some(u)),
                 u, Scanning(call.filter, call.context, r, 0))
  }

  /** The entry the route saved is put back. */
  function Restored(s: State, r: nat): map<nat, Word>
    requires r < |s.routes|
  {
    s.apic[s.routes[r].configuration.gsi := s.routes[r].original]
  }

  /** The call returns and lets the lock go. */
  function Return(s: State, u: Caller): State {
    AtCall(s.(lock := None), u, Resting)
  }

  /** One turn of `AllocateGSIBinding`; past the last slot Bind gives up. */
  function DoScan(s: State, u: Caller): State
    requires CallOf(s, u).Scanning?
  {
    var Scanning(filter, context, r, i) := CallOf(s, u);
    if i >= |s.slots| then
      if r < |s.routes| && s.routes[r].references == 0 then
        Return(s.(apic := Restored(s, r), routes := s.routes[r := EMPTY_ROUTE]), u)
      else Return(s, u)
    else if s.slots[i].phase == Free && s.slots[i].dispatching == 0 then AtCall(s, u, Naming(filter, context, r, i))
    else AtCall(s, u, Scanning(filter, context, r, i + 1))
  }

  /** The slot goes live, the route gains a reference and the line is unmasked. */
  function DoPublish(s: State, u: Caller): State
    requires CallOf(s, u).Publishing?
  {
    var Publishing(filter, context, r, i) := CallOf(s, u);
    if i >= |s.slots| || r >= |s.routes| then s
    else
      var route := s.routes[r];
      var generation := s.generation + 1;
      Return(s.(generation := generation,
                slots := s.slots[i := s.slots[i].(generation := generation, route := r, phase := Live)],
                routes := s.routes[r := route.(references := route.references + 1)],
                apic := s.apic[route.configuration.gsi := Configure(route.original, route.configuration, s.destination, false)],
                bound := s.bound[generation := Binding(i, filter, context)]), u)
  }

  // ---- Unbind ----

  predicate Accepts(s: State, h: Handle) {
    h.slot < |s.slots| && s.slots[h.slot].phase == Live && s.slots[h.slot].generation == h.generation
    && s.slots[h.slot].route < |s.routes|
  }

  /** A route that loses a reference; with the last one it begins to retire. */
  function Dereferenced(route: Route, u: Caller): Route {
    if route.references > 1 then route.(references := route.references - 1)
    else route.(references := 0, retiring := true, retirer := Some(u))
  }

  /** The first locked section: the slot stops admitting, the route loses a reference. */
  function DoUnbind(s: State, u: Caller, h: Handle): State {
    if CallOf(s, u) != Resting || s.lock.Some? || !Accepts(s, h) then s
    else
      var r := s.slots[h.slot].route;
      var route, retire := s.routes[r], s.routes[r].references <= 1;
      AtCall(s.(slots := s.slots[h.slot := s.slots[h.slot].(phase := Draining, leaver := Some(u))],
                routes := s.routes[r := Dereferenced(route, u)],
                apic := if !retire then s.apic
                        else s.apic[route.configuration.gsi := Configure(route.original, route.configuration, s.destination, true)]),
             u, Waiting(r, h.slot, retire))
  }

  /** The last locked section's end: the slot is free again and Unbind returns. */
  function DoRelease(s: State, u: Caller): State
    requires CallOf(s, u).Releasing?
  {
    var Releasing(r, i, retire) := CallOf(s, u);
    if i >= |s.slots| || r >= |s.routes| then s
    else
      Return(s.(slots := s.slots[i := s.slots[i].(phase := Free, generation := 0, route := 0, leaver := None)],
                unbound := s.unbound + {s.slots[i].generation},
                apic := if retire then Restored(s, r) else s.apic,
                routes := if retire then s.routes[r := EMPTY_ROUTE] else s.routes), u)
  }

  /** The call's next step. */
  function DoAdvance(s: State, u: Caller): State {
    match CallOf(s, u)
    case Resting => s
    case Read(_, _, _, _) => s
    case Scanning(_, _, _, _) => DoScan(s, u)
    case Naming(filter, context, r, i) =>
      if i >= |s.slots| then s
      else AtCall(s.(slots := s.slots[i := s.slots[i].(filter := Some(filter))]), u, Passing(filter, context, r, i))
    case Passing(filter, context, r, i) =>
      if i >= |s.slots| then s
      else AtCall(s.(slots := s.slots[i := s.slots[i].(context := context)]), u, Publishing(filter, context, r, i))
    case Publishing(_, _, _, _) => DoPublish(s, u)
    case Waiting(r, i, retire) =>
      if i >= |s.slots| || s.slots[i].dispatching > 0 then s else AtCall(s, u, Drained(r, i, retire))
    case Drained(r, i, retire) => if s.lock.Some? then s else AtCall(s.(lock := Some(u)), u, Clearing(r, i, retire))
    case Clearing(r, i, retire) =>
      if i >= |s.slots| then s
      else AtCall(s.(slots := s.slots[i := s.slots[i].(filter := None)]), u, Wiping(r, i, retire))
    case Wiping(r, i, retire) =>
      if i >= |s.slots| then s
      else AtCall(s.(slots := s.slots[i := s.slots[i].(context := 0)]), u, Releasing(r, i, retire))
    case Releasing(_, _, _) => DoRelease(s, u)
  }

  // ---- Dispatch ----

  function DispatchOf(s: State, cpu: nat): Dispatch {
    if cpu in s.cpus then s.cpus[cpu] else Outside
  }

  function AtCpu(s: State, cpu: nat, d: Dispatch): State {
    s.(cpus := s.cpus[cpu := d])
  }

  function Counted(s: State, i: nat, dispatching: nat): State
    requires i < |s.slots|
  {
    s.(slots := s.slots[i := s.slots[i].(dispatching := dispatching)])
  }

  /** The first look at `active`. */
  function DoPeek(s: State, cpu: nat, i: nat): State {
    if DispatchOf(s, cpu) != Outside || i >= |s.slots| || s.slots[i].phase != Live then s
    else AtCpu(s, cpu, Seen(i))
  }

  /** The processor's next step inside dispatch. */
  function DoDispatch(s: State, cpu: nat): State {
    var d := DispatchOf(s, cpu);
    if d.Outside? || d.slot >= |s.slots| then s
    else
      var slot := s.slots[d.slot];
      match d
      case Seen(i) => AtCpu(Counted(s, i, slot.dispatching + 1), cpu, Entered(i))
      case Entered(i) => AtCpu(s, cpu, if slot.phase == Live then Admitted(i, slot.generation) else Leaving(i))
      case Admitted(i, g) => AtCpu(s, cpu, if slot.filter.Some? then Named(i, g, slot.filter.value) else Leaving(i))
      case Named(i, g, filter) => AtCpu(s, cpu, Calling(i, g, filter, slot.context))
      case Calling(i, _, _, _) => AtCpu(s, cpu, Leaving(i))
      case Leaving(i) =>
        if slot.dispatching == 0 then s else AtCpu(Counted(s, i, slot.dispatching - 1), cpu, Outside)
  }

  datatype Action =
    | StartBind(caller: Caller, configuration: Configuration, filter: Option<Filter>, context: Option<Context>)
    | Bind(caller: Caller, verified: bool)
    | Unbind(caller: Caller, handle: Handle)
    | Advance(caller: Caller)
    | Peek(cpu: nat, slot: nat)
    | Step(cpu: nat)

  function Apply(s: State, a: Action): State {
    match a
    case StartBind(u, c, filter, context) => DoStartBind(s, u, c, filter, context)
    case Bind(u, verified) => DoBind(s, u, verified)
    case Unbind(u, h) => DoUnbind(s, u, h)
    case Advance(u) => DoAdvance(s, u)
    case Peek(cpu, i) => DoPeek(s, cpu, i)
    case Step(cpu) => DoDispatch(s, cpu)
  }

  function Run(s: State, run: seq<Action>): State
    decreases |run|
  {
    if run == [] then s else Run(Apply(s, run[0]), run[1..])
  }

  function Initial(apic: map<nat, Word>, destination: bv8): State {
    State(seq(ROUTE_CAPACITY, _ => EMPTY_ROUTE), seq(BINDING_CAPACITY, _ => EMPTY_SLOT), apic, 0, None, map[], map[],
          apic, destination, map[], {}, apic)
  }
}
