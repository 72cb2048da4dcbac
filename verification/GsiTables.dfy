/** The route and binding tables as the kernel updates them in place. */
module GsiTables {
  import opened FileBytes
  import opened GsiRouting

  datatype Status = Success | InvalidArgument | GsiUnavailable | ConfigurationConflict | ResourceUnavailable | RouteFailure
                  | OwnershipMismatch

  /** The state after `n` more steps of the call. */
  function Advanced(s: State, u: Caller, n: nat): State {
    if n == 0 then s else DoAdvance(Advanced(s, u, n - 1), u)
  }

  /** The scan of `AllocateGSIBinding` has reached slot `i`. */
  function AtSlot(m: State, u: Caller, i: nat): State
    requires CallOf(m, u).Scanning?
  {
    AtCall(m, u, Scanning(CallOf(m, u).filter, CallOf(m, u).context, CallOf(m, u).route, i))
  }

  /** What the four steps from the scan to the end of Bind amount to. */
  function Published(m: State, u: Caller, i: nat): State
    requires CallOf(m, u).Scanning? && i < |m.slots| && CallOf(m, u).route < |m.routes|
  {
    var Scanning(filter, context, r, _) := CallOf(m, u);
    var route, g := m.routes[r], m.generation + 1;
    Return(m.(generation := g,
              slots := m.slots[i := m.slots[i].(filter := Some(filter), context := context, phase := Live, generation := g, route := r)],
              routes := m.routes[r := route.(references := route.references + 1)],
              apic := m.apic[route.configuration.gsi := Configure(route.original, route.configuration, m.destination, false)],
              bound := m.bound[g := Binding(i, filter, context)]), u)
  }

  /** What the last three steps of Unbind amount to. */
  function Emptied(s: State, u: Caller): State
    requires CallOf(s, u).Clearing? && CallOf(s, u).slot < |s.slots| && CallOf(s, u).route < |s.routes|
  {
    var Clearing(r, i, retire) := CallOf(s, u);
    Return(s.(slots := s.slots[i := Slot(None, 0, s.slots[i].dispatching, Free, 0, 0, None)],
              unbound := s.unbound + {s.slots[i].generation},
              apic := if retire then Restored(s, r) else s.apic,
              routes := if retire then s.routes[r := EMPTY_ROUTE] else s.routes), u)
  }

  lemma BindTail(m: State, u: Caller, i: nat)
    requires CallOf(m, u).Scanning? && i < |m.slots| && CallOf(m, u).route < |m.routes|
    requires m.slots[i].phase == Free && m.slots[i].dispatching == 0
    ensures DoAdvance(DoAdvance(DoAdvance(DoAdvance(AtSlot(m, u, i), u), u), u), u) == Published(m, u, i)
  {
    hide Configure;
    var Scanning(filter, context, r, _) := CallOf(m, u);
    var s0 := AtSlot(m, u, i);
    var s1 := AtCall(m, u, Naming(filter, context, r, i));
    NamingStep(m, u, i);
    var s2 := AtCall(m.(slots := m.slots[i := m.slots[i].(filter := Some(filter))]), u, Passing(filter, context, r, i));
    assert m.callers[u := Naming(filter, context, r, i)][u := Passing(filter, context, r, i)] == s2.callers;
    assert DoAdvance(s1, u) == s2;
    var s3 := AtCall(m.(slots := m.slots[i := m.slots[i].(filter := Some(filter), context := context)]), u, Publishing(filter, context, r, i));
    assert s2.callers[u := Publishing(filter, context, r, i)] == s3.callers;
    assert DoAdvance(s2, u) == s3;
    PublishingStep(m, u, i, s3);
  }

  lemma NamingStep(m: State, u: Caller, i: nat)
    requires CallOf(m, u).Scanning? && i < |m.slots| && m.slots[i].phase == Free && m.slots[i].dispatching == 0
    ensures DoAdvance(AtSlot(m, u, i), u) == AtCall(m, u, Naming(CallOf(m, u).filter, CallOf(m, u).context, CallOf(m, u).route, i))
  {
    var c := Naming(CallOf(m, u).filter, CallOf(m, u).context, CallOf(m, u).route, i);
    assert AtSlot(m, u, i).callers[u := c] == m.callers[u := c];
  }

  lemma PublishingStep(m: State, u: Caller, i: nat, s: State)
    requires CallOf(m, u).Scanning? && i < |m.slots| && CallOf(m, u).route < |m.routes|
    requires var Scanning(filter, context, r, _) := CallOf(m, u);
      s == AtCall(m.(slots := m.slots[i := m.slots[i].(filter := Some(filter), context := context)]), u, Publishing(filter, context, r, i))
    ensures DoAdvance(s, u) == Published(m, u, i)
  {
    hide Configure;
    assert s.callers[u := Resting] == m.callers[u := Resting];
  }

  lemma UnbindTail(s: State, u: Caller)
    requires CallOf(s, u).Clearing? && CallOf(s, u).slot < |s.slots| && CallOf(s, u).route < |s.routes|
    ensures Advanced(s, u, 3) == Emptied(s, u)
  {
    hide DoAdvance, Emptied;
    assert Advanced(s, u, 1) == DoAdvance(s, u);
    assert Advanced(s, u, 2) == DoAdvance(DoAdvance(s, u), u);
    WipeSteps(s, u);
    ReleaseStep(s, u);
  }

  /** The filter and the context are gone, the slot is not yet free. */
  function Wiped(s: State, u: Caller): State
    requires CallOf(s, u).Clearing? && CallOf(s, u).slot < |s.slots|
  {
    var Clearing(r, i, retire) := CallOf(s, u);
    AtCall(s.(slots := s.slots[i := s.slots[i].(filter := None, context := 0)]), u, Releasing(r, i, retire))
  }

  lemma WipeSteps(s: State, u: Caller)
    requires CallOf(s, u).Clearing? && CallOf(s, u).slot < |s.slots|
    ensures DoAdvance(DoAdvance(s, u), u) == Wiped(s, u)
  {
    hide DoRelease, DoScan, DoPublish;
    var Clearing(r, i, retire) := CallOf(s, u);
    var s1 := AtCall(s.(slots := s.slots[i := s.slots[i].(filter := None)]), u, Wiping(r, i, retire));
    assert DoAdvance(s, u) == s1;
    assert s1.callers[u := Releasing(r, i, retire)] == s.callers[u := Releasing(r, i, retire)];
  }

  lemma ReleaseStep(s: State, u: Caller)
    requires CallOf(s, u).Clearing? && CallOf(s, u).slot < |s.slots| && CallOf(s, u).route < |s.routes|
    ensures DoAdvance(Wiped(s, u), u) == Emptied(s, u)
  {
    hide DoScan, DoPublish;
    assert Wiped(s, u).callers[u := Resting] == s.callers[u := Resting];
  }

  class Tables {
    const routes: array<Route>
    const slots: array<Slot>
    const destination: bv8
    var apic: map<nat, Word>
    var generation: nat

    constructor (apic: map<nat, Word>, destination: bv8)
      ensures Shows(Initial(apic, destination)) && fresh(routes) && fresh(slots)
    {
      routes := new Route[ROUTE_CAPACITY](_ => EMPTY_ROUTE);
      slots := new Slot[BINDING_CAPACITY](_ => EMPTY_SLOT);
      this.apic, this.destination, generation := apic, destination, 0;
    }

    /** The tables hold what the state says. */
    ghost predicate Shows(s: State)
      reads this, routes, slots
    {
      routes[..] == s.routes && slots[..] == s.slots && apic == s.apic && generation == s.generation
      && destination == s.destination
    }

    method FindGsi(gsi: nat) returns (r: nat)
      ensures r == FindRoute(routes[..], gsi)
    {
      r := 0;
      while r < routes.Length
        invariant r <= routes.Length && FindRoute(routes[..], gsi, r) == FindRoute(routes[..], gsi)
      {
        if routes[r].active && routes[r].configuration.gsi == gsi {
          return;
        }
        r := r + 1;
      }
    }

    method AllocateRoute() returns (r: nat)
      ensures r == FreeRoute(routes[..])
    {
      r := 0;
      while r < routes.Length
        invariant r <= routes.Length && FreeRoute(routes[..], r) == FreeRoute(routes[..])
      {
        if !routes[r].active {
          return;
        }
        r := r + 1;
      }
    }

    /** `AllocateGSIBinding`, turn by turn with the scan of the model. */
    method AllocateBinding(ghost m: State, ghost u: Caller) returns (i: nat)
      requires Shows(m) && CallOf(m, u).Scanning? && CallOf(m, u).slot == 0
      ensures i <= slots.Length
      ensures Advanced(m, u, i) == AtSlot(m, u, i)
      ensures i < slots.Length ==> slots[i].phase == Free && slots[i].dispatching == 0
      ensures forall k :: 0 <= k < i ==> slots[k].phase != Free || slots[k].dispatching > 0
    {
      hide DoAdvance;
      i := 0;
      AtFirstSlot(m, u);
      while i < slots.Length
        invariant i <= slots.Length && Advanced(m, u, i) == AtSlot(m, u, i)
        invariant forall k :: 0 <= k < i ==> slots[k].phase != Free || slots[k].dispatching > 0
      {
        if slots[i].phase == Free && slots[i].dispatching == 0 {
          return;
        }
        ScanTurn(m, u, i);
        i := i + 1;
      }
    }

    /** The unlocked start of `BindACPIGSI`: the argument tests and the read of the entry. */
    method ReadEntry(ghost s: State, ghost u: Caller, c: Configuration, filter: Option<Filter>, context: Option<Context>)
      returns (status: Status, original: Word)
      requires Shows(s) && CallOf(s, u) == Resting
      ensures Shows(DoStartBind(s, u, c, filter, context))
      ensures status.Success? ==> filter.Some? && context.Some?
      ensures CallOf(DoStartBind(s, u, c, filter, context), u) ==
        if status.Success? then Read(c, filter.value, context.value, original) else Resting
    {
      if filter.None? || context.None? {
        return InvalidArgument, 0;
      }
      if c.gsi !in apic {
        return GsiUnavailable, 0;
      }
      return Success, apic[c.gsi];
    }

    /** The part of `BindACPIGSI` that finds or opens the route, with the entry read before, possibly long ago. */
    method OpenRoute(ghost s: State, ghost u: Caller, c: Configuration, original: Word, verified: bool) returns (status: Status, r: nat)
      requires Shows(s) && s.lock == None && CallOf(s, u).Read? && CallOf(s, u).configuration == c && CallOf(s, u).original == original
      requires c.gsi in apic
      modifies this`apic, routes
      ensures Shows(DoBind(s, u, verified))
      ensures status.Success? ==> r < routes.Length
      ensures CallOf(DoBind(s, u, verified), u) ==
        if status.Success? then Scanning(CallOf(s, u).filter, CallOf(s, u).context, r, 0) else Resting
      ensures status.Success? && FindRoute(old(routes[..]), c.gsi) == routes.Length ==>
        Masked(apic[c.gsi]) && Delivers(apic[c.gsi], c, destination)
    {
      ConfigureSetsFields(original, c, destination, true);
      hide Configure, DoBind, FindRoute, FreeRoute;
      r := FindGsi(c.gsi);
      if r < routes.Length {
        JoinSpelled(s, u, verified);
        status := if routes[r].retiring || !Shareable(routes[r].configuration, c) then ConfigurationConflict else Success;
        return;
      }
      r := AllocateRoute();
      if r == routes.Length {
        JoinSpelled(s, u, verified);
        return ResourceUnavailable, r;
      }
      OpenSpelled(s, u, verified);
      routes[r] := Route(c, original, 0, true, false, None);
      apic := apic[c.gsi := Configure(original, c, destination, true)];
      status := Success;
      if !verified {
        apic := apic[c.gsi := original];
        routes[r] := EMPTY_ROUTE;
        status := RouteFailure;
      }
    }

    // ---- The steps of Bind under the lock, from whatever dispatch has left meanwhile ----

    /** One turn of the scan for a slot. */
    method ScanSlot(ghost m: State, ghost u: Caller, i: nat) returns (found: bool)
      requires Shows(m) && CallOf(m, u).Scanning? && CallOf(m, u).slot == i < slots.Length
      ensures Shows(DoAdvance(m, u))
      ensures var Scanning(filter, context, r, _) := CallOf(m, u);
        CallOf(DoAdvance(m, u), u) == if found then Naming(filter, context, r, i) else Scanning(filter, context, r, i + 1)
    {
      found := slots[i].phase == Free && slots[i].dispatching == 0;
    }

    method NameSlot(ghost m: State, ghost u: Caller, filter: Filter, i: nat)
      requires Shows(m) && CallOf(m, u).Naming? && CallOf(m, u).filter == filter && CallOf(m, u).slot == i < slots.Length
      modifies slots
      ensures Shows(DoAdvance(m, u))
      ensures CallOf(DoAdvance(m, u), u) == Passing(filter, CallOf(m, u).context, CallOf(m, u).route, i)
    {
      slots[i] := slots[i].(filter := Some(filter));
    }

    method PassContext(ghost m: State, ghost u: Caller, context: Context, i: nat)
      requires Shows(m) && CallOf(m, u).Passing? && CallOf(m, u).context == context && CallOf(m, u).slot == i < slots.Length
      modifies slots
      ensures Shows(DoAdvance(m, u))
      ensures CallOf(DoAdvance(m, u), u) == Publishing(CallOf(m, u).filter, context, CallOf(m, u).route, i)
    {
      slots[i] := slots[i].(context := context);
    }

    /** The slot goes live and the line is unmasked; the handle is one Unbind accepts. */
    method PublishSlot(ghost m: State, ghost u: Caller, i: nat, r: nat) returns (handle: Handle)
      requires Shows(m) && CallOf(m, u).Publishing? && CallOf(m, u).slot == i < slots.Length && CallOf(m, u).route == r < routes.Length
      modifies this, routes, slots
      ensures Shows(DoAdvance(m, u)) && CallOf(DoAdvance(m, u), u) == Resting && DoAdvance(m, u).lock == None
      ensures Accepts(DoAdvance(m, u), handle) && handle == Handle(i, m.generation + 1)
      ensures var c := routes[r].configuration; c.gsi in apic && !Masked(apic[c.gsi]) && Delivers(apic[c.gsi], c, destination)
    {
      hide Configure, Masked, Delivers;
      ConfigureSetsFields(routes[r].original, routes[r].configuration, destination, false);
      generation := generation + 1;
      slots[i] := slots[i].(generation := generation, route := r, phase := Live);
      routes[r] := routes[r].(references := routes[r].references + 1);
      apic := apic[routes[r].configuration.gsi :=
        Configure(routes[r].original, routes[r].configuration, destination, false)];
      handle := Handle(i, generation);
    }

    /** The rest of `BindACPIGSI` under the lock, with nobody dispatching meanwhile. */
    method Bind(ghost m: State, ghost u: Caller, filter: Filter, context: Context, r: nat)
      returns (status: Status, handle: Handle, ghost steps: nat)
      requires Shows(m) && CallOf(m, u) == Scanning(filter, context, r, 0) && r < routes.Length
      modifies this, routes, slots
      ensures var s' := Advanced(m, u, steps);
        && Shows(s') && CallOf(s', u) == Resting && s'.lock == None
        && (status.Success? ==> Accepts(s', handle) && handle.generation == m.generation + 1)
        && (!status.Success? ==> s'.bound == m.bound)
      ensures status.Success? ==>
        var c := routes[r].configuration; c.gsi in apic && !Masked(apic[c.gsi]) && Delivers(apic[c.gsi], c, destination)
    {
      hide Configure, DoAdvance, Masked, Delivers;
      ConfigureSetsFields(routes[r].original, routes[r].configuration, destination, false);
      handle, steps := Handle(0, 0), 0;
      var i := AllocateBinding(m, u);
      if i == slots.Length {
        if routes[r].references == 0 {
          apic := apic[routes[r].configuration.gsi := routes[r].original];
          routes[r] := EMPTY_ROUTE;
        }
        GaveUp(m, u, i);
        return ResourceUnavailable, handle, i + 1;
      }
      slots[i] := slots[i].(filter := Some(filter));
      slots[i] := slots[i].(context := context);
      generation := generation + 1;
      slots[i] := slots[i].(generation := generation, route := r, phase := Live);
      routes[r] := routes[r].(references := routes[r].references + 1);
      apic := apic[routes[r].configuration.gsi :=
        Configure(routes[r].original, routes[r].configuration, destination, false)];
      status, handle, steps := Success, Handle(i, generation), i + 4;
      FourSteps(m, u, i);
      BindTail(m, u, i);
    }

    /** The first locked section of `UnbindACPIGSI`; `caller` is only recorded. */
    method BeginUnbind(ghost s: State, caller: Caller, handle: Handle) returns (status: Status, r: nat, retire: bool)
      requires Shows(s) && s.lock == None && CallOf(s, caller) == Resting
      modifies this`apic, routes, slots
      ensures Shows(DoUnbind(s, caller, handle))
      ensures status == if Accepts(s, handle) then Success else OwnershipMismatch
      ensures status.Success? ==> CallOf(DoUnbind(s, caller, handle), caller) == Waiting(r, handle.slot, retire)
      ensures status.Success? && retire ==> r < routes.Length && routes[r].configuration.gsi in apic
      ensures status.Success? && retire ==> Masked(apic[routes[r].configuration.gsi])
    {
      hide Configure, DoUnbind, Dereferenced, Masked, Delivers;
      r, retire := 0, false;
      UnbindSpelled(s, caller, handle);
      if handle.slot >= slots.Length || slots[handle.slot].phase != Live
         || slots[handle.slot].generation != handle.generation || slots[handle.slot].route >= routes.Length {
        return OwnershipMismatch, r, retire;
      }
      r := slots[handle.slot].route;
      slots[handle.slot] := slots[handle.slot].(phase := Draining, leaver := Some(caller));
      if routes[r].references > 0 {
        routes[r] := routes[r].(references := routes[r].references - 1);
      }
      retire := routes[r].references == 0;
      if retire {
        routes[r] := routes[r].(retiring := true, retirer := Some(caller));
        apic := apic[routes[r].configuration.gsi :=
          Configure(routes[r].original, routes[r].configuration, destination, true)];
        ConfigureSetsFields(routes[r].original, routes[r].configuration, destination, true);
      }
      status := Success;
    }

    /** The last locked section of `UnbindACPIGSI`: three steps, once the slot is drained and the lock taken. */
    method EndUnbind(ghost s: State, ghost u: Caller, i: nat, r: nat, retire: bool)
      requires Shows(s) && CallOf(s, u) == Clearing(r, i, retire) && i < slots.Length && r < routes.Length
      modifies this`apic, routes, slots
      ensures Shows(Advanced(s, u, 3)) && CallOf(Advanced(s, u, 3), u) == Resting && Advanced(s, u, 3).lock == None
      ensures Advanced(s, u, 3).unbound == s.unbound + {s.slots[i].generation}
    {
      hide Advanced;
      slots[i] := slots[i].(filter := None);
      slots[i] := slots[i].(context := 0);
      slots[i] := slots[i].(generation := 0, route := 0, phase := Free, leaver := None);
      if retire {
        apic := apic[routes[r].configuration.gsi := routes[r].original];
        routes[r] := EMPTY_ROUTE;
      }
      UnbindTail(s, u);
    }
  }

  /** The first section of Bind on a line with a route, table by table. */
  lemma JoinSpelled(s: State, u: Caller, verified: bool)
    requires s.lock == None && CallOf(s, u).Read? && CallOf(s, u).configuration.gsi in s.apic
    requires FindRoute(s.routes, CallOf(s, u).configuration.gsi) < |s.routes| || FreeRoute(s.routes) == |s.routes|
    ensures var s', call := DoBind(s, u, verified), CallOf(s, u);
      var found := FindRoute(s.routes, call.configuration.gsi);
      && s' == s.(lock := s'.lock, callers := s'.callers)
      && CallOf(s', u) ==
         if found == |s.routes| || s.routes[found].retiring || !Shareable(s.routes[found].configuration, call.configuration) then Resting
         else Scanning(call.filter, call.context, found, 0)
  {
    hide Configure, FindRoute, FreeRoute;
  }

  /** And on a line without one. */
  lemma OpenSpelled(s: State, u: Caller, verified: bool)
    requires s.lock == None && CallOf(s, u).Read? && CallOf(s, u).configuration.gsi in s.apic
    requires FindRoute(s.routes, CallOf(s, u).configuration.gsi) == |s.routes| && FreeRoute(s.routes) < |s.routes|
    ensures var s', call := DoBind(s, u, verified), CallOf(s, u);
      var c, r := call.configuration, FreeRoute(s.routes);
      && s'.slots == s.slots && s'.generation == s.generation && s'.destination == s.destination
      && s'.routes == s.routes[r := if verified then Route(c, call.original, 0, true, false, None) else EMPTY_ROUTE]
      && s'.apic == s.apic[c.gsi := if verified then Configure(call.original, c, s.destination, true) else call.original]
      && CallOf(s', u) == if verified then Scanning(call.filter, call.context, r, 0) else Resting
  {
    hide Configure, FindRoute, FreeRoute;
  }

  /** The first section of Unbind, table by table. */
  lemma UnbindSpelled(s: State, u: Caller, h: Handle)
    requires s.lock == None && CallOf(s, u) == Resting
    ensures !Accepts(s, h) ==> DoUnbind(s, u, h) == s
    ensures Accepts(s, h) ==>
      var s', slot := DoUnbind(s, u, h), s.slots[h.slot];
      var route := s.routes[slot.route];
      var retire := route.references <= 1;
      && s'.slots == s.slots[h.slot := slot.(phase := Draining, leaver := Some(u))]
      && s'.routes == s.routes[slot.route := if retire then route.(references := 0, retiring := true, retirer := Some(u))
                                             else route.(references := route.references - 1)]
      && s'.apic == (if !retire then s.apic
                     else s.apic[route.configuration.gsi := Configure(route.original, route.configuration, s.destination, true)])
      && s'.generation == s.generation && s'.destination == s.destination
      && CallOf(s', u) == Waiting(slot.route, h.slot, retire)
  {
    hide Configure;
  }

  lemma AtFirstSlot(m: State, u: Caller)
    requires CallOf(m, u).Scanning? && CallOf(m, u).slot == 0
    ensures AtSlot(m, u, 0) == m
  {
    assert m.callers[u := m.callers[u]] == m.callers;
  }

  lemma ScanTurn(m: State, u: Caller, i: nat)
    requires CallOf(m, u).Scanning? && i < |m.slots| && (m.slots[i].phase != Free || m.slots[i].dispatching > 0)
    ensures DoAdvance(AtSlot(m, u, i), u) == AtSlot(m, u, i + 1)
  {
    assert AtSlot(m, u, i).callers[u := AtSlot(m, u, i + 1).callers[u]] == AtSlot(m, u, i + 1).callers;
  }

  lemma GaveUp(m: State, u: Caller, i: nat)
    requires CallOf(m, u).Scanning? && i == |m.slots| && Advanced(m, u, i) == AtSlot(m, u, i) && CallOf(m, u).route < |m.routes|
    ensures var r := CallOf(m, u).route;
      Advanced(m, u, i + 1) ==
        if m.routes[r].references == 0 then Return(m.(apic := Restored(m, r), routes := m.routes[r := EMPTY_ROUTE]), u)
        else Return(m, u)
  {
    assert Advanced(m, u, i + 1) == DoScan(AtSlot(m, u, i), u);
    assert AtSlot(m, u, i).callers[u := Resting] == m.callers[u := Resting];
  }

  lemma FourSteps(m: State, u: Caller, n: nat)
    ensures Advanced(m, u, n + 4) == DoAdvance(DoAdvance(DoAdvance(DoAdvance(Advanced(m, u, n), u), u), u), u)
  {
    hide DoAdvance;
    assert Advanced(m, u, n + 4) == DoAdvance(Advanced(m, u, n + 3), u);
    assert Advanced(m, u, n + 3) == DoAdvance(Advanced(m, u, n + 2), u);
    assert Advanced(m, u, n + 2) == DoAdvance(Advanced(m, u, n + 1), u);
  }
}
