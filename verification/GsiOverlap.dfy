/** Calls on the same line that overlap: what a stale read of the redirection entry leads to. */
module GsiOverlap {
  import opened FileBytes
  import opened GsiRouting
  import opened GsiTheorems
  import opened GsiTables

  // ---- Calls nobody disturbs ----

  predicate Idle(slot: Slot) {
    slot.phase == Free && slot.dispatching == 0
  }

  /** The call holds an entry it read and the line has no route; `r` and `i` are the route and the slot Bind will take. */
  predicate Opens(s: State, u: Caller, r: nat, i: nat) {
    && CallOf(s, u).Read? && s.lock == None && CallOf(s, u).configuration.gsi in s.apic
    && FindRoute(s.routes, CallOf(s, u).configuration.gsi) == |s.routes|
    && r == FreeRoute(s.routes) < |s.routes|
    && i < |s.slots| && Idle(s.slots[i]) && forall k :: 0 <= k < i ==> !Idle(s.slots[k])
  }

  /** The tables after a first Bind on the line. */
  predicate Carries(s: State, s': State, u: Caller, read: Call, r: nat, i: nat)
    requires r < |s.routes| && i < |s.slots| && read.Read?
  {
    && s'.routes == s.routes[r := Route(read.configuration, read.original, 1, true, false, None)]
    && s'.slots == s.slots[i := s.slots[i].(filter := Some(read.filter), context := read.context, phase := Live,
                                            generation := s.generation + 1, route := r)]
    && s'.apic == s.apic[read.configuration.gsi := Configure(read.original, read.configuration, s.destination, false)]
    && s'.callers == s.callers[u := Resting]
    && s'.generation == s.generation + 1 && s'.lock == None && s'.destination == s.destination && s'.baseline == s.baseline
  }

  /** The first section of a Bind that opens the line. */
  function Begun(s: State, u: Caller, r: nat): State
    requires CallOf(s, u).Read? && r < |s.routes|
  {
    var Read(c, filter, context, original) := CallOf(s, u);
    AtCall(s.(routes := s.routes[r := Route(c, original, 0, true, false, None)],
              apic := s.apic[c.gsi := Configure(original, c, s.destination, true)],
              saved := s.saved[c.gsi := original], lock := Some(u)),
           u, Scanning(filter, context, r, 0))
  }

  lemma BindBegins(s: State, u: Caller, r: nat, i: nat)
    requires Opens(s, u, r, i)
    ensures DoBind(s, u, true) == Begun(s, u, r)
  {
    hide Configure, FindRoute, FreeRoute;
  }

  lemma BindEnds(s: State, u: Caller, r: nat, i: nat)
    requires Opens(s, u, r, i)
    ensures Carries(s, Published(Begun(s, u, r), u, i), u, CallOf(s, u), r, i)
  {
    hide Configure, FindRoute, FreeRoute;
    var m := Begun(s, u, r);
    assert m.callers[u := Resting] == s.callers[u := Resting];
    assert m.slots == s.slots;
    var c, original := CallOf(s, u).configuration, CallOf(s, u).original;
    assert m.routes[r := Route(c, original, 1, true, false, None)] == s.routes[r := Route(c, original, 1, true, false, None)];
  }

  /** The scan passes over the slots in use. */
  lemma {:induction false} ScanTo(m: State, u: Caller, i: nat)
    requires CallOf(m, u).Scanning? && CallOf(m, u).slot == 0 && i <= |m.slots|
    requires forall k :: 0 <= k < i ==> !Idle(m.slots[k])
    ensures Advanced(m, u, i) == AtSlot(m, u, i)
  {
    hide DoAdvance, AtSlot;
    if i == 0 {
      AtFirstSlot(m, u);
    } else {
      ScanTo(m, u, i - 1);
      ScanTurn(m, u, i - 1);
    }
  }

  lemma BindThrough(s: State, u: Caller, r: nat, i: nat)
    requires Opens(s, u, r, i)
    ensures Carries(s, Advanced(DoBind(s, u, true), u, i + 4), u, CallOf(s, u), r, i)
  {
    hide Carries, DoAdvance, Published, Configure, FindRoute, FreeRoute, DoBind;
    var m := Begun(s, u, r);
    BindBegins(s, u, r, i);
    ScanTo(m, u, i);
    FourSteps(m, u, i);
    BindTail(m, u, i);
    BindEnds(s, u, r, i);
  }

  /** The only binding of its line, with nobody inside. */
  predicate Closes(s: State, u: Caller, r: nat, i: nat) {
    && CallOf(s, u) == Resting && s.lock == None
    && r < |s.routes| && s.routes[r].references == 1
    && i < |s.slots| && s.slots[i].phase == Live && s.slots[i].dispatching == 0 && s.slots[i].route == r
  }

  /** The tables after the last Unbind on the line. */
  predicate Clears(s: State, s': State, u: Caller, r: nat, i: nat)
    requires r < |s.routes| && i < |s.slots|
  {
    && s'.routes == s.routes[r := EMPTY_ROUTE]
    && s'.slots == s.slots[i := EMPTY_SLOT]
    && s'.apic == s.apic[s.routes[r].configuration.gsi := s.routes[r].original]
    && s'.callers == s.callers[u := Resting]
    && s'.generation == s.generation && s'.lock == None && s'.destination == s.destination && s'.baseline == s.baseline
  }

  /** Unbind up to the last locked section. */
  function Drainable(s: State, u: Caller, r: nat, i: nat): State
    requires Closes(s, u, r, i)
  {
    var route := s.routes[r];
    AtCall(s.(slots := s.slots[i := s.slots[i].(phase := Draining, leaver := Some(u))],
              routes := s.routes[r := route.(references := 0, retiring := true, retirer := Some(u))],
              apic := s.apic[route.configuration.gsi := Configure(route.original, route.configuration, s.destination, true)]),
           u, Waiting(r, i, true))
  }

  function LastSection(s: State, u: Caller, r: nat, i: nat): State
    requires Closes(s, u, r, i)
  {
    AtCall(Drainable(s, u, r, i).(lock := Some(u)), u, Clearing(r, i, true))
  }

  lemma UnbindBegins(s: State, u: Caller, r: nat, i: nat)
    requires Closes(s, u, r, i)
    ensures DoUnbind(s, u, Handle(i, s.slots[i].generation)) == Drainable(s, u, r, i)
  {
    hide Configure;
  }

  lemma UnbindWaits(s: State, u: Caller, r: nat, i: nat)
    requires Closes(s, u, r, i)
    ensures DoAdvance(DoAdvance(Drainable(s, u, r, i), u), u) == LastSection(s, u, r, i)
  {
    hide Configure, DoScan, DoPublish, DoRelease;
    var m := Drainable(s, u, r, i);
    var m1 := AtCall(m, u, Drained(r, i, true));
    assert DoAdvance(m, u) == m1;
    assert m1.callers[u := Clearing(r, i, true)] == m.callers[u := Clearing(r, i, true)];
  }

  lemma UnbindEnds(s: State, u: Caller, r: nat, i: nat)
    requires Closes(s, u, r, i)
    ensures Clears(s, Emptied(LastSection(s, u, r, i), u), u, r, i)
  {
    hide Configure;
    var gsi := s.routes[r].configuration.gsi;
    var m := LastSection(s, u, r, i);
    assert m.callers[u := Resting] == s.callers[u := Resting];
    assert m.apic[gsi := s.routes[r].original] == s.apic[gsi := s.routes[r].original];
  }

  lemma {:induction false} AdvancedTwice(s: State, u: Caller, n: nat)
    ensures Advanced(s, u, n + 2) == Advanced(DoAdvance(DoAdvance(s, u), u), u, n)
  {
    hide DoAdvance;
    if n == 0 {
      assert Advanced(s, u, 1) == DoAdvance(s, u);
    } else {
      AdvancedTwice(s, u, n - 1);
      assert Advanced(s, u, n + 2) == DoAdvance(Advanced(s, u, n + 1), u);
    }
  }

  lemma UnbindThrough(s: State, u: Caller, r: nat, i: nat)
    requires Closes(s, u, r, i)
    ensures Clears(s, Advanced(DoUnbind(s, u, Handle(i, s.slots[i].generation)), u, 5), u, r, i)
  {
    hide Clears, DoAdvance, DoUnbind, Emptied, Advanced, Configure;
    UnbindBegins(s, u, r, i);
    AdvancedTwice(Drainable(s, u, r, i), u, 3);
    UnbindWaits(s, u, r, i);
    UnbindTail(LastSection(s, u, r, i), u);
    UnbindEnds(s, u, r, i);
  }

  // ---- A stale read ----

  /** The whole Bind, into slot `i`, of a caller that read its entry earlier. */
  function BoundThrough(s: State, u: Caller, i: nat): State {
    Advanced(DoBind(s, u, true), u, i + 4)
  }

  /** The whole Unbind of the binding in slot `i`. */
  function UnboundThrough(s: State, u: Caller, i: nat, generation: nat): State {
    Advanced(DoUnbind(s, u, Handle(i, generation)), u, 5)
  }

  lemma Returned(s: State, u: Caller, r: nat, i: nat)
    requires Opens(s, u, r, i)
    ensures BoundThrough(s, u, i).callers == s.callers[u := Resting]
  {
    hide Advanced, Opens, DoBind, Configure;
    BindThrough(s, u, r, i);
  }

  /** Others may read the entry meanwhile, but nothing else happens. */
  predicate OnlyReads(s: State, s': State, u: Caller) {
    s' == s.(callers := s'.callers) && CallOf(s', u) == Resting
  }

  /**
   Whatever else is bound, a Bind on a line without route and its Unbind leave the entry that Bind read, whether or not
   it was still in place when Bind wrote; the route and the slot they used are empty again and nothing else has changed.
   */
  lemma LeavesWhatItRead(s: State, u: Caller, r: nat, i: nat, m: State)
    requires Opens(s, u, r, i) && OnlyReads(BoundThrough(s, u, i), m, u)
    ensures m.apic == s.apic[CallOf(s, u).configuration.gsi :=
      Configure(CallOf(s, u).original, CallOf(s, u).configuration, s.destination, false)]
    ensures var s' := UnboundThrough(m, u, i, s.generation + 1);
      && s'.routes == s.routes[r := EMPTY_ROUTE] && s'.slots == s.slots[i := EMPTY_SLOT] && s'.lock == None
      && s'.apic == s.apic[CallOf(s, u).configuration.gsi := CallOf(s, u).original]
      && s'.callers == m.callers[u := Resting] && s'.destination == s.destination && s'.generation == s.generation + 1
  {
    hide Advanced, DoBind, DoUnbind, Configure, FindRoute, FreeRoute;
    BindThrough(s, u, r, i);
    var c, original := CallOf(s, u).configuration, CallOf(s, u).original;
    UnbindThrough(m, u, r, i);
    assert m.routes[r := EMPTY_ROUTE] == s.routes[r := EMPTY_ROUTE];
    assert m.slots[i := EMPTY_SLOT] == s.slots[i := EMPTY_SLOT];
    assert m.apic[c.gsi := original] == s.apic[c.gsi := original];
  }

  /** Nothing is bound and nobody holds the lock. */
  predicate Blank(s: State) {
    s.routes == seq(ROUTE_CAPACITY, _ => EMPTY_ROUTE) && s.slots == seq(BINDING_CAPACITY, _ => EMPTY_SLOT) && s.lock == None
  }

  lemma BlankOpens(s: State, u: Caller)
    requires Blank(s) && CallOf(s, u).Read? && CallOf(s, u).configuration.gsi in s.apic
    ensures Opens(s, u, 0, 0)
  {
  }

  lemma BlankAgain(s: State)
    requires Blank(s)
    ensures s.routes[0 := EMPTY_ROUTE] == s.routes && s.slots[0 := EMPTY_SLOT] == s.slots
  {
  }

  /** The second caller has read the entry while the first one's binding was in place; that one is gone again. */
  function StaleRead(apic: map<nat, Word>, destination: bv8, c: Configuration): State {
    var started := DoStartBind(Initial(apic, destination), 0, c, Some(1), Some(1));
    UnboundThrough(DoStartBind(BoundThrough(started, 0, 0), 1, c, Some(2), Some(2)), 0, 0, 1)
  }

  /** And now the second caller binds and unbinds. */
  function PutBack(apic: map<nat, Word>, destination: bv8, c: Configuration): State {
    UnboundThrough(BoundThrough(StaleRead(apic, destination, c), 1, 0), 1, 0, 2)
  }

  lemma StaleReadHolds(apic: map<nat, Word>, destination: bv8, c: Configuration)
    requires c.gsi in apic
    ensures var s := StaleRead(apic, destination, c);
      && Blank(s) && s.apic == apic && s.destination == destination && s.generation == 1
      && s.callers == map[0 := Resting, 1 := Read(c, 2, 2, Configure(apic[c.gsi], c, destination, false))]
  {
    hide BoundThrough, UnboundThrough, Configure, Opens;
    var started := DoStartBind(Initial(apic, destination), 0, c, Some(1), Some(1));
    BlankOpens(started, 0);
    BlankAgain(started);
    Returned(started, 0, 0, 0);
    var m := DoStartBind(BoundThrough(started, 0, 0), 1, c, Some(2), Some(2));
    LeavesWhatItRead(started, 0, 0, 0, m);
    assert apic[c.gsi := apic[c.gsi]] == apic;
  }

  lemma ReachableActs(s: State, a: Action)
    requires Reachable(s)
    ensures Reachable(Apply(s, a))
  {
    hide Apply, Run;
    var apic, destination, run :| s == Run(Initial(apic, destination), run);
    RunThenAct(Initial(apic, destination), run, a);
  }

  lemma {:induction false} ReachableAdvances(s: State, u: Caller, n: nat)
    requires Reachable(s)
    ensures Reachable(Advanced(s, u, n))
  {
    hide Reachable, DoAdvance;
    if n > 0 {
      ReachableAdvances(s, u, n - 1);
      ReachableActs(Advanced(s, u, n - 1), Advance(u));
    }
  }

  lemma ReachableCalls(s: State, u: Caller, g: nat, c: Configuration, filter: Filter, context: Context)
    requires Reachable(s)
    ensures Reachable(DoStartBind(s, u, c, Some(filter), Some(context)))
    ensures Reachable(BoundThrough(s, u, 0)) && Reachable(UnboundThrough(s, u, 0, g))
  {
    hide Reachable, Advanced, DoStartBind, DoBind, DoUnbind;
    ReachableActs(s, StartBind(u, c, Some(filter), Some(context)));
    ReachableActs(s, Bind(u, true));
    ReachableAdvances(DoBind(s, u, true), u, 4);
    ReachableActs(s, Unbind(u, Handle(0, g)));
    ReachableAdvances(DoUnbind(s, u, Handle(0, g)), u, 5);
  }

  lemma PutBackReachable(apic: map<nat, Word>, destination: bv8, c: Configuration)
    ensures Reachable(PutBack(apic, destination, c))
  {
    hide Reachable, DoStartBind, BoundThrough, UnboundThrough;
    var s := Initial(apic, destination);
    assert Reachable(s) by {
      InitialReachable(apic, destination);
    }
    ReachableCalls(s, 0, 0, c, 1, 1);
    var started := DoStartBind(s, 0, c, Some(1), Some(1));
    ReachableCalls(started, 0, 0, c, 0, 0);
    ReachableCalls(BoundThrough(started, 0, 0), 1, 0, c, 2, 2);
    ReachableCalls(DoStartBind(BoundThrough(started, 0, 0), 1, c, Some(2), Some(2)), 0, 1, c, 0, 0);
    ReachableCalls(StaleRead(apic, destination, c), 1, 0, c, 0, 0);
    ReachableCalls(BoundThrough(StaleRead(apic, destination, c), 1, 0), 1, 2, c, 0, 0);
  }

  lemma InitialReachable(apic: map<nat, Word>, destination: bv8)
    ensures Reachable(Initial(apic, destination))
  {
    assert Initial(apic, destination) == Run(Initial(apic, destination), []);
  }

  lemma Reconfigured(entry: Word, c: Configuration, destination: bv8)
    requires entry & 0xFF != VECTOR
    ensures Configure(entry, c, destination, false) != entry
  {
    DestinationField(destination);
    OverlaySetsVector(entry, c.activeLow, c.levelTriggered, (destination as Word) << 56);
  }

  lemma OverlaySetsVector(entry: Word, activeLow: bool, levelTriggered: bool, destination: Word)
    requires destination & 0x00FF_FFFF_FFFF_FFFF == 0
    ensures Overlay(entry, activeLow, levelTriggered, destination, false) & 0xFF == VECTOR
  {
  }

  /**
   The entry is read before the lock is taken, so a Bind can save another call's configuration. On any line such a run
   ends with every call returned and nothing bound, but with the line reconfigured and unmasked.
   */
  lemma StaleReadIsPutBack(apic: map<nat, Word>, destination: bv8, c: Configuration)
    requires c.gsi in apic
    ensures var s := PutBack(apic, destination, c);
      && Reachable(s) && Quiet(s) && !Bound(s, c.gsi) && c.gsi in s.apic
      && s.apic[c.gsi] == Configure(apic[c.gsi], c, destination, false)
      && !Masked(s.apic[c.gsi]) && Delivers(s.apic[c.gsi], c, destination)
      && (apic[c.gsi] & 0xFF != VECTOR ==> s.apic[c.gsi] != apic[c.gsi])
  {
    hide Reachable, StaleRead, BoundThrough, UnboundThrough, Configure, Opens;
    PutBackReachable(apic, destination, c);
    StaleReadHolds(apic, destination, c);
    var s := StaleRead(apic, destination, c);
    BlankOpens(s, 1);
    BlankAgain(s);
    Returned(s, 1, 0, 0);
    LeavesWhatItRead(s, 1, 0, 0, BoundThrough(s, 1, 0));
    ConfigureSetsFields(apic[c.gsi], c, destination, false);
    if apic[c.gsi] & 0xFF != VECTOR {
      Reconfigured(apic[c.gsi], c, destination);
    }
  }
}
