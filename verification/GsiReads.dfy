/** Which call read the entry that a line was left with. */
module GsiReads {
  import opened FileBytes
  import opened GsiRouting
  import opened GsiSafety
  import opened GsiTheorems

  /** The action is the start of a Bind by `u` that gets past its tests and reads its line. */
  predicate Reads(s: State, a: Action, u: Caller) {
    a.StartBind? && a.caller == u && CallOf(s, u) == Resting && a.filter.Some? && a.context.Some? && a.configuration.gsi in s.apic
  }

  /** The action opens a route on the line. */
  predicate Opens(s: State, a: Action, gsi: nat) {
    && a.Bind? && CallOf(s, a.caller).Read? && CallOf(s, a.caller).configuration.gsi == gsi && s.lock == None && gsi in s.apic
    && FindRoute(s.routes, gsi) == |s.routes| && FreeRoute(s.routes) < |s.routes|
  }

  /** How many actions came before the last read by `u`. */
  ghost function ReadAt(start: State, run: seq<Action>, u: Caller): (k: nat)
    ensures k <= |run|
    decreases |run|
  {
    if run == [] then 0
    else
      var n := |run| - 1;
      if Reads(Run(start, run[..n]), run[n], u) then n else ReadAt(start, run[..n], u)
  }

  /** How many actions came before the read by the call that last opened a route on the line. */
  ghost function OpenerReadAt(start: State, run: seq<Action>, gsi: nat): (k: Option<nat>)
    ensures k.Some? ==> k.value <= |run|
    decreases |run|
  {
    if run == [] then None
    else
      var n := |run| - 1;
      if Opens(Run(start, run[..n]), run[n], gsi) then Some(ReadAt(start, run[..n], run[n].caller))
      else OpenerReadAt(start, run[..n], gsi)
  }

  lemma LastAction(start: State, run: seq<Action>)
    requires run != []
    ensures Run(start, run) == Apply(Run(start, run[..|run| - 1]), run[|run| - 1])
  {
    RunThenAct(start, run[..|run| - 1], run[|run| - 1]);
    assert run == run[..|run| - 1] + [run[|run| - 1]];
  }

  lemma Earlier(run: seq<Action>, k: nat)
    requires run != [] && k < |run|
    ensures run[..|run| - 1][..k] == run[..k]
  {
  }

  // ---- One action ----

  /** A call that holds an entry has just read it or held it before. */
  lemma ReadsOrHeld(s: State, a: Action, u: Caller)
    requires CallOf(Apply(s, a), u).Read?
    ensures if Reads(s, a, u)
            then CallOf(Apply(s, a), u).configuration == a.configuration && CallOf(Apply(s, a), u).original == s.apic[a.configuration.gsi]
            else CallOf(Apply(s, a), u) == CallOf(s, u)
  {
    hide DoBind, DoUnbind, DoAdvance, DoDispatch;
    match a
    case StartBind(_, _, _, _) =>
    case Bind(v, verified) => BindReads(s, v, verified, u);
    case Unbind(v, h) => UnbindReads(s, v, h, u);
    case Advance(v) => AdvanceMovesOn(s, v);
    case Peek(_, _) =>
    case Step(cpu) => DispatchKeepsCalls(s, cpu);
  }

  lemma BindReads(s: State, v: Caller, verified: bool, u: Caller)
    requires CallOf(DoBind(s, v, verified), u).Read?
    ensures CallOf(DoBind(s, v, verified), u) == CallOf(s, u)
  {
    hide Configure, FindRoute, FreeRoute;
  }

  lemma UnbindReads(s: State, v: Caller, h: Handle, u: Caller)
    requires CallOf(DoUnbind(s, v, h), u).Read?
    ensures CallOf(DoUnbind(s, v, h), u) == CallOf(s, u)
  {
    hide Configure, Dereferenced;
  }

  /** What a line has saved changes only when a route is opened on it, to what the opener read. */
  lemma OpensOrSaved(s: State, a: Action, gsi: nat)
    requires gsi in s.saved
    ensures gsi in Apply(s, a).saved
    ensures Apply(s, a).saved[gsi] == if Opens(s, a, gsi) then CallOf(s, a.caller).original else s.saved[gsi]
  {
    hide DoUnbind, DoAdvance, DoDispatch, Configure, FindRoute, FreeRoute;
    match a
    case Bind(_, _) =>
    case Unbind(v, h) => UnbindSaves(s, v, h);
    case Advance(v) => AdvanceMovesOn(s, v);
    case Step(cpu) => DispatchKeepsCalls(s, cpu);
    case _ =>
  }

  lemma UnbindSaves(s: State, v: Caller, h: Handle)
    ensures DoUnbind(s, v, h).saved == s.saved
  {
    hide Configure, Dereferenced;
  }

  // ---- Over a run ----

  /** Every call that holds an entry holds what its line held when it read. */
  lemma {:induction false} HeldWasRead(start: State, run: seq<Action>, u: Caller)
    requires start.callers == map[] && CallOf(Run(start, run), u).Read?
    ensures var k, c := ReadAt(start, run, u), CallOf(Run(start, run), u);
      var s := Run(start, run[..k]);
      c.configuration.gsi in s.apic && s.apic[c.configuration.gsi] == c.original
    decreases |run|
  {
    hide Apply, Reads, Run;
    if run == [] {
      NothingRun(start);
    } else {
      var n := |run| - 1;
      var s := Run(start, run[..n]);
      LastAction(start, run);
      ReadsOrHeld(s, run[n], u);
      if Reads(s, run[n], u) {
        ReadsInPlace(s, run[n], u);
      } else {
        HeldWasRead(start, run[..n], u);
        Earlier(run, ReadAt(start, run[..n], u));
      }
    }
  }

  lemma NothingRun(start: State)
    ensures Run(start, []) == start
  {
  }

  lemma ReadsInPlace(s: State, a: Action, u: Caller)
    requires Reads(s, a, u)
    ensures a.StartBind? && a.configuration.gsi in s.apic
  {
  }

  /** What a line has saved is what it held when the call that last opened a route on it read it. */
  lemma {:induction false} SavedWasRead(start: State, run: seq<Action>, gsi: nat)
    requires start.callers == map[] && gsi in start.saved
    ensures gsi in Run(start, run).saved
    ensures match OpenerReadAt(start, run, gsi)
      case None => Run(start, run).saved[gsi] == start.saved[gsi]
      case Some(k) => gsi in Run(start, run[..k]).apic && Run(start, run).saved[gsi] == Run(start, run[..k]).apic[gsi]
    decreases |run|
  {
    hide Apply, Opens, Run;
    if run == [] {
      NothingRun(start);
    } else {
      var n := |run| - 1;
      var s := Run(start, run[..n]);
      LastAction(start, run);
      SavedWasRead(start, run[..n], gsi);
      OpensOrSaved(s, run[n], gsi);
      if Opens(s, run[n], gsi) {
        OpenerHolds(s, run[n], gsi);
        HeldWasRead(start, run[..n], run[n].caller);
        Earlier(run, ReadAt(start, run[..n], run[n].caller));
      } else if OpenerReadAt(start, run[..n], gsi).Some? {
        Earlier(run, OpenerReadAt(start, run[..n], gsi).value);
      }
    }
  }

  lemma OpenerHolds(s: State, a: Action, gsi: nat)
    requires Opens(s, a, gsi)
    ensures a.Bind? && CallOf(s, a.caller).Read? && CallOf(s, a.caller).configuration.gsi == gsi
  {
  }

  /**
   After any run that leaves no call under way, a line without a live binding holds the entry it held before any binding
   if and only if no route was ever opened on it, or the call that opened the last one read the line while it held that
   entry.
   */
  lemma RestoredIffReadInTime(apic: map<nat, Word>, destination: bv8, run: seq<Action>, gsi: nat)
    requires var s := Run(Initial(apic, destination), run); Quiet(s) && !Bound(s, gsi) && gsi in s.apic
    requires gsi in apic
    ensures var start := Initial(apic, destination);
      var s, opener := Run(start, run), OpenerReadAt(start, run, gsi);
      s.apic[gsi] == apic[gsi] <==>
      (opener.Some? ==> gsi in Run(start, run[..opener.value]).apic && Run(start, run[..opener.value]).apic[gsi] == apic[gsi])
  {
    hide Run, Bound, OpenerReadAt;
    var start := Initial(apic, destination);
    InitialReached(apic, destination, run);
    LastUnbindRestores(Run(start, run), gsi);
    SavedWasRead(start, run, gsi);
  }
}
