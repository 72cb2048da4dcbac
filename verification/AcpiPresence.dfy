/**
 The device status pass of `mecocoa/devsman-acpi.cpp`: device records are updated in place, level by
 level, each one reading the records of the devices above it.
 */
module AcpiPresence {
  import opened FileBytes

  /**
   A namespace object. `parent` is None for a root (invalid or self parent); `record` is the device record
   its path names, if any. `sta` is None without an `_STA` child, otherwise what evaluating it gives;
   `pci` is the answer of the PCI presence lookup, if it has one.
   */
  datatype Object = Object(device: bool, parent: Option<nat>, record: Option<nat>, sta: Option<Option<bv64>>, pci: Option<bool>)

  /** The status fields of `AcpiDeviceRecord`. */
  datatype Device = Device(sta: bv64, hasSta: bool, dynamic: bool, conditional: bool)

  datatype ParentState = Present | Absent | Unknown

  type Namespace = seq<Object>

  /** `acpi_device_is_present`. */
  predicate IsPresent(d: Device) {
    !d.conditional && !d.dynamic && (!d.hasSta || d.sta & 1 != 0)
  }

  predicate IsAbsent(d: Device) {
    d.hasSta && d.sta & 1 == 0
  }

  predicate Registered(ns: Namespace, count: nat, i: nat) {
    i < |ns| && ns[i].device && ns[i].record.Some? && ns[i].record.value < count
  }

  /** What the pass does to one record, given the state above it. */
  function Evaluated(d: Device, above: ParentState, o: Object): Device {
    match above
    case Absent => Device(0, true, false, false)
    case Unknown => d.(dynamic := true)
    case Present =>
      if d.conditional then d
      else if d.dynamic then
        match o.sta case Some(Some(sta)) => d.(sta := sta, hasSta := true, dynamic := false) case _ => d
      else if o.sta.None? && !d.hasSta && o.pci == Some(false) then d.(sta := 0, hasSta := true)
      else d
  }

  /** `acpi_parent_state`: walks at most `limit` objects from `p` upwards. */
  function WalkUp(ns: Namespace, devices: seq<Device>, p: Option<nat>, limit: nat): ParentState
    decreases limit
  {
    if limit == 0 || p.None? || p.value >= |ns| then Present
    else
      var o := ns[p.value];
      if !o.device then WalkUp(ns, devices, o.parent, limit - 1)
      else if !Registered(ns, |devices|, p.value) then Unknown
      else
        var d := devices[o.record.value];
        if IsAbsent(d) then Absent
        else if d.conditional || d.dynamic then Unknown
        else WalkUp(ns, devices, o.parent, limit - 1)
  }

  /** `aml_device_depth`. */
  function DeviceDepth(ns: Namespace, i: nat, limit: nat): nat
    decreases limit
  {
    if limit == 0 || i >= |ns| then 0
    else
      (if ns[i].device then 1 else 0) +
      (if ns[i].parent.None? then 0 else DeviceDepth(ns, ns[i].parent.value, limit - 1))
  }

  // ---- The namespace is a forest within the depth limit ----

  /** `rank` counts the objects above; the namespace refuses objects at the limit. */
  ghost predicate Forest(ns: Namespace, rank: seq<nat>, limit: nat) {
    && |rank| == |ns|
    && (forall i :: 0 <= i < |ns| ==> rank[i] < limit)
    && (forall i :: 0 <= i < |ns| && ns[i].parent.Some? ==> ns[i].parent.value < |ns| && rank[ns[i].parent.value] < rank[i])
  }

  /** Paths are unique, so no two objects name one record; object 0 is the root scope. */
  ghost predicate DistinctRecords(ns: Namespace, count: nat) {
    && (|ns| > 0 ==> !ns[0].device)
    && forall i: nat, j: nat :: Registered(ns, count, i) && Registered(ns, count, j) && ns[i].record == ns[j].record ==> i == j
  }

  // ---- The reference: evaluate top down, each device from the final state above it ----

  ghost function Final(ns: Namespace, rank: seq<nat>, limit: nat, devices: seq<Device>, i: nat): Device
    requires Forest(ns, rank, limit) && Registered(ns, |devices|, i)
    decreases rank[i], 1
  {
    Evaluated(devices[ns[i].record.value], StateAbove(ns, rank, limit, devices, i), ns[i])
  }

  /** The nearest device above decides; above a present one everything is present. */
  ghost function StateAbove(ns: Namespace, rank: seq<nat>, limit: nat, devices: seq<Device>, i: nat): ParentState
    requires Forest(ns, rank, limit) && i < |ns|
    decreases rank[i], 0
  {
    if ns[i].parent.None? then Present
    else
      var p := ns[i].parent.value;
      if !ns[p].device then StateAbove(ns, rank, limit, devices, p)
      else if !Registered(ns, |devices|, p) then Unknown
      else
        var d := Final(ns, rank, limit, devices, p);
        if IsAbsent(d) then Absent else if d.conditional || d.dynamic then Unknown else Present
  }

  ghost predicate Above(ns: Namespace, rank: seq<nat>, limit: nat, a: nat, i: nat)
    requires Forest(ns, rank, limit) && i < |ns|
    decreases rank[i]
  {
    ns[i].parent.Some? && (ns[i].parent.value == a || Above(ns, rank, limit, a, ns[i].parent.value))
  }

  /** With a present parent the evaluation cannot raise doubt above: everything above is present too. */
  lemma {:induction false} PresentAbove(ns: Namespace, rank: seq<nat>, limit: nat, devices: seq<Device>, i: nat, a: nat)
    requires Forest(ns, rank, limit) && i < |ns| && StateAbove(ns, rank, limit, devices, i) == Present
    requires a < |ns| && ns[a].device && Above(ns, rank, limit, a, i)
    ensures Registered(ns, |devices|, a) && IsPresent(Final(ns, rank, limit, devices, a))
    decreases rank[i]
  {
    var p := ns[i].parent.value;
    if p != a {
      if ns[p].device {
        PresentFromState(ns, rank, limit, devices, p);
      }
      PresentAbove(ns, rank, limit, devices, p, a);
    }
  }

  lemma PresentFromState(ns: Namespace, rank: seq<nat>, limit: nat, devices: seq<Device>, i: nat)
    requires Forest(ns, rank, limit) && Registered(ns, |devices|, i)
    requires var d := Final(ns, rank, limit, devices, i); !IsAbsent(d) && !d.conditional && !d.dynamic
    ensures StateAbove(ns, rank, limit, devices, i) == Present
  {
  }

  /** A device counted present has only present device ancestors, all of them registered. */
  lemma PresenceIsClosed(ns: Namespace, rank: seq<nat>, limit: nat, devices: seq<Device>, i: nat, a: nat)
    requires Forest(ns, rank, limit) && Registered(ns, |devices|, i) && IsPresent(Final(ns, rank, limit, devices, i))
    requires a < |ns| && ns[a].device && Above(ns, rank, limit, a, i)
    ensures Registered(ns, |devices|, a) && IsPresent(Final(ns, rank, limit, devices, a))
  {
    PresentFromState(ns, rank, limit, devices, i);
    PresentAbove(ns, rank, limit, devices, i, a);
  }

  // ---- What the pass decides, in terms of the namespace and the records it started from ----

  /** What a device shows on its own: `_STA` where it was dynamic, else its recorded status, else the PCI answer. */
  predicate Stands(o: Object, d: Device) {
    && !d.conditional
    && (d.dynamic ==> o.sta.Some? && o.sta.value.Some? && o.sta.value.value & 1 != 0)
    && (!d.dynamic && d.hasSta ==> d.sta & 1 != 0)
    && (!d.dynamic && !d.hasSta && o.sta.None? && o.pci.Some? ==> o.pci.value)
  }

  lemma StandsWhenPresent(ns: Namespace, rank: seq<nat>, limit: nat, devices: seq<Device>, i: nat)
    requires Forest(ns, rank, limit) && Registered(ns, |devices|, i) && StateAbove(ns, rank, limit, devices, i) == Present
    ensures IsPresent(Final(ns, rank, limit, devices, i)) <==> Stands(ns[i], devices[ns[i].record.value])
  {
  }

  /** Every device above is registered and shows itself present. */
  ghost predicate StandsAbove(ns: Namespace, rank: seq<nat>, limit: nat, devices: seq<Device>, i: nat)
    requires Forest(ns, rank, limit) && i < |ns|
  {
    forall a :: 0 <= a < |ns| && ns[a].device && Above(ns, rank, limit, a, i) ==>
      Registered(ns, |devices|, a) && Stands(ns[a], devices[ns[a].record.value])
  }

  lemma {:induction false} PresentWhenAllStand(ns: Namespace, rank: seq<nat>, limit: nat, devices: seq<Device>, i: nat)
    requires Forest(ns, rank, limit) && i < |ns| && StandsAbove(ns, rank, limit, devices, i)
    ensures StateAbove(ns, rank, limit, devices, i) == Present
    decreases rank[i]
  {
    if ns[i].parent.Some? {
      var p := ns[i].parent.value;
      assert Above(ns, rank, limit, p, i);
      assert forall a :: 0 <= a < |ns| && Above(ns, rank, limit, a, p) ==> Above(ns, rank, limit, a, i);
      PresentWhenAllStand(ns, rank, limit, devices, p);
      if ns[p].device {
        StandsWhenPresent(ns, rank, limit, devices, p);
      }
    }
  }

  /** A device ends up present exactly when it and every device above it are registered and show themselves present. */
  lemma PresentIff(ns: Namespace, rank: seq<nat>, limit: nat, devices: seq<Device>, i: nat)
    requires Forest(ns, rank, limit) && Registered(ns, |devices|, i)
    ensures IsPresent(Final(ns, rank, limit, devices, i)) <==>
      Stands(ns[i], devices[ns[i].record.value]) && StandsAbove(ns, rank, limit, devices, i)
  {
    if IsPresent(Final(ns, rank, limit, devices, i)) {
      PresentFromState(ns, rank, limit, devices, i);
      StandsWhenPresent(ns, rank, limit, devices, i);
      forall a | 0 <= a < |ns| && ns[a].device && Above(ns, rank, limit, a, i)
        ensures Registered(ns, |devices|, a) && Stands(ns[a], devices[ns[a].record.value])
      {
        PresentAbove(ns, rank, limit, devices, i, a);
        PresentFromState(ns, rank, limit, devices, a);
        StandsWhenPresent(ns, rank, limit, devices, a);
      }
    }
    if StandsAbove(ns, rank, limit, devices, i) {
      PresentWhenAllStand(ns, rank, limit, devices, i);
      StandsWhenPresent(ns, rank, limit, devices, i);
    }
  }

  /** What becomes of one record: field by field, from the state of the devices above. */
  predicate SettledAs(d: Device, now: Device, above: ParentState, o: Object) {
    match above
    case Absent => now.hasSta && now.sta == 0 && !now.dynamic && !now.conditional
    case Unknown => now.dynamic && now.hasSta == d.hasSta && now.sta == d.sta && now.conditional == d.conditional
    case Present =>
      && (d.conditional ==> now == d)
      && (!d.conditional && d.dynamic ==>
            && (now.dynamic <==> o.sta.None? || o.sta.value.None?)
            && (now.dynamic ==> now == d)
            && (!now.dynamic ==> now.hasSta && now.sta == o.sta.value.value && !now.conditional))
      && (!d.conditional && !d.dynamic ==>
            && !now.dynamic && !now.conditional
            && (IsAbsent(now) <==> IsAbsent(d) || (o.sta.None? && !d.hasSta && o.pci.Some? && !o.pci.value))
            && (IsAbsent(d) || !IsAbsent(now) ==> now == d))
  }

  lemma SettlesAs(d: Device, above: ParentState, o: Object)
    ensures SettledAs(d, Evaluated(d, above, o), above, o)
  {
  }

  /** The walk over the final records gives each device the state above it. */
  lemma FinalSettles(ns: Namespace, rank: seq<nat>, limit: nat, devices: seq<Device>, now: seq<Device>, i: nat)
    requires Forest(ns, rank, limit) && Registered(ns, |devices|, i) && |now| == |devices|
    requires forall k :: 0 <= k < |ns| && Registered(ns, |devices|, k) ==> now[ns[k].record.value] == Final(ns, rank, limit, devices, k)
    ensures SettledAs(devices[ns[i].record.value], now[ns[i].record.value], WalkUp(ns, now, ns[i].parent, limit), ns[i])
  {
    WalkUpSettled(ns, rank, limit, devices, now, i, limit);
    SettlesAs(devices[ns[i].record.value], StateAbove(ns, rank, limit, devices, i), ns[i]);
  }

  /** Every device between the two has a record. */
  ghost predicate RegisteredBetween(ns: Namespace, rank: seq<nat>, limit: nat, count: nat, a: nat, i: nat)
    requires Forest(ns, rank, limit) && i < |ns|
  {
    forall m :: 0 <= m < |ns| && ns[m].device && Above(ns, rank, limit, m, i) && Above(ns, rank, limit, a, m) ==> Registered(ns, count, m)
  }

  lemma {:induction false} AbsentAbove(ns: Namespace, rank: seq<nat>, limit: nat, devices: seq<Device>, i: nat, a: nat)
    requires Forest(ns, rank, limit) && i < |ns| && Above(ns, rank, limit, a, i) && Registered(ns, |devices|, a)
    requires IsAbsent(Final(ns, rank, limit, devices, a)) && RegisteredBetween(ns, rank, limit, |devices|, a, i)
    ensures StateAbove(ns, rank, limit, devices, i) == Absent
    decreases rank[i]
  {
    var p := ns[i].parent.value;
    if p != a {
      assert forall m :: 0 <= m < |ns| && Above(ns, rank, limit, m, p) ==> Above(ns, rank, limit, m, i);
      AbsentAbove(ns, rank, limit, devices, p, a);
    }
  }

  /**
   A device below an absent one is never present; it is absent whenever every device in between is
   registered.
   */
  lemma AbsenceIsInherited(ns: Namespace, rank: seq<nat>, limit: nat, devices: seq<Device>, i: nat, a: nat)
    requires Forest(ns, rank, limit) && Registered(ns, |devices|, i) && Registered(ns, |devices|, a)
    requires Above(ns, rank, limit, a, i) && IsAbsent(Final(ns, rank, limit, devices, a))
    ensures !IsPresent(Final(ns, rank, limit, devices, i))
    ensures RegisteredBetween(ns, rank, limit, |devices|, a, i) ==> IsAbsent(Final(ns, rank, limit, devices, i))
  {
    if IsPresent(Final(ns, rank, limit, devices, i)) {
      PresenceIsClosed(ns, rank, limit, devices, i, a);
      assert false;
    }
    if RegisteredBetween(ns, rank, limit, |devices|, a, i) {
      AbsentAbove(ns, rank, limit, devices, i, a);
    }
  }

  // ---- Exactly when absence is inherited ----

  lemma {:induction false} AboveRank(ns: Namespace, rank: seq<nat>, limit: nat, a: nat, i: nat)
    requires Forest(ns, rank, limit) && i < |ns| && Above(ns, rank, limit, a, i)
    ensures a < |ns| && rank[a] < rank[i]
    decreases rank[i]
  {
    if ns[i].parent.value != a {
      AboveRank(ns, rank, limit, a, ns[i].parent.value);
    }
  }

  /** `m` passes absence down to `i`: it is the absent device `a` or was recorded absent below it, and all devices between have records. */
  ghost predicate Passes(ns: Namespace, rank: seq<nat>, limit: nat, devices: seq<Device>, a: nat, i: nat, m: nat)
    requires Forest(ns, rank, limit) && i < |ns| && m < |ns|
  {
    && Registered(ns, |devices|, m) && Above(ns, rank, limit, m, i)
    && (m == a || (Above(ns, rank, limit, a, m) && IsAbsent(devices[ns[m].record.value])))
    && RegisteredBetween(ns, rank, limit, |devices|, m, i)
  }

  lemma NothingBetween(ns: Namespace, rank: seq<nat>, limit: nat, count: nat, i: nat)
    requires Forest(ns, rank, limit) && i < |ns| && ns[i].parent.Some?
    ensures RegisteredBetween(ns, rank, limit, count, ns[i].parent.value, i)
  {
    var p := ns[i].parent.value;
    forall m | 0 <= m < |ns| ensures !(Above(ns, rank, limit, m, i) && Above(ns, rank, limit, p, m)) {
      if Above(ns, rank, limit, p, m) {
        AboveRank(ns, rank, limit, p, m);
      }
      if Above(ns, rank, limit, m, p) {
        AboveRank(ns, rank, limit, m, p);
      }
    }
  }

  lemma {:induction false} PasserFound(ns: Namespace, rank: seq<nat>, limit: nat, devices: seq<Device>, i: nat, a: nat) returns (m: nat)
    requires Forest(ns, rank, limit) && i < |ns| && Above(ns, rank, limit, a, i) && Registered(ns, |devices|, a)
    requires IsAbsent(Final(ns, rank, limit, devices, a)) && StateAbove(ns, rank, limit, devices, i) == Absent
    ensures m < |ns| && Passes(ns, rank, limit, devices, a, i, m)
    decreases rank[i]
  {
    var p := ns[i].parent.value;
    if p == a || (ns[p].device && IsAbsent(devices[ns[p].record.value])) {
      m := p;
      NothingBetween(ns, rank, limit, |devices|, i);
    } else {
      NotPresentBelow(ns, rank, limit, devices, p, a);
      m := PasserFound(ns, rank, limit, devices, p, a);
      assert Above(ns, rank, limit, m, i);
      forall k | 0 <= k < |ns| && ns[k].device && Above(ns, rank, limit, k, i) && Above(ns, rank, limit, m, k)
        ensures Registered(ns, |devices|, k)
      {
        assert k == p || Above(ns, rank, limit, k, p);
      }
    }
  }

  lemma NotPresentBelow(ns: Namespace, rank: seq<nat>, limit: nat, devices: seq<Device>, i: nat, a: nat)
    requires Forest(ns, rank, limit) && i < |ns| && Above(ns, rank, limit, a, i) && Registered(ns, |devices|, a)
    requires IsAbsent(Final(ns, rank, limit, devices, a))
    ensures StateAbove(ns, rank, limit, devices, i) != Present
  {
    if StateAbove(ns, rank, limit, devices, i) == Present {
      PresentAbove(ns, rank, limit, devices, i, a);
      assert false;
    }
  }

  /**
   A registered device below an absent one ends up absent if and only if it was recorded absent before the
   pass, or some device above it that was recorded absent (or is the absent one itself) reaches it through
   registered devices only.
   */
  lemma AbsentExactlyWhen(ns: Namespace, rank: seq<nat>, limit: nat, devices: seq<Device>, i: nat, a: nat)
    requires Forest(ns, rank, limit) && Registered(ns, |devices|, i) && Registered(ns, |devices|, a)
    requires Above(ns, rank, limit, a, i) && IsAbsent(Final(ns, rank, limit, devices, a))
    ensures IsAbsent(Final(ns, rank, limit, devices, i)) <==>
      IsAbsent(devices[ns[i].record.value]) || exists m :: 0 <= m < |ns| && Passes(ns, rank, limit, devices, a, i, m)
  {
    NotPresentBelow(ns, rank, limit, devices, i, a);
    if StateAbove(ns, rank, limit, devices, i) == Absent {
      var m := PasserFound(ns, rank, limit, devices, i, a);
    }
    if m :| 0 <= m < |ns| && Passes(ns, rank, limit, devices, a, i, m) {
      if m != a {
        NotPresentBelow(ns, rank, limit, devices, m, a);
      }
      AbsentAbove(ns, rank, limit, devices, i, m);
    }
  }

  /** A root, an absent device, an unregistered device below it, and a device below that. */
  const BROKEN_LINE: Namespace := [
    Object(false, None, None, None, None), Object(true, Some(0), Some(0), None, None),
    Object(true, Some(1), None, None, None), Object(true, Some(2), Some(1), None, None)]
  const LINE_RANK: seq<nat> := [0, 1, 2, 3]
  const LINE_DEVICES := [Device(0, true, false, false), Device(0, false, false, false)]

  /** An unregistered device in between breaks the inheritance: the device below is only left undecided. */
  lemma AbsenceCanStop()
    ensures Forest(BROKEN_LINE, LINE_RANK, 4)
    ensures Registered(BROKEN_LINE, 2, 1) && Registered(BROKEN_LINE, 2, 3) && Above(BROKEN_LINE, LINE_RANK, 4, 1, 3)
    ensures IsAbsent(Final(BROKEN_LINE, LINE_RANK, 4, LINE_DEVICES, 1))
    ensures !IsAbsent(Final(BROKEN_LINE, LINE_RANK, 4, LINE_DEVICES, 3))
  {
    assert Above(BROKEN_LINE, LINE_RANK, 4, 1, 2);
    assert StateAbove(BROKEN_LINE, LINE_RANK, 4, LINE_DEVICES, 1) == Present;
    assert StateAbove(BROKEN_LINE, LINE_RANK, 4, LINE_DEVICES, 3) == Unknown;
  }

  // ---- The pass computes the reference ----

  /** The records above `i` are final. */
  ghost predicate SettledAbove(ns: Namespace, rank: seq<nat>, limit: nat, devices: seq<Device>, now: seq<Device>, i: nat)
    requires Forest(ns, rank, limit) && i < |ns| && |now| == |devices|
  {
    forall a :: 0 <= a < |ns| && Above(ns, rank, limit, a, i) && Registered(ns, |devices|, a) ==>
      now[ns[a].record.value] == Final(ns, rank, limit, devices, a)
  }

  /** Walking the current records gives the reference's state above. */
  lemma {:induction false} WalkUpSettled(ns: Namespace, rank: seq<nat>, limit: nat, devices: seq<Device>, now: seq<Device>, i: nat, levels: nat)
    requires Forest(ns, rank, limit) && i < |ns| && |now| == |devices| && levels >= rank[i]
    requires SettledAbove(ns, rank, limit, devices, now, i)
    ensures WalkUp(ns, now, ns[i].parent, levels) == StateAbove(ns, rank, limit, devices, i)
    decreases rank[i]
  {
    if ns[i].parent.Some? {
      var p := ns[i].parent.value;
      assert Above(ns, rank, limit, p, i);
      assert forall a :: 0 <= a < |ns| && Above(ns, rank, limit, a, p) ==> Above(ns, rank, limit, a, i);
      WalkUpSettled(ns, rank, limit, devices, now, p, levels - 1);
      if Registered(ns, |devices|, p) {
        var d := Final(ns, rank, limit, devices, p);
        if !IsAbsent(d) && !d.conditional && !d.dynamic {
          PresentFromState(ns, rank, limit, devices, p);
        }
      }
    }
  }

  /** Devices above have smaller device depths. */
  lemma {:induction false} DepthAbove(ns: Namespace, rank: seq<nat>, limit: nat, a: nat, i: nat, m: nat, n: nat)
    requires Forest(ns, rank, limit) && i < |ns| && a < |ns| && Above(ns, rank, limit, a, i) && rank[i] < n && rank[a] < m
    ensures DeviceDepth(ns, a, m) + (if ns[i].device then 1 else 0) <= DeviceDepth(ns, i, n)
    decreases rank[i]
  {
    var p := ns[i].parent.value;
    if p == a {
      DepthStable(ns, rank, limit, a, m, n - 1);
    } else {
      DepthAbove(ns, rank, limit, a, p, m, n - 1);
    }
  }

  lemma {:induction false} DepthStable(ns: Namespace, rank: seq<nat>, limit: nat, i: nat, m: nat, n: nat)
    requires Forest(ns, rank, limit) && i < |ns| && rank[i] < m && rank[i] < n
    ensures DeviceDepth(ns, i, m) == DeviceDepth(ns, i, n) <= rank[i] + 1
    decreases rank[i]
  {
    if ns[i].parent.Some? {
      DepthStable(ns, rank, limit, ns[i].parent.value, m - 1, n - 1);
    }
  }

  /** Object `i` comes before the position (depth, next) of the pass. */
  predicate Visited(ns: Namespace, limit: nat, depth: nat, next: nat, i: nat) {
    var d := DeviceDepth(ns, i, limit);
    d < depth || (d == depth && i < next)
  }

  ghost predicate Progress(ns: Namespace, rank: seq<nat>, limit: nat, devices: seq<Device>, now: seq<Device>, depth: nat, next: nat)
    requires Forest(ns, rank, limit)
  {
    && |now| == |devices|
    && (forall i :: 0 <= i < |ns| && Registered(ns, |devices|, i) ==>
          now[ns[i].record.value] ==
            if Visited(ns, limit, depth, next, i) then Final(ns, rank, limit, devices, i) else devices[ns[i].record.value])
    && (forall r :: 0 <= r < |devices| && !Named(ns, |devices|, r) ==> now[r] == devices[r])
  }

  predicate Named(ns: Namespace, count: nat, r: nat) {
    exists i :: 0 <= i < |ns| && Registered(ns, count, i) && ns[i].record == Some(r)
  }

  lemma SettledByDepth(ns: Namespace, rank: seq<nat>, limit: nat, devices: seq<Device>, now: seq<Device>, depth: nat, i: nat)
    requires Forest(ns, rank, limit) && Registered(ns, |devices|, i) && DeviceDepth(ns, i, limit) == depth
    requires Progress(ns, rank, limit, devices, now, depth, i)
    ensures SettledAbove(ns, rank, limit, devices, now, i)
    ensures now[ns[i].record.value] == devices[ns[i].record.value]
  {
    forall a | 0 <= a < |ns| && Above(ns, rank, limit, a, i) && Registered(ns, |devices|, a)
      ensures now[ns[a].record.value] == Final(ns, rank, limit, devices, a)
    {
      DepthAbove(ns, rank, limit, a, i, limit, limit);
      assert Visited(ns, limit, depth, i, a);
    }
    assert !Visited(ns, limit, depth, i, i);
  }

  /** Before the first depth no device was visited. */
  lemma NothingVisited(ns: Namespace, rank: seq<nat>, limit: nat, devices: seq<Device>)
    requires Forest(ns, rank, limit)
    ensures Progress(ns, rank, limit, devices, devices, 1, 0)
  {
    forall i | 0 <= i < |ns| && Registered(ns, |devices|, i) ensures !Visited(ns, limit, 1, 0, i) {
      assert rank[i] < limit;
      assert DeviceDepth(ns, i, limit) >= 1;
    }
  }

  /** `aml_device_depth` as a loop. */
  method DepthOf(ns: Namespace, index: nat, limit: nat) returns (depth: nat)
    ensures depth == DeviceDepth(ns, index, limit)
  {
    depth := 0;
    var i: nat, level: nat := index, 0;
    while level < limit && i < |ns|
      invariant level <= limit && depth + DeviceDepth(ns, i, limit - level) == DeviceDepth(ns, index, limit)
      decreases limit - level
    {
      if ns[i].device {
        depth := depth + 1;
      }
      if ns[i].parent.None? {
        return;
      }
      i := ns[i].parent.value;
      level := level + 1;
    }
  }

  /** `acpi_parent_state` as a loop. */
  method ParentStateOf(ns: Namespace, devices: seq<Device>, index: nat, limit: nat) returns (state: ParentState)
    requires index < |ns|
    ensures state == WalkUp(ns, devices, ns[index].parent, limit)
  {
    var p: Option<nat>, level: nat := ns[index].parent, 0;
    while level < limit && p.Some? && p.value < |ns|
      invariant level <= limit && WalkUp(ns, devices, p, limit - level) == WalkUp(ns, devices, ns[index].parent, limit)
      decreases limit - level
    {
      if ns[p.value].device {
        if !Registered(ns, |devices|, p.value) {
          return Unknown;
        }
        var device := devices[ns[p.value].record.value];
        if device.hasSta && device.sta & 1 == 0 {
          return Absent;
        }
        if device.conditional || device.dynamic {
          return Unknown;
        }
      }
      p := ns[p.value].parent;
      level := level + 1;
    }
    return Present;
  }

  /** `evaluate_x86_acpi_device_statuses`: depth by depth, each record from the current records above it. */
  method EvaluateStatuses(ns: Namespace, ghost rank: seq<nat>, limit: nat, devices: seq<Device>) returns (now: seq<Device>)
    requires Forest(ns, rank, limit) && DistinctRecords(ns, |devices|)
    ensures |now| == |devices|
    ensures forall i :: 0 <= i < |ns| && Registered(ns, |devices|, i) ==>
      now[ns[i].record.value] == Final(ns, rank, limit, devices, i)
    ensures forall i :: 0 <= i < |ns| && Registered(ns, |devices|, i) ==>
      SettledAs(devices[ns[i].record.value], now[ns[i].record.value], WalkUp(ns, now, ns[i].parent, limit), ns[i])
    ensures forall i :: 0 <= i < |ns| && Registered(ns, |devices|, i) ==>
      (IsPresent(now[ns[i].record.value]) <==>
       Stands(ns[i], devices[ns[i].record.value]) && StandsAbove(ns, rank, limit, devices, i))
    ensures forall r :: 0 <= r < |devices| && !Named(ns, |devices|, r) ==> now[r] == devices[r]
  {
    hide SettledAs, Stands, StandsAbove;
    now := devices;
    var depth := 1;
    NothingVisited(ns, rank, limit, devices);
    while depth <= limit
      invariant 1 <= depth <= limit + 1 && Progress(ns, rank, limit, devices, now, depth, 0)
    {
      var i := 1;
      while i < |ns|
        invariant 1 <= i && (|ns| > 0 ==> i <= |ns|) && Progress(ns, rank, limit, devices, now, depth, i)
      {
        var own := DepthOf(ns, i, limit);
        if ns[i].device && own == depth && Registered(ns, |devices|, i) {
          SettledByDepth(ns, rank, limit, devices, now, depth, i);
          WalkUpSettled(ns, rank, limit, devices, now, i, limit);
          var above := ParentStateOf(ns, now, i, limit);
          now := now[ns[i].record.value := Evaluated(now[ns[i].record.value], above, ns[i])];
        }
        i := i + 1;
      }
      depth := depth + 1;
    }
    forall i | 0 <= i < |ns| && Registered(ns, |devices|, i) ensures Visited(ns, limit, depth, 0, i) {
      DepthStable(ns, rank, limit, i, limit, limit);
    }
    forall i | 0 <= i < |ns| && Registered(ns, |devices|, i)
      ensures SettledAs(devices[ns[i].record.value], now[ns[i].record.value], WalkUp(ns, now, ns[i].parent, limit), ns[i])
      ensures IsPresent(now[ns[i].record.value]) <==>
        Stands(ns[i], devices[ns[i].record.value]) && StandsAbove(ns, rank, limit, devices, i)
    {
      FinalSettles(ns, rank, limit, devices, now, i);
      PresentIff(ns, rank, limit, devices, i);
    }
  }
}
