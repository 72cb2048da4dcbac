/** The count and copy passes as the kernel runs them, filling the arenas in place. */
module AcpiPropertyArena {
  import opened FileBytes
  import opened AcpiProperties

  /** `count_acpi_property_value`: accepts exactly the supported trees whose totals do not overflow a word. */
  method CountValue(v: Value, values: nat, bytes: nat, depth: nat) returns (ok: bool, values': nat, bytes': nat)
    requires values <= WORD_MAX && bytes <= WORD_MAX
    ensures ok <==> Supported(v, depth) && values + Values(v) <= WORD_MAX && bytes + Bytes(v) <= WORD_MAX
    ensures ok ==> values' == values + Values(v) && bytes' == bytes + Bytes(v)
    decreases v
  {
    ok, values', bytes' := false, values, bytes;
    if depth > DEPTH_LIMIT {
      return;
    }
    match v.content
    case Integer(_) => ok := true;
    case Text(text) =>
      if bytes > WORD_MAX - |text| || bytes + |text| > WORD_MAX - 1 { return; }
      ok, bytes' := true, bytes + |text| + 1;
    case Buffer(buffer) =>
      if bytes > WORD_MAX - |buffer| { return; }
      ok, bytes' := true, bytes + |buffer|;
    case Reference(path) =>
      if path.None? || bytes > WORD_MAX - (|path.value| + 1) { return; }
      ok, bytes' := true, bytes + |path.value| + 1;
    case Array(elements) =>
      if values > WORD_MAX - |elements| { return; }
      values' := values + |elements|;
      var i := 0;
      while i < |elements|
        invariant i <= |elements| && SupportedBelow(v, i, depth)
        invariant values' == values + |elements| + ValuesBelow(v, i) <= WORD_MAX
        invariant bytes' == bytes + BytesBelow(v, i) <= WORD_MAX
      {
        var counted;
        counted, values', bytes' := CountValue(elements[i], values', bytes', depth + 1);
        ElementBelow(v, i);
        if !counted {
          BelowMonotone(v, i + 1, |elements|);
          return;
        }
        i := i + 1;
      }
      ok := true;
    case Unsupported =>
  }

  class Arena {
    const values: array<Flat>
    const data: array<Byte>
    var valueIndex: nat
    var byteIndex: nat

    /** The sizes come from a `uint16` and a `uint32`. */
    ghost predicate Valid()
      reads this
    {
      valueIndex <= values.Length <= VALUE_LIMIT && byteIndex <= data.Length <= BYTE_LIMIT && values as object != data
    }

    constructor (valueCount: nat, byteCount: nat)
      requires valueCount <= VALUE_LIMIT && byteCount <= BYTE_LIMIT
      ensures Valid() && valueIndex == 0 && byteIndex == 0 && fresh(values) && fresh(data)
      ensures values.Length == valueCount && data.Length == byteCount
    {
      values := new Flat[valueCount](_ => EMPTY_FLAT);
      data := new Byte[byteCount](_ => 0);
      valueIndex, byteIndex := 0, 0;
    }

    /** `copy_acpi_property_bytes`. */
    method CopyBytes(source: seq<Byte>, terminate: bool) returns (ok: bool, at: Option<nat>)
      requires Valid()
      modifies this`byteIndex, data
      ensures Valid()
      ensures ok <==> old(byteIndex) + |source| + (if terminate then 1 else 0) <= data.Length
      ensures ok ==>
        && byteIndex == old(byteIndex) + |source| + (if terminate then 1 else 0)
        && at == (if byteIndex == old(byteIndex) then None else Some(old(byteIndex)))
        && Run(data[..], old(byteIndex), source, terminate)
      ensures forall i :: 0 <= i < old(byteIndex) ==> data[i] == old(data[i])
    {
      at := None;
      if terminate && |source| == WORD_MAX {
        return false, at;
      }
      var required := |source| + if terminate then 1 else 0;
      if required > data.Length - byteIndex {
        return false, at;
      }
      at := if required > 0 then Some(byteIndex) else None;
      var i := 0;
      while i < |source|
        invariant i <= |source| && byteIndex == old(byteIndex)
        invariant forall k :: 0 <= k < i ==> data[byteIndex..byteIndex + |source|][k] == source[k]
        invariant forall k :: 0 <= k < byteIndex ==> data[k] == old(data[k])
      {
        data[byteIndex + i] := source[i];
        i := i + 1;
      }
      byteIndex := byteIndex + |source|;
      if terminate {
        data[byteIndex] := 0;
        byteIndex := byteIndex + 1;
      }
      assert data[..][old(byteIndex)..old(byteIndex) + |source|] == source;
      ok := true;
    }

    /** The tree is one the copy pass can finish in what is left of the arenas. */
    ghost predicate Fits(v: Value, depth: nat)
      reads this
    {
      Supported(v, depth) && valueIndex + Values(v) <= values.Length && byteIndex + Bytes(v) <= data.Length
    }

    /** `copy_acpi_property_value`: fills the record `target[at]`, which may itself lie in the arena. */
    method CopyValue(v: Value, target: array<Flat>, at: nat, depth: nat) returns (ok: bool)
      requires Valid() && at < target.Length && (target == values ==> at < valueIndex) && target as object != data
      modifies this`valueIndex, this`byteIndex, values, data, target
      ensures Valid()
      ensures ok <==> old(Fits(v, depth))
      ensures ok ==> valueIndex == old(valueIndex) + Values(v) && byteIndex == old(byteIndex) + Bytes(v)
      ensures ok ==> Placed(v, target[at], values[..], data[..], old(valueIndex), old(byteIndex))
      ensures forall i :: 0 <= i < old(valueIndex) && !(target == values && i == at) ==> values[i] == old(values[i])
      ensures forall i :: 0 <= i < old(byteIndex) ==> data[i] == old(data[i])
      ensures target != values ==> forall i :: 0 <= i < target.Length && i != at ==> target[i] == old(target[i])
      decreases v, 1
    {
      if depth > DEPTH_LIMIT {
        return false;
      }
      match v.content
      case Array(elements) =>
        ok := CopyArray(v, target, at, depth);
      case _ =>
        ok := CopyLeaf(v, target, at);
    }

    method CopyLeaf(v: Value, target: array<Flat>, at: nat) returns (ok: bool)
      requires Valid() && at < target.Length && (target == values ==> at < valueIndex) && target as object != data && !v.content.Array?
      modifies this`byteIndex, data, target
      ensures Valid()
      ensures ok <==> !v.content.Unsupported? && v.content != Reference(None) && old(byteIndex) + Bytes(v) <= data.Length
      ensures ok ==> byteIndex == old(byteIndex) + Bytes(v)
      ensures ok ==> Placed(v, target[at], values[..], data[..], old(valueIndex), old(byteIndex))
      ensures forall i :: 0 <= i < target.Length && i != at ==> target[i] == old(target[i])
      ensures forall i :: 0 <= i < old(byteIndex) ==> data[i] == old(data[i])
    {
      target[at] := EMPTY_FLAT.(nonStandard := v.nonStandard);
      match v.content
      case Integer(n) =>
        target[at] := target[at].(kind := IntegerKind, integer := n);
        ok := true;
      case Text(text) =>
        if |text| > BYTE_LIMIT { return false; }
        var run;
        target[at] := target[at].(kind := TextKind, length := |text|);
        ok, run := CopyBytes(text, true);
        target[at] := target[at].(data := run);
      case Buffer(buffer) =>
        if |buffer| > BYTE_LIMIT { return false; }
        var run;
        target[at] := target[at].(kind := BufferKind, length := |buffer|);
        ok, run := CopyBytes(buffer, false);
        target[at] := target[at].(data := run);
      case Reference(path) =>
        target[at] := target[at].(kind := ReferenceKind);
        if path.None? { return false; }
        var run;
        ok, run := CopyBytes(path.value, true);
        if ok {
          target[at] := target[at].(path := run, length := |path.value|);
        }
      case _ => ok := false;
    }

    method CopyArray(v: Value, target: array<Flat>, at: nat, depth: nat) returns (ok: bool)
      requires Valid() && at < target.Length && (target == values ==> at < valueIndex) && target as object != data
      requires v.content.Array? && depth <= DEPTH_LIMIT
      modifies this`valueIndex, this`byteIndex, values, data, target
      ensures Valid()
      ensures ok <==> old(Fits(v, depth))
      ensures ok ==> valueIndex == old(valueIndex) + Values(v) && byteIndex == old(byteIndex) + Bytes(v)
      ensures ok ==> Placed(v, target[at], values[..], data[..], old(valueIndex), old(byteIndex))
      ensures forall i :: 0 <= i < old(valueIndex) && !(target == values && i == at) ==> values[i] == old(values[i])
      ensures forall i :: 0 <= i < old(byteIndex) ==> data[i] == old(data[i])
      ensures target != values ==> forall i :: 0 <= i < target.Length && i != at ==> target[i] == old(target[i])
      decreases v, 0, 1
    {
      hide Placed, Values, Bytes, ValuesBelow, BytesBelow, Supported;
      ArraySizes(v, depth);
      var elements := v.content.elements;
      target[at] := EMPTY_FLAT.(nonStandard := v.nonStandard);
      if |elements| > VALUE_LIMIT { return false; }
      target[at] := target[at].(kind := ArrayKind, elementCount := |elements|);
      if |elements| > values.Length - valueIndex { return false; }
      var first := valueIndex;
      valueIndex := valueIndex + |elements|;
      target[at] := target[at].(first := if elements == [] then None else Some(first));
      ok := CopyElements(v, first, depth);
      if ok {
        ArrayPlaced(v, target[at], values[..], data[..], first, old(byteIndex));
      }
    }

    /** The loop over the elements, whose records are already reserved from `first` on. */
    method CopyElements(v: Value, first: nat, depth: nat) returns (ok: bool)
      requires Valid() && v.content.Array? && depth <= DEPTH_LIMIT && valueIndex == first + |Elements(v)|
      modifies this`valueIndex, this`byteIndex, values, data
      ensures Valid()
      ensures ok <==> Supported(v, depth) && first + Values(v) <= values.Length && old(byteIndex) + Bytes(v) <= data.Length
      ensures ok ==> valueIndex == first + Values(v) && byteIndex == old(byteIndex) + Bytes(v)
      ensures ok ==> PlacedBelow(v, |Elements(v)|, values[..], data[..], first, old(byteIndex))
      ensures forall i :: 0 <= i < first ==> values[i] == old(values[i])
      ensures forall i :: 0 <= i < old(byteIndex) ==> data[i] == old(data[i])
      decreases v, 0, 0
    {
      hide Placed, Values, Bytes, ValuesBelow, BytesBelow, Supported;
      ArraySizes(v, depth);
      var elements := v.content.elements;
      ghost var b0 := byteIndex;
      var i := 0;
      while i < |elements|
        invariant i <= |elements| && Valid()
        invariant valueIndex == first + |elements| + ValuesBelow(v, i) && byteIndex == b0 + BytesBelow(v, i)
        invariant SupportedBelow(v, i, depth) && PlacedBelow(v, i, values[..], data[..], first, b0)
        invariant forall k :: 0 <= k < first ==> values[k] == old(values[k])
        invariant forall k :: 0 <= k < b0 ==> data[k] == old(data[k])
      {
        ghost var values0, data0 := values[..], data[..];
        var copied := CopyValue(elements[i], values, first + i, depth + 1);
        ElementBelow(v, i);
        BelowMonotone(v, i + 1, |elements|);
        if !copied {
          return false;
        }
        PlacedBelowFrame(v, i, values0, values[..], data0, data[..], first, b0);
        assert PlacedElement(v, i, values[..], data[..], first, b0);
        i := i + 1;
      }
      ok := true;
    }
  }

  lemma ArraySizes(v: Value, depth: nat)
    requires v.content.Array?
    ensures Values(v) == |Elements(v)| + ValuesBelow(v, |Elements(v)|) && Bytes(v) == BytesBelow(v, |Elements(v)|)
    ensures Supported(v, depth) <==> depth <= DEPTH_LIMIT && SupportedBelow(v, |Elements(v)|, depth)
    ensures ValuesBelow(v, 0) == 0 && BytesBelow(v, 0) == 0
  {
  }

  lemma ArrayPlaced(v: Value, flat: Flat, values: seq<Flat>, data: seq<Byte>, v0: nat, b0: nat)
    requires v.content.Array? && v0 + Values(v) <= |values| && b0 + Bytes(v) <= |data|
    requires flat.kind == ArrayKind && flat.nonStandard == v.nonStandard && flat.elementCount == |Elements(v)|
    requires flat.first == (if Elements(v) == [] then None else Some(v0))
    requires PlacedBelow(v, |Elements(v)|, values, data, v0, b0)
    ensures Placed(v, flat, values, data, v0, b0)
  {
  }

  datatype Status = Success | Malformed | AllocationFailed

  /** The count pass over the whole list. */
  method CountList(ps: seq<Property>) returns (ok: bool, values: nat, bytes: nat)
    ensures ok <==> ListSupported(ps, |ps|) && ListValues(ps, |ps|) <= WORD_MAX && ListBytes(ps, |ps|) <= WORD_MAX
    ensures ok ==> values == ListValues(ps, |ps|) && bytes == ListBytes(ps, |ps|)
  {
    hide Supported, Values, Bytes;
    ok, values, bytes := false, 0, 0;
    var i := 0;
    while i < |ps|
      invariant i <= |ps| && ListSupported(ps, i)
      invariant values == ListValues(ps, i) <= WORD_MAX && bytes == ListBytes(ps, i) <= WORD_MAX
    {
      PropertyBelow(ps, i);
      ListMonotone(ps, i + 1, |ps|);
      if bytes > WORD_MAX - |ps[i].name| || bytes + |ps[i].name| > WORD_MAX - 1 {
        return;
      }
      var counted;
      counted, values, bytes := CountValue(ps[i].value, values, bytes + |ps[i].name| + 1, 0);
      if !counted {
        return;
      }
      i := i + 1;
    }
    ok := true;
  }

  /** The copy pass over the whole list. */
  method CopyList(ps: seq<Property>, arena: Arena, names: array<Option<nat>>, records: array<Flat>) returns (ok: bool)
    requires arena.Valid() && arena.valueIndex == 0 && arena.byteIndex == 0
    requires names.Length == |ps| == records.Length
    requires names as object != arena.data && records as object != arena.data && names as object != arena.values
    requires names as object != records && records != arena.values
    modifies arena, arena.values, arena.data, names, records
    ensures ok <==> ListSupported(ps, |ps|) && ListValues(ps, |ps|) <= arena.values.Length && ListBytes(ps, |ps|) <= arena.data.Length
    ensures ok ==> arena.valueIndex == ListValues(ps, |ps|) && arena.byteIndex == ListBytes(ps, |ps|)
    ensures ok ==> PlacedList(ps, |ps|, Copy(names[..], records[..], arena.values[..], arena.data[..]))
  {
    hide Supported, Values, Bytes, Placed, ListValues, ListBytes, Run;
    ListStart(ps);
    var i := 0;
    ok := true;
    while i < |ps|
      invariant i <= |ps| && arena.Valid() && ok && ListSupported(ps, i)
      invariant arena.valueIndex == ListValues(ps, i) && arena.byteIndex == ListBytes(ps, i)
      invariant PlacedList(ps, i, Copy(names[..], records[..], arena.values[..], arena.data[..]))
    {
      ghost var before := Copy(names[..], records[..], arena.values[..], arena.data[..]);
      PropertyBelow(ps, i);
      ListMonotone(ps, i + 1, |ps|);
      var named, name := arena.CopyBytes(ps[i].name, true);
      if !named {
        return false;
      }
      ghost var run := arena.data[..];
      ok := arena.CopyValue(ps[i].value, records, i, 0);
      if !ok {
        return;
      }
      names[i] := name;
      ghost var after := Copy(names[..], records[..], arena.values[..], arena.data[..]);
      PlacedListFrame(ps, i, before, after);
      RunFrame(run, arena.data[..], ListBytes(ps, i), ps[i].name, true);
      assert PlacedProperty(ps, i, after);
      i := i + 1;
    }
  }

  /**
   `populate_acpi_properties` once the list is evaluated; `memory` says whether the three allocations
   succeed. Within the limits of the index types the copy pass cannot fail, and it ends exactly at the
   counted totals.
   */
  method Populate(ps: seq<Property>, memory: bool) returns (status: Status, copy: Copy)
    ensures status == (
      if |ps| > PROPERTY_LIMIT || !ListSupported(ps, |ps|)
         || ListValues(ps, |ps|) > VALUE_LIMIT || ListBytes(ps, |ps|) > BYTE_LIMIT then Malformed
      else if !memory then AllocationFailed else Success)
    ensures status.Success? ==>
      && |copy.values| == ListValues(ps, |ps|) && |copy.data| == ListBytes(ps, |ps|)
      && |copy.names| == |copy.records| == |ps| && PlacedList(ps, |ps|, copy)
    ensures !status.Success? ==> copy == Copy([], [], [], [])
  {
    hide ListSupported, ListValues, ListBytes, PlacedList;
    copy := Copy([], [], [], []);
    if |ps| > PROPERTY_LIMIT {
      return Malformed, copy;
    }
    var counted, values, bytes := CountList(ps);
    if !counted || values > VALUE_LIMIT || bytes > BYTE_LIMIT {
      return Malformed, copy;
    }
    if !memory {
      return AllocationFailed, copy;
    }
    var names := new Option<nat>[|ps|](_ => None);
    var records := new Flat[|ps|](_ => EMPTY_FLAT);
    var arena := new Arena(values, bytes);
    var copied := CopyList(ps, arena, names, records);
    if !copied || arena.valueIndex != values || arena.byteIndex != bytes {
      return Malformed, copy;
    }
    return Success, Copy(names[..], records[..], arena.values[..], arena.data[..]);
  }

  lemma ListStart(ps: seq<Property>)
    ensures ListValues(ps, 0) == 0 && ListBytes(ps, 0) == 0
  {
  }
}
