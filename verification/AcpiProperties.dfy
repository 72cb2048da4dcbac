/**
 The two-pass flattening of `_DSD` property trees in `mecocoa/devsman-acpi.cpp`.

 A tree is counted, two arenas of exactly the counted sizes are allocated, and the tree is copied into
 them: array elements into a table of records, strings, buffers and paths into a run of bytes. Pointers
 into an arena are modelled by their offsets.
 */
module AcpiProperties {
  import opened FileBytes

  const DEPTH_LIMIT: nat := 8
  const WORD_MAX: nat := 0xFFFF_FFFF_FFFF_FFFF
  const VALUE_LIMIT: nat := 0xFFFF
  const BYTE_LIMIT: nat := 0xFFFF_FFFF

  /** `ACPIDSD::Value`; a reference carries the path `FormatPath` gives for it, if it gives one. */
  datatype Content =
    | Integer(integer: nat)
    | Text(text: seq<Byte>)
    | Buffer(buffer: seq<Byte>)
    | Reference(path: Option<seq<Byte>>)
    | Array(elements: seq<Value>)
    | Unsupported

  datatype Value = Value(content: Content, nonStandard: bool)

  datatype Property = Property(name: seq<Byte>, value: Value)

  datatype Kind = NoKind | IntegerKind | TextKind | BufferKind | ReferenceKind | ArrayKind

  /** `DeviceAcpiPropertyValue`. */
  datatype Flat = Flat(kind: Kind, nonStandard: bool, integer: nat, length: nat, elementCount: nat,
                       data: Option<nat>, path: Option<nat>, first: Option<nat>)

  const EMPTY_FLAT := Flat(NoKind, false, 0, 0, 0, None, None, None)

  // ---- Sizes ----

  function Elements(v: Value): seq<Value> {
    if v.content.Array? then v.content.elements else []
  }

  /** Records the elements of `v` and of everything below it need. */
  function Values(v: Value): nat
    decreases v, |Elements(v)| + 1
  {
    |Elements(v)| + ValuesBelow(v, |Elements(v)|)
  }

  /** The same for the subtrees of the first `n` elements. */
  function ValuesBelow(v: Value, n: nat): nat
    requires n <= |Elements(v)|
    decreases v, n
  {
    if n == 0 then 0 else ValuesBelow(v, n - 1) + Values(Elements(v)[n - 1])
  }

  /** Bytes of the value itself; strings and paths are terminated. */
  function OwnBytes(v: Value): nat {
    match v.content
    case Text(text) => |text| + 1
    case Buffer(buffer) => |buffer|
    case Reference(Some(path)) => |path| + 1
    case _ => 0
  }

  function Bytes(v: Value): nat
    decreases v, |Elements(v)| + 1
  {
    OwnBytes(v) + BytesBelow(v, |Elements(v)|)
  }

  function BytesBelow(v: Value, n: nat): nat
    requires n <= |Elements(v)|
    decreases v, n
  {
    if n == 0 then 0 else BytesBelow(v, n - 1) + Bytes(Elements(v)[n - 1])
  }

  /** Known types, formattable references, and no nesting past the limit. */
  predicate Supported(v: Value, depth: nat)
    decreases v
  {
    && depth <= DEPTH_LIMIT && !v.content.Unsupported?
    && (v.content.Reference? ==> v.content.path.Some?)
    && forall i :: 0 <= i < |Elements(v)| ==> Supported(Elements(v)[i], depth + 1)
  }

  predicate SupportedBelow(v: Value, n: nat, depth: nat)
    requires n <= |Elements(v)|
  {
    forall i :: 0 <= i < n ==> Supported(Elements(v)[i], depth + 1)
  }

  /** The value at the end of a path of element indices. */
  function NodeAt(v: Value, path: seq<nat>): Option<Value>
    decreases |path|
  {
    if path == [] then Some(v)
    else if path[0] < |Elements(v)| then NodeAt(Elements(v)[path[0]], path[1..])
    else None
  }

  /** Something of a known type; a reference has a path to copy. */
  predicate Copyable(v: Value) {
    !v.content.Unsupported? && v.content != Reference(None)
  }

  ghost predicate NodesCopyable(v: Value, depth: nat) {
    forall path :: NodeAt(v, path).Some? ==> depth + |path| <= 8 && Copyable(NodeAt(v, path).value)
  }

  lemma {:induction false} SupportedNodes(v: Value, depth: nat, path: seq<nat>)
    requires Supported(v, depth) && NodeAt(v, path).Some?
    ensures depth + |path| <= 8 && Copyable(NodeAt(v, path).value)
    decreases |path|
  {
    if path != [] {
      SupportedNodes(Elements(v)[path[0]], depth + 1, path[1..]);
    }
  }

  lemma {:induction false} NodesSupported(v: Value, depth: nat)
    requires NodesCopyable(v, depth)
    ensures Supported(v, depth)
    decreases v
  {
    assert NodeAt(v, []) == Some(v);
    forall i | 0 <= i < |Elements(v)| ensures Supported(Elements(v)[i], depth + 1) {
      forall path | NodeAt(Elements(v)[i], path).Some?
        ensures depth + 1 + |path| <= 8 && Copyable(NodeAt(Elements(v)[i], path).value)
      {
        assert ([i] + path)[1..] == path;
        assert NodeAt(v, [i] + path) == NodeAt(Elements(v)[i], path);
      }
      NodesSupported(Elements(v)[i], depth + 1);
    }
  }

  /** A tree is accepted exactly when each of its values can be copied and lies at most eight arrays deep. */
  lemma SupportedIffNodes(v: Value)
    ensures Supported(v, 0) <==> NodesCopyable(v, 0)
  {
    if Supported(v, 0) {
      forall path | NodeAt(v, path).Some? ensures |path| <= 8 && Copyable(NodeAt(v, path).value) {
        SupportedNodes(v, 0, path);
      }
    }
    if NodesCopyable(v, 0) {
      NodesSupported(v, 0);
    }
  }

  lemma {:induction false} BelowMonotone(v: Value, m: nat, n: nat)
    requires m <= n <= |Elements(v)|
    ensures ValuesBelow(v, m) <= ValuesBelow(v, n) && BytesBelow(v, m) <= BytesBelow(v, n)
    decreases n
  {
    if m < n {
      BelowMonotone(v, m, n - 1);
    }
  }

  // ---- Where a copied value lies ----

  /** The terminated or plain run at `at`. */
  predicate Run(data: seq<Byte>, at: nat, bytes: seq<Byte>, terminate: bool) {
    && at + |bytes| + (if terminate then 1 else 0) <= |data|
    && data[at..at + |bytes|] == bytes
    && (terminate ==> data[at + |bytes|] == 0)
  }

  /**
   The record `flat` is a copy of `v` whose elements lie from record `v0` on and whose bytes lie from
   byte `b0` on: the own part first, then the subtrees in order, with nothing in between.
   */
  predicate Placed(v: Value, flat: Flat, values: seq<Flat>, data: seq<Byte>, v0: nat, b0: nat)
    decreases v, 2
  {
    && flat.nonStandard == v.nonStandard
    && v0 + Values(v) <= |values| && b0 + Bytes(v) <= |data|
    && match v.content
       case Integer(n) => flat.kind == IntegerKind && flat.integer == n
       case Text(text) => flat.kind == TextKind && flat.length == |text| && flat.data == Some(b0) && Run(data, b0, text, true)
       case Buffer(buffer) =>
         && flat.kind == BufferKind && flat.length == |buffer|
         && flat.data == (if buffer == [] then None else Some(b0)) && Run(data, b0, buffer, false)
       case Reference(path) =>
         && flat.kind == ReferenceKind && path.Some? && flat.length == |path.value|
         && flat.path == Some(b0) && Run(data, b0, path.value, true)
       case Array(elements) =>
         && flat.kind == ArrayKind && flat.elementCount == |elements|
         && flat.first == (if elements == [] then None else Some(v0))
         && PlacedBelow(v, |elements|, values, data, v0, b0)
       case Unsupported => false
  }

  /** Element `i` has its record beside its siblings and its subtree after theirs. */
  predicate PlacedElement(v: Value, i: nat, values: seq<Flat>, data: seq<Byte>, v0: nat, b0: nat)
    requires i < |Elements(v)| && v0 + |Elements(v)| <= |values|
    decreases v, 0
  {
    Placed(Elements(v)[i], values[v0 + i], values, data, v0 + |Elements(v)| + ValuesBelow(v, i), b0 + BytesBelow(v, i))
  }

  predicate PlacedBelow(v: Value, n: nat, values: seq<Flat>, data: seq<Byte>, v0: nat, b0: nat)
    requires n <= |Elements(v)| && v0 + |Elements(v)| <= |values|
    decreases v, 1
  {
    forall i :: 0 <= i < n ==> PlacedElement(v, i, values, data, v0, b0)
  }

  /** Arenas that agree where the value lies. */
  predicate SameRegion(values: seq<Flat>, values': seq<Flat>, data: seq<Byte>, data': seq<Byte>, v0: nat, v1: nat, b0: nat, b1: nat) {
    && v0 <= v1 <= |values| == |values'| && b0 <= b1 <= |data| == |data'|
    && (forall i :: v0 <= i < v1 ==> values[i] == values'[i])
    && (forall i :: b0 <= i < b1 ==> data[i] == data'[i])
  }

  lemma RunFrame(data: seq<Byte>, data': seq<Byte>, at: nat, bytes: seq<Byte>, terminate: bool)
    requires Run(data, at, bytes, terminate) && |data'| == |data|
    requires forall i :: at <= i < at + |bytes| + (if terminate then 1 else 0) ==> data[i] == data'[i]
    ensures Run(data', at, bytes, terminate)
  {
    assert data'[at..at + |bytes|] == data[at..at + |bytes|];
  }

  /** A placed value depends only on its own stretch of the arenas. */
  lemma {:induction false} PlacedFrame(v: Value, flat: Flat, values: seq<Flat>, values': seq<Flat>, data: seq<Byte>, data': seq<Byte>, v0: nat, b0: nat)
    requires Placed(v, flat, values, data, v0, b0)
    requires SameRegion(values, values', data, data', v0, v0 + Values(v), b0, b0 + Bytes(v))
    ensures Placed(v, flat, values', data', v0, b0)
    decreases v, 1
  {
    match v.content
    case Text(text) => RunFrame(data, data', b0, text, true);
    case Buffer(buffer) => RunFrame(data, data', b0, buffer, false);
    case Reference(Some(path)) => RunFrame(data, data', b0, path, true);
    case Array(elements) => PlacedBelowFrame(v, |elements|, values, values', data, data', v0, b0);
    case _ =>
  }

  lemma {:induction false} PlacedBelowFrame(v: Value, n: nat, values: seq<Flat>, values': seq<Flat>, data: seq<Byte>, data': seq<Byte>, v0: nat, b0: nat)
    requires v.content.Array? && n <= |Elements(v)|
    requires v0 + |Elements(v)| <= |values| && PlacedBelow(v, n, values, data, v0, b0)
    requires SameRegion(values, values', data, data', v0 + |Elements(v)|, v0 + |Elements(v)| + ValuesBelow(v, n), b0, b0 + BytesBelow(v, n))
    requires forall i :: v0 <= i < v0 + n ==> values[i] == values'[i]
    ensures PlacedBelow(v, n, values', data', v0, b0)
    decreases v, 0
  {
    hide Placed, Values, Bytes, ValuesBelow, BytesBelow;
    forall i | 0 <= i < n ensures PlacedElement(v, i, values', data', v0, b0) {
      assert PlacedElement(v, i, values, data, v0, b0);
      BelowMonotone(v, i + 1, n);
      ElementBelow(v, i);
      var v1, b1 := v0 + |Elements(v)| + ValuesBelow(v, i), b0 + BytesBelow(v, i);
      PlacedFrame(Elements(v)[i], values[v0 + i], values, values', data, data', v1, b1);
    }
  }

  lemma ElementBelow(v: Value, i: nat)
    requires i < |Elements(v)|
    ensures ValuesBelow(v, i + 1) == ValuesBelow(v, i) + Values(Elements(v)[i])
    ensures BytesBelow(v, i + 1) == BytesBelow(v, i) + Bytes(Elements(v)[i])
  {
  }

  // ---- Reading the arenas back ----

  function Stretch(data: seq<Byte>, at: Option<nat>, length: nat): Option<seq<Byte>> {
    if length == 0 then Some([])
    else if at.Some? && at.value + length <= |data| then Some(data[at.value..at.value + length])
    else None
  }

  /** The tree a record stands for; `fuel` bounds the nesting a reader is ready to follow. */
  function Decode(flat: Flat, values: seq<Flat>, data: seq<Byte>, fuel: nat): Option<Value>
    decreases fuel, 0
  {
    if fuel == 0 then None
    else match flat.kind
      case IntegerKind => Some(Value(Integer(flat.integer), flat.nonStandard))
      case TextKind => (match Stretch(data, flat.data, flat.length)
        case Some(text) => Some(Value(Text(text), flat.nonStandard)) case None => None)
      case BufferKind => (match Stretch(data, flat.data, flat.length)
        case Some(buffer) => Some(Value(Buffer(buffer), flat.nonStandard)) case None => None)
      case ReferenceKind => (match Stretch(data, flat.path, flat.length)
        case Some(path) => Some(Value(Reference(Some(path)), flat.nonStandard)) case None => None)
      case ArrayKind => (match DecodeAll(flat.first, flat.elementCount, values, data, fuel - 1)
        case Some(elements) => Some(Value(Array(elements), flat.nonStandard)) case None => None)
      case NoKind => None
  }

  function DecodeAll(first: Option<nat>, count: nat, values: seq<Flat>, data: seq<Byte>, fuel: nat): Option<seq<Value>>
    decreases fuel, count + 1
  {
    if count == 0 then Some([])
    else if first.None? || first.value + count > |values| then None
    else match (DecodeAll(first, count - 1, values, data, fuel), Decode(values[first.value + count - 1], values, data, fuel))
      case (Some(before), Some(last)) => Some(before + [last])
      case _ => None
  }

  /** Reading back a placed value rebuilds the tree it was copied from. */
  lemma {:induction false} DecodeRebuilds(v: Value, flat: Flat, values: seq<Flat>, data: seq<Byte>, v0: nat, b0: nat, depth: nat)
    requires Placed(v, flat, values, data, v0, b0) && Supported(v, depth)
    ensures Decode(flat, values, data, DEPTH_LIMIT + 1 - depth) == Some(v)
    decreases v, |Elements(v)| + 1
  {
    match v.content
    case Array(elements) =>
      DecodeBelow(v, |elements|, values, data, v0, b0, depth);
      assert elements[..|elements|] == elements;
    case _ =>
  }

  lemma {:induction false} DecodeBelow(v: Value, n: nat, values: seq<Flat>, data: seq<Byte>, v0: nat, b0: nat, depth: nat)
    requires n <= |Elements(v)| && v0 + |Elements(v)| <= |values| && PlacedBelow(v, n, values, data, v0, b0)
    requires Supported(v, depth)
    ensures DecodeAll(if Elements(v) == [] then None else Some(v0), n, values, data, DEPTH_LIMIT - depth) == Some(Elements(v)[..n])
    decreases v, n
  {
    hide Placed, Values, Bytes, ValuesBelow, BytesBelow;
    if n > 0 {
      DecodeBelow(v, n - 1, values, data, v0, b0, depth);
      assert PlacedElement(v, n - 1, values, data, v0, b0);
      DecodeRebuilds(Elements(v)[n - 1], values[v0 + n - 1], values, data,
                     v0 + |Elements(v)| + ValuesBelow(v, n - 1), b0 + BytesBelow(v, n - 1), depth + 1);
      assert Elements(v)[..n] == Elements(v)[..n - 1] + [Elements(v)[n - 1]];
    }
  }

  // ---- Disjointness ----

  datatype Extent = Extent(start: nat, length: nat)

  /** The extents follow one another from `from` to `to` without gap or overlap. */
  predicate Tiles(extents: seq<Extent>, from: nat, to: nat) {
    if extents == [] then from == to
    else extents[0].start == from && Tiles(extents[1..], from + extents[0].length, to)
  }

  lemma {:induction false} TilesJoin(left: seq<Extent>, right: seq<Extent>, from: nat, middle: nat, to: nat)
    requires Tiles(left, from, middle) && Tiles(right, middle, to)
    ensures Tiles(left + right, from, to)
    decreases |left|
  {
    if left == [] {
      assert left + right == right;
    } else {
      TilesJoin(left[1..], right, from + left[0].length, middle, to);
      assert (left + right)[1..] == left[1..] + right;
    }
  }

  lemma {:induction false} TilesDisjoint(extents: seq<Extent>, from: nat, to: nat, i: nat, j: nat)
    requires Tiles(extents, from, to) && i < j < |extents|
    ensures from <= extents[i].start && extents[i].start + extents[i].length <= extents[j].start
    ensures extents[j].start + extents[j].length <= to
    decreases |extents|
  {
    var next := from + extents[0].length;
    if i > 0 {
      TilesDisjoint(extents[1..], next, to, i - 1, j - 1);
    } else {
      TilesInside(extents[1..], next, to, j - 1);
    }
  }

  lemma {:induction false} TilesInside(extents: seq<Extent>, from: nat, to: nat, i: nat)
    requires Tiles(extents, from, to) && i < |extents|
    ensures from <= extents[i].start && extents[i].start + extents[i].length <= to
    decreases |extents|
  {
    if i > 0 {
      TilesInside(extents[1..], from + extents[0].length, to, i - 1);
    } else {
      TilesOrdered(extents[1..], from + extents[0].length, to);
    }
  }

  lemma {:induction false} TilesOrdered(extents: seq<Extent>, from: nat, to: nat)
    requires Tiles(extents, from, to)
    ensures from <= to
    decreases |extents|
  {
    if extents != [] {
      TilesOrdered(extents[1..], from + extents[0].length, to);
    }
  }

  /** The element slices the records point at, outermost first. */
  function Slices(v: Value, flat: Flat, values: seq<Flat>): seq<Extent>
    decreases v, |Elements(v)| + 1
  {
    if Elements(v) == [] || flat.first.None? then []
    else [Extent(flat.first.value, flat.elementCount)] + SlicesBelow(v, |Elements(v)|, flat.first.value, values)
  }

  function SlicesBelow(v: Value, n: nat, first: nat, values: seq<Flat>): seq<Extent>
    requires n <= |Elements(v)|
    decreases v, n
  {
    if n == 0 || first + n > |values| then []
    else SlicesBelow(v, n - 1, first, values) + Slices(Elements(v)[n - 1], values[first + n - 1], values)
  }

  /** The byte runs the records point at; a terminated run includes its zero. */
  function Runs(v: Value, flat: Flat, values: seq<Flat>): seq<Extent>
    decreases v, |Elements(v)| + 1
  {
    match v.content
    case Text(_) => if flat.data.Some? then [Extent(flat.data.value, flat.length + 1)] else []
    case Buffer(_) => if flat.data.Some? then [Extent(flat.data.value, flat.length)] else []
    case Reference(_) => if flat.path.Some? then [Extent(flat.path.value, flat.length + 1)] else []
    case Array(elements) => if flat.first.None? then [] else RunsBelow(v, |elements|, flat.first.value, values)
    case _ => []
  }

  function RunsBelow(v: Value, n: nat, first: nat, values: seq<Flat>): seq<Extent>
    requires n <= |Elements(v)|
    decreases v, n
  {
    if n == 0 || first + n > |values| then []
    else RunsBelow(v, n - 1, first, values) + Runs(Elements(v)[n - 1], values[first + n - 1], values)
  }

  /** The slices and runs a placed value points at tile exactly its stretch of each arena. */
  lemma {:induction false} PlacedTiles(v: Value, flat: Flat, values: seq<Flat>, data: seq<Byte>, v0: nat, b0: nat)
    requires Placed(v, flat, values, data, v0, b0)
    ensures Tiles(Slices(v, flat, values), v0, v0 + Values(v))
    ensures Tiles(Runs(v, flat, values), b0, b0 + Bytes(v))
    decreases v, |Elements(v)| + 1
  {
    if v.content.Array? {
      TilesBelow(v, |Elements(v)|, values, data, v0, b0);
      ArrayTiles(v, flat, values, data, v0, b0);
    } else {
      LeafTiles(v, flat, values, data, v0, b0);
    }
  }

  lemma TilesOne(start: nat, length: nat)
    ensures Tiles([Extent(start, length)], start, start + length)
  {
    assert [Extent(start, length)][1..] == [];
  }

  lemma LeafTiles(v: Value, flat: Flat, values: seq<Flat>, data: seq<Byte>, v0: nat, b0: nat)
    requires Placed(v, flat, values, data, v0, b0) && !v.content.Array?
    ensures Tiles(Slices(v, flat, values), v0, v0 + Values(v))
    ensures Tiles(Runs(v, flat, values), b0, b0 + Bytes(v))
  {
    TilesOne(b0, Bytes(v));
  }

  lemma ArrayTiles(v: Value, flat: Flat, values: seq<Flat>, data: seq<Byte>, v0: nat, b0: nat)
    requires Placed(v, flat, values, data, v0, b0) && v.content.Array?
    requires Tiles(SlicesBelow(v, |Elements(v)|, v0, values), v0 + |Elements(v)|, v0 + Values(v))
    requires Tiles(RunsBelow(v, |Elements(v)|, v0, values), b0, b0 + Bytes(v))
    ensures Tiles(Slices(v, flat, values), v0, v0 + Values(v))
    ensures Tiles(Runs(v, flat, values), b0, b0 + Bytes(v))
  {
    hide PlacedElement, SlicesBelow, RunsBelow;
    var n := |Elements(v)|;
    if n > 0 {
      TilesOne(v0, n);
      TilesJoin([Extent(v0, n)], SlicesBelow(v, n, v0, values), v0, v0 + n, v0 + Values(v));
    }
  }

  lemma {:induction false} TilesBelow(v: Value, n: nat, values: seq<Flat>, data: seq<Byte>, v0: nat, b0: nat)
    requires n <= |Elements(v)| && v0 + |Elements(v)| <= |values| && PlacedBelow(v, n, values, data, v0, b0)
    ensures Tiles(SlicesBelow(v, n, v0, values), v0 + |Elements(v)|, v0 + |Elements(v)| + ValuesBelow(v, n))
    ensures Tiles(RunsBelow(v, n, v0, values), b0, b0 + BytesBelow(v, n))
    decreases v, n
  {
    hide Placed, Values, Bytes, Slices, Runs;
    if n > 0 {
      TilesBelow(v, n - 1, values, data, v0, b0);
      assert PlacedElement(v, n - 1, values, data, v0, b0);
      var e, record := Elements(v)[n - 1], values[v0 + n - 1];
      var v1, b1 := v0 + |Elements(v)| + ValuesBelow(v, n - 1), b0 + BytesBelow(v, n - 1);
      PlacedTiles(e, record, values, data, v1, b1);
      TilesJoin(SlicesBelow(v, n - 1, v0, values), Slices(e, record, values), v0 + |Elements(v)|, v1, v1 + Values(e));
      TilesJoin(RunsBelow(v, n - 1, v0, values), Runs(e, record, values), b0, b1, b1 + Bytes(e));
    }
  }

  // ---- A device's property list ----

  const PROPERTY_LIMIT: nat := 0xFFFF

  function ListValues(ps: seq<Property>, n: nat): nat
    requires n <= |ps|
  {
    if n == 0 then 0 else ListValues(ps, n - 1) + Values(ps[n - 1].value)
  }

  function ListBytes(ps: seq<Property>, n: nat): nat
    requires n <= |ps|
  {
    if n == 0 then 0 else ListBytes(ps, n - 1) + |ps[n - 1].name| + 1 + Bytes(ps[n - 1].value)
  }

  predicate ListSupported(ps: seq<Property>, n: nat)
    requires n <= |ps|
  {
    forall i :: 0 <= i < n ==> Supported(ps[i].value, 0)
  }

  lemma {:induction false} ListMonotone(ps: seq<Property>, m: nat, n: nat)
    requires m <= n <= |ps|
    ensures ListValues(ps, m) <= ListValues(ps, n) && ListBytes(ps, m) <= ListBytes(ps, n)
    decreases n
  {
    if m < n {
      ListMonotone(ps, m, n - 1);
    }
  }

  lemma PropertyBelow(ps: seq<Property>, i: nat)
    requires i < |ps|
    ensures ListValues(ps, i + 1) == ListValues(ps, i) + Values(ps[i].value)
    ensures ListBytes(ps, i + 1) == ListBytes(ps, i) + |ps[i].name| + 1 + Bytes(ps[i].value)
  {
  }

  /** What a populated device points at: a name and a record per property, and the two arenas. */
  datatype Copy = Copy(names: seq<Option<nat>>, records: seq<Flat>, values: seq<Flat>, data: seq<Byte>)

  predicate PlacedProperty(ps: seq<Property>, i: nat, copy: Copy)
    requires i < |ps| && i < |copy.names| && i < |copy.records|
  {
    var b0 := ListBytes(ps, i);
    && copy.names[i] == Some(b0) && Run(copy.data, b0, ps[i].name, true)
    && Placed(ps[i].value, copy.records[i], copy.values, copy.data, ListValues(ps, i), b0 + |ps[i].name| + 1)
  }

  predicate PlacedList(ps: seq<Property>, n: nat, copy: Copy)
    requires n <= |ps|
  {
    n <= |copy.names| && n <= |copy.records| && forall i :: 0 <= i < n ==> PlacedProperty(ps, i, copy)
  }

  /** Copying the next property disturbs none of those before it. */
  lemma PlacedListFrame(ps: seq<Property>, n: nat, copy: Copy, copy': Copy)
    requires n <= |ps| && PlacedList(ps, n, copy) && n <= |copy'.names| && n <= |copy'.records|
    requires forall i :: 0 <= i < n ==> copy.names[i] == copy'.names[i] && copy.records[i] == copy'.records[i]
    requires SameRegion(copy.values, copy'.values, copy.data, copy'.data, 0, ListValues(ps, n), 0, ListBytes(ps, n))
    ensures PlacedList(ps, n, copy')
  {
    hide Placed, Values, Bytes, ListValues, ListBytes;
    forall i | 0 <= i < n ensures PlacedProperty(ps, i, copy') {
      assert PlacedProperty(ps, i, copy);
      PropertyBelow(ps, i);
      ListMonotone(ps, i + 1, n);
      var b0 := ListBytes(ps, i);
      RunFrame(copy.data, copy'.data, b0, ps[i].name, true);
      PlacedFrame(ps[i].value, copy.records[i], copy.values, copy'.values, copy.data, copy'.data, ListValues(ps, i), b0 + |ps[i].name| + 1);
    }
  }

  /** A populated device gives every property back: its name, and by reading the arenas its whole tree. */
  lemma PropertyRebuilt(ps: seq<Property>, i: nat, copy: Copy)
    requires i < |ps| && PlacedList(ps, |ps|, copy) && ListSupported(ps, |ps|)
    ensures Stretch(copy.data, copy.names[i], |ps[i].name|) == Some(ps[i].name)
    ensures Decode(copy.records[i], copy.values, copy.data, DEPTH_LIMIT + 1) == Some(ps[i].value)
  {
    hide Placed;
    assert PlacedProperty(ps, i, copy);
    DecodeRebuilds(ps[i].value, copy.records[i], copy.values, copy.data, ListValues(ps, i), ListBytes(ps, i) + |ps[i].name| + 1, 0);
  }

  function ListSlices(ps: seq<Property>, n: nat, copy: Copy): seq<Extent>
    requires n <= |ps|
  {
    if n == 0 || n > |copy.records| then []
    else ListSlices(ps, n - 1, copy) + Slices(ps[n - 1].value, copy.records[n - 1], copy.values)
  }

  function ListRuns(ps: seq<Property>, n: nat, copy: Copy): seq<Extent>
    requires n <= |ps|
  {
    if n == 0 || n > |copy.records| || n > |copy.names| || copy.names[n - 1].None? then []
    else
      ListRuns(ps, n - 1, copy) + ([Extent(copy.names[n - 1].value, |ps[n - 1].name| + 1)]
      + Runs(ps[n - 1].value, copy.records[n - 1], copy.values))
  }

  /** Everything a populated device points at tiles the two arenas: no overlap and no byte or record unused. */
  lemma {:induction false} ListTiles(ps: seq<Property>, n: nat, copy: Copy)
    requires n <= |ps| && PlacedList(ps, n, copy)
    ensures Tiles(ListSlices(ps, n, copy), 0, ListValues(ps, n))
    ensures Tiles(ListRuns(ps, n, copy), 0, ListBytes(ps, n))
    decreases n
  {
    hide Placed, Slices, Runs, Values, Bytes;
    if n > 0 {
      ListTiles(ps, n - 1, copy);
      assert PlacedProperty(ps, n - 1, copy);
      var p, v0, b0 := ps[n - 1], ListValues(ps, n - 1), ListBytes(ps, n - 1);
      var b1 := b0 + |p.name| + 1;
      PlacedTiles(p.value, copy.records[n - 1], copy.values, copy.data, v0, b1);
      TilesOne(b0, |p.name| + 1);
      var runs := Runs(p.value, copy.records[n - 1], copy.values);
      TilesJoin([Extent(b0, |p.name| + 1)], runs, b0, b1, b1 + Bytes(p.value));
      TilesJoin(ListRuns(ps, n - 1, copy), [Extent(b0, |p.name| + 1)] + runs, 0, b0, b1 + Bytes(p.value));
      TilesJoin(ListSlices(ps, n - 1, copy), Slices(p.value, copy.records[n - 1], copy.values), 0, v0, v0 + Values(p.value));
    }
  }
}
