/**
 Names with compression pointers, section 4.1.4 of RFC 1035: a name is a path through the packet, label by label and
 pointer by pointer, and the reader returns exactly what the path spells.
 */
module DnsPaths {
  import opened FileBytes
  import opened DnsNames

  datatype Part = Label(bytes: seq<Octet>) | Jump(target: nat)

  /** The path starts at `cursor` and ends at a zero length. A pointer is two bytes: 11, then fourteen bits of offset. */
  predicate Follows(packet: seq<Octet>, cursor: nat, path: seq<Part>)
    decreases |path|
  {
    if path == [] then cursor < |packet| && packet[cursor] == 0
    else match path[0]
      case Label(bytes) =>
        && 1 <= |bytes| <= 63 && cursor + 1 + |bytes| <= |packet| && packet[cursor] == |bytes|
        && packet[cursor + 1..cursor + 1 + |bytes|] == bytes && Follows(packet, cursor + 1 + |bytes|, path[1..])
      case Jump(target) =>
        && target < 16384 && cursor + 1 < |packet| && packet[cursor] == 192 + target / 256 && packet[cursor + 1] == target % 256
        && Follows(packet, target, path[1..])
  }

  function Labels(path: seq<Part>): seq<seq<Octet>> {
    if path == [] then [] else (if path[0].Label? then [path[0].bytes] else []) + Labels(path[1..])
  }

  /** Where the name ends in the packet: behind its zero length or behind its first pointer. */
  function EndOf(cursor: nat, path: seq<Part>): nat
    decreases |path|
  {
    if path == [] then cursor + 1
    else match path[0]
      case Label(bytes) => EndOf(cursor + 1 + |bytes|, path[1..])
      case Jump(_) => cursor + 2
  }

  /** The text of the labels: dots between them, a lone dot for none. */
  function TextOf(labels: seq<seq<Octet>>): seq<Octet> {
    if labels == [] then [DOT] else Join(labels)
  }

  // ---- Reading follows the path ----

  function Dotted(text: seq<Octet>): seq<Octet> {
    if text == [] then [] else text + [DOT]
  }

  /** What the reader has once the labels are appended. */
  function Appended(text: seq<Octet>, labels: seq<seq<Octet>>): seq<Octet> {
    if labels == [] then text else Dotted(text) + Join(labels)
  }

  lemma AppendedStep(text: seq<Octet>, labels: seq<seq<Octet>>)
    requires labels != [] && labels[0] != []
    ensures Appended(text, labels) == Appended(Dotted(text) + labels[0], labels[1..])
    ensures |Dotted(text)| + |labels[0]| <= |Appended(text, labels)|
  {
    if |labels| > 1 {
      assert Dotted(text) + (labels[0] + [DOT] + Join(labels[1..])) == Dotted(text) + labels[0] + [DOT] + Join(labels[1..]);
    }
  }

  /** What reading gives from here on, if the path is short enough and the text fits. */
  function Outcome(cursor: nat, text: seq<Octet>, path: seq<Part>, capacity: nat, next: Option<nat>, steps: nat): Option<Name> {
    var all := Appended(text, Labels(path));
    var spelled := if all == [] then [DOT] else all;
    if |path| < steps && |spelled| < capacity
    then Some(Name(spelled, if next.Some? then next.value else EndOf(cursor, path))) else None
  }

  lemma ReadEnds(packet: seq<Octet>, cursor: nat, text: seq<Octet>, capacity: nat, next: Option<nat>, steps: nat)
    requires Follows(packet, cursor, []) && |text| < capacity
    ensures ReadFrom(packet, cursor, text, capacity, next, steps) == Outcome(cursor, text, [], capacity, next, steps)
  {
  }

  lemma ReadLabel(packet: seq<Octet>, cursor: nat, text: seq<Octet>, path: seq<Part>, capacity: nat, next: Option<nat>, steps: nat)
    requires path != [] && path[0].Label? && Follows(packet, cursor, path) && |text| < capacity && steps > 0
    ensures var bytes := path[0].bytes;
      ReadFrom(packet, cursor, text, capacity, next, steps) ==
        if |Dotted(text)| + |bytes| >= capacity then None
        else ReadFrom(packet, cursor + 1 + |bytes|, Dotted(text) + bytes, capacity, next, steps - 1)
  {
  }

  lemma PointerBytes(target: nat)
    requires target < 16384
    ensures 0 <= target / 256 < 64 && Pointer(192 + target / 256, target % 256) == target
  {
  }

  lemma ReadJump(packet: seq<Octet>, cursor: nat, text: seq<Octet>, path: seq<Part>, capacity: nat, next: Option<nat>, steps: nat)
    requires path != [] && path[0].Jump? && Follows(packet, cursor, path) && steps > 0
    ensures ReadFrom(packet, cursor, text, capacity, next, steps) ==
      ReadFrom(packet, path[0].target, text, capacity, Some(if next.Some? then next.value else cursor + 2), steps - 1)
  {
    PointerBytes(path[0].target);
  }

  lemma {:induction false} ReadFollows(packet: seq<Octet>, cursor: nat, text: seq<Octet>, path: seq<Part>, capacity: nat, next: Option<nat>, steps: nat)
    requires Follows(packet, cursor, path) && |text| < capacity
    ensures ReadFrom(packet, cursor, text, capacity, next, steps) == Outcome(cursor, text, path, capacity, next, steps)
    decreases |path|
  {
    hide ReadFrom, Join;
    if path == [] {
      ReadEnds(packet, cursor, text, capacity, next, steps);
    } else if steps == 0 {
      NoSteps(packet, cursor, text, capacity, next);
    } else if path[0].Label? {
      var bytes := path[0].bytes;
      ReadLabel(packet, cursor, text, path, capacity, next, steps);
      assert Labels(path)[1..] == Labels(path[1..]) && Labels(path)[0] == bytes;
      AppendedStep(text, Labels(path));
      if |Dotted(text)| + |bytes| < capacity {
        ReadFollows(packet, cursor + 1 + |bytes|, Dotted(text) + bytes, path[1..], capacity, next, steps - 1);
      }
    } else {
      ReadJump(packet, cursor, text, path, capacity, next, steps);
      assert Labels(path) == Labels(path[1..]);
      ReadFollows(packet, path[0].target, text, path[1..], capacity,
                  Some(if next.Some? then next.value else cursor + 2), steps - 1);
    }
  }

  lemma NoSteps(packet: seq<Octet>, cursor: nat, text: seq<Octet>, capacity: nat, next: Option<nat>)
    ensures ReadFrom(packet, cursor, text, capacity, next, 0) == None
  {
  }

  /**
   On every packet: a name that follows a path reads as the path's labels and ends behind its zero length or its first
   pointer, if and only if the path has at most 31 labels and pointers and the text fits.
   */
  lemma ReadsThePath(packet: seq<Octet>, offset: nat, path: seq<Part>, capacity: nat)
    requires Follows(packet, offset, path)
    ensures Read(packet, offset, capacity) ==
      if |path| <= 31 && |TextOf(Labels(path))| < capacity then Some(Name(TextOf(Labels(path)), EndOf(offset, path))) else None
  {
    if capacity > 0 {
      ReadFollows(packet, offset, [], path, capacity, None, STEP_LIMIT);
      if Labels(path) != [] {
        LabelsFilled(packet, offset, path);
        assert Appended([], Labels(path)) == Join(Labels(path));
        JoinFilled(Labels(path));
      }
    }
  }

  lemma {:induction false} LabelsFilled(packet: seq<Octet>, cursor: nat, path: seq<Part>)
    requires Follows(packet, cursor, path)
    ensures forall i :: 0 <= i < |Labels(path)| ==> Labels(path)[i] != []
    decreases |path|
  {
    if path != [] {
      LabelsFilled(packet, if path[0].Label? then cursor + 1 + |path[0].bytes| else path[0].target, path[1..]);
    }
  }

  lemma JoinFilled(labels: seq<seq<Octet>>)
    requires labels != [] && labels[0] != []
    ensures Join(labels) != []
  {
  }

  // ---- Nothing else reads ----

  lemma {:induction false} ReadHasPath(packet: seq<Octet>, cursor: nat, text: seq<Octet>, capacity: nat, next: Option<nat>, steps: nat) returns (path: seq<Part>)
    requires ReadFrom(packet, cursor, text, capacity, next, steps).Some?
    ensures Follows(packet, cursor, path) && |path| < steps
    decreases steps
  {
    var part := packet[cursor];
    if part == 0 {
      path := [];
    } else if part >= 192 {
      var target := Pointer(part, packet[cursor + 1]);
      var rest := ReadHasPath(packet, target, text, capacity, Some(if next.Some? then next.value else cursor + 2), steps - 1);
      path := [Jump(target)] + rest;
      assert path[1..] == rest;
    } else {
      var bytes := packet[cursor + 1..cursor + 1 + part];
      var rest := ReadHasPath(packet, cursor + 1 + part, Dotted(text) + bytes, capacity, next, steps - 1);
      path := [Label(bytes)] + rest;
      assert path[1..] == rest;
    }
  }

  /** A name reads, with enough room, exactly when it follows some path of at most 31 labels and pointers: pointer loops never do. */
  lemma ReadsIffPath(packet: seq<Octet>, offset: nat)
    ensures (exists capacity :: Read(packet, offset, capacity).Some?) <==> exists path :: Follows(packet, offset, path) && |path| <= 31
  {
    if capacity :| Read(packet, offset, capacity).Some? {
      var path := ReadHasPath(packet, offset, [], capacity, None, STEP_LIMIT);
    }
    if path :| Follows(packet, offset, path) && |path| <= 31 {
      ReadsThePath(packet, offset, path, |TextOf(Labels(path))| + 1);
      assert Read(packet, offset, |TextOf(Labels(path))| + 1).Some?;
    }
  }

  // ---- Skipping stops at the first pointer ----

  /** From `cursor`, the labels and then a zero length or a pointer, behind which lies `end`. */
  predicate Leads(packet: seq<Octet>, cursor: nat, labels: seq<seq<Octet>>, end: nat)
    decreases |labels|
  {
    if labels == [] then
      cursor < |packet| &&
      ((packet[cursor] == 0 && end == cursor + 1) || (packet[cursor] >= 192 && cursor + 1 < |packet| && end == cursor + 2))
    else
      var bytes := labels[0];
      && 1 <= |bytes| <= 63 && cursor + 1 + |bytes| <= |packet| && packet[cursor] == |bytes|
      && packet[cursor + 1..cursor + 1 + |bytes|] == bytes && Leads(packet, cursor + 1 + |bytes|, labels[1..], end)
  }

  lemma {:induction false} LeadsSkips(packet: seq<Octet>, cursor: nat, labels: seq<seq<Octet>>, end: nat, steps: nat)
    requires Leads(packet, cursor, labels, end)
    ensures SkipFrom(packet, cursor, steps) == if |labels| < steps then Some(end) else None
    decreases |labels|
  {
    if labels != [] && steps > 0 {
      LeadsSkips(packet, cursor + 1 + |labels[0]|, labels[1..], end, steps - 1);
    }
  }

  lemma {:induction false} SkipLeads(packet: seq<Octet>, cursor: nat, steps: nat) returns (labels: seq<seq<Octet>>)
    requires SkipFrom(packet, cursor, steps).Some?
    ensures |labels| < steps && Leads(packet, cursor, labels, SkipFrom(packet, cursor, steps).value)
    decreases steps
  {
    var part := packet[cursor];
    if part == 0 || part >= 192 {
      labels := [];
    } else {
      var rest := SkipLeads(packet, cursor + 1 + part, steps - 1);
      labels := [packet[cursor + 1..cursor + 1 + part]] + rest;
      assert labels[1..] == rest;
    }
  }

  /** Skipping ends at an offset exactly when at most 31 labels lead there, through a zero length or a pointer. */
  lemma SkipsIffLeads(packet: seq<Octet>, offset: nat, end: nat)
    ensures Skip(packet, offset) == Some(end) <==> exists labels :: Leads(packet, offset, labels, end) && |labels| <= 31
  {
    if Skip(packet, offset) == Some(end) {
      var labels := SkipLeads(packet, offset, STEP_LIMIT);
    }
    if labels :| Leads(packet, offset, labels, end) && |labels| <= 31 {
      LeadsSkips(packet, offset, labels, end, STEP_LIMIT);
    }
  }

  // ---- A compressed name ----

  /** Each label behind its length, without an end. */
  function Stem(labels: seq<seq<Octet>>): seq<Octet>
    requires ValidLabels(labels)
  {
    if labels == [] then [] else Prefixed(labels[0]) + Stem(labels[1..])
  }

  function LabelParts(labels: seq<seq<Octet>>): (parts: seq<Part>)
    ensures |parts| == |labels|
  {
    seq(|labels|, i requires 0 <= i < |labels| => Label(labels[i]))
  }

  lemma {:induction false} PartsSpell(labels: seq<seq<Octet>>, rest: seq<Part>)
    ensures Labels(LabelParts(labels) + rest) == labels + Labels(rest)
  {
    if labels == [] {
      assert LabelParts(labels) + rest == rest;
    } else {
      PartsSpell(labels[1..], rest);
      assert (LabelParts(labels) + rest)[1..] == LabelParts(labels[1..]) + rest;
      assert labels == [labels[0]] + labels[1..];
    }
  }

  lemma LabelFollows(packet: seq<Octet>, cursor: nat, part: seq<Octet>, rest: seq<Part>)
    requires ValidLabel(part) && At(packet, cursor, Prefixed(part)) && Follows(packet, cursor + 1 + |part|, rest)
    ensures Follows(packet, cursor, [Label(part)] + rest)
    ensures EndOf(cursor, [Label(part)] + rest) == EndOf(cursor + 1 + |part|, rest)
  {
    AtParts(packet, cursor, [|part|], part);
    assert packet[cursor + 0] == [|part|][0];
    assert packet[cursor + 1..cursor + 1 + |part|] == part;
    assert ([Label(part)] + rest)[1..] == rest;
  }

  lemma {:induction false} StemFollows(packet: seq<Octet>, cursor: nat, labels: seq<seq<Octet>>, rest: seq<Part>)
    requires ValidLabels(labels) && At(packet, cursor, Stem(labels)) && Follows(packet, cursor + |Stem(labels)|, rest)
    ensures Follows(packet, cursor, LabelParts(labels) + rest)
    ensures EndOf(cursor, LabelParts(labels) + rest) == EndOf(cursor + |Stem(labels)|, rest)
    decreases |labels|
  {
    hide At, Follows, EndOf;
    if labels == [] {
      assert LabelParts(labels) + rest == rest;
    } else {
      AtParts(packet, cursor, Prefixed(labels[0]), Stem(labels[1..]));
      StemFollows(packet, cursor + 1 + |labels[0]|, labels[1..], rest);
      LabelFollows(packet, cursor, labels[0], LabelParts(labels[1..]) + rest);
      assert LabelParts(labels) + rest == [Label(labels[0])] + (LabelParts(labels[1..]) + rest);
    }
  }

  lemma {:induction false} WireIsStem(labels: seq<seq<Octet>>)
    requires ValidLabels(labels)
    ensures Wire(labels) == Stem(labels) + [0]
  {
    if labels != [] {
      WireIsStem(labels[1..]);
    }
  }

  /** The wire form of labels is a path of just these labels. */
  lemma WireFollows(packet: seq<Octet>, offset: nat, labels: seq<seq<Octet>>)
    requires ValidLabels(labels) && At(packet, offset, Wire(labels))
    ensures Follows(packet, offset, LabelParts(labels))
  {
    WireIsStem(labels);
    AtParts(packet, offset, Stem(labels), [0]);
    assert packet[offset + |Stem(labels)| + 0] == [0][0];
    StemFollows(packet, offset, labels, []);
    assert LabelParts(labels) + [] == LabelParts(labels);
  }

  function CompressedPath(before: seq<seq<Octet>>, target: nat, after: seq<seq<Octet>>): seq<Part> {
    LabelParts(before) + ([Jump(target)] + LabelParts(after))
  }

  lemma CompressedSpells(before: seq<seq<Octet>>, target: nat, after: seq<seq<Octet>>)
    ensures Labels(CompressedPath(before, target, after)) == before + after
    ensures |CompressedPath(before, target, after)| == |before| + 1 + |after|
  {
    hide LabelParts;
    var rest := [Jump(target)] + LabelParts(after);
    PartsSpell(before, rest);
    PartsSpell(after, []);
    assert LabelParts(after) + [] == LabelParts(after) && after + [] == after;
    assert rest[1..] == LabelParts(after);
  }

  lemma JumpFollows(packet: seq<Octet>, cursor: nat, target: nat, rest: seq<Part>)
    requires target < 16384 && At(packet, cursor, [192 + target / 256, target % 256]) && Follows(packet, target, rest)
    ensures Follows(packet, cursor, [Jump(target)] + rest) && EndOf(cursor, [Jump(target)] + rest) == cursor + 2
  {
    var pointer := [192 + target / 256, target % 256];
    assert packet[cursor + 0] == pointer[0] && packet[cursor + 1] == pointer[1];
    assert ([Jump(target)] + rest)[1..] == rest;
  }

  lemma CompressedFollows(packet: seq<Octet>, offset: nat, before: seq<seq<Octet>>, target: nat, after: seq<seq<Octet>>)
    requires ValidLabels(before) && ValidLabels(after) && target < 16384
    requires At(packet, offset, Stem(before) + [192 + target / 256, target % 256]) && At(packet, target, Wire(after))
    ensures Follows(packet, offset, CompressedPath(before, target, after))
    ensures EndOf(offset, CompressedPath(before, target, after)) == offset + |Stem(before)| + 2
  {
    hide At, Wire, Follows, EndOf, LabelParts;
    AtParts(packet, offset, Stem(before), [192 + target / 256, target % 256]);
    WireFollows(packet, target, after);
    JumpFollows(packet, offset + |Stem(before)|, target, LabelParts(after));
    StemFollows(packet, offset, before, [Jump(target)] + LabelParts(after));
  }

  /**
   Some labels, then a pointer to the wire form of others: the name reads as all of them and ends behind the pointer, if and
   only if there are at most 30 labels and the text fits.
   */
  lemma CompressedNameReads(packet: seq<Octet>, offset: nat, before: seq<seq<Octet>>, target: nat, after: seq<seq<Octet>>, capacity: nat)
    requires ValidLabels(before) && ValidLabels(after) && target < 16384
    requires At(packet, offset, Stem(before) + [192 + target / 256, target % 256]) && At(packet, target, Wire(after))
    ensures Read(packet, offset, capacity) ==
      if |before| + |after| <= 30 && |TextOf(before + after)| < capacity
      then Some(Name(TextOf(before + after), offset + |Stem(before)| + 2)) else None
  {
    hide At, Wire, Follows, EndOf, CompressedPath, Labels, Read, TextOf;
    CompressedFollows(packet, offset, before, target, after);
    CompressedSpells(before, target, after);
    ReadsThePath(packet, offset, CompressedPath(before, target, after), capacity);
  }
}
