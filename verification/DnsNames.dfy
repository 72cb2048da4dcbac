/**
 DNS names in `accmlib/lib_network.cpp`: host text to wire labels, wire labels (with compression pointers)
 back to text, and skipping a name. Sections 3.1 and 4.1.4 of RFC 1035.
 */
module DnsNames {
  import opened FileBytes

  type Octet = x: int | 0 <= x < 256

  const DOT: Octet := 46
  const LABEL_LIMIT: nat := 63
  const STEP_LIMIT: nat := 32

  // ---- Encoding ----

  /** The bytes before the first dot. */
  function LabelLength(host: seq<Octet>): (n: nat)
    ensures n <= |host| && (n < |host| ==> host[n] == DOT)
    ensures forall i :: 0 <= i < n ==> host[i] != DOT
  {
    if host == [] || host[0] == DOT then 0 else 1 + LabelLength(host[1..])
  }

  /** What follows the label and its dot. */
  function AfterLabel(host: seq<Octet>): seq<Octet> {
    var n := LabelLength(host);
    if n < |host| then host[n + 1..] else []
  }

  function EncodeFrom(host: seq<Octet>, out: seq<Octet>, capacity: nat): Option<seq<Octet>>
    decreases |host|
  {
    if host == [] then
      if |out| >= capacity then None else Some(out + [0])
    else
      var n := LabelLength(host);
      if n == 0 || n > LABEL_LIMIT || |out| + 1 + n >= capacity then None
      else EncodeFrom(AfterLabel(host), out + Prefixed(host[..n]), capacity)
  }

  /** `MccaEncodeDnsName`. */
  function Encode(host: seq<Octet>, capacity: nat): Option<seq<Octet>> {
    EncodeFrom(host, [], capacity)
  }

  // ---- Names as lists of labels ----

  predicate ValidLabel(part: seq<Octet>) {
    1 <= |part| <= LABEL_LIMIT && DOT !in part
  }

  predicate ValidLabels(labels: seq<seq<Octet>>) {
    forall i :: 0 <= i < |labels| ==> ValidLabel(labels[i])
  }

  /** The labels with dots between them. */
  function Join(labels: seq<seq<Octet>>): seq<Octet> {
    if labels == [] then [] else if |labels| == 1 then labels[0] else labels[0] + [DOT] + Join(labels[1..])
  }

  function Prefixed(part: seq<Octet>): seq<Octet>
    requires |part| < 256
  {
    [|part|] + part
  }

  /** Section 3.1: each label behind its length, then a zero length. */
  function Wire(labels: seq<seq<Octet>>): seq<Octet>
    requires ValidLabels(labels)
  {
    if labels == [] then [0] else Prefixed(labels[0]) + Wire(labels[1..])
  }

  lemma {:induction false} LabelOf(part: seq<Octet>, rest: seq<Octet>)
    requires DOT !in part
    ensures LabelLength(part) == |part| && LabelLength(part + [DOT] + rest) == |part|
    decreases |part|
  {
    if part == [] {
      assert (part + [DOT] + rest)[0] == DOT;
    } else {
      LabelOf(part[1..], rest);
      assert (part + [DOT] + rest)[1..] == part[1..] + [DOT] + rest;
    }
  }

  /** One label of the host becomes one label of the output. */
  lemma EncodeStep(part: seq<Octet>, rest: seq<Octet>, out: seq<Octet>, capacity: nat)
    requires ValidLabel(part) && (rest != [] ==> rest[0] == DOT)
    ensures EncodeFrom(part + rest, out, capacity) ==
      if |out| + 1 + |part| >= capacity then None
      else EncodeFrom(if rest == [] then [] else rest[1..], out + Prefixed(part), capacity)
  {
    hide Prefixed;
    var host := part + rest;
    if rest == [] {
      assert host == part;
      LabelOf(part, []);
    } else {
      assert host == part + [DOT] + rest[1..];
      LabelOf(part, rest[1..]);
      assert host[|part| + 1..] == rest[1..];
    }
    assert host[..|part|] == part;
  }

  function Tail(trailing: bool): seq<Octet> {
    if trailing then [DOT] else []
  }

  /** What follows the first label in the host text. */
  function RestText(labels: seq<seq<Octet>>, trailing: bool): seq<Octet>
    requires labels != []
  {
    if |labels| == 1 then Tail(trailing) else [DOT] + (Join(labels[1..]) + Tail(trailing))
  }

  lemma HostText(labels: seq<seq<Octet>>, trailing: bool)
    requires labels != []
    ensures Join(labels) + Tail(trailing) == labels[0] + RestText(labels, trailing)
    ensures RestText(labels, trailing) != [] ==> RestText(labels, trailing)[0] == DOT
    ensures (if RestText(labels, trailing) == [] then [] else RestText(labels, trailing)[1..]) ==
      Join(labels[1..]) + Tail(trailing && |labels| > 1)
  {
    hide Tail;
    var tail := Tail(trailing);
    if |labels| > 1 {
      Regroup(labels[0], Join(labels[1..]), tail);
    } else {
      assert labels[1..] == [];
      TailFacts(trailing);
    }
  }

  lemma Regroup(part: seq<Octet>, text: seq<Octet>, tail: seq<Octet>)
    ensures part + [DOT] + text + tail == part + ([DOT] + (text + tail))
    ensures ([DOT] + (text + tail))[1..] == text + tail
  {
  }

  lemma TailFacts(trailing: bool)
    ensures Tail(false) == [] && (Tail(trailing) != [] ==> Tail(trailing)[0] == DOT && Tail(trailing)[1..] == [])
  {
  }

  lemma WireStep(labels: seq<seq<Octet>>, out: seq<Octet>)
    requires labels != [] && ValidLabels(labels)
    ensures ValidLabels(labels[1..]) && |Wire(labels[1..])| >= 1
    ensures out + Prefixed(labels[0]) + Wire(labels[1..]) == out + Wire(labels)
    ensures |Wire(labels)| == 1 + |labels[0]| + |Wire(labels[1..])|
  {
  }

  /** A host made of valid labels, with or without a trailing dot, encodes to their wire form exactly when it fits. */
  lemma {:induction false} EncodesLabels(labels: seq<seq<Octet>>, trailing: bool, out: seq<Octet>, capacity: nat)
    requires ValidLabels(labels) && (trailing ==> labels != [])
    ensures EncodeFrom(Join(labels) + Tail(trailing), out, capacity) ==
      if |out| + |Wire(labels)| <= capacity then Some(out + Wire(labels)) else None
    decreases |labels|
  {
    if labels == [] {
      assert Join(labels) + Tail(trailing) == [];
    } else {
      LabelsStep(labels, trailing, out, capacity);
      WireStep(labels, out);
      EncodesLabels(labels[1..], trailing && |labels| > 1, out + Prefixed(labels[0]), capacity);
    }
  }

  lemma LabelsStep(labels: seq<seq<Octet>>, trailing: bool, out: seq<Octet>, capacity: nat)
    requires ValidLabels(labels) && labels != []
    ensures EncodeFrom(Join(labels) + Tail(trailing), out, capacity) ==
      if |out| + 1 + |labels[0]| >= capacity then None
      else EncodeFrom(Join(labels[1..]) + Tail(trailing && |labels| > 1), out + Prefixed(labels[0]), capacity)
  {
    hide Join, Prefixed;
    HostText(labels, trailing);
    EncodeStep(labels[0], RestText(labels, trailing), out, capacity);
  }

  /** The labels of a host, as far as the encoder gets. */
  function Split(host: seq<Octet>): seq<seq<Octet>>
    decreases |host|
  {
    if host == [] then [] else [host[..LabelLength(host)]] + Split(AfterLabel(host))
  }

  lemma SplitStep(host: seq<Octet>)
    requires host != []
    ensures Split(host)[0] == host[..LabelLength(host)] && Split(host)[1..] == Split(AfterLabel(host))
    ensures DOT !in host[..LabelLength(host)]
    ensures AfterLabel(host) == [] ==> host == host[..LabelLength(host)] + Tail(LabelLength(host) < |host|)
    ensures AfterLabel(host) != [] ==> host == host[..LabelLength(host)] + [DOT] + AfterLabel(host)
  {
    hide LabelLength;
    var n := LabelLength(host);
    assert forall i :: 0 <= i < n ==> host[..n][i] == host[i];
    if n < |host| {
      CutAt(host, n);
    } else {
      assert host[..n] == host && host + [] == host;
    }
  }

  lemma CutAt(host: seq<Octet>, n: nat)
    requires n < |host| && host[n] == DOT
    ensures host == host[..n] + [DOT] + host[n + 1..]
    ensures host[n + 1..] == [] ==> host == host[..n] + [DOT]
  {
  }

  /** Nothing else encodes: a successful encoding comes from valid labels joined by dots, perhaps with a trailing one. */
  lemma {:induction false} OnlyLabelsEncode(host: seq<Octet>, out: seq<Octet>, capacity: nat)
    requires EncodeFrom(host, out, capacity).Some?
    ensures ValidLabels(Split(host))
    ensures host == Join(Split(host)) || (host != [] && host == Join(Split(host)) + [DOT])
    decreases |host|
  {
    if host != [] {
      var n, rest, labels := LabelLength(host), AfterLabel(host), Split(host);
      OnlyLabelsEncode(rest, out + Prefixed(host[..n]), capacity);
      SplitStep(host);
      assert ValidLabel(labels[0]);
      forall i | 0 <= i < |labels| ensures ValidLabel(labels[i]) {
        assert i > 0 ==> labels[i] == labels[1..][i - 1];
      }
      JoinedText(host);
    }
  }

  lemma JoinedText(host: seq<Octet>)
    requires host != []
    requires AfterLabel(host) == Join(Split(AfterLabel(host))) ||
      (AfterLabel(host) != [] && AfterLabel(host) == Join(Split(AfterLabel(host))) + [DOT])
    ensures host == Join(Split(host)) || host == Join(Split(host)) + [DOT]
  {
    hide LabelLength, AfterLabel;
    SplitStep(host);
    var part, rest := host[..LabelLength(host)], AfterLabel(host);
    if rest == [] {
      assert Split(rest) == [];
      assert |Split(host)| == 1;
    } else {
      assert Join(Split(host)) == part + [DOT] + Join(Split(rest));
      assert part + [DOT] + (Join(Split(rest)) + [DOT]) == part + [DOT] + Join(Split(rest)) + [DOT];
    }
  }

  // ---- Skipping ----

  /** `MccaSkipDnsName` with `steps` steps left: the offset behind the name. */
  function SkipFrom(packet: seq<Octet>, cursor: nat, steps: nat): Option<nat>
    decreases steps
  {
    if steps == 0 || cursor >= |packet| then None
    else
      var part := packet[cursor];
      if part == 0 then Some(cursor + 1)
      else if part >= 192 then (if cursor + 1 >= |packet| then None else Some(cursor + 2))
      else if part >= 64 then None
      else if cursor + 1 + part > |packet| then None
      else SkipFrom(packet, cursor + 1 + part, steps - 1)
  }

  function Skip(packet: seq<Octet>, offset: nat): Option<nat> {
    SkipFrom(packet, offset, STEP_LIMIT)
  }

  // ---- Reading ----

  datatype Name = Name(text: seq<Octet>, next: nat)

  /** Section 4.1.4: the two low bytes of a pointer. */
  function Pointer(high: Octet, low: Octet): nat
    requires high >= 192
  {
    (high - 192) * 256 + low
  }

  /** `next` is where the name ends in the packet, once a pointer was followed. */
  function ReadFrom(packet: seq<Octet>, cursor: nat, text: seq<Octet>, capacity: nat, next: Option<nat>, steps: nat): Option<Name>
    decreases steps
  {
    if steps == 0 || cursor >= |packet| then None
    else
      var part := packet[cursor];
      if part == 0 then
        var end := if next.Some? then next.value else cursor + 1;
        if text != [] then Some(Name(text, end)) else if capacity < 2 then None else Some(Name([DOT], end))
      else if part >= 192 then
        if cursor + 1 >= |packet| then None
        else ReadFrom(packet, Pointer(part, packet[cursor + 1]), text, capacity,
                      Some(if next.Some? then next.value else cursor + 2), steps - 1)
      else if part >= 64 || cursor + 1 + part > |packet| then None
      else if text != [] && |text| + 1 >= capacity then None
      else
        var dotted := if text == [] then [] else text + [DOT];
        if |dotted| + part >= capacity then None
        else ReadFrom(packet, cursor + 1 + part, dotted + packet[cursor + 1..cursor + 1 + part], capacity, next, steps - 1)
  }

  /** `MccaReadDnsName`. */
  function Read(packet: seq<Octet>, offset: nat, capacity: nat): Option<Name> {
    if capacity == 0 then None else ReadFrom(packet, offset, [], capacity, None, STEP_LIMIT)
  }

  // ---- Reading and skipping agree ----

  /** After a pointer the end of the name is settled. */
  lemma {:induction false} EndIsSettled(packet: seq<Octet>, cursor: nat, text: seq<Octet>, capacity: nat, next: nat, steps: nat)
    requires ReadFrom(packet, cursor, text, capacity, Some(next), steps).Some?
    ensures ReadFrom(packet, cursor, text, capacity, Some(next), steps).value.next == next
    decreases steps
  {
    var part := packet[cursor];
    if part >= 192 {
      EndIsSettled(packet, Pointer(part, packet[cursor + 1]), text, capacity, next, steps - 1);
    } else if 0 < part {
      var dotted := if text == [] then [] else text + [DOT];
      EndIsSettled(packet, cursor + 1 + part, dotted + packet[cursor + 1..cursor + 1 + part], capacity, next, steps - 1);
    }
  }

  lemma {:induction false} ReadSkips(packet: seq<Octet>, cursor: nat, text: seq<Octet>, capacity: nat, steps: nat)
    requires ReadFrom(packet, cursor, text, capacity, None, steps).Some?
    ensures SkipFrom(packet, cursor, steps) == Some(ReadFrom(packet, cursor, text, capacity, None, steps).value.next)
    decreases steps
  {
    var part := packet[cursor];
    if part >= 192 {
      EndIsSettled(packet, Pointer(part, packet[cursor + 1]), text, capacity, cursor + 2, steps - 1);
    } else if 0 < part {
      var dotted := if text == [] then [] else text + [DOT];
      ReadSkips(packet, cursor + 1 + part, dotted + packet[cursor + 1..cursor + 1 + part], capacity, steps - 1);
    }
  }

  /** On every packet, whenever reading a name succeeds, skipping it succeeds at the same next offset. */
  lemma SkipFollowsRead(packet: seq<Octet>, offset: nat, capacity: nat)
    requires Read(packet, offset, capacity).Some?
    ensures Skip(packet, offset) == Some(Read(packet, offset, capacity).value.next)
  {
    ReadSkips(packet, offset, [], capacity, STEP_LIMIT);
  }

  // ---- Round trip ----

  function Extended(text: seq<Octet>, labels: seq<seq<Octet>>): seq<Octet> {
    if text == [] || labels == [] then text + Join(labels) else text + [DOT] + Join(labels)
  }

  predicate At(packet: seq<Octet>, offset: nat, wire: seq<Octet>) {
    offset + |wire| <= |packet| && forall i :: 0 <= i < |wire| ==> packet[offset + i] == wire[i]
  }

  lemma AtParts(packet: seq<Octet>, offset: nat, left: seq<Octet>, right: seq<Octet>)
    requires At(packet, offset, left + right)
    ensures At(packet, offset, left) && At(packet, offset + |left|, right)
  {
    forall i | 0 <= i < |left| ensures packet[offset + i] == left[i] {
      assert (left + right)[i] == left[i];
    }
    forall i | 0 <= i < |right| ensures packet[offset + |left| + i] == right[i] {
      assert (left + right)[|left| + i] == right[i];
      assert offset + (|left| + i) == offset + |left| + i;
    }
  }

  /** One label in the packet becomes one label of the text. */
  lemma ReadStep(packet: seq<Octet>, cursor: nat, part: seq<Octet>, text: seq<Octet>, capacity: nat, steps: nat)
    requires ValidLabel(part) && At(packet, cursor, Prefixed(part)) && steps > 0 && |text| < capacity
    ensures var dotted := if text == [] then [] else text + [DOT];
      ReadFrom(packet, cursor, text, capacity, None, steps) ==
        if |dotted| + |part| >= capacity then None
        else ReadFrom(packet, cursor + 1 + |part|, dotted + part, capacity, None, steps - 1)
  {
    AtParts(packet, cursor, [|part|], part);
    assert packet[cursor + 0] == [|part|][0];
    assert packet[cursor + 1..cursor + 1 + |part|] == part;
  }

  /** Reading the wire form of labels appends them to the text, as long as steps and room last. */
  lemma {:induction false} ReadsLabels(packet: seq<Octet>, cursor: nat, labels: seq<seq<Octet>>, text: seq<Octet>, capacity: nat, steps: nat)
    requires ValidLabels(labels) && At(packet, cursor, Wire(labels)) && |labels| < steps
    requires text != [] || labels != []
    requires |text| < capacity
    ensures ReadFrom(packet, cursor, text, capacity, None, steps) ==
      if |Extended(text, labels)| < capacity then Some(Name(Extended(text, labels), cursor + |Wire(labels)|)) else None
    decreases |labels|
  {
    hide ReadFrom, At, Extended;
    if labels == [] {
      ReadsEnd(packet, cursor, text, capacity, steps);
      ExtendedByNone(text);
    } else {
      var part, rest := labels[0], labels[1..];
      WireStep(labels, []);
      WireIsParts(labels);
      AtParts(packet, cursor, Prefixed(part), Wire(rest));
      ReadsFirst(packet, cursor, labels, text, capacity, steps);
      var dotted := if text == [] then [] else text + [DOT];
      ExtendedStep(text, labels);
      if |dotted| + |part| < capacity {
        ReadsLabels(packet, cursor + 1 + |part|, rest, dotted + part, capacity, steps - 1);
      }
    }
  }

  lemma WireIsParts(labels: seq<seq<Octet>>)
    requires labels != [] && ValidLabels(labels)
    ensures Wire(labels) == Prefixed(labels[0]) + Wire(labels[1..])
  {
  }

  lemma ExtendedByNone(text: seq<Octet>)
    ensures Extended(text, []) == text
  {
  }

  lemma ReadsEnd(packet: seq<Octet>, cursor: nat, text: seq<Octet>, capacity: nat, steps: nat)
    requires At(packet, cursor, [0]) && steps > 0 && text != []
    ensures ReadFrom(packet, cursor, text, capacity, None, steps) == Some(Name(text, cursor + 1))
  {
    assert packet[cursor + 0] == [0][0];
  }

  lemma ReadsFirst(packet: seq<Octet>, cursor: nat, labels: seq<seq<Octet>>, text: seq<Octet>, capacity: nat, steps: nat)
    requires labels != [] && ValidLabels(labels) && At(packet, cursor, Prefixed(labels[0])) && steps > 0 && |text| < capacity
    ensures var dotted := if text == [] then [] else text + [DOT];
      ReadFrom(packet, cursor, text, capacity, None, steps) ==
        if |dotted| + |labels[0]| >= capacity then None
        else ReadFrom(packet, cursor + 1 + |labels[0]|, dotted + labels[0], capacity, None, steps - 1)
  {
    hide ReadFrom;
    ReadStep(packet, cursor, labels[0], text, capacity, steps);
  }

  lemma ExtendedStep(text: seq<Octet>, labels: seq<seq<Octet>>)
    requires labels != [] && ValidLabels(labels)
    ensures var dotted := if text == [] then [] else text + [DOT];
      Extended(text, labels) == Extended(dotted + labels[0], labels[1..]) && |Extended(text, labels)| >= |dotted| + |labels[0]|
  {
    var dotted := if text == [] then [] else text + [DOT];
    if |labels| > 1 {
      assert Extended(text, labels) == dotted + (labels[0] + [DOT] + Join(labels[1..]));
      assert Extended(dotted + labels[0], labels[1..]) == dotted + labels[0] + [DOT] + Join(labels[1..]);
    } else {
      assert Extended(text, labels) == dotted + labels[0];
    }
  }

  /**
   Reading back what was encoded gives the host itself, for every host of 1 to 31 valid labels without a
   trailing dot that fits both buffers, wherever the encoding lies in a packet.
   */
  lemma EncodedNameReadsBack(labels: seq<seq<Octet>>, packet: seq<Octet>, offset: nat, wireCapacity: nat, textCapacity: nat)
    requires ValidLabels(labels) && 1 <= |labels| < STEP_LIMIT
    requires |Wire(labels)| <= wireCapacity && |Join(labels)| < textCapacity
    requires At(packet, offset, Wire(labels))
    ensures Encode(Join(labels), wireCapacity) == Some(Wire(labels))
    ensures Read(packet, offset, textCapacity) == Some(Name(Join(labels), offset + |Wire(labels)|))
  {
    EncodesLabels(labels, false, [], wireCapacity);
    assert Join(labels) + [] == Join(labels) && [] + Wire(labels) == Wire(labels);
    ReadsLabels(packet, offset, labels, [], textCapacity, STEP_LIMIT);
    assert Extended([], labels) == Join(labels);
  }

  /** With as many labels as steps, the reader gives up. */
  lemma {:induction false} TooManyLabels(packet: seq<Octet>, cursor: nat, labels: seq<seq<Octet>>, text: seq<Octet>, capacity: nat, steps: nat)
    requires ValidLabels(labels) && At(packet, cursor, Wire(labels)) && |labels| >= steps && |text| < capacity
    ensures ReadFrom(packet, cursor, text, capacity, None, steps) == None
    decreases steps
  {
    if steps > 0 {
      hide At, Wire;
      var part, rest := labels[0], labels[1..];
      WireIsParts(labels);
      AtParts(packet, cursor, Prefixed(part), Wire(rest));
      ReadsFirst(packet, cursor, labels, text, capacity, steps);
      var dotted := if text == [] then [] else text + [DOT];
      if |dotted| + |part| < capacity {
        TooManyLabels(packet, cursor + 1 + |part|, rest, dotted + part, capacity, steps - 1);
      }
    }
  }

  /** The host as the reader spells it: without a trailing dot, and a lone dot for the root. */
  function Spelled(host: seq<Octet>): seq<Octet> {
    if host == [] then [DOT] else if host[|host| - 1] == DOT then host[..|host| - 1] else host
  }

  /**
   Every encoding reads back as the host in the reader's spelling, if and only if it has fewer labels than
   the reader takes steps and the text fits.
   */
  lemma AnyEncodingReadsBack(host: seq<Octet>, wireCapacity: nat, packet: seq<Octet>, offset: nat, textCapacity: nat)
    requires Encode(host, wireCapacity).Some? && At(packet, offset, Encode(host, wireCapacity).value)
    ensures Read(packet, offset, textCapacity) ==
      if |Split(host)| < STEP_LIMIT && |Spelled(host)| < textCapacity
      then Some(Name(Spelled(host), offset + |Encode(host, wireCapacity).value|)) else None
  {
    hide ReadFrom, EncodeFrom, At, Join, Split, Spelled;
    OnlyLabelsEncode(host, [], wireCapacity);
    if host == [] {
      EmptyHost(wireCapacity, packet, offset, textCapacity);
    } else {
      var labels := Split(host);
      var trailing := host != Join(labels);
      assert host == Join(labels) + Tail(trailing);
      SplitSome(host);
      SpelledLabels(host, labels, trailing);
      LabelsReadBack(labels, trailing, wireCapacity, packet, offset, textCapacity);
    }
  }

  lemma SplitSome(host: seq<Octet>)
    requires host != []
    ensures Split(host) != []
  {
  }

  lemma LabelsReadBack(labels: seq<seq<Octet>>, trailing: bool, wireCapacity: nat, packet: seq<Octet>, offset: nat, textCapacity: nat)
    requires ValidLabels(labels) && labels != []
    requires var wire := Encode(Join(labels) + Tail(trailing), wireCapacity); wire.Some? && At(packet, offset, wire.value)
    ensures Read(packet, offset, textCapacity) ==
      if |labels| < STEP_LIMIT && |Extended([], labels)| < textCapacity
      then Some(Name(Extended([], labels), offset + |Encode(Join(labels) + Tail(trailing), wireCapacity).value|)) else None
  {
    hide ReadFrom, EncodeFrom, At, Join, Extended;
    EncodesLabels(labels, trailing, [], wireCapacity);
    assert [] + Wire(labels) == Wire(labels);
    if textCapacity > 0 {
      if |labels| < STEP_LIMIT {
        ReadsLabels(packet, offset, labels, [], textCapacity, STEP_LIMIT);
      } else {
        TooManyLabels(packet, offset, labels, [], textCapacity, STEP_LIMIT);
      }
    }
  }

  lemma SpelledLabels(host: seq<Octet>, labels: seq<seq<Octet>>, trailing: bool)
    requires ValidLabels(labels) && labels != [] && host == Join(labels) + Tail(trailing)
    ensures Spelled(host) == Join(labels) == Extended([], labels)
  {
    hide Join;
    JoinEnds(labels);
    assert [] + Join(labels) == Join(labels);
    if trailing {
      assert host[..|host| - 1] == Join(labels);
    } else {
      assert host == Join(labels);
    }
  }

  lemma EmptyHost(wireCapacity: nat, packet: seq<Octet>, offset: nat, textCapacity: nat)
    requires Encode([], wireCapacity).Some? && At(packet, offset, Encode([], wireCapacity).value)
    ensures Split([]) == [] && Spelled([]) == [DOT]
    ensures Read(packet, offset, textCapacity) ==
      if textCapacity > 1 then Some(Name([DOT], offset + |Encode([], wireCapacity).value|)) else None
  {
    assert Encode([], wireCapacity).value == [0];
    assert packet[offset + 0] == [0][0];
  }

  /** The text of valid labels does not end in a dot. */
  lemma {:induction false} JoinEnds(labels: seq<seq<Octet>>)
    requires ValidLabels(labels) && labels != []
    ensures Join(labels) != [] && Join(labels)[|Join(labels)| - 1] != DOT
    decreases |labels|
  {
    if |labels| == 1 {
      assert labels[0][|labels[0]| - 1] in labels[0];
    } else {
      JoinEnds(labels[1..]);
    }
  }

  // ---- The loops on buffers ----

  /** `MccaEncodeDnsName` into a buffer. */
  method EncodeDnsName(output: array<Octet>, host: seq<Octet>) returns (ok: bool, length: nat)
    modifies output
    ensures ok <==> Encode(host, output.Length).Some?
    ensures ok ==> length <= output.Length && output[..length] == Encode(host, output.Length).value
  {
    hide LabelLength, Prefixed, EncodeFrom;
    var out, rest := 0, host;
    assert output[..0] == [];
    while rest != []
      invariant out <= output.Length && EncodeFrom(rest, output[..out], output.Length) == Encode(host, output.Length)
      decreases |rest|
    {
      var n := CountLabel(rest);
      EncodeTurn(rest, output[..out], output.Length);
      if n == 0 || n > LABEL_LIMIT || out + 1 + n >= output.Length {
        return false, 0;
      }
      ghost var before := output[..out];
      AppendLabel(output, out, rest[..n]);
      assert output[..out + 1 + n] == before + Prefixed(rest[..n]);
      rest := if n < |rest| then rest[n + 1..] else [];
      out := out + 1 + n;
    }
    EncodeEnd(output[..out], output.Length);
    if out >= output.Length {
      return false, 0;
    }
    output[out] := 0;
    assert output[..out + 1] == output[..out] + [0];
    return true, out + 1;
  }

  lemma EncodeTurn(host: seq<Octet>, out: seq<Octet>, capacity: nat)
    requires host != []
    ensures var n := LabelLength(host);
      EncodeFrom(host, out, capacity) ==
        if n == 0 || n > LABEL_LIMIT || |out| + 1 + n >= capacity then None
        else EncodeFrom(if n < |host| then host[n + 1..] else [], out + Prefixed(host[..n]), capacity)
  {
  }

  lemma EncodeEnd(out: seq<Octet>, capacity: nat)
    ensures EncodeFrom([], out, capacity) == if |out| >= capacity then None else Some(out + [0])
  {
  }

  method CountLabel(host: seq<Octet>) returns (n: nat)
    ensures n == LabelLength(host)
  {
    n := 0;
    while n < |host| && host[n] != DOT
      invariant n <= |host| && n + LabelLength(host[n..]) == LabelLength(host)
    {
      assert host[n..][1..] == host[n + 1..];
      n := n + 1;
    }
  }

  method AppendLabel(output: array<Octet>, at: nat, part: seq<Octet>)
    requires |part| < 256 && at + 1 + |part| <= output.Length
    modifies output
    ensures output[..at + 1 + |part|] == old(output[..at]) + Prefixed(part)
  {
    output[at] := |part|;
    var i := 0;
    while i < |part|
      invariant i <= |part| && output[..at + 1 + i] == old(output[..at]) + [|part|] + part[..i]
    {
      output[at + 1 + i] := part[i];
      i := i + 1;
    }
    assert part[..|part|] == part;
  }

  /** `MccaSkipDnsName`: at most 32 turns, whatever the packet holds. */
  method SkipDnsName(packet: seq<Octet>, offset: nat) returns (next: Option<nat>)
    ensures next == Skip(packet, offset)
  {
    var cursor: nat, depth: nat := offset, 0;
    while depth < STEP_LIMIT
      invariant depth <= STEP_LIMIT && SkipFrom(packet, cursor, STEP_LIMIT - depth) == Skip(packet, offset)
    {
      if cursor >= |packet| {
        return None;
      }
      var part := packet[cursor];
      if part == 0 {
        return Some(cursor + 1);
      }
      if part >= 192 {
        return if cursor + 1 >= |packet| then None else Some(cursor + 2);
      }
      if part >= 64 || cursor + 1 + part > |packet| {
        return None;
      }
      cursor := cursor + 1 + part;
      depth := depth + 1;
    }
    return None;
  }

  /** `MccaReadDnsName` into a buffer; the text is terminated by a zero. */
  method ReadDnsName(packet: seq<Octet>, offset: nat, output: array<Octet>) returns (ok: bool, length: nat, next: nat)
    modifies output
    ensures ok <==> Read(packet, offset, output.Length).Some?
    ensures ok ==> length < output.Length && output[length] == 0
    ensures ok ==> Read(packet, offset, output.Length) == Some(Name(output[..length], next))
  {
    ok, length, next := false, 0, 0;
    if output.Length == 0 {
      return;
    }
    var cursor: nat, out: nat, end: Option<nat>, depth: nat := offset, 0, None, 0;
    while depth < STEP_LIMIT
      invariant depth <= STEP_LIMIT && out < output.Length
      invariant ReadFrom(packet, cursor, output[..out], output.Length, end, STEP_LIMIT - depth) == Read(packet, offset, output.Length)
    {
      if cursor >= |packet| {
        return;
      }
      var part := packet[cursor];
      if part == 0 {
        next := if end.Some? then end.value else cursor + 1;
        if out == 0 {
          if output.Length < 2 {
            return;
          }
          output[0] := DOT;
          out := 1;
          assert output[..1] == [DOT];
        }
        output[out] := 0;
        return true, out, next;
      }
      if part >= 192 {
        if cursor + 1 >= |packet| {
          return;
        }
        if end.None? {
          end := Some(cursor + 2);
        }
        cursor := Pointer(part, packet[cursor + 1]);
      } else {
        if part >= 64 || cursor + 1 + part > |packet| || (out > 0 && out + 1 >= output.Length) {
          return;
        }
        ghost var text := output[..out];
        if out > 0 {
          output[out] := DOT;
          out := out + 1;
        }
        assert output[..out] == if text == [] then [] else text + [DOT];
        if out + part >= output.Length {
          return;
        }
        CopyLabel(output, out, packet[cursor + 1..cursor + 1 + part]);
        out := out + part;
        cursor := cursor + 1 + part;
      }
      depth := depth + 1;
    }
  }

  method CopyLabel(output: array<Octet>, at: nat, part: seq<Octet>)
    requires at + |part| <= output.Length
    modifies output
    ensures output[..at + |part|] == old(output[..at]) + part
  {
    var i := 0;
    while i < |part|
      invariant i <= |part| && output[..at + i] == old(output[..at]) + part[..i]
    {
      output[at + i] := part[i];
      i := i + 1;
    }
    assert part[..|part|] == part;
  }
}
