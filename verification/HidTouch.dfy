/**
 Touch contacts and pointer motion in `devdriv/hid.cpp`: every report updates the contact table and the
 primary contact in place and emits events. The log lists them in order; a touch event has the key its contact
 has in the table and, beside it, the report identifier that observers are shown.
 */
module HidTouch {
  import opened FileBytes

  const CONTACT_COUNT: nat := 16
  const MOTION_UNIT: int := 256

  /** A contact is known by its identifier and the report (or, for ALPS pads, the state) it came with. */
  datatype Key = Key(id: nat, report: nat)

  datatype Contact = Contact(key: Key, active: bool, seen: bool, x: int, y: int, residualX: int, residualY: int)

  const NO_CONTACT := Contact(Key(0, 0), false, false, 0, 0, 0, 0)

  datatype Event = Touch(key: Key, shown: nat, begin: bool, end: bool, x: int, y: int) | Motion(dx: int, dy: int)

  /**
   One decoded finger: whether it touches, its normalized coordinates where the report has them, whether
   the device vouches for it, and whether the device is a touchpad, which moves the pointer. `shown` is the
   report identifier its events carry: that of the key, or for ALPS pads that of the report.
   */
  datatype Sample = Sample(key: Key, shown: nat, active: bool, x: Option<int>, y: Option<int>, confident: bool, touchpad: bool)

  /** Where the primary contact was when it became primary, the log then, and how far samples without confidence moved it. */
  datatype Trace = Trace(startX: int, startY: int, since: nat, driftX: int, driftY: int)

  datatype State = State(contacts: seq<Contact>, primary: Option<Key>, log: seq<Event>, trace: Trace)

  // ---- The contact table ----

  predicate Is(c: Contact, key: Key) {
    c.active && c.key == key
  }

  function Find(contacts: seq<Contact>, key: Key, from: nat := 0): (i: nat)
    requires from <= |contacts|
    ensures from <= i <= |contacts| && (i < |contacts| ==> Is(contacts[i], key))
    ensures forall k :: from <= k < i ==> !Is(contacts[k], key)
    decreases |contacts| - from
  {
    if from == |contacts| || Is(contacts[from], key) then from else Find(contacts, key, from + 1)
  }

  function FirstFree(contacts: seq<Contact>, from: nat := 0): (i: nat)
    requires from <= |contacts|
    ensures from <= i <= |contacts| && (i < |contacts| ==> !contacts[i].active)
    ensures forall k :: from <= k < i ==> contacts[k].active
    decreases |contacts| - from
  {
    if from == |contacts| || !contacts[from].active then from else FirstFree(contacts, from + 1)
  }

  /** `FindTouchContact`: the active contact of the key, else a free place if one may be taken, else the length. */
  function Locate(contacts: seq<Contact>, key: Key, allocate: bool): (i: nat)
    ensures i <= |contacts|
    ensures i < |contacts| ==> Is(contacts[i], key) || (allocate && !contacts[i].active)
    ensures i < |contacts| && !contacts[i].active ==> forall k :: 0 <= k < |contacts| ==> !Is(contacts[k], key)
  {
    var found := Find(contacts, key);
    if found < |contacts| then found else if allocate then FirstFree(contacts) else |contacts|
  }

  // ---- One sample ----

  /** C division, which truncates. */
  function Whole(delta: int): int {
    if delta >= 0 then delta / MOTION_UNIT else -((-delta) / MOTION_UNIT)
  }

  function Moved(motion: Event): seq<Event> {
    if motion.Motion? && (motion.dx != 0 || motion.dy != 0) then [motion] else []
  }

  /** The pointer follows the sample: the contact is primary, was there before, and the sample is trusted. */
  predicate Steers(s: State, p: Sample, was: bool) {
    p.active && p.touchpad && s.primary == Some(p.key) && was && p.confident
  }

  function DoSample(s: State, p: Sample): State {
    var i := Locate(s.contacts, p.key, p.active);
    if i == |s.contacts| then s
    else
      var was := s.contacts[i].active;
      var before := if was then s.contacts[i] else NO_CONTACT.(key := p.key);
      var x := if p.x.Some? then p.x.value else before.x;
      var y := if p.y.Some? then p.y.value else before.y;
      var log := s.log + [Touch(p.key, p.shown, p.active && !was, !p.active && was, x, y)];
      if !p.active then
        State(s.contacts[i := Contact(p.key, false, false, x, y, 0, 0)],
              if s.primary == Some(p.key) then None else s.primary, log, s.trace)
      else if Steers(s, p, was) then
        var dx, dy := x - before.x + before.residualX, y - before.y + before.residualY;
        var motion := Motion(Whole(dx), Whole(dy));
        State(s.contacts[i := Contact(p.key, true, true, x, y, dx - motion.dx * MOTION_UNIT, dy - motion.dy * MOTION_UNIT)],
              s.primary, log + Moved(motion), s.trace)
      else
        var contacts := s.contacts[i := Contact(p.key, true, true, x, y, before.residualX, before.residualY)];
        if p.touchpad && s.primary.None? then
          State(contacts, Some(p.key), log, Trace(x, y, |log|, 0, 0))
        else if s.primary == Some(p.key) then
          State(contacts, s.primary, log,
                s.trace.(driftX := s.trace.driftX + x - before.x, driftY := s.trace.driftY + y - before.y))
        else State(contacts, s.primary, log, s.trace)
  }

  function DoSamples(s: State, samples: seq<Sample>): State
    decreases |samples|
  {
    if samples == [] then s else DoSamples(DoSample(s, samples[0]), samples[1..])
  }

  // ---- Whole reports and releases ----

  function Unseen(contacts: seq<Contact>): seq<Contact> {
    seq(|contacts|, i requires 0 <= i < |contacts| => contacts[i].(seen := false))
  }

  /** Ends the contact at `i`. */
  function Ended(s: State, i: nat): State
    requires i < |s.contacts|
  {
    var c := s.contacts[i];
    s.(contacts := s.contacts[i := c.(active := false, seen := false)],
       primary := if s.primary == Some(c.key) then None else s.primary,
       log := s.log + [Touch(c.key, c.key.report, false, true, c.x, c.y)])
  }

  /** Contacts of the report that no sample mentioned are lifted, from place `i` on. */
  function EndUnseen(s: State, report: nat, i: nat): State
    requires i <= |s.contacts|
    decreases |s.contacts| - i
  {
    if i == |s.contacts| then s
    else if !s.contacts[i].active || s.contacts[i].key.report != report || s.contacts[i].seen then EndUnseen(s, report, i + 1)
    else EndUnseen(Ended(s, i), report, i + 1)
  }

  function DoReport(s: State, report: nat, samples: seq<Sample>, endUnseen: bool): State {
    var s := DoSamples(s.(contacts := Unseen(s.contacts)), samples);
    if endUnseen then EndUnseen(s, report, 0) else s
  }

  /** `ReleaseHidInputState`, its contact part, from place `i` on. */
  function ReleaseFrom(s: State, i: nat): State
    requires i <= |s.contacts|
    decreases |s.contacts| - i
  {
    if i == |s.contacts| then s.(primary := None)
    else
      var s := if s.contacts[i].active then Ended(s, i) else s;
      ReleaseFrom(s.(contacts := s.contacts[i := NO_CONTACT]), i + 1)
  }

  /** A report of the generic decoder, one of the ALPS decoder, or a release of all state. */
  datatype Action = Report(report: nat, samples: seq<Sample>, endUnseen: bool) | AlpsReport(samples: seq<Sample>) | Release

  function Apply(s: State, a: Action): State {
    match a
    case Report(report, samples, endUnseen) => DoReport(s, report, samples, endUnseen)
    case AlpsReport(samples) => DoSamples(s, samples)
    case Release => ReleaseFrom(s, 0)
  }

  function Run(s: State, run: seq<Action>): State
    decreases |run|
  {
    if run == [] then s else Run(Apply(s, run[0]), run[1..])
  }

  function Initial(): State {
    State(seq(CONTACT_COUNT, _ => NO_CONTACT), None, [], Trace(0, 0, 0, 0, 0))
  }

  // ---- What the log says ----

  /** The last Begin or End of the key was a Begin. */
  predicate IsOpen(log: seq<Event>, key: Key) {
    if log == [] then false
    else
      var e := log[|log| - 1];
      if e.Touch? && e.key == key && (e.begin || e.end) then e.begin else IsOpen(log[..|log| - 1], key)
  }

  /** Begin and End of the key take turns, starting with Begin. */
  predicate Alternates(log: seq<Event>, key: Key) {
    log == [] || (
      var e, rest := log[|log| - 1], log[..|log| - 1];
      && Alternates(rest, key)
      && (e.Touch? && e.key == key && e.begin ==> !e.end && !IsOpen(rest, key))
      && (e.Touch? && e.key == key && e.end ==> IsOpen(rest, key)))
  }

  /** The motion emitted from position `from` of the log on. */
  function SumX(log: seq<Event>, from: nat): int {
    if |log| <= from then 0
    else SumX(log[..|log| - 1], from) + if log[|log| - 1].Motion? then log[|log| - 1].dx else 0
  }

  function SumY(log: seq<Event>, from: nat): int {
    if |log| <= from then 0
    else SumY(log[..|log| - 1], from) + if log[|log| - 1].Motion? then log[|log| - 1].dy else 0
  }
}
