/** What every sequence of reports and releases leaves in the log. */
module HidTouchHistory {
  import opened FileBytes
  import opened HidTouch

  predicate Active(contacts: seq<Contact>, key: Key) {
    exists i :: 0 <= i < |contacts| && Is(contacts[i], key)
  }

  predicate Unique(contacts: seq<Contact>) {
    forall i, j :: 0 <= i < |contacts| && 0 <= j < |contacts| && contacts[i].active && Is(contacts[j], contacts[i].key) ==> i == j
  }

  /** The log of a key alternates and is open exactly while the table holds an active contact of the key. */
  predicate KeyGood(s: State, key: Key) {
    Alternates(s.log, key) && (IsOpen(s.log, key) <==> Active(s.contacts, key))
  }

  /** A contact that is not primary has no motion left over. */
  predicate Settled(s: State, i: nat)
    requires i < |s.contacts|
  {
    var c := s.contacts[i];
    c.active ==>
      && -MOTION_UNIT < c.residualX < MOTION_UNIT && -MOTION_UNIT < c.residualY < MOTION_UNIT
      && (s.primary != Some(c.key) ==> c.residualX == 0 && c.residualY == 0)
  }

  /** 256 times the motion emitted since the contact became primary, plus what is left over, is how far it came. */
  predicate Tracked(s: State, i: nat)
    requires i < |s.contacts|
  {
    var c, t := s.contacts[i], s.trace;
    c.active && s.primary == Some(c.key) ==>
      && t.since <= |s.log|
      && MOTION_UNIT * SumX(s.log, t.since) + c.residualX == c.x - t.startX - t.driftX
      && MOTION_UNIT * SumY(s.log, t.since) + c.residualY == c.y - t.startY - t.driftY
  }

  ghost predicate Good(s: State) {
    && Unique(s.contacts)
    && (forall key :: KeyGood(s, key))
    && (s.primary.Some? ==> Active(s.contacts, s.primary.value))
    && (forall i :: 0 <= i < |s.contacts| ==> Settled(s, i) && Tracked(s, i))
  }

  // ---- Appending to the log ----

  lemma LogOne(log: seq<Event>, e: Event, key: Key)
    ensures IsOpen(log + [e], key) <==> if e.Touch? && e.key == key && (e.begin || e.end) then e.begin else IsOpen(log, key)
    ensures Alternates(log + [e], key) <==>
      && Alternates(log, key)
      && (e.Touch? && e.key == key && e.begin ==> !e.end && !IsOpen(log, key))
      && (e.Touch? && e.key == key && e.end ==> IsOpen(log, key))
  {
    assert (log + [e])[..|log|] == log;
  }

  lemma SumOne(log: seq<Event>, e: Event, from: nat)
    requires from <= |log|
    ensures SumX(log + [e], from) == SumX(log, from) + (if e.Motion? then e.dx else 0)
    ensures SumY(log + [e], from) == SumY(log, from) + (if e.Motion? then e.dy else 0)
  {
    assert (log + [e])[..|log|] == log;
  }

  // ---- Changing one place of the table ----

  /** The place holds the key's contact, or is free while no contact has the key. */
  predicate PlaceFor(contacts: seq<Contact>, i: nat, key: Key) {
    i < |contacts| && (Is(contacts[i], key) || (!contacts[i].active && !Active(contacts, key)))
  }

  lemma TableChanged(contacts: seq<Contact>, i: nat, c: Contact, key: Key)
    requires Unique(contacts) && PlaceFor(contacts, i, c.key)
    ensures Unique(contacts[i := c])
    ensures Active(contacts[i := c], key) <==> if key == c.key then c.active else Active(contacts, key)
  {
    var after := contacts[i := c];
    if key == c.key {
      if c.active { assert Is(after[i], key); }
    } else if Active(contacts, key) {
      var k :| 0 <= k < |contacts| && Is(contacts[k], key);
      assert Is(after[k], key);
    }
    forall k | 0 <= k < |contacts| && k != i ensures !Is(contacts[k], c.key) {
      assert Is(contacts[k], c.key) ==> Active(contacts, c.key);
    }
  }

  lemma LocatePlace(contacts: seq<Contact>, key: Key, allocate: bool)
    ensures Locate(contacts, key, allocate) < |contacts| ==> PlaceFor(contacts, Locate(contacts, key, allocate), key)
  {
  }

  // ---- One sample ----

  lemma SampleKey(s: State, p: Sample, key: Key)
    requires Good(s)
    ensures KeyGood(DoSample(s, p), key)
    ensures Unique(DoSample(s, p).contacts)
    ensures Locate(s.contacts, p.key, p.active) < |s.contacts| ==>
      (Active(DoSample(s, p).contacts, key) <==> if key == p.key then p.active else Active(s.contacts, key))
  {
    hide Alternates, IsOpen, Active, Unique, SumX, SumY, Locate, Whole;
    assert KeyGood(s, key) && KeyGood(s, p.key);
    var i := Locate(s.contacts, p.key, p.active);
    var s' := DoSample(s, p);
    LocatePlace(s.contacts, p.key, p.active);
    if i < |s.contacts| {
      var was := s.contacts[i].active;
      ActiveHere(s.contacts, i, p.key);
      TableChanged(s.contacts, i, s'.contacts[i], key);
      assert s'.contacts == s.contacts[i := s'.contacts[i]];
      var touch := s'.log[|s.log|];
      LogOne(s.log, touch, key);
      if |s'.log| == |s.log| + 1 {
        assert s'.log == s.log + [touch];
      } else {
        var motion := s'.log[|s.log| + 1];
        assert s'.log == s.log + [touch] + [motion];
        LogOne(s.log + [touch], motion, key);
      }
    }
  }

  lemma ActiveHere(contacts: seq<Contact>, i: nat, key: Key)
    requires PlaceFor(contacts, i, key)
    ensures Active(contacts, key) <==> contacts[i].active
  {
  }

  lemma WholeRemainder(delta: int)
    ensures -MOTION_UNIT < delta - Whole(delta) * MOTION_UNIT < MOTION_UNIT
  {
  }

  /** The sums over the log a sample appends to. */
  lemma SampleSums(s: State, p: Sample)
    requires s.trace.since <= |s.log| && Locate(s.contacts, p.key, p.active) < |s.contacts|
    ensures var s', i := DoSample(s, p), Locate(s.contacts, p.key, p.active);
      var c := s.contacts[i];
      && |s'.log| > |s.log|
      && (if Steers(s, p, c.active) then
            && SumX(s'.log, s.trace.since) == SumX(s.log, s.trace.since) + Whole((if p.x.Some? then p.x.value else c.x) - c.x + c.residualX)
            && SumY(s'.log, s.trace.since) == SumY(s.log, s.trace.since) + Whole((if p.y.Some? then p.y.value else c.y) - c.y + c.residualY)
          else SumX(s'.log, s.trace.since) == SumX(s.log, s.trace.since) && SumY(s'.log, s.trace.since) == SumY(s.log, s.trace.since))
  {
    hide SumX, SumY, Locate, Whole;
    var s' := DoSample(s, p);
    var touch := s'.log[|s.log|];
    SumOne(s.log, touch, s.trace.since);
    if |s'.log| == |s.log| + 1 {
      assert s'.log == s.log + [touch];
    } else {
      var motion := s'.log[|s.log| + 1];
      assert s'.log == s.log + [touch] + [motion];
      SumOne(s.log + [touch], motion, s.trace.since);
    }
  }

  lemma SampleTracks(s: State, p: Sample, k: nat)
    requires Good(s) && k < |s.contacts|
    ensures |DoSample(s, p).contacts| == |s.contacts|
    ensures Settled(DoSample(s, p), k) && Tracked(DoSample(s, p), k)
  {
    hide KeyGood, SumX, SumY, Whole, Locate;
    var i := Locate(s.contacts, p.key, p.active);
    assert Settled(s, k) && Tracked(s, k);
    if i < |s.contacts| {
      LocatePlace(s.contacts, p.key, p.active);
      if k == i {
        SampleTracksOwn(s, p);
      } else {
        SampleTracksOther(s, p, k);
      }
    }
  }

  lemma SampleTracksOwn(s: State, p: Sample)
    requires Good(s) && Locate(s.contacts, p.key, p.active) < |s.contacts|
    ensures var s', i := DoSample(s, p), Locate(s.contacts, p.key, p.active);
      |s'.contacts| == |s.contacts| && Settled(s', i) && Tracked(s', i)
  {
    hide KeyGood, SumX, SumY, Whole, Locate, Unique;
    var i := Locate(s.contacts, p.key, p.active);
    assert Settled(s, i) && Tracked(s, i);
    LocatePlace(s.contacts, p.key, p.active);
    var c := s.contacts[i];
    if c.active && s.primary == Some(p.key) {
      SampleSums(s, p);
    }
    WholeRemainder((if p.x.Some? then p.x.value else c.x) - c.x + c.residualX);
    WholeRemainder((if p.y.Some? then p.y.value else c.y) - c.y + c.residualY);
    NothingYet(DoSample(s, p).log);
  }

  lemma SampleTracksOther(s: State, p: Sample, k: nat)
    requires Good(s) && Locate(s.contacts, p.key, p.active) < |s.contacts| && k < |s.contacts|
    requires k != Locate(s.contacts, p.key, p.active)
    ensures var s' := DoSample(s, p); |s'.contacts| == |s.contacts| && Settled(s', k) && Tracked(s', k)
  {
    hide KeyGood, SumX, SumY, Whole, Locate;
    assert Settled(s, k) && Tracked(s, k);
    LocatePlace(s.contacts, p.key, p.active);
    if s.contacts[k].active && s.primary == Some(s.contacts[k].key) {
      SampleSums(s, p);
    }
  }

  lemma NothingYet(log: seq<Event>)
    ensures SumX(log, |log|) == 0 && SumY(log, |log|) == 0
  {
  }

  lemma SampleGood(s: State, p: Sample)
    requires Good(s)
    ensures Good(DoSample(s, p)) && |DoSample(s, p).contacts| == |s.contacts|
  {
    hide KeyGood, Settled, Tracked, Active, Unique;
    var s' := DoSample(s, p);
    forall key ensures KeyGood(s', key) { SampleKey(s, p, key); }
    SampleKey(s, p, p.key);
    if s.primary.Some? { SampleKey(s, p, s.primary.value); }
    SampleLength(s, p);
    forall k | 0 <= k < |s'.contacts| ensures Settled(s', k) && Tracked(s', k) { SampleTracks(s, p, k); }
  }

  lemma SampleLength(s: State, p: Sample)
    ensures |DoSample(s, p).contacts| == |s.contacts|
  {
  }

  lemma {:induction false} SamplesGood(s: State, samples: seq<Sample>)
    requires Good(s)
    ensures Good(DoSamples(s, samples)) && |DoSamples(s, samples).contacts| == |s.contacts|
    decreases |samples|
  {
    hide Good, DoSample;
    if samples != [] {
      SampleGood(s, samples[0]);
      SamplesGood(DoSample(s, samples[0]), samples[1..]);
    }
  }

  // ---- Whole reports and releases ----

  /** Only the marks of `seen` contacts and of free places differ. */
  lemma RemarkedGood(s: State, contacts: seq<Contact>)
    requires Good(s) && |contacts| == |s.contacts|
    requires forall i :: 0 <= i < |contacts| ==>
      (contacts[i].active <==> s.contacts[i].active) && (contacts[i].active ==> contacts[i].(seen := s.contacts[i].seen) == s.contacts[i])
    ensures Good(s.(contacts := contacts))
  {
    var s' := s.(contacts := contacts);
    forall i, key | 0 <= i < |contacts| ensures Is(contacts[i], key) == Is(s.contacts[i], key) {
    }
    forall key ensures KeyGood(s', key) && Active(contacts, key) == Active(s.contacts, key) {
      assert KeyGood(s, key);
      SameActive(s.contacts, contacts, key);
    }
    forall i | 0 <= i < |contacts| ensures Settled(s', i) && Tracked(s', i) { assert Settled(s, i) && Tracked(s, i); }
  }

  lemma SameActive(contacts: seq<Contact>, contacts': seq<Contact>, key: Key)
    requires |contacts'| == |contacts| && forall i :: 0 <= i < |contacts| ==> Is(contacts'[i], key) == Is(contacts[i], key)
    ensures Active(contacts', key) == Active(contacts, key)
  {
    if i :| 0 <= i < |contacts| && Is(contacts[i], key) { assert Is(contacts'[i], key); }
    if i :| 0 <= i < |contacts'| && Is(contacts'[i], key) { assert Is(contacts[i], key); }
  }

  lemma EndedKey(s: State, i: nat, key: Key)
    requires Good(s) && i < |s.contacts| && s.contacts[i].active
    ensures KeyGood(Ended(s, i), key) && Unique(Ended(s, i).contacts)
    ensures Active(Ended(s, i).contacts, key) <==> key != s.contacts[i].key && Active(s.contacts, key)
  {
    hide Alternates, IsOpen;
    var c := s.contacts[i];
    assert KeyGood(s, key) && KeyGood(s, c.key);
    assert Is(s.contacts[i], c.key);
    TableChanged(s.contacts, i, c.(active := false, seen := false), key);
    LogOne(s.log, Touch(c.key, c.key.report, false, true, c.x, c.y), key);
  }

  lemma EndedGood(s: State, i: nat)
    requires Good(s) && i < |s.contacts| && s.contacts[i].active
    ensures Good(Ended(s, i))
  {
    hide KeyGood, Active, SumX, SumY;
    var s', c := Ended(s, i), s.contacts[i];
    forall key ensures KeyGood(s', key) { EndedKey(s, i, key); }
    EndedKey(s, i, c.key);
    if s.primary.Some? { EndedKey(s, i, s.primary.value); }
    forall k | 0 <= k < |s'.contacts| ensures Settled(s', k) && Tracked(s', k) {
      assert Settled(s, k) && Tracked(s, k);
      if s.trace.since <= |s.log| { SumOne(s.log, Touch(c.key, c.key.report, false, true, c.x, c.y), s.trace.since); }
    }
  }

  lemma {:induction false} EndUnseenGood(s: State, report: nat, i: nat)
    requires Good(s) && i <= |s.contacts|
    ensures Good(EndUnseen(s, report, i)) && |EndUnseen(s, report, i).contacts| == |s.contacts|
    decreases |s.contacts| - i
  {
    hide Good;
    if i < |s.contacts| {
      if !s.contacts[i].active || s.contacts[i].key.report != report || s.contacts[i].seen {
        EndUnseenGood(s, report, i + 1);
      } else {
        EndedGood(s, i);
        EndUnseenGood(Ended(s, i), report, i + 1);
      }
    }
  }

  /** All places below `i` are empty. */
  predicate EmptyBelow(contacts: seq<Contact>, i: nat) {
    forall k :: 0 <= k < i && k < |contacts| ==> !contacts[k].active
  }

  lemma {:induction false} ReleaseGood(s: State, i: nat)
    requires Good(s) && i <= |s.contacts| && EmptyBelow(s.contacts, i)
    ensures Good(ReleaseFrom(s, i)) && |ReleaseFrom(s, i).contacts| == |s.contacts|
    ensures EmptyBelow(ReleaseFrom(s, i).contacts, |s.contacts|)
    decreases |s.contacts| - i
  {
    hide KeyGood, Settled, Tracked;
    if i < |s.contacts| {
      var ended := if s.contacts[i].active then Ended(s, i) else s;
      if s.contacts[i].active { EndedGood(s, i); }
      RemarkedGood(ended, ended.contacts[i := NO_CONTACT]);
      ReleaseGood(ended.(contacts := ended.contacts[i := NO_CONTACT]), i + 1);
    }
  }

  lemma ActionGood(s: State, a: Action)
    requires Good(s)
    ensures Good(Apply(s, a))
  {
    hide Good, DoSamples, EndUnseen, ReleaseFrom;
    match a
    case Report(report, samples, endUnseen) =>
      RemarkedGood(s, Unseen(s.contacts));
      var marked := s.(contacts := Unseen(s.contacts));
      SamplesGood(marked, samples);
      if endUnseen { EndUnseenGood(DoSamples(marked, samples), report, 0); }
    case AlpsReport(samples) => SamplesGood(s, samples);
    case Release => ReleaseGood(s, 0);
  }

  lemma {:induction false} RunGood(s: State, run: seq<Action>)
    requires Good(s)
    ensures Good(Run(s, run))
    decreases |run|
  {
    hide Good, Apply;
    if run != [] {
      ActionGood(s, run[0]);
      RunGood(Apply(s, run[0]), run[1..]);
    }
  }

  // ---- Main results ----

  ghost predicate Reachable(s: State) {
    exists run :: s == Run(Initial(), run)
  }

  lemma ReachableGood(s: State)
    requires Reachable(s)
    ensures Good(s)
  {
    var run :| s == Run(Initial(), run);
    RunGood(Initial(), run);
  }

  /** For every key, Begin and End take turns starting with Begin, and a contact is active exactly after a Begin. */
  lemma BeginAndEndAlternate(s: State, key: Key)
    requires Reachable(s)
    ensures Alternates(s.log, key)
    ensures IsOpen(s.log, key) <==> Active(s.contacts, key)
  {
    hide Reachable;
    ReachableGood(s);
    assert KeyGood(s, key);
  }

  lemma PrimaryIsActive(s: State)
    requires Reachable(s) && s.primary.Some?
    ensures Active(s.contacts, s.primary.value)
  {
    hide Reachable;
    ReachableGood(s);
  }

  /**
   While a contact stays primary, 256 times the motion emitted since then plus the residual is its
   displacement, less what samples without confidence contributed; less than one unit is ever owed.
   */
  lemma MotionAddsUp(s: State, i: nat)
    requires Reachable(s) && i < |s.contacts| && s.contacts[i].active && s.primary == Some(s.contacts[i].key)
    ensures var c, t := s.contacts[i], s.trace;
      && 256 * SumX(s.log, t.since) + c.residualX == c.x - t.startX - t.driftX
      && 256 * SumY(s.log, t.since) + c.residualY == c.y - t.startY - t.driftY
      && -256 < c.residualX < 256 && -256 < c.residualY < 256
  {
    hide Reachable, SumX, SumY;
    ReachableGood(s);
    assert Settled(s, i) && Tracked(s, i);
  }

  /** A trusted sample of the primary contact adds nothing to the drift. */
  lemma ConfidentSamplesDoNotDrift(s: State, p: Sample)
    requires Good(s) && s.primary == Some(p.key) && p.active && p.confident && p.touchpad
    ensures DoSample(s, p).trace == s.trace && DoSample(s, p).primary == s.primary
  {
    LocatePlace(s.contacts, p.key, true);
  }

  predicate Trusted(samples: seq<Sample>) {
    forall i :: 0 <= i < |samples| ==> samples[i].confident && samples[i].touchpad
  }

  predicate TrustedAction(a: Action) {
    a.Release? || Trusted(a.samples)
  }

  predicate Driftless(s: State) {
    s.trace.driftX == 0 && s.trace.driftY == 0
  }

  lemma {:induction false} SamplesDriftless(s: State, samples: seq<Sample>)
    requires Good(s) && Driftless(s) && Trusted(samples)
    ensures Driftless(DoSamples(s, samples))
    decreases |samples|
  {
    hide Good, DoSample;
    if samples != [] {
      SampleDriftless(s, samples[0]);
      SampleGood(s, samples[0]);
      SamplesDriftless(DoSample(s, samples[0]), samples[1..]);
    }
  }

  lemma SampleDriftless(s: State, p: Sample)
    requires Good(s) && Driftless(s) && p.confident && p.touchpad
    ensures Driftless(DoSample(s, p))
  {
    hide Good, Locate, Whole;
    if s.primary == Some(p.key) && p.active {
      ConfidentSamplesDoNotDrift(s, p);
    }
  }

  lemma {:induction false} EndUnseenKeepsTrace(s: State, report: nat, i: nat)
    requires i <= |s.contacts|
    ensures EndUnseen(s, report, i).trace == s.trace
    decreases |s.contacts| - i
  {
    if i < |s.contacts| {
      EndUnseenKeepsTrace(s, report, i + 1);
      EndUnseenKeepsTrace(Ended(s, i), report, i + 1);
    }
  }

  lemma {:induction false} ReleaseKeepsTrace(s: State, i: nat)
    requires i <= |s.contacts|
    ensures ReleaseFrom(s, i).trace == s.trace
    decreases |s.contacts| - i
  {
    if i < |s.contacts| {
      var ended := if s.contacts[i].active then Ended(s, i) else s;
      ReleaseKeepsTrace(ended.(contacts := ended.contacts[i := NO_CONTACT]), i + 1);
    }
  }

  lemma ActionDriftless(s: State, a: Action)
    requires Good(s) && Driftless(s) && TrustedAction(a)
    ensures Driftless(Apply(s, a))
  {
    hide Good, DoSamples, EndUnseen, ReleaseFrom;
    match a
    case Report(report, samples, endUnseen) =>
      RemarkedGood(s, Unseen(s.contacts));
      var marked := s.(contacts := Unseen(s.contacts));
      SamplesDriftless(marked, samples);
      EndUnseenKeepsTrace(DoSamples(marked, samples), report, 0);
    case AlpsReport(samples) => SamplesDriftless(s, samples);
    case Release => ReleaseKeepsTrace(s, 0);
  }

  lemma {:induction false} RunDriftless(s: State, run: seq<Action>)
    requires Good(s) && Driftless(s) && forall k :: 0 <= k < |run| ==> TrustedAction(run[k])
    ensures Driftless(Run(s, run))
    decreases |run|
  {
    hide Good, Apply, Driftless, TrustedAction;
    if run != [] {
      ActionDriftless(s, run[0]);
      ActionGood(s, run[0]);
      RunDriftless(Apply(s, run[0]), run[1..]);
    }
  }

  /** On a touchpad whose samples are all trusted the motion accounts for the whole displacement, over every run. */
  lemma TrustedMotionAddsUp(run: seq<Action>, i: nat)
    requires forall k :: 0 <= k < |run| ==> TrustedAction(run[k])
    requires var s := Run(Initial(), run); i < |s.contacts| && s.contacts[i].active && s.primary == Some(s.contacts[i].key)
    ensures var s := Run(Initial(), run);
      var c, t := s.contacts[i], s.trace;
      && 256 * SumX(s.log, t.since) + c.residualX == c.x - t.startX
      && 256 * SumY(s.log, t.since) + c.residualY == c.y - t.startY
  {
    hide Run, SumX, SumY, TrustedAction;
    InitialGood();
    RunDriftless(Initial(), run);
    MotionAddsUp(Run(Initial(), run), i);
  }

  lemma InitialGood()
    ensures Good(Initial()) && Driftless(Initial())
  {
  }

  // ---- What observers see ----

  /** The events as observers get them: a contact is known by its identifier and the report shown with it. */
  function Observed(log: seq<Event>): (r: seq<Event>)
    ensures |r| == |log|
  {
    seq(|log|, i requires 0 <= i < |log| =>
      if log[i].Touch? then log[i].(key := Key(log[i].key.id, log[i].shown)) else log[i])
  }

  ghost predicate TurnsSeen(log: seq<Event>) {
    forall key :: Alternates(Observed(log), key)
  }

  lemma ObservedOne(log: seq<Event>, e: Event)
    ensures Observed(log + [e]) == Observed(log) + Observed([e])
    ensures Observed([e]) == [if e.Touch? then e.(key := Key(e.key.id, e.shown)) else e]
  {
  }

  /** A log that begins badly stays bad. */
  lemma {:induction false} TurnsOfPrefix(log: seq<Event>, more: seq<Event>, key: Key)
    requires Alternates(log + more, key)
    ensures Alternates(log, key)
    decreases |more|
  {
    if more == [] {
      assert log + more == log;
    } else {
      var n := |more| - 1;
      assert (log + more)[..|log| + n] == log + more[..n];
      TurnsOfPrefix(log, more[..n], key);
    }
  }

  // ---- ALPS pads ----

  const ALPS_STATE: nat := 0xFF

  /** All touch events are those of an ALPS pad whose reports carry the identifier `shown`. */
  predicate AlpsLog(log: seq<Event>, shown: nat) {
    forall i :: 0 <= i < |log| && log[i].Touch? ==> log[i].key.report == ALPS_STATE && log[i].shown == shown
  }

  predicate AlpsSamples(samples: seq<Sample>, shown: nat) {
    forall i :: 0 <= i < |samples| ==> samples[i].key.report == ALPS_STATE && samples[i].shown == shown
  }

  predicate AlpsAction(a: Action, shown: nat) {
    a.Release? || (a.AlpsReport? && AlpsSamples(a.samples, shown))
  }

  predicate AlpsContacts(contacts: seq<Contact>) {
    forall i :: 0 <= i < |contacts| && contacts[i].active ==> contacts[i].key.report == ALPS_STATE
  }

  predicate Touched(contacts: seq<Contact>) {
    exists i :: 0 <= i < |contacts| && contacts[i].active
  }

  /** No release finds a finger on the pad. */
  ghost predicate QuietReleases(s: State, run: seq<Action>)
    decreases |run|
  {
    run == [] || ((run[0].Release? ==> !Touched(s.contacts)) && QuietReleases(Apply(s, run[0]), run[1..]))
  }

  /** On such a log observers see the turns of the table, under another name. */
  lemma {:induction false} AlpsTurns(log: seq<Event>, shown: nat, key: Key)
    requires AlpsLog(log, shown)
    ensures key.report == shown ==>
      && (Alternates(Observed(log), key) <==> Alternates(log, Key(key.id, ALPS_STATE)))
      && (IsOpen(Observed(log), key) <==> IsOpen(log, Key(key.id, ALPS_STATE)))
    ensures key.report != shown ==> Alternates(Observed(log), key) && !IsOpen(Observed(log), key)
    decreases |log|
  {
    if log != [] {
      var n := |log| - 1;
      AlpsTurns(log[..n], shown, key);
      assert log == log[..n] + [log[n]];
      ObservedOne(log[..n], log[n]);
      LogOne(log[..n], log[n], Key(key.id, ALPS_STATE));
      LogOne(Observed(log[..n]), Observed([log[n]])[0], key);
    }
  }

  lemma AlpsSample(s: State, p: Sample, shown: nat)
    requires AlpsLog(s.log, shown) && AlpsContacts(s.contacts) && p.key.report == ALPS_STATE && p.shown == shown
    ensures AlpsLog(DoSample(s, p).log, shown) && AlpsContacts(DoSample(s, p).contacts)
    ensures s.log <= DoSample(s, p).log
  {
    hide Locate, Whole;
  }

  lemma {:induction false} AlpsSamplesKeep(s: State, samples: seq<Sample>, shown: nat)
    requires AlpsLog(s.log, shown) && AlpsContacts(s.contacts) && AlpsSamples(samples, shown)
    ensures AlpsLog(DoSamples(s, samples).log, shown) && AlpsContacts(DoSamples(s, samples).contacts)
    decreases |samples|
  {
    hide DoSample, AlpsLog, AlpsContacts;
    if samples != [] {
      AlpsSample(s, samples[0], shown);
      AlpsSamplesKeep(DoSample(s, samples[0]), samples[1..], shown);
    }
  }

  lemma {:induction false} QuietRelease(s: State, i: nat)
    requires i <= |s.contacts| && !Touched(s.contacts)
    ensures ReleaseFrom(s, i).log == s.log && !Touched(ReleaseFrom(s, i).contacts)
    decreases |s.contacts| - i
  {
    if i < |s.contacts| {
      QuietRelease(s.(contacts := s.contacts[i := NO_CONTACT]), i + 1);
    }
  }

  /** A release that finds a finger shows an End that was never begun. */
  lemma {:induction false} LoudRelease(s: State, i: nat, shown: nat)
    requires i <= |s.contacts| && AlpsLog(s.log, shown) && AlpsContacts(s.contacts) && shown != ALPS_STATE
    requires exists k :: i <= k < |s.contacts| && s.contacts[k].active
    ensures !TurnsSeen(ReleaseFrom(s, i).log)
    decreases |s.contacts| - i
  {
    if s.contacts[i].active {
      var c := s.contacts[i];
      var ended := Ended(s, i);
      var end := Touch(c.key, ALPS_STATE, false, true, c.x, c.y);
      var key := Key(c.key.id, ALPS_STATE);
      AlpsTurns(s.log, shown, key);
      ObservedOne(s.log, end);
      LogOne(Observed(s.log), Observed([end])[0], key);
      assert !Alternates(Observed(ended.log), key);
      var next := ended.(contacts := ended.contacts[i := NO_CONTACT]);
      ReleaseGrows(next, i + 1);
      StaysBad(ended.log, ReleaseFrom(next, i + 1).log, key);
    } else {
      var next := s.(contacts := s.contacts[i := NO_CONTACT]);
      var k :| i <= k < |s.contacts| && s.contacts[k].active;
      assert next.contacts[k].active;
      LoudRelease(next, i + 1, shown);
    }
  }

  lemma StaysBad(log: seq<Event>, longer: seq<Event>, key: Key)
    requires log <= longer && !Alternates(Observed(log), key)
    ensures !Alternates(Observed(longer), key)
  {
    var more := longer[|log|..];
    assert Observed(longer) == Observed(log) + Observed(more);
    if Alternates(Observed(longer), key) {
      TurnsOfPrefix(Observed(log), Observed(more), key);
    }
  }

  lemma {:induction false} ReleaseGrows(s: State, i: nat)
    requires i <= |s.contacts|
    ensures s.log <= ReleaseFrom(s, i).log
    decreases |s.contacts| - i
  {
    if i < |s.contacts| {
      var ended := if s.contacts[i].active then Ended(s, i) else s;
      ReleaseGrows(ended.(contacts := ended.contacts[i := NO_CONTACT]), i + 1);
    }
  }

  lemma SampleGrows(s: State, p: Sample)
    ensures s.log <= DoSample(s, p).log
  {
    hide Locate, Whole;
  }

  lemma {:induction false} SamplesGrow(s: State, samples: seq<Sample>)
    ensures s.log <= DoSamples(s, samples).log
    decreases |samples|
  {
    hide DoSample;
    if samples != [] {
      SampleGrows(s, samples[0]);
      SamplesGrow(DoSample(s, samples[0]), samples[1..]);
    }
  }

  lemma {:induction false} AlpsRunGrows(s: State, run: seq<Action>, shown: nat)
    requires forall k :: 0 <= k < |run| ==> AlpsAction(run[k], shown)
    ensures s.log <= Run(s, run).log
    decreases |run|
  {
    hide DoSamples, ReleaseFrom;
    if run != [] {
      assert AlpsAction(run[0], shown);
      if run[0].Release? { ReleaseGrows(s, 0); } else { SamplesGrow(s, run[0].samples); }
      AlpsRunGrows(Apply(s, run[0]), run[1..], shown);
    }
  }

  lemma {:induction false} AlpsRun(s: State, run: seq<Action>, shown: nat)
    requires Good(s) && AlpsLog(s.log, shown) && AlpsContacts(s.contacts) && shown != ALPS_STATE
    requires forall k :: 0 <= k < |run| ==> AlpsAction(run[k], shown)
    ensures TurnsSeen(Run(s, run).log) <==> QuietReleases(s, run)
    decreases |run|
  {
    hide Good, DoSamples, ReleaseFrom, AlpsLog, AlpsContacts, Touched, TurnsSeen;
    if run == [] {
      TableTurnsSeen(s, shown);
    } else {
      var s' := Apply(s, run[0]);
      assert AlpsAction(run[0], shown);
      if run[0].Release? && Touched(s.contacts) {
        Found(s.contacts);
        LoudRelease(s, 0, shown);
        AlpsRunGrows(s', run[1..], shown);
        BadForGood(s'.log, Run(s', run[1..]).log);
      } else {
        ActionGood(s, run[0]);
        if run[0].Release? {
          QuietRelease(s, 0);
          NobodyTouches(s'.contacts);
        } else {
          AlpsSamplesKeep(s, run[0].samples, shown);
        }
        AlpsRun(s', run[1..], shown);
      }
    }
  }

  lemma Found(contacts: seq<Contact>)
    requires Touched(contacts)
    ensures exists k :: 0 <= k < |contacts| && contacts[k].active
  {
  }

  lemma NobodyTouches(contacts: seq<Contact>)
    requires !Touched(contacts)
    ensures AlpsContacts(contacts)
  {
  }

  lemma BadForGood(log: seq<Event>, longer: seq<Event>)
    requires log <= longer && !TurnsSeen(log)
    ensures !TurnsSeen(longer)
  {
    var key :| !Alternates(Observed(log), key);
    StaysBad(log, longer, key);
  }

  lemma TableTurnsSeen(s: State, shown: nat)
    requires Good(s) && AlpsLog(s.log, shown)
    ensures TurnsSeen(s.log)
  {
    hide Alternates, IsOpen;
    forall key ensures Alternates(Observed(s.log), key) {
      AlpsTurns(s.log, shown, key);
      assert KeyGood(s, Key(key.id, ALPS_STATE));
    }
  }

  /**
   Observers of an ALPS pad see Begin and End of every contact take turns exactly when no release of the state
   finds a finger on the pad: the End of a release carries the table's identifier and not the report's.
   */
  lemma AlpsTurnsSeen(run: seq<Action>, shown: nat)
    requires shown != ALPS_STATE && forall k :: 0 <= k < |run| ==> AlpsAction(run[k], shown)
    ensures TurnsSeen(Run(Initial(), run).log) <==> QuietReleases(Initial(), run)
  {
    hide Run;
    InitialGood();
    AlpsRun(Initial(), run, shown);
  }

  // ---- Other devices ----

  predicate PlainLog(log: seq<Event>) {
    forall i :: 0 <= i < |log| && log[i].Touch? ==> log[i].shown == log[i].key.report
  }

  /** The samples' events carry the report identifier of the key, as the generic decoder makes them. */
  predicate PlainAction(a: Action) {
    a.Release? || forall i :: 0 <= i < |a.samples| ==> a.samples[i].shown == a.samples[i].key.report
  }

  lemma PlainSample(s: State, p: Sample)
    requires PlainLog(s.log) && p.shown == p.key.report
    ensures PlainLog(DoSample(s, p).log)
  {
    hide Locate, Whole;
  }

  lemma {:induction false} PlainSamples(s: State, samples: seq<Sample>)
    requires PlainLog(s.log) && forall i :: 0 <= i < |samples| ==> samples[i].shown == samples[i].key.report
    ensures PlainLog(DoSamples(s, samples).log)
    decreases |samples|
  {
    hide DoSample, PlainLog;
    if samples != [] {
      PlainSample(s, samples[0]);
      PlainSamples(DoSample(s, samples[0]), samples[1..]);
    }
  }

  lemma {:induction false} PlainEnds(s: State, report: nat, i: nat)
    requires PlainLog(s.log) && i <= |s.contacts|
    ensures PlainLog(EndUnseen(s, report, i).log)
    decreases |s.contacts| - i
  {
    if i < |s.contacts| {
      PlainEnds(s, report, i + 1);
      PlainEnds(Ended(s, i), report, i + 1);
    }
  }

  lemma {:induction false} PlainRelease(s: State, i: nat)
    requires PlainLog(s.log) && i <= |s.contacts|
    ensures PlainLog(ReleaseFrom(s, i).log)
    decreases |s.contacts| - i
  {
    if i < |s.contacts| {
      var ended := if s.contacts[i].active then Ended(s, i) else s;
      PlainRelease(ended.(contacts := ended.contacts[i := NO_CONTACT]), i + 1);
    }
  }

  lemma {:induction false} PlainRun(s: State, run: seq<Action>)
    requires PlainLog(s.log) && forall k :: 0 <= k < |run| ==> PlainAction(run[k])
    ensures PlainLog(Run(s, run).log)
    decreases |run|
  {
    hide PlainLog, DoSamples, EndUnseen, ReleaseFrom;
    if run != [] {
      assert PlainAction(run[0]);
      match run[0] {
        case Report(report, samples, _) =>
          var marked := s.(contacts := Unseen(s.contacts));
          PlainSamples(marked, samples);
          PlainEnds(DoSamples(marked, samples), report, 0);
        case AlpsReport(samples) => PlainSamples(s, samples);
        case Release => PlainRelease(s, 0);
      }
      PlainRun(Apply(s, run[0]), run[1..]);
    }
  }

  /**
   Observers of devices whose samples carry the report of their key see Begin and End take turns over every run,
   also across releases.
   */
  lemma TurnsSeenElsewhere(run: seq<Action>)
    requires forall k :: 0 <= k < |run| ==> PlainAction(run[k])
    ensures TurnsSeen(Run(Initial(), run).log)
  {
    hide Run, Alternates, IsOpen;
    var s := Run(Initial(), run);
    InitialGood();
    RunGood(Initial(), run);
    PlainRun(Initial(), run);
    assert Observed(s.log) == s.log;
    forall key ensures Alternates(Observed(s.log), key) { assert KeyGood(s, key); }
  }
}
