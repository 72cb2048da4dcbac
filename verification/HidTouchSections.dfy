/** What one touch sample, the end of a report and the scaling of a coordinate do, by their own terms. */
module HidTouchSections {
  import opened FileBytes
  import opened HidTouch
  import opened HidInputRuntime

  // ---- One sample ----

  predicate Touching(contacts: seq<Contact>, key: Key) {
    exists i :: 0 <= i < |contacts| && contacts[i].active && contacts[i].key == key
  }

  /** Nothing but the contact at `i` changes. */
  predicate OnlyContact(s: State, s': State, i: nat) {
    i < |s.contacts| == |s'.contacts| && forall k :: 0 <= k < |s.contacts| && k != i ==> s'.contacts[k] == s.contacts[k]
  }

  /** The sample finds its contact, or a free place if it touches. */
  lemma SampleFindsPlace(s: State, p: Sample)
    ensures var i := Locate(s.contacts, p.key, p.active);
      && (i < |s.contacts| <==> Touching(s.contacts, p.key) || (p.active && exists k :: 0 <= k < |s.contacts| && !s.contacts[k].active))
      && (i < |s.contacts| && Touching(s.contacts, p.key) ==> s.contacts[i].active && s.contacts[i].key == p.key)
      && (i < |s.contacts| && !Touching(s.contacts, p.key) ==> !s.contacts[i].active)
      && (i == |s.contacts| ==> DoSample(s, p) == s)
  {
    var found := Find(s.contacts, p.key);
    if found < |s.contacts| {
      assert Is(s.contacts[found], p.key);
    } else if p.active {
      var free := FirstFree(s.contacts);
    }
    if Touching(s.contacts, p.key) {
      var k :| 0 <= k < |s.contacts| && s.contacts[k].active && s.contacts[k].key == p.key;
      assert Is(s.contacts[k], p.key);
    }
  }

  /**
   The contact takes the sample's coordinates where it has them and keeps its own otherwise; observers are shown just these, with
   Begin for a new contact and End for one that is lifted.
   */
  lemma SampleIsShown(s: State, p: Sample)
    requires Locate(s.contacts, p.key, p.active) < |s.contacts|
    ensures var s', i := DoSample(s, p), Locate(s.contacts, p.key, p.active);
      var c, c' := s.contacts[i], s'.contacts[i];
      && OnlyContact(s, s', i)
      && c'.key == p.key && c'.active == p.active && c'.seen == p.active
      && (p.x.Some? ==> c'.x == p.x.value) && (p.y.Some? ==> c'.y == p.y.value)
      && (p.x.None? && c.active ==> c'.x == c.x) && (p.y.None? && c.active ==> c'.y == c.y)
      && |s.log| < |s'.log| && s'.log[..|s.log|] == s.log
      && s'.log[|s.log|] == Touch(p.key, p.shown, p.active && !c.active, !p.active && c.active, c'.x, c'.y)
  {
    hide Locate, Whole;
  }

  /** A touchpad's first touching contact becomes primary and stays so until it is lifted. */
  lemma PrimaryFollowsTouch(s: State, p: Sample)
    requires Locate(s.contacts, p.key, p.active) < |s.contacts|
    ensures var s' := DoSample(s, p);
      s'.primary ==
        if p.active && p.touchpad && s.primary.None? then Some(p.key)
        else if !p.active && s.primary == Some(p.key) then None
        else s.primary
  {
    hide Locate, Whole;
  }

  // ---- The end of a report and a release ----

  /** The contact belongs to the report, touches and was not mentioned. */
  predicate Forgotten(c: Contact, report: nat) {
    c.active && c.key.report == report && !c.seen
  }

  lemma {:induction false} ForgottenAreLifted(s: State, report: nat, from: nat, k: nat)
    requires from <= |s.contacts| && k < |s.contacts|
    ensures var s' := EndUnseen(s, report, from);
      && |s'.contacts| == |s.contacts| && s'.contacts[k].key == s.contacts[k].key
      && s'.contacts[k].x == s.contacts[k].x && s'.contacts[k].y == s.contacts[k].y
      && (s'.contacts[k].active <==> s.contacts[k].active && !(from <= k && Forgotten(s.contacts[k], report)))
    decreases |s.contacts| - from
  {
    if from < |s.contacts| {
      ForgottenAreLifted(s, report, from + 1, k);
      ForgottenAreLifted(Ended(s, from), report, from + 1, k);
    }
  }

  /**
   After a report that lists all its contacts, exactly those of its contacts that no sample mentioned as touching are lifted; without
   the list nothing is.
   */
  lemma ReportLiftsForgotten(s: State, report: nat, samples: seq<Sample>, endUnseen: bool, k: nat)
    requires k < |DoSamples(s.(contacts := Unseen(s.contacts)), samples).contacts|
    ensures var before, after := DoSamples(s.(contacts := Unseen(s.contacts)), samples), DoReport(s, report, samples, endUnseen);
      && |after.contacts| == |before.contacts|
      && (after.contacts[k].active <==> before.contacts[k].active && !(endUnseen && Forgotten(before.contacts[k], report)))
  {
    ForgottenAreLifted(DoSamples(s.(contacts := Unseen(s.contacts)), samples), report, 0, k);
  }

  lemma {:induction false} ReleaseEmpties(s: State, from: nat)
    requires from <= |s.contacts| && forall k :: 0 <= k < from ==> s.contacts[k] == NO_CONTACT
    ensures var s' := ReleaseFrom(s, from);
      |s'.contacts| == |s.contacts| && s'.primary == None && forall k :: 0 <= k < |s.contacts| ==> s'.contacts[k] == NO_CONTACT
    decreases |s.contacts| - from
  {
    if from < |s.contacts| {
      var ended := if s.contacts[from].active then Ended(s, from) else s;
      ReleaseEmpties(ended.(contacts := ended.contacts[from := NO_CONTACT]), from + 1);
    }
  }

  // ---- Coordinates ----

  /** How far the value lies inside its range. */
  function Distance(value: int, minimum: int, maximum: int): int {
    if value <= minimum then 0 else if value >= maximum then maximum - minimum else value - minimum
  }

  /**
   The coordinate is the share of 65535 that the distance is of the range, rounded down; where that product leaves 64 bits, it is the
   distance counted in the smallest steps that keep the range within 65535 of them.
   */
  lemma NormalizedShare(value: int, minimum: int, maximum: int)
    requires minimum < maximum
    ensures var r, d, range := NormalizeInputCoordinate(value, minimum, maximum), Distance(value, minimum, maximum), maximum - minimum;
      if d * 65535 <= 0xFFFF_FFFF_FFFF_FFFF then r * range <= d * 65535 < (r + 1) * range
      else
        var step := Divisor(range);
        r * step <= d < (r + 1) * step && (step - 1) * 65535 < range <= step * 65535
  {
    var d, range := Distance(value, minimum, maximum), maximum - minimum;
    assert Clamped(value, minimum, maximum) - minimum == d;
    Share(d * 65535, range);
    Share(d, Divisor(range));
  }

  lemma Share(a: int, b: int)
    requires b > 0
    ensures a / b * b <= a < (a / b + 1) * b
  {
  }

  /** As long as the product fits, larger values never come out smaller. */
  lemma NormalizedOrder(v: int, w: int, minimum: int, maximum: int)
    requires v <= w && minimum < maximum && (maximum - minimum) * 65535 <= 0xFFFF_FFFF_FFFF_FFFF
    ensures NormalizeInputCoordinate(v, minimum, maximum) <= NormalizeInputCoordinate(w, minimum, maximum)
  {
    var a, b, range := Distance(v, minimum, maximum), Distance(w, minimum, maximum), maximum - minimum;
    NormalizedShare(v, minimum, maximum);
    NormalizedShare(w, minimum, maximum);
    var r, q := NormalizeInputCoordinate(v, minimum, maximum), NormalizeInputCoordinate(w, minimum, maximum);
    if q < r {
      MoreMultiples(range, q + 1, r);
    }
  }
}
