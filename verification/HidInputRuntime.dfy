/** The runtime's contact table as the decoders update it in place, and the arithmetic around it. */
module HidInputRuntime {
  import opened FileBytes
  import opened HidTouch

  class Runtime {
    const contacts: array<Contact>
    var primary: Option<Key>
    ghost var log: seq<Event>
    ghost var trace: Trace

    ghost function Model(): State
      reads this, contacts
    {
      State(contacts[..], primary, log, trace)
    }

    constructor ()
      ensures Model() == Initial() && fresh(contacts)
    {
      contacts := new Contact[CONTACT_COUNT](_ => NO_CONTACT);
      primary, log, trace := None, [], Trace(0, 0, 0, 0, 0);
    }

    /** `FindTouchContact`: one pass that remembers the first free place. */
    method FindTouchContact(key: Key, allocate: bool) returns (i: nat)
      ensures i == Locate(contacts[..], key, allocate)
    {
      var free := contacts.Length;
      i := 0;
      while i < contacts.Length
        invariant i <= contacts.Length && free <= contacts.Length
        invariant Find(contacts[..], key, i) == Find(contacts[..], key)
        invariant if free < i then FirstFree(contacts[..]) == free
                  else free == contacts.Length && FirstFree(contacts[..], i) == FirstFree(contacts[..])
      {
        if contacts[i].active && contacts[i].key == key {
          return;
        }
        if !contacts[i].active && free == contacts.Length {
          free := i;
        }
        i := i + 1;
      }
      i := if allocate then free else contacts.Length;
    }

    /** The body of the sample loops of `DecodeHidInputReport` and `DecodeHIDALPSInputReport`. */
    method DecodeSample(p: Sample)
      modifies this, contacts
      ensures Model() == DoSample(old(Model()), p)
    {
      hide Locate, Whole;
      var i := FindTouchContact(p.key, p.active);
      if i == contacts.Length {
        return;
      }
      ghost var s := Model();
      var was := contacts[i].active;
      if !was {
        contacts[i] := NO_CONTACT.(key := p.key);
      }
      var before := contacts[i];
      var x := if p.x.Some? then p.x.value else before.x;
      var y := if p.y.Some? then p.y.value else before.y;
      log := log + [Touch(p.key, p.shown, p.active && !was, !p.active && was, x, y)];
      if p.active {
        if p.touchpad && primary.None? {
          primary := Some(p.key);
          trace := Trace(x, y, |log|, 0, 0);
        } else if p.touchpad && primary == Some(p.key) && was && p.confident {
          var dx, dy := x - before.x + before.residualX, y - before.y + before.residualY;
          var motion := Motion(Whole(dx), Whole(dy));
          contacts[i] := contacts[i].(residualX := dx - motion.dx * MOTION_UNIT, residualY := dy - motion.dy * MOTION_UNIT);
          log := log + Moved(motion);
        } else if primary == Some(p.key) {
          trace := trace.(driftX := trace.driftX + x - before.x, driftY := trace.driftY + y - before.y);
        }
      } else {
        contacts[i] := contacts[i].(residualX := 0, residualY := 0);
        if primary == Some(p.key) {
          primary := None;
        }
      }
      contacts[i] := contacts[i].(active := p.active, seen := p.active, x := x, y := y);
      assert contacts[..] == s.contacts[i := contacts[i]];
    }

    /** The loop over the samples of one report. */
    method DecodeSamples(samples: seq<Sample>)
      modifies this, contacts
      ensures Model() == DoSamples(old(Model()), samples)
    {
      var i := 0;
      while i < |samples|
        invariant i <= |samples| && DoSamples(Model(), samples[i..]) == DoSamples(old(Model()), samples)
      {
        assert samples[i..][1..] == samples[i + 1..];
        DecodeSample(samples[i]);
        i := i + 1;
      }
    }

    method End(i: nat)
      requires i < contacts.Length
      modifies this, contacts
      ensures Model() == Ended(old(Model()), i)
    {
      var c := contacts[i];
      log := log + [Touch(c.key, c.key.report, false, true, c.x, c.y)];
      if primary == Some(c.key) {
        primary := None;
      }
      contacts[i] := c.(active := false, seen := false);
    }

    /** The loop that lifts contacts the report did not mention. */
    method EndUnseenContacts(report: nat)
      modifies this, contacts
      ensures Model() == EndUnseen(old(Model()), report, 0)
    {
      var i := 0;
      while i < contacts.Length
        invariant i <= contacts.Length && EndUnseen(Model(), report, i) == EndUnseen(old(Model()), report, 0)
      {
        if contacts[i].active && contacts[i].key.report == report && !contacts[i].seen {
          End(i);
        }
        i := i + 1;
      }
    }

    /** The touch part of `DecodeHidInputReport`. */
    method DecodeReport(report: nat, samples: seq<Sample>, endUnseen: bool)
      modifies this, contacts
      ensures Model() == DoReport(old(Model()), report, samples, endUnseen)
    {
      var i := 0;
      while i < contacts.Length
        invariant i <= contacts.Length && primary == old(primary) && log == old(log) && trace == old(trace)
        invariant forall k :: 0 <= k < i ==> contacts[k] == old(contacts[k]).(seen := false)
        invariant forall k :: i <= k < contacts.Length ==> contacts[k] == old(contacts[k])
      {
        contacts[i] := contacts[i].(seen := false);
        i := i + 1;
      }
      assert contacts[..] == Unseen(old(contacts[..]));
      DecodeSamples(samples);
      if endUnseen {
        EndUnseenContacts(report);
      }
    }

    /** The contact part of `ReleaseHidInputState`. */
    method ReleaseState()
      modifies this, contacts
      ensures Model() == ReleaseFrom(old(Model()), 0)
    {
      var i := 0;
      while i < contacts.Length
        invariant i <= contacts.Length && ReleaseFrom(Model(), i) == ReleaseFrom(old(Model()), 0)
      {
        ghost var s := Model();
        if contacts[i].active {
          End(i);
        }
        ghost var t := Model();
        contacts[i] := NO_CONTACT;
        assert Model() == t.(contacts := t.contacts[i := NO_CONTACT]);
        i := i + 1;
      }
      primary := None;
    }
  }

  // ---- Coordinates ----

  const COORDINATE_MAX: int := 65535
  const WORD_MAX: int := 0xFFFF_FFFF_FFFF_FFFF

  lemma Quotient(a: int, b: int, limit: int)
    requires 0 <= a <= limit * b && b > 0
    ensures 0 <= a / b <= limit
  {
  }

  lemma ExactQuotient(limit: int, b: int)
    requires b > 0
    ensures b * limit / b == limit
  {
    var q := b * limit / b;
    assert b * (limit - q) == b * limit % b;
    Multiple(b, limit - q);
  }

  lemma Multiple(b: int, k: int)
    requires b > 0
    ensures k >= 1 ==> b * k >= b
    ensures k <= -1 ==> b * k < 0
  {
  }

  function Clamped(value: int, minimum: int, maximum: int): int {
    if value < minimum then minimum else if value > maximum then maximum else value
  }

  /** `NormalizeInputCoordinate`: every value lands on the scale 0..65535. */
  function NormalizeInputCoordinate(value: int, minimum: int, maximum: int): (r: int)
    ensures 0 <= r <= COORDINATE_MAX
  {
    if maximum <= minimum then 0
    else
      var distance, range := Clamped(value, minimum, maximum) - minimum, maximum - minimum;
      if distance <= WORD_MAX / COORDINATE_MAX then
        Quotient(distance * COORDINATE_MAX, range, COORDINATE_MAX);
        distance * COORDINATE_MAX / range
      else
        var divisor := Divisor(range);
        Quotient(distance, divisor, COORDINATE_MAX);
        distance / divisor
  }

  function Divisor(range: int): (d: int)
    requires range > 0
    ensures d > 0 && range <= d * COORDINATE_MAX
  {
    range / COORDINATE_MAX + if range % COORDINATE_MAX != 0 then 1 else 0
  }

  /**
   The lower end of the range lands on the lower end of the scale. The upper end lands on the upper end exactly when the
   product fits a word or the range is a multiple of the scale; otherwise it stays below.
   */
  lemma NormalizedEnds(value: int, minimum: int, maximum: int)
    ensures value <= minimum ==> NormalizeInputCoordinate(value, minimum, maximum) == 0
    ensures minimum < maximum <= value ==>
      (NormalizeInputCoordinate(value, minimum, maximum) == COORDINATE_MAX <==>
       maximum - minimum <= WORD_MAX / COORDINATE_MAX || (maximum - minimum) % COORDINATE_MAX == 0)
  {
    if minimum < maximum {
      ExactQuotient(COORDINATE_MAX, maximum - minimum);
      DividedRange(maximum - minimum);
    }
  }

  lemma DividedRange(range: int)
    requires range > 0
    ensures range % COORDINATE_MAX == 0 ==> range / Divisor(range) == COORDINATE_MAX
    ensures range % COORDINATE_MAX != 0 ==> range / Divisor(range) < COORDINATE_MAX
  {
    var d := Divisor(range);
    if range % COORDINATE_MAX == 0 {
      assert range == d * COORDINATE_MAX;
      ExactQuotient(COORDINATE_MAX, d);
    } else {
      assert range < d * COORDINATE_MAX;
      BelowQuotient(range, d, COORDINATE_MAX);
    }
  }

  lemma BelowQuotient(a: int, b: int, limit: int)
    requires 0 <= a < b * limit && b > 0
    ensures a / b < limit
  {
    var q := a / b;
    assert b * q <= a;
    Multiple(b, limit - q);
    if q >= limit {
      MoreMultiples(b, limit, q);
    }
  }

  lemma MoreMultiples(b: int, k: int, m: int)
    requires b > 0 && k <= m
    ensures b * k <= b * m
  {
  }

  // ---- Chunks for the mouse handler ----

  datatype Chunk = Chunk(x: int, y: int)

  function TotalX(chunks: seq<Chunk>): int {
    if chunks == [] then 0 else TotalX(chunks[..|chunks| - 1]) + chunks[|chunks| - 1].x
  }

  function TotalY(chunks: seq<Chunk>): int {
    if chunks == [] then 0 else TotalY(chunks[..|chunks| - 1]) + chunks[|chunks| - 1].y
  }

  function Clip(v: int): (r: int)
    ensures -127 <= r <= 127 && (r == 0 <==> v == 0)
  {
    if v > 127 then 127 else if v < -127 then -127 else v
  }

  function Magnitude(v: int): nat {
    if v < 0 then -v else v
  }

  /** `RouteMecocoaInput` for a pointer event: at least one chunk, each fits a signed byte, and they add up to the event. */
  method RouteMotion(x: int, y: int) returns (chunks: seq<Chunk>)
    ensures chunks != [] && TotalX(chunks) == x && TotalY(chunks) == y
    ensures forall i :: 0 <= i < |chunks| ==> -127 <= chunks[i].x <= 127 && -127 <= chunks[i].y <= 127
  {
    chunks := [];
    var restX, restY, first := x, y, true;
    while first || restX != 0 || restY != 0
      invariant TotalX(chunks) + restX == x && TotalY(chunks) + restY == y && (first <==> chunks == [])
      invariant forall i :: 0 <= i < |chunks| ==> -127 <= chunks[i].x <= 127 && -127 <= chunks[i].y <= 127
      decreases first, Magnitude(restX) + Magnitude(restY)
    {
      var chunk := Chunk(Clip(restX), Clip(restY));
      assert (chunks + [chunk])[..|chunks|] == chunks;
      chunks := chunks + [chunk];
      restX, restY, first := restX - chunk.x, restY - chunk.y, false;
    }
  }
}
