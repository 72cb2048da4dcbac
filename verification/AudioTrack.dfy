/**
 Audio tracks and the master mixer of `mecocoa/devsman-au.cpp`: a ring of bytes per track, a fixed-point
 resampler on top of it, and the sum of all tracks as unsigned 8-bit samples.
 */
module AudioTrack {
  type Octet = x: int | 0 <= x < 256

  const RING_BYTES: nat := 65536
  const MASTER_RATE: nat := 44100
  const TRACK_COUNT: nat := 8
  const UNIT: nat := 0x1_0000

  // ---- Frames ----

  /** Unsigned 8-bit or signed 16-bit little endian, one or two channels. */
  datatype Format = Format(wide: bool, stereo: bool)

  datatype Frame = Frame(left: int, right: int)

  function FrameBytes(f: Format): nat {
    (if f.wide then 2 else 1) * (if f.stereo then 2 else 1)
  }

  function Narrow(b: Octet): int {
    (b - 128) * 256
  }

  function Wide(low: Octet, high: Octet): int {
    if high < 128 then low + 256 * high else low + 256 * high - 65536
  }

  function DecodeFrame(f: Format, bytes: seq<Octet>): (frame: Frame)
    requires |bytes| == FrameBytes(f)
    ensures Audible(frame)
  {
    if !f.wide then
      if f.stereo then Frame(Narrow(bytes[0]), Narrow(bytes[1])) else Frame(Narrow(bytes[0]), Narrow(bytes[0]))
    else if f.stereo then Frame(Wide(bytes[0], bytes[1]), Wide(bytes[2], bytes[3]))
    else Frame(Wide(bytes[0], bytes[1]), Wide(bytes[0], bytes[1]))
  }

  predicate InRange(v: int) {
    -32768 <= v <= 32767
  }

  predicate Audible(frame: Frame) {
    InRange(frame.left) && InRange(frame.right)
  }

  // ---- Positions in the ring ----

  /** The place `i` bytes behind position `p`. */
  function Slot(p: nat, i: nat): (r: nat)
    ensures r < RING_BYTES
  {
    (p + i) % RING_BYTES
  }

  lemma SlotAdds(p: nat, n: nat, i: nat)
    ensures Slot(Slot(p, n), i) == Slot(p, n + i)
  {
  }

  lemma SlotsDiffer(p: nat, i: nat, j: nat)
    requires i < j < i + RING_BYTES
    ensures Slot(p, i) != Slot(p, j)
  {
  }

  lemma SlotsContiguous(p: nat, n: nat, k: nat)
    requires Slot(p, n) + k < RING_BYTES
    ensures Slot(p, n + k) == Slot(p, n) + k
  {
  }

  /** The bytes held, oldest first. */
  function Held(ring: seq<Octet>, readPos: nat, used: nat): (held: seq<Octet>)
    requires |ring| == RING_BYTES
    ensures |held| == used
  {
    seq(used, i requires 0 <= i < used => ring[Slot(readPos, i)])
  }

  lemma HeldDrop(ring: seq<Octet>, readPos: nat, used: nat, n: nat)
    requires |ring| == RING_BYTES && n <= used
    ensures Held(ring, Slot(readPos, n), used - n) == Held(ring, readPos, used)[n..]
  {
    hide Slot;
    forall i | 0 <= i < used - n ensures Slot(Slot(readPos, n), i) == Slot(readPos, n + i) {
      SlotAdds(readPos, n, i);
    }
  }

  /** Bytes `w .. w + |chunk|` now hold the chunk and no other place changed. */
  predicate Wrote(ring: seq<Octet>, ring': seq<Octet>, w: nat, chunk: seq<Octet>) {
    && |ring| == |ring'| == RING_BYTES && w + |chunk| <= RING_BYTES
    && (forall i :: 0 <= i < |chunk| ==> ring'[w + i] == chunk[i])
    && (forall p :: 0 <= p < RING_BYTES && !(w <= p < w + |chunk|) ==> ring'[p] == ring[p])
  }

  /** Bytes written behind the held ones join them and disturb none. */
  lemma HeldGrow(ring: seq<Octet>, ring': seq<Octet>, readPos: nat, used: nat, chunk: seq<Octet>)
    requires used + |chunk| <= RING_BYTES && Wrote(ring, ring', Slot(readPos, used), chunk)
    ensures Held(ring', readPos, used + |chunk|) == Held(ring, readPos, used) + chunk
  {
    hide Slot;
    var left, right := Held(ring', readPos, used + |chunk|), Held(ring, readPos, used) + chunk;
    forall i | 0 <= i < used + |chunk| ensures left[i] == right[i] {
      if i < used {
        Untouched(readPos, used, |chunk|, i);
      } else {
        SlotsContiguous(readPos, used, i - used);
        assert ring'[Slot(readPos, used) + (i - used)] == chunk[i - used];
      }
    }
  }

  lemma Untouched(readPos: nat, used: nat, length: nat, i: nat)
    requires i < used && used + length <= RING_BYTES && Slot(readPos, used) + length <= RING_BYTES
    ensures !(Slot(readPos, used) <= Slot(readPos, i) < Slot(readPos, used) + length)
  {
    hide Slot;
    var w, p := Slot(readPos, used), Slot(readPos, i);
    if w <= p < w + length {
      SlotsContiguous(readPos, used, p - w);
      SlotsDiffer(readPos, i, used + (p - w));
    }
  }

  /** Bytes written behind the held ones leave these alone. */
  lemma HeldStays(ring: seq<Octet>, ring': seq<Octet>, readPos: nat, used: nat, part: seq<Octet>)
    requires used + |part| <= RING_BYTES && Wrote(ring, ring', Slot(readPos, used), part)
    ensures Held(ring', readPos, used) == Held(ring, readPos, used)
  {
    HeldGrow(ring, ring', readPos, used, part);
    assert Held(ring', readPos, used) == Held(ring', readPos, used + |part|)[..used];
  }

  // ---- Copying into the ring ----

  /** How much of the input fits. */
  function Fits(length: nat, used: nat): (r: nat)
    requires used <= RING_BYTES
    ensures r <= length && used + r <= RING_BYTES && (r == length || used + r == RING_BYTES)
  {
    if length <= RING_BYTES - used then length else RING_BYTES - used
  }

  /** What `CopyPcmToTrackRing` returns. */
  function Reported(length: nat, used: nat, readable: nat): nat
    requires used <= RING_BYTES
  {
    if readable < Fits(length, used) then readable else Fits(length, used)
  }

  /** What it adds to the queue: whole stretches only, of which the first ends at the end of the ring. */
  function TakenOver(length: nat, used: nat, writePos: nat, readable: nat): nat
    requires used <= RING_BYTES && writePos < RING_BYTES
  {
    if readable >= Fits(length, used) then Fits(length, used)
    else if readable < RING_BYTES - writePos then 0
    else RING_BYTES - writePos
  }

  /**
   The count returned is the number of bytes taken over exactly when all that fits can be read, or none of it,
   or the readable part ends where the ring does.
   */
  lemma ReportsWhatItTook(length: nat, used: nat, writePos: nat, readable: nat)
    requires used <= RING_BYTES && writePos < RING_BYTES
    ensures Reported(length, used, readable) == TakenOver(length, used, writePos, readable) <==>
      readable >= Fits(length, used) || readable == 0 || readable == RING_BYTES - writePos
    ensures Reported(length, used, readable) >= TakenOver(length, used, writePos, readable)
  {
  }

  /** A stretch that ends with the ring brings the position back to the start. */
  lemma WrapsAround(writePos: nat, chunk: nat)
    requires writePos + chunk <= RING_BYTES && writePos < RING_BYTES
    ensures Slot(writePos, chunk) == if writePos + chunk == RING_BYTES then 0 else writePos + chunk
  {
  }

  // ---- Resampling ----

  /** Input frames per output frame, in 16.16 fixed point. */
  function Step(rate: nat): nat {
    rate * UNIT / MASTER_RATE
  }

  /** After `outputs` output frames, this many input frames were fetched and this phase is left. */
  predicate OnGrid(rate: nat, outputs: nat, fetched: nat, phase: nat) {
    fetched == 2 + outputs * Step(rate) / UNIT && phase == outputs * Step(rate) % UNIT
  }

  /** The same before the phase is reduced below one unit. */
  predicate Accounted(rate: nat, outputs: nat, fetched: nat, phase: nat) {
    fetched >= 2 && (fetched - 2) * UNIT + phase == outputs * Step(rate)
  }

  lemma GridAccounted(rate: nat, outputs: nat, fetched: nat, phase: nat)
    requires phase < UNIT
    ensures OnGrid(rate, outputs, fetched, phase) <==> Accounted(rate, outputs, fetched, phase)
  {
    hide Step;
    Reduced(outputs * Step(rate));
    if Accounted(rate, outputs, fetched, phase) {
      UnitDigits(fetched - 2, phase, outputs * Step(rate));
    }
  }

  lemma Reduced(x: nat)
    ensures x == x / UNIT * UNIT + x % UNIT
  {
  }

  lemma UnitDigits(q: nat, r: nat, x: nat)
    requires q * UNIT + r == x && r < UNIT
    ensures q == x / UNIT && r == x % UNIT
  {
  }

  lemma OneMoreOutput(rate: nat, outputs: nat, fetched: nat, phase: nat)
    requires Accounted(rate, outputs, fetched, phase)
    ensures Accounted(rate, outputs + 1, fetched, phase + Step(rate))
  {
    hide Step;
  }

  lemma OneMoreFrame(rate: nat, outputs: nat, fetched: nat, phase: nat)
    requires Accounted(rate, outputs, fetched, phase) && phase >= UNIT
    ensures Accounted(rate, outputs, fetched + 1, phase - UNIT)
  {
    hide Step;
  }

  /** The resampler is within its bounds and, while steady, on the grid. */
  predicate Resamples(rate: nat, r: Resampler, h: History) {
    && (r.hasFrames ==> r.phase < UNIT) && Audible(r.current) && Audible(r.next)
    && (r.hasFrames && h.steady ==> OnGrid(rate, h.outputs, h.fetched, r.phase))
  }

  /** Linear interpolation with an arithmetic shift. */
  function Between(a: int, b: int, fraction: nat): int {
    a + (b - a) * fraction / UNIT
  }

  /** An interpolated value lies between its two neighbours. */
  lemma BetweenNeighbours(a: int, b: int, fraction: nat)
    requires fraction < UNIT
    ensures (if a <= b then a else b) <= Between(a, b, fraction) <= (if a <= b then b else a)
  {
    var d := b - a;
    if d >= 0 {
      assert 0 <= d * fraction <= d * UNIT;
    } else {
      assert d * UNIT <= d * fraction <= 0;
    }
    ScaledQuotient(d * fraction, d);
  }

  lemma ScaledQuotient(x: int, d: int)
    requires 0 <= x <= d * UNIT || d * UNIT <= x <= 0
    ensures 0 <= x / UNIT <= d || d <= x / UNIT <= 0
  {
  }

  // ---- Mixing ----

  function Clamp16(v: int): (r: int)
    ensures InRange(r) && (InRange(v) ==> r == v)
  {
    if v > 32767 then 32767 else if v < -32768 then -32768 else v
  }

  /** Signed 16-bit to unsigned 8-bit. */
  function MixedByte(sum: int): (b: Octet)
    ensures 0 <= b <= 255
  {
    Clamp16(sum) / 256 + 128
  }

  /** Louder never comes out quieter, silence is the middle, and overload saturates. */
  lemma MixedByteOrder(a: int, b: int)
    requires a <= b
    ensures MixedByte(a) <= MixedByte(b) && MixedByte(0) == 128
    ensures a <= -32768 ==> MixedByte(a) == 0
    ensures b >= 32767 ==> MixedByte(b) == 255
  {
  }

  /** C division by 100, which truncates. */
  function Scaled(v: int, percent: nat): int {
    if v >= 0 then v * percent / 100 else -((-v) * percent / 100)
  }

  lemma ScaledSmaller(v: int, percent: nat)
    requires percent <= 100
    ensures if v >= 0 then 0 <= Scaled(v, percent) <= v else v <= Scaled(v, percent) <= 0
  {
    Percent(if v >= 0 then v else -v, percent);
  }

  lemma Percent(v: nat, percent: nat)
    requires percent <= 100
    ensures 0 <= v * percent / 100 <= v
  {
    assert v * percent <= v * 100;
  }

  // ---- A track ----

  /** How the track is to be played. */
  datatype Settings = Settings(format: Format, rate: nat, volume: nat, muted: bool, active: bool, paused: bool, temporary: bool)

  const CLOSED := Settings(Format(false, false), 0, 100, false, false, false, false)

  /** The two frames the resampler stands between, and where. */
  datatype Resampler = Resampler(phase: nat, current: Frame, next: Frame, hasFrames: bool)

  const IDLE := Resampler(0, Frame(0, 0), Frame(0, 0), false)

  /**
   Since the resampler started at byte `base` of the stream: outputs made and frames fetched; `steady` until
   a fetch found no frame.
   */
  datatype History = History(base: nat, outputs: nat, fetched: nat, steady: bool)

  function Interpolated(r: Resampler): Frame {
    Frame(Between(r.current.left, r.next.left, r.phase % UNIT), Between(r.current.right, r.next.right, r.phase % UNIT))
  }

  lemma InterpolatedBound(r: Resampler)
    requires Audible(r.current) && Audible(r.next)
    ensures Audible(Interpolated(r))
  {
    hide Between;
    BetweenNeighbours(r.current.left, r.next.left, r.phase % UNIT);
    BetweenNeighbours(r.current.right, r.next.right, r.phase % UNIT);
  }

  /** Mute and volume. */
  function Attenuated(s: Settings, frame: Frame): Frame {
    if s.muted || s.volume == 0 then Frame(0, 0)
    else if s.volume < 100 then Frame(Scaled(frame.left, s.volume), Scaled(frame.right, s.volume))
    else frame
  }

  lemma AttenuatedBound(s: Settings, frame: Frame)
    requires Audible(frame)
    ensures Audible(Attenuated(s, frame))
  {
    hide Scaled;
    if s.volume < 100 {
      ScaledSmaller(frame.left, s.volume);
      ScaledSmaller(frame.right, s.volume);
    }
  }

  // ---- What a track plays ----

  /** What a track shows the mixer. */
  datatype View = View(queue: seq<Octet>, settings: Settings, resampler: Resampler)

  predicate Ready(v: View) {
    |v.queue| >= FrameBytes(v.settings.format)
  }

  /** The oldest frame held; silence if there is none. */
  function First(v: View): Frame {
    if Ready(v) then DecodeFrame(v.settings.format, v.queue[..FrameBytes(v.settings.format)]) else Frame(0, 0)
  }

  function Rest(v: View): View {
    if Ready(v) then v.(queue := v.queue[FrameBytes(v.settings.format)..]) else v
  }

  /** The resampler starts between the first two frames, or on the only one. */
  function Primed(v: View): View {
    var frame, rest := First(v), Rest(v);
    if !Ready(v) then v.(resampler := v.resampler.(current := frame))
    else Rest(rest).(resampler := Resampler(0, frame, if Ready(rest) then First(rest) else frame, true))
  }

  /** One frame is passed for every whole unit of phase, until none is left. */
  function CaughtUp(v: View): View
    decreases v.resampler.phase
  {
    if v.resampler.phase < UNIT then v
    else
      var moved := Rest(v).(resampler := Resampler(v.resampler.phase - UNIT, v.resampler.next, First(v), Ready(v)));
      if Ready(v) then CaughtUp(moved) else moved
  }

  /** The frame that is passed does not depend on where the resampler stands. */
  lemma CatchUpTurn(v: View, w: View)
    requires v.resampler.phase >= UNIT && w == v.(resampler := w.resampler)
    ensures var moved := Rest(w).(resampler := Resampler(v.resampler.phase - UNIT, v.resampler.next, First(w), Ready(w)));
      CaughtUp(v) == if Ready(w) then CaughtUp(moved) else moved
  {
    hide DecodeFrame;
  }

  lemma CaughtUpStays(v: View)
    requires v.resampler.phase < UNIT
    ensures CaughtUp(v) == v
  {
  }

  function Moved(v: View): View {
    CaughtUp(v.(resampler := v.resampler.(phase := v.resampler.phase + Step(v.settings.rate))))
  }

  datatype Sample = Sample(ok: bool, frame: Frame, after: View)

  /** The next output frame of the track, if it has one, and what it leaves. */
  function Sampled(v: View): Sample {
    if v.settings.rate == MASTER_RATE then
      Sample(Ready(v), if Ready(v) then Attenuated(v.settings, First(v)) else Frame(0, 0), Rest(v))
    else
      var started := if v.resampler.hasFrames then v else Primed(v);
      if !started.resampler.hasFrames then Sample(false, Frame(0, 0), started)
      else Sample(true, Attenuated(v.settings, Interpolated(started.resampler)), Moved(started))
  }

  /** The frame at byte `at` of everything accepted. */
  function FrameAt(stream: seq<Octet>, f: Format, at: int): Frame {
    if 0 <= at && at + FrameBytes(f) <= |stream| then DecodeFrame(f, stream[at..at + FrameBytes(f)]) else Frame(0, 0)
  }

  /** The frames fetched are consecutive in the stream, and these are the last two. */
  ghost predicate Consecutive(stream: seq<Octet>, played: nat, f: Format, current: Frame, next: Frame, h: History) {
    && h.fetched >= 2 && h.base + h.fetched * FrameBytes(f) == played
    && next == FrameAt(stream, f, played - FrameBytes(f))
    && current == FrameAt(stream, f, played - 2 * FrameBytes(f))
  }

  lemma ConsecutiveGrows(stream: seq<Octet>, more: seq<Octet>, played: nat, f: Format, current: Frame, next: Frame, h: History)
    requires Consecutive(stream, played, f, current, next, h) && played <= |stream|
    ensures Consecutive(stream + more, played, f, current, next, h)
  {
    FrameAtGrows(stream, more, f, played - FrameBytes(f));
    FrameAtGrows(stream, more, f, played - 2 * FrameBytes(f));
  }

  lemma ConsecutiveNext(stream: seq<Octet>, played: nat, f: Format, current: Frame, next: Frame, h: History)
    requires Consecutive(stream, played, f, current, next, h)
    ensures Consecutive(stream, played + FrameBytes(f), f, next, FrameAt(stream, f, played), h.(fetched := h.fetched + 1))
  {
    hide FrameAt, FrameBytes;
    assert (h.fetched + 1) * FrameBytes(f) == h.fetched * FrameBytes(f) + FrameBytes(f);
  }

  lemma OutputsDoNotMatter(stream: seq<Octet>, played: nat, f: Format, current: Frame, next: Frame, h: History)
    requires Consecutive(stream, played, f, current, next, h)
    ensures Consecutive(stream, played, f, current, next, h.(outputs := h.outputs + 1))
  {
  }

  lemma ConsecutiveStart(stream: seq<Octet>, base: nat, f: Format)
    ensures Consecutive(stream, base + 2 * FrameBytes(f), f, FrameAt(stream, f, base), FrameAt(stream, f, base + FrameBytes(f)),
                        History(base, 0, 2, true))
  {
    hide FrameAt, FrameBytes;
  }

  lemma FrameAtGrows(stream: seq<Octet>, more: seq<Octet>, f: Format, at: int)
    requires at + FrameBytes(f) <= |stream|
    ensures FrameAt(stream + more, f, at) == FrameAt(stream, f, at)
  {
    hide DecodeFrame;
    if at >= 0 {
      assert (stream + more)[at..at + FrameBytes(f)] == stream[at..at + FrameBytes(f)];
    }
  }

  class Track {
    const ring: array<Octet>
    var readPos: nat
    var writePos: nat
    var used: nat
    var played: nat
    var settings: Settings
    var resampler: Resampler
    /** All bytes accepted since the track began. */
    ghost var stream: seq<Octet>
    ghost var history: History

    ghost predicate Valid()
      reads this, ring
    {
      && ring.Length == RING_BYTES && readPos < RING_BYTES && used <= RING_BYTES
      && writePos == Slot(readPos, used)
      && |stream| == played + used && stream[played..] == Queue()
      && Resamples(settings.rate, resampler, history)
      && (resampler.hasFrames && history.steady ==>
            Consecutive(stream, played, settings.format, resampler.current, resampler.next, history))
      && (settings.rate == MASTER_RATE ==> !resampler.hasFrames)
    }

    ghost function Queue(): seq<Octet>
      requires ring.Length == RING_BYTES
      reads this, ring
    {
      Held(ring[..], readPos, used)
    }

    ghost function Shown(): View
      requires ring.Length == RING_BYTES
      reads this, ring
    {
      View(Queue(), settings, resampler)
    }

    constructor ()
      ensures Valid() && stream == [] && settings == CLOSED && fresh(ring) && used == 0 && writePos == 0
    {
      ring := new Octet[RING_BYTES](_ => 0);
      readPos, writePos, used, played := 0, 0, 0, 0;
      settings, resampler, stream, history := CLOSED, IDLE, [], History(0, 0, 0, false);
    }

    /** `ResetTrackState`. */
    method Reset()
      requires ring.Length == RING_BYTES
      modifies this
      ensures Valid() && stream == [] && played == 0 && Shown() == View([], CLOSED, IDLE)
    {
      readPos, writePos, used, played := 0, 0, 0, 0;
      settings, resampler, stream, history := CLOSED, IDLE, [], History(0, 0, 0, false);
    }

    /** `AudioStreamBegin` on this track. */
    method Begin(format: Format, rate: nat)
      requires ring.Length == RING_BYTES
      modifies this
      ensures Valid() && stream == [] && played == 0
      ensures settings == CLOSED.(format := format, rate := rate, active := true)
    {
      Reset();
      settings := settings.(format := format, rate := rate, active := true);
    }

    /**
     `CopyPcmToTrackRing`: takes what fits, in order. The source process may stop being readable after `readable`
     bytes; a stretch that cannot be read to its end is left out of the queue, but what was read of it is reported.
     */
    method Copy(source: seq<Octet>, readable: nat) returns (copied: nat)
      requires Valid()
      modifies this`writePos, this`used, this`stream, ring
      ensures Valid()
      ensures copied == Reported(|source|, old(used), readable)
      ensures var taken := TakenOver(|source|, old(used), old(writePos), readable);
        && taken <= |source| && used == old(used) + taken
        && Queue() == old(Queue()) + source[..taken] && stream == old(stream) + source[..taken]
    {
      hide Valid, Queue, Slot;
      copied := 0;
      Bounds();
      while copied < |source| && used < RING_BYTES
        invariant Valid() && copied <= |source| && used == old(used) + copied <= RING_BYTES && writePos < RING_BYTES
        invariant copied <= readable
        invariant copied == 0 ==> writePos == old(writePos)
        invariant copied > 0 ==> copied == Fits(|source|, old(used)) || (copied == RING_BYTES - old(writePos) && writePos == 0)
        invariant Queue() == old(Queue()) + source[..copied] && stream == old(stream) + source[..copied]
        decreases |source| - copied
      {
        var chunk := |source| - copied;
        if chunk > RING_BYTES - used { chunk := RING_BYTES - used; }
        if chunk > RING_BYTES - writePos { chunk := RING_BYTES - writePos; }
        if readable - copied < chunk {
          CopyPart(source[copied..readable]);
          copied := readable;
          return;
        }
        WrapsAround(writePos, chunk);
        CopyChunk(source[copied..copied + chunk]);
        assert source[..copied + chunk] == source[..copied] + source[copied..copied + chunk];
        copied := copied + chunk;
        Bounds();
      }
    }

    lemma Bounds()
      requires Valid()
      ensures used <= RING_BYTES && writePos < RING_BYTES && ring.Length == RING_BYTES
    {
    }

    /** Bytes that are written behind the held ones but not taken over. */
    method CopyPart(part: seq<Octet>)
      requires Valid() && |part| <= RING_BYTES - used && |part| <= RING_BYTES - writePos
      modifies ring
      ensures Valid() && Queue() == old(Queue())
    {
      hide Slot, Resamples, Held, Consecutive;
      WriteBytes(part);
      HeldStays(old(ring[..]), ring[..], readPos, used, part);
    }

    /** The copy into the ring itself. */
    method WriteBytes(chunk: seq<Octet>)
      requires ring.Length == RING_BYTES && writePos + |chunk| <= RING_BYTES
      modifies ring
      ensures Wrote(old(ring[..]), ring[..], writePos, chunk)
    {
      var i := 0;
      while i < |chunk|
        invariant i <= |chunk|
        invariant forall k :: 0 <= k < i ==> ring[writePos + k] == chunk[k]
        invariant forall p :: 0 <= p < RING_BYTES && !(writePos <= p < writePos + i) ==> ring[p] == old(ring[p])
      {
        ring[writePos + i] := chunk[i];
        i := i + 1;
      }
    }

    /** One contiguous stretch of the copy. */
    method CopyChunk(chunk: seq<Octet>)
      requires Valid() && |chunk| <= RING_BYTES - used && |chunk| <= RING_BYTES - writePos
      modifies this`writePos, this`used, this`stream, ring
      ensures Valid() && used == old(used) + |chunk| && writePos == Slot(old(writePos), |chunk|)
      ensures Queue() == old(Queue()) + chunk && stream == old(stream) + chunk
    {
      hide Slot, Resamples, Held, Consecutive;
      WriteBytes(chunk);
      HeldGrow(old(ring[..]), ring[..], readPos, used, chunk);
      SlotAdds(readPos, used, |chunk|);
      if resampler.hasFrames && history.steady {
        ConsecutiveGrows(stream, chunk, played, settings.format, resampler.current, resampler.next, history);
      }
      assert (stream + chunk)[played..] == stream[played..] + chunk;
      writePos := Slot(writePos, |chunk|);
      used := used + |chunk|;
      stream := stream + chunk;
    }

    /** `FetchTrackFrame`: takes the oldest frame, or nothing. */
    method Fetch() returns (ok: bool, frame: Frame)
      requires Valid() && !resampler.hasFrames
      modifies this`readPos, this`used, this`played
      ensures Valid() && Audible(frame)
      ensures ok == Ready(old(Shown())) && frame == First(old(Shown())) && Shown() == Rest(old(Shown()))
      ensures ok ==> played == old(played) + FrameBytes(settings.format) && frame == FrameAt(stream, settings.format, old(played))
      ensures !ok ==> played == old(played)
    {
      hide Slot, Resamples, DecodeFrame;
      var size := FrameBytes(settings.format);
      if used < size {
        return false, Frame(0, 0);
      }
      var bytes := Front(size);
      frame := DecodeFrame(settings.format, bytes);
      assert bytes == stream[played..played + size];
      HeldDrop(ring[..], readPos, used, size);
      SlotAdds(readPos, size, used - size);
      readPos := Slot(readPos, size);
      used := used - size;
      played := played + size;
      ok := true;
    }

    /** The oldest bytes, read across the end of the ring. */
    method Front(size: nat) returns (bytes: seq<Octet>)
      requires Valid() && size <= used
      ensures bytes == Queue()[..size]
    {
      hide Slot, Resamples, Consecutive;
      bytes := [];
      while |bytes| < size
        invariant |bytes| <= size && bytes == Queue()[..|bytes|]
      {
        bytes := bytes + [ring[Slot(readPos, |bytes|)]];
      }
    }

    /** The resampler's start: the first two frames, or one twice. */
    method Prime() returns (ok: bool)
      requires Valid() && !resampler.hasFrames && settings.rate != MASTER_RATE
      modifies this`readPos, this`used, this`played, this`resampler, this`history
      ensures Valid() && Shown() == Primed(old(Shown())) && (ok <==> resampler.hasFrames)
      ensures ok ==> resampler.phase == 0 && history.outputs == 0 && (history.steady ==> history.fetched == 2)
      ensures ok ==> history.base == old(played) && (history.steady <==> old(used) >= 2 * FrameBytes(settings.format))
    {
      hide Slot, Held, OnGrid, FrameAt, Consecutive;
      ghost var base := played;
      var frame;
      ok, frame := Fetch();
      resampler := resampler.(current := frame);
      if !ok { return; }
      var more, following := Fetch();
      resampler := Resampler(0, frame, if more then following else frame, true);
      history := History(base, 0, if more then 2 else 1, more);
      StartsOnGrid(settings.rate);
      ConsecutiveStart(stream, base, settings.format);
    }

    /** What the track would show with the resampler standing here. */
    ghost function At(phase: nat, current: Frame, next: Frame, hasFrames: bool): View
      requires ring.Length == RING_BYTES
      reads this, ring
    {
      Shown().(resampler := Resampler(phase, current, next, hasFrames))
    }

    /** Moves the phase on by one output and fetches the frames it passes. */
    method Advance()
      requires Valid() && resampler.hasFrames
      modifies this`readPos, this`used, this`played, this`resampler, this`history
      ensures Valid() && Shown() == Moved(old(Shown()))
      ensures history.outputs == old(history).outputs + 1 && history.base == old(history).base
      ensures resampler.hasFrames ==> history.steady == old(history).steady
    {
      hide Slot, Held, OnGrid, Accounted, Step, FrameAt, FrameBytes, Consecutive, CaughtUp, First, Rest, Ready;
      ghost var steady := history.steady;
      var step := Step(settings.rate);
      if history.steady {
        GridAccounted(settings.rate, history.outputs, history.fetched, resampler.phase);
        OneMoreOutput(settings.rate, history.outputs, history.fetched, resampler.phase);
      }
      var phase: nat := resampler.phase + step;
      var current, next, running := resampler.current, resampler.next, true;
      if history.steady {
        OutputsDoNotMatter(stream, played, settings.format, current, next, history);
      }
      history := history.(outputs := history.outputs + 1);
      resampler := resampler.(hasFrames := false);
      while running && phase >= UNIT
        invariant Valid() && !resampler.hasFrames && Audible(current) && Audible(next)
        invariant history.outputs == old(history).outputs + 1 && history.base == old(history).base
        invariant settings == old(settings)
        invariant Moved(old(Shown())) == (if running then CaughtUp(At(phase, current, next, true)) else At(phase, current, next, false))
        invariant running ==> history.steady == steady
        invariant running && steady ==> Accounted(settings.rate, history.outputs, history.fetched, phase)
        invariant running && steady ==> Consecutive(stream, played, settings.format, current, next, history)
        decreases running, phase
      {
        if steady {
          OneMoreFrame(settings.rate, history.outputs, history.fetched, phase);
          ConsecutiveNext(stream, played, settings.format, current, next, history);
        }
        CatchUpTurn(At(phase, current, next, true), Shown());
        phase := phase - UNIT;
        current := next;
        running, next := Fetch();
        history := if running then history.(fetched := history.fetched + 1) else history.(steady := false);
      }
      if running { CaughtUpStays(At(phase, current, next, true)); }
      if running && steady { GridAccounted(settings.rate, history.outputs, history.fetched, phase); }
      resampler := Resampler(phase, current, next, running);
    }

    /** `GetNextTrackSample`: one output frame at the master rate, or none. */
    method NextSample() returns (ok: bool, out: Frame)
      requires Valid()
      modifies this`readPos, this`used, this`played, this`resampler, this`history
      ensures Valid() && Audible(out)
      ensures var sample := Sampled(old(Shown())); ok == sample.ok && Shown() == sample.after && (ok ==> out == sample.frame)
      ensures ok && settings.rate != MASTER_RATE && old(resampler).hasFrames ==>
        && history.base == old(history).base && history.outputs == old(history).outputs + 1
        && (resampler.hasFrames ==> history.steady == old(history).steady)
      ensures ok && settings.rate != MASTER_RATE && !old(resampler).hasFrames ==>
        && history.base == old(played) && history.outputs == 1
        && (resampler.hasFrames ==> (history.steady <==> old(used) >= 2 * FrameBytes(settings.format)))
    {
      hide Slot, Held, OnGrid, Interpolated, Attenuated, DecodeFrame;
      ok, out := true, Frame(0, 0);
      if settings.rate == MASTER_RATE {
        ok, out := Fetch();
        if !ok { return; }
      } else {
        if !resampler.hasFrames {
          ok := Prime();
          if !ok { return; }
        }
        InterpolatedBound(resampler);
        out := Interpolated(resampler);
        Advance();
      }
      AttenuatedBound(settings, out);
      out := Attenuated(settings, out);
    }
  }

  lemma StartsOnGrid(rate: nat)
    ensures OnGrid(rate, 0, 2, 0)
  {
    hide Step;
  }

  // ---- The mixer ----

  predicate Bounded(sum: Frame, tracks: nat) {
    -32768 * tracks <= sum.left <= 32767 * tracks && -32768 * tracks <= sum.right <= 32767 * tracks
  }

  const SILENT := Frame(0, 0)

  function Added(a: Frame, b: Frame): Frame {
    Frame(a.left + b.left, a.right + b.right)
  }

  /** What the track adds to one frame of the mix: nothing while it is closed, paused or empty. */
  function Heard(v: View): Frame {
    if v.settings.active && !v.settings.paused && Sampled(v).ok then Sampled(v).frame else SILENT
  }

  /** The track after that frame; a temporary track is closed once it ran dry. */
  function After(v: View): View {
    if !v.settings.active || v.settings.paused then v
    else
      var sample := Sampled(v);
      if !sample.ok && v.settings.temporary && sample.after.queue == [] then View([], CLOSED, IDLE) else sample.after
  }

  function Sum(views: seq<View>): Frame {
    if views == [] then SILENT else Added(Sum(views[..|views| - 1]), Heard(views[|views| - 1]))
  }

  function AllAfter(views: seq<View>, frames: nat): (r: seq<View>)
    ensures |r| == |views|
  {
    if frames == 0 then views
    else
      var before := AllAfter(views, frames - 1);
      seq(|before|, i requires 0 <= i < |before| => After(before[i]))
  }

  /** The track played on its own for so many frames. */
  function Alone(v: View, frames: nat): View {
    if frames == 0 then v else After(Alone(v, frames - 1))
  }

  /** What it is heard as then. */
  function Solo(views: seq<View>, frame: nat): Frame {
    if views == [] then SILENT
    else Added(Solo(views[..|views| - 1], frame), Heard(Alone(views[|views| - 1], frame)))
  }

  /** Two bytes of which one can be read, into an empty ring: one byte is reported and none is held. */
  method ReportsTooMuch() returns (track: Track, copied: nat)
    ensures fresh(track) && track.Valid() && copied == 1 && track.Queue() == []
  {
    hide Slot, Held;
    track := new Track();
    copied := track.Copy([0, 0], 1);
    assert track.used == 0;
  }

  // ---- Which frames an output is made of ----

  /** Frame `i` of the bytes held. */
  function FrameNumber(v: View, i: nat): Frame {
    var at := i * FrameBytes(v.settings.format);
    if at + FrameBytes(v.settings.format) <= |v.queue|
    then DecodeFrame(v.settings.format, v.queue[at..at + FrameBytes(v.settings.format)]) else Frame(0, 0)
  }

  predicate HasFrames(v: View, frames: nat) {
    frames * FrameBytes(v.settings.format) <= |v.queue|
  }

  /** The resampler that started on `v` stands `phase` behind frame `i`, and everything up to frame `i + 1` was fetched. */
  ghost predicate Stands(v: View, w: View, i: nat, phase: nat) {
    && HasFrames(v, i + 2)
    && w == View(v.queue[(i + 2) * FrameBytes(v.settings.format)..], v.settings,
                 Resampler(phase, FrameNumber(v, i), FrameNumber(v, i + 1), true))
  }

  lemma FewerFrames(v: View, n: nat, m: nat)
    requires HasFrames(v, m) && n <= m
    ensures HasFrames(v, n)
  {
    assert n * FrameBytes(v.settings.format) <= m * FrameBytes(v.settings.format);
  }

  /** One frame further. */
  lemma StandsNext(v: View, w: View, i: nat, phase: nat)
    requires Stands(v, w, i, phase) && phase >= UNIT && HasFrames(v, i + 3)
    ensures Ready(w)
    ensures Stands(v, Rest(w).(resampler := Resampler(phase - UNIT, w.resampler.next, First(w), true)), i + 1, phase - UNIT)
  {
    hide DecodeFrame;
    var size := FrameBytes(v.settings.format);
    var at := (i + 2) * size;
    assert (i + 3) * size == at + size;
    assert w.queue[..size] == v.queue[at..at + size];
    assert w.queue[size..] == v.queue[at + size..];
  }

  /** Catching up passes exactly one frame for every whole unit of phase. */
  lemma {:induction false} CaughtUpStands(v: View, w: View, i: nat, phase: nat)
    requires Stands(v, w, i, phase) && HasFrames(v, i + 2 + phase / UNIT)
    ensures Stands(v, CaughtUp(w), i + phase / UNIT, phase % UNIT)
    decreases phase
  {
    hide Stands;
    if phase < UNIT {
      StandsThere(v, w, i, phase);
    } else {
      OneUnitLess(phase);
      FewerFrames(v, i + 3, i + 2 + phase / UNIT);
      StandsThere(v, w, i, phase);
      StandsNext(v, w, i, phase);
      CaughtUpStands(v, Rest(w).(resampler := Resampler(phase - UNIT, w.resampler.next, First(w), true)), i + 1, phase - UNIT);
    }
  }

  lemma StandsThere(v: View, w: View, i: nat, phase: nat)
    requires Stands(v, w, i, phase)
    ensures w.resampler.phase == phase && w.resampler.hasFrames && w.settings == v.settings
    ensures HasFrames(v, i + 2)
  {
  }

  lemma OneUnitLess(phase: nat)
    requires phase >= UNIT
    ensures phase / UNIT == 1 + (phase - UNIT) / UNIT && phase % UNIT == (phase - UNIT) % UNIT
  {
  }

  lemma PrimedStands(v: View)
    requires HasFrames(v, 2)
    ensures Ready(v) && Stands(v, Primed(v), 0, 0)
  {
    hide DecodeFrame;
    var size := FrameBytes(v.settings.format);
    var rest := Rest(v);
    assert v.queue[0 * size..1 * size] == v.queue[..size];
    assert rest.queue[..size] == v.queue[1 * size..2 * size];
    assert rest.queue[size..] == v.queue[2 * size..];
  }

  /** A resampled track that is played from its start. */
  predicate Starts(v: View) {
    v.settings.active && !v.settings.paused && v.settings.rate != MASTER_RATE && !v.resampler.hasFrames
  }

  /** Where the resampler stands before output `k` is made. */
  function Before(v: View, k: nat): View {
    if k == 0 then Primed(v) else Alone(v, k)
  }

  lemma {:induction false} StandsBefore(v: View, k: nat)
    requires Starts(v) && HasFrames(v, 2 + k * Step(v.settings.rate) / UNIT)
    ensures Stands(v, Before(v, k), k * Step(v.settings.rate) / UNIT, k * Step(v.settings.rate) % UNIT)
    decreases k
  {
    hide Stands, Step, CaughtUp, Primed;
    var step := Step(v.settings.rate);
    if k == 0 {
      assert k * step == 0;
      PrimedStands(v);
    } else {
      var before := (k - 1) * step;
      assert k * step == before + step;
      Digits(before, step);
      FewerFrames(v, 2 + before / UNIT, 2 + k * step / UNIT);
      StandsBefore(v, k - 1);
      AfterBefore(v, k - 1, before / UNIT, before % UNIT);
      var w := Before(v, k - 1);
      AheadStands(v, w, before / UNIT, before % UNIT, step);
      CaughtUpStands(v, w.(resampler := w.resampler.(phase := w.resampler.phase + step)), before / UNIT, before % UNIT + step);
    }
  }

  lemma Digits(x: nat, step: nat)
    ensures (x + step) / UNIT == x / UNIT + (x % UNIT + step) / UNIT && (x + step) % UNIT == (x % UNIT + step) % UNIT
    ensures x / UNIT <= (x + step) / UNIT
  {
  }

  lemma AheadStands(v: View, w: View, i: nat, phase: nat, step: nat)
    requires Stands(v, w, i, phase)
    ensures Stands(v, w.(resampler := w.resampler.(phase := w.resampler.phase + step)), i, phase + step)
  {
  }

  /** Each output moves the resampler on by one step. */
  lemma AfterBefore(v: View, k: nat, i: nat, phase: nat)
    requires Starts(v) && Stands(v, Before(v, k), i, phase)
    ensures Alone(v, k + 1) == Moved(Before(v, k))
    ensures Heard(Alone(v, k)) == Attenuated(v.settings, Interpolated(Before(v, k).resampler))
  {
    hide Stands, Primed, CaughtUp, Interpolated, Attenuated;
    StandsThere(v, Before(v, k), i, phase);
    if k == 0 {
      assert Alone(v, 0) == v;
      assert Alone(v, 1) == After(v);
    }
  }

  /**
   A track played from its start makes output `k` at position `k * step` of its input, in units of 1/65536 of
   a frame: it interpolates between the frames on either side, and by then exactly the first
   2 + floor(k * step / 65536) frames were fetched. All that is asked is that the queue holds these frames.
   */
  lemma FramesPerOutputs(v: View, k: nat)
    requires Starts(v) && HasFrames(v, 2 + k * Step(v.settings.rate) / 65536)
    ensures var position := k * Step(v.settings.rate);
      && HasFrames(v, position / 65536 + 2)
      && Before(v, k).queue == v.queue[(2 + position / 65536) * FrameBytes(v.settings.format)..]
      && (k > 0 ==> Alone(v, k).queue == v.queue[(2 + position / 65536) * FrameBytes(v.settings.format)..] && Alone(v, k).resampler.hasFrames
                    && Alone(v, k).resampler.phase == position % 65536)
      && Heard(Alone(v, k)) == Attenuated(v.settings, Interpolated(
           Resampler(position % 65536, FrameNumber(v, position / 65536), FrameNumber(v, position / 65536 + 1), true)))
  {
    hide Step, CaughtUp, Primed, Interpolated, Attenuated, DecodeFrame;
    var position := k * Step(v.settings.rate);
    StandsBefore(v, k);
    AfterBefore(v, k, position / UNIT, position % UNIT);
  }

  /** Before mute and volume, that output lies between its two frames. */
  lemma OutputBetweenFrames(v: View, k: nat)
    requires Starts(v) && HasFrames(v, 2 + k * Step(v.settings.rate) / 65536)
    ensures var position := k * Step(v.settings.rate);
      && HasFrames(v, position / 65536 + 2)
      && var a, b, out := FrameNumber(v, position / 65536), FrameNumber(v, position / 65536 + 1), Interpolated(Before(v, k).resampler);
         && (if a.left <= b.left then a.left else b.left) <= out.left <= (if a.left <= b.left then b.left else a.left)
         && (if a.right <= b.right then a.right else b.right) <= out.right <= (if a.right <= b.right then b.right else a.right)
  {
    hide Step, CaughtUp, Primed, DecodeFrame, Between;
    var position := k * Step(v.settings.rate);
    StandsBefore(v, k);
    var a, b := FrameNumber(v, position / UNIT), FrameNumber(v, position / UNIT + 1);
    BetweenNeighbours(a.left, b.left, position % UNIT % UNIT);
    BetweenNeighbours(a.right, b.right, position % UNIT % UNIT);
  }

  // ---- Mixing tracks ----

  lemma {:induction false} TracksDoNotInterfere(views: seq<View>, frames: nat, i: nat)
    requires i < |views|
    ensures AllAfter(views, frames)[i] == Alone(views[i], frames)
  {
    hide After;
    if frames > 0 {
      TracksDoNotInterfere(views, frames - 1, i);
    }
  }

  lemma {:induction false} AllAfterPrefix(views: seq<View>, frames: nat, n: nat)
    requires n <= |views|
    ensures AllAfter(views, frames)[..n] == AllAfter(views[..n], frames)
  {
    hide After;
    forall i | 0 <= i < n ensures AllAfter(views, frames)[i] == AllAfter(views[..n], frames)[i] {
      TracksDoNotInterfere(views, frames, i);
      TracksDoNotInterfere(views[..n], frames, i);
    }
  }

  /** Every frame of the mix is the sum of what the tracks would play alone. */
  lemma {:induction false} MixIsSuperposition(views: seq<View>, frame: nat)
    ensures Sum(AllAfter(views, frame)) == Solo(views, frame)
    decreases |views|
  {
    hide Heard, After, AllAfter;
    if views != [] {
      var n := |views| - 1;
      AllAfterPrefix(views, frame, n);
      TracksDoNotInterfere(views, frame, n);
      MixIsSuperposition(views[..n], frame);
    } else {
      assert AllAfter(views, frame) == [];
    }
  }

  ghost predicate Playable(tracks: seq<Track>)
    reads tracks, set t | t in tracks :: t.ring
  {
    && |tracks| <= TRACK_COUNT
    && (forall i :: 0 <= i < |tracks| ==> tracks[i].ring.Length == RING_BYTES && tracks[i].Valid())
    && (forall i, j :: 0 <= i < j < |tracks| ==> tracks[i] != tracks[j])
  }

  ghost predicate Show(tracks: seq<Track>, views: seq<View>)
    reads tracks, set t | t in tracks :: t.ring
  {
    |views| == |tracks| && forall i :: 0 <= i < |tracks| ==> tracks[i].ring.Length == RING_BYTES && tracks[i].Shown() == views[i]
  }

  /** One turn of the inner loop: the track adds what is heard of it. */
  method TakeTurn(track: Track) returns (heard: Frame)
    requires track.Valid()
    modifies track
    ensures track.Valid() && Audible(heard)
    ensures heard == Heard(old(track.Shown())) && track.Shown() == After(old(track.Shown()))
  {
    hide Sampled;
    heard := SILENT;
    if track.settings.active && !track.settings.paused {
      var ok, sample := track.NextSample();
      if ok {
        heard := sample;
      } else if track.settings.temporary && track.used == 0 {
        track.Reset();
      }
    }
  }

  /** One frame of the mix. */
  method MixFrame(tracks: seq<Track>, ghost views: seq<View>) returns (sum: Frame)
    requires Playable(tracks) && Show(tracks, views)
    modifies tracks
    ensures Playable(tracks) && Show(tracks, AllAfter(views, 1))
    ensures sum == Sum(views) && Bounded(sum, TRACK_COUNT)
  {
    hide Heard, After, Track.Valid, Track.Shown;
    sum := SILENT;
    var i := 0;
    while i < |tracks|
      invariant i <= |tracks| && Playable(tracks) && sum == Sum(views[..i]) && Bounded(sum, i)
      invariant forall k :: 0 <= k < i ==> tracks[k].Shown() == After(views[k])
      invariant forall k :: i <= k < |tracks| ==> tracks[k].Shown() == views[k]
    {
      var heard := TakeTurn(tracks[i]);
      assert views[..i + 1][..i] == views[..i];
      sum := Added(sum, heard);
      i := i + 1;
    }
    assert views[..i] == views;
    assert AllAfter(views, 0) == views;
  }

  /** `AudioMasterMixerRefill`: interleaved unsigned bytes of the clamped sums, which never leave 32 bits. */
  method Refill(tracks: seq<Track>, destination: array<Octet>, ghost views: seq<View>) returns (count: nat)
    requires Playable(tracks) && Show(tracks, views) && forall i :: 0 <= i < |tracks| ==> tracks[i].ring != destination
    modifies tracks, destination
    ensures count == destination.Length && Playable(tracks) && Show(tracks, AllAfter(views, count / 2))
    ensures forall f :: 0 <= f < count / 2 ==> Bounded(Solo(views, f), TRACK_COUNT)
    ensures forall f :: 0 <= f < count / 2 ==>
      destination[2 * f] == MixedByte(Solo(views, f).left) && destination[2 * f + 1] == MixedByte(Solo(views, f).right)
    ensures destination.Length % 2 == 1 ==> destination[destination.Length - 1] == old(destination[..])[destination.Length - 1]
  {
    hide MixedByte, After, Solo, Sum, AllAfter, Bounded, Show, Playable, Track.Valid, Track.Shown;
    var f := 0;
    OneMoreAfter(views, 0);
    while f < destination.Length / 2
      invariant f <= destination.Length / 2 && Playable(tracks) && Show(tracks, AllAfter(views, f))
      invariant forall k :: 0 <= k < f ==> Bounded(Solo(views, k), TRACK_COUNT)
      invariant forall k :: 0 <= k < f ==>
        destination[2 * k] == MixedByte(Solo(views, k).left) && destination[2 * k + 1] == MixedByte(Solo(views, k).right)
      invariant forall p :: 2 * f <= p < destination.Length ==> destination[p] == old(destination[p])
    {
      var sum := MixFrame(tracks, AllAfter(views, f));
      MixIsSuperposition(views, f);
      OneMoreAfter(views, f);
      destination[2 * f] := MixedByte(sum.left);
      destination[2 * f + 1] := MixedByte(sum.right);
      f := f + 1;
    }
    count := destination.Length;
  }

  lemma OneMoreAfter(views: seq<View>, f: nat)
    ensures AllAfter(views, 0) == views && AllAfter(AllAfter(views, f), 1) == AllAfter(views, f + 1)
  {
    hide After;
    assert AllAfter(AllAfter(views, f), 0) == AllAfter(views, f);
  }
}
