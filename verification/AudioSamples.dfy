/** What single samples of a track are, by the numbers: decoding, interpolation, volume and the mixed byte. */
module AudioSamples {
  import opened AudioTrack

  // ---- Decoding ----

  /** The number of the byte, counted within the frame, that a channel's sample starts at. */
  function ChannelAt(f: Format, right: bool): nat {
    if right && f.stereo then (if f.wide then 2 else 1) else 0
  }

  function Channel(frame: Frame, right: bool): int {
    if right then frame.right else frame.left
  }

  function Value(bytes: seq<Octet>, at: nat): int
    requires at < |bytes|
  {
    bytes[at]
  }

  /**
   Each channel comes from its own bytes: a byte sample is 256 times its distance from 128, a word sample is the little endian
   word as a signed number. A single channel is heard on both sides.
   */
  lemma DecodesChannels(f: Format, bytes: seq<Octet>, right: bool)
    requires |bytes| == FrameBytes(f)
    ensures ChannelAt(f, right) + (if f.wide then 2 else 1) <= |bytes|
    ensures var v, at := Channel(DecodeFrame(f, bytes), right), ChannelAt(f, right);
      && -32768 <= v <= 32767
      && (if f.wide then (v + 65536) % 65536 == Value(bytes, at) + 256 * Value(bytes, at + 1) else v == 256 * (Value(bytes, at) - 128))
  {
  }

  /** The bytes of a signed word, as the format stores them. */
  function WordBytes(v: int): seq<Octet> {
    var u := (v + 65536) % 65536;
    [u % 256, u / 256 % 256]
  }

  /** Decoding undoes encoding: 16-bit stereo frames come out as they went in. */
  lemma WordsDecodeBack(left: int, right: int)
    requires InRange(left) && InRange(right)
    ensures DecodeFrame(Format(true, true), WordBytes(left) + WordBytes(right)) == Frame(left, right)
  {
    WordDecodesBack(left);
    WordDecodesBack(right);
    var bytes := WordBytes(left) + WordBytes(right);
    assert bytes[0] == WordBytes(left)[0] && bytes[1] == WordBytes(left)[1];
    assert bytes[2] == WordBytes(right)[0] && bytes[3] == WordBytes(right)[1];
  }

  lemma WordDecodesBack(v: int)
    requires InRange(v)
    ensures Wide(WordBytes(v)[0], WordBytes(v)[1]) == v
  {
  }

  // ---- Resampling ----

  /** The step is the rate over 44100 in units of 1/65536, rounded down. */
  lemma StepIsRatio(rate: nat)
    ensures 44100 * Step(rate) <= rate * 65536 < 44100 * (Step(rate) + 1)
  {
  }

  /** Interpolation is linear, rounded down. */
  lemma InterpolatesLinearly(a: int, b: int, fraction: nat)
    ensures var d := Between(a, b, fraction) - a; 65536 * d <= (b - a) * fraction < 65536 * (d + 1)
  {
    FloorOf((b - a) * fraction);
  }

  lemma FloorOf(x: int)
    ensures 65536 * (x / 65536) <= x < 65536 * (x / 65536 + 1)
  {
  }

  // ---- Volume ----

  /** `out` is `volume` percent of `v`, rounded towards zero. */
  predicate IsPercentage(v: int, volume: nat, out: int) {
    && (v >= 0 ==> 100 * out <= v * volume < 100 * (out + 1))
    && (v < 0 ==> 100 * (out - 1) < v * volume <= 100 * out)
  }

  lemma ScaledIsPercentage(v: int, volume: nat)
    ensures IsPercentage(v, volume, Scaled(v, volume))
  {
    if v >= 0 {
      HundredthOf(v * volume);
    } else {
      HundredthOf((-v) * volume);
      assert v * volume == -((-v) * volume);
    }
  }

  lemma HundredthOf(x: int)
    ensures 100 * (x / 100) <= x < 100 * (x / 100 + 1)
  {
  }

  /** Muted or turned down to nothing a track is silent, below full volume it is that percentage of itself, else unchanged. */
  lemma VolumeApplies(s: Settings, frame: Frame)
    ensures var out := Attenuated(s, frame);
      && (s.muted || s.volume == 0 ==> out == Frame(0, 0))
      && (!s.muted && s.volume >= 100 ==> out == frame)
      && (!s.muted && 0 < s.volume < 100 ==> IsPercentage(frame.left, s.volume, out.left) && IsPercentage(frame.right, s.volume, out.right))
  {
    hide Scaled, IsPercentage;
    ScaledIsPercentage(frame.left, s.volume);
    ScaledIsPercentage(frame.right, s.volume);
  }

  // ---- The mixed byte ----

  /** A sum in range becomes the byte it lies in, 256 to a step and 128 in the middle; one out of range saturates. */
  lemma MixedByteExact(sum: int)
    ensures -32768 <= sum <= 32767 ==> 256 * (MixedByte(sum) - 128) <= sum < 256 * (MixedByte(sum) - 127)
    ensures sum < -32768 ==> MixedByte(sum) == 0
    ensures sum > 32767 ==> MixedByte(sum) == 255
  {
  }

  // ---- Tracks at the master rate, and tracks that play nothing ----

  predicate PlaysPlain(v: View) {
    v.settings.active && !v.settings.paused && v.settings.rate == 44100
  }

  lemma PlainStep(v: View)
    requires PlaysPlain(v) && Ready(v)
    ensures After(v) == v.(queue := v.queue[FrameBytes(v.settings.format)..])
    ensures Heard(v) == Attenuated(v.settings, DecodeFrame(v.settings.format, v.queue[..FrameBytes(v.settings.format)]))
  {
    hide DecodeFrame, Attenuated;
  }

  lemma LaterBytes(queue: seq<Octet>, k: nat, size: nat)
    requires (k + 1) * size <= |queue|
    ensures k * size + size == (k + 1) * size && k * size <= |queue|
    ensures queue[k * size..][size..] == queue[(k + 1) * size..]
    ensures queue[k * size..][..size] == queue[k * size..k * size + size]
  {
    assert k * size + size == (k + 1) * size;
  }

  lemma {:induction false} PlainQueue(v: View, k: nat)
    requires PlaysPlain(v) && HasFrames(v, k)
    ensures k * FrameBytes(v.settings.format) <= |v.queue|
    ensures Alone(v, k) == v.(queue := v.queue[k * FrameBytes(v.settings.format)..])
    decreases k
  {
    hide After, FrameBytes;
    var size := FrameBytes(v.settings.format);
    if k == 0 {
      assert k * size == 0;
      assert v.queue[k * size..] == v.queue;
    } else {
      FewerFrames(v, k - 1, k);
      LaterBytes(v.queue, k - 1, size);
      PlainQueue(v, k - 1);
      PlainStep(Alone(v, k - 1));
    }
  }

  /** At the master rate output `k` is frame `k`, and exactly the frames before it have left the queue. */
  lemma PlainFrames(v: View, k: nat)
    requires PlaysPlain(v) && HasFrames(v, k + 1)
    ensures k * FrameBytes(v.settings.format) <= |v.queue|
    ensures Alone(v, k) == v.(queue := v.queue[k * FrameBytes(v.settings.format)..])
    ensures Heard(Alone(v, k)) == Attenuated(v.settings, FrameNumber(v, k))
  {
    hide DecodeFrame, Attenuated, Heard, Alone, FrameBytes;
    FewerFrames(v, k, k + 1);
    PlainQueue(v, k);
    LaterBytes(v.queue, k, FrameBytes(v.settings.format));
    PlainStep(Alone(v, k));
  }

  /** A closed or paused track adds nothing and keeps its place. */
  lemma {:induction false} SilentTrackStays(v: View, k: nat)
    requires !v.settings.active || v.settings.paused
    ensures Alone(v, k) == v && Heard(Alone(v, k)) == Frame(0, 0)
  {
    if k > 0 { SilentTrackStays(v, k - 1); }
  }

  /** A track that has run dry adds nothing; a temporary one is closed then, another waits for more. */
  lemma DryTrack(v: View)
    requires v.settings.active && !v.settings.paused && v.queue == [] && (v.settings.rate == 44100 || !v.resampler.hasFrames)
    ensures Heard(v) == Frame(0, 0) && After(v).queue == []
    ensures After(v).settings == if v.settings.temporary then CLOSED else v.settings
    ensures !CLOSED.active
  {
  }
}
