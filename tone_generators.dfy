/**
 * src/tone_generators.rs: `SquareWaveGenerator`, which renders a square wave of a given
 * frequency and duration as PCM frames. Times and sample positions are exact reals here; the
 * rounding that accumulates in the floating-point `pos_seconds` is not modelled.
 */
module ToneGenerators {
  import opened Wrappers
  import opened Errors
  import opened Pcm
  import opened Sequencer

  /** Rust's `%` on floats for a non-negative dividend and a positive divisor: `x` less a whole multiple of `p`, below `p`. */
  function FMod(x: real, p: real): (r: real)
    requires x >= 0.0 && p > 0.0
    ensures 0.0 <= r < p
    ensures r <= x && ((x - r) / p).Floor as real == (x - r) / p
    ensures x < p ==> r == x
  {
    var n := (x / p).Floor;
    var r := x - n as real * p;
    RemainderFacts(x, p, n, r);
    r
  }

  /** `r = x - floor(x / p) * p` is in `[0, p)`, not above `x`, and `x - r` is a whole multiple of `p`. */
  lemma RemainderFacts(x: real, p: real, n: int, r: real)
    requires x >= 0.0 && p > 0.0
    requires n == (x / p).Floor && r == x - n as real * p
    ensures 0.0 <= r < p
    ensures r <= x && ((x - r) / p).Floor as real == (x - r) / p
    ensures x < p ==> r == x
  {
    FloorMultiple(x, p);
    WholeMultiple(n as real, p);
    MulMonotone(0.0, n as real, p);
    assert x - r == n as real * p;
    assert (x - r) / p == n as real;
  }

  lemma WholeMultiple(q: real, p: real)
    requires p > 0.0
    ensures (q * p) / p == q
  {
  }

  /** The largest multiple of `p` not above `x` is `floor(x / p) * p`; it is 0 when `x < p`. */
  lemma FloorMultiple(x: real, p: real)
    requires x >= 0.0 && p > 0.0
    ensures (x / p).Floor as real * p <= x < (x / p).Floor as real * p + p
    ensures x < p ==> (x / p).Floor == 0
  {
    var q := (x / p).Floor;
    assert q as real <= x / p < q as real + 1.0;
    assert x / p * p == x;
    MulMonotone(q as real, x / p, p);
    MulMonotone(x / p, q as real + 1.0, p);
    assert (q as real + 1.0) * p == q as real * p + p;
    assert x / p * p < (q as real + 1.0) * p;
    assert x < q as real * p + p;
    assert q as real * p <= x;
    if x < p {
      MulMonotone(x / p, 1.0, p);
    }
  }

  lemma MulMonotone(a: real, b: real, p: real)
    requires a <= b && p > 0.0
    ensures a * p <= b * p
    ensures a < b ==> a * p < b * p
  {
  }

  /** The number of frames: the least `n >= 0` with `n >= sampleRate * duration`. */
  function FrameCount(sampleRate: nat, duration: real): (n: nat)
    ensures n as real >= sampleRate as real * duration
    ensures n == 0 || (n - 1) as real < sampleRate as real * duration
  {
    var nbSamples := sampleRate as real * duration;
    if nbSamples <= 0.0 then 0
    else if nbSamples.Floor as real == nbSamples then nbSamples.Floor
    else nbSamples.Floor + 1
  }

  /**
   * Whether frame `k` is at +1.0: its time `k / sampleRate` taken modulo the note period
   * `1 / frequency` is at most half that period. A zero frequency has an infinite period, so
   * every frame is high; a negative one has a negative period, below any remainder, so every
   * frame is low.
   */
  function HighAt(k: nat, sampleRate: nat, frequency: real): (high: bool)
    requires sampleRate > 0
    ensures frequency > 0.0 && k as real / sampleRate as real < 0.5 / frequency ==> high
    ensures frequency == 0.0 ==> high
    ensures frequency < 0.0 ==> !high
  {
    if frequency > 0.0 then
      var notePeriod := 1.0 / frequency;
      assert 0.5 / frequency == notePeriod / 2.0;
      FMod(k as real / sampleRate as real, notePeriod) <= notePeriod / 2.0
    else
      frequency == 0.0
  }

  /** The frame's samples: `nbChannels` copies of one level, as each branch's channel loop pushes them. */
  method ChannelSamples(level: real, nbChannels: nat) returns (samples: seq<Sample>)
    ensures |samples| == nbChannels
    ensures forall c :: 0 <= c < nbChannels ==> samples[c] == Float(level)
  {
    samples := [];
    for c := 0 to nbChannels
      invariant |samples| == c
      invariant forall j :: 0 <= j < c ==> samples[j] == Float(level)
    {
      samples := samples + [Float(level)];
    }
  }

  /** The frame the generator emits at position `k`. */
  predicate SquareFrame(frame: Frame, k: nat, parameters: PCMParameters, frequency: real)
    requires parameters.sampleRate > 0
  {
    && |frame.samples| == parameters.nbChannels
    && forall c :: 0 <= c < parameters.nbChannels ==>
         frame.samples[c] == Float(if HighAt(k, parameters.sampleRate, frequency) then 1.0 else -1.0)
  }

  /**
   * `SquareWaveGenerator::key_gen`: for float samples, one frame per sample period while the
   * sample position is below `sampleRate * duration`, every channel of a frame at +1.0 or
   * -1.0 as `HighAt` says; any other sample type is not implemented.
   */
  method SquareWaveKeyGen(frequency: real, parameters: PCMParameters, duration: real) returns (r: Result<Key, Panic>)
    ensures r.Ok? <==> parameters.sampleType.Float?
    ensures r.Err? ==> r.error == Unimplemented
    ensures r.Ok? ==> r.value.frequency == frequency
    ensures r.Ok? ==> r.value.audio.parameters == parameters && r.value.audio.loopInfo == None
    ensures r.Ok? ==> |r.value.audio.frames| == FrameCount(parameters.sampleRate, duration)
    ensures r.Ok? && parameters.sampleRate > 0 ==>
      forall k :: 0 <= k < |r.value.audio.frames| ==> SquareFrame(r.value.audio.frames[k], k, parameters, frequency)
  {
    if !parameters.sampleType.Float? {
      return Err(Unimplemented);
    }
    var sampleRate := parameters.sampleRate as real;
    var nbSamples := sampleRate * duration;
    var count := FrameCount(parameters.sampleRate, duration);
    var frames: seq<Frame> := [];
    var posSample := 0.0;
    var posSeconds := 0.0;
    while posSample < nbSamples
      invariant posSample == |frames| as real && |frames| <= count
      invariant parameters.sampleRate > 0 ==> posSeconds == |frames| as real / sampleRate
      invariant parameters.sampleRate > 0 ==>
        forall k :: 0 <= k < |frames| ==> SquareFrame(frames[k], k, parameters, frequency)
      decreases count - |frames|
    {
      // nbSamples > 0 here, so the sample rate is not zero
      assert parameters.sampleRate > 0;
      var frame := SquareFrameAt(|frames|, posSeconds, parameters, frequency);
      SecondsStep(|frames|, sampleRate);
      posSample := posSample + 1.0;
      posSeconds := posSeconds + 1.0 / sampleRate;
      frames := frames + [frame];
    }
    return Ok(Key(PCM(parameters, None, frames), frequency));
  }

  /** The body of the frame loop: the level at `posSeconds`, the frame's time, copied to every channel. */
  method SquareFrameAt(k: nat, posSeconds: real, parameters: PCMParameters, frequency: real) returns (frame: Frame)
    requires parameters.sampleRate > 0 && posSeconds == k as real / parameters.sampleRate as real
    ensures SquareFrame(frame, k, parameters, frequency)
  {
    var high: bool;
    if frequency > 0.0 {
      var notePeriod := 1.0 / frequency;
      high := FMod(posSeconds, notePeriod) <= notePeriod / 2.0;
    } else {
      // 1/0 is an infinite period, which every remainder is below; a negative period's half is below 0
      high := frequency == 0.0;
    }
    assert high == HighAt(k, parameters.sampleRate, frequency);
    var samples;
    if high {
      samples := ChannelSamples(1.0, parameters.nbChannels);
    } else {
      samples := ChannelSamples(-1.0, parameters.nbChannels);
    }
    frame := Frame(samples);
  }

  lemma SecondsStep(n: nat, rate: real)
    requires rate > 0.0
    ensures n as real / rate + 1.0 / rate == (n + 1) as real / rate
  {
  }

  /** The wave starts high: for a non-negative frequency the first frame is at +1.0. */
  lemma SquareWaveStartsHigh(sampleRate: nat, frequency: real)
    requires sampleRate > 0 && frequency >= 0.0
    ensures HighAt(0, sampleRate, frequency)
  {
  }

  /** The first half period is high: every frame before `sampleRate / (2 * frequency)` is at +1.0. */
  lemma FirstHalfPeriodHigh(k: nat, sampleRate: nat, frequency: real)
    requires sampleRate > 0 && frequency > 0.0
    requires (k as real) * 2.0 * frequency < sampleRate as real
    ensures HighAt(k, sampleRate, frequency)
  {
    var rate := sampleRate as real;
    var t := k as real / rate;
    assert t * rate == k as real;
    var u := t * 2.0 * frequency;
    assert u * rate == (k as real) * 2.0 * frequency;
    assert u * rate < rate;
    BelowOneWhenScaled(u, rate);
    BelowOneWhenScaled(t / (0.5 / frequency), 0.5 / frequency);
  }

  lemma BelowOneWhenScaled(u: real, s: real)
    requires s > 0.0 && u * s < s
    ensures u < 1.0
  {
    if u >= 1.0 {
      MulMonotone(1.0, u, s);
      assert false;
    }
  }
}
