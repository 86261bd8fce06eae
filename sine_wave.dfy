/** One tone: `num_samples` sine samples shaped by a linear fade-in and
    fade-out envelope.

    The floating-point parts of the source are abstracted: the three sample
    counts, which the source derives from the duration, the sample rate
    and the fade fractions through `f32` casts and rounding, arrive as a
    `ToneShape`, and the sine itself is an `Oscillator`. The envelope factor
    is computed exactly, as a `real`. */
module SineWave {
  import opened Primitives

  /** The three counts computed at the head of `generate_sine_wave`. */
  datatype ToneShape = ToneShape(numSamples: USize, fadeInSamples: USize, fadeOutSamples: USize)

  /** For the song's fixed sample rate and fade fractions, the shape of a
      tone that lasts the given number of milliseconds. */
  type Timing = U32 -> ToneShape

  /** `osc(freq, t)` is the raw sine value `sin(2 pi freq t / sample_rate)`
      for sample `t` of a tone at `freq` Hz. */
  type Oscillator = (U32, nat) -> real

  /** Which of the three branches of the envelope sample `t` takes. */
  datatype Phase = FadeIn | FadeOut | Sustain

  /** The branch order of the source: fade-in is checked first, then
      fade-out against `num_samples - fade_out_samples` computed in
      `usize` (which wraps when the fade-out is longer than the tone). */
  function PhaseAt(t: nat, shape: ToneShape): Phase
  {
    if t < shape.fadeInSamples then FadeIn
    else if t >= WrappingSubUSize(shape.numSamples, shape.fadeOutSamples) then FadeOut
    else Sustain
  }

  /** The amplitude factor of sample `t`. Neither division can meet a zero
      denominator: the fade-in branch needs `t < fade_in_samples`, and the
      fade-out branch with `t < num_samples` needs a positive
      `fade_out_samples` no larger than `num_samples`. */
  function Envelope(t: nat, shape: ToneShape): (a: real)
    requires t < shape.numSamples
    ensures 0.0 <= a <= 1.0
    // the factor is zero only on the very first sample of a fade-in
    ensures a == 0.0 <==> t == 0 && 0 < shape.fadeInSamples
    // the factor is below one only inside one of the two fades
    ensures a < 1.0 ==>
              t < shape.fadeInSamples ||
              (shape.fadeOutSamples <= shape.numSamples &&
               shape.numSamples - shape.fadeOutSamples < t)
  {
    match PhaseAt(t, shape)
    case FadeIn =>
      UnitQuotient(t as real, shape.fadeInSamples as real);
      t as real / shape.fadeInSamples as real
    case FadeOut =>
      UnitQuotient((shape.numSamples - t) as real, shape.fadeOutSamples as real);
      (shape.numSamples - t) as real / shape.fadeOutSamples as real
    case Sustain => 1.0
  }

  /** The tone the source returns: sample `t` is the envelope factor of `t`
      times the raw sine value of `t`, for every `t` below `num_samples`. */
  function Tone(freq: U32, shape: ToneShape, osc: Oscillator): seq<real>
  {
    seq(shape.numSamples, t requires 0 <= t < shape.numSamples => Envelope(t, shape) * osc(freq, t))
  }

  /** `generate_sine_wave`: one push per loop index, in increasing order. */
  method GenerateSineWave(freq: U32, duration: U32, timing: Timing, osc: Oscillator)
    returns (samples: seq<real>)
    ensures samples == Tone(freq, timing(duration), osc)
    ensures |samples| == timing(duration).numSamples
  {
    var shape := timing(duration);
    samples := [];
    for t := 0 to shape.numSamples
      invariant |samples| == t
      invariant forall k :: 0 <= k < t ==> samples[k] == Envelope(k, shape) * osc(freq, k)
    {
      var amplitude := Envelope(t, shape);
      var sample := amplitude * osc(freq, t);
      samples := samples + [sample];
    }
    var tone := Tone(freq, shape, osc);
    assert |samples| == |tone|;
    assert forall k :: 0 <= k < |samples| ==> samples[k] == tone[k];
  }

  /** Fade-in: the factor rises as `t / fade_in_samples` and stays below one. */
  lemma FadeInRamp(t: nat, shape: ToneShape)
    requires t < shape.numSamples && t < shape.fadeInSamples
    ensures Envelope(t, shape) == t as real / shape.fadeInSamples as real
    ensures Envelope(t, shape) < 1.0
  {
    var d := shape.fadeInSamples as real;
    QuotientIsMonotonic(t as real, d, d);
    assert d / d == 1.0;
  }

  /** Fade-out: past the fade-in, from `num_samples - fade_out_samples` on
      the factor falls as `(num_samples - t) / fade_out_samples` and stays
      above zero. */
  lemma FadeOutRamp(t: nat, shape: ToneShape)
    requires shape.fadeInSamples <= t < shape.numSamples
    requires shape.fadeOutSamples <= shape.numSamples
    requires shape.numSamples - shape.fadeOutSamples <= t
    ensures Envelope(t, shape) == (shape.numSamples - t) as real / shape.fadeOutSamples as real
    ensures 0.0 < Envelope(t, shape)
  {
  }

  /** Between the fades the factor is exactly one. */
  lemma SustainIsFlat(t: nat, shape: ToneShape)
    requires shape.fadeInSamples <= t
    requires shape.fadeOutSamples <= shape.numSamples
    requires t < shape.numSamples - shape.fadeOutSamples
    ensures Envelope(t, shape) == 1.0
  {
  }

  /** When the two fades overlap, the fade-in wins. */
  lemma FadeInTakesPrecedence(t: nat, shape: ToneShape)
    requires t < shape.numSamples && t < shape.fadeInSamples
    requires shape.fadeOutSamples <= shape.numSamples
    requires shape.numSamples - shape.fadeOutSamples <= t
    ensures PhaseAt(t, shape) == FadeIn
    ensures Envelope(t, shape) == t as real / shape.fadeInSamples as real
  {
  }

  /** A fade-out longer than the tone makes the `usize` subtraction wrap to
      a value above every index, so no sample fades out. */
  lemma OverlongFadeOutIsSkipped(t: nat, shape: ToneShape)
    requires shape.fadeInSamples <= t < shape.numSamples
    requires shape.numSamples < shape.fadeOutSamples
    ensures PhaseAt(t, shape) == Sustain
    ensures Envelope(t, shape) == 1.0
  {
  }

  /** The fade-in ramp strictly rises and the fade-out ramp strictly falls. */
  lemma RampsAreMonotonic(t: nat, u: nat, shape: ToneShape)
    requires t < u < shape.numSamples
    ensures u < shape.fadeInSamples ==> Envelope(t, shape) < Envelope(u, shape)
    ensures PhaseAt(t, shape) == FadeOut ==> Envelope(u, shape) < Envelope(t, shape)
  {
    if u < shape.fadeInSamples {
      QuotientIsMonotonic(t as real, u as real, shape.fadeInSamples as real);
    }
    if PhaseAt(t, shape) == FadeOut {
      assert PhaseAt(u, shape) == FadeOut;
      QuotientIsMonotonic((shape.numSamples - u) as real, (shape.numSamples - t) as real,
                          shape.fadeOutSamples as real);
    }
  }

  /** Every sample of a tone stays within [-1, 1] when the sine does. */
  lemma {:induction false} ToneIsBounded(freq: U32, shape: ToneShape, osc: Oscillator)
    requires forall t: nat :: -1.0 <= osc(freq, t) <= 1.0
    ensures forall t :: 0 <= t < |Tone(freq, shape, osc)| ==> -1.0 <= Tone(freq, shape, osc)[t] <= 1.0
  {
    forall t | 0 <= t < |Tone(freq, shape, osc)|
      ensures -1.0 <= Tone(freq, shape, osc)[t] <= 1.0
    {
      ScaledUnit(Envelope(t, shape), osc(freq, t));
    }
  }

  lemma QuotientIsMonotonic(x: real, y: real, d: real)
    requires x < y && 0.0 < d
    ensures x / d < y / d
  {
  }

  /** A ratio `x / d` with `0 <= x <= d` lies in [0, 1], is zero only
      for `x = 0` and is one only for `x = d`. */
  lemma UnitQuotient(x: real, d: real)
    requires 0.0 <= x <= d && 0.0 < d
    ensures 0.0 <= x / d <= 1.0
    ensures x / d == 0.0 <==> x == 0.0
    ensures x / d < 1.0 <==> x < d
  {
    assert d / d == 1.0;
    if x < d {
      QuotientIsMonotonic(x, d, d);
    }
    if 0.0 < x {
      QuotientIsMonotonic(0.0, x, d);
    }
  }

  lemma ScaledUnit(a: real, x: real)
    requires 0.0 <= a <= 1.0 && -1.0 <= x <= 1.0
    ensures -1.0 <= a * x <= 1.0
  {
    if x >= 0.0 {
      assert a * x <= 1.0 * x;
    } else {
      assert a * (-x) <= 1.0 * (-x);
    }
  }

  /** A one-second tone at 1000 samples per second with 10% fades: silent
      at the start, flat in the middle, one hundredth on the last sample. */
  lemma EnvelopeExample()
    ensures Envelope(0, ToneShape(1000, 100, 100)) == 0.0
    ensures Envelope(500, ToneShape(1000, 100, 100)) == 1.0
    ensures Envelope(999, ToneShape(1000, 100, 100)) == 0.01
  {
  }
}
