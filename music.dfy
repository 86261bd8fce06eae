/** Song composition: one tone per pixel, appended in pixel order.

    The random duration choice is injected: `draws(i)` is the number the
    random source yields for the `i`-th pixel, and the chosen duration is
    the candidate at that number reduced modulo the number of candidates. */
module Music {
  import opened Primitives
  import opened Frequency
  import opened SineWave

  /** The random source, one draw per pixel. */
  type RandomSource = nat -> nat

  /** The arguments `generate_music` hands unchanged to every pixel: the
      frequency band, the candidate durations, and (folded into `timing`
      and `osc`) the sample rate and the two fade fractions. */
  datatype Settings = Settings(
    freq1: U32,
    freq2: U32,
    durations: seq<U32>,
    timing: Timing,
    osc: Oscillator)

  /** `durations.choose(rng)`: nothing from an empty slice, otherwise one
      of the candidates. */
  function Choose(durations: seq<U32>, draw: nat): (d: Option<U32>)
    ensures d.None? <==> |durations| == 0
    ensures d.Some? ==> d.value in durations
  {
    if |durations| == 0 then None else Some(durations[draw % |durations|])
  }

  /** Every candidate is reachable: the draw `k` picks candidate `k`. */
  lemma EveryDurationCanBeChosen(durations: seq<U32>, k: nat)
    requires k < |durations|
    ensures Choose(durations, k) == Some(durations[k])
  {
    SmallRemainder(k, |durations|);
  }

  /** The duration chosen for pixel `i`. */
  function ChosenDuration(s: Settings, draws: RandomSource, i: nat): U32
    requires |s.durations| > 0
  {
    Choose(s.durations, draws(i)).value
  }

  /** The tone of pixel `i`: its frequency, for its chosen duration. */
  function PixelTone(pixels: seq<Pixel>, s: Settings, draws: RandomSource, i: nat): seq<real>
    requires i < |pixels| && s.freq2 != 0 && |s.durations| > 0
  {
    Tone(PixelFrequency(pixels[i], s.freq1, s.freq2), s.timing(ChosenDuration(s, draws, i)), s.osc)
  }

  /** The tones of all pixels, in pixel order. */
  function Tones(pixels: seq<Pixel>, s: Settings, draws: RandomSource): (tones: seq<seq<real>>)
    requires s.freq2 != 0 && |s.durations| > 0
    ensures |tones| == |pixels|
  {
    seq(|pixels|, i requires 0 <= i < |pixels| => PixelTone(pixels, s, draws, i))
  }

  /** The samples of a list of tones, one after the other. */
  function Concat(tones: seq<seq<real>>): seq<real>
  {
    if tones == [] then [] else Concat(tones[..|tones| - 1]) + tones[|tones| - 1]
  }

  /** Where the tone of pixel `i` starts: the sample counts of all earlier
      pixels' tones added up. It depends only on the durations drawn. */
  function Offset(s: Settings, draws: RandomSource, i: nat): nat
    requires |s.durations| > 0
  {
    if i == 0 then 0
    else Offset(s, draws, i - 1) + s.timing(ChosenDuration(s, draws, i - 1)).numSamples
  }

  /** What `generate_music` returns. With no pixels the song is empty and
      nothing can fail; otherwise the first pixel meets a zero `freq2`
      (before any duration is drawn) or an empty candidate list, or every
      pixel contributes its tone. */
  function Song(pixels: seq<Pixel>, s: Settings, draws: RandomSource): (song: Result<seq<real>>)
    ensures song.Err? <==> |pixels| > 0 && (s.freq2 == 0 || |s.durations| == 0)
    ensures song.Err? ==> song.error == (if s.freq2 == 0 then DivisionByZero else EmptyDurations)
    ensures |pixels| == 0 ==> song == Ok([])
  {
    if |pixels| == 0 then Ok([])
    else if s.freq2 == 0 then Err(DivisionByZero)
    else if |s.durations| == 0 then Err(EmptyDurations)
    else Ok(Concat(Tones(pixels, s, draws)))
  }

  /** `generate_music`: a loop that extends the song by one tone per pixel. */
  method GenerateMusic(pixels: seq<Pixel>, s: Settings, draws: RandomSource)
    returns (song: Result<seq<real>>)
    ensures song == Song(pixels, s, draws)
  {
    var buffer: seq<real> := [];
    for i := 0 to |pixels|
      invariant i > 0 ==> s.freq2 != 0 && |s.durations| > 0
      invariant i == 0 ==> buffer == []
      invariant i > 0 ==> buffer == Concat(Tones(pixels, s, draws)[..i])
    {
      var (r, g, b) := pixels[i];
      var freq := ColorToFrequency(r, g, b, s.freq1, s.freq2);
      if freq.Err? {
        return Err(freq.error);
      }
      var duration := Choose(s.durations, draws(i));
      if duration.None? {
        return Err(EmptyDurations);
      }
      var tone := GenerateSineWave(freq.value, duration.value, s.timing, s.osc);
      ghost var tones := Tones(pixels, s, draws);
      assert tones[..i + 1][..i] == tones[..i];
      buffer := buffer + tone;
    }
    if |pixels| > 0 {
      assert Tones(pixels, s, draws)[..|pixels|] == Tones(pixels, s, draws);
    }
    return Ok(buffer);
  }

  /** Concatenation distributes over appending lists of tones. */
  lemma {:induction false} ConcatAppend(a: seq<seq<real>>, b: seq<seq<real>>)
    ensures Concat(a + b) == Concat(a) + Concat(b)
    decreases |b|
  {
    if b != [] {
      var b' := b[..|b| - 1];
      ConcatAppend(a, b');
      assert (a + b)[..|a + b| - 1] == a + b';
    } else {
      assert a + b == a;
    }
  }

  /** The first `k` tones together are `Offset(k)` samples long. */
  lemma {:induction false} PrefixLength(pixels: seq<Pixel>, s: Settings, draws: RandomSource, k: nat)
    requires s.freq2 != 0 && |s.durations| > 0 && k <= |pixels|
    ensures |Concat(Tones(pixels, s, draws)[..k])| == Offset(s, draws, k)
  {
    if k > 0 {
      var tones := Tones(pixels, s, draws);
      PrefixLength(pixels, s, draws, k - 1);
      assert tones[..k][..k - 1] == tones[..k - 1];
    }
  }

  /** The song is as long as the sample counts of all chosen durations
      added up. */
  lemma SongLength(pixels: seq<Pixel>, s: Settings, draws: RandomSource)
    requires Song(pixels, s, draws).Ok?
    ensures |Song(pixels, s, draws).value| == if |pixels| == 0 then 0 else Offset(s, draws, |pixels|)
  {
    if |pixels| > 0 {
      var tones := Tones(pixels, s, draws);
      PrefixLength(pixels, s, draws, |pixels|);
      assert tones[..|pixels|] == tones;
    }
  }

  /** Pixel `i`'s tone occupies the samples from `Offset(i)` up to
      `Offset(i + 1)`, so tones appear in pixel order, each exactly once. */
  lemma SongLayout(pixels: seq<Pixel>, s: Settings, draws: RandomSource, i: nat)
    requires Song(pixels, s, draws).Ok? && i < |pixels|
    ensures Offset(s, draws, i + 1) <= |Song(pixels, s, draws).value|
    ensures Song(pixels, s, draws).value[Offset(s, draws, i) .. Offset(s, draws, i + 1)]
            == Tone(PixelFrequency(pixels[i], s.freq1, s.freq2), s.timing(ChosenDuration(s, draws, i)), s.osc)
  {
    var tones := Tones(pixels, s, draws);
    assert tones == tones[..i] + [tones[i]] + tones[i + 1..];
    ConcatAppend(tones[..i] + [tones[i]], tones[i + 1..]);
    ConcatAppend(tones[..i], [tones[i]]);
    assert [tones[i]][..0] == [];
    PrefixLength(pixels, s, draws, i);
    var song := Concat(tones);
    assert song == Concat(tones[..i]) + tones[i] + Concat(tones[i + 1..]);
  }

  /** Every sample of the song lies in [-1, 1] when the sine does. */
  lemma SongIsBounded(pixels: seq<Pixel>, s: Settings, draws: RandomSource)
    requires Song(pixels, s, draws).Ok?
    requires forall f: U32, t: nat :: -1.0 <= s.osc(f, t) <= 1.0
    ensures forall k :: 0 <= k < |Song(pixels, s, draws).value| ==>
              -1.0 <= Song(pixels, s, draws).value[k] <= 1.0
  {
    if |pixels| > 0 {
      var tones := Tones(pixels, s, draws);
      forall i | 0 <= i < |tones|
        ensures forall k :: 0 <= k < |tones[i]| ==> -1.0 <= tones[i][k] <= 1.0
      {
        ToneIsBounded(PixelFrequency(pixels[i], s.freq1, s.freq2),
                      s.timing(ChosenDuration(s, draws, i)), s.osc);
      }
      ConcatIsBounded(tones);
    }
  }

  lemma {:induction false} ConcatIsBounded(tones: seq<seq<real>>)
    requires forall i, k :: 0 <= i < |tones| && 0 <= k < |tones[i]| ==> -1.0 <= tones[i][k] <= 1.0
    ensures forall k :: 0 <= k < |Concat(tones)| ==> -1.0 <= Concat(tones)[k] <= 1.0
  {
    if tones != [] {
      ConcatIsBounded(tones[..|tones| - 1]);
    }
  }

  /** A single pixel (10, 10, 10) in the band of 50 Hz above 200 Hz: the
      song is exactly one 230 Hz tone of the chosen duration. */
  lemma SinglePixelExample(timing: Timing, osc: Oscillator, durations: seq<U32>, draws: RandomSource)
    requires |durations| > 0
    ensures Song([(10, 10, 10)], Settings(200, 50, durations, timing, osc), draws)
            == Ok(Tone(230, timing(Choose(durations, draws(0)).value), osc))
  {
    var s := Settings(200, 50, durations, timing, osc);
    GreyPixelExample();
    var tones := Tones([(10, 10, 10)], s, draws);
    assert tones[..0] == [];
    assert tones[0] == Tone(230, timing(Choose(durations, draws(0)).value), osc);
    assert Concat(tones) == tones[0];
  }
}
