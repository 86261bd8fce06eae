# Pixel-to-tone pipeline, modelled in Dafny

This project models the core of a small Rust library, compiled to
WebAssembly, that turns an image into a song. The image is sampled on a
grid of pixels. Each pixel's red, green and blue channels are added up
and folded into a frequency band. A duration is picked at random from a
list of candidates. For that frequency and duration a sine tone is
synthesised, with a linear fade-in and fade-out envelope. The tones are
appended one after another, in pixel order, and the buffer is encoded as
a WAV file.

The model covers the integer and structural part of that pipeline:

- `primitives.dfy` (module `Primitives`): `u8`, `u32` and the 32-bit
  `usize` of wasm32. It also holds the release-build wrapping `+` and
  `-`, the error kinds, and `Option`/`Result`.
- `frequency.dfy` (module `Frequency`): `color_to_frequency`.
- `sine_wave.dfy` (module `SineWave`): the envelope of
  `generate_sine_wave` and its sample loop.
- `music.dfy` (module `Music`): the duration choice and the
  `generate_music` loop, with a whole-song specification `Song`.
- `entry.dfy` (module `Entry`): the case-insensitive format match, the
  argument forwarding of `generate_music_wasm`, and `process_image`.

Modelling decisions:

- Arithmetic follows the release build. The build notes at the end of
  `src/lib.rs` build with `--release`, where integer overflow wraps
  instead of panicking. So the `u32` addition in `color_to_frequency`
  wraps modulo 2^32. The `usize` subtraction `num_samples -
  fade_out_samples` also wraps modulo 2^32, because `usize` is 32 bits on
  wasm32.
- Four panics of the source are `Err` values: remainder by zero, `unwrap`
  on an empty `choose`, an unsupported tag, and an undecodable image.
  The error that comes first in the source is the one returned. Other
  ways the source can stop, such as running out of memory, are listed
  under "## Left out".
- The three sample counts of a tone come in as a `ToneShape` from a
  `Timing` function of the duration. In the source they are computed from
  the duration, the sample rate and the fade fractions through `f32`
  casts and rounding. The sine is an `Oscillator`, `osc(freq, t)`. The
  envelope factor is an exact `real`.
- The random source is a function `draws`. The duration for pixel `i` is
  candidate `draws(i) mod |durations|`, so a song is deterministic once
  `draws` is fixed.
- Entry point forwarding is modelled as written. `generate_music_wasm`
  passes its `height` as the sampler's width and its `width` as the
  sampler's height (`RequestFor`).

## Model

| member | source | states |
|---|---|---|
| `Frequency.ChannelSum` | src/lib.rs:18 | the sum is `r + g + b` exactly: the channels are widened before they are added, so it is at most 765 and never overflows `u32` |
| `Frequency.ColorToFrequency` | src/lib.rs:17-20 | fails exactly when `freq2` is zero (remainder by zero); otherwise the value is `freq1` plus the channel sum modulo `freq2`, taken modulo 2^32 as the release build's wrapping addition gives it; when `freq1 + freq2` fits in `u32` the result lies in `[freq1, freq1 + freq2 - 1]` and exceeds `freq1` by the channel sum modulo `freq2`; when the addition carries out of `u32` the result falls below `freq1` |
| `Frequency.FrequencyIsUniqueInBand` | src/lib.rs:17-20 | for a band that fits in `u32`, a value is the result if and only if it lies in the band and is congruent to `freq1 + r + g + b` modulo `freq2` |
| `Frequency.GreyPixelExample` | src/lib.rs:17-20 | pixel (10, 10, 10) with `freq1 = 200`, `freq2 = 50` maps to 230 Hz |
| `SineWave.Envelope` | src/lib.rs:42-48 | neither division can meet a zero denominator; the factor lies in [0, 1]; it is zero exactly on the first sample of a non-empty fade-in; it is below one only inside the fade-in or the fade-out |
| `SineWave.FadeInRamp` | src/lib.rs:42-43 | below `fade_in_samples` the factor is `t / fade_in_samples` and is below one |
| `SineWave.FadeOutRamp` | src/lib.rs:44-45 | past the fade-in, from `num_samples - fade_out_samples` on, the factor is `(num_samples - t) / fade_out_samples` and is above zero |
| `SineWave.SustainIsFlat` | src/lib.rs:46-47 | between the two fades the factor is exactly one |
| `SineWave.FadeInTakesPrecedence` | src/lib.rs:42-45 | where the fades overlap the fade-in branch is taken |
| `SineWave.OverlongFadeOutIsSkipped` | src/lib.rs:44 | a fade-out longer than the tone wraps the `usize` subtraction, so no sample fades out and the factor after the fade-in is one |
| `SineWave.RampsAreMonotonic` | src/lib.rs:42-45 | the fade-in factor strictly rises with `t` and the fade-out factor strictly falls |
| `SineWave.ToneIsBounded` | src/lib.rs:50 | every sample lies in [-1, 1] whenever the sine does |
| `SineWave.EnvelopeExample` | src/lib.rs:42-48 | with 1000 samples and fades of 100, the factor is 0 at t = 0, 1 at t = 500 and 0.01 at t = 999 |
| `SineWave.GenerateSineWave` | src/lib.rs:35-55 | the loop yields exactly `num_samples` samples, and sample `t` is the envelope factor of `t` times the sine at `t`, in increasing `t` (`Tone`) |
| `Music.Choose` | src/lib.rs:28 | an empty candidate list yields nothing; otherwise the duration is one of the candidates |
| `Music.EveryDurationCanBeChosen` | src/lib.rs:28 | every candidate is the choice for some draw |
| `Music.Song` | src/lib.rs:22-33 | no pixels give the empty song; otherwise the song fails exactly when `freq2` is zero (reported first) or the candidate list is empty |
| `Music.GenerateMusic` | src/lib.rs:22-33 | the loop returns `Song`: the tones of all pixels concatenated in pixel order, or the first pixel's error |
| `Music.SongLength` | src/lib.rs:25-32 | the song is as long as the sample counts of the chosen durations added up |
| `Music.SongLayout` | src/lib.rs:25-32 | pixel `i`'s tone, at that pixel's frequency and chosen duration, occupies the samples from the sum of the earlier tones' lengths onward |
| `Music.SongIsBounded` | src/lib.rs:29-30 | every sample of the song lies in [-1, 1] whenever the sine does |
| `Music.SinglePixelExample` | src/lib.rs:25-30 | one pixel (10, 10, 10) with `freq1 = 200`, `freq2 = 50` gives exactly one 230 Hz tone of the chosen duration |
| `Entry.ParseFormat` | src/lib.rs:87-92 | a rejected tag is reported as an unsupported format |
| `Entry.LowerCharMatches` | src/lib.rs:87 | lowering a character gives a lower-case letter exactly when the character is that letter or its ASCII upper-case form |
| `Entry.ParseFormatAccepts` | src/lib.rs:87-92 | the tag is accepted if and only if it spells png, jpg, jpeg, tif or tiff character by character, each character the letter or its upper-case form; jpg and jpeg give the same format, as do tif and tiff; every other tag is rejected |
| `Entry.ParseFormatIgnoresCase` | src/lib.rs:87 | two tags of equal length whose characters lower to the same letters select the same format; a tag and its lower-cased form select the same format |
| `Entry.ParseFormatExamples` | src/lib.rs:87-92 | "PNG", "Jpeg", "jpg" and "TIF" are accepted; "bmp" is rejected |
| `Entry.RequestFor` | src/lib.rs:86-94 | fails exactly when the tag is unsupported; otherwise the sampler gets the entry point's `height` as its width and its `width` as its height |
| `Entry.ProcessImage` | src/lib.rs:79-83 | an undecodable image fails; otherwise the result is the song of the decoded pixels |
| `Entry.GenerateMusicWasm` | src/lib.rs:86-95 | an unsupported tag fails before decoding; otherwise the image is sampled on the swapped grid and its pixels become the song |

## Left out

- `analyze_image` (src/lib.rs:9-15): decoding and nearest-neighbour
  resizing run in an image library that is not part of this model. They
  appear only as the `Decoder` function. The number of pixels is not
  tied to width times height, because the library's resize keeps the
  aspect ratio.
- `save_wav` (src/lib.rs:57-77): WAV container encoding and the
  truncating `f32` to `i16` cast are not modelled. The model ends with
  the sample buffer. The container's sample rate is fixed at 44100 Hz
  whatever `sample_rate` was used; the model does not capture this.
- The `f32` computation of `num_samples`, `fade_in_samples` and
  `fade_out_samples` (src/lib.rs:36-38) is not modelled. It enters as the
  `Timing` function, so no contract ties the sample count to duration
  times sample rate.
- The sine and its argument (src/lib.rs:50), and all `f32` rounding, are
  not modelled. The sine is the `Oscillator` parameter, and the envelope
  is exact real arithmetic.
- `rand::thread_rng` and the uniform distribution of `choose`
  (src/lib.rs:28) are not modelled. They are replaced by the `draws`
  function.
- `Entry.ToLower`: only `A` to `Z` are lowered. Rust's `to_lowercase` also
  lowers non-ASCII letters. Only two of them lower to ASCII letters: the
  Kelvin sign becomes `k`, and the capital I with dot becomes `i`
  followed by a combining dot. Neither can complete an accepted tag, so
  the set of accepted tags is the same.
- Allocation limits are not modelled. `Vec::with_capacity(num_samples)`
  (src/lib.rs:39) panics with a capacity overflow once `num_samples`
  reaches 2^29 on wasm32, and a failed allocation there or in
  `song.extend` (src/lib.rs:30) aborts. `SineWave.GenerateSineWave` and
  `Music.GenerateMusic` return a full buffer for every sample count.
- Debug-build behaviour is not modelled: there, the `u32` addition and
  the `usize` subtraction panic on overflow instead of wrapping.
- `wasm_bindgen` export mechanics and panic unwinding are not modelled.
