/** Colour to frequency: a pixel's channel sum, folded into the band that
    starts at `freq1` and is `freq2` wide. */
module Frequency {
  import opened Primitives

  /** A sampled pixel: red, green and blue, alpha already dropped. */
  type Pixel = (U8, U8, U8)

  /** The channels are widened to `u32` before they are added, so the sum
      never leaves 0..765 and cannot overflow. */
  function ChannelSum(r: U8, g: U8, b: U8): (total: U32)
    ensures total == r + g + b
    ensures total <= 3 * (U8_LIMIT - 1)
  {
    r + g + b
  }

  /** `color_to_frequency`: `freq1 + total % freq2`. A zero `freq2` is the
      remainder-by-zero panic; the final addition wraps in `u32`. */
  function ColorToFrequency(r: U8, g: U8, b: U8, freq1: U32, freq2: U32): (res: Result<U32>)
    ensures res.Err? <==> freq2 == 0
    ensures res.Err? ==> res.error == DivisionByZero
    // in every case the value is the offset added to freq1 modulo 2^32
    ensures res.Ok? ==> res.value == (freq1 + ChannelSum(r, g, b) % freq2) % U32_LIMIT
    // when the band fits in u32 the result lies in [freq1, freq1 + freq2 - 1]
    // and its offset from freq1 is the channel sum reduced modulo freq2
    ensures res.Ok? && freq1 + freq2 <= U32_LIMIT ==>
              freq1 <= res.value < freq1 + freq2 &&
              res.value - freq1 == ChannelSum(r, g, b) % freq2
    // otherwise the offset may carry out of u32 and land below the base
    ensures res.Ok? && U32_LIMIT <= freq1 + ChannelSum(r, g, b) % freq2 ==>
              res.value < freq1
  {
    if freq2 == 0 then
      Err(DivisionByZero)
    else
      Ok(WrappingAddU32(freq1, ChannelSum(r, g, b) % freq2))
  }

  /** The frequency of a pixel, once `freq2` is known to be non-zero. */
  function PixelFrequency(p: Pixel, freq1: U32, freq2: U32): U32
    requires freq2 != 0
  {
    ColorToFrequency(p.0, p.1, p.2, freq1, freq2).value
  }

  /** An independent description of the result when the band fits: it is
      the one value of the band congruent to `freq1 + r + g + b` modulo
      `freq2`. */
  lemma FrequencyIsUniqueInBand(r: U8, g: U8, b: U8, freq1: U32, freq2: U32, f: int)
    requires 0 < freq2 && freq1 + freq2 <= U32_LIMIT
    ensures ColorToFrequency(r, g, b, freq1, freq2) == Ok(f) <==>
              (freq1 <= f < freq1 + freq2 &&
               (f - freq1) % freq2 == ChannelSum(r, g, b) % freq2)
  {
    var s := ChannelSum(r, g, b);
    SmallRemainder(s % freq2, freq2);
    if freq1 <= f < freq1 + freq2 {
      SmallRemainder(f - freq1, freq2);
    }
  }

  /** A pixel of (10, 10, 10) with a band of 50 Hz above 200 Hz sounds at 230 Hz. */
  lemma GreyPixelExample()
    ensures ColorToFrequency(10, 10, 10, 200, 50) == Ok(230)
  {
  }
}
