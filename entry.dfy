/** The exported entry point: the format tag is matched without regard to
    case, the image is decoded and sampled, and the pixels become a song.

    Decoding and resizing are done by an image library whose code is not
    part of this model: `decode` stands for it, applied to the fixed image
    bytes of the call. Encoding the song as a WAV container is left out, so
    the model ends with the sample buffer that would be encoded. */
module Entry {
  import opened Primitives
  import opened Frequency
  import opened SineWave
  import opened Music

  datatype ImageFormat = Png | Jpeg | Tiff

  /** What the sampler is asked for: the format, then the width and the
      height of the grid it resizes the image to. */
  datatype SamplerRequest = SamplerRequest(format: ImageFormat, width: U32, height: U32)

  /** Decoding and resizing: the pixels in row-major order, or nothing when
      the bytes do not decode. */
  type Decoder = SamplerRequest -> Option<seq<Pixel>>

  /** Lower-casing as far as the tags are concerned: `A` to `Z` become `a`
      to `z`, every other character is kept. */
  function LowerChar(c: char): (l: char)
    ensures 'A' <= c <= 'Z' ==> l as int == c as int + 32
    ensures !('A' <= c <= 'Z') ==> l == c
  {
    if 'A' <= c <= 'Z' then (c as int + 32) as char else c
  }

  function ToLower(s: string): (l: string)
    ensures |l| == |s|
  {
    seq(|s|, i requires 0 <= i < |s| => LowerChar(s[i]))
  }

  /** The match on the lower-cased tag. */
  function ParseFormat(tag: string): (r: Result<ImageFormat>)
    ensures r.Err? ==> r.error == UnsupportedFormat
  {
    var t := ToLower(tag);
    if t == "png" then Ok(Png)
    else if t == "jpg" || t == "jpeg" then Ok(Jpeg)
    else if t == "tif" || t == "tiff" then Ok(Tiff)
    else Err(UnsupportedFormat)
  }

  /** `c` is the lower-case letter `l` or its upper-case form, which in
      ASCII lies 32 code points below it. */
  predicate CaseOf(c: char, l: char)
  {
    c == l || c as int + 32 == l as int
  }

  /** `tag` spells `name`, letter by letter, in either case. */
  predicate SpellsIgnoringCase(tag: string, name: string)
  {
    |tag| == |name| && forall i :: 0 <= i < |tag| ==> CaseOf(tag[i], name[i])
  }

  /** Lowering a character gives the lower-case letter `l` exactly when the
      character is `l` in one of its two cases. */
  lemma LowerCharMatches(c: char, l: char)
    requires 'a' <= l <= 'z'
    ensures LowerChar(c) == l <==> CaseOf(c, l)
  {
  }

  /** For a name of lower-case letters, spelling it in either case is the
      same as lowering to it. */
  lemma SpellsIffLowerEquals(tag: string, name: string)
    requires forall i :: 0 <= i < |name| ==> 'a' <= name[i] <= 'z'
    ensures SpellsIgnoringCase(tag, name) <==> ToLower(tag) == name
  {
    if |tag| == |name| {
      forall i | 0 <= i < |tag|
        ensures LowerChar(tag[i]) == name[i] <==> CaseOf(tag[i], name[i])
      {
        LowerCharMatches(tag[i], name[i]);
      }
      if SpellsIgnoringCase(tag, name) {
        assert forall i :: 0 <= i < |tag| ==> ToLower(tag)[i] == name[i];
      }
    }
  }

  /** The formats accepted, each by every spelling of its names in any
      mix of upper and lower case, and nothing else. */
  lemma ParseFormatAccepts(tag: string)
    ensures ParseFormat(tag) == Ok(Png) <==> SpellsIgnoringCase(tag, "png")
    ensures ParseFormat(tag) == Ok(Jpeg) <==>
              SpellsIgnoringCase(tag, "jpg") || SpellsIgnoringCase(tag, "jpeg")
    ensures ParseFormat(tag) == Ok(Tiff) <==>
              SpellsIgnoringCase(tag, "tif") || SpellsIgnoringCase(tag, "tiff")
    ensures ParseFormat(tag).Err? <==>
              !SpellsIgnoringCase(tag, "png") &&
              !SpellsIgnoringCase(tag, "jpg") && !SpellsIgnoringCase(tag, "jpeg") &&
              !SpellsIgnoringCase(tag, "tif") && !SpellsIgnoringCase(tag, "tiff")
  {
    SpellsIffLowerEquals(tag, "png");
    SpellsIffLowerEquals(tag, "jpg");
    SpellsIffLowerEquals(tag, "jpeg");
    SpellsIffLowerEquals(tag, "tif");
    SpellsIffLowerEquals(tag, "tiff");
  }

  /** Two tags of the same length whose characters lower to the same
      letters select the same format; in particular a tag and its
      lower-cased form do. */
  lemma ParseFormatIgnoresCase(tag: string, other: string)
    requires |tag| == |other|
    requires forall i :: 0 <= i < |tag| ==> LowerChar(tag[i]) == LowerChar(other[i])
    ensures ParseFormat(tag) == ParseFormat(other)
    ensures ParseFormat(ToLower(tag)) == ParseFormat(tag)
  {
    assert ToLower(tag) == ToLower(other);
    assert ToLower(ToLower(tag)) == ToLower(tag);
  }

  lemma ParseFormatExamples()
    ensures ParseFormat("PNG") == Ok(Png)
    ensures ParseFormat("Jpeg") == Ok(Jpeg) && ParseFormat("jpg") == Ok(Jpeg)
    ensures ParseFormat("TIF") == Ok(Tiff)
    ensures ParseFormat("bmp") == Err(UnsupportedFormat)
  {
    assert ToLower("PNG") == "png";
    assert ToLower("Jpeg") == "jpeg";
    assert ToLower("jpg") == "jpg";
    assert ToLower("TIF") == "tif";
    assert ToLower("bmp") == "bmp";
  }

  /** What the entry point asks the sampler for: the parsed format, and
      its own `height` as the sampler's width and its own `width` as the
      sampler's height. */
  function RequestFor(tag: string, width: U32, height: U32): (r: Result<SamplerRequest>)
    ensures r.Ok? <==> ParseFormat(tag).Ok?
    ensures r.Err? ==> r.error == UnsupportedFormat
    ensures r.Ok? ==> r.value.format == ParseFormat(tag).value
    ensures r.Ok? ==> r.value.width == height && r.value.height == width
  {
    match ParseFormat(tag)
    case Ok(format) => Ok(SamplerRequest(format, height, width))
    case Err(e) => Err(e)
  }

  /** `process_image`: sample the image, then compose the song. */
  method ProcessImage(request: SamplerRequest, decode: Decoder, s: Settings, draws: RandomSource)
    returns (song: Result<seq<real>>)
    ensures decode(request).None? ==> song == Err(DecodeFailure)
    ensures decode(request).Some? ==> song == Song(decode(request).value, s, draws)
  {
    var pixels := decode(request);
    if pixels.None? {
      return Err(DecodeFailure);
    }
    song := GenerateMusic(pixels.value, s, draws);
  }

  /** `generate_music_wasm`, up to the sample buffer: an unsupported tag
      fails before the image is looked at; otherwise the image is sampled
      on the swapped grid and composed. */
  method GenerateMusicWasm(
    decode: Decoder, tag: string, s: Settings, draws: RandomSource, width: U32, height: U32)
    returns (song: Result<seq<real>>)
    ensures ParseFormat(tag).Err? ==> song == Err(UnsupportedFormat)
    ensures ParseFormat(tag).Ok? ==>
              var request := SamplerRequest(ParseFormat(tag).value, height, width);
              song == (match decode(request)
                       case None => Err(DecodeFailure)
                       case Some(pixels) => Song(pixels, s, draws))
  {
    var request := RequestFor(tag, width, height);
    if request.Err? {
      return Err(request.error);
    }
    song := ProcessImage(request.value, decode, s, draws);
  }
}
