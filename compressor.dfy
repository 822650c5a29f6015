/**
 * The `ImageCompressor` of the upload service: colour normalisation, the
 * resize decision and the choice of encoder options.  Pixel work (decoding,
 * alpha compositing, Lanczos resampling, encoding) is done by the imaging
 * library and is abstracted to its effect on the image's size, mode and
 * format; the result of a compression is the image handed to the encoder,
 * the format and options it is saved with, and the returned format tag.
 */
module Compressor {
  import opened Wrappers
  import opened AsciiCase
  import opened Dimensions

  /** A value in an encoder option dictionary. */
  datatype OptionValue = Flag(flag: bool) | Number(number: int) | Text(text: string)

  /** Keyword arguments passed to the encoder. */
  type SaveOptions = map<string, OptionValue>

  /**
   * A decoded image as far as the compressor looks at it.  `format` is the
   * container the image was read from; images derived by the imaging
   * library's conversion, compositing and resizing carry no format.
   */
  datatype Image = Image(width: nat, height: nat, mode: string, format: Option<string>)

  /** What the encoder is asked to do, and the tag returned to the caller. */
  datatype Compressed = Compressed(image: Image, formatName: string, options: SaveOptions, tag: string)

  datatype CompressError =
    | Undecodable     // the input bytes are not an image the library can open
    | BadDimensions(cause: DimensionError)  // the dimension policy raised
    | ResizeRejected  // the library refuses a target size with a side below 1

  const DefaultQuality := 95
  const DefaultMaxSize := 3840

  /** The per-format option table the compressor is built with. */
  function DefaultFormatOptions(): (table: map<string, SaveOptions>)
    ensures table.Keys == {"PNG", "JPEG"}
    ensures forall f :: f in table ==> "quality" !in table[f]
    ensures "JPEG" in table && "subsampling" in table["JPEG"] && table["JPEG"]["subsampling"] == Text("4:4:4")
  {
    map[
      "PNG" := map["optimize" := Flag(true), "compress_level" := Number(6)],
      "JPEG" := map["optimize" := Flag(true), "progressive" := Flag(true), "subsampling" := Text("4:4:4")]
    ]
  }

  /**
   * Reference definition of the options a format is saved with: JPEG gets
   * the configured quality and full chroma resolution, PNG a lossless
   * optimisation at compression level 6, anything else the encoder defaults.
   */
  function EncoderOptions(formatName: string, quality: int): (options: SaveOptions)
  {
    if formatName == "JPEG" then
      map["optimize" := Flag(true), "progressive" := Flag(true), "subsampling" := Text("4:4:4"), "quality" := Number(quality)]
    else if formatName == "PNG" then
      map["optimize" := Flag(true), "compress_level" := Number(6)]
    else
      map[]
  }

  /** Only JPEG is given a quality setting. */
  lemma OnlyJpegHasQuality(formatName: string, quality: int)
    ensures "quality" in EncoderOptions(formatName, quality) <==> formatName == "JPEG"
    ensures formatName == "JPEG" ==> EncoderOptions(formatName, quality)["quality"] == Number(quality)
  {
  }

  /**
   * `img.format or 'JPEG'`: the image's own format name, unless it has none
   * (or an empty one), in which case JPEG.
   */
  function FormatName(format: Option<string>): (name: string)
    ensures name != ""
    ensures name == "JPEG" || format == Some(name)
    ensures format.Some? && format.value != "" ==> name == format.value
  {
    if format.Some? && format.value != "" then format.value else "JPEG"
  }

  /** Compositing onto opaque white and converting gives an RGB image of the same size with no format. */
  function FlattenAlpha(img: Image): (flat: Image)
    ensures flat.width == img.width && flat.height == img.height
    ensures flat.mode == "RGB" && flat.format == None
  {
    Image(img.width, img.height, "RGB", None)
  }

  /** A resampled copy: new size, same mode, no format. */
  function Resized(img: Image, width: nat, height: nat): (out: Image)
    ensures out.width == width && out.height == height
    ensures out.mode == img.mode && out.format == None
  {
    Image(width, height, img.mode, None)
  }

  class ImageCompressor {
    var quality: int
    var maxSize: int
    var formatOptions: map<string, SaveOptions>

    /** The option table is the one the constructor builds. */
    ghost predicate Valid()
      reads this
    {
      formatOptions == DefaultFormatOptions()
    }

    constructor (quality: int, maxSize: int)
      ensures Valid()
      ensures this.quality == quality && this.maxSize == maxSize
    {
      this.quality := quality;
      this.maxSize := maxSize;
      this.formatOptions := DefaultFormatOptions();
    }

    /** The compressor with the service's default settings. */
    constructor WithDefaults()
      ensures Valid()
      ensures quality == DefaultQuality && maxSize == DefaultMaxSize
    {
      quality := DefaultQuality;
      maxSize := DefaultMaxSize;
      formatOptions := DefaultFormatOptions();
    }

    /**
     * The options for `formatName`: a copy of the table's entry (empty when
     * there is none), with quality and subsampling set for JPEG.  Only the
     * copy is changed; the method may not modify the compressor.
     */
    method SaveOptionsFor(formatName: string) returns (options: SaveOptions)
      requires Valid()
      ensures options == EncoderOptions(formatName, quality)
    {
      options := if formatName in formatOptions then formatOptions[formatName] else map[];
      if formatName == "JPEG" {
        options := options["quality" := Number(quality)];
        options := options["subsampling" := Text("4:4:4")];
      }
    }

    /**
     * The image-changing steps of a compression: open, flatten an RGBA
     * image, and resample when the dimension policy asks for another size.
     */
    method PrepareImage(decoded: Option<Image>) returns (r: Result<Image, CompressError>)
      ensures PreparedFrom(decoded, maxSize, r)
    {
      if decoded.None? {
        return Failure(Undecodable);
      }
      var img := decoded.value;
      if img.mode == "RGBA" {
        img := FlattenAlpha(img);
      }
      var width, height := img.width, img.height;
      var dims := CalculateNewDimensions(width, height, maxSize);
      if dims.Failure? {
        return Failure(BadDimensions(dims.error));
      }
      var newWidth, newHeight := dims.value.width, dims.value.height;
      if newWidth != width || newHeight != height {
        if newWidth < 1 || newHeight < 1 {
          return Failure(ResizeRejected);
        }
        img := Resized(img, newWidth, newHeight);
      }
      return Success(img);
    }

    /**
     * `compress_image`: prepare the image, then save it in the format read
     * from the prepared image (JPEG when it has none) and return that
     * format's name in lower case.  A flattened or resampled image has lost
     * its format, so it is always saved as JPEG.
     */
    method CompressImage(decoded: Option<Image>) returns (r: Result<Compressed, CompressError>)
      requires Valid()
      ensures unchanged(this)
      ensures PreparedFrom(decoded, maxSize, ImageOf(r))
      ensures r.Success? ==>
                && r.value.formatName == FormatName(r.value.image.format)
                && r.value.options == EncoderOptions(r.value.formatName, quality)
                && r.value.tag == Lower(r.value.formatName)
      ensures r.Success? && decoded.Some? && Changed(decoded.value, r.value.image) ==>
                r.value.formatName == "JPEG" && r.value.tag == "jpeg"
      ensures r.Success? && decoded.Some? && !Changed(decoded.value, r.value.image) ==>
                r.value.formatName == FormatName(decoded.value.format)
    {
      var prepared := PrepareImage(decoded);
      if prepared.Failure? {
        return Failure(prepared.error);
      }
      var img := prepared.value;
      var formatName := FormatName(img.format);
      var options := SaveOptionsFor(formatName);
      LowerOfFormatNames();
      return Success(Compressed(img, formatName, options, Lower(formatName)));
    }

    /**
     * Compression that keeps the source container: the format name is read
     * from the image as opened, before flattening or resampling.
     */
    method CompressImageKeepingFormat(decoded: Option<Image>) returns (r: Result<Compressed, CompressError>)
      requires Valid()
      ensures unchanged(this)
      ensures PreparedFrom(decoded, maxSize, ImageOf(r))
      ensures r.Success? ==>
                && decoded.Some?
                && r.value.formatName == FormatName(decoded.value.format)
                && r.value.options == EncoderOptions(r.value.formatName, quality)
                && r.value.tag == Lower(r.value.formatName)
    {
      if decoded.None? {
        return Failure(Undecodable);
      }
      var formatName := FormatName(decoded.value.format);
      var prepared := PrepareImage(decoded);
      if prepared.Failure? {
        return Failure(prepared.error);
      }
      var options := SaveOptionsFor(formatName);
      return Success(Compressed(prepared.value, formatName, options, Lower(formatName)));
    }
  }

  /**
   * What opening, flattening and resampling make of `decoded` under the
   * bound `maxSize`: an error when the input is not an image, when the
   * dimension policy fails or when it asks for a side below 1; otherwise an
   * image of exactly the policy's size, in RGB when the source was RGBA and
   * in the source's mode otherwise, which is the source itself when neither
   * step applied and has lost its format when either did.
   */
  ghost predicate PreparedFrom(decoded: Option<Image>, maxSize: int, r: Result<Image, CompressError>)
  {
    match decoded
    case None => r == Failure(Undecodable)
    case Some(src) =>
      var dims := CalculateNewDimensions(src.width, src.height, maxSize);
      if dims.Failure? then
        r == Failure(BadDimensions(dims.error))
      else if dims.value != Size(src.width, src.height) && (dims.value.width < 1 || dims.value.height < 1) then
        r == Failure(ResizeRejected)
      else
        && r.Success?
        && Size(r.value.width, r.value.height) == dims.value
        && r.value.mode == (if src.mode == "RGBA" then "RGB" else src.mode)
        && (Changed(src, r.value) <==> r.value != src)
        && (Changed(src, r.value) ==> r.value.format == None)
  }

  /** The image was flattened or resampled on its way from `src` to `out`. */
  predicate Changed(src: Image, out: Image)
  {
    src.mode == "RGBA" || out.width != src.width || out.height != src.height
  }

  function ImageOf(r: Result<Compressed, CompressError>): Result<Image, CompressError>
  {
    match r
    case Success(c) => Success(c.image)
    case Failure(e) => Failure(e)
  }

  /** A large RGBA PNG, compressed with the default settings, comes back as a JPEG. */
  method RgbaPngSavedAsJpeg() returns (r: Result<Compressed, CompressError>)
    ensures r.Success?
    ensures r.value.image == Image(3840, 2880, "RGB", None)
    ensures r.value.formatName == "JPEG" && r.value.tag == "jpeg"
  {
    var compressor := new ImageCompressor.WithDefaults();
    ExampleFourByThree();
    r := compressor.CompressImage(Some(Image(4000, 3000, "RGBA", Some("PNG"))));
  }

  /** The same image, with the format read before conversion, stays a PNG. */
  method RgbaPngKeptAsPng() returns (r: Result<Compressed, CompressError>)
    ensures r.Success?
    ensures r.value.image == Image(3840, 2880, "RGB", None)
    ensures r.value.formatName == "PNG" && r.value.tag == "png"
    ensures r.value.options == map["optimize" := Flag(true), "compress_level" := Number(6)]
  {
    var compressor := new ImageCompressor.WithDefaults();
    ExampleFourByThree();
    LowerOfFormatNames();
    r := compressor.CompressImageKeepingFormat(Some(Image(4000, 3000, "RGBA", Some("PNG"))));
  }
}
