# Image compressor model

A Dafny model of the `ImageCompressor` of a small image-compression web
service. The compressor takes an uploaded raster image and re-encodes it smaller:
- it flattens an RGBA image onto white and converts it to RGB;
- when a side exceeds a maximum side length, it scales both sides by a
  common ratio, rounds each, and bumps an odd result up to even. The
  result can still exceed the bound by one pixel when the bound is odd. An
  image over the bound can also come back at its own size, and then it is
  not resampled;
- it saves the image with per-format encoder options: JPEG with the
  configured quality, progressive scans and 4:4:4 chroma; PNG optimised at
  compression level 6; other formats with encoder defaults;
- it returns the format name in lower case.

Modules:

- `Wrappers`: `Option` and `Result`.
- `Rounding`: Python's `round` on a number. It is half-to-even on exact reals,
  and it is proved equal to an independent "nearest integer, ties to even"
  definition.
- `AsciiCase`: `str.lower` on ASCII letters.
- `Dimensions`: `calculate_new_dimensions` as a pure function, with lemmas about
  the identity branch, evenness, rounding bounds, the limiting side and worked
  examples.
- `Compressor`: the option table, the format fallback and the class
  `ImageCompressor`. Its fields are `quality`, `maxSize` and `formatOptions`, and
  its methods build the save options and run the steps of `compress_image`.

Decoding, compositing, resampling and encoding belong to the imaging library.
The model treats them as abstract steps that change only an image's width,
height, mode and format:
- opening the upload is a parameter, where `None` means the bytes could not be
  opened;
- flattening yields an RGB image of the same size with no format;
- resampling yields an image of the requested size, in the same mode, with no
  format. The library refuses a requested side below 1.

The result of a compression is what the encoder is asked to do (the image, the
format name and the options) plus the returned tag. The encoded bytes are not
modelled.

Where the code and the service's written design disagree, the model follows the
code:
- The design says the output always keeps the source container, so an RGBA PNG
  would come back as a PNG. The code reads the format after flattening and
  resizing have replaced the image, so such images are saved as JPEG (see
  Findings).
- The design recommends validating `quality` and the maximum size. The code
  does not, and neither does the model: any integers are accepted.
- The design's finer error taxonomy does not exist in the code. The model has
  three failures: an input that cannot be opened, the division by zero in the
  dimension policy, and a resize to a side below 1. The other failures the
  library can raise are listed under "Left out".

## Model

| member | source | states |
|---|---|---|
| `Rounding.RoundHalfEven` | backend/app.py:41-42 | Python's `round` on an exact value: the result is the floor or the floor plus one, within one half of the value |
| `Rounding.RoundHalfEvenIsNearest` | backend/app.py:41-42 | Python's `round` as modelled gives an integer no farther from the value than any other integer, and an exact tie goes to the even neighbour |
| `Rounding.NearestTiesEvenIsUnique` | backend/app.py:41-42 | any integer meeting the nearest/ties-to-even definition is the one `round` returns, so the definition and the computation agree |
| `Rounding.RoundHalfEvenMonotone` | backend/app.py:41-42 | rounding preserves order |
| `AsciiCase.LowerChar` | backend/app.py:88 | an upper-case ASCII letter becomes its lower-case partner (code point + 32), and any other character is kept |
| `AsciiCase.Lower` | backend/app.py:88 | the tag has the name's length and no upper-case letter. Each upper-case letter becomes its lower-case partner, and every other character is kept |
| `AsciiCase.LowerIsIdempotent` | backend/app.py:88 | lower-casing a tag again changes nothing |
| `AsciiCase.LowerOfFormatNames` | backend/app.py:88 | "JPEG" is tagged "jpeg" and "PNG" is tagged "png" |
| `Dimensions.Min` | backend/app.py:40 | `min` returns one of its arguments, and that argument is no larger than either |
| `Dimensions.Ratio` | backend/app.py:40 | the ratio is the smaller of `max/width` and `max/height`, is one of them, and is positive for a positive bound |
| `Dimensions.ScaleSide` | backend/app.py:41-46 | a scaled side is even and is the rounded product `round(side*ratio)` or one more |
| `Dimensions.MakeEven` | backend/app.py:45-46 | `n + n % 2` is even, is `n` or `n + 1`, and is `n` when `n` is already even |
| `Dimensions.CalculateNewDimensions` | backend/app.py:36-48 | within the bound the size is returned unchanged (no upscaling). Outside it, both sides are even. It fails (division by zero) exactly when the size is outside the bound and a side is 0 |
| `Dimensions.ScaledSidesBracketRounding` | backend/app.py:40-46 | in the scaling branch each side `d` satisfies `round(side*ratio) <= d <= round(side*ratio) + 1` with `ratio = min(max/width, max/height)` |
| `Dimensions.ScaledSidesNearExact` | backend/app.py:40-46 | in the scaling branch each side is within 3/2 of the exact proportional length `side*ratio` |
| `Dimensions.LimitingSideHitsBound` | backend/app.py:40-46 | with a positive bound, the longer side (both for a square) becomes `max + max % 2`, so an odd bound is exceeded by one |
| `Dimensions.ScaledSidesWithinEvenBound` | backend/app.py:40-46 | with a positive bound both scaled sides lie in `0 .. max + max % 2` |
| `Dimensions.ScaledSidesGrowAtMostOne` | backend/app.py:40-46 | with a positive bound no side grows by more than one pixel, and a side grows only when it is odd |
| `Dimensions.ExampleHalving` | backend/app.py:36-48 | 7680x4320 with bound 3840 gives 3840x2160 |
| `Dimensions.ExampleOddSideMadeEven` | backend/app.py:36-48 | 4001x2001 with bound 2000 gives 2000x1000 |
| `Dimensions.ExampleNoUpscale` | backend/app.py:36-38 | 100x100 with bound 3840 is returned unchanged |
| `Dimensions.ExampleFourByThree` | backend/app.py:36-48 | 4000x3000 with bound 3840 gives 3840x2880 |
| `Dimensions.ExampleOddBoundExceeded` | backend/app.py:36-48 | 3001x1000 with bound 2999 gives 3000x1000, one above the bound |
| `Dimensions.ExampleShortSideGrows` | backend/app.py:36-48 | 10000x3 with bound 9999 gives 10000x4: the short side grows by one |
| `Dimensions.ExampleOutOfBoundKeepsSize` | backend/app.py:36-48 | 4x2 with bound 3 gives 4x2 again, so no resize follows even though the image exceeds the bound |
| `Dimensions.ExampleShortSideVanishes` | backend/app.py:36-48 | 10000x1 with bound 100 gives 100x0 |
| `Dimensions.ExampleZeroSide` | backend/app.py:40 | 0x5000 with bound 3840 divides by zero |
| `Compressor.DefaultFormatOptions` | backend/app.py:24-34 | the table has entries for PNG and JPEG only. No entry carries a quality, and JPEG's subsampling is 4:4:4 |
| `Compressor.FlattenAlpha` | backend/app.py:58-61 | compositing onto white and converting keeps the size and gives an RGB image with no format. The pixel blending itself is not modelled |
| `Compressor.Resized` | backend/app.py:69-70 | resampling gives the requested size, keeps the mode and drops the format. The Lanczos filter itself is not modelled |
| `Compressor.OnlyJpegHasQuality` | backend/app.py:74-79 | the options carry a quality exactly for JPEG, and it is the configured one |
| `Compressor.FormatName` | backend/app.py:73 | the format name is never empty. It is the image's own non-empty format name, or "JPEG" when the image has none |
| `Compressor.ImageCompressor.constructor` | backend/app.py:21-34 | the compressor holds the given quality and bound and the per-format option table |
| `Compressor.ImageCompressor.WithDefaults` | backend/app.py:21-34 | without arguments the quality is 95 and the bound 3840 |
| `Compressor.ImageCompressor.SaveOptionsFor` | backend/app.py:74-79 | copying the table entry (none: empty) and setting quality and subsampling for JPEG gives exactly: JPEG `{optimize, progressive, subsampling 4:4:4, quality}`; PNG `{optimize, compress_level 6}`; otherwise `{}`. The compressor is not modified |
| `Compressor.ImageCompressor.PrepareImage` | backend/app.py:53-70 | an unopenable input, a failing dimension policy, and a policy size that differs from the current size and has a side below 1 are errors. A size the policy leaves unchanged is never resized, so a 0x5 image is returned as it is. Otherwise the image has exactly the policy's size. Only RGBA becomes RGB, and other modes are kept. The image passes through untouched exactly when it is not RGBA and the policy keeps its size, and otherwise it has lost its format |
| `Compressor.ImageCompressor.CompressImage` | backend/app.py:50-88 | the fields are unchanged and the image is prepared as above. The format name is the prepared image's, or JPEG. The options are those of that format and the tag is its lower case. A flattened or resized image is saved and tagged as JPEG, and an untouched image keeps its source format name |
| `Compressor.ImageCompressor.CompressImageKeepingFormat` | backend/app.py:73 | corrected compression: the format name is taken from the image as opened, so the tag always matches the source format (JPEG when it has none) |
| `Compressor.RgbaPngSavedAsJpeg` | backend/app.py:56-88 | a 4000x3000 RGBA PNG with default settings is saved as a 3840x2880 RGB JPEG tagged "jpeg" |
| `Compressor.RgbaPngKeptAsPng` | backend/app.py:56-88 | with the corrected compression the same image is saved as PNG, with the PNG options, tagged "png" |

## Findings

| source | as written | input that shows it | evidently intended | confidence | as-written member | corrected member |
|---|---|---|---|---|---|---|
| backend/app.py:73 | the format name is read from `img` after the RGBA conversion and the resize have replaced it. Images derived by the imaging library carry no format, so the fallback picks JPEG | a 4000x3000 RGBA PNG with quality 95 and bound 3840 is saved as JPEG and tagged "jpeg" | the output keeps the source container: a PNG input comes back as "png" | medium, not executed; rests on the imaging library clearing the format of converted and resized images | `Compressor.RgbaPngSavedAsJpeg` | `Compressor.ImageCompressor.CompressImageKeepingFormat` |

## Left out

- Pixel work: decoding, alpha compositing onto white, Lanczos resampling and encoding belong to the imaging library. Only their effect on width, height, mode and format is modelled.
- Failures inside the imaging library are modelled only where stated: an unopenable input and a resize to a side below 1. Other library failures are not modelled, and the model returns `Success` where the code raises:
  - lazy decoding errors;
  - an encoder refusing a mode, for instance a palette or LA image that lost its format and is written as JPEG;
  - a format the library can read but cannot write, which reaches `img.save(format=...)` at backend/app.py:82 and raises there.
- Floating point: `max_size / width` and `width * ratio` are computed on exact reals. Python's floats may round differently from exact values at ties and near-ties, so a float result can differ from the model's by one before the even bump.
- AsciiCase.Lower: covers ASCII letters only, while Python's `str.lower` also lower-cases non-ASCII letters; format names are ASCII.
- The web layer is not part of this model: routing, cross-origin headers, upload and form parsing (including the `int(...)` conversions of quality and maximum size), streaming the result, JSON error bodies, the health route and the port setting.
- Logging and the in-memory output buffer are not modelled; they carry no decisions.
- The catch-log-and-re-raise around the compression is represented only by returning a `Failure`.
- Python default arguments of the constructor are modelled as a second constructor, `WithDefaults`.
