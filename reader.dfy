/** The reader: configured once at construction, then asked to scan GDI+
    bitmaps. Each scan binarizes the bitmap under a read lock, tries the
    permitted orientations and renders the kept result for the caller. */
module Reader {
  import opened BarcodeTypes
  import opened Hints
  import opened Luminance
  import opened GdiBitmap
  import opened Rotations

  /** The library functions the reader calls, none of which is part of this
      model: the symbology-name parser, the construction of a luminance
      source and its hybrid binarizer (which may raise), the multi-format
      engine's `read` under given hints, the binary bitmap's rotation by an
      angle in degrees, the symbology-to-name renderer and the
      wide-string-to-UTF-8 transcoder. */
  datatype Library = Library(
    parse: string -> BarcodeFormat,
    build: LuminanceSource -> Result<BinaryBitmap>,
    read: (DecodeHints, BinaryBitmap) -> DecodeResult,
    rotate: (BinaryBitmap, nat) -> BinaryBitmap,
    formatName: BarcodeFormat -> string,
    toUtf8: WideString -> Utf8)

  /** The engine, configured with `hints`, applied to `image` turned by each
      orientation; the upright attempt reads `image` itself. */
  function EngineOn(lib: Library, hints: DecodeHints, image: BinaryBitmap): Decoder {
    rot => lib.read(hints, if rot == Rotation0 then image else lib.rotate(image, rot.Degrees()))
  }

  /** Renders a decode result for the caller: a valid one as its symbology
      name and its text in UTF-8, any other as the empty scan result. */
  function Project(result: DecodeResult, lib: Library): ScanResult {
    if result.IsValid() then ScanResult(lib.formatName(result.format), lib.toUtf8(result.text))
    else EmptyScanResult
  }

  /** What a scan of a bitmap with the given pixel format and locked data
      returns: the adapter's error, the error raised while building the
      binarized image, or the rendered result of the rotation attempts on
      that image. */
  function ScanOutcome(format: PixelFormat, data: BitmapData, rotations: int, hints: DecodeHints, lib: Library): Result<ScanResult> {
    match CreateLuminanceSource(format, data)
    case Err(e) => Err(e)
    case Ok(source) =>
      match lib.build(source)
      case Err(e) => Err(e)
      case Ok(image) => Ok(Project(Outcome(rotations, EngineOn(lib, hints, image)), lib))
  }

  /** The decode calls a scan makes: none when the binarized image could not
      be built, the rotation attempts on it otherwise. */
  function ScanAttempts(format: PixelFormat, data: BitmapData, rotations: int, hints: DecodeHints, lib: Library): seq<Rotation> {
    match CreateLuminanceSource(format, data)
    case Err(_) => []
    case Ok(source) =>
      match lib.build(source)
      case Err(_) => []
      case Ok(image) => Attempts(rotations, EngineOn(lib, hints, image))
  }

  class BarcodeReader {
    const hints: DecodeHints
    const lib: Library

    /** Builds the engine's hints from the three options, once for the
        reader's lifetime. */
    constructor (tryHarder: bool, tryRotate: bool, format: string, lib: Library)
      ensures hints == MakeHints(tryHarder, tryRotate, format, lib.parse) && this.lib == lib
    {
      hints := MakeHints(tryHarder, tryRotate, format, lib.parse);
      this.lib := lib;
    }

    /** Scans `bitmap` trying the orientations whose flags are set in
        `rotations`. The bitmap is locked and unlocked exactly once whether or
        not the binarized image can be built; a failure to build it raises
        before any decode call; otherwise `calls` are the decode calls made,
        in order. */
    method Scan(bitmap: Bitmap, rotations: int) returns (r: Result<ScanResult>, ghost calls: seq<Rotation>)
      requires bitmap.Valid()
      modifies bitmap
      ensures bitmap.Valid()
      ensures bitmap.lockCount == old(bitmap.lockCount)
      ensures bitmap.log == old(bitmap.log) + [Locked(bitmap.pixelFormat), Unlocked]
      ensures r == ScanOutcome(bitmap.pixelFormat, bitmap.Data(bitmap.pixelFormat), rotations, hints, lib)
      ensures calls == ScanAttempts(bitmap.pixelFormat, bitmap.Data(bitmap.pixelFormat), rotations, hints, lib)
    {
      var binImg := CreateBinaryBitmap(bitmap, lib.build);
      match binImg {
        case Err(e) =>
          r, calls := Err(e), [];
        case Ok(image) =>
          var result;
          result, calls := TryRotations(rotations, EngineOn(lib, hints, image));
          r := Ok(Project(result, lib));
      }
    }

    /** The reader keeps no state between scans: scanning the same bitmap
        twice with the same mask gives the same answer and leaves the lock as
        it was. */
    method ScanTwice(bitmap: Bitmap, rotations: int) returns (first: Result<ScanResult>, second: Result<ScanResult>)
      requires bitmap.Valid()
      modifies bitmap
      ensures bitmap.Valid() && bitmap.lockCount == old(bitmap.lockCount)
      ensures first == second
    {
      ghost var calls;
      first, calls := Scan(bitmap, rotations);
      second, calls := Scan(bitmap, rotations);
    }
  }

  /** A bitmap whose pixel format is not one of the three supported ones
      makes every scan raise "Unsupported format", whatever the mask, the
      hints or the engine. */
  lemma UnsupportedFormatRaises(format: PixelFormat, data: BitmapData, rotations: int, hints: DecodeHints, lib: Library)
    requires !IsSupported(format)
    ensures ScanOutcome(format, data, rotations, hints, lib) == Err(UnsupportedFormat)
  {
  }

  /** For a supported format a scan raises only what building the binarized
      image raises. Once that image is built, the scan reports the symbology
      name and UTF-8 text of the first orientation, in the order 0, 180, 90,
      270 degrees, that is enabled and decodes validly; when there is none it
      reports the empty result. */
  lemma {:induction false} ScanReportsFirstValid(format: PixelFormat, data: BitmapData, rotations: int, hints: DecodeHints, lib: Library)
    requires IsSupported(format)
    ensures var r := ScanOutcome(format, data, rotations, hints, lib);
      var built := lib.build(CreateLuminanceSource(format, data).value);
      (built.Err? ==> r == Err(built.error)) &&
      (built.Ok? ==>
        var decode := EngineOn(lib, hints, built.value);
        r.Ok? &&
        ((forall p :: 0 <= p < |Order| && Enabled(rotations, Order[p]) ==> !decode(Order[p]).IsValid())
           ==> r.value == EmptyScanResult) &&
        (forall p :: 0 <= p < |Order| && Enabled(rotations, Order[p]) && decode(Order[p]).IsValid() &&
           NoValidBetween(rotations, decode, 0, p)
           ==> r.value == ScanResult(lib.formatName(decode(Order[p]).format), lib.toUtf8(decode(Order[p]).text))))
  {
    var built := lib.build(CreateLuminanceSource(format, data).value);
    if built.Ok? {
      var decode := EngineOn(lib, hints, built.value);
      OutcomeIsFirstValid(rotations, decode);
      forall p | 0 <= p < |Order| && Enabled(rotations, Order[p]) && decode(Order[p]).IsValid() &&
           NoValidBetween(rotations, decode, 0, p)
        ensures Outcome(rotations, decode) == decode(Order[p])
      {
        var p' :| 0 <= p' < |Order| && Enabled(rotations, Order[p']) &&
          Outcome(rotations, decode) == decode(Order[p']) && NoValidBetween(rotations, decode, 0, p');
        // Neither of p and p' can come before the other, so they are equal.
      }
    }
  }

  /** With a zero mask a supported bitmap whose binarized image can be built
      scans to the empty result, and no decode call is made. */
  lemma ZeroMaskFindsNothing(format: PixelFormat, data: BitmapData, hints: DecodeHints, lib: Library)
    requires IsSupported(format)
    ensures lib.build(CreateLuminanceSource(format, data).value).Ok? ==>
      ScanOutcome(format, data, 0, hints, lib) == Ok(EmptyScanResult)
    ensures ScanAttempts(format, data, 0, hints, lib) == []
  {
    var built := lib.build(CreateLuminanceSource(format, data).value);
    if built.Ok? {
      NoFlagsNoAttempts(0, EngineOn(lib, hints, built.value));
    }
  }
}
