# GDI+ barcode reader wrapper — a Dafny model

This project models the orchestration logic of zxing-cpp's GDI+ wrapper,
`BarcodeReader` (`wrappers/gdiplus/BarcodeReader.cpp`). A reader is built once
from three options: try harder, try rotate and an optional symbology name. It
then scans GDI+ bitmaps. Each scan does the following:

- it locks the bitmap's pixels for reading;
- it builds a luminance source for the pixel format (24-bit RGB, or 32-bit with
  or without alpha) and wraps it in a hybrid binarizer;
- it unlocks the pixels on the success path and on the error path alike;
- it asks the decode engine about the image turned 0, 180, 90 and 270 degrees,
  in that order, but only for the orientations enabled in the caller's mask,
  and stops at the first valid result;
- it returns that result as (symbology name, UTF-8 text), or the empty result.

Modules, one per component:

- `BarcodeTypes` (types.dfy): symbologies, decode status and result, scan
  result, errors.
- `Hints` (hints.dfy): the constructor's translation of options into decode
  hints.
- `Luminance` (luminance.dfy): GDI+ pixel-format codes and the format →
  channel-layout dispatch.
- `GdiBitmap` (bitmap.dfy): a `Bitmap` class holding the lock state, and
  `CreateBinaryBitmap`.
- `Rotations` (rotations.dfy): the rotation-retry policy. It is given as a
  specification (`Attempts`, `Outcome`), and the four guarded attempts
  (`TryRotations`) are proved against it.
- `Reader` (reader.dfy): the `BarcodeReader` class, `Scan`, and the lemmas
  about what a scan returns.

The library functions the wrapper calls are parameters of the model, bundled
in `Reader.Library`: the name parser, the construction of the luminance
source and its binarizer, the engine's `read`, the bitmap rotation, the
symbology-name renderer and the UTF-8 transcoder. The rotation
lemmas therefore hold for every possible engine.

## Model

| member | source | states |
|---|---|---|
| `Hints.MakeHints` | wrappers/gdiplus/BarcodeReader.cpp:32-42 | try-harder and try-rotate are copied unchanged. The format filter is exactly `{parse(format)}` when the name is non-empty and parses to something other than the `FormatCount` sentinel, and is left unset (empty) otherwise. The sentinel is never placed in the filter. |
| `Hints.FilterPermits` | wrappers/gdiplus/BarcodeReader.cpp:37-42 | the installed filter lets a symbology through exactly when the name is empty, is unrecognised, or parses to that symbology. An unknown name never narrows the search and is never an error. |
| `Reader.BarcodeReader.constructor` | wrappers/gdiplus/BarcodeReader.cpp:32-44 | the reader's hints are those `MakeHints` builds from the three options. They are fixed for the reader's lifetime. |
| `Luminance.CreateLuminanceSource` | wrappers/gdiplus/BarcodeReader.cpp:46-58 | succeeds exactly for 24bppRGB, 32bppARGB and 32bppRGB, and raises "Unsupported format" for every other code. On success, width, height, stride and base address pass through unchanged. Bytes per pixel times 8 equals the code's bits-per-pixel field. The red, green and blue offsets select the red, green and blue bytes of GDI+'s little-endian pixel layout. |
| `Luminance.AlphaIgnored` | wrappers/gdiplus/BarcodeReader.cpp:53-56 | 32bppARGB and 32bppRGB give the same source, and no selected offset is the alpha byte. The premultiplied 32-bit format is refused. |
| `GdiBitmap.Bitmap.LockBits` | wrappers/gdiplus/BarcodeReader.cpp:63-64 | takes one more lock, appends it to the lock history, and hands out the whole image's geometry in the requested format. |
| `GdiBitmap.Bitmap.UnlockBits` | wrappers/gdiplus/BarcodeReader.cpp:68 | releases one lock and appends the release to the history. |
| `GdiBitmap.ScopedPairsBalance` | wrappers/gdiplus/BarcodeReader.cpp:64-75 | appending any number of scoped acquisitions, each one lock followed by its unlock as `CreateBinaryBitmap` performs them, leaves the outstanding-lock balance of any history unchanged. Repeated scans therefore never leak a lock and never release one twice. |
| `GdiBitmap.CreateBinaryBitmap` | wrappers/gdiplus/BarcodeReader.cpp:60-76 | exactly one lock followed by exactly one unlock on every path: success, a refused format, and a failure while building the luminance source and binarizer. The outstanding-lock count is unchanged afterwards. The result is what the construction built, or the error raised by the format dispatch or by the construction, re-raised unchanged. |
| `Rotations.TryRotations` | wrappers/gdiplus/BarcodeReader.cpp:81-95 | the decode calls made are exactly `Attempts` and the result kept is exactly `Outcome`. These are the specification of the retry policy that the lemmas below characterise. |
| `Rotations.AttemptsFromShape` | wrappers/gdiplus/BarcodeReader.cpp:84-95 | from any position of the try order onward, every attempt is an enabled orientation at or after that position. Attempts strictly follow the order. Every attempt except the last decoded invalidly. |
| `Rotations.AttemptsFromComplete` | wrappers/gdiplus/BarcodeReader.cpp:84-95 | every enabled orientation that no earlier enabled orientation pre-empts with a valid decode is attempted. |
| `Rotations.AttemptsFromFindsValid` | wrappers/gdiplus/BarcodeReader.cpp:84-96 | the last attempt is valid exactly when some enabled orientation decodes validly. |
| `Rotations.AttemptsAreOrderedAndEnabled` | wrappers/gdiplus/BarcodeReader.cpp:84-95 | a scan makes at most four decode calls, only for orientations whose bit is set, in the order 0°, 180°, 90°, 270°. Nothing is tried after a valid result. |
| `Rotations.OutcomeIsFirstValid` | wrappers/gdiplus/BarcodeReader.cpp:84-96 | the kept result is valid exactly when some enabled orientation decodes validly. In that case it is the result of the first such orientation in the try order. |
| `Rotations.NoFlagsNoAttempts` | wrappers/gdiplus/BarcodeReader.cpp:81-95 | with none of the four flags set (a zero mask in particular), no decode call is made and the initial not-found result is kept. |
| `Rotations.Only180Found` | wrappers/gdiplus/BarcodeReader.cpp:87-88 | with only the 180° flag set and an image that decodes at 180°, that attempt is made and its result kept. |
| `Rotations.UprightWins` | wrappers/gdiplus/BarcodeReader.cpp:84-92 | an image that decodes both at 0° and at 90° yields the 0° result when both are enabled. The 90° attempt is never made. |
| `Reader.Project` | wrappers/gdiplus/BarcodeReader.cpp:96-101 | renders a valid result as (symbology name, UTF-8 text) and any other as the empty scan result. It has no contract of its own; `Reader.ScanReportsFirstValid` states what it yields. |
| `Reader.EngineOn` | wrappers/gdiplus/BarcodeReader.cpp:85-94 | the four engine calls: the upright attempt reads the binarized image itself, the others read it rotated by 180, 90 or 270 degrees. It has no contract of its own; it is the decoder that the rotation lemmas quantify over. |
| `Reader.ScanOutcome` | wrappers/gdiplus/BarcodeReader.cpp:78-102 | the whole of `scan` as a function: the format dispatch's error, the construction's error, or the projection of the kept rotation result. Its properties are stated by `Reader.UnsupportedFormatRaises`, `Reader.ScanReportsFirstValid` and `Reader.ZeroMaskFindsNothing`. |
| `Reader.ScanAttempts` | wrappers/gdiplus/BarcodeReader.cpp:82-95 | the decode calls of a scan: none when the binarized image could not be built, otherwise `Attempts` on it. Stated by `Reader.ZeroMaskFindsNothing` and, through `Attempts`, by the rotation lemmas. |
| `Reader.BarcodeReader.Scan` | wrappers/gdiplus/BarcodeReader.cpp:78-102 | the bitmap is locked and unlocked exactly once, whether or not the binarized image can be built, and is left with the same outstanding locks. The result is `ScanOutcome` of the bitmap's format and data, and the decode calls are `ScanAttempts`. |
| `Reader.BarcodeReader.ScanTwice` | wrappers/gdiplus/BarcodeReader.cpp:78-102 | two scans of the same bitmap with the same mask return the same answer. The reader carries no state between scans. |
| `Reader.UnsupportedFormatRaises` | wrappers/gdiplus/BarcodeReader.cpp:56-82 | a bitmap in an unsupported format makes the scan raise "Unsupported format", whatever the mask, hints, construction or engine. |
| `Reader.ScanReportsFirstValid` | wrappers/gdiplus/BarcodeReader.cpp:82-101 | for a supported format, a scan raises exactly the error, if any, that building the binarized image raises. Otherwise it returns (symbology name, UTF-8 text) of the first enabled orientation, in the order 0°, 180°, 90°, 270°, that decodes validly. When no enabled orientation decodes validly it returns the empty scan result. |
| `Reader.ZeroMaskFindsNothing` | wrappers/gdiplus/BarcodeReader.cpp:81-101 | with a zero mask, a scan of a supported bitmap makes no decode call, and scans to the empty result once its binarized image is built. |

## Left out

- GDI+ itself is not modelled. This covers pixel memory, `LockBits`/`UnlockBits` internals and the remaining fields of `BitmapData`. A `Bitmap` keeps only its geometry, its format code, an outstanding-lock count and a ghost history of lock calls.
- `GdiBitmap.Bitmap.LockBits` always succeeds. A failed `LockBits` is not reported, because the code ignores the status it returns.
- The per-pixel luminance arithmetic of `GenericLuminanceSource` is not modelled, and neither is `HybridBinarizer`. A luminance source is the record of its constructor arguments. Constructing the source and the binarizer from it is a parameter (`Library.build`) that may raise; any such error is re-raised after the unlock.
- `BinaryBitmap::rotated` and `MultiFormatReader::read` are not modelled. They are parameters (`Library.rotate`, `Library.read`), and the geometry of a rotated bitmap (width and height swapping) is not represented.
- `BarcodeFormatFromString`, `ToString(BarcodeFormat)` and `TextUtfEncoding::ToUtf8` are not modelled. They are parameters (`Library.parse`, `Library.formatName`, `Library.toUtf8`). No name round-trip is stated, because nothing in the modelled code promises one.
- BarcodeReader.h, BarcodeFormat.h, DecodeStatus.h and DecodeHints.h are not part of this model:
  - The rotation flags are taken as 1 (0°), 2 (90° clockwise), 4 (180°) and 8 (90° counter-clockwise). No contract in the model depends on these particular values.
  - The symbology list and the decode statuses follow the library's enumerations of that period.
  - An empty `possibleFormats` is taken to mean "no filter".
  - `isValid` is taken to mean status `NoError`.
- The GDI+ pixel-format codes are the values GDI+ defines for those names, and bits per pixel is GDI+'s `(code >> 8) & 0xff`.
- C++ exceptions are not modelled as exceptions: they are the `Err` case of a `Result` value.
- An exception from the decode engine is not modelled: the engine is a total function. Decoding starts only after `CreateBinaryBitmap` has unlocked the bitmap.
- `shared_ptr` ownership, memory management and the lifetime of the locked buffer are not modelled.
- Concurrency is not modelled: a scan is single-threaded.
