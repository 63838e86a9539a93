/** Values shared by the GDI+ barcode reader wrapper: symbologies, the
    decode engine's per-attempt result, the result handed back to the caller
    and the error raised when the wrapper gives up. */
module BarcodeTypes {

  /** The decode engine's symbology enumeration. `FormatCount` is the
      sentinel that the name parser returns for a name it does not know. */
  datatype BarcodeFormat =
    | Aztec | Codabar | Code39 | Code93 | Code128 | DataMatrix
    | Ean8 | Ean13 | Itf | MaxiCode | Pdf417 | QrCode
    | Rss14 | RssExpanded | UpcA | UpcE | UpcEanExtension
    | FormatCount

  /** Outcome of one decode attempt. Only `NoError` is a valid result; the
      wrapper does not look at why an attempt failed. */
  datatype DecodeStatus = NoError | NotFound | FormatError | ChecksumError

  /** The engine keeps decoded text as a wide string. */
  type WideString = seq<char>

  /** UTF-8 bytes, the encoding of the text handed to the caller. */
  type Utf8 = seq<bv8>

  /** The engine's result of one decode attempt. */
  datatype DecodeResult = DecodeResult(status: DecodeStatus, format: BarcodeFormat, text: WideString)
  {
    predicate IsValid() { status == NoError }
  }

  /** The result that `scan` starts from before any attempt is made. */
  const NotFoundResult := DecodeResult(NotFound, FormatCount, [])

  /** What the caller receives: a symbology name and UTF-8 text, or the
      default-constructed (empty) value when nothing was found. */
  datatype ScanResult = ScanResult(format: string, text: Utf8)

  const EmptyScanResult := ScanResult("", [])

  /** The exceptions the wrapper lets escape. */
  datatype Error = InvalidArgument(message: string)

  /** A computation that either yields a value or raises an `Error`. */
  datatype Result<+T> = Ok(value: T) | Err(error: Error)
}
