/** Luminance adapter: which bytes of a locked GDI+ pixel buffer feed the
    luminance source, chosen by the bitmap's pixel format. */
module Luminance {
  import opened BarcodeTypes

  /** A GDI+ pixel format is a plain integer code whose bits describe it. */
  type PixelFormat = int

  const PixelFormatIndexed: PixelFormat := 0x0001_0000
  const PixelFormatGDI: PixelFormat := 0x0002_0000
  const PixelFormatAlpha: PixelFormat := 0x0004_0000
  const PixelFormatPAlpha: PixelFormat := 0x0008_0000
  const PixelFormatCanonical: PixelFormat := 0x0020_0000

  /** Index 8 | 24 bits per pixel | GDI. */
  const PixelFormat24bppRGB: PixelFormat := 0x0002_1808
  /** Index 9 | 32 bits per pixel | GDI. */
  const PixelFormat32bppRGB: PixelFormat := 0x0002_2009
  /** Index 10 | 32 bits per pixel | alpha | GDI | canonical. */
  const PixelFormat32bppARGB: PixelFormat := 0x0026_200A
  /** Index 11 | 32 bits per pixel | alpha | premultiplied alpha | GDI. */
  const PixelFormat32bppPARGB: PixelFormat := 0x000E_200B

  /** Bits per pixel as GDI+ encodes them in the code: `(code >> 8) & 0xff`
      (with an arithmetic shift, which is what Euclidean division by a
      positive number gives). */
  function PixelSize(code: PixelFormat): nat {
    (code / 0x100) % 0x100
  }

  /** Whether the code carries the alpha flag. */
  predicate HasAlpha(code: PixelFormat) {
    (code / PixelFormatAlpha) % 2 == 1
  }

  /** The channel stored at a byte offset of a pixel in GDI+'s 8-bit-per-
      channel RGB formats, which lay a pixel out little-endian: blue, green,
      red, then alpha (or an unused byte). */
  datatype Channel = Blue | Green | Red | Alpha

  function ByteChannel(offset: nat): Channel
    requires offset < 4
  {
    [Blue, Green, Red, Alpha][offset]
  }

  /** The part of GDI+'s `BitmapData` that a read lock hands out. */
  datatype BitmapData = BitmapData(width: nat, height: nat, stride: int, scan0: nat, pixelFormat: PixelFormat)

  /** The arguments a `GenericLuminanceSource` is built from: the geometry of
      the buffer, the bytes per pixel and the byte offset of each colour
      channel inside a pixel. How it derives luminance from them is not part
      of this model. */
  datatype LuminanceSource = GenericLuminanceSource(
    width: nat, height: nat, scan0: nat, stride: int,
    pixelBytes: nat, redIndex: nat, greenIndex: nat, blueIndex: nat)

  /** The three formats the adapter accepts. */
  predicate IsSupported(code: PixelFormat) {
    code == PixelFormat24bppRGB || code == PixelFormat32bppARGB || code == PixelFormat32bppRGB
  }

  const UnsupportedFormat := InvalidArgument("Unsupported format")

  /** Builds the luminance source for a locked buffer of the given format.
      A supported format yields a source over the same buffer and geometry
      whose pixel size matches the bits-per-pixel field of the code and whose
      three offsets select the red, green and blue bytes; any other format
      raises "Unsupported format". */
  function CreateLuminanceSource(format: PixelFormat, data: BitmapData): (r: Result<LuminanceSource>)
    ensures r.Ok? <==> IsSupported(format)
    ensures r.Err? ==> r.error == UnsupportedFormat
    ensures r.Ok? ==>
      var src := r.value;
      src.width == data.width && src.height == data.height &&
      src.scan0 == data.scan0 && src.stride == data.stride &&
      src.pixelBytes * 8 == PixelSize(format) &&
      src.redIndex < 4 && src.greenIndex < 4 && src.blueIndex < 4 &&
      ByteChannel(src.redIndex) == Red &&
      ByteChannel(src.greenIndex) == Green &&
      ByteChannel(src.blueIndex) == Blue
  {
    if format == PixelFormat24bppRGB then
      Ok(GenericLuminanceSource(data.width, data.height, data.scan0, data.stride, 3, 2, 1, 0))
    else if format == PixelFormat32bppARGB || format == PixelFormat32bppRGB then
      Ok(GenericLuminanceSource(data.width, data.height, data.scan0, data.stride, 4, 2, 1, 0))
    else
      Err(UnsupportedFormat)
  }

  /** Alpha never reaches the luminance computation: the 32-bit formats with
      and without alpha give the same source, none of its offsets is the
      alpha byte, and the premultiplied-alpha format, though it has the same
      byte layout, is refused. */
  lemma AlphaIgnored(data: BitmapData)
    ensures HasAlpha(PixelFormat32bppARGB) && !HasAlpha(PixelFormat32bppRGB)
    ensures CreateLuminanceSource(PixelFormat32bppARGB, data) == CreateLuminanceSource(PixelFormat32bppRGB, data)
    ensures var src := CreateLuminanceSource(PixelFormat32bppARGB, data).value;
      ByteChannel(src.redIndex) != Alpha && ByteChannel(src.greenIndex) != Alpha && ByteChannel(src.blueIndex) != Alpha
    ensures PixelSize(PixelFormat32bppPARGB) == 32 && CreateLuminanceSource(PixelFormat32bppPARGB, data).Err?
  {
  }
}
