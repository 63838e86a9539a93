/** Binary bitmap builder: the GDI+ bitmap as far as this wrapper uses it
    (its geometry, its pixel format and its read lock) and the scoped
    lock/unlock around building the binarized view of its pixels. */
module GdiBitmap {
  import opened BarcodeTypes
  import opened Luminance

  /** One call on a bitmap's lock: a `LockBits` with the format asked for,
      or an `UnlockBits`. */
  datatype LockOp = Locked(format: PixelFormat) | Unlocked

  /** Locks taken minus locks released in a history of lock calls. */
  function Balance(log: seq<LockOp>): int {
    if log == [] then 0
    else Balance(log[..|log| - 1]) + (if log[|log| - 1].Locked? then 1 else -1)
  }

  /** The lock history of a series of scoped acquisitions, one per format in
      `formats`: each a lock immediately followed by its unlock. */
  function ScopedPairs(formats: seq<PixelFormat>): seq<LockOp> {
    if formats == [] then []
    else ScopedPairs(formats[..|formats| - 1]) + [Locked(formats[|formats| - 1]), Unlocked]
  }

  /** Any number of scoped acquisitions appended to a history leave the
      outstanding locks as they were: no lock leaks and none is released
      twice, however many scans run one after another. */
  lemma {:induction false} ScopedPairsBalance(log: seq<LockOp>, formats: seq<PixelFormat>)
    ensures Balance(log + ScopedPairs(formats)) == Balance(log)
    decreases |formats|
  {
    if formats != [] {
      var init := formats[..|formats| - 1];
      var f := formats[|formats| - 1];
      ScopedPairsBalance(log, init);
      var before := log + ScopedPairs(init);
      var locked := before + [Locked(f)];
      assert log + ScopedPairs(formats) == locked + [Unlocked];
      assert (locked + [Unlocked])[..|locked|] == locked;
      assert Balance(locked + [Unlocked]) == Balance(locked) - 1;
      assert locked[..|before|] == before;
      assert Balance(locked) == Balance(before) + 1;
    } else {
      assert log + ScopedPairs(formats) == log;
    }
  }

  /** A GDI+ bitmap. Its pixels and geometry do not change while this
      wrapper holds it; what does change is its lock, recorded both as the
      number of outstanding locks and as the history of lock calls. */
  class Bitmap {
    const pixelFormat: PixelFormat
    const width: nat
    const height: nat
    const stride: int
    const scan0: nat
    var lockCount: nat
    ghost var log: seq<LockOp>

    /** The outstanding locks are exactly those the history leaves open. */
    ghost predicate Valid()
      reads this
    {
      lockCount == Balance(log)
    }

    constructor (pixelFormat: PixelFormat, width: nat, height: nat, stride: int, scan0: nat)
      ensures Valid() && lockCount == 0 && log == []
      ensures this.pixelFormat == pixelFormat && this.width == width && this.height == height
      ensures this.stride == stride && this.scan0 == scan0
    {
      this.pixelFormat := pixelFormat;
      this.width := width;
      this.height := height;
      this.stride := stride;
      this.scan0 := scan0;
      lockCount := 0;
      log := [];
    }

    /** The description of the whole image that a read lock in `format`
        hands out. */
    function Data(format: PixelFormat): BitmapData {
      BitmapData(width, height, stride, scan0, format)
    }

    /** Locks the whole image for reading in the given format. */
    method LockBits(format: PixelFormat) returns (data: BitmapData)
      requires Valid()
      modifies this
      ensures Valid()
      ensures lockCount == old(lockCount) + 1 && log == old(log) + [Locked(format)]
      ensures data == Data(format)
    {
      lockCount := lockCount + 1;
      log := log + [Locked(format)];
      data := Data(format);
    }

    /** Releases a lock taken by `LockBits`. */
    method UnlockBits(data: BitmapData)
      requires Valid() && lockCount > 0
      modifies this
      ensures Valid()
      ensures lockCount == old(lockCount) - 1 && log == old(log) + [Unlocked]
    {
      lockCount := lockCount - 1;
      log := log + [Unlocked];
    }
  }

  /** A binarizer over a luminance source; the binarization itself is not
      part of this model. */
  datatype BinaryBitmap = HybridBinarizer(source: LuminanceSource)

  /** Locks the bitmap in its own pixel format, builds the binarized view
      over the locked buffer and unlocks it. `build` stands for constructing
      the luminance source from the chosen layout and wrapping it in a
      hybrid binarizer, which may itself raise. Exactly one `UnlockBits`
      follows the `LockBits`, whether the format is refused, `build` raises
      or everything succeeds, and a raised error is passed on unchanged after
      the unlock. */
  method CreateBinaryBitmap(bitmap: Bitmap, build: LuminanceSource -> Result<BinaryBitmap>) returns (r: Result<BinaryBitmap>)
    requires bitmap.Valid()
    modifies bitmap
    ensures bitmap.Valid()
    ensures bitmap.lockCount == old(bitmap.lockCount)
    ensures bitmap.log == old(bitmap.log) + [Locked(bitmap.pixelFormat), Unlocked]
    ensures match CreateLuminanceSource(bitmap.pixelFormat, bitmap.Data(bitmap.pixelFormat))
      case Ok(source) => r == build(source)
      case Err(e) => r == Err(e)
  {
    var data := bitmap.LockBits(bitmap.pixelFormat);
    var source := CreateLuminanceSource(bitmap.pixelFormat, data);
    match source {
      case Ok(src) =>
        var built := build(src);
        match built {
          case Ok(image) =>
            bitmap.UnlockBits(data);
            r := Ok(image);
          case Err(e) =>
            bitmap.UnlockBits(data);
            r := Err(e);
        }
      case Err(e) =>
        bitmap.UnlockBits(data);
        r := Err(e);
    }
  }
}
