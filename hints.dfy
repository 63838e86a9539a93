/** Decoder configuration: how the reader's constructor turns its three
    options into the decode engine's hints. */
module Hints {
  import opened BarcodeTypes

  /** The engine's hint record as this wrapper fills it in. An empty
      `possibleFormats` is the engine's "no filter": every symbology is
      allowed. */
  datatype DecodeHints = DecodeHints(tryHarder: bool, tryRotate: bool, possibleFormats: set<BarcodeFormat>)

  /** A default-constructed hint record. */
  const DefaultHints := DecodeHints(false, false, {})

  /** Whether hints `h` let the engine report symbology `f`. */
  predicate Permits(h: DecodeHints, f: BarcodeFormat) {
    h.possibleFormats == {} || f in h.possibleFormats
  }

  /** The hints the constructor builds from its options. `parse` stands for
      the library's name-to-symbology parser, which is not part of this
      model; it answers `FormatCount` for a name it does not recognise. */
  function MakeHints(tryHarder: bool, tryRotate: bool, format: string, parse: string -> BarcodeFormat): (h: DecodeHints)
    ensures h.tryHarder == tryHarder && h.tryRotate == tryRotate
    ensures format != [] && parse(format) != FormatCount ==> h.possibleFormats == {parse(format)}
    ensures format == [] || parse(format) == FormatCount ==> h.possibleFormats == {}
    ensures FormatCount !in h.possibleFormats
  {
    var hints := DefaultHints.(tryHarder := tryHarder).(tryRotate := tryRotate);
    if format != [] && parse(format) != FormatCount then
      hints.(possibleFormats := {parse(format)})
    else
      hints
  }

  /** The filter that the constructor installs lets through exactly the
      parsed symbology when the name is recognised, and everything when the
      name is empty or unrecognised: an unknown name never narrows the search
      and never rejects the configuration. */
  lemma FilterPermits(tryHarder: bool, tryRotate: bool, format: string, parse: string -> BarcodeFormat, f: BarcodeFormat)
    ensures Permits(MakeHints(tryHarder, tryRotate, format, parse), f)
        <==> format == [] || parse(format) == FormatCount || f == parse(format)
  {
    var h := MakeHints(tryHarder, tryRotate, format, parse);
    if format != [] && parse(format) != FormatCount {
      assert h.possibleFormats == {parse(format)};
    }
  }
}
