/** Rotation-retry orchestration: which orientations `scan` hands to the
    decode engine, in which order, and which result it keeps. */
module Rotations {
  import opened BarcodeTypes

  /** The four orientations a scan may try. */
  datatype Rotation = Rotation0 | Rotation180 | RotationCW90 | RotationCCW90
  {
    /** Its flag in the caller's rotation mask. */
    function Flag(): bv32 {
      match this
      case Rotation0 => 1
      case RotationCW90 => 2
      case Rotation180 => 4
      case RotationCCW90 => 8
    }

    /** The angle handed to the binary bitmap's rotation (0 means the
        bitmap itself, unrotated). */
    function Degrees(): nat {
      match this
      case Rotation0 => 0
      case Rotation180 => 180
      case RotationCW90 => 90
      case RotationCCW90 => 270
    }

    /** Its position in the try order. */
    function Rank(): nat {
      match this
      case Rotation0 => 0
      case Rotation180 => 1
      case RotationCW90 => 2
      case RotationCCW90 => 3
    }
  }

  /** The fixed order in which orientations are tried: upright, upside
      down, then the two sideways ones. */
  const Order: seq<Rotation> := [Rotation0, Rotation180, RotationCW90, RotationCCW90]

  /** The engine applied to the scanned image turned by each orientation. */
  type Decoder = Rotation -> DecodeResult

  /** The caller's `int` mask, read as its 32-bit two's-complement pattern. */
  function MaskBits(rotations: int): bv32 {
    (rotations % 0x1_0000_0000) as bv32
  }

  predicate Enabled(rotations: int, rot: Rotation) {
    MaskBits(rotations) & rot.Flag() != 0
  }

  /** The orientations tried from position `i` of `Order` on: each enabled
      one in turn, stopping right after the first that decodes validly. */
  function AttemptsFrom(rotations: int, decode: Decoder, i: nat): seq<Rotation>
    requires i <= |Order|
    decreases |Order| - i
  {
    if i == |Order| then []
    else if !Enabled(rotations, Order[i]) then AttemptsFrom(rotations, decode, i + 1)
    else if decode(Order[i]).IsValid() then [Order[i]]
    else [Order[i]] + AttemptsFrom(rotations, decode, i + 1)
  }

  /** The decode calls a scan makes, in the order it makes them. */
  function Attempts(rotations: int, decode: Decoder): seq<Rotation> {
    AttemptsFrom(rotations, decode, 0)
  }

  /** The result a scan keeps: that of its last attempt, or the initial
      not-found result when it makes none. */
  function Outcome(rotations: int, decode: Decoder): DecodeResult {
    var tried := Attempts(rotations, decode);
    if tried == [] then NotFoundResult else decode(tried[|tried| - 1])
  }

  /** The four guarded decode attempts of `scan`. `calls` records the
      orientations handed to the engine, in order. */
  method TryRotations(rotations: int, decode: Decoder) returns (result: DecodeResult, ghost calls: seq<Rotation>)
    ensures calls == Attempts(rotations, decode)
    ensures result == Outcome(rotations, decode)
  {
    result := NotFoundResult;
    calls := [];
    if Enabled(rotations, Rotation0) {
      result := decode(Rotation0);
      calls := calls + [Rotation0];
    }
    if !result.IsValid() && Enabled(rotations, Rotation180) {
      result := decode(Rotation180);
      calls := calls + [Rotation180];
    }
    if !result.IsValid() && Enabled(rotations, RotationCW90) {
      result := decode(RotationCW90);
      calls := calls + [RotationCW90];
    }
    if !result.IsValid() && Enabled(rotations, RotationCCW90) {
      result := decode(RotationCCW90);
      calls := calls + [RotationCCW90];
    }
  }

  /** Every attempt from position `i` on is an enabled orientation at or
      after `i`, attempts follow the try order strictly (so there are at
      most four and none is repeated), and every attempt but the last
      decoded invalidly: nothing is tried after a valid result. */
  lemma {:induction false} AttemptsFromShape(rotations: int, decode: Decoder, i: nat)
    requires i <= |Order|
    ensures var a := AttemptsFrom(rotations, decode, i);
      |a| <= |Order| - i &&
      (forall k :: 0 <= k < |a| ==> i <= a[k].Rank() && Enabled(rotations, a[k])) &&
      (forall j, k :: 0 <= j < k < |a| ==> a[j].Rank() < a[k].Rank()) &&
      (forall k :: 0 <= k < |a| - 1 ==> !decode(a[k]).IsValid())
    decreases |Order| - i
  {
    if i < |Order| {
      AttemptsFromShape(rotations, decode, i + 1);
    }
  }

  /** No enabled orientation at a position in `[i, p)` decodes validly. */
  predicate NoValidBetween(rotations: int, decode: Decoder, i: nat, p: nat)
    requires p <= |Order|
  {
    forall q :: i <= q < p && Enabled(rotations, Order[q]) ==> !decode(Order[q]).IsValid()
  }

  /** From position `i` on, every enabled orientation that no earlier
      enabled one (from `i`) preempts with a valid decode is attempted. */
  lemma {:induction false} AttemptsFromComplete(rotations: int, decode: Decoder, i: nat, p: nat)
    requires i <= p < |Order|
    requires Enabled(rotations, Order[p]) && NoValidBetween(rotations, decode, i, p)
    ensures Order[p] in AttemptsFrom(rotations, decode, i)
    decreases p - i
  {
    if i < p {
      AttemptsFromComplete(rotations, decode, i + 1, p);
    }
  }

  /** From position `i` on, the last attempt is valid exactly when some
      enabled orientation from `i` on decodes validly. */
  lemma {:induction false} AttemptsFromFindsValid(rotations: int, decode: Decoder, i: nat)
    requires i <= |Order|
    ensures var a := AttemptsFrom(rotations, decode, i);
      (a != [] && decode(a[|a| - 1]).IsValid()) <==>
        exists p :: i <= p < |Order| && Enabled(rotations, Order[p]) && decode(Order[p]).IsValid()
    decreases |Order| - i
  {
    if i < |Order| {
      var rest := AttemptsFrom(rotations, decode, i + 1);
      AttemptsFromFindsValid(rotations, decode, i + 1);
      if Enabled(rotations, Order[i]) && !decode(Order[i]).IsValid() {
        var a := [Order[i]] + rest;
        assert rest != [] ==> a[|a| - 1] == rest[|rest| - 1];
      }
    }
  }

  /** The orientations tried are enabled, follow the order 0, 180, 90, 270
      degrees, number at most four, and stop at the first valid decode. */
  lemma AttemptsAreOrderedAndEnabled(rotations: int, decode: Decoder)
    ensures var a := Attempts(rotations, decode);
      |a| <= 4 &&
      (forall k :: 0 <= k < |a| ==> Enabled(rotations, a[k])) &&
      (forall j, k :: 0 <= j < k < |a| ==> a[j].Rank() < a[k].Rank()) &&
      (forall k :: 0 <= k < |a| - 1 ==> !decode(a[k]).IsValid())
  {
    AttemptsFromShape(rotations, decode, 0);
  }

  /** The kept result is valid exactly when some enabled orientation decodes
      validly, and then it is the result of the first such orientation in the
      try order. */
  lemma {:induction false} OutcomeIsFirstValid(rotations: int, decode: Decoder)
    ensures Outcome(rotations, decode).IsValid() <==>
      exists p :: 0 <= p < |Order| && Enabled(rotations, Order[p]) && decode(Order[p]).IsValid()
    ensures Outcome(rotations, decode).IsValid() ==>
      exists p :: 0 <= p < |Order| && Enabled(rotations, Order[p]) &&
        Outcome(rotations, decode) == decode(Order[p]) && NoValidBetween(rotations, decode, 0, p)
  {
    var a := Attempts(rotations, decode);
    AttemptsFromShape(rotations, decode, 0);
    AttemptsFromFindsValid(rotations, decode, 0);
    if Outcome(rotations, decode).IsValid() {
      var last := a[|a| - 1];
      var p := last.Rank();
      assert Order[p] == last;
      forall q | 0 <= q < p && Enabled(rotations, Order[q])
        ensures !decode(Order[q]).IsValid()
      {
      }
    }
  }

  /** With none of the four flags set (in particular with a zero mask) no
      decode call is made and the initial not-found result is kept, whatever
      the engine would have answered. */
  lemma NoFlagsNoAttempts(rotations: int, decode: Decoder)
    requires forall rot: Rotation :: !Enabled(rotations, rot)
    ensures Attempts(rotations, decode) == []
    ensures Outcome(rotations, decode) == NotFoundResult
  {
  }

  /** An image that decodes only when turned 180 degrees is found with a mask
      that enables only that orientation: the rotated attempt is really made. */
  lemma Only180Found(decode: Decoder)
    requires decode(Rotation180).IsValid()
    ensures Attempts(Rotation180.Flag() as int, decode) == [Rotation180]
    ensures Outcome(Rotation180.Flag() as int, decode) == decode(Rotation180)
  {
  }

  /** An image that decodes both upright and turned 90 degrees clockwise
      yields the upright result when both are enabled, and the sideways one
      is never tried. */
  lemma UprightWins(rotations: int, decode: Decoder)
    requires Enabled(rotations, Rotation0) && Enabled(rotations, RotationCW90)
    requires decode(Rotation0).IsValid() && decode(RotationCW90).IsValid()
    ensures Attempts(rotations, decode) == [Rotation0]
    ensures Outcome(rotations, decode) == decode(Rotation0)
  {
  }
}
