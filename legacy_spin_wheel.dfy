/** The older canvas wheel (SpinWheel.tsx) the desktop page shows: a spin computes where
    the wheel will rest when it starts, and the animation's completion reports the
    segment under the pointer and stores that angle. */
module LegacySpinWheel {
  import opened Js
  import opened Protocol
  import opened WheelOutcome

  /** `segments[winningIndex]`; with no segments the index is `NaN` and the label
      `undefined` (None). */
  function LegacyLabel(segments: seq<string>, finalAngle: real): (r: Option<string>)
    ensures r.Some? <==> |segments| > 0
    ensures r.Some? ==> r.value in segments
  {
    if |segments| == 0 then None else Some(segments[LegacyWinningIndex(finalAngle, |segments|)])
  }

  class LegacyWheel {
    var isSpinning: bool
    var currentAngle: real
    /** `finalAngle` of the spin under way, which its `onComplete` reads. */
    var pending: Option<real>

    ghost predicate Valid()
      reads this
    {
      && -360.0 < currentAngle < 360.0
      && (isSpinning <==> pending.Some?)
      && (pending.Some? ==> -360.0 < pending.value < 360.0)
    }

    constructor()
      ensures Valid() && !isSpinning && currentAngle == 0.0
    {
      isSpinning := false;
      currentAngle := 0.0;
      pending := None;
    }

    /** `spinWheel()`: returns at once while a spin is under way; otherwise starts one,
        `r` being its `Math.random()` draw. */
    method Spin(spinCount: int, r: real) returns (started: bool)
      requires Valid()
      modifies this
      ensures Valid()
      ensures started <==> !old(isSpinning)
      ensures !started ==> isSpinning == old(isSpinning) && pending == old(pending)
      ensures started ==> isSpinning && pending == Some(FinalAngle(old(currentAngle), LegacyTotalRotation(spinCount, r)))
      ensures currentAngle == old(currentAngle)
    {
      if isSpinning {
        return false;
      }
      isSpinning := true;
      var totalRotation := LegacyTotalRotation(spinCount, r);
      var finalAngle := FinalAngle(currentAngle, totalRotation);
      pending := Some(finalAngle);
      started := true;
    }

    /** The animation's `onComplete`: the wheel stops, reports the winning segment, and
        rests at the angle computed when the spin started. */
    method Complete(segments: seq<string>) returns (winner: Option<string>)
      requires Valid() && isSpinning
      modifies this
      ensures Valid() && !isSpinning && pending == None
      ensures currentAngle == old(pending).value
      ensures winner == LegacyLabel(segments, currentAngle)
    {
      isSpinning := false;
      var finalAngle := pending.value;
      winner := LegacyLabel(segments, finalAngle);
      currentAngle := finalAngle;
      pending := None;
    }

    /** The effect on a change of the `startSpin` prop. */
    method OnStartSpin(startSpin: bool, spinCount: int, r: real) returns (started: bool)
      requires Valid()
      modifies this
      ensures Valid()
      ensures started <==> startSpin && !old(isSpinning)
      ensures started ==> isSpinning && pending == Some(FinalAngle(old(currentAngle), LegacyTotalRotation(spinCount, r)))
      ensures !started ==> isSpinning == old(isSpinning) && pending == old(pending)
      ensures currentAngle == old(currentAngle)
    {
      started := false;
      if startSpin && !isSpinning {
        started := Spin(spinCount, r);
      }
    }
  }
}
