/** Turning a swipe into a force on the controller pages, and a force into the spin
    parameters on the wheel host pages. `Date.now()` differences and `Math.random()`
    draws arrive as parameters. */
module Force {
  import opened Js

  /** A touch counts as a swipe when it moved up by more than 50 pixels: `deltaY < -50`. */
  const SwipeThreshold: real := -50.0

  predicate IsSwipe(deltaY: real)
  {
    deltaY < SwipeThreshold
  }

  /** `Math.abs(deltaY) / swipeTime` for a swipe time in milliseconds other than 0 (for
      0, JavaScript yields `Infinity`; the callers below handle that case). */
  function Speed(deltaY: real, swipeTime: int): (v: real)
    requires swipeTime != 0
    ensures swipeTime > 0 ==> v >= 0.0
    ensures v * swipeTime as real == (if deltaY < 0.0 then -deltaY else deltaY)
  {
    (if deltaY < 0.0 then -deltaY else deltaY) / swipeTime as real
  }

  /** The force the wheel and dice player pages send:
      `Math.max(1, Math.min(10, speed + randomVariation))`, where `randomVariation` is
      `(Math.random() - 0.5) * 1`. An infinite speed (swipe time 0) clamps to 10. */
  function ClampedForce(deltaY: real, swipeTime: int, variation: real): (f: real)
    ensures 1.0 <= f <= 10.0
    ensures swipeTime == 0 ==> f == 10.0
    ensures swipeTime != 0 ==>
      var raw := Speed(deltaY, swipeTime) + variation;
      && (1.0 <= raw <= 10.0 ==> f == raw)
      && (raw < 1.0 ==> f == 1.0)
      && (raw > 10.0 ==> f == 10.0)
  {
    if swipeTime == 0 then Max(1.0, 10.0)
    else Max(1.0, Min(10.0, Speed(deltaY, swipeTime) + variation))
  }

  /** The force the desktop controller page sends: `Math.min(Math.abs(deltaY) / swipeTime, 10)`.
      It is capped at 10 but has no lower clamp. */
  function CappedForce(deltaY: real, swipeTime: int): (f: real)
    ensures f <= 10.0
    ensures swipeTime == 0 ==> f == 10.0
    ensures swipeTime != 0 ==>
      (Speed(deltaY, swipeTime) <= 10.0 ==> f == Speed(deltaY, swipeTime))
      && (Speed(deltaY, swipeTime) > 10.0 ==> f == 10.0)
    ensures IsSwipe(deltaY) && swipeTime > 0 ==> f > 0.0
  {
    if swipeTime == 0 then 10.0
    else Min(Speed(deltaY, swipeTime), 10.0)
  }

  /** A slow swipe gives the desktop a force below 1, which the other controllers never send. */
  lemma CappedForceHasNoFloor()
    ensures IsSwipe(-60.0) && CappedForce(-60.0, 1000) < 1.0
    ensures forall v :: ClampedForce(-60.0, 1000, v) >= 1.0
  {
    assert Speed(-60.0, 1000) == 0.06;
  }

  /** `3000 + force * 500`: the spin duration in milliseconds. */
  function SpinTime(force: real): (t: real)
    ensures force >= 0.0 ==> t >= 3000.0
    ensures (t - 3000.0) / 500.0 == force
  {
    3000.0 + force * 500.0
  }

  /** `5 + Math.floor(force * 3)`: the number of whole turns before the wheel stops. */
  function SpinCount(force: real): (c: int)
    ensures (c - 5) as real <= force * 3.0 < (c - 5 + 1) as real
  {
    5 + Floor(force * 3.0)
  }

  /** A stronger swipe never gives a shorter or less-turning spin. */
  lemma SpinParametersMonotone(f: real, g: real)
    requires f <= g
    ensures SpinTime(f) <= SpinTime(g)
    ensures SpinCount(f) <= SpinCount(g)
  {}

  /** For the forces the player pages send, a spin lasts 3.5 to 8 seconds and makes 8 to
      35 whole turns. */
  lemma ClampedForceSpinBounds(deltaY: real, swipeTime: int, variation: real)
    ensures var f := ClampedForce(deltaY, swipeTime, variation);
      && 3500.0 <= SpinTime(f) <= 8000.0
      && 8 <= SpinCount(f) <= 35
  {
    var f := ClampedForce(deltaY, swipeTime, variation);
    SpinParametersMonotone(1.0, f);
    SpinParametersMonotone(f, 10.0);
    assert SpinCount(1.0) == 8;
    assert SpinCount(10.0) == 35;
  }

  /** A swipe of force 4 makes 17 whole turns in 5 seconds. */
  lemma SpinAtForceFour()
    ensures SpinCount(4.0) == 17 && SpinTime(4.0) == 5000.0
  {
    assert Floor(12.0) == 12;
  }
}
