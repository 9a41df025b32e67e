/** Where a wheel stops and which segment wins, for the two wheel components: the newer
    SVG wheel of the drunk-wheel host page, with its pointer realignment and its index
    remap, and the older canvas wheel of the desktop page. Angles are degrees; `%` is
    JavaScript's remainder (`Js.Rem`). */
module WheelOutcome {
  import opened Js
  import opened Protocol

  /** `360 / segments.length`. */
  function SegmentSize(n: nat): (s: real)
    requires n > 0
    ensures s > 0.0 && s * n as real == 360.0
  {
    360.0 / n as real
  }

  /** `(currentAngle + totalRotation) % 360`: the angle the wheel rests at, which differs
      from the accumulated angle by whole turns. */
  function FinalAngle(currentAngle: real, totalRotation: real): (a: real)
    ensures -360.0 < a < 360.0
    ensures currentAngle + totalRotation >= 0.0 ==> 0.0 <= a
    ensures IsWhole((currentAngle + totalRotation - a) / 360.0)
  {
    Rem(currentAngle + totalRotation, 360.0)
  }

  /** Normalising an angle that is already normalised changes nothing. */
  lemma FinalAngleIdempotent(currentAngle: real, totalRotation: real)
    ensures FinalAngle(FinalAngle(currentAngle, totalRotation), 0.0) == FinalAngle(currentAngle, totalRotation)
  {
    RemIdempotent(currentAngle + totalRotation, 360.0);
  }

  /** Extra whole turns do not move the resting angle. */
  lemma FinalAngleWholeTurns(currentAngle: real, rest: real, turns: nat)
    requires currentAngle + rest >= 0.0
    ensures FinalAngle(currentAngle, turns as real * 360.0 + rest) == FinalAngle(currentAngle, rest)
  {
    RemAddMultiple(currentAngle + rest, 360.0, turns);
    assert currentAngle + (turns as real * 360.0 + rest) == currentAngle + rest + 360.0 * turns as real;
  }

  // ---- The newer wheel (components/SpinWheel.tsx)

  /** `Math.random() * segmentSize`: where inside a segment the wheel is meant to stop. */
  function ExtraRotation(r: real, n: nat): (e: real)
    requires n > 0
    ensures 0.0 <= r < 1.0 ==> 0.0 <= e < SegmentSize(n)
  {
    var s := SegmentSize(n);
    if 0.0 <= r < 1.0 then MulLt(s, r, 1.0); MulLe(s, 0.0, r); s * r else s * r
  }

  /** `totalRotation` of one round: whole turns, the extra rotation, and for a round the
      host started a further `Math.random() * 100` degrees. */
  function TotalRotation(isHost: bool, spinCount: int, extra: real, jitter: real, n: nat): (t: real)
    requires n > 0
    ensures 0 <= spinCount && 0.0 <= extra < 1.0 && 0.0 <= jitter < 1.0 ==> t >= 0.0
    ensures !isHost ==> t == spinCount as real * 360.0 + ExtraRotation(extra, n)
  {
    spinCount as real * 360.0 + ExtraRotation(extra, n) + (if isHost then jitter * 100.0 else 0.0)
  }

  /** The number of whole turns has no say in where a round stops. */
  lemma SpinCountIrrelevant(currentAngle: real, isHost: bool, spinCount: nat, extra: real, jitter: real, n: nat)
    requires n > 0 && currentAngle >= 0.0 && 0.0 <= extra < 1.0 && 0.0 <= jitter < 1.0
    ensures FinalAngle(currentAngle, TotalRotation(isHost, spinCount, extra, jitter, n))
         == FinalAngle(currentAngle, TotalRotation(isHost, 0, extra, jitter, n))
  {
    var rest := TotalRotation(isHost, 0, extra, jitter, n);
    assert TotalRotation(isHost, spinCount, extra, jitter, n) == spinCount as real * 360.0 + rest;
    FinalAngleWholeTurns(currentAngle, rest, spinCount);
  }

  /** `(360 - finalAngle + segmentSize / 2) % 360`: the resting angle turned back and moved
      by half a segment, so that it measures where the fixed pointer sits on the wheel. */
  function AdjustedAngle(finalAngle: real, n: nat): (a: real)
    requires n > 0
    ensures finalAngle <= 360.0 ==> 0.0 <= a < 360.0
  {
    Rem(360.0 - finalAngle + SegmentSize(n) / 2.0, 360.0)
  }

  /** `Math.floor(adjustedAngle / segmentSize)`: the segment whose arc holds the adjusted
      angle, a valid index for every angle `FinalAngle` can produce. */
  function WinningIndex(finalAngle: real, n: nat): (w: int)
    requires n > 0
    ensures var s := SegmentSize(n);
      s * w as real <= AdjustedAngle(finalAngle, n) < s * w as real + s
    ensures finalAngle <= 360.0 ==> 0 <= w < n
  {
    var s := SegmentSize(n);
    var a := AdjustedAngle(finalAngle, n);
    FloorDivBounds(a, s);
    var w := Floor(a / s);
    if finalAngle <= 360.0 then FloorInRange(a, s, n); w else w
  }

  /** A quotient's floor stays within the segment indices when the angle is within a turn. */
  lemma FloorInRange(a: real, s: real, n: nat)
    requires s > 0.0 && 0.0 <= a < s * n as real
    ensures 0 <= Floor(a / s) < n
  {
    FloorDivBounds(a, s);
    var k := Floor(a / s);
    if k >= n { MulLe(s, n as real, k as real); }
    if k < 0 { MulLe(s, k as real + 1.0, 0.0); MulPlusOne(s, k as real); }
  }

  /** ... and is never negative for a non-negative angle. */
  lemma FloorNonNegative(a: real, s: real)
    requires s > 0.0 && 0.0 <= a
    ensures 0 <= Floor(a / s)
  {
    var q := a / s;
    MulDiv(s, a);
    if q < 0.0 { MulLt(s, q, 0.0); }
    assert 0.0 <= q;
  }

  /** The index remap the newer wheel applies before reporting:
      `winningIndex < 3 ? winningIndex + (n - 3) : winningIndex - (n - 7)`. */
  function CalIndex(w: int, n: int): int
  {
    if w < 3 then w + (n - 3) else w - (n - 7)
  }

  /** The remap sends every segment index to a segment index exactly when the wheel has 3
      segments or 7 to 10 of them. */
  lemma CalIndexInRangeExactly(n: nat)
    requires n > 0
    ensures (forall w :: 0 <= w < n ==> 0 <= CalIndex(w, n) < n) <==> (n == 3 || 7 <= n <= 10)
  {
    if n <= 2 {
      assert CalIndex(0, n) < 0;
    } else if 4 <= n <= 6 {
      assert CalIndex(n - 1, n) >= n;
    } else if n >= 11 {
      assert CalIndex(3, n) < 0;
    }
  }

  /** On the ten-segment wheel the remap is a rotation by seven segments ... */
  lemma CalIndexTen(w: int)
    requires 0 <= w < 10
    ensures CalIndex(w, 10) == (w + 7) % 10
    ensures (CalIndex(w, 10) + 3) % 10 == w
  {}

  /** ... and every segment is reported for exactly one winning index. */
  lemma CalIndexTenOnto(c: int)
    requires 0 <= c < 10
    ensures 0 <= (c + 3) % 10 < 10 && CalIndex((c + 3) % 10, 10) == c
  {}

  /** With 7 to 9 segments two winning indices report the same segment, so some segment is
      never reported. */
  lemma CalIndexCollides(n: int)
    requires 7 <= n <= 9
    ensures 0 < 2 * n - 10 < n && CalIndex(0, n) == CalIndex(2 * n - 10, n)
  {}

  /** `segments[calIndex]`, `undefined` (None) when the remapped index is out of range. */
  function Label(segments: seq<string>, w: int): (r: Option<string>)
    ensures var c := CalIndex(w, |segments|);
      (r.Some? <==> 0 <= c < |segments|) && (r.Some? ==> r.value == segments[c])
  {
    var c := CalIndex(w, |segments|);
    if 0 <= c < |segments| then Some(segments[c]) else None
  }

  /** What the newer wheel reports for a round. */
  function Outcome(segments: seq<string>, currentAngle: real, totalRotation: real): Option<string>
    requires |segments| > 0
  {
    Label(segments, WinningIndex(FinalAngle(currentAngle, totalRotation), |segments|))
  }

  /** On a wheel of 3 or of 7 to 10 segments every round reports a segment. */
  lemma OutcomeDefined(segments: seq<string>, currentAngle: real, totalRotation: real)
    requires |segments| == 3 || 7 <= |segments| <= 10
    ensures Outcome(segments, currentAngle, totalRotation).Some?
  {
    var w := WinningIndex(FinalAngle(currentAngle, totalRotation), |segments|);
    CalIndexInRangeExactly(|segments|);
    assert 0 <= CalIndex(w, |segments|) < |segments|;
  }

  /** Four segments, resting at 90 degrees: the pointer is over segment 3, which the remap
      sends out of range, so the round reports `undefined`. */
  lemma FourSegmentsAtNinety()
    ensures WinningIndex(90.0, 4) == 3
    ensures Label(["A", "B", "C", "D"], 3) == None
  {
    assert SegmentSize(4) == 90.0;
    RemOfSmall(315.0, 360.0);
    assert AdjustedAngle(90.0, 4) == 315.0;
    assert 315.0 / 90.0 == 3.5;
  }

  /** Ten segments: resting at 0 or at a full turn selects the same segment, index 0. */
  lemma TenSegmentsZeroAndFullTurn()
    ensures WinningIndex(0.0, 10) == 0 && WinningIndex(360.0, 10) == 0
  {
    assert SegmentSize(10) == 36.0;
    RemOfSmall(18.0, 360.0);
    assert AdjustedAngle(360.0, 10) == 18.0;
    RemAddMultiple(18.0, 360.0, 1);
    assert AdjustedAngle(0.0, 10) == 18.0;
    assert 18.0 / 36.0 == 0.5;
  }

  // ---- The older wheel (SpinWheel.tsx)

  /** `spinCount * 360 + Math.random() * 360`. */
  function LegacyTotalRotation(spinCount: int, r: real): (t: real)
    ensures 0 <= spinCount && 0.0 <= r < 1.0 ==> spinCount as real * 360.0 <= t < spinCount as real * 360.0 + 360.0
  {
    spinCount as real * 360.0 + r * 360.0
  }

  /** `Math.floor((360 - (finalAngle % 360)) / segmentSize) % segments.length`: always a
      segment index, for any angle. */
  function LegacyWinningIndex(finalAngle: real, n: nat): (w: int)
    requires n > 0
    ensures 0 <= w < n
  {
    var s := SegmentSize(n);
    var a := 360.0 - Rem(finalAngle, 360.0);
    FloorNonNegative(a, s);
    IntRem(Floor(a / s), n)
  }

  lemma IntRemOfSelf(n: int)
    requires n > 0
    ensures IntRem(n, n) == 0
  {}

  /** The inner `% 360` is redundant on the angle the older wheel computed at spin time. */
  lemma LegacyInnerRemRedundant(currentAngle: real, totalRotation: real)
    ensures Rem(FinalAngle(currentAngle, totalRotation), 360.0) == FinalAngle(currentAngle, totalRotation)
  {
    RemOfSmall(FinalAngle(currentAngle, totalRotation), 360.0);
  }

  /** Resting at 0 and resting at a full turn both select segment 0 (the outer `% n` wraps
      the index `n` that `360 / segmentSize` gives). */
  lemma LegacyZeroAndFullTurn(n: nat)
    requires n > 0
    ensures LegacyWinningIndex(0.0, n) == 0 && LegacyWinningIndex(360.0, n) == 0
  {
    var s := SegmentSize(n);
    assert Rem(0.0, 360.0) == 0.0;
    RemAddMultiple(0.0, 360.0, 1);
    assert Rem(360.0, 360.0) == 0.0;
    assert 360.0 / s == n as real;
    IntRemOfSelf(n);
  }

  /** For a resting angle strictly inside a turn, the older wheel selects the segment whose
      arc holds `360 - finalAngle`. */
  lemma LegacyIndexHoldsAngle(finalAngle: real, n: nat)
    requires n > 0 && 0.0 < finalAngle < 360.0
    ensures var s := SegmentSize(n); var w := LegacyWinningIndex(finalAngle, n);
      s * w as real <= 360.0 - finalAngle < s * w as real + s
  {
    var s := SegmentSize(n);
    RemOfSmall(finalAngle, 360.0);
    var a := 360.0 - finalAngle;
    FloorDivBounds(a, s);
    FloorInRange(a, s, n);
    IntRemOfSmall(Floor(a / s), n);
  }

  /** As for the newer wheel, the number of whole turns has no say in the result. */
  lemma LegacySpinCountIrrelevant(currentAngle: real, spinCount: nat, r: real, n: nat)
    requires n > 0 && currentAngle >= 0.0 && 0.0 <= r < 1.0
    ensures LegacyWinningIndex(FinalAngle(currentAngle, LegacyTotalRotation(spinCount, r)), n)
         == LegacyWinningIndex(FinalAngle(currentAngle, LegacyTotalRotation(0, r)), n)
  {
    assert LegacyTotalRotation(spinCount, r) == spinCount as real * 360.0 + LegacyTotalRotation(0, r);
    FinalAngleWholeTurns(currentAngle, LegacyTotalRotation(0, r), spinCount);
  }
}
