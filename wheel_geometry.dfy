/**
 * The arithmetic of the prize wheel: which slice each participant occupies, and
 * the absolute rotation a spin aims for so that the fixed pointer on the left of
 * the wheel comes to rest inside the winner's slice.
 *
 * Angles are degrees, measured clockwise from the top of the unrotated wheel,
 * and are modelled as exact reals. A wheel turned by `rot` degrees (CSS
 * `rotate(rot deg)`, clockwise) shows its own angle `a` at screen angle `a + rot`.
 */
module WheelGeometry {

  /** The pointer is mounted on the left side of the wheel. */
  const PointerAngle: real := 270.0
  /** A spin makes `MinExtraTurns + floor(r * ExtraTurnChoices)` full turns. */
  const MinExtraTurns: int := 12
  const ExtraTurnChoices: real := 8.0
  /** The random offset spans this fraction of a slice, centred on the slice middle. */
  const OffsetSpread: real := 0.8

  /** A value `Math.random()` can return. */
  predicate IsUnitRandom(r: real) {
    0.0 <= r < 1.0
  }

  // ---------------------------------------------------------------------
  // Real arithmetic helpers
  // ---------------------------------------------------------------------

  /** `Math.trunc`: JavaScript's `%` takes the quotient rounded toward zero. */
  function Trunc(x: real): int {
    if x >= 0.0 then x.Floor else -((-x).Floor)
  }

  /** JavaScript's `x % 360` on a number. */
  function JsMod360(x: real): real {
    x - 360.0 * Trunc(x / 360.0) as real
  }

  /** For a non-negative angle, JavaScript's `%` is the ordinary reduction into [0, 360). */
  lemma JsMod360NonNegative(x: real)
    requires x >= 0.0
    ensures 0.0 <= JsMod360(x) < 360.0
    ensures JsMod360(x) == x - 360.0 * (x / 360.0).Floor as real
  {
  }

  /** The representative of an angle in [0, 360). */
  function Normalize(x: real): (y: real)
    ensures 0.0 <= y < 360.0
  {
    x - 360.0 * (x / 360.0).Floor as real
  }

  /** Whole turns do not change where an angle points. */
  lemma NormalizeWholeTurns(x: real, m: int)
    requires 0.0 <= x < 360.0
    ensures Normalize(x + 360.0 * m as real) == x
  {
    var y := x + 360.0 * m as real;
    assert y / 360.0 == x / 360.0 + m as real;
    assert (y / 360.0).Floor == m;
  }

  lemma MulLeft(a: real, b: real, c: real)
    requires a <= b && c >= 0.0
    ensures a * c <= b * c
  {
  }

  lemma MulLeftStrict(a: real, b: real, c: real)
    requires a < b && c > 0.0
    ensures a * c < b * c
  {
  }

  lemma DivTimes(a: real, d: real)
    requires d != 0.0
    ensures (a / d) * d == a
  {
  }

  lemma MulCancel(x: real, y: real, d: real)
    requires d != 0.0 && x * d == y * d
    ensures x == y
  {
    assert (x - y) * d == 0.0;
  }

  /** Dividing by a positive number keeps the bounds of a product. */
  lemma QuotientBounds(a: real, d: real, lo: real, hi: real)
    requires d > 0.0 && lo * d <= a < hi * d
    ensures lo <= a / d < hi
  {
    DivTimes(a, d);
    assert (a / d - lo) * d >= 0.0;
    assert (hi - a / d) * d > 0.0;
  }

  // ---------------------------------------------------------------------
  // Slice layout
  // ---------------------------------------------------------------------

  /** `360 / n`: the width of one of `n` equal slices. */
  function SliceAngle(n: nat): (a: real)
    requires n > 0
    ensures 0.0 < a <= 360.0
    ensures a * n as real == 360.0
  {
    360.0 / n as real
  }

  /** `(i * 360) / n`: where slice `i` of `n` begins. */
  function SliceStart(i: nat, n: nat): real
    requires n > 0
  {
    (i as real * 360.0) / n as real
  }

  /** `((i + 1) * 360) / n`: where slice `i` of `n` ends. */
  function SliceEnd(i: nat, n: nat): real
    requires n > 0
  {
    ((i + 1) as real * 360.0) / n as real
  }

  /** `(startAngle + endAngle) / 2`: where the label of slice `i` sits. */
  function MidAngle(i: nat, n: nat): real
    requires n > 0
  {
    (SliceStart(i, n) + SliceEnd(i, n)) / 2.0
  }

  /** `(winnerIndex + 0.5) * sliceAngle`: where the spin aims within the winner's slice. */
  function SliceCenter(k: nat, n: nat): real
    requires n > 0
  {
    (k as real + 0.5) * SliceAngle(n)
  }

  /** `(j * 360) / n` is `j` slice widths. */
  lemma ScaledSlice(j: real, n: nat)
    requires n > 0
    ensures (j * 360.0) / n as real == j * SliceAngle(n)
  {
    var d := n as real;
    DivTimes(360.0, d);
    DivTimes(j * 360.0, d);
    assert (j * SliceAngle(n)) * d == j * (SliceAngle(n) * d);
    MulCancel((j * 360.0) / d, j * SliceAngle(n), d);
  }

  /** Slice `i` spans `i` to `i + 1` slice widths. */
  lemma SliceBounds(i: nat, n: nat)
    requires n > 0
    ensures SliceStart(i, n) == i as real * SliceAngle(n)
    ensures SliceEnd(i, n) == (i + 1) as real * SliceAngle(n)
  {
    ScaledSlice(i as real, n);
    ScaledSlice((i + 1) as real, n);
  }

  /** The label's mid-angle in the drawing is exactly the point the spin aims for. */
  lemma MidAngleIsSliceCenter(i: nat, n: nat)
    requires n > 0
    ensures MidAngle(i, n) == SliceCenter(i, n)
  {
    SliceBounds(i, n);
  }

  /** The slices run from 0 to 360 degrees, each one starting where the previous ends. */
  lemma SlicesTile(n: nat)
    requires n > 0
    ensures SliceStart(0, n) == 0.0
    ensures SliceEnd(n - 1, n) == 360.0
    ensures forall i :: 0 <= i < n ==> SliceStart(i, n) < SliceEnd(i, n)
    ensures forall i :: 0 <= i < n - 1 ==> SliceEnd(i, n) == SliceStart(i + 1, n)
  {
    forall i | 0 <= i < n ensures SliceStart(i, n) < SliceEnd(i, n) {
      SliceBounds(i, n);
    }
  }

  /** Slices do not overlap: an angle lies in at most one of them. */
  lemma SlicesDisjoint(a: real, j: nat, k: nat, n: nat)
    requires n > 0 && j < n && k < n
    requires SliceStart(j, n) <= a < SliceEnd(j, n)
    requires SliceStart(k, n) <= a < SliceEnd(k, n)
    ensures j == k
  {
    SliceBounds(j, n);
    SliceBounds(k, n);
    var sa := SliceAngle(n);
    QuotientBounds(a, sa, j as real, (j + 1) as real);
    QuotientBounds(a, sa, k as real, (k + 1) as real);
  }

  /** The index of the slice that contains wheel angle `a`. */
  function SliceAt(a: real, n: nat): int
    requires n > 0
  {
    (a / SliceAngle(n)).Floor
  }

  /** Every angle of a turn lies in the slice `SliceAt` names. */
  lemma SliceAtContains(a: real, n: nat)
    requires n > 0 && 0.0 <= a < 360.0
    ensures 0 <= SliceAt(a, n) < n
    ensures SliceStart(SliceAt(a, n), n) <= a < SliceEnd(SliceAt(a, n), n)
  {
    var sa := SliceAngle(n);
    var q := a / sa;
    var k := q.Floor;
    QuotientBounds(a, sa, 0.0, n as real);
    DivTimes(a, sa);
    MulLeft(k as real, q, sa);
    MulLeftStrict(q, (k + 1) as real, sa);
    SliceBounds(k as nat, n);
  }

  /** An angle strictly inside slice `k` decodes back to `k`. */
  lemma SliceAtInside(a: real, k: nat, n: nat)
    requires n > 0 && k < n
    requires SliceStart(k, n) < a < SliceEnd(k, n)
    ensures SliceAt(a, n) == k
  {
    SliceBounds(k, n);
    QuotientBounds(a, SliceAngle(n), k as real, (k + 1) as real);
  }

  // ---------------------------------------------------------------------
  // The spin
  // ---------------------------------------------------------------------

  /** `Math.floor(r * n)`: the winner's position in the pool of `n` names. */
  function PickIndex(r: real, n: nat): (k: nat)
    requires IsUnitRandom(r) && n > 0
    ensures k < n
  {
    MulLeft(0.0, r, n as real);
    MulLeftStrict(r, 1.0, n as real);
    (r * n as real).Floor
  }

  /** `12 + Math.floor(r * 8)` full turns. */
  function ExtraTurns(r: real): (t: int)
    requires IsUnitRandom(r)
    ensures MinExtraTurns <= t <= MinExtraTurns + 7
  {
    MinExtraTurns + (r * ExtraTurnChoices).Floor
  }

  /** `(Math.random() - 0.5) * (sliceAngle * 0.8)`. */
  function RandomOffset(r: real, n: nat): real
    requires n > 0
  {
    (r - 0.5) * (SliceAngle(n) * OffsetSpread)
  }

  /** The offset stays within 0.4 slice widths of the centre: less than half a slice. */
  lemma RandomOffsetBound(r: real, n: nat)
    requires IsUnitRandom(r) && n > 0
    ensures -0.4 * SliceAngle(n) <= RandomOffset(r, n) < 0.4 * SliceAngle(n)
    ensures -144.0 <= RandomOffset(r, n) < 144.0
  {
    var w := SliceAngle(n) * OffsetSpread;
    MulLeft(-0.5, r - 0.5, w);
    MulLeftStrict(r - 0.5, 0.5, w);
  }

  /** `270 - sliceCenter`: the unrotated-frame turn that brings the slice centre to the pointer. */
  function TargetBase(k: nat, n: nat): real
    requires n > 0
  {
    PointerAngle - SliceCenter(k, n)
  }

  /**
   * `wheelRotation + extraSpins + (targetBase - wheelRotation % 360) + randomOffset`:
   * the absolute rotation the wheel animates to when slot `k` of `n` wins.
   */
  function FinalRotation(rot: real, n: nat, k: nat, rTurns: real, rOffset: real): real
    requires n > 0 && k < n && IsUnitRandom(rTurns)
  {
    rot + (ExtraTurns(rTurns) * 360) as real + (TargetBase(k, n) - JsMod360(rot)) + RandomOffset(rOffset, n)
  }

  /** The angle of the wheel's own frame that sits under the pointer when the wheel is turned by `rot`. */
  function AngleUnderPointer(rot: real): real {
    Normalize(PointerAngle - rot)
  }

  /** The aim point of slot `k` lies strictly inside slice `k`, away from both edges. */
  lemma AimInsideSlice(k: nat, n: nat, rOffset: real)
    requires n > 0 && k < n && IsUnitRandom(rOffset)
    ensures SliceStart(k, n) < SliceCenter(k, n) - RandomOffset(rOffset, n) < SliceEnd(k, n)
    ensures 0.0 < SliceCenter(k, n) - RandomOffset(rOffset, n) < 360.0
  {
    SliceBounds(k, n);
    RandomOffsetBound(rOffset, n);
    MulLeft(0.0, k as real, SliceAngle(n));
    MulLeft((k + 1) as real, n as real, SliceAngle(n));
  }

  /**
   * The spin's outcome, decoded from where the wheel comes to rest: for a
   * non-negative starting rotation, the final rotation differs from the aim
   * point by whole turns only, the pointer rests strictly inside slice `k`,
   * and reading the slice under the pointer gives back `k`.
   */
  lemma PointerLandsInWinnerSlice(rot: real, n: nat, k: nat, rTurns: real, rOffset: real)
    requires rot >= 0.0 && n > 0 && k < n
    requires IsUnitRandom(rTurns) && IsUnitRandom(rOffset)
    ensures var f := FinalRotation(rot, n, k, rTurns, rOffset);
            (f - (TargetBase(k, n) + RandomOffset(rOffset, n))) / 360.0
              == (ExtraTurns(rTurns) + (rot / 360.0).Floor) as real
    ensures var a := AngleUnderPointer(FinalRotation(rot, n, k, rTurns, rOffset));
            SliceStart(k, n) < a < SliceEnd(k, n) && SliceAt(a, n) == k
  {
    var f := FinalRotation(rot, n, k, rTurns, rOffset);
    var turns := ExtraTurns(rTurns) + (rot / 360.0).Floor;
    var aim := SliceCenter(k, n) - RandomOffset(rOffset, n);
    JsMod360NonNegative(rot);
    assert f == TargetBase(k, n) + RandomOffset(rOffset, n) + 360.0 * turns as real;
    assert PointerAngle - f == aim + 360.0 * (-turns) as real;
    AimInsideSlice(k, n, rOffset);
    NormalizeWholeTurns(aim, -turns);
    SliceAtInside(aim, k, n);
  }

  /** The wheel only ever turns forward: a spin ends past where it started. */
  lemma SpinMovesForward(rot: real, n: nat, k: nat, rTurns: real, rOffset: real)
    requires rot >= 0.0 && n > 0 && k < n
    requires IsUnitRandom(rTurns) && IsUnitRandom(rOffset)
    ensures FinalRotation(rot, n, k, rTurns, rOffset) > rot + 3600.0
  {
    JsMod360NonNegative(rot);
    AimInsideSlice(k, n, rOffset);
    RandomOffsetBound(rOffset, n);
  }
}
