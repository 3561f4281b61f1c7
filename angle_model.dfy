/** The gauge's fixed-point angle: a value in 0..range is drawn as an angle of
    0..27000 hundredths of a degree along the 270-degree arc. */
module AngleModel {
  import opened KotlinInt

  /** 270.00 degrees, in hundredths of a degree. */
  const FULL_SWEEP: int := 27_000

  /** The largest range for which value * FULL_SWEEP fits a Kotlin `Int` for every value in 0..range. */
  const LARGEST_SAFE_RANGE: int := 79_536

  predicate IsAngle(a: int) {
    0 <= a <= FULL_SWEEP
  }

  /** calculateCentiDegreeAngle with its product computed exactly; the gauge uses this one.
      On a configured gauge it is the whole number of hundredths of a degree covered by
      value's share of the range; before setup (range -1) it negates the product. */
  function CentiDegreeAngle(value: int, range: int): (angle: int)
    requires range != 0
    ensures range > 0 && value >= 0 ==> angle * range <= value * FULL_SWEEP < (angle + 1) * range
    ensures range == -1 ==> angle == -(value * FULL_SWEEP)
  {
    Div(value * FULL_SWEEP, range)
  }

  /** calculateCentiDegreeAngle as the source computes it: the product is a Kotlin `Int` and
      wraps. While the product fits an `Int` it is the exact angle. */
  function CentiDegreeAngleAsWritten(value: int, range: int): (angle: int)
    requires range != 0
    ensures IsInt32(value * FULL_SWEEP) ==> angle == CentiDegreeAngle(value, range)
  {
    Div(Wrap32(value * FULL_SWEEP), range)
  }

  // ---------------------------------------------------------------------------
  // Division facts used below

  lemma MulBounds(k: int, d: int)
    requires 0 < d
    ensures k >= 1 ==> k * d >= d
    ensures k <= -1 ==> k * d <= -d
  {
  }

  /** A quotient and remainder that satisfy the division equation are the ones `/` gives. */
  lemma DivUnique(x: int, d: int, q: int, r: int)
    requires 0 < d && x == q * d + r && 0 <= r < d
    ensures x / d == q
  {
    var q' := x / d;
    assert (q - q') * d == q * d - q' * d;
    MulBounds(q - q', d);
  }

  lemma DivMonotone(a: int, b: int, d: int)
    requires 0 <= a <= b && 0 < d
    ensures a / d <= b / d
  {
    var qa, qb := a / d, b / d;
    assert (qa - qb) * d == qa * d - qb * d;
    MulBounds(qa - qb, d);
  }

  lemma DivBelow(x: int, d: int, k: int)
    requires 0 <= x && 0 < d && x < k * d
    ensures x / d < k
  {
  }

  lemma DivExact(k: int, d: int)
    requires 0 < d
    ensures (k * d) / d == k
  {
    DivUnique(k * d, d, k, 0);
  }

  lemma DivShift(x: int, d: int)
    requires 0 <= x && 0 < d
    ensures (x + d) / d == x / d + 1
  {
    assert x + d == (x / d + 1) * d + x % d;
    DivUnique(x + d, d, x / d + 1, x % d);
  }

  // ---------------------------------------------------------------------------
  // Properties of the angle

  /** For a configured gauge the angle of a value in 0..range lies on the arc,
      starts at 0 and reaches the full sweep exactly at range. */
  lemma AngleBounds(value: int, range: int)
    requires 1 <= range && 0 <= value <= range
    ensures IsAngle(CentiDegreeAngle(value, range))
    ensures value == 0 ==> CentiDegreeAngle(value, range) == 0
    ensures value == range ==> CentiDegreeAngle(value, range) == FULL_SWEEP
  {
    DivMonotone(value * FULL_SWEEP, range * FULL_SWEEP, range);
    DivExact(FULL_SWEEP, range);
    assert range * FULL_SWEEP == FULL_SWEEP * range;
  }

  /** A larger value never gets a smaller angle. */
  lemma AngleMonotone(v1: int, v2: int, range: int)
    requires 1 <= range && 0 <= v1 <= v2
    ensures CentiDegreeAngle(v1, range) <= CentiDegreeAngle(v2, range)
  {
    DivMonotone(v1 * FULL_SWEEP, v2 * FULL_SWEEP, range);
  }

  /** Only when range is at most 27000 does every step of the value move the angle. */
  lemma AngleStrictlyMonotone(v1: int, v2: int, range: int)
    requires 1 <= range <= FULL_SWEEP && 0 <= v1 < v2
    ensures CentiDegreeAngle(v1, range) < CentiDegreeAngle(v2, range)
  {
    var x := v1 * FULL_SWEEP;
    assert x + range <= v2 * FULL_SWEEP;
    DivMonotone(x + range, v2 * FULL_SWEEP, range);
    DivShift(x, range);
  }

  /** Beyond 27000 two different levels can share an angle. */
  lemma TruncationMergesNeighbours()
    ensures CentiDegreeAngle(1, 100_000) == CentiDegreeAngle(2, 100_000) == 0
  {
  }

  /** The arc is full exactly when the value is the top of the range. */
  lemma AngleFullSweepIff(value: int, range: int)
    requires 1 <= range && 0 <= value <= range
    ensures CentiDegreeAngle(value, range) == FULL_SWEEP <==> value == range
  {
    AngleBounds(value, range);
    if value < range {
      assert value * FULL_SWEEP < FULL_SWEEP * range;
      DivBelow(value * FULL_SWEEP, range, FULL_SWEEP);
    }
  }

  /** Before the first successful setup range is -1, so the angle is a division by -1. */
  lemma AngleBeforeSetup()
    ensures CentiDegreeAngle(-1, -1) == FULL_SWEEP
    ensures CentiDegreeAngle(0, -1) == 0
  {
  }

  // ---------------------------------------------------------------------------
  // The 32-bit product

  /** Up to LARGEST_SAFE_RANGE the source's Int arithmetic gives the exact angle. */
  lemma AsWrittenAgreesUpToSafeRange(value: int, range: int)
    requires 1 <= range <= LARGEST_SAFE_RANGE && 0 <= value <= range
    ensures CentiDegreeAngleAsWritten(value, range) == CentiDegreeAngle(value, range)
  {
    assert value * FULL_SWEEP <= LARGEST_SAFE_RANGE * FULL_SWEEP;
  }

  /** One above it, the top value wraps to a negative angle instead of the full sweep. */
  lemma AsWrittenOverflowsAboveSafeRange()
    ensures CentiDegreeAngleAsWritten(LARGEST_SAFE_RANGE + 1, LARGEST_SAFE_RANGE + 1) == -26_999
    ensures CentiDegreeAngle(LARGEST_SAFE_RANGE + 1, LARGEST_SAFE_RANGE + 1) == FULL_SWEEP
  {
  }
}
