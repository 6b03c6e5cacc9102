/** The joint-limit primitive of the Jacobian solver (class AngleRange in MyJacobianSolver.cs):
    an allowed interval of angles in degrees, stored as a lower bound wrapped into [-180, 180)
    and a width, with a clamp operation. Angles are reals; the float rounding of the source is
    not modelled. */
module AngleRanges {

  /** x has no fractional part. */
  predicate IsWhole(x: real)
  {
    x.Floor as real == x
  }

  /** Mathf.Abs. */
  function Abs(x: real): real
  {
    if x < 0.0 then -x else x
  }

  /** Mathf.Repeat(t, length): t wrapped into [0, length) by subtracting a whole number of
      lengths. (The engine's final clamp to [0, length] only guards against float rounding
      and is the identity over the reals.) */
  function Repeat(t: real, length: real): (r: real)
    requires length > 0.0
    ensures 0.0 <= r < length
    ensures IsWhole((t - r) / length)
  {
    var k := (t / length).Floor;
    assert k as real * length <= t < (k + 1) as real * length by {
      FloorScaled(t, length, k);
    }
    assert (t - (t - k as real * length)) / length == k as real;
    t - k as real * length
  }

  /** Multiplying the floor inequalities of t / length by length > 0. */
  lemma FloorScaled(t: real, length: real, k: int)
    requires length > 0.0 && k == (t / length).Floor
    ensures k as real * length <= t < (k + 1) as real * length
  {
    var q := t / length;
    assert q * length == t;
    assert k as real <= q < k as real + 1.0;
    MulMonotone(k as real, q, length);
    MulMonotoneStrict(q, k as real + 1.0, length);
    assert t < (k as real + 1.0) * length;
    assert (k + 1) as real == k as real + 1.0;
  }

  lemma MulMonotone(a: real, b: real, c: real)
    requires a <= b && c > 0.0
    ensures a * c <= b * c
  {
  }

  lemma MulMonotoneStrict(a: real, b: real, c: real)
    requires a < b && c > 0.0
    ensures a * c < b * c
  {
  }

  /** Repeat(degree + 180, 360) - 180: the angle wrapped into [-180, 180), the form in which
      AngleRange stores its lower bound and compares its argument. */
  function Normalize(degree: real): (r: real)
    ensures -180.0 <= r < 180.0
    ensures IsWhole((degree - r) / 360.0)
  {
    var t := Repeat(degree + 180.0, 360.0);
    assert (degree - (t - 180.0)) / 360.0 == (degree + 180.0 - t) / 360.0;
    t - 180.0
  }

  /** Normalize returns THE representative of the angle's class modulo 360 in [-180, 180):
      any such representative is its result. */
  lemma {:induction false} NormalizeUnique(degree: real, y: real)
    requires -180.0 <= y < 180.0 && IsWhole((degree - y) / 360.0)
    ensures Normalize(degree) == y
  {
    var r := Normalize(degree);
    var a := ((degree - y) / 360.0).Floor;
    var b := ((degree - r) / 360.0).Floor;
    assert degree - y == a as real * 360.0;
    assert degree - r == b as real * 360.0;
    assert r - y == (a - b) as real * 360.0;
    assert -360.0 < r - y < 360.0;
    if a - b >= 1 {
      MulMonotone(1.0, (a - b) as real, 360.0);
      assert false;
    } else if a - b <= -1 {
      MulMonotone((a - b) as real, -1.0, 360.0);
      assert false;
    }
  }

  /** An angle already in [-180, 180) is left as it is. */
  lemma NormalizeCanonical(degree: real)
    requires -180.0 <= degree < 180.0
    ensures Normalize(degree) == degree
  {
    assert (degree - degree) / 360.0 == 0.0;
    NormalizeUnique(degree, degree);
  }

  /** Adding whole turns does not change the normalised angle. */
  lemma NormalizePeriodic(degree: real, turns: int)
    ensures Normalize(degree + turns as real * 360.0) == Normalize(degree)
  {
    var r := Normalize(degree);
    var k := ((degree - r) / 360.0).Floor;
    assert degree - r == k as real * 360.0;
    assert (degree + turns as real * 360.0 - r) / 360.0 == (k + turns) as real;
    NormalizeUnique(degree + turns as real * 360.0, r);
  }

  /** An allowed interval [base, base + range] of angles in degrees. */
  datatype AngleRange = AngleRange(base: real, range: real)
  {
    /** Check: wrap the argument into [-180, 180); keep it when it lies in [base, base + range],
        otherwise return whichever bound is nearer in plain linear distance (ties go to base).
        There is no wrap-around handling: distances are not taken modulo 360. */
    function Check(degree: real): (r: real)
      ensures var n := Normalize(degree);
              0.0 <= n - base <= range ==> r == n
      ensures var n := Normalize(degree);
              !(0.0 <= n - base <= range) ==>
                (r == base + range && Abs(n - (base + range)) < Abs(n - base)) ||
                (r == base && Abs(n - base) <= Abs(n - (base + range)))
      ensures range >= 0.0 ==> base <= r <= base + range
      ensures range >= 0.0 && -180.0 <= base < 180.0 ==> -180.0 <= r < 180.0
    {
      var n := Normalize(degree);
      var diff := n - base;
      if diff < 0.0 || diff > range then
        if Abs(diff) > Abs(diff - range) then range + base else base
      else
        n
    }
  }

  /** new AngleRange(min, max): width max - min, lower bound min wrapped into [-180, 180). */
  function FromLimits(min: real, max: real): (r: AngleRange)
    ensures r.range == max - min
    ensures -180.0 <= r.base < 180.0
    ensures IsWhole((min - r.base) / 360.0)
  {
    AngleRange(Normalize(min), max - min)
  }

  /** min x max, as an independent reference for Check. */
  function Clamp(x: real, lo: real, hi: real): real
  {
    if x < lo then lo else if x > hi then hi else x
  }

  /** For a non-negative width Check is exactly a clamp of the normalised angle: below the
      interval it returns the lower bound, above it the upper bound. */
  lemma CheckIsClamp(ar: AngleRange, degree: real)
    requires ar.range >= 0.0
    ensures ar.Check(degree) == Clamp(Normalize(degree), ar.base, ar.base + ar.range)
  {
  }

  /** Only the normalised argument matters: whole turns added to the input change nothing. */
  lemma CheckPeriodic(ar: AngleRange, degree: real, turns: int)
    ensures ar.Check(degree + turns as real * 360.0) == ar.Check(degree)
  {
    NormalizePeriodic(degree, turns);
  }

  /** For a range built from limits min <= max, a second Check leaves the result as it is. */
  lemma CheckIdempotent(min: real, max: real, degree: real)
    requires min <= max
    ensures var ar := FromLimits(min, max); ar.Check(ar.Check(degree)) == ar.Check(degree)
  {
    var ar := FromLimits(min, max);
    var r := ar.Check(degree);
    NormalizeCanonical(r);
  }

  /** A joint with neither limit flag gets new AngleRange(-180, 180), whose Check is pure
      normalisation. */
  lemma UnlimitedCheckNormalizes(degree: real)
    ensures FromLimits(-180.0, 180.0) == AngleRange(-180.0, 360.0)
    ensures FromLimits(-180.0, 180.0).Check(degree) == Normalize(degree)
  {
    NormalizeCanonical(-180.0);
  }

  /** No wrap-around: with limits 170..190 the input 190, which is the upper limit itself
      (normalised to -170), is clamped to 170. */
  lemma WrappedUpperLimitClampedToLower()
    ensures FromLimits(170.0, 190.0).Check(190.0) == 170.0
  {
    NormalizeCanonical(170.0);
    assert IsWhole((190.0 - (-170.0)) / 360.0);
    NormalizeUnique(190.0, -170.0);
  }

  /** Nearest is linear, not angular: with limits -170..-150 the input 175 lies 15 degrees from
      -170 across the wrap but 35 degrees from -150, and Check returns -150. */
  lemma NearestBoundIsLinear()
    ensures FromLimits(-170.0, -150.0).Check(175.0) == -150.0
  {
    NormalizeCanonical(-170.0);
    NormalizeCanonical(175.0);
  }

  /** With inverted limits (min > max) Check is not idempotent. */
  lemma InvertedLimitsNotIdempotent()
    ensures FromLimits(-100.0, -200.0).Check(-170.0) == -200.0
    ensures FromLimits(-100.0, -200.0).Check(-200.0) == -100.0
  {
    NormalizeCanonical(-100.0);
    NormalizeCanonical(-170.0);
    assert IsWhole((-200.0 - 160.0) / 360.0);
    NormalizeUnique(-200.0, 160.0);
  }
}
