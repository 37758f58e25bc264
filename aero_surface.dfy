/** One aerodynamic surface (`AeroSurface`): the flap-angle clamp, the scalar
    preamble of the force computation, the lift/drag/torque coefficient curves
    and the regime dispatch between attached flow, stall and the blend between
    them. */
module Aero {
  import opened Wrappers
  import opened UnityMath
  import opened Vectors
  import opened SurfaceConfig

  /** Which pilot input drives a control surface. */
  datatype ControlInputType = Pitch | Yaw | Roll | Flap

  /** A force and the torque it exerts about the centre of mass. */
  datatype ForceTorque = ForceTorque(force: Vec3, torque: Vec3)

  const NoForce: ForceTorque := ForceTorque(Zero, Zero)

  /** The flap deflection limit, 50 degrees in radians. */
  const MaxFlapAngle: real := Deg2Rad * 50.0

  /** The value `SetFlapAngle` stores. */
  function ClampFlapAngle(angle: real): (r: real)
    ensures -MaxFlapAngle <= r <= MaxFlapAngle
    ensures -MaxFlapAngle <= angle <= MaxFlapAngle ==> r == angle
    ensures angle < -MaxFlapAngle ==> r == -MaxFlapAngle
    ensures angle > MaxFlapAngle ==> r == MaxFlapAngle
  {
    Clamp(angle, -Deg2Rad * 50.0, Deg2Rad * 50.0)
  }

  /** Clamping a clamped angle again changes nothing. */
  lemma ClampFlapAngleIdempotent(angle: real)
    ensures ClampFlapAngle(ClampFlapAngle(angle)) == ClampFlapAngle(angle)
  {
  }

  // ----- the finite-wing lift slope -----

  /** The lift slope corrected for a finite aspect ratio. At an aspect ratio of
      -2 the inner quotient is an infinity and single-precision arithmetic
      yields a zero slope, which is what the model returns there. */
  function CorrectedLiftSlope(liftSlope: real, aspectRatio: real): (r: real)
    ensures aspectRatio > 0.0 ==> (r > 0.0 <==> liftSlope > 0.0) && (r < 0.0 <==> liftSlope < 0.0)
  {
    if aspectRatio == -2.0 then 0.0
    else
      var inner := 2.0 * (aspectRatio + 4.0) / (aspectRatio + 2.0);
      SlopeDenominator(aspectRatio, inner);
      var r := liftSlope * aspectRatio / (aspectRatio + inner);
      KeepsSign(liftSlope, aspectRatio, aspectRatio + inner, r);
      r
  }

  /** A quotient `k * n / d` with positive `n` and `d` has the sign of `k`. */
  lemma KeepsSign(k: real, n: real, d: real, q: real)
    requires d != 0.0 && q == k * n / d
    ensures n > 0.0 && d > 0.0 ==> (q > 0.0 <==> k > 0.0) && (q < 0.0 <==> k < 0.0)
  {
    if n > 0.0 && d > 0.0 {
      var p := k * n;
      assert q * d == p;
      if k >= 0.0 { ProductSign(k, n, p); } else { ProductSign(-k, n, -p); }
      if q >= 0.0 { ProductSign(q, d, p); } else { ProductSign(-q, d, -p); }
    }
  }

  /** The denominator of the slope correction never vanishes, and it exceeds the
      aspect ratio when that is positive. */
  lemma SlopeDenominator(ar: real, inner: real)
    requires ar != -2.0 && inner == 2.0 * (ar + 4.0) / (ar + 2.0)
    ensures ar + inner != 0.0
    ensures ar > 0.0 ==> ar + inner > ar
  {
    QuotientTimesDivisor(2.0 * (ar + 4.0), ar + 2.0, inner);
    if ar + inner == 0.0 {
      var square := (ar + 2.0) * (ar + 2.0);
      SquareGap(ar, inner, square);
      ProductSign(ar + 2.0, ar + 2.0, square);
      assert false;
    }
    if ar > 0.0 {
      QuotientSign(2.0 * (ar + 4.0), ar + 2.0, inner);
    }
  }

  lemma QuotientTimesDivisor(n: real, d: real, q: real)
    requires d != 0.0 && q == n / d
    ensures q * d == n
  {
  }

  lemma SquareGap(ar: real, inner: real, square: real)
    requires inner * (ar + 2.0) == 2.0 * (ar + 4.0)
    requires ar + inner == 0.0
    requires square == (ar + 2.0) * (ar + 2.0)
    ensures square == -4.0
  {
    assert inner == -ar;
  }

  lemma QuotientSign(n: real, d: real, q: real)
    requires n > 0.0 && d > 0.0 && q == n / d
    ensures q > 0.0
  {
  }

  /** For a positive slope and aspect ratio the correction strictly reduces the
      slope without reversing it. */
  lemma CorrectedLiftSlopeBetween(liftSlope: real, aspectRatio: real)
    requires liftSlope > 0.0 && aspectRatio > 0.0
    ensures 0.0 < CorrectedLiftSlope(liftSlope, aspectRatio) < liftSlope
  {
    var inner := 2.0 * (aspectRatio + 4.0) / (aspectRatio + 2.0);
    SlopeDenominator(aspectRatio, inner);
    ScaledFraction(liftSlope, aspectRatio, aspectRatio + inner, liftSlope * aspectRatio / (aspectRatio + inner));
  }

  lemma ScaledFraction(k: real, n: real, d: real, r: real)
    requires k > 0.0 && 0.0 < n < d && r == k * n / d
    ensures 0.0 < r < k
  {
    assert r * d == k * n;
  }

  /** The corrected slope vanishes exactly when the slope or the aspect ratio
      does, or at the aspect ratio -2. */
  lemma CorrectedLiftSlopeZero(liftSlope: real, aspectRatio: real)
    ensures CorrectedLiftSlope(liftSlope, aspectRatio) == 0.0
      <==> liftSlope == 0.0 || aspectRatio == 0.0 || aspectRatio == -2.0
  {
    if aspectRatio != -2.0 {
      var inner := 2.0 * (aspectRatio + 4.0) / (aspectRatio + 2.0);
      SlopeDenominator(aspectRatio, inner);
      ZeroQuotient(liftSlope, aspectRatio, aspectRatio + inner, liftSlope * aspectRatio / (aspectRatio + inner));
    }
  }

  lemma ZeroQuotient(a: real, b: real, d: real, q: real)
    requires d != 0.0 && q == a * b / d
    ensures q == 0.0 <==> a == 0.0 || b == 0.0
  {
    assert q * d == a * b;
  }

  // ----- the clamped helper curves -----

  /** `FlapEffectivnessCorrection(f)`: falls from 0.8 at a deflection of 10 degrees
      to 0.4 at 60 degrees. The argument `f` is not used; the curve reads the
      surface's own flap angle, passed here as `flapAngle`. */
  function FlapEffectivnessCorrection(flapAngle: real, f: real): (r: real)
    ensures 0.4 <= r <= 0.8
    ensures Abs(flapAngle) * Rad2Deg <= 10.0 ==> r == 0.8
    ensures Abs(flapAngle) * Rad2Deg >= 60.0 ==> r == 0.4
  {
    Lerp(0.8, 0.4, (Abs(flapAngle) * Rad2Deg - 10.0) / 50.0)
  }

  /** The correction depends on the stored flap angle only. */
  lemma FlapCorrectionIgnoresArgument(flapAngle: real, f: real, g: real)
    ensures FlapEffectivnessCorrection(flapAngle, f) == FlapEffectivnessCorrection(flapAngle, g)
  {
  }

  /** The share of the flap's extra lift that raises the maximum lift coefficient:
      all of it up to a flap fraction of 0.1, half of it at 0.4. */
  function LiftCoefficientMaxFraction(flapFraction: real): (r: real)
    ensures 0.0 <= r <= 1.0
    ensures flapFraction <= 0.1 ==> r == 1.0
    ensures flapFraction <= 0.4 ==> r >= 0.5
    ensures flapFraction >= 0.7 ==> r == 0.0
  {
    Clamp01(1.0 - 0.5 * (flapFraction - 0.1) / 0.3)
  }

  /** The padding above the high stall angle over which attached flow blends into
      stall: 15 degrees at full negative flap, 5 degrees at full positive flap. */
  function PaddingAngleHigh(flapAngle: real): (r: real)
    ensures Deg2Rad * 5.0 <= r <= Deg2Rad * 15.0
  {
    Deg2Rad * Lerp(15.0, 5.0, (Rad2Deg * flapAngle + 50.0) / 100.0)
  }

  /** The padding below the low stall angle, the mirror image of the high one. */
  function PaddingAngleLow(flapAngle: real): (r: real)
    ensures Deg2Rad * 5.0 <= r <= Deg2Rad * 15.0
  {
    Deg2Rad * Lerp(15.0, 5.0, (-Rad2Deg * flapAngle + 50.0) / 100.0)
  }

  /** Within the deflection limits the two paddings always add up to 20 degrees:
      whatever a flap takes from one side it gives to the other. */
  lemma PaddingsShareTwentyDegrees(flapAngle: real)
    requires -MaxFlapAngle <= flapAngle <= MaxFlapAngle
    ensures PaddingAngleHigh(flapAngle) + PaddingAngleLow(flapAngle) == Deg2Rad * 20.0
  {
    var degrees := Rad2Deg * flapAngle;
    assert -50.0 <= degrees <= 50.0;
    var uHigh := (degrees + 50.0) / 100.0;
    var uLow := (-degrees + 50.0) / 100.0;
    assert Lerp(15.0, 5.0, uHigh) == 15.0 - 10.0 * uHigh;
    assert Lerp(15.0, 5.0, uLow) == 15.0 - 10.0 * uLow;
  }

  /** The share of the pitching moment arm: 0.075 of the chord at zero effective
      angle, a quarter chord at 90 degrees. */
  function TorqueCoefficientProportion(effectiveAngle: real): (r: real)
    ensures r >= 0.075
    ensures Abs(effectiveAngle) <= PI / 2.0 ==> r <= 0.25
    ensures effectiveAngle == 0.0 ==> r == 0.075
  {
    0.25 - 0.175 * (1.0 - 2.0 * Abs(effectiveAngle) / PI)
  }

  /** The normal-force coefficient of a flat plate at 90 degrees, as a quadratic in
      the flap angle. Over the deflections the clamp allows it stays between 1.7642
      and 2.1309. */
  function FrictionAt90Degrees(flapAngle: real): (r: real)
    ensures -MaxFlapAngle <= flapAngle <= MaxFlapAngle ==> 1.7642 <= r <= 2.1309
  {
    var square := flapAngle * flapAngle;
    FrictionRange(flapAngle, square);
    1.98 - 0.0426 * square + 0.21 * flapAngle
  }

  /** The numeric range of the quadratic over the flap limits, from its values at
      the two limits. */
  lemma FrictionRange(f: real, square: real)
    requires square == f * f
    ensures -MaxFlapAngle <= f <= MaxFlapAngle ==> 1.7642 <= 1.98 - 0.0426 * square + 0.21 * f <= 2.1309
  {
    if -MaxFlapAngle <= f <= MaxFlapAngle {
      var limitSquare := MaxFlapAngle * MaxFlapAngle;
      assert 0.7615 <= limitSquare <= 0.7616;
      QuadraticGap(f, MaxFlapAngle, square, limitSquare, (MaxFlapAngle - f) * (0.21 - 0.0426 * (f + MaxFlapAngle)));
      QuadraticGap(-MaxFlapAngle, f, limitSquare, square, (f + MaxFlapAngle) * (0.21 - 0.0426 * (f - MaxFlapAngle)));
      ProductSign(MaxFlapAngle - f, 0.21 - 0.0426 * (f + MaxFlapAngle), (MaxFlapAngle - f) * (0.21 - 0.0426 * (f + MaxFlapAngle)));
      ProductSign(f + MaxFlapAngle, 0.21 - 0.0426 * (f - MaxFlapAngle), (f + MaxFlapAngle) * (0.21 - 0.0426 * (f - MaxFlapAngle)));
    }
  }

  /** The difference of the quadratic's non-constant part between `x` and `y`,
      factored. */
  lemma QuadraticGap(x: real, y: real, squareX: real, squareY: real, gap: real)
    requires squareX == x * x && squareY == y * y
    requires gap == (y - x) * (0.21 - 0.0426 * (x + y))
    ensures gap == (0.21 * y - 0.0426 * squareY) - (0.21 * x - 0.0426 * squareX)
  {
  }

  /** The coefficient grows with the flap angle across the whole deflection range:
      the quadratic's vertex lies beyond the limits. */
  lemma FrictionAt90DegreesIncreasing(x: real, y: real)
    requires -MaxFlapAngle <= x <= y <= MaxFlapAngle
    ensures FrictionAt90Degrees(x) <= FrictionAt90Degrees(y)
  {
    var gap := (y - x) * (0.21 - 0.0426 * (x + y));
    QuadraticGap(x, y, x * x, y * y, gap);
    ProductSign(y - x, 0.21 - 0.0426 * (x + y), gap);
  }

  /** Within the flap limits the coefficient lies between its values at the two
      limits, which it reaches there. */
  lemma FrictionAt90DegreesBounds(flapAngle: real)
    requires -MaxFlapAngle <= flapAngle <= MaxFlapAngle
    ensures FrictionAt90Degrees(-MaxFlapAngle) <= FrictionAt90Degrees(flapAngle) <= FrictionAt90Degrees(MaxFlapAngle)
  {
    FrictionAt90DegreesIncreasing(-MaxFlapAngle, flapAngle);
    FrictionAt90DegreesIncreasing(flapAngle, MaxFlapAngle);
  }

  // ----- the flap-adjusted stall band -----

  /** The share of the section lift a plain flap of the given chord fraction
      produces (thin-airfoil theory). `Mathf.Acos` is NaN outside [-1, 1], so a
      flap fraction outside [0, 1] gives a non-finite value. With the textbook
      values of `acos` and `sin` at the ends, a flap of no chord is ineffective
      and a flap of the whole chord is fully effective. */
  function FlapEffectiveness(lib: MathLib, flapFraction: real): (r: Option<real>)
    ensures r.Some? <==> 0.0 <= flapFraction <= 1.0
    ensures flapFraction == 0.0 && lib.acos(-1.0) == PI && lib.sin(PI) == 0.0 ==> r == Some(0.0)
    ensures flapFraction == 1.0 && lib.acos(1.0) == 0.0 && lib.sin(0.0) == 0.0 ==> r == Some(1.0)
  {
    var cosine := 2.0 * flapFraction - 1.0;
    if cosine < -1.0 || cosine > 1.0 then None
    else
      var theta := lib.acos(cosine);
      Some(1.0 - (theta - lib.sin(theta)) / PI)
  }

  /** The angle (radians) by which the flap lowers the zero-lift angle of attack:
      the flap's extra lift expressed as an angle on the corrected slope. It is
      non-finite exactly when the flap effectiveness is, and an undeflected flap
      shifts nothing. */
  function FlapShift(lib: MathLib, cfg: Config, flapAngle: real): (r: Option<real>)
    ensures r.Some? <==> 0.0 <= cfg.flapFraction <= 1.0
    ensures r.Some? && flapAngle == 0.0 ==> r.value == 0.0
  {
    var effectiveness := FlapEffectiveness(lib, cfg.flapFraction);
    if effectiveness.None? then None
    else Some(effectiveness.value * FlapEffectivnessCorrection(flapAngle, flapAngle) * flapAngle)
  }

  /** The linear-lift regime of a surface with a given flap setting: the corrected
      slope and the flap-shifted zero-lift and stall angles, in radians. */
  datatype Band = Band(correctedLiftSlope: real, zeroLiftAngleOfAttack: real, stallAngleHigh: real, stallAngleLow: real)

  /** The scalar preamble of the force computation. A zero corrected slope makes
      the quotients by that slope non-finite (`None`), and so does a flap fraction
      outside [0, 1], whose `acos` is NaN. Otherwise the zero-lift angle moves down
      by the flap shift, the high stall angle keeps its configured distance above
      the zero-lift angle plus the retained share of the shift, and the band keeps
      its configured width. */
  function StallBand(lib: MathLib, cfg: Config, flapAngle: real): (r: Option<Band>)
    ensures r.Some? <==> 0.0 <= cfg.flapFraction <= 1.0 && CorrectedLiftSlope(cfg.liftSlope, cfg.aspectRatio) != 0.0
    ensures r.Some? ==>
      var shift := FlapShift(lib, cfg, flapAngle).value;
      && r.value.correctedLiftSlope == CorrectedLiftSlope(cfg.liftSlope, cfg.aspectRatio)
      && r.value.zeroLiftAngleOfAttack == cfg.zeroLiftAngleOfAttack * Deg2Rad - shift
      && r.value.stallAngleHigh - r.value.zeroLiftAngleOfAttack
         == (cfg.stallAngleHigh - cfg.zeroLiftAngleOfAttack) * Deg2Rad
            + LiftCoefficientMaxFraction(cfg.flapFraction) * shift
      && r.value.stallAngleHigh - r.value.stallAngleLow == (cfg.stallAngleHigh - cfg.stallAngleLow) * Deg2Rad
  {
    var correctedLiftSlope := CorrectedLiftSlope(cfg.liftSlope, cfg.aspectRatio);
    var shift := FlapShift(lib, cfg, flapAngle);
    if correctedLiftSlope == 0.0 || shift.None? then None
    else
      Some(BandFrom(correctedLiftSlope, shift.value, cfg.zeroLiftAngleOfAttack * Deg2Rad,
        cfg.stallAngleHigh * Deg2Rad, cfg.stallAngleLow * Deg2Rad, LiftCoefficientMaxFraction(cfg.flapFraction)))
  }

  /** A validated configuration has its flap fraction in [0, 0.4], so its band is
      finite exactly when its corrected slope is non-zero. */
  lemma InRangeBandFinite(lib: MathLib, cfg: Config, flapAngle: real)
    requires InRange(cfg)
    ensures StallBand(lib, cfg, flapAngle).Some? <==> CorrectedLiftSlope(cfg.liftSlope, cfg.aspectRatio) != 0.0
  {
  }

  /** The band built from the corrected slope, the flap shift, the configured
      angles in radians (`...Base`) and the share `fraction` of the flap's extra
      lift that raises the maximum lift coefficient. The extra lift
      `deltaLift` is the slope times the shift (the source multiplies the same
      four factors left to right). The zero-lift angle drops by the shift, each
      stall angle keeps its configured distance above the zero-lift angle plus the
      retained share of the shift, and so the band keeps its configured width. */
  function BandFrom(correctedLiftSlope: real, shift: real, zeroLiftBase: real,
                    stallHighBase: real, stallLowBase: real, fraction: real): (r: Band)
    requires correctedLiftSlope != 0.0
    ensures r.correctedLiftSlope == correctedLiftSlope
    ensures r.zeroLiftAngleOfAttack == zeroLiftBase - shift
    ensures r.stallAngleHigh - r.zeroLiftAngleOfAttack == stallHighBase - zeroLiftBase + fraction * shift
    ensures r.stallAngleLow - r.zeroLiftAngleOfAttack == stallLowBase - zeroLiftBase + fraction * shift
    ensures r.stallAngleHigh - r.stallAngleLow == stallHighBase - stallLowBase
  {
    var deltaLift := correctedLiftSlope * shift;
    var retained := shift * fraction;
    var clMaxHigh := correctedLiftSlope * (stallHighBase - zeroLiftBase) + deltaLift * fraction;
    var clMaxLow := correctedLiftSlope * (stallLowBase - zeroLiftBase) + deltaLift * fraction;
    CancelFactor(correctedLiftSlope, shift, deltaLift);
    ShareOfProduct(correctedLiftSlope, shift, fraction, deltaLift, deltaLift * fraction);
    CancelSum(correctedLiftSlope, stallHighBase - zeroLiftBase, retained, clMaxHigh);
    CancelSum(correctedLiftSlope, stallLowBase - zeroLiftBase, retained, clMaxLow);
    var zeroLift := zeroLiftBase - deltaLift / correctedLiftSlope;
    Band(correctedLiftSlope, zeroLift, zeroLift + clMaxHigh / correctedLiftSlope,
      zeroLift + clMaxLow / correctedLiftSlope)
  }

  lemma CancelFactor(k: real, x: real, p: real)
    requires k != 0.0 && p == k * x
    ensures p / k == x
  {
  }

  lemma ShareOfProduct(k: real, x: real, y: real, p: real, q: real)
    requires p == k * x && q == p * y
    ensures q == k * (x * y)
  {
  }

  lemma CancelSum(k: real, x: real, y: real, total: real)
    requires k != 0.0 && total == k * x + k * y
    ensures total / k == x + y
  {
    assert total == k * (x + y);
  }

  /** Without flap deflection the band is the configured one, converted from
      degrees to radians. */
  lemma StallBandWithoutFlap(lib: MathLib, cfg: Config)
    requires 0.0 <= cfg.flapFraction <= 1.0 && CorrectedLiftSlope(cfg.liftSlope, cfg.aspectRatio) != 0.0
    ensures StallBand(lib, cfg, 0.0) == Some(Band(CorrectedLiftSlope(cfg.liftSlope, cfg.aspectRatio),
      cfg.zeroLiftAngleOfAttack * Deg2Rad, cfg.stallAngleHigh * Deg2Rad, cfg.stallAngleLow * Deg2Rad))
  {
    assert FlapShift(lib, cfg, 0.0) == Some(0.0);
  }

  // ----- the coefficient regimes -----

  /** The three flow regimes, the blend being entered on the high or the low side. */
  datatype Regime = Attached | Stalled | BlendHigh | BlendLow

  /** The dispatch of `CalculateCoefficients`. The stall test compares the angle of
      attack with the padding widths themselves, not with the padded stall angles. */
  function SelectRegime(angleOfAttack: real, stallAngleHigh: real, stallAngleLow: real,
                        paddingAngleHigh: real, paddingAngleLow: real): (r: Regime)
    ensures r == Attached <==> stallAngleLow < angleOfAttack < stallAngleHigh
    ensures r == Stalled <==> (!(stallAngleLow < angleOfAttack < stallAngleHigh)
      && (angleOfAttack > paddingAngleHigh || angleOfAttack < paddingAngleLow))
    ensures (r == BlendHigh || r == BlendLow) <==> (!(stallAngleLow < angleOfAttack < stallAngleHigh)
      && paddingAngleLow <= angleOfAttack <= paddingAngleHigh)
    ensures r == BlendHigh ==> stallAngleHigh < angleOfAttack
    ensures r == BlendLow ==> (angleOfAttack <= stallAngleHigh
      && (angleOfAttack == stallAngleHigh || angleOfAttack <= stallAngleLow))
  {
    if angleOfAttack < stallAngleHigh && angleOfAttack > stallAngleLow then Attached
    else if angleOfAttack > paddingAngleHigh || angleOfAttack < paddingAngleLow then Stalled
    else if angleOfAttack > stallAngleHigh then BlendHigh
    else BlendLow
  }

  /** Because the paddings are between 5 and 15 degrees, the blend is only ever
      reached at angles of attack between 5 and 15 degrees, and never on the high
      side once the high stall angle is 15 degrees or more. */
  lemma BlendOnlyBetweenPaddings(angleOfAttack: real, stallAngleHigh: real, stallAngleLow: real, flapAngle: real)
    ensures var r := SelectRegime(angleOfAttack, stallAngleHigh, stallAngleLow,
                                  PaddingAngleHigh(flapAngle), PaddingAngleLow(flapAngle));
      && ((r == BlendHigh || r == BlendLow) ==> Deg2Rad * 5.0 <= angleOfAttack <= Deg2Rad * 15.0)
      && (stallAngleHigh >= Deg2Rad * 15.0 ==> r != BlendHigh)
      && (r == BlendLow ==> angleOfAttack == stallAngleHigh || Deg2Rad * 5.0 <= stallAngleLow)
  {
  }

  /** The induced angle of attack of a finite wing: the angle that, times pi and
      the aspect ratio, gives back the lift coefficient. */
  function InducedAngle(cfg: Config, liftCoefficient: real): (r: real)
    requires cfg.aspectRatio != 0.0
    ensures r * (PI * cfg.aspectRatio) == liftCoefficient
    ensures liftCoefficient == 0.0 ==> r == 0.0
  {
    liftCoefficient / (PI * cfg.aspectRatio)
  }

  /** The effective angle of attack in attached flow: the angle above zero lift,
      reduced by the induced angle, which is the share slope / (pi * aspectRatio)
      of it. */
  function AttachedEffectiveAngle(cfg: Config, angleOfAttack: real, correctedLiftSlope: real, zeroLiftAngleOfAttack: real): (r: real)
    requires cfg.aspectRatio != 0.0
    ensures r == (angleOfAttack - zeroLiftAngleOfAttack) * (1.0 - correctedLiftSlope / (PI * cfg.aspectRatio))
  {
    var liftCoefficient := correctedLiftSlope * (angleOfAttack - zeroLiftAngleOfAttack);
    InducedShare(angleOfAttack - zeroLiftAngleOfAttack, correctedLiftSlope, PI * cfg.aspectRatio, liftCoefficient);
    angleOfAttack - zeroLiftAngleOfAttack - InducedAngle(cfg, liftCoefficient)
  }

  lemma InducedShare(d: real, slope: real, k: real, liftCoefficient: real)
    requires k != 0.0 && liftCoefficient == slope * d
    ensures d - liftCoefficient / k == d * (1.0 - slope / k)
  {
    var share := slope / k;
    assert share * k == slope;
    var product := d * share;
    assert product * k == liftCoefficient;
    assert liftCoefficient / k == product;
  }

  /** Lift, drag and torque coefficients in attached flow. The lift coefficient is
      linear in the angle of attack; the result is non-finite when the aspect
      ratio is zero or the effective angle has a zero cosine. */
  function AttachedCoefficients(lib: MathLib, cfg: Config, angleOfAttack: real,
                                correctedLiftSlope: real, zeroLiftAngleOfAttack: real): (r: Option<Vec3>)
    ensures r.Some? <==> (cfg.aspectRatio != 0.0
      && lib.cos(AttachedEffectiveAngle(cfg, angleOfAttack, correctedLiftSlope, zeroLiftAngleOfAttack)) != 0.0)
    ensures r.Some? ==> r.value.x == correctedLiftSlope * (angleOfAttack - zeroLiftAngleOfAttack)
  {
    if cfg.aspectRatio == 0.0 then None
    else
      var liftCoefficient := correctedLiftSlope * (angleOfAttack - zeroLiftAngleOfAttack);
      var effectiveAngle := AttachedEffectiveAngle(cfg, angleOfAttack, correctedLiftSlope, zeroLiftAngleOfAttack);
      var sin, cos := lib.sin(effectiveAngle), lib.cos(effectiveAngle);
      if cos == 0.0 then None
      else
        var tangentialCoefficient := cfg.skinFriction * cos;
        var normalCoefficient := (liftCoefficient + sin * tangentialCoefficient) / cos;
        var dragCoefficient := normalCoefficient * sin + tangentialCoefficient * cos;
        var torqueCoefficient := -normalCoefficient * TorqueCoefficientProportion(effectiveAngle);
        Some(Vec3(liftCoefficient, dragCoefficient, torqueCoefficient))
  }

  /** The lerp factor for the stall induced angle: 1 at the stall angle, 0 at
      plus or minus 90 degrees. A zero denominator follows single precision. */
  function StallInducedFactor(angleOfAttack: real, stallAngleHigh: real, stallAngleLow: real): (r: Option<real>)
    ensures r.Some? ==> 0.0 <= r.value <= 1.0
    ensures angleOfAttack > stallAngleHigh && stallAngleHigh < PI / 2.0 ==> r.Some?
    ensures angleOfAttack <= stallAngleHigh && stallAngleLow > -PI / 2.0 ==> r.Some?
    ensures angleOfAttack > stallAngleHigh && angleOfAttack >= PI / 2.0 && stallAngleHigh != PI / 2.0 ==> r == Some(0.0)
    ensures angleOfAttack <= stallAngleHigh && angleOfAttack <= -PI / 2.0 && stallAngleLow != -PI / 2.0 ==> r == Some(0.0)
    ensures angleOfAttack <= stallAngleHigh && angleOfAttack == stallAngleLow && -PI / 2.0 < stallAngleLow <= PI / 2.0
      ==> r == Some(1.0)
  {
    var clamped := Clamp(angleOfAttack, -PI / 2.0, PI / 2.0);
    if angleOfAttack > stallAngleHigh then
      FactorTowardsHigh(PI / 2.0, angleOfAttack, stallAngleHigh, clamped);
      Quotient01(PI / 2.0 - clamped, PI / 2.0 - stallAngleHigh)
    else
      FactorTowardsLow(PI / 2.0, angleOfAttack, stallAngleLow, clamped);
      Quotient01(-PI / 2.0 - clamped, -PI / 2.0 - stallAngleLow)
  }

  /** The high-side factor, with `half` standing for a quarter turn. */
  lemma FactorTowardsHigh(half: real, angleOfAttack: real, stallAngleHigh: real, clamped: real)
    requires half > 0.0 && clamped == Clamp(angleOfAttack, -half, half)
    ensures stallAngleHigh < half ==> Quotient01(half - clamped, half - stallAngleHigh).Some?
    ensures angleOfAttack >= half && stallAngleHigh != half ==> Quotient01(half - clamped, half - stallAngleHigh) == Some(0.0)
  {
  }

  /** The low-side factor, with `half` standing for a quarter turn. */
  lemma FactorTowardsLow(half: real, angleOfAttack: real, stallAngleLow: real, clamped: real)
    requires half > 0.0 && clamped == Clamp(angleOfAttack, -half, half)
    ensures stallAngleLow > -half ==> Quotient01(-half - clamped, -half - stallAngleLow).Some?
    ensures angleOfAttack <= -half && stallAngleLow != -half ==> Quotient01(-half - clamped, -half - stallAngleLow) == Some(0.0)
    ensures angleOfAttack == stallAngleLow && -half < stallAngleLow <= half ==> Quotient01(-half - clamped, -half - stallAngleLow) == Some(1.0)
  {
    if angleOfAttack == stallAngleLow && -half < stallAngleLow <= half {
      assert -half <= angleOfAttack <= half;
      assert clamped == stallAngleLow;
      SelfQuotient(-half - stallAngleLow);
    }
  }

  lemma SelfQuotient(d: real)
    requires d != 0.0
    ensures d / d == 1.0
  {
  }

  /** The induced angle in stalled flow: the full induced angle at the stall
      angle, fading linearly to none at plus or minus 90 degrees. */
  function StallInducedAngle(angleOfAttack: real, stallAngleHigh: real, stallAngleLow: real, full: real): (r: Option<real>)
    ensures r.Some? ==> (0.0 <= r.value <= full || full <= r.value <= 0.0)
    ensures angleOfAttack > stallAngleHigh && stallAngleHigh < PI / 2.0 ==> r.Some?
    ensures angleOfAttack <= stallAngleHigh && stallAngleLow > -PI / 2.0 ==> r.Some?
    ensures angleOfAttack > stallAngleHigh && angleOfAttack >= PI / 2.0 && stallAngleHigh != PI / 2.0 ==> r == Some(0.0)
    ensures angleOfAttack <= stallAngleHigh && angleOfAttack <= -PI / 2.0 && stallAngleLow != -PI / 2.0 ==> r == Some(0.0)
    ensures angleOfAttack <= stallAngleHigh && angleOfAttack == stallAngleLow && -PI / 2.0 < stallAngleLow <= PI / 2.0
      ==> r == Some(full)
  {
    var factor := StallInducedFactor(angleOfAttack, stallAngleHigh, stallAngleLow);
    if factor.None? then None else Some(Lerp(0.0, full, factor.value))
  }

  /** Lift, drag and torque coefficients in stalled flow, from the normal force of
      a flat plate. */
  function StallCoefficients(lib: MathLib, cfg: Config, flapAngle: real, angleOfAttack: real, band: Band): (r: Option<Vec3>)
    ensures r.Some? <==> (cfg.aspectRatio != 0.0
      && StallInducedFactor(angleOfAttack, band.stallAngleHigh, band.stallAngleLow).Some?)
  {
    if cfg.aspectRatio == 0.0 then None
    else
      var stallAngle := if angleOfAttack > band.stallAngleHigh then band.stallAngleHigh else band.stallAngleLow;
      var liftCoefficientLowAngleOfAttack := band.correctedLiftSlope * (stallAngle - band.zeroLiftAngleOfAttack);
      var full := InducedAngle(cfg, liftCoefficientLowAngleOfAttack);
      var induced := StallInducedAngle(angleOfAttack, band.stallAngleHigh, band.stallAngleLow, full);
      if induced.None? then None
      else
        var effectiveAngle := angleOfAttack - band.zeroLiftAngleOfAttack - induced.value;
        var sin, cos := lib.sin(effectiveAngle), lib.cos(effectiveAngle);
        var normalCoefficient := FrictionAt90Degrees(flapAngle) * sin
          * (1.0 / (0.56 + 0.44 * Abs(sin)) - 0.41 * (1.0 - lib.exp(-17.0 / cfg.aspectRatio)));
        var tangentialCoefficient := 0.5 * cfg.skinFriction * cos;
        var liftCoefficient := normalCoefficient * cos - tangentialCoefficient * sin;
        var dragCoefficient := normalCoefficient * sin + tangentialCoefficient * cos;
        var torqueCoefficient := -normalCoefficient * TorqueCoefficientProportion(effectiveAngle);
        Some(Vec3(liftCoefficient, dragCoefficient, torqueCoefficient))
  }

  /** `Vector3.Lerp` of two coefficient vectors, non-finite if either is. */
  function Blend(low: Option<Vec3>, stall: Option<Vec3>, t: real): (r: Option<Vec3>)
    ensures r.Some? <==> low.Some? && stall.Some?
    ensures r.Some? ==> Between(low.value, r.value, stall.value)
    ensures r.Some? && t <= 0.0 ==> r.value == low.value
  {
    if low.Some? && stall.Some? then Some(Lerp3(low.value, stall.value, t)) else None
  }

  /** `CalculateCoefficients`: attached flow inside the band, stall beyond the
      paddings, and in between a blend from the attached coefficients at the
      stall angle to the stalled ones at the padded stall angle. The low side
      reuses the high side's blend factor, which is never positive there, so the
      low-side "blend" is the attached coefficients at the low stall angle. */
  function CalculateCoefficients(lib: MathLib, cfg: Config, flapAngle: real, angleOfAttack: real, band: Band): (r: Option<Vec3>)
    ensures var paddingHigh, paddingLow := PaddingAngleHigh(flapAngle), PaddingAngleLow(flapAngle);
      var regime := SelectRegime(angleOfAttack, band.stallAngleHigh, band.stallAngleLow, paddingHigh, paddingLow);
      var cs, zl := band.correctedLiftSlope, band.zeroLiftAngleOfAttack;
      && (regime == Attached ==> r == AttachedCoefficients(lib, cfg, angleOfAttack, cs, zl))
      && (regime == Stalled ==> r == StallCoefficients(lib, cfg, flapAngle, angleOfAttack, band))
      && (regime == BlendHigh ==>
            var low := AttachedCoefficients(lib, cfg, band.stallAngleHigh, cs, zl);
            var stall := StallCoefficients(lib, cfg, flapAngle, band.stallAngleHigh + paddingHigh, band);
            && (r.Some? <==> low.Some? && stall.Some?)
            && (r.Some? ==> Between(low.value, r.value, stall.value)))
      && (regime == BlendLow ==>
            var low := AttachedCoefficients(lib, cfg, band.stallAngleLow, cs, zl);
            var stall := StallCoefficients(lib, cfg, flapAngle, band.stallAngleLow - paddingLow, band);
            r == if low.Some? && stall.Some? then low else None)
  {
    var paddingAngleHigh := PaddingAngleHigh(flapAngle);
    var paddingAngleLow := PaddingAngleLow(flapAngle);
    var paddedStallAngleHigh := band.stallAngleHigh + paddingAngleHigh;
    var paddedStallAngleLow := band.stallAngleLow - paddingAngleLow;
    var cs, zl := band.correctedLiftSlope, band.zeroLiftAngleOfAttack;
    match SelectRegime(angleOfAttack, band.stallAngleHigh, band.stallAngleLow, paddingAngleHigh, paddingAngleLow)
    case Attached => AttachedCoefficients(lib, cfg, angleOfAttack, cs, zl)
    case Stalled => StallCoefficients(lib, cfg, flapAngle, angleOfAttack, band)
    case BlendHigh =>
      Blend(AttachedCoefficients(lib, cfg, band.stallAngleHigh, cs, zl),
            StallCoefficients(lib, cfg, flapAngle, paddedStallAngleHigh, band),
            (angleOfAttack - band.stallAngleHigh) / (paddedStallAngleHigh - band.stallAngleHigh))
    case BlendLow =>
      var t := (angleOfAttack - band.stallAngleHigh) / (paddedStallAngleHigh - band.stallAngleHigh);
      QuotientNonPositive(angleOfAttack - band.stallAngleHigh, paddedStallAngleHigh - band.stallAngleHigh, t);
      Blend(AttachedCoefficients(lib, cfg, band.stallAngleLow, cs, zl),
            StallCoefficients(lib, cfg, flapAngle, paddedStallAngleLow, band), t)
  }

  lemma QuotientNonPositive(n: real, d: real, q: real)
    requires n <= 0.0 && d > 0.0 && q == n / d
    ensures q <= 0.0
  {
  }

  // ----- the surface -----

  /** The air velocity in the surface's own frame with the span-wise (z) part
      dropped: `InverseTransformDirection` by the surface's rotation. */
  function LocalAirVelocity(rotation: Quat, worldAirVelocity: Vec3): (r: Vec3)
    ensures r.z == 0.0
    ensures worldAirVelocity == Zero ==> r == Zero
  {
    var local := Rotate(Inverse(rotation), worldAirVelocity);
    Vec3(local.x, local.y, 0.0)
  }

  /** The three aerodynamic loads on a surface, in the world frame. */
  datatype Loads = Loads(lift: Vec3, drag: Vec3, pitching: Vec3)

  /** The loads for the coefficients `c` (lift, drag, torque): each coefficient
      times the dynamic pressure and the area along its direction, the pitching
      torque also times the chord, about the negative forward axis. Without
      dynamic pressure there is no load. */
  function ScaleLoads(c: Vec3, liftDirection: Vec3, dragDirection: Vec3, forward: Vec3,
                      dynamicPressure: real, area: real, chord: real): (r: Loads)
    ensures dynamicPressure == 0.0 ==> r == Loads(Zero, Zero, Zero)
  {
    Loads(Scale(Scale(Scale(liftDirection, c.x), dynamicPressure), area),
          Scale(Scale(Scale(dragDirection, c.y), dynamicPressure), area),
          Scale(Scale(Scale(Scale(Neg(forward), c.z), dynamicPressure), area), chord))
  }

  /** The loads of an active, configured surface with the given configuration,
      flap angle and rotation, for the given world air velocity and air density.
      Non-finite when the stall band or the coefficients are; still air exerts
      no load. */
  function Aerodynamics(lib: MathLib, cfg: Config, flapAngle: real, rotation: Quat,
                        worldAirVelocity: Vec3, airDensity: real): (r: Option<Loads>)
    ensures StallBand(lib, cfg, flapAngle).None? ==> r.None?
    ensures worldAirVelocity == Zero && r.Some? ==> r.value == Loads(Zero, Zero, Zero)
  {
    var band := StallBand(lib, cfg, flapAngle);
    if band.None? then None
    else
      var airVelocity := LocalAirVelocity(rotation, worldAirVelocity);
      var forward := Rotate(rotation, Forward);
      var dragDirection := Rotate(rotation, Normalized(lib, airVelocity));
      var liftDirection := Cross(dragDirection, forward);
      var area := cfg.chord * cfg.span;
      var dynamicPressure := 0.5 * airDensity * SqrMagnitude(airVelocity);
      StillAirPressure(rotation, airDensity);
      var angleOfAttack := lib.atan2(airVelocity.y, -airVelocity.x);
      var coefficients := CalculateCoefficients(lib, cfg, flapAngle, angleOfAttack, band.value);
      if coefficients.None? then None
      else Some(ScaleLoads(coefficients.value, liftDirection, dragDirection, forward, dynamicPressure, area, cfg.chord))
  }

  /** Still air has no dynamic pressure, whatever the surface's rotation. */
  lemma StillAirPressure(rotation: Quat, airDensity: real)
    ensures 0.5 * airDensity * SqrMagnitude(LocalAirVelocity(rotation, Zero)) == 0.0
  {
    assert LocalAirVelocity(rotation, Zero) == Zero;
  }

  /** The force and torque of the loads with lever arm `relativePosition`: the
      force is lift plus drag, the torque the force's moment about the centre of
      mass plus the pitching torque. The moment is perpendicular to the lever arm,
      so about the arm's own axis only the pitching torque acts; a surface at the
      centre of mass exerts only its pitching torque. */
  function Resultant(loads: Loads, relativePosition: Vec3): (r: ForceTorque)
    ensures Dot(relativePosition, r.torque) == Dot(relativePosition, loads.pitching)
    ensures relativePosition == Zero ==> r.torque == loads.pitching
    ensures loads == Loads(Zero, Zero, Zero) ==> r == NoForce
  {
    var force := Add(loads.lift, loads.drag);
    ArmTorque(relativePosition, force, loads.pitching);
    ForceTorque(force, Add(Cross(relativePosition, force), loads.pitching))
  }

  /** About the lever arm's own axis the force's moment vanishes. */
  lemma ArmTorque(arm: Vec3, force: Vec3, pitching: Vec3)
    ensures Dot(arm, Add(Cross(arm, force), pitching)) == Dot(arm, pitching)
  {
    var moment := Cross(arm, force);
    CrossPerpendicular(arm, force);
    DotLinear(arm, moment, pitching);
  }

  /** A surface of the aircraft. Its configuration asset, control role and input
      multiplier are set up in the editor; its flap angle is driven at run time. */
  class AeroSurface {
    const config: Option<Config>
    const isControlSurface: bool
    const inputType: ControlInputType
    const inputMultiplyer: real
    var flapAngle: real
    /** `gameObject.activeInHierarchy`. */
    var activeInHierarchy: bool
    /** The world pose of the surface's transform. */
    var position: Vec3
    var rotation: Quat

    constructor(config: Option<Config>, isControlSurface: bool, inputType: ControlInputType,
                inputMultiplyer: real, activeInHierarchy: bool, position: Vec3, rotation: Quat)
      ensures this.config == config && this.isControlSurface == isControlSurface
      ensures this.inputType == inputType && this.inputMultiplyer == inputMultiplyer
      ensures this.activeInHierarchy == activeInHierarchy
      ensures this.position == position && this.rotation == rotation
      ensures flapAngle == 0.0
    {
      this.config := config;
      this.isControlSurface := isControlSurface;
      this.inputType := inputType;
      this.inputMultiplyer := inputMultiplyer;
      this.activeInHierarchy := activeInHierarchy;
      this.position := position;
      this.rotation := rotation;
      flapAngle := 0.0;
    }

    /** Stores the angle clamped to plus or minus 50 degrees. */
    method SetFlapAngle(angle: real)
      modifies this`flapAngle
      ensures flapAngle == ClampFlapAngle(angle)
    {
      flapAngle := ClampFlapAngle(angle);
    }

    /** The force and torque this surface exerts for the given world air velocity,
        air density and lever arm from the centre of mass. An inactive or
        unconfigured surface exerts nothing, and in still air a surface exerts
        nothing either unless its coefficients are non-finite. */
    function Forces(lib: MathLib, worldAirVelocity: Vec3, airDensity: real, relativePosition: Vec3): (r: Option<ForceTorque>)
      reads this
      ensures !activeInHierarchy || config.None? ==> r == Some(NoForce)
      ensures activeInHierarchy && config.Some? && StallBand(lib, config.value, flapAngle).None? ==> r.None?
      ensures worldAirVelocity == Zero ==> r.None? || r == Some(NoForce)
    {
      if !activeInHierarchy || config.None? then Some(NoForce)
      else
        var loads := Aerodynamics(lib, config.value, flapAngle, rotation, worldAirVelocity, airDensity);
        if loads.None? then None else Some(Resultant(loads.value, relativePosition))
    }

    /** `CalculateForces`: accumulates the lift and drag into a zero force, and the
        force's moment and the pitching torque into a zero torque. */
    method CalculateForces(lib: MathLib, worldAirVelocity: Vec3, airDensity: real, relativePosition: Vec3)
      returns (r: Option<ForceTorque>)
      ensures r == Forces(lib, worldAirVelocity, airDensity, relativePosition)
    {
      var force := Zero;
      var torque := Zero;
      if !activeInHierarchy || config.None? {
        return Some(ForceTorque(force, torque));
      }
      var loads := Aerodynamics(lib, config.value, flapAngle, rotation, worldAirVelocity, airDensity);
      if loads.None? {
        return None;
      }
      force := Add(force, Add(loads.value.lift, loads.value.drag));
      torque := Add(torque, Cross(relativePosition, force));
      torque := Add(torque, loads.value.pitching);
      r := Some(ForceTorque(force, torque));
    }
  }
}
