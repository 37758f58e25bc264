# Verified model of a Unity flight model's force core

This project models the force core of a small Unity flight simulator and proves properties of the model in Dafny. The model is written over the reals. It covers six parts:

- **AeroSurface.** An aerodynamic surface (a wing section or control surface) stores a clamped flap angle. Every physics step it turns the air flowing over it into a force and a torque. For that it:
  - corrects the lift slope for the finite wing;
  - shifts the zero-lift and stall angles by the flap deflection;
  - classifies the angle of attack into attached flow, stall, or a blend between them;
  - scales the resulting coefficients into lift, drag and pitching torque.
- **AeroSurfaceSO.** The surface's configuration asset is validated in the editor. Validation clamps the flap fraction and the stall angles and derives the aspect ratio.
- **AircraftPhysics, the sum.** The aircraft sums the force and torque of all its surfaces. Each surface sees the air velocity −velocity + wind − ω × r, where r is the surface's position relative to the centre of mass. The same r is the lever arm of the torque.
- **AircraftPhysics, the prediction.** It predicts the velocity and the angular velocity half a physics step ahead and recomputes the loads there.
- **AircraftPhysics, the applied loads.** It applies the mean of the current and the predicted loads. The engine thrust is applied separately.
- **PlaneController.** The pilot controller dispatches the stick inputs to the control surfaces according to each surface's input type. It flips the throttle, the flaps and the brakes with three keys.

Floats are modelled as `real`:
- `Mathf.PI` is its single-precision value written out as a decimal.
- `acos`, `sin`, `cos`, `atan2`, `exp` and `sqrt` are fields of a `MathLib` value that the model passes around, so they stay uninterpreted.
- `None` stands for NaN or infinity, but only where it comes from a division by zero, from `Mathf.Acos` of a number outside [−1, 1], or from values derived from those (such as 0/0). Overflow is not modelled: `exp` of a large argument, large products and a large dynamic pressure stay finite.
- `Mathf.Lerp`, `Vector3.Lerp` and `Mathf.Clamp01` clamp their parameter to [0, 1], as Unity defines them.

Files:
- `wrappers.dfy`: `Option`.
- `unity_math.dfy`: Unity's scalar helpers.
- `vectors.dfy`: vectors, quaternions and the rotation of a vector.
- `surface_config.dfy`: the configuration asset and its validation.
- `aero_surface.dfy`: one surface.
- `aircraft_physics.dfy`: the sum and the predictor-corrector step.
- `plane_controller.dfy`: the controller.

Quirks of the code that the model keeps:
- **The stall test.** It compares the angle of attack with the padding widths, not with the padded stall angles (`Assets/Scripts/AeroSurface.cs:101`). `Aero.BlendOnlyBetweenPaddings` proves a consequence: the blend is only reached between 5 and 15 degrees.
- **The low-side blend.** It reuses the high side's lerp parameter (`Assets/Scripts/AeroSurface.cs:121`). That parameter is never positive there, so the low-side blend always yields the attached coefficients at the low stall angle. `Aero.CalculateCoefficients` states this.
- **`FlapEffectivnessCorrection`.** It ignores its argument and reads the surface's flap angle.
- **The aspect ratio.** `OnValidate` does not reject an aspect ratio ≤ 0, so a zero aspect ratio reaches the force computation, where the model gives `None`.
- **The flap fraction.** `OnValidate` clamps it to [0, 0.4] only in the editor; the field is public. A flap fraction outside [0, 1] makes `Mathf.Acos` at `Assets/Scripts/AeroSurface.cs:41` NaN, and then the whole stall band is non-finite. `Aero.StallBand` and `Aero.FlapEffectiveness` state this.

## Model

| member | source | states |
|---|---|---|
| UnityMath.Clamp | Assets/Scripts/AeroSurface.cs:25 | `Mathf.Clamp` tests the lower bound first: within ordered bounds the result lies between them, is the value when that is in range, and is the nearest bound otherwise |
| UnityMath.Clamp01 | Assets/Scripts/AeroSurface.cs:200 | `Mathf.Clamp01` lies in [0, 1], keeps a value already there, and gives 0 at or below 0 and 1 at or above 1 |
| UnityMath.Lerp | Assets/Scripts/AeroSurface.cs:195 | `Mathf.Lerp` stays between its endpoints and equals them once the parameter reaches 0 or 1 |
| UnityMath.Quotient01 | Assets/Scripts/AeroSurface.cs:163-167 | a clamped quotient is in [0, 1]; it is non-finite only for 0/0 and otherwise equals `Clamp01(num / den)` |
| Vectors.Normalized | Assets/Scripts/AeroSurface.cs:59 | above the 1e-5 magnitude threshold the normalized vector scaled by the magnitude gives back the vector; at or below it the result is the zero vector |
| Vectors.Lerp3 | Assets/Scripts/AeroSurface.cs:124 | `Vector3.Lerp` lies componentwise between its endpoints and is an endpoint at parameter ≤ 0 or ≥ 1 |
| Vectors.CrossPerpendicular | Assets/Scripts/AeroSurface.cs:73 | `Vector3.Cross` is perpendicular to both of its factors, so the force's moment has no component along the lever arm |
| Vectors.QMul | Assets/Scripts/AircraftPhysics.cs:66 | the Hamilton product has the identity rotation as a neutral element on either side |
| Vectors.Inverse | Assets/Scripts/AircraftPhysics.cs:67 | `Quaternion.Inverse` is the conjugate: its product with the quaternion on either side is the real quaternion |q|², and it keeps the norm |
| Vectors.Rotate | Assets/Scripts/AeroSurface.cs:57-59 | the identity rotation leaves a vector where it is, and no rotation moves the zero vector |
| Vectors.RotateInverse | Assets/Scripts/AircraftPhysics.cs:66-74 | for a unit quaternion, rotating by it and by its inverse undo each other in either order |
| Vectors.RotateScale | Assets/Scripts/AircraftPhysics.cs:73-74 | rotating a scaled vector is scaling the rotated vector |
| Vectors.RotateLinear | Assets/Scripts/AircraftPhysics.cs:73-74 | rotating a sum of vectors is the sum of the rotated vectors |
| Vectors.UnitColumns | Assets/Scripts/AircraftPhysics.cs:66-74 | the rotation matrix of a unit quaternion has orthonormal columns |
| SurfaceConfig.Validated | Assets/Scripts/AeroSurfaceSO.cs:22-63 | after validation: flap fraction in [0, 0.4], high stall ≥ 0, low stall ≤ 0; in-range fields kept; out-of-range ones at the nearest bound; aspect ratio = span/chord exactly when auto; the other five fields never written |
| SurfaceConfig.ValidatedIdempotent | Assets/Scripts/AeroSurfaceSO.cs:22-63 | validating twice gives the same record as validating once |
| SurfaceConfig.ValidatedFixesInRange | Assets/Scripts/AeroSurfaceSO.cs:26-49 | an in-range record without a derived aspect ratio is left unchanged |
| SurfaceConfig.DirtyExactlyWhenChanged | Assets/Scripts/AeroSurfaceSO.cs:24-62 | the dirty flag is always raised when the aspect ratio is derived; otherwise it is raised exactly when validation changes the record |
| SurfaceConfig.DefaultInRange | Assets/Scripts/AeroSurfaceSO.cs:10-19 | the initial field values are already in range, and validating them only derives an aspect ratio of 1 |
| SurfaceConfig.AeroSurfaceSO.constructor | Assets/Scripts/AeroSurfaceSO.cs:10-19 | a new asset holds the initial field values |
| SurfaceConfig.AeroSurfaceSO.OnValidate | Assets/Scripts/AeroSurfaceSO.cs:22-63 | the in-place clamping leaves the asset equal to the validated record and returns the dirty flag |
| Aero.ClampFlapAngle | Assets/Scripts/AeroSurface.cs:25 | the stored angle is within ±50° in radians, equals the argument when that is in range, and is the nearest limit otherwise |
| Aero.ClampFlapAngleIdempotent | Assets/Scripts/AeroSurface.cs:23-26 | clamping a clamped angle changes nothing |
| Aero.AeroSurface.SetFlapAngle | Assets/Scripts/AeroSurface.cs:23-26 | the flap angle field becomes the clamped argument; nothing else changes |
| Aero.AeroSurface.constructor | Assets/Scripts/AeroSurface.cs:16-21 | a surface starts with the given configuration, role and pose and a zero flap angle |
| Aero.CorrectedLiftSlope | Assets/Scripts/AeroSurface.cs:38-39 | for a positive aspect ratio the corrected slope has the sign of the section slope |
| Aero.SlopeDenominator | Assets/Scripts/AeroSurface.cs:38-39 | the denominator of the finite-wing correction never vanishes and exceeds a positive aspect ratio |
| Aero.CorrectedLiftSlopeBetween | Assets/Scripts/AeroSurface.cs:38-39 | for positive slope and aspect ratio the corrected slope is strictly between 0 and the slope |
| Aero.CorrectedLiftSlopeZero | Assets/Scripts/AeroSurface.cs:38-39 | the corrected slope is zero exactly when the slope or the aspect ratio is zero, or the aspect ratio is −2 |
| Aero.FlapEffectivnessCorrection | Assets/Scripts/AeroSurface.cs:193-196 | the correction is in [0.4, 0.8]: 0.8 up to 10° of deflection, 0.4 from 60° |
| Aero.FlapCorrectionIgnoresArgument | Assets/Scripts/AeroSurface.cs:193-196 | the correction does not depend on its argument, only on the stored flap angle |
| Aero.LiftCoefficientMaxFraction | Assets/Scripts/AeroSurface.cs:198-201 | the fraction is in [0, 1]: 1 for flap fraction ≤ 0.1, at least 0.5 up to 0.4, 0 from 0.7 |
| Aero.PaddingAngleHigh | Assets/Scripts/AeroSurface.cs:90 | the high padding is between 5° and 15° in radians |
| Aero.PaddingAngleLow | Assets/Scripts/AeroSurface.cs:91 | the low padding is between 5° and 15° in radians |
| Aero.PaddingsShareTwentyDegrees | Assets/Scripts/AeroSurface.cs:90-91 | within the flap limits the two paddings add up to 20° |
| Aero.TorqueCoefficientProportion | Assets/Scripts/AeroSurface.cs:183-186 | the moment arm share is at least 0.075, exactly 0.075 at zero angle and at most 0.25 up to ±90° |
| Aero.FrictionAt90Degrees | Assets/Scripts/AeroSurface.cs:188-191 | within the ±50° flap limits the flat-plate coefficient lies in [1.7642, 2.1309] |
| Aero.FrictionAt90DegreesIncreasing | Assets/Scripts/AeroSurface.cs:188-191 | the coefficient grows with the flap angle across the ±50° deflection range |
| Aero.FrictionAt90DegreesBounds | Assets/Scripts/AeroSurface.cs:188-191 | within the flap limits the coefficient lies between its values at −50° and +50°, which are its exact minimum and maximum there |
| Aero.FlapEffectiveness | Assets/Scripts/AeroSurface.cs:41-42 | the flap effectiveness is finite exactly when the flap fraction is in [0, 1], where `acos` is defined; with the textbook values of `acos` and `sin`, a flap of no chord is ineffective and one of the whole chord fully effective |
| Aero.FlapShift | Assets/Scripts/AeroSurface.cs:41-43 | the flap's shift of the zero-lift angle is finite exactly when the flap fraction is in [0, 1], and an undeflected flap shifts nothing |
| Aero.StallBand | Assets/Scripts/AeroSurface.cs:38-55 | the band is finite exactly when the flap fraction is in [0, 1] and the corrected slope is non-zero; then the zero-lift angle drops by the flap shift, the high stall angle rises above it by its configured distance plus the retained share of the shift, and the band keeps its configured width |
| Aero.BandFrom | Assets/Scripts/AeroSurface.cs:43-55 | dividing deltaLift and the maximum lift coefficients by the slope gives back the shift relations above |
| Aero.InRangeBandFinite | Assets/Scripts/AeroSurface.cs:38-55 | for a configuration in the range validation establishes, the band is finite exactly when the corrected slope is non-zero |
| Aero.StallBandWithoutFlap | Assets/Scripts/AeroSurface.cs:43-55 | with zero flap angle the zero-lift and stall angles are the configured degrees converted to radians |
| Aero.SelectRegime | Assets/Scripts/AeroSurface.cs:95-121 | attached exactly strictly inside the stall band; stalled exactly outside it and beyond a padding width; blended exactly outside it and between the padding widths; the high-side blend only above the high stall angle |
| Aero.BlendOnlyBetweenPaddings | Assets/Scripts/AeroSurface.cs:90-111 | a blend only happens for angles of attack between 5° and 15°, and never on the high side once the high stall angle is 15° or more |
| Aero.InducedAngle | Assets/Scripts/AeroSurface.cs:134 | the induced angle times π and the aspect ratio gives back the lift coefficient; no lift induces no angle |
| Aero.AttachedEffectiveAngle | Assets/Scripts/AeroSurface.cs:133-135 | the attached-flow effective angle is the angle above zero lift times 1 − slope / (π × aspect ratio) |
| Aero.AttachedCoefficients | Assets/Scripts/AeroSurface.cs:131-144 | attached-flow coefficients are finite exactly when the aspect ratio and the cosine of the effective angle are non-zero; the lift coefficient is slope × (angle − zero-lift angle) |
| Aero.StallInducedFactor | Assets/Scripts/AeroSurface.cs:160-168 | the lerp factor lies in [0, 1]; it is finite whenever the relevant stall angle is short of ±90°; it is 1 at the low stall angle and 0 at or beyond ±90° |
| Aero.StallInducedAngle | Assets/Scripts/AeroSurface.cs:158-170 | the stall induced angle lies between 0 and the full induced angle; it is the full angle at the low stall angle and zero beyond ±90° |
| Aero.StallCoefficients | Assets/Scripts/AeroSurface.cs:146-181 | stalled-flow coefficients are finite exactly when the aspect ratio is non-zero and the induced-angle factor is finite |
| Aero.Blend | Assets/Scripts/AeroSurface.cs:124 | the blend is finite exactly when both ends are, and then lies componentwise between them |
| Aero.CalculateCoefficients | Assets/Scripts/AeroSurface.cs:86-129 | each regime takes its own formula; the high-side blend lies componentwise between the attached coefficients at the stall angle and the stalled ones at the padded stall angle; the low-side blend equals the attached coefficients at the low stall angle |
| Aero.LocalAirVelocity | Assets/Scripts/AeroSurface.cs:57-58 | the local air velocity has no span-wise component, and still air stays still |
| Aero.ScaleLoads | Assets/Scripts/AeroSurface.cs:62-70 | without dynamic pressure there is no lift, drag or pitching torque |
| Aero.Aerodynamics | Assets/Scripts/AeroSurface.cs:38-70 | a non-finite stall band gives non-finite loads, and still air exerts no load |
| Aero.Resultant | Assets/Scripts/AeroSurface.cs:72-74 | about the lever arm's own axis the torque is only the pitching torque, since the force's moment is perpendicular to the arm; a surface at the centre of mass exerts only its pitching torque; zero loads give the zero pair |
| Aero.AeroSurface.Forces | Assets/Scripts/AeroSurface.cs:28-84 | an inactive or unconfigured surface exerts the zero pair; a zero corrected slope is non-finite; in still air the result is zero or non-finite |
| Aero.AeroSurface.CalculateForces | Assets/Scripts/AeroSurface.cs:28-84 | accumulating lift, drag and the torques into zero vectors computes the surface's force and torque |
| Aircraft.AddOpt | Assets/Scripts/AircraftPhysics.cs:48-54 | the `+=` of a force/torque pair is finite exactly when both pairs are, and the zero pair the sum starts from is neutral on either side |
| Aircraft.AddOptAssociative | Assets/Scripts/AircraftPhysics.cs:53-54 | adding force/torque pairs is associative |
| Aircraft.AddOptCommutative | Assets/Scripts/AircraftPhysics.cs:53-54 | adding force/torque pairs is commutative |
| Aircraft.AirVelocityAt | Assets/Scripts/AircraftPhysics.cs:52 | without rotation the air velocity a surface meets is wind − velocity |
| Aircraft.Contribution | Assets/Scripts/AircraftPhysics.cs:50-53 | an inactive or unconfigured surface contributes the zero pair |
| Aircraft.Contributions | Assets/Scripts/AircraftPhysics.cs:49-52 | there is one contribution per listed surface |
| Aircraft.ContributionsAt | Assets/Scripts/AircraftPhysics.cs:49-52 | each surface's contribution is its force for its own air velocity and with its own lever arm |
| Aircraft.ContributionsConcat | Assets/Scripts/AircraftPhysics.cs:49-52 | the contributions of two lists in sequence are the two lists of contributions joined |
| Aircraft.Sum | Assets/Scripts/AircraftPhysics.cs:48-55 | the empty sum is the zero pair the loop starts from, and one pair is its own sum |
| Aircraft.Aggregate | Assets/Scripts/AircraftPhysics.cs:46-57 | an aircraft without surfaces has zero aerodynamic loads |
| Aircraft.SumConcat | Assets/Scripts/AircraftPhysics.cs:53-54 | the sum of a concatenation is the sum of the partial sums |
| Aircraft.SumMoveToEnd | Assets/Scripts/AircraftPhysics.cs:53-54 | moving one term to the end does not change the sum |
| Aircraft.SumPermutation | Assets/Scripts/AircraftPhysics.cs:49-55 | any rearrangement of the terms has the same sum |
| Aircraft.SumFinite | Assets/Scripts/AircraftPhysics.cs:53-54 | the sum is finite exactly when every term is |
| Aircraft.SumOfNoForce | Assets/Scripts/AircraftPhysics.cs:48-55 | a sum of zero pairs is the zero pair |
| Aircraft.AggregateStep | Assets/Scripts/AircraftPhysics.cs:49-55 | each loop iteration adds the next surface's contribution to the running sum |
| Aircraft.AggregateExtend | Assets/Scripts/AircraftPhysics.cs:51-54 | adding the next surface's `CalculateForces` at its own lever arm and air velocity to the running sum gives the sum over one more surface |
| Aircraft.AggregateConcat | Assets/Scripts/AircraftPhysics.cs:49-55 | the loads of two surface lists in sequence are the sum of their loads |
| Aircraft.AggregateSwap | Assets/Scripts/AircraftPhysics.cs:49-55 | the loads of two surface lists do not depend on which comes first |
| Aircraft.AggregateAnyOrder | Assets/Scripts/AircraftPhysics.cs:49-55 | summing the surfaces' contributions in any order gives the aircraft's loads |
| Aircraft.AggregateFinite | Assets/Scripts/AircraftPhysics.cs:49-55 | the aircraft's loads are finite exactly when every surface's loads are |
| Aircraft.AggregateWithoutActiveSurfaces | Assets/Scripts/AircraftPhysics.cs:46-57 | with every surface inactive or unconfigured the loads are the zero pair at any motion |
| Aircraft.AircraftPhysics.CalculateAerodynamicForces | Assets/Scripts/AircraftPhysics.cs:46-57 | the loop returns the sum of all surfaces' contributions |
| Aircraft.PredictVelocity | Assets/Scripts/AircraftPhysics.cs:59-62 | the predicted velocity change times the mass is the force times half the step; zero force leaves the velocity unchanged |
| Aircraft.PrincipalChange | Assets/Scripts/AircraftPhysics.cs:68-71 | each principal-axis change times its moment of inertia is the torque component; zero torque gives no change |
| Aircraft.PredictAngularVelocity | Assets/Scripts/AircraftPhysics.cs:64-75 | zero torque leaves the angular velocity unchanged |
| Aircraft.PrincipalFrameAngularPrediction | Assets/Scripts/AircraftPhysics.cs:66-74 | for a unit world inertia rotation, the angular-velocity change seen from the principal axes, times each principal moment, is that axis's torque component times half the step |
| Aircraft.IsotropicAngularPrediction | Assets/Scripts/AircraftPhysics.cs:66-74 | with equal principal moments and a unit world inertia rotation, the angular velocity change times the moment is the torque times half the step, whatever the rotation |
| Aircraft.AlignedAngularPrediction | Assets/Scripts/AircraftPhysics.cs:64-75 | with body and principal axes aligned with the world, each angular velocity component advances by half the step times torque over moment |
| Aircraft.Mean | Assets/Scripts/AircraftPhysics.cs:38-39 | twice the applied force and torque are the sums of the current and predicted ones; equal loads are their own mean |
| Aircraft.Corrected | Assets/Scripts/AircraftPhysics.cs:38-39 | the applied loads are finite exactly when both the current and the predicted loads are; they equal them when the two agree |
| Aircraft.ThrustForce | Assets/Scripts/AircraftPhysics.cs:43 | no thrust or zero throttle gives no engine force |
| Aircraft.NetForce | Assets/Scripts/AircraftPhysics.cs:33 | the force the velocity prediction uses: without aerodynamic force and thrust it is the weight alone (gravity times mass) |
| Aircraft.NetForceLessWeight | Assets/Scripts/AircraftPhysics.cs:33 | the net force less the weight (gravity times mass) is the aerodynamic force plus the thrust |
| Aircraft.VelocityPrediction | Assets/Scripts/AircraftPhysics.cs:33 | the predicted velocity change times the mass is the net force times half the step; no net force leaves the velocity unchanged |
| Aircraft.AngularVelocityPrediction | Assets/Scripts/AircraftPhysics.cs:34 | the angular prediction uses the aerodynamic torque alone, so no aerodynamic torque leaves the angular velocity unchanged |
| Aircraft.Step | Assets/Scripts/AircraftPhysics.cs:29-39 | the applied loads are finite only when the current loads are, and an aircraft without surfaces gets the zero pair |
| Aircraft.StepInTrim | Assets/Scripts/AircraftPhysics.cs:31-39 | with zero net force and zero aerodynamic torque the prediction is the current state and the applied loads are the current loads |
| Aircraft.StepWithoutActiveSurfaces | Assets/Scripts/AircraftPhysics.cs:31-39 | with no active, configured surface no aerodynamic load is applied |
| Aircraft.OnlyThrustWithoutSurfaces | Assets/Scripts/AircraftPhysics.cs:33-43 | with no active surface the total applied force is exactly the thrust: thrust is applied once, and the weight only enters the prediction |
| Aircraft.AircraftPhysics.constructor | Assets/Scripts/AircraftPhysics.cs:11-17 | a new aircraft has zero throttle and zero stored loads |
| Aircraft.AircraftPhysics.SetThrustPercent | Assets/Scripts/AircraftPhysics.cs:19-22 | the throttle becomes the argument; nothing else changes |
| Aircraft.AircraftPhysics.FixedUpdate | Assets/Scripts/AircraftPhysics.cs:29-44 | the stored loads become the mean of the current and predicted loads; the body receives them and, separately, the thrust |
| Control.Toggle | Assets/Scripts/PlaneController.cs:37-50 | after a key press the value is 0 or its "on" state, and it is "on" exactly when it was not positive |
| Control.ToggleTwice | Assets/Scripts/PlaneController.cs:37-40 | two presses from either state return to it, so two presses from 0 return to 0 |
| Control.TogglesAlternate | Assets/Scripts/PlaneController.cs:37-50 | the throttle (0/1), flap (0/0.3) and brake (0/100) toggles each alternate between their two states |
| Control.PlaneController.constructor | Assets/Scripts/PlaneController.cs:9-20 | the sensitivities are the serialized values given (0.2 by default) and the inputs, throttle and brakes start at 0 |
| Control.PlaneController.TargetAngle | Assets/Scripts/PlaneController.cs:77-87 | a centred stick asks a stick-driven surface for no deflection, a retracted flap setting asks a flap for none, and a zero multiplier asks for none |
| Control.PlaneController.FlapTargetIgnoresInputs | Assets/Scripts/PlaneController.cs:86-87 | a flap surface's target depends on the controller's `Flap` field, not on the stick inputs |
| Control.PlaneController.Dispatch | Assets/Scripts/PlaneController.cs:75-89 | a surface gets the input of its own axis times that axis's sensitivity and its multiplier (for a flap, `Flap` times the multiplier), clamped |
| Control.PlaneController.SetControlSurfacesAngles | Assets/Scripts/PlaneController.cs:70-91 | every controlled surface gets its clamped target angle, within ±50°; surfaces not marked as control surfaces keep their flap angle; no other field changes |
| Control.PlaneController.Update | Assets/Scripts/PlaneController.cs:31-50 | the axes are stored, and each key press flips its value through its toggle |
| Control.PlaneController.FixedUpdate | Assets/Scripts/PlaneController.cs:58-61 | the stored inputs are dispatched to the surfaces and the throttle is handed to the engine |

## Left out

- Floating-point rounding and overflow. All arithmetic is exact over the reals, and the source's single-precision literals (0.56, 4.26e-2 and so on) are their decimal values. Only a division by zero, `acos` out of its domain and what derives from them is `None`. A result that would overflow to infinity in single precision stays a finite real: `exp` of a large argument, products of large values, a large dynamic pressure.
- Vectors.QMul: the model does not prove that a product of unit quaternions is a unit quaternion. `Aircraft.IsotropicAngularPrediction` therefore takes the world inertia rotation being unit as a hypothesis.
- Vectors.Rotate: its own contract covers the identity and the zero vector; the round trip through the inverse and the commuting with scaling are the lemmas `Vectors.RotateInverse` and `Vectors.RotateScale`, and keeping lengths follows from `Vectors.UnitColumns` but is not stated separately.
- The controller's three sensitivities are constructor arguments, since the editor may change them; `Control.DefaultControlSensitivity` records their default 0.2.
- Transcendental functions (`acos`, `sin`, `cos`, `atan2`, `exp`, `sqrt`). They are uninterpreted, so no numeric coefficient value is proved, nor stall continuity, nor lift ≈ slope × angle.
- Aero.CorrectedLiftSlope: at an aspect ratio of −2 the source divides by zero inside the quotient. The model returns the zero slope that single precision yields, and the rest of the surface is then non-finite.
- Aero.AeroSurface.Forces: the still-air promise is "zero or non-finite", weaker than "zero". With uninterpreted `atan2`, the coefficients at the resulting angle of attack may be non-finite.
- SurfaceConfig.AeroSurfaceSO.OnValidate: requires a non-zero chord when the aspect ratio is derived. Single precision would store an infinity or NaN there, and the model has no such value.
- Aircraft.PredictVelocity and Aircraft.PredictAngularVelocity: require a positive mass and positive principal moments. The physics engine keeps them so.
- Aircraft.AircraftPhysics.FixedUpdate: when the current loads are non-finite, the source still predicts and recomputes with NaN. The model stores `None` directly, which has the same outcome.
- `rb.AddForce` and `rb.AddTorque` are not modelled. `FixedUpdate` returns what it would apply as an `Applied` record. The engine's integration and its gravity are not modelled either.
- The physics engine's state and the game clock are parameters: the rigid body, `Physics.gravity`, `Time.fixedDeltaTime` and the aircraft's forward axis.
- Engine transforms are fields of a surface: a surface's world position and rotation, and `gameObject.activeInHierarchy`.
- A surface holds a snapshot of its configuration asset. Later edits to a shared asset are not seen by surfaces built earlier.
- A missing (null) surface list, or a null entry in the aircraft's list, would raise an exception in the source. The aircraft's list holds non-null surfaces. The controller's list may hold missing entries, and they are skipped as in the source.
- Editor-only code is not modelled:
  - the `UNITY_EDITOR` diagnostics (`IsAtStall`, `CurrentLift` and the rest);
  - `EditorUtility.SetDirty`, which the model replaces with the returned dirty flag;
  - `CalculateCenterOfLift`;
  - `OnDrawGizmos`;
  - `Awake` and `Start`, which only look up components.
- Controller plumbing is not modelled: `Input` polling becomes parameters of `Update`, and the text display and the wheel colliders' brake and motor torques are left out.
- The water, floater, wing-animation and propeller scripts are outside the force core and are not part of this model.
- The flap's extra lift is grouped as slope × (effectiveness × correction × flap angle) rather than left to right. Over the reals the two orders are equal.
