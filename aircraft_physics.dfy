/** The aircraft (`AircraftPhysics`): sums the loads of all surfaces, predicts the
    state half a physics step ahead, and applies the mean of the current and the
    predicted loads together with the engine thrust. */
module Aircraft {
  import opened Wrappers
  import opened UnityMath
  import opened Vectors
  import opened Aero

  /** How far ahead, as a fraction of the physics step, the state is predicted. */
  const PredictionTimestepFraction: real := 0.5

  /** The air density the aircraft flies in. */
  const AirDensity: real := 1.2

  /** The rigid-body state the force computation reads. */
  datatype RigidBody = RigidBody(
    velocity: Vec3,
    angularVelocity: Vec3,
    mass: real,
    inertiaTensor: Vec3,            // principal moments of inertia
    rotation: Quat,
    inertiaTensorRotation: Quat,    // principal axes, relative to the body
    worldCenterOfMass: Vec3)

  /** The physics engine keeps the mass and the principal moments positive. */
  predicate ValidBody(rb: RigidBody)
  {
    rb.mass > 0.0 && rb.inertiaTensor.x > 0.0 && rb.inertiaTensor.y > 0.0 && rb.inertiaTensor.z > 0.0
  }

  // ----- summing the surfaces -----

  function AddPair(a: ForceTorque, b: ForceTorque): ForceTorque
  {
    ForceTorque(Add(a.force, b.force), Add(a.torque, b.torque))
  }

  /** The sum of two force/torque pairs, non-finite if either is. The zero pair
      that the sum starts from is neutral on either side. */
  function AddOpt(a: Option<ForceTorque>, b: Option<ForceTorque>): (r: Option<ForceTorque>)
    ensures r.Some? <==> a.Some? && b.Some?
    ensures a == Some(NoForce) ==> r == b
    ensures b == Some(NoForce) ==> r == a
  {
    if a.Some? && b.Some? then Some(AddPair(a.value, b.value)) else None
  }

  lemma AddOptAssociative(a: Option<ForceTorque>, b: Option<ForceTorque>, c: Option<ForceTorque>)
    ensures AddOpt(AddOpt(a, b), c) == AddOpt(a, AddOpt(b, c))
  {
  }

  lemma AddOptCommutative(a: Option<ForceTorque>, b: Option<ForceTorque>)
    ensures AddOpt(a, b) == AddOpt(b, a)
  {
  }

  /** The air velocity a surface meets: the body's velocity and the spin about the
      centre of mass, reversed, plus the wind. */
  function AirVelocityAt(velocity: Vec3, angularVelocity: Vec3, wind: Vec3, relativePosition: Vec3): (r: Vec3)
    ensures angularVelocity == Zero ==> r == Sub(wind, velocity)
  {
    Sub(Add(Neg(velocity), wind), Cross(angularVelocity, relativePosition))
  }

  /** One surface's share of the loop in `CalculateAerodynamicForces`: the lever arm
      is the surface's position relative to the centre of mass, and the same arm
      gives the spin's contribution to the surface's air velocity. */
  function Contribution(lib: MathLib, s: AeroSurface, velocity: Vec3, angularVelocity: Vec3, wind: Vec3,
                        airDensity: real, centerOfMass: Vec3): (r: Option<ForceTorque>)
    reads s
    ensures !s.activeInHierarchy || s.config.None? ==> r == Some(NoForce)
  {
    var relativePosition := Sub(s.position, centerOfMass);
    s.Forces(lib, AirVelocityAt(velocity, angularVelocity, wind, relativePosition), airDensity, relativePosition)
  }

  /** Every surface's loads, in list order. */
  function Contributions(lib: MathLib, surfaces: seq<AeroSurface>, velocity: Vec3, angularVelocity: Vec3, wind: Vec3,
                         airDensity: real, centerOfMass: Vec3): (r: seq<Option<ForceTorque>>)
    reads surfaces
    ensures |r| == |surfaces|
  {
    if |surfaces| == 0 then []
    else
      var n := |surfaces| - 1;
      Contributions(lib, surfaces[..n], velocity, angularVelocity, wind, airDensity, centerOfMass)
        + [Contribution(lib, surfaces[n], velocity, angularVelocity, wind, airDensity, centerOfMass)]
  }

  /** The list holds each surface's loads at that surface's place. */
  lemma {:induction false} ContributionsAt(lib: MathLib, surfaces: seq<AeroSurface>, velocity: Vec3,
                                           angularVelocity: Vec3, wind: Vec3, airDensity: real, centerOfMass: Vec3)
    ensures forall i :: 0 <= i < |surfaces| ==>
      Contributions(lib, surfaces, velocity, angularVelocity, wind, airDensity, centerOfMass)[i]
        == Contribution(lib, surfaces[i], velocity, angularVelocity, wind, airDensity, centerOfMass)
    decreases |surfaces|
  {
    if |surfaces| > 0 {
      var n := |surfaces| - 1;
      var front := surfaces[..n];
      var all := Contributions(lib, surfaces, velocity, angularVelocity, wind, airDensity, centerOfMass);
      var init := Contributions(lib, front, velocity, angularVelocity, wind, airDensity, centerOfMass);
      var last := Contribution(lib, surfaces[n], velocity, angularVelocity, wind, airDensity, centerOfMass);
      assert all == init + [last];
      ContributionsAt(lib, front, velocity, angularVelocity, wind, airDensity, centerOfMass);
      forall i | 0 <= i < |surfaces|
        ensures all[i] == Contribution(lib, surfaces[i], velocity, angularVelocity, wind, airDensity, centerOfMass)
      {
        if i < n {
          assert all[i] == init[i];
          assert front[i] == surfaces[i];
        } else {
          assert all[i] == last;
        }
      }
    }
  }

  /** The loads of two lists of surfaces, one after the other. */
  lemma {:induction false} ContributionsConcat(lib: MathLib, a: seq<AeroSurface>, b: seq<AeroSurface>, velocity: Vec3,
                                               angularVelocity: Vec3, wind: Vec3, airDensity: real, centerOfMass: Vec3)
    ensures Contributions(lib, a + b, velocity, angularVelocity, wind, airDensity, centerOfMass)
      == Contributions(lib, a, velocity, angularVelocity, wind, airDensity, centerOfMass)
         + Contributions(lib, b, velocity, angularVelocity, wind, airDensity, centerOfMass)
    decreases |b|
  {
    if |b| == 0 {
      assert a + b == a;
    } else {
      var front := b[..|b| - 1];
      assert (a + b)[..|a + b| - 1] == a + front;
      assert (a + b)[|a + b| - 1] == b[|b| - 1];
      ContributionsConcat(lib, a, front, velocity, angularVelocity, wind, airDensity, centerOfMass);
    }
  }

  /** A running sum of force/torque pairs, from the zero pair, in list order: the
      empty sum is the zero pair, and a single pair is its own sum. */
  function Sum(xs: seq<Option<ForceTorque>>): (r: Option<ForceTorque>)
    ensures |xs| == 0 ==> r == Some(NoForce)
    ensures |xs| == 1 ==> r == xs[0]
  {
    if |xs| == 0 then Some(NoForce) else AddOpt(Sum(xs[..|xs| - 1]), xs[|xs| - 1])
  }

  /** The loads of a list of surfaces: the sum of their contributions. */
  function Aggregate(lib: MathLib, surfaces: seq<AeroSurface>, velocity: Vec3, angularVelocity: Vec3, wind: Vec3,
                     airDensity: real, centerOfMass: Vec3): (r: Option<ForceTorque>)
    reads surfaces
    ensures |surfaces| == 0 ==> r == Some(NoForce)
  {
    Sum(Contributions(lib, surfaces, velocity, angularVelocity, wind, airDensity, centerOfMass))
  }

  /** The sum of a concatenation is the sum of the sums of the parts. */
  lemma {:induction false} SumConcat(xs: seq<Option<ForceTorque>>, ys: seq<Option<ForceTorque>>)
    ensures Sum(xs + ys) == AddOpt(Sum(xs), Sum(ys))
    decreases |ys|
  {
    if |ys| == 0 {
      assert xs + ys == xs;
    } else {
      var front := ys[..|ys| - 1];
      assert (xs + ys)[..|xs + ys| - 1] == xs + front;
      assert (xs + ys)[|xs + ys| - 1] == ys[|ys| - 1];
      SumConcat(xs, front);
      AddOptAssociative(Sum(xs), Sum(front), ys[|ys| - 1]);
    }
  }

  /** Moving one term to the end of the list does not change the sum. */
  lemma SumMoveToEnd(before: seq<Option<ForceTorque>>, x: Option<ForceTorque>, after: seq<Option<ForceTorque>>)
    ensures Sum(before + [x] + after) == Sum(before + after + [x])
  {
    assert Sum([x]) == x by {
      assert [x][..0] == [];
    }
    SumConcat(before + [x], after);
    SumConcat(before, [x]);
    SumConcat(before, after);
    SumConcat(before + after, [x]);
    AddOptAssociative(Sum(before), x, Sum(after));
    AddOptCommutative(x, Sum(after));
    AddOptAssociative(Sum(before), Sum(after), x);
  }

  /** Removing one occurrence of the same term from two equal multisets. */
  lemma MultisetRemove(before: seq<Option<ForceTorque>>, x: Option<ForceTorque>, after: seq<Option<ForceTorque>>,
                       front: seq<Option<ForceTorque>>)
    requires multiset(before + [x] + after) == multiset(front + [x])
    ensures multiset(before + after) == multiset(front)
  {
    calc {
      multiset(before + after);
      multiset(before + [x] + after) - multiset{x};
      multiset(front + [x]) - multiset{x};
      multiset(front);
    }
  }

  /** Summing in any other order gives the same result. */
  lemma {:induction false} SumPermutation(xs: seq<Option<ForceTorque>>, ys: seq<Option<ForceTorque>>)
    requires multiset(xs) == multiset(ys)
    ensures Sum(xs) == Sum(ys)
    decreases |ys|
  {
    if |ys| == 0 {
      assert |xs| == |multiset(xs)| == 0;
    } else {
      var last := ys[|ys| - 1];
      var front := ys[..|ys| - 1];
      assert ys == front + [last];
      assert last in multiset(xs);
      var i :| 0 <= i < |xs| && xs[i] == last;
      var before, after := xs[..i], xs[i + 1..];
      assert xs == before + [last] + after;
      MultisetRemove(before, last, after, front);
      SumPermutation(before + after, front);
      SumMoveToEnd(before, last, after);
      assert Sum(before + after + [last]) == AddOpt(Sum(before + after), last) by {
        assert (before + after + [last])[..|before + after|] == before + after;
      }
    }
  }

  /** The sum is finite exactly when every term is. */
  lemma {:induction false} SumFinite(xs: seq<Option<ForceTorque>>)
    ensures Sum(xs).Some? <==> forall i :: 0 <= i < |xs| ==> xs[i].Some?
    decreases |xs|
  {
    if |xs| > 0 {
      var front := xs[..|xs| - 1];
      SumFinite(front);
      assert forall i :: 0 <= i < |front| ==> front[i] == xs[i];
    }
  }

  /** The loads of a concatenation of surface lists are the sum of the parts' loads. */
  lemma AggregateConcat(lib: MathLib, a: seq<AeroSurface>, b: seq<AeroSurface>, velocity: Vec3,
                        angularVelocity: Vec3, wind: Vec3, airDensity: real, centerOfMass: Vec3)
    ensures Aggregate(lib, a + b, velocity, angularVelocity, wind, airDensity, centerOfMass)
      == AddOpt(Aggregate(lib, a, velocity, angularVelocity, wind, airDensity, centerOfMass),
                Aggregate(lib, b, velocity, angularVelocity, wind, airDensity, centerOfMass))
  {
    ContributionsConcat(lib, a, b, velocity, angularVelocity, wind, airDensity, centerOfMass);
    var ca := Contributions(lib, a, velocity, angularVelocity, wind, airDensity, centerOfMass);
    var cb := Contributions(lib, b, velocity, angularVelocity, wind, airDensity, centerOfMass);
    SumConcat(ca, cb);
  }

  /** The loads do not depend on the order in which the surfaces are summed. */
  lemma AggregateAnyOrder(lib: MathLib, surfaces: seq<AeroSurface>, velocity: Vec3, angularVelocity: Vec3, wind: Vec3,
                          airDensity: real, centerOfMass: Vec3, reordered: seq<Option<ForceTorque>>)
    requires multiset(reordered)
      == multiset(Contributions(lib, surfaces, velocity, angularVelocity, wind, airDensity, centerOfMass))
    ensures Sum(reordered) == Aggregate(lib, surfaces, velocity, angularVelocity, wind, airDensity, centerOfMass)
  {
    SumPermutation(reordered, Contributions(lib, surfaces, velocity, angularVelocity, wind, airDensity, centerOfMass));
  }

  /** The loads are finite exactly when every surface's loads are. */
  lemma AggregateFinite(lib: MathLib, surfaces: seq<AeroSurface>, velocity: Vec3,
                        angularVelocity: Vec3, wind: Vec3, airDensity: real, centerOfMass: Vec3)
    ensures Aggregate(lib, surfaces, velocity, angularVelocity, wind, airDensity, centerOfMass).Some?
      <==> forall i :: 0 <= i < |surfaces| ==>
             Contribution(lib, surfaces[i], velocity, angularVelocity, wind, airDensity, centerOfMass).Some?
  {
    ContributionsAt(lib, surfaces, velocity, angularVelocity, wind, airDensity, centerOfMass);
    SumFinite(Contributions(lib, surfaces, velocity, angularVelocity, wind, airDensity, centerOfMass));
  }

  /** The surfaces, summed one at a time: the next surface's loads are added to the
      running sum. */
  lemma AggregateStep(lib: MathLib, surfaces: seq<AeroSurface>, i: nat, velocity: Vec3, angularVelocity: Vec3,
                      wind: Vec3, airDensity: real, centerOfMass: Vec3)
    requires i < |surfaces|
    ensures Aggregate(lib, surfaces[..i + 1], velocity, angularVelocity, wind, airDensity, centerOfMass)
      == AddOpt(Aggregate(lib, surfaces[..i], velocity, angularVelocity, wind, airDensity, centerOfMass),
                Contribution(lib, surfaces[i], velocity, angularVelocity, wind, airDensity, centerOfMass))
  {
    assert surfaces[..i + 1][..i] == surfaces[..i];
  }

  /** One turn of the loop in `CalculateAerodynamicForces`: adding the next
      surface's `CalculateForces` at its own lever arm to the running sum gives
      the sum over one more surface. */
  lemma AggregateExtend(lib: MathLib, surfaces: seq<AeroSurface>, i: nat, velocity: Vec3, angularVelocity: Vec3,
                        wind: Vec3, airDensity: real, centerOfMass: Vec3, sum: Option<ForceTorque>,
                        next: Option<ForceTorque>)
    requires i < |surfaces|
    requires sum == Aggregate(lib, surfaces[..i], velocity, angularVelocity, wind, airDensity, centerOfMass)
    requires next == surfaces[i].Forces(lib, AirVelocityAt(velocity, angularVelocity, wind,
                                                           Sub(surfaces[i].position, centerOfMass)),
                                        airDensity, Sub(surfaces[i].position, centerOfMass))
    ensures AddOpt(sum, next) == Aggregate(lib, surfaces[..i + 1], velocity, angularVelocity, wind, airDensity, centerOfMass)
  {
    AggregateStep(lib, surfaces, i, velocity, angularVelocity, wind, airDensity, centerOfMass);
  }

  /** Summing the surfaces in the reverse order of two blocks gives the same loads. */
  lemma AggregateSwap(lib: MathLib, a: seq<AeroSurface>, b: seq<AeroSurface>, velocity: Vec3,
                      angularVelocity: Vec3, wind: Vec3, airDensity: real, centerOfMass: Vec3)
    ensures Aggregate(lib, a + b, velocity, angularVelocity, wind, airDensity, centerOfMass)
      == Aggregate(lib, b + a, velocity, angularVelocity, wind, airDensity, centerOfMass)
  {
    AggregateConcat(lib, a, b, velocity, angularVelocity, wind, airDensity, centerOfMass);
    AggregateConcat(lib, b, a, velocity, angularVelocity, wind, airDensity, centerOfMass);
    AddOptCommutative(Aggregate(lib, a, velocity, angularVelocity, wind, airDensity, centerOfMass),
                      Aggregate(lib, b, velocity, angularVelocity, wind, airDensity, centerOfMass));
  }

  // ----- prediction half a step ahead -----

  /** `PredictVelocity`: the velocity after a fraction of the step under the net
      force. The velocity change times the mass is the impulse of the force over
      that fraction of the step. */
  function PredictVelocity(rb: RigidBody, fixedDeltaTime: real, force: Vec3): (r: Vec3)
    requires rb.mass > 0.0
    ensures force == Zero ==> r == rb.velocity
    ensures Scale(Sub(r, rb.velocity), rb.mass) == Scale(force, fixedDeltaTime * PredictionTimestepFraction)
  {
    var impulse := Scale(force, fixedDeltaTime * PredictionTimestepFraction);
    var change := DivBy(impulse, rb.mass);
    DivideThenMultiply(impulse.x, rb.mass);
    DivideThenMultiply(impulse.y, rb.mass);
    DivideThenMultiply(impulse.z, rb.mass);
    Add(rb.velocity, change)
  }

  lemma DivideThenMultiply(a: real, m: real)
    requires m != 0.0
    ensures (a / m) * m == a
  {
  }

  /** `PredictAngularVelocity`: the torque is taken into the principal axes of the
      inertia tensor, divided by the principal moments there, and the resulting
      change is taken back to the world and scaled by the fraction of the step.
      Zero torque leaves the angular velocity as it is. */
  function PredictAngularVelocity(rb: RigidBody, fixedDeltaTime: real, torque: Vec3): (r: Vec3)
    requires rb.inertiaTensor.x > 0.0 && rb.inertiaTensor.y > 0.0 && rb.inertiaTensor.z > 0.0
    ensures torque == Zero ==> r == rb.angularVelocity
  {
    var inertiaTensorWorldRotation := QMul(rb.rotation, rb.inertiaTensorRotation);
    var torqueInDiagonalSpace := Rotate(Inverse(inertiaTensorWorldRotation), torque);
    var change := PrincipalChange(torqueInDiagonalSpace, rb.inertiaTensor);
    Add(rb.angularVelocity, Scale(Rotate(inertiaTensorWorldRotation, change), fixedDeltaTime * PredictionTimestepFraction))
  }

  /** An unfolding step for the proofs below, which claims nothing beyond the
      definition: the change `PredictAngularVelocity` adds to the angular velocity. */
  lemma AngularPredictionUnfolded(rb: RigidBody, fixedDeltaTime: real, torque: Vec3)
    requires rb.inertiaTensor.x > 0.0 && rb.inertiaTensor.y > 0.0 && rb.inertiaTensor.z > 0.0
    ensures
      var w := QMul(rb.rotation, rb.inertiaTensorRotation);
      var change := PrincipalChange(Rotate(Inverse(w), torque), rb.inertiaTensor);
      Sub(PredictAngularVelocity(rb, fixedDeltaTime, torque), rb.angularVelocity)
        == Scale(Rotate(w, change), fixedDeltaTime * PredictionTimestepFraction)
  {
  }

  /** In the principal axes the prediction is Euler's equation without the
      gyroscopic term: with W the world rotation of the principal axes (the body's
      rotation times the inertia tensor's rotation) a unit quaternion, the
      angular-velocity change seen from the principal axes, times each principal
      moment, is the torque component there times the fraction of the step. */
  lemma PrincipalFrameAngularPrediction(rb: RigidBody, fixedDeltaTime: real, torque: Vec3)
    requires rb.inertiaTensor.x > 0.0 && rb.inertiaTensor.y > 0.0 && rb.inertiaTensor.z > 0.0
    requires IsUnit(QMul(rb.rotation, rb.inertiaTensorRotation))
    ensures
      var w := QMul(rb.rotation, rb.inertiaTensorRotation);
      var d := Rotate(Inverse(w), Sub(PredictAngularVelocity(rb, fixedDeltaTime, torque), rb.angularVelocity));
      var t := Rotate(Inverse(w), torque);
      var k := fixedDeltaTime * PredictionTimestepFraction;
      d.x * rb.inertiaTensor.x == t.x * k && d.y * rb.inertiaTensor.y == t.y * k
        && d.z * rb.inertiaTensor.z == t.z * k
  {
    PrincipalFrameChange(rb, fixedDeltaTime, torque);
    ScaledPrincipalChange(Rotate(Inverse(QMul(rb.rotation, rb.inertiaTensorRotation)),
                                 Sub(PredictAngularVelocity(rb, fixedDeltaTime, torque), rb.angularVelocity)),
                          Rotate(Inverse(QMul(rb.rotation, rb.inertiaTensorRotation)), torque), rb.inertiaTensor,
                          fixedDeltaTime * PredictionTimestepFraction);
  }

  /** Seen from the principal axes, the change is the principal-axis change
      scaled by the fraction of the step. */
  lemma PrincipalFrameChange(rb: RigidBody, fixedDeltaTime: real, torque: Vec3)
    requires rb.inertiaTensor.x > 0.0 && rb.inertiaTensor.y > 0.0 && rb.inertiaTensor.z > 0.0
    requires IsUnit(QMul(rb.rotation, rb.inertiaTensorRotation))
    ensures
      var w := QMul(rb.rotation, rb.inertiaTensorRotation);
      Rotate(Inverse(w), Sub(PredictAngularVelocity(rb, fixedDeltaTime, torque), rb.angularVelocity))
        == Scale(PrincipalChange(Rotate(Inverse(w), torque), rb.inertiaTensor), fixedDeltaTime * PredictionTimestepFraction)
  {
    var w := QMul(rb.rotation, rb.inertiaTensorRotation);
    var k := fixedDeltaTime * PredictionTimestepFraction;
    var change := PrincipalChange(Rotate(Inverse(w), torque), rb.inertiaTensor);
    AngularPredictionUnfolded(rb, fixedDeltaTime, torque);
    RotateScale(Inverse(w), Rotate(w, change), k);
    RotateInverse(w, change);
  }

  /** A scaled principal-axis change answers the torque scaled alike. */
  lemma ScaledPrincipalChange(d: Vec3, t: Vec3, inertia: Vec3, k: real)
    requires inertia.x > 0.0 && inertia.y > 0.0 && inertia.z > 0.0
    requires d == Scale(PrincipalChange(t, inertia), k)
    ensures d.x * inertia.x == t.x * k && d.y * inertia.y == t.y * k && d.z * inertia.z == t.z * k
  {
    var change := PrincipalChange(t, inertia);
    assert d.x * inertia.x == (change.x * inertia.x) * k;
    assert d.y * inertia.y == (change.y * inertia.y) * k;
    assert d.z * inertia.z == (change.z * inertia.z) * k;
  }

  /** For a body with equal principal moments I and unit rotations, the principal
      axes drop out: the angular-velocity change times I is the torque's impulse over
      the fraction of the step, whatever the orientation. */
  lemma IsotropicAngularPrediction(rb: RigidBody, fixedDeltaTime: real, torque: Vec3)
    requires rb.inertiaTensor.x > 0.0
    requires rb.inertiaTensor.y == rb.inertiaTensor.x && rb.inertiaTensor.z == rb.inertiaTensor.x
    requires IsUnit(QMul(rb.rotation, rb.inertiaTensorRotation))
    ensures Scale(Sub(PredictAngularVelocity(rb, fixedDeltaTime, torque), rb.angularVelocity), rb.inertiaTensor.x)
      == Scale(torque, fixedDeltaTime * PredictionTimestepFraction)
  {
    var w := QMul(rb.rotation, rb.inertiaTensorRotation);
    var k := fixedDeltaTime * PredictionTimestepFraction;
    var moment := rb.inertiaTensor.x;
    var local := Rotate(Inverse(w), torque);
    var change := PrincipalChange(local, rb.inertiaTensor);
    AngularPredictionUnfolded(rb, fixedDeltaTime, torque);
    assert Scale(change, moment) == local;
    RotateScale(w, change, moment);
    RotateInverse(w, torque);
    ScaleSwap(Rotate(w, change), k, moment);
  }

  /** Two scalings can be done in either order. */
  lemma ScaleSwap(v: Vec3, a: real, b: real)
    ensures Scale(Scale(v, a), b) == Scale(Scale(v, b), a)
  {
  }

  /** The angular-velocity change along the principal axes: each torque component
      over its principal moment. */
  function PrincipalChange(torque: Vec3, inertia: Vec3): (r: Vec3)
    requires inertia.x > 0.0 && inertia.y > 0.0 && inertia.z > 0.0
    ensures r.x * inertia.x == torque.x && r.y * inertia.y == torque.y && r.z * inertia.z == torque.z
    ensures torque == Zero ==> r == Zero
  {
    DivideThenMultiply(torque.x, inertia.x);
    DivideThenMultiply(torque.y, inertia.y);
    DivideThenMultiply(torque.z, inertia.z);
    Vec3(torque.x / inertia.x, torque.y / inertia.y, torque.z / inertia.z)
  }

  /** With the body and its principal axes aligned with the world, each component of
      the angular velocity changes by the fraction of the step times the torque
      component over its principal moment. */
  lemma AlignedAngularPrediction(rb: RigidBody, fixedDeltaTime: real, torque: Vec3)
    requires rb.inertiaTensor.x > 0.0 && rb.inertiaTensor.y > 0.0 && rb.inertiaTensor.z > 0.0
    requires rb.rotation == Identity && rb.inertiaTensorRotation == Identity
    ensures PredictAngularVelocity(rb, fixedDeltaTime, torque)
      == Add(rb.angularVelocity, Scale(PrincipalChange(torque, rb.inertiaTensor), fixedDeltaTime * PredictionTimestepFraction))
  {
    AngularPredictionUnfolded(rb, fixedDeltaTime, torque);
    assert QMul(rb.rotation, rb.inertiaTensorRotation) == Identity;
    assert Inverse(Identity) == Identity;
  }

  // ----- the predictor-corrector step -----

  /** The average of the current and the predicted loads. Twice the mean is their
      sum, and equal loads are their own mean. */
  function Mean(a: ForceTorque, b: ForceTorque): (r: ForceTorque)
    ensures Add(r.force, r.force) == Add(a.force, b.force)
    ensures Add(r.torque, r.torque) == Add(a.torque, b.torque)
    ensures a == b ==> r == a
  {
    ForceTorque(Scale(Add(a.force, b.force), 0.5), Scale(Add(a.torque, b.torque), 0.5))
  }

  /** The engine force: along the aircraft's forward axis, times the thrust and the
      throttle setting. */
  function ThrustForce(forward: Vec3, thrust: real, thrustPercent: real): (r: Vec3)
    ensures thrust == 0.0 || thrustPercent == 0.0 ==> r == Zero
  {
    Scale(Scale(forward, thrust), thrustPercent)
  }

  /** The force the velocity prediction sees: the aerodynamic force and the thrust,
      plus the weight (gravity times the mass); without aerodynamic force and thrust
      it is the weight alone. */
  function NetForce(aerodynamicForce: Vec3, thrustForce: Vec3, gravity: Vec3, mass: real): (r: Vec3)
    ensures aerodynamicForce == Zero && thrustForce == Zero ==> r == Scale(gravity, mass)
  {
    Add(Add(aerodynamicForce, thrustForce), Scale(gravity, mass))
  }

  /** Taking the weight off the net force leaves the aerodynamic force plus the thrust. */
  lemma NetForceLessWeight(aerodynamicForce: Vec3, thrustForce: Vec3, gravity: Vec3, mass: real)
    ensures Sub(NetForce(aerodynamicForce, thrustForce, gravity, mass), Scale(gravity, mass))
      == Add(aerodynamicForce, thrustForce)
  {
  }

  /** The velocity predicted half a step ahead under the current aerodynamic force,
      the thrust and the weight: the change times the mass is the net force's
      impulse over the fraction of the step, and zero net force predicts no change. */
  function VelocityPrediction(rb: RigidBody, fixedDeltaTime: real, current: ForceTorque, thrustForce: Vec3,
                              gravity: Vec3): (r: Vec3)
    requires ValidBody(rb)
    ensures Scale(Sub(r, rb.velocity), rb.mass)
      == Scale(NetForce(current.force, thrustForce, gravity, rb.mass), fixedDeltaTime * PredictionTimestepFraction)
    ensures NetForce(current.force, thrustForce, gravity, rb.mass) == Zero ==> r == rb.velocity
  {
    PredictVelocity(rb, fixedDeltaTime, NetForce(current.force, thrustForce, gravity, rb.mass))
  }

  /** The angular velocity predicted half a step ahead under the current
      aerodynamic torque alone (the thrust acts at the centre of mass): no
      aerodynamic torque predicts no change. */
  function AngularVelocityPrediction(rb: RigidBody, fixedDeltaTime: real, current: ForceTorque): (r: Vec3)
    requires ValidBody(rb)
    ensures current.torque == Zero ==> r == rb.angularVelocity
  {
    PredictAngularVelocity(rb, fixedDeltaTime, current.torque)
  }

  /** The mean of the current and the predicted loads, non-finite if either is. */
  function Corrected(current: Option<ForceTorque>, prediction: Option<ForceTorque>): (r: Option<ForceTorque>)
    ensures r.Some? <==> current.Some? && prediction.Some?
    ensures current == prediction ==> r == current
  {
    if current.None? || prediction.None? then None else Some(Mean(current.value, prediction.value))
  }

  /** The aerodynamic loads `FixedUpdate` applies: the mean of the loads in the
      current state and in the state predicted half a step ahead, both in still air
      at the fixed air density. */
  function Step(lib: MathLib, surfaces: seq<AeroSurface>, rb: RigidBody, thrustForce: Vec3, gravity: Vec3,
                fixedDeltaTime: real): (r: Option<ForceTorque>)
    requires ValidBody(rb)
    reads surfaces
    ensures r.Some? ==> Aggregate(lib, surfaces, rb.velocity, rb.angularVelocity, Zero, AirDensity, rb.worldCenterOfMass).Some?
    ensures |surfaces| == 0 ==> r == Some(NoForce)
  {
    var com := rb.worldCenterOfMass;
    var current := Aggregate(lib, surfaces, rb.velocity, rb.angularVelocity, Zero, AirDensity, com);
    if current.None? then None
    else
      Corrected(current,
                Aggregate(lib, surfaces, VelocityPrediction(rb, fixedDeltaTime, current.value, thrustForce, gravity),
                          AngularVelocityPrediction(rb, fixedDeltaTime, current.value), Zero, AirDensity, com))
  }

  /** An unfolding step for `FixedUpdate` and `StepInTrim`, which claims nothing
      beyond the definition: `Step` in terms of the current loads and the
      predicted velocities. */
  lemma StepOf(lib: MathLib, surfaces: seq<AeroSurface>, rb: RigidBody, thrustForce: Vec3, gravity: Vec3,
               fixedDeltaTime: real, current: Option<ForceTorque>, velocity: Vec3, angularVelocity: Vec3)
    requires ValidBody(rb)
    requires current == Aggregate(lib, surfaces, rb.velocity, rb.angularVelocity, Zero, AirDensity, rb.worldCenterOfMass)
    requires current.Some? ==>
      velocity == VelocityPrediction(rb, fixedDeltaTime, current.value, thrustForce, gravity) &&
      angularVelocity == AngularVelocityPrediction(rb, fixedDeltaTime, current.value)
    ensures Step(lib, surfaces, rb, thrustForce, gravity, fixedDeltaTime)
      == if current.None? then None
         else Corrected(current, Aggregate(lib, surfaces, velocity, angularVelocity, Zero, AirDensity, rb.worldCenterOfMass))
  {
  }

  /** In trim (no net force and no aerodynamic torque) the prediction is the current
      state, so the applied loads are the current loads. */
  lemma StepInTrim(lib: MathLib, surfaces: seq<AeroSurface>, rb: RigidBody, thrustForce: Vec3, gravity: Vec3,
                   fixedDeltaTime: real, current: ForceTorque)
    requires ValidBody(rb)
    requires Aggregate(lib, surfaces, rb.velocity, rb.angularVelocity, Zero, AirDensity, rb.worldCenterOfMass) == Some(current)
    requires NetForce(current.force, thrustForce, gravity, rb.mass) == Zero && current.torque == Zero
    ensures Step(lib, surfaces, rb, thrustForce, gravity, fixedDeltaTime) == Some(current)
  {
    TrimPrediction(rb, fixedDeltaTime, current, thrustForce, gravity);
  }

  /** Without net force and torque both predictions stay at the current state. */
  lemma TrimPrediction(rb: RigidBody, fixedDeltaTime: real, current: ForceTorque, thrustForce: Vec3, gravity: Vec3)
    requires ValidBody(rb)
    requires NetForce(current.force, thrustForce, gravity, rb.mass) == Zero && current.torque == Zero
    ensures VelocityPrediction(rb, fixedDeltaTime, current, thrustForce, gravity) == rb.velocity
    ensures AngularVelocityPrediction(rb, fixedDeltaTime, current) == rb.angularVelocity
  {
  }

  /** A sum of zero pairs is the zero pair. */
  lemma {:induction false} SumOfNoForce(xs: seq<Option<ForceTorque>>)
    requires forall i :: 0 <= i < |xs| ==> xs[i] == Some(NoForce)
    ensures Sum(xs) == Some(NoForce)
    decreases |xs|
  {
    if |xs| > 0 {
      var front := xs[..|xs| - 1];
      assert forall i :: 0 <= i < |front| ==> front[i] == xs[i];
      SumOfNoForce(front);
    }
  }

  /** Surfaces that are all inactive or unconfigured exert nothing, whatever the
      motion of the body. */
  lemma AggregateWithoutActiveSurfaces(lib: MathLib, surfaces: seq<AeroSurface>, velocity: Vec3,
                                       angularVelocity: Vec3, wind: Vec3, airDensity: real, centerOfMass: Vec3)
    requires forall i :: 0 <= i < |surfaces| ==> !surfaces[i].activeInHierarchy || surfaces[i].config.None?
    ensures Aggregate(lib, surfaces, velocity, angularVelocity, wind, airDensity, centerOfMass) == Some(NoForce)
  {
    ContributionsAt(lib, surfaces, velocity, angularVelocity, wind, airDensity, centerOfMass);
    SumOfNoForce(Contributions(lib, surfaces, velocity, angularVelocity, wind, airDensity, centerOfMass));
  }

  /** With no active, configured surface the step applies no aerodynamic load. */
  lemma StepWithoutActiveSurfaces(lib: MathLib, surfaces: seq<AeroSurface>, rb: RigidBody, thrustForce: Vec3,
                                  gravity: Vec3, fixedDeltaTime: real)
    requires ValidBody(rb)
    requires forall i :: 0 <= i < |surfaces| ==> !surfaces[i].activeInHierarchy || surfaces[i].config.None?
    ensures Step(lib, surfaces, rb, thrustForce, gravity, fixedDeltaTime) == Some(NoForce)
  {
    var com := rb.worldCenterOfMass;
    AggregateWithoutActiveSurfaces(lib, surfaces, rb.velocity, rb.angularVelocity, Zero, AirDensity, com);
    var current := Aggregate(lib, surfaces, rb.velocity, rb.angularVelocity, Zero, AirDensity, com);
    AggregateWithoutActiveSurfaces(lib, surfaces, VelocityPrediction(rb, fixedDeltaTime, current.value, thrustForce, gravity),
                                   AngularVelocityPrediction(rb, fixedDeltaTime, current.value), Zero, AirDensity, com);
  }

  /** What `FixedUpdate` hands to the rigid body: the averaged aerodynamic loads and,
      separately, the engine force. */
  datatype Applied = Applied(aerodynamic: Option<ForceTorque>, thrustForce: Vec3)

  /** The total force on the body: the averaged aerodynamic force plus the thrust,
      which is added once and outside the average. */
  function TotalForce(a: Applied): Option<Vec3>
  {
    if a.aerodynamic.None? then None else Some(Add(a.aerodynamic.value.force, a.thrustForce))
  }

  /** Without active surfaces the body gets exactly the thrust: the weight enters only the
      prediction and is never applied here. */
  lemma OnlyThrustWithoutSurfaces(lib: MathLib, surfaces: seq<AeroSurface>, rb: RigidBody, thrustForce: Vec3,
                                  gravity: Vec3, fixedDeltaTime: real)
    requires ValidBody(rb)
    requires forall i :: 0 <= i < |surfaces| ==> !surfaces[i].activeInHierarchy || surfaces[i].config.None?
    ensures TotalForce(Applied(Step(lib, surfaces, rb, thrustForce, gravity, fixedDeltaTime), thrustForce))
      == Some(thrustForce)
  {
    StepWithoutActiveSurfaces(lib, surfaces, rb, thrustForce, gravity, fixedDeltaTime);
  }

  /** The aircraft: the engine's thrust, its surfaces, the throttle, and the loads
      applied in the last physics step. */
  class AircraftPhysics {
    const thrust: real
    const aerodynamicSurfaces: seq<AeroSurface>
    var thrustPercent: real
    var currentForceAndTorque: Option<ForceTorque>

    constructor(thrust: real, aerodynamicSurfaces: seq<AeroSurface>)
      ensures this.thrust == thrust && this.aerodynamicSurfaces == aerodynamicSurfaces
      ensures thrustPercent == 0.0 && currentForceAndTorque == Some(NoForce)
    {
      this.thrust := thrust;
      this.aerodynamicSurfaces := aerodynamicSurfaces;
      thrustPercent := 0.0;
      currentForceAndTorque := Some(NoForce);
    }

    method SetThrustPercent(percent: real)
      modifies this`thrustPercent
      ensures thrustPercent == percent
    {
      thrustPercent := percent;
    }

    /** `CalculateAerodynamicForces`: adds up every surface's force and torque,
        starting from zero. */
    method CalculateAerodynamicForces(lib: MathLib, velocity: Vec3, angularVelocity: Vec3, wind: Vec3,
                                      airDensity: real, centerOfMass: Vec3) returns (r: Option<ForceTorque>)
      ensures r == Aggregate(lib, aerodynamicSurfaces, velocity, angularVelocity, wind, airDensity, centerOfMass)
    {
      r := Some(NoForce);
      for i := 0 to |aerodynamicSurfaces|
        invariant r == Aggregate(lib, aerodynamicSurfaces[..i], velocity, angularVelocity, wind, airDensity, centerOfMass)
      {
        var surface := aerodynamicSurfaces[i];
        var relativePosition := Sub(surface.position, centerOfMass);
        var tmp := surface.CalculateForces(lib, AirVelocityAt(velocity, angularVelocity, wind, relativePosition),
                                           airDensity, relativePosition);
        AggregateExtend(lib, aerodynamicSurfaces, i, velocity, angularVelocity, wind, airDensity, centerOfMass, r, tmp);
        r := AddOpt(r, tmp);
      }
      assert aerodynamicSurfaces[..|aerodynamicSurfaces|] == aerodynamicSurfaces;
    }

    /** `FixedUpdate`: computes the current loads, predicts the state half a step
        ahead under them, the thrust and the weight, stores the mean of the current
        and predicted loads, and applies it together with the thrust. */
    method FixedUpdate(lib: MathLib, rb: RigidBody, forward: Vec3, gravity: Vec3, fixedDeltaTime: real)
      returns (applied: Applied)
      requires ValidBody(rb)
      modifies this`currentForceAndTorque
      ensures currentForceAndTorque
        == Step(lib, aerodynamicSurfaces, rb, ThrustForce(forward, thrust, thrustPercent), gravity, fixedDeltaTime)
      ensures applied == Applied(currentForceAndTorque, ThrustForce(forward, thrust, thrustPercent))
    {
      var thrustForce := ThrustForce(forward, thrust, thrustPercent);
      var forceAndTorqueThisFrame := CalculateAerodynamicForces(lib, rb.velocity, rb.angularVelocity, Zero, AirDensity,
                                                                rb.worldCenterOfMass);
      if forceAndTorqueThisFrame.None? {
        StepOf(lib, aerodynamicSurfaces, rb, thrustForce, gravity, fixedDeltaTime, forceAndTorqueThisFrame, rb.velocity,
               rb.angularVelocity);
        currentForceAndTorque := None;
      } else {
        var velocityPrediction := VelocityPrediction(rb, fixedDeltaTime, forceAndTorqueThisFrame.value, thrustForce, gravity);
        var angularVelocityPrediction := AngularVelocityPrediction(rb, fixedDeltaTime, forceAndTorqueThisFrame.value);
        var forceAndTorquePrediction := CalculateAerodynamicForces(lib, velocityPrediction, angularVelocityPrediction,
                                                                   Zero, AirDensity, rb.worldCenterOfMass);
        StepOf(lib, aerodynamicSurfaces, rb, thrustForce, gravity, fixedDeltaTime, forceAndTorqueThisFrame,
               velocityPrediction, angularVelocityPrediction);
        if forceAndTorquePrediction.None? {
          currentForceAndTorque := None;
        } else {
          currentForceAndTorque := Some(Mean(forceAndTorqueThisFrame.value, forceAndTorquePrediction.value));
        }
      }
      applied := Applied(currentForceAndTorque, thrustForce);
    }
  }
}
