/** The aerodynamic surface configuration asset (`AeroSurfaceSO`) and the
    editor validation that clamps its fields and derives its aspect ratio. */
module SurfaceConfig {
  import opened UnityMath

  /** The serialized fields of one configuration asset. */
  datatype Config = Config(
    liftSlope: real,
    skinFriction: real,
    zeroLiftAngleOfAttack: real,  // degrees
    stallAngleHigh: real,         // degrees
    stallAngleLow: real,          // degrees
    chord: real,
    flapFraction: real,
    span: real,
    autoAspectRation: bool,
    aspectRatio: real)

  /** The field initialisers of a new asset. */
  const Default: Config := Config(6.28, 0.02, 0.0, 15.0, -15.0, 1.0, 0.0, 1.0, true, 2.0)

  /** The ranges validation enforces: the flap covers at most 40% of the chord and
      the stall angles lie on their own side of zero. */
  predicate InRange(c: Config)
  {
    && 0.0 <= c.flapFraction <= 0.4
    && c.stallAngleHigh >= 0.0
    && c.stallAngleLow <= 0.0
  }

  /** Validation divides the span by the chord when the aspect ratio is derived. */
  predicate CanValidate(c: Config)
  {
    c.autoAspectRation ==> c.chord != 0.0
  }

  /** The record after validation, stated field by field. */
  function Validated(c: Config): (r: Config)
    requires CanValidate(c)
    ensures InRange(r)
    // fields that are already in range keep their values
    ensures 0.0 <= c.flapFraction <= 0.4 ==> r.flapFraction == c.flapFraction
    ensures c.stallAngleHigh >= 0.0 ==> r.stallAngleHigh == c.stallAngleHigh
    ensures c.stallAngleLow <= 0.0 ==> r.stallAngleLow == c.stallAngleLow
    // out-of-range fields move to the nearest bound
    ensures c.flapFraction > 0.4 ==> r.flapFraction == 0.4
    ensures c.flapFraction < 0.0 ==> r.flapFraction == 0.0
    ensures c.stallAngleHigh < 0.0 ==> r.stallAngleHigh == 0.0
    ensures c.stallAngleLow > 0.0 ==> r.stallAngleLow == 0.0
    // the aspect ratio is derived exactly when asked for
    ensures c.autoAspectRation ==> r.aspectRatio == c.span / c.chord
    ensures !c.autoAspectRation ==> r.aspectRatio == c.aspectRatio
    // the remaining fields are never written
    ensures r.liftSlope == c.liftSlope && r.skinFriction == c.skinFriction
    ensures r.zeroLiftAngleOfAttack == c.zeroLiftAngleOfAttack
    ensures r.chord == c.chord && r.span == c.span && r.autoAspectRation == c.autoAspectRation
  {
    c.(flapFraction := Clamp(c.flapFraction, 0.0, 0.4),
       stallAngleHigh := if c.stallAngleHigh < 0.0 then 0.0 else c.stallAngleHigh,
       stallAngleLow := if c.stallAngleLow > 0.0 then 0.0 else c.stallAngleLow,
       aspectRatio := if c.autoAspectRation then c.span / c.chord else c.aspectRatio)
  }

  /** Whether validation marks the asset dirty: some clamp fired or the aspect
      ratio was derived. */
  predicate MarksDirty(c: Config)
  {
    c.flapFraction > 0.4 || c.flapFraction < 0.0 || c.stallAngleHigh < 0.0 || c.stallAngleLow > 0.0
      || c.autoAspectRation
  }

  /** Validating a second time changes nothing. */
  lemma ValidatedIdempotent(c: Config)
    requires CanValidate(c)
    ensures CanValidate(Validated(c))
    ensures Validated(Validated(c)) == Validated(c)
  {
  }

  /** An in-range record without a derived aspect ratio is a fixed point. */
  lemma ValidatedFixesInRange(c: Config)
    requires InRange(c) && !c.autoAspectRation
    ensures Validated(c) == c
  {
  }

  /** The dirty flag is raised exactly when validation changes a field, except that
      deriving the aspect ratio always raises it, even when the value is unchanged. */
  lemma DirtyExactlyWhenChanged(c: Config)
    requires CanValidate(c)
    ensures c.autoAspectRation ==> MarksDirty(c)
    ensures !c.autoAspectRation ==> (MarksDirty(c) <==> Validated(c) != c)
  {
    if !c.autoAspectRation && MarksDirty(c) {
      if c.flapFraction > 0.4 || c.flapFraction < 0.0 {
        assert Validated(c).flapFraction != c.flapFraction;
      } else if c.stallAngleHigh < 0.0 {
        assert Validated(c).stallAngleHigh != c.stallAngleHigh;
      } else {
        assert Validated(c).stallAngleLow != c.stallAngleLow;
      }
    }
  }

  /** The initialisers already satisfy the validated ranges; a new asset derives an
      aspect ratio of 1 from its unit span and chord. */
  lemma DefaultInRange()
    ensures InRange(Default) && CanValidate(Default)
    ensures Validated(Default) == Default.(aspectRatio := 1.0)
  {
  }

  /** The asset itself, whose fields the editor edits and `OnValidate` rewrites. */
  class AeroSurfaceSO {
    var liftSlope: real
    var skinFriction: real
    var zeroLiftAngleOfAttack: real
    var stallAngleHigh: real
    var stallAngleLow: real
    var chord: real
    var flapFraction: real
    var span: real
    var autoAspectRation: bool
    var aspectRatio: real

    /** The current field values as a record. */
    function Snapshot(): Config
      reads this
    {
      Config(liftSlope, skinFriction, zeroLiftAngleOfAttack, stallAngleHigh, stallAngleLow,
             chord, flapFraction, span, autoAspectRation, aspectRatio)
    }

    constructor()
      ensures Snapshot() == Default
    {
      liftSlope := 6.28;
      skinFriction := 0.02;
      zeroLiftAngleOfAttack := 0.0;
      stallAngleHigh := 15.0;
      stallAngleLow := -15.0;
      chord := 1.0;
      flapFraction := 0.0;
      span := 1.0;
      autoAspectRation := true;
      aspectRatio := 2.0;
    }

    /** Clamps the fields in place and reports whether the asset must be marked dirty. */
    method OnValidate() returns (hasChanged: bool)
      requires CanValidate(Snapshot())
      modifies this
      ensures Snapshot() == Validated(old(Snapshot()))
      ensures hasChanged == MarksDirty(old(Snapshot()))
    {
      hasChanged := false;
      if flapFraction > 0.4 {
        flapFraction := 0.4;
        hasChanged := true;
      }
      if flapFraction < 0.0 {
        flapFraction := 0.0;
        hasChanged := true;
      }
      if stallAngleHigh < 0.0 {
        stallAngleHigh := 0.0;
        hasChanged := true;
      }
      if stallAngleLow > 0.0 {
        stallAngleLow := 0.0;
        hasChanged := true;
      }
      if autoAspectRation {
        aspectRatio := span / chord;
        hasChanged := true;
      }
    }
  }
}
