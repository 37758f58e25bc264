/** The pilot's controls (`PlaneController`): axis inputs and key toggles in
    `Update`, and the dispatch of the inputs to the control surfaces and the
    throttle to the engine in `FixedUpdate`. */
module Control {
  import opened Aero
  import opened Aircraft

  /** The "on" states of the three key toggles. */
  const ThrustOn: real := 1.0
  const FlapOn: real := 0.3
  const BrakesOn: real := 100.0

  /** A key press: a positive value switches off, anything else switches on. After
      a press the value is in one of its two states, and it is "on" exactly when it
      was not positive before. */
  function Toggle(value: real, on: real): (r: real)
    ensures r == 0.0 || r == on
    ensures r == on <==> value <= 0.0 || on == 0.0
  {
    if value > 0.0 then 0.0 else on
  }

  /** For a positive "on" state, pressing twice from either state returns to it;
      in particular two presses from 0 return to 0. */
  lemma ToggleTwice(value: real, on: real)
    requires on > 0.0
    requires value == 0.0 || value == on
    ensures Toggle(Toggle(value, on), on) == value
  {
  }

  /** The three toggles have positive "on" states, so each one alternates. */
  lemma TogglesAlternate(value: real)
    requires value == 0.0 || value == ThrustOn || value == FlapOn || value == BrakesOn
    ensures value == 0.0 || value == ThrustOn ==> Toggle(Toggle(value, ThrustOn), ThrustOn) == value
    ensures value == 0.0 || value == FlapOn ==> Toggle(Toggle(value, FlapOn), FlapOn) == value
    ensures value == 0.0 || value == BrakesOn ==> Toggle(Toggle(value, BrakesOn), BrakesOn) == value
  {
    if value == 0.0 || value == ThrustOn { ToggleTwice(value, ThrustOn); }
    if value == 0.0 || value == FlapOn { ToggleTwice(value, FlapOn); }
    if value == 0.0 || value == BrakesOn { ToggleTwice(value, BrakesOn); }
  }

  /** Whether the dispatch writes a surface: it must be present and marked as a
      control surface. */
  predicate Controlled(s: AeroSurface?)
  {
    s != null && s.isControlSurface
  }

  /** The editor default of the three control sensitivities. */
  const DefaultControlSensitivity: real := 0.2

  class PlaneController {
    /** The surfaces listed in the editor; an entry may be missing. */
    const controlSurfaces: seq<AeroSurface?>
    const rollControlSensitivity: real
    const pitchControlSensitivity: real
    const yawControlSensitivity: real
    const aircraftPhysics: AircraftPhysics
    /** The public `Pitch`, `Yaw`, `Roll` and `Flap` fields. */
    var pitch: real
    var yaw: real
    var roll: real
    var flap: real
    var thrustPercent: real
    var brakesTorque: real

    /** The sensitivities are set in the editor; `DefaultControlSensitivity` is
        what a fresh component starts with. */
    constructor(controlSurfaces: seq<AeroSurface?>, aircraftPhysics: AircraftPhysics,
                rollControlSensitivity: real, pitchControlSensitivity: real, yawControlSensitivity: real)
      ensures this.controlSurfaces == controlSurfaces && this.aircraftPhysics == aircraftPhysics
      ensures this.rollControlSensitivity == rollControlSensitivity
      ensures this.pitchControlSensitivity == pitchControlSensitivity
      ensures this.yawControlSensitivity == yawControlSensitivity
      ensures pitch == 0.0 && yaw == 0.0 && roll == 0.0 && flap == 0.0
      ensures thrustPercent == 0.0 && brakesTorque == 0.0
    {
      this.controlSurfaces := controlSurfaces;
      this.aircraftPhysics := aircraftPhysics;
      this.rollControlSensitivity := rollControlSensitivity;
      this.pitchControlSensitivity := pitchControlSensitivity;
      this.yawControlSensitivity := yawControlSensitivity;
      pitch, yaw, roll, flap := 0.0, 0.0, 0.0, 0.0;
      thrustPercent, brakesTorque := 0.0, 0.0;
    }

    /** The surfaces the dispatch may write. */
    function Surfaces(): set<AeroSurface?>
    {
      set i | 0 <= i < |controlSurfaces| :: controlSurfaces[i]
    }

    /** The angle the dispatch asks a surface for: the input of the surface's own
        axis times that axis's sensitivity, or for a flap the controller's `Flap`
        field, times the surface's multiplier. A centred stick, a retracted flap
        setting or a zero multiplier asks for no deflection. */
    function TargetAngle(s: AeroSurface, pitch: real, roll: real, yaw: real): (r: real)
      reads this
      ensures s.inputMultiplyer == 0.0 ==> r == 0.0
      ensures s.inputType != Flap && pitch == 0.0 && roll == 0.0 && yaw == 0.0 ==> r == 0.0
      ensures s.inputType == Flap && flap == 0.0 ==> r == 0.0
    {
      match s.inputType
      case Pitch => pitch * pitchControlSensitivity * s.inputMultiplyer
      case Roll => roll * rollControlSensitivity * s.inputMultiplyer
      case Yaw => yaw * yawControlSensitivity * s.inputMultiplyer
      case Flap => this.flap * s.inputMultiplyer
    }

    /** A flap surface's target ignores the stick inputs. */
    lemma FlapTargetIgnoresInputs(s: AeroSurface, pitch: real, roll: real, yaw: real,
                                  pitch': real, roll': real, yaw': real)
      requires s.inputType == Flap
      ensures TargetAngle(s, pitch, roll, yaw) == TargetAngle(s, pitch', roll', yaw')
    {
    }

    /** `SetControlSurfacesAngles`: every controlled surface gets its target angle,
        clamped, and every other listed surface keeps its flap angle. The `flap`
        argument is not read. */
    method SetControlSurfacesAngles(pitch: real, roll: real, yaw: real, flap: real)
      modifies Surfaces()`flapAngle
      ensures forall i :: 0 <= i < |controlSurfaces| && Controlled(controlSurfaces[i]) ==>
        controlSurfaces[i].flapAngle == ClampFlapAngle(TargetAngle(controlSurfaces[i], pitch, roll, yaw))
      ensures forall i :: 0 <= i < |controlSurfaces| && Controlled(controlSurfaces[i]) ==>
        -MaxFlapAngle <= controlSurfaces[i].flapAngle <= MaxFlapAngle
      ensures forall i :: 0 <= i < |controlSurfaces| && controlSurfaces[i] != null && !controlSurfaces[i].isControlSurface ==>
        controlSurfaces[i].flapAngle == old(controlSurfaces[i].flapAngle)
    {
      for i := 0 to |controlSurfaces|
        invariant forall j :: 0 <= j < i && Controlled(controlSurfaces[j]) ==>
          controlSurfaces[j].flapAngle == ClampFlapAngle(TargetAngle(controlSurfaces[j], pitch, roll, yaw))
        invariant forall j :: 0 <= j < |controlSurfaces| && controlSurfaces[j] != null && !controlSurfaces[j].isControlSurface ==>
          controlSurfaces[j].flapAngle == old(controlSurfaces[j].flapAngle)
      {
        var surface := controlSurfaces[i];
        if surface == null || !surface.isControlSurface {
          continue;
        }
        Dispatch(surface, pitch, roll, yaw);
      }
    }

    /** The switch on the surface's input type inside the dispatch loop: the
        surface is set to its target angle. */
    method Dispatch(surface: AeroSurface, pitch: real, roll: real, yaw: real)
      modifies surface`flapAngle
      ensures surface.flapAngle == ClampFlapAngle(TargetAngle(surface, pitch, roll, yaw))
    {
      surface.SetFlapAngle(TargetAngle(surface, pitch, roll, yaw));
    }

    /** `Update`: reads the three axes into the stick fields and flips the throttle,
        the flap setting and the brakes on their key presses. */
    method Update(vertical: real, horizontal: real, yawAxis: real, spaceDown: bool, fDown: bool, bDown: bool)
      modifies this
      ensures pitch == vertical && roll == horizontal && yaw == yawAxis
      ensures thrustPercent == if spaceDown then Toggle(old(thrustPercent), ThrustOn) else old(thrustPercent)
      ensures flap == if fDown then Toggle(old(flap), FlapOn) else old(flap)
      ensures brakesTorque == if bDown then Toggle(old(brakesTorque), BrakesOn) else old(brakesTorque)
    {
      pitch := vertical;
      roll := horizontal;
      yaw := yawAxis;
      if spaceDown {
        thrustPercent := Toggle(thrustPercent, ThrustOn);
      }
      if fDown {
        flap := Toggle(flap, FlapOn);
      }
      if bDown {
        brakesTorque := Toggle(brakesTorque, BrakesOn);
      }
    }

    /** `FixedUpdate`: dispatches the stored inputs to the surfaces and hands the
        throttle to the engine. */
    method FixedUpdate()
      modifies Surfaces()`flapAngle, aircraftPhysics`thrustPercent
      ensures forall i :: 0 <= i < |controlSurfaces| && Controlled(controlSurfaces[i]) ==>
        controlSurfaces[i].flapAngle == ClampFlapAngle(TargetAngle(controlSurfaces[i], pitch, roll, yaw))
      ensures forall i :: 0 <= i < |controlSurfaces| && controlSurfaces[i] != null && !controlSurfaces[i].isControlSurface ==>
        controlSurfaces[i].flapAngle == old(controlSurfaces[i].flapAngle)
      ensures aircraftPhysics.thrustPercent == thrustPercent
    {
      SetControlSurfacesAngles(pitch, roll, yaw, flap);
      aircraftPhysics.SetThrustPercent(thrustPercent);
    }
  }
}
