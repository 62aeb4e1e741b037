/**
 * Live tuning from the keyboard: while a key is held, each frame nudges one
 * simulation parameter (smoothing radius, gravity, pressure scalars or
 * target density) by a fixed step.
 */
module Hud {
  import opened Vectors
  import opened Fluid

  /** How much one frame with a key held changes a parameter. */
  const FLUID_PROPS_CHANGE_STEP: real := 0.05

  /** The vertical pull of the default gravity. */
  const GRAVITY_FORCE: real := 10.0

  /** The gravity the simulation starts with: straight down. */
  const DEFAULT_GRAVITY: Vec2 := Vec2(0.0, -GRAVITY_FORCE)

  /** The keys the tuning reacts to, and every other key. */
  datatype KeyCode = Digit1 | Digit2 | Digit3 | Digit4 | KeyQ | KeyW | KeyA | KeyS | KeyZ | KeyX
                   | OtherKey(scanCode: nat)

  /** How many keys the tuning reacts to. */
  const KEY_COUNT: nat := 10

  /** The order in which the held keys are examined: KeyAt(0) first. */
  function KeyAt(i: nat): (key: KeyCode)
    requires i < KEY_COUNT
    ensures !key.OtherKey?
  {
    match i
    case 0 => Digit1
    case 1 => Digit2
    case 2 => Digit3
    case 3 => Digit4
    case 4 => KeyQ
    case 5 => KeyW
    case 6 => KeyA
    case 7 => KeyS
    case 8 => KeyZ
    case _ => KeyX
  }

  /** The parameters the keys adjust. */
  datatype Parameter = SmoothingRadius | GravityY | PressureScalar | NearPressureScalar | TargetDensity

  /** The two tunable resources, the static fluid properties and the gravity, as a value. */
  datatype Settings = Settings(fluidProps: FluidProps, gravity: Vec2)

  /** The current value of a parameter. */
  function Value(s: Settings, p: Parameter): real {
    match p
    case SmoothingRadius => s.fluidProps.smoothingRadius
    case GravityY => s.gravity.y
    case PressureScalar => s.fluidProps.pressureScalar
    case NearPressureScalar => s.fluidProps.nearPressureScalar
    case TargetDensity => s.fluidProps.targetDensity
  }

  /** The parameter a listed key adjusts. */
  function Target(key: KeyCode): Parameter
    requires !key.OtherKey?
  {
    match key
    case Digit1 | Digit2 => SmoothingRadius
    case Digit3 | Digit4 => GravityY
    case KeyQ | KeyW => PressureScalar
    case KeyA | KeyS => NearPressureScalar
    case KeyZ | KeyX => TargetDensity
  }

  /** Whether a listed key raises (rather than lowers) its parameter. */
  predicate Raises(key: KeyCode) {
    key == Digit2 || key == Digit3 || key == KeyW || key == KeyS || key == KeyX
  }

  /**
   * A held key takes effect unless it is Digit1 and lowering the smoothing
   * radius by one step would leave it non-positive.
   */
  predicate Applies(s: Settings, pressed: set<KeyCode>, key: KeyCode) {
    key in pressed && (key == Digit1 ==> s.fluidProps.smoothingRadius - FLUID_PROPS_CHANGE_STEP > 0.0)
  }

  /**
   * The position (as in KeyAt) of the first key that takes effect, or
   * KEY_COUNT when none does.
   */
  function FirstApplicable(s: Settings, pressed: set<KeyCode>, from: nat): (k: nat)
    requires from <= KEY_COUNT
    ensures from <= k <= KEY_COUNT
    ensures forall m :: from <= m < k ==> !Applies(s, pressed, KeyAt(m))
    ensures k < KEY_COUNT ==> Applies(s, pressed, KeyAt(k))
    decreases KEY_COUNT - from
  {
    if from == KEY_COUNT || Applies(s, pressed, KeyAt(from)) then from
    else FirstApplicable(s, pressed, from + 1)
  }

  /** One step of a listed key: its parameter moves by one step up or down, nothing else moves. */
  function Nudge(s: Settings, key: KeyCode): Settings
    requires !key.OtherKey?
  {
    var delta := if Raises(key) then FLUID_PROPS_CHANGE_STEP else -FLUID_PROPS_CHANGE_STEP;
    var fp := s.fluidProps;
    match Target(key)
    case SmoothingRadius => s.(fluidProps := fp.(smoothingRadius := fp.smoothingRadius + delta))
    case GravityY => s.(gravity := Vec2(s.gravity.x, s.gravity.y + delta))
    case PressureScalar => s.(fluidProps := fp.(pressureScalar := fp.pressureScalar + delta))
    case NearPressureScalar => s.(fluidProps := fp.(nearPressureScalar := fp.nearPressureScalar + delta))
    case TargetDensity => s.(fluidProps := fp.(targetDensity := fp.targetDensity + delta))
  }

  /** The reference effect of one frame: the first key in order that takes effect, if any. */
  function Updated(s: Settings, pressed: set<KeyCode>): Settings {
    var k := FirstApplicable(s, pressed, 0);
    if k < KEY_COUNT then Nudge(s, KeyAt(k)) else s
  }

  /** The reference effect of a frame, unfolded into the order in which the keys are tested. */
  lemma UpdatedAsNudges(s: Settings, pressed: set<KeyCode>)
    ensures Updated(s, pressed) ==
      if Applies(s, pressed, Digit1) then Nudge(s, Digit1)
      else if Digit2 in pressed then Nudge(s, Digit2)
      else if Digit3 in pressed then Nudge(s, Digit3)
      else if Digit4 in pressed then Nudge(s, Digit4)
      else if KeyQ in pressed then Nudge(s, KeyQ)
      else if KeyW in pressed then Nudge(s, KeyW)
      else if KeyA in pressed then Nudge(s, KeyA)
      else if KeyS in pressed then Nudge(s, KeyS)
      else if KeyZ in pressed then Nudge(s, KeyZ)
      else if KeyX in pressed then Nudge(s, KeyX)
      else s
  {
  }

  /** The key-by-key chain, written as the field updates each key makes. */
  lemma NudgesAsFieldUpdates(s: Settings, pressed: set<KeyCode>)
    ensures var fp, g, d := s.fluidProps, s.gravity, FLUID_PROPS_CHANGE_STEP;
      (if Applies(s, pressed, Digit1) then Nudge(s, Digit1)
       else if Digit2 in pressed then Nudge(s, Digit2)
       else if Digit3 in pressed then Nudge(s, Digit3)
       else if Digit4 in pressed then Nudge(s, Digit4)
       else if KeyQ in pressed then Nudge(s, KeyQ)
       else if KeyW in pressed then Nudge(s, KeyW)
       else if KeyA in pressed then Nudge(s, KeyA)
       else if KeyS in pressed then Nudge(s, KeyS)
       else if KeyZ in pressed then Nudge(s, KeyZ)
       else if KeyX in pressed then Nudge(s, KeyX)
       else s) ==
      if Digit1 in pressed && fp.smoothingRadius - d > 0.0 then s.(fluidProps := fp.(smoothingRadius := fp.smoothingRadius - d))
      else if Digit2 in pressed then s.(fluidProps := fp.(smoothingRadius := fp.smoothingRadius + d))
      else if Digit3 in pressed then s.(gravity := Vec2(g.x, g.y + d))
      else if Digit4 in pressed then s.(gravity := Vec2(g.x, g.y - d))
      else if KeyQ in pressed then s.(fluidProps := fp.(pressureScalar := fp.pressureScalar - d))
      else if KeyW in pressed then s.(fluidProps := fp.(pressureScalar := fp.pressureScalar + d))
      else if KeyA in pressed then s.(fluidProps := fp.(nearPressureScalar := fp.nearPressureScalar - d))
      else if KeyS in pressed then s.(fluidProps := fp.(nearPressureScalar := fp.nearPressureScalar + d))
      else if KeyZ in pressed then s.(fluidProps := fp.(targetDensity := fp.targetDensity - d))
      else if KeyX in pressed then s.(fluidProps := fp.(targetDensity := fp.targetDensity + d))
      else s
  {
  }

  /** The resources `update_fluid_props` writes to. */
  class Tunables {
    var fluidProps: FluidProps
    var gravity: Vec2

    function Current(): Settings
      reads this
    {
      Settings(fluidProps, gravity)
    }

    /** The defaults: the static fluid properties and gravity straight down. */
    constructor ()
      ensures Current() == Settings(DEFAULT_FLUID_PROPS, DEFAULT_GRAVITY)
    {
      fluidProps := DEFAULT_FLUID_PROPS;
      gravity := DEFAULT_GRAVITY;
    }

    /**
     * `update_fluid_props`: the keys are tested in a fixed order and only
     * the first that takes effect changes its parameter.
     */
    method UpdateFluidProps(pressed: set<KeyCode>)
      modifies this
      ensures Current() == Updated(old(Current()), pressed)
    {
      UpdatedAsNudges(Current(), pressed);
      NudgesAsFieldUpdates(Current(), pressed);
      if Digit1 in pressed && fluidProps.smoothingRadius - FLUID_PROPS_CHANGE_STEP > 0.0 {
        fluidProps := fluidProps.(smoothingRadius := fluidProps.smoothingRadius - FLUID_PROPS_CHANGE_STEP);
      } else if Digit2 in pressed {
        fluidProps := fluidProps.(smoothingRadius := fluidProps.smoothingRadius + FLUID_PROPS_CHANGE_STEP);
      } else if Digit3 in pressed {
        gravity := Vec2(gravity.x, gravity.y + FLUID_PROPS_CHANGE_STEP);
      } else if Digit4 in pressed {
        gravity := Vec2(gravity.x, gravity.y - FLUID_PROPS_CHANGE_STEP);
      } else if KeyQ in pressed {
        fluidProps := fluidProps.(pressureScalar := fluidProps.pressureScalar - FLUID_PROPS_CHANGE_STEP);
      } else if KeyW in pressed {
        fluidProps := fluidProps.(pressureScalar := fluidProps.pressureScalar + FLUID_PROPS_CHANGE_STEP);
      } else if KeyA in pressed {
        fluidProps := fluidProps.(nearPressureScalar := fluidProps.nearPressureScalar - FLUID_PROPS_CHANGE_STEP);
      } else if KeyS in pressed {
        fluidProps := fluidProps.(nearPressureScalar := fluidProps.nearPressureScalar + FLUID_PROPS_CHANGE_STEP);
      } else if KeyZ in pressed {
        fluidProps := fluidProps.(targetDensity := fluidProps.targetDensity - FLUID_PROPS_CHANGE_STEP);
      } else if KeyX in pressed {
        fluidProps := fluidProps.(targetDensity := fluidProps.targetDensity + FLUID_PROPS_CHANGE_STEP);
      }
    }
  }

  /** At most one parameter changes per frame. */
  lemma AtMostOneParameterChanges(s: Settings, pressed: set<KeyCode>, p: Parameter, q: Parameter)
    requires Value(Updated(s, pressed), p) != Value(s, p)
    requires Value(Updated(s, pressed), q) != Value(s, q)
    ensures p == q
  {
  }

  /** The mass, radius, damping, viscosity and the horizontal gravity are never changed. */
  lemma UntunedFieldsUnchanged(s: Settings, pressed: set<KeyCode>)
    ensures var t := Updated(s, pressed);
            t.fluidProps.radius == s.fluidProps.radius &&
            t.fluidProps.collisionDamping == s.fluidProps.collisionDamping &&
            t.fluidProps.mass == s.fluidProps.mass &&
            t.fluidProps.viscosityStrength == s.fluidProps.viscosityStrength &&
            t.gravity.x == s.gravity.x
  {
  }

  /**
   * When a key takes effect, its parameter moves by exactly one step, up
   * for Digit2, Digit3, W, S and X and down for the others, and every other
   * parameter keeps its value.
   */
  lemma KeyEffect(s: Settings, pressed: set<KeyCode>)
    requires FirstApplicable(s, pressed, 0) < KEY_COUNT
    ensures var key := KeyAt(FirstApplicable(s, pressed, 0));
            var t := Updated(s, pressed);
            Value(t, Target(key)) - Value(s, Target(key))
              == (if Raises(key) then FLUID_PROPS_CHANGE_STEP else -FLUID_PROPS_CHANGE_STEP) &&
            forall p :: p != Target(key) ==> Value(t, p) == Value(s, p)
  {
  }

  /** A positive smoothing radius stays positive. */
  lemma SmoothingRadiusStaysPositive(s: Settings, pressed: set<KeyCode>)
    requires s.fluidProps.smoothingRadius > 0.0
    ensures Updated(s, pressed).fluidProps.smoothingRadius > 0.0
  {
  }

  /**
   * Keys are examined in order: a key takes effect exactly when it is held,
   * passes its guard and no earlier key in the order takes effect.
   */
  lemma FirstKeyWins(s: Settings, pressed: set<KeyCode>, i: nat)
    requires i < KEY_COUNT
    ensures FirstApplicable(s, pressed, 0) == i <==>
              Applies(s, pressed, KeyAt(i)) && forall m :: 0 <= m < i ==> !Applies(s, pressed, KeyAt(m))
  {
  }

  /**
   * Holding Digit1 at a radius of one step fails its guard, so the next key
   * in order is tried: with Digit2 also held, the radius grows instead.
   */
  lemma Digit1FallsThrough(s: Settings)
    requires s.fluidProps.smoothingRadius == FLUID_PROPS_CHANGE_STEP
    ensures Updated(s, {Digit1, Digit2}).fluidProps.smoothingRadius == 2.0 * FLUID_PROPS_CHANGE_STEP
  {
    assert !Applies(s, {Digit1, Digit2}, KeyAt(0));
    assert Applies(s, {Digit1, Digit2}, KeyAt(1));
  }

  /** Digit3 and Digit4 move only the vertical gravity; the fluid properties stay as they are. */
  lemma GravityKeysTouchOnlyGravityY(s: Settings, pressed: set<KeyCode>)
    requires FirstApplicable(s, pressed, 0) in {2, 3}
    ensures Updated(s, pressed).fluidProps == s.fluidProps
    ensures Updated(s, pressed).gravity.x == s.gravity.x
    ensures Updated(s, pressed).gravity.y == s.gravity.y + FLUID_PROPS_CHANGE_STEP ||
            Updated(s, pressed).gravity.y == s.gravity.y - FLUID_PROPS_CHANGE_STEP
  {
  }

  /** Without any of the listed keys nothing changes. */
  lemma NoListedKeyNoChange(s: Settings, pressed: set<KeyCode>)
    requires forall key :: key in pressed ==> key.OtherKey?
    ensures Updated(s, pressed) == s
  {
  }
}
