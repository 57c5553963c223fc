/** The per-frame control mapping of `PlayerController`: input smoothing,
    the thrust accumulator, the assisted (hand-tracked) turn rate, the manual
    angular rates and the two control-scheme toggles. Engine calls
    (`Translate`, `Rotate`, `Quaternion.Euler`) are not modelled; `Update`
    returns the vectors it would hand to them. */
module Flight {
  import opened UnityMath

  /** The serialized tuning fields of the controller. */
  datatype Tuning = Tuning(
    maxThrust: real,
    thrustRate: real,
    maxVThrust: real,
    maxYaw: real,
    maxRoll: real,
    maxPitch: real,
    maxAssistedTheta: real)

  datatype Stick = Stick(x: real, y: real)

  /** Everything `Update` polls from `Input` and `OVRInput` in one frame,
      plus the local positions of the three tracked rig anchors. */
  datatype FrameInput = FrameInput(
    keyQDown: bool,
    keyEDown: bool,
    primaryThumbstickDown: bool,
    keyMDown: bool,
    secondaryIndexTriggerDown: bool,
    keySpace: bool,
    primaryHandTrigger: real,
    secondaryHandTrigger: real,
    axisVertical: real,
    axisHorizontal: real,
    axisVerticalAlt: real,
    axisHorizontalAlt: real,
    primaryThumbstick: Stick,
    secondaryThumbstick: Stick,
    leftTrack: Vec3,
    rightTrack: Vec3,
    headTrack: Vec3)

  /** The axis values `Input.GetAxis` and the thumbsticks report lie in [-1, 1]. */
  predicate AxesInUnit(input: FrameInput) {
    && InUnit(input.axisVertical) && InUnit(input.axisHorizontal)
    && InUnit(input.axisVerticalAlt) && InUnit(input.axisHorizontalAlt)
    && InUnit(input.primaryThumbstick.x) && InUnit(input.primaryThumbstick.y)
    && InUnit(input.secondaryThumbstick.x) && InUnit(input.secondaryThumbstick.y)
  }

  // ---------------------------------------------------------------------
  // Pure mappings

  /** `inputSmoothing`: the signed square of the input. */
  function InputSmoothing(input: real): (r: real)
    ensures Abs(r) == Sq(input)
    ensures r < 0.0 <==> input < 0.0
  {
    SqEven(input);
    SqNonNegative(input);
    assert input != 0.0 ==> Sq(input) > 0.0 by {
      if input != 0.0 { SqPositive(input); }
    }
    Sign(input) * Sq(Abs(input))
  }

  /** Smoothing is an odd function and leaves zero at zero. */
  lemma SmoothingIsOdd(x: real)
    ensures InputSmoothing(-x) == -InputSmoothing(x)
    ensures InputSmoothing(0.0) == 0.0
  {
  }

  /** On the stick range, smoothing stays in range, keeps the sign and
      never enlarges the input. */
  lemma SmoothingBounded(x: real)
    requires InUnit(x)
    ensures InUnit(InputSmoothing(x))
    ensures Abs(InputSmoothing(x)) <= Abs(x)
    ensures InputSmoothing(x) < 0.0 <==> x < 0.0
    ensures InputSmoothing(x) == 0.0 <==> x == 0.0
  {
    SqBelowUnit(Abs(x));
    SqEven(x);
    if x != 0.0 {
      SqPositive(x);
    }
  }

  /** `thrustProcessing`: the signed thrust change of one frame. */
  function ThrustProcessing(isThrusting: bool, rate: real): (r: real)
    ensures isThrusting ==> r == rate
    ensures !isThrusting ==> r + rate == 0.0
  {
    if isThrusting then rate else -rate
  }

  /** The accumulate-then-clamp step of the thrust field. */
  function ThrustStep(thrust: real, isThrusting: bool, rate: real, maxThrust: real): (r: real)
    ensures 0.0 <= maxThrust ==> 0.0 <= r <= maxThrust
  {
    Clamp(thrust + ThrustProcessing(isThrusting, rate), 0.0, maxThrust)
  }

  /** With a non-negative rate and thrust in range, holding the trigger
      never lowers thrust and releasing it never raises it; away from the
      bounds each frame moves thrust by exactly the rate. */
  lemma ThrustStepMonotone(thrust: real, rate: real, maxThrust: real)
    requires 0.0 <= rate
    requires 0.0 <= thrust <= maxThrust
    ensures thrust <= ThrustStep(thrust, true, rate, maxThrust)
    ensures ThrustStep(thrust, false, rate, maxThrust) <= thrust
    ensures thrust + rate <= maxThrust ==> ThrustStep(thrust, true, rate, maxThrust) == thrust + rate
    ensures 0.0 <= thrust - rate ==> ThrustStep(thrust, false, rate, maxThrust) == thrust - rate
  {
  }

  /** The mean of the two hand triggers: it lies between them. */
  function HandTriggerAverage(input: FrameInput): (r: real)
    ensures Min(input.primaryHandTrigger, input.secondaryHandTrigger) <= r
    ensures r <= Max(input.primaryHandTrigger, input.secondaryHandTrigger)
  {
    0.5 * (input.primaryHandTrigger + input.secondaryHandTrigger)
  }

  /** Whether the main thruster fires: the space bar on the keyboard
      scheme, otherwise the two hand triggers pressed past 0.3 on average. */
  function IsThrusting(keyboard: bool, input: FrameInput): (r: bool)
    ensures keyboard ==> (r <==> input.keySpace)
    ensures !keyboard ==> (r <==> input.primaryHandTrigger + input.secondaryHandTrigger > 0.6)
  {
    if keyboard then input.keySpace else HandTriggerAverage(input) > 0.3
  }

  /** A flag after a frame whose key press flips it. */
  function Toggled(flag: bool, pressed: bool): (r: bool)
    ensures r != flag <==> pressed
  {
    if pressed then !flag else flag
  }

  /** Pressing a toggle key twice restores the scheme. */
  lemma ToggleTwice(flag: bool)
    ensures Toggled(Toggled(flag, true), true) == flag
  {
  }

  // ---------------------------------------------------------------------
  // Assisted scheme

  /** `Mathf.Asin(vDist / euclidean) * Mathf.Rad2Deg`, `None` for NaN: the
      quotient is undefined when the points coincide, and asin is undefined
      off [-1, 1]. */
  function AsinAngle(a: Vec3, b: Vec3, math: MathLib): (r: Option<real>)
    ensures r.Some? ==> Distance(a, b, math) != 0.0
  {
    match Quotient(a.y - b.y, Distance(a, b, math))
    case None => None
    case Some(q) => if InUnit(q) then Some(math.asinDeg(q)) else None
  }

  /** `calculateTheta`: the negated angle, clamped to the assisted range. A
      NaN angle passes through `Mathf.Clamp` and the negation unchanged. */
  function CalculateTheta(a: Vec3, b: Vec3, maxTheta: real, math: MathLib): (r: Option<real>)
    ensures r.None? <==> AsinAngle(a, b, math).None?
    ensures r.Some? ==> -r.value == Clamp(AsinAngle(a, b, math).value, -maxTheta, maxTheta)
    ensures r.Some? && 0.0 <= maxTheta ==> -maxTheta <= r.value <= maxTheta
  {
    match AsinAngle(a, b, math)
    case None => None
    case Some(angle) => Some(-Clamp(angle, -maxTheta, maxTheta))
  }

  /** With a true square root, the asin argument always lies in [-1, 1], so
      the angle is NaN exactly when the two points coincide. */
  lemma AngleDefinedIffApart(a: Vec3, b: Vec3, math: MathLib)
    requires Distance(a, b, math) >= 0.0
    requires Sq(Distance(a, b, math)) == SqrMagnitude(Sub(a, b))
    ensures AsinAngle(a, b, math).Some? <==> a != b
  {
    var e := Distance(a, b, math);
    var d := Sub(a, b);
    SqrMagnitudeSign(d);
    if a == b {
      assert d == Zero;
      if e != 0.0 {
        SqPositive(e);
      }
    } else {
      assert d != Zero;
      assert e > 0.0;
      var v := a.y - b.y;
      SqNonNegative(d.x);
      SqNonNegative(d.z);
      SqBound(v, e);
      UnitQuotient(v, e);
    }
  }

  /** Hands level with each other (and apart) give a bank angle of zero. */
  lemma LevelPointsGiveZeroTheta(a: Vec3, b: Vec3, maxTheta: real, math: MathLib)
    requires a.y == b.y && a != b
    requires Distance(a, b, math) >= 0.0
    requires Sq(Distance(a, b, math)) == SqrMagnitude(Sub(a, b))
    requires math.asinDeg(0.0) == 0.0
    requires 0.0 <= maxTheta
    ensures CalculateTheta(a, b, maxTheta, math) == Some(0.0)
  {
    AngleDefinedIffApart(a, b, math);
    var e := Distance(a, b, math);
    assert (a.y - b.y) / e == 0.0;
  }

  function Negated(v: Option<real>): (r: Option<real>)
    ensures r.Some? <==> v.Some?
    ensures r.Some? ==> r.value + v.value == 0.0
  {
    match v
    case None => None
    case Some(x) => Some(-x)
  }

  /** The bank and pitch angles of the assisted scheme; `None` is a NaN. */
  datatype AssistedInputs = AssistedInputs(isBanking: Option<real>, isPitching: Option<real>)

  const ShoulderOffset := Vec3(0.0, 0.4, 0.0)

  /** `GetAssistedMovementInputs`: on the keyboard, the horizontal axis
      scaled by the assisted range is the bank and the vertical axis the
      pitch. In VR the bank is the negated angle from the left to the right
      hand, and the pitch is the angle from the average of the two hands to
      the head lowered by the shoulder offset. */
  function GetAssistedMovementInputs(keyboard: bool, input: FrameInput, maxTheta: real, math: MathLib): (r: AssistedInputs)
    ensures keyboard ==> r.isBanking.Some? && r.isPitching.Some?
    ensures 0.0 <= maxTheta && (keyboard ==> AxesInUnit(input)) ==>
      && (r.isBanking.Some? ==> Abs(r.isBanking.value) <= maxTheta)
      && (r.isPitching.Some? ==> Abs(r.isPitching.value) <= maxTheta)
    ensures maxTheta == 0.0 ==> r.isBanking.None? || r.isBanking.value == 0.0
  {
    var averageHand := Scale(0.5, Add(input.leftTrack, input.rightTrack));
    var bank :=
      if keyboard then Some(input.axisHorizontal * maxTheta)
      else Negated(CalculateTheta(input.leftTrack, input.rightTrack, maxTheta, math));
    var pitch :=
      if keyboard then Some(input.axisVertical * maxTheta)
      else CalculateTheta(averageHand, Sub(input.headTrack, ShoulderOffset), maxTheta, math);
    assert keyboard && 0.0 <= maxTheta && AxesInUnit(input) ==>
      Abs(input.axisHorizontal * maxTheta) <= maxTheta && Abs(input.axisVertical * maxTheta) <= maxTheta
    by {
      if keyboard && 0.0 <= maxTheta && AxesInUnit(input) {
        UnitScaleBounded(input.axisHorizontal, maxTheta);
        UnitScaleBounded(input.axisVertical, maxTheta);
      }
    }
    AssistedInputs(bank, pitch)
  }

  /** A value no larger in size than a positive bound, divided by it, lies
      in [-1, 1]. */
  lemma UnitQuotient(b: real, t: real)
    requires 0.0 < t && -t <= b <= t
    ensures InUnit(b / t)
  {
    var q := b / t;
    assert q * t == b;
    if q > 1.0 {
      MulStrictMono(1.0, q, t);
    } else if q < -1.0 {
      MulStrictMono(q, -1.0, t);
    }
  }

  /** The assisted turn rate `isBanking / maxAssistedTheta * maxPitch`,
      with a NaN replaced by zero. Its type makes it always a finite number. */
  function TurnRate(isBanking: Option<real>, maxTheta: real, maxPitch: real): (r: real)
    ensures isBanking.None? ==> r == 0.0
    // a level bank over a zero range is 0/0, a NaN, which the guard zeroes
    ensures isBanking == Some(0.0) && maxTheta == 0.0 ==> r == 0.0
    ensures isBanking.Some? && maxTheta != 0.0 ==> r * maxTheta == isBanking.value * maxPitch
  {
    match isBanking
    case None => 0.0
    case Some(b) =>
      match Quotient(b, maxTheta)
      case None => 0.0
      case Some(q) => q * maxPitch
  }

  /** A bank angle inside the assisted range never turns faster than the
      pitch rate allows. */
  lemma TurnRateBounded(b: real, maxTheta: real, maxPitch: real)
    requires Abs(b) <= maxTheta
    ensures Abs(TurnRate(Some(b), maxTheta, maxPitch)) <= Abs(maxPitch)
  {
    if maxTheta != 0.0 {
      assert 0.0 < maxTheta && -maxTheta <= b <= maxTheta;
      UnitQuotient(b, maxTheta);
      UnitScaleBounded(b / maxTheta, maxPitch);
    }
  }

  // ---------------------------------------------------------------------
  // Manual scheme

  datatype ManualInputs = ManualInputs(isVThrusting: real, isRolling: real, isPitching: real, isYawing: real)

  /** `GetManualMovementInputs`: on the keyboard, the alternate vertical
      axis drives vertical thrust, the horizontal axis roll, the vertical
      axis pitch and the alternate horizontal axis yaw. In VR the secondary
      thumbstick's y gives vertical thrust and its x yaw; the primary
      thumbstick's x gives roll and its y pitch. */
  function GetManualMovementInputs(keyboard: bool, input: FrameInput): (r: ManualInputs)
    ensures AxesInUnit(input) ==>
      InUnit(r.isVThrusting) && InUnit(r.isRolling) && InUnit(r.isPitching) && InUnit(r.isYawing)
  {
    if keyboard then
      ManualInputs(input.axisVerticalAlt, input.axisHorizontal, input.axisVertical, input.axisHorizontalAlt)
    else
      ManualInputs(input.secondaryThumbstick.y, input.primaryThumbstick.x,
                   input.primaryThumbstick.y, input.secondaryThumbstick.x)
  }

  datatype Rates = Rates(vThrust: real, roll: real, yaw: real, pitch: real)

  /** The manual scheme's rates: each smoothed input times its maximum,
      pitch inverted. */
  function ManualRates(m: ManualInputs, t: Tuning): (r: Rates)
    ensures r.pitch + InputSmoothing(m.isPitching) * t.maxPitch == 0.0
    ensures 0.0 < t.maxPitch ==> (r.pitch < 0.0 <==> m.isPitching > 0.0)
    ensures InUnit(m.isVThrusting) ==> Abs(r.vThrust) <= Abs(t.maxVThrust)
    ensures InUnit(m.isRolling) ==> Abs(r.roll) <= Abs(t.maxRoll)
    ensures InUnit(m.isYawing) ==> Abs(r.yaw) <= Abs(t.maxYaw)
    ensures InUnit(m.isPitching) ==> Abs(r.pitch) <= Abs(t.maxPitch)
  {
    var r := Rates(
      InputSmoothing(m.isVThrusting) * t.maxVThrust,
      InputSmoothing(m.isRolling) * t.maxRoll,
      InputSmoothing(m.isYawing) * t.maxYaw,
      -InputSmoothing(m.isPitching) * t.maxPitch);
    ScaledSmoothingBounded(m.isVThrusting, t.maxVThrust);
    ScaledSmoothingBounded(m.isRolling, t.maxRoll);
    ScaledSmoothingBounded(m.isYawing, t.maxYaw);
    ScaledSmoothingBounded(m.isPitching, t.maxPitch);
    assert 0.0 < t.maxPitch ==> (r.pitch < 0.0 <==> m.isPitching > 0.0) by {
      var s := InputSmoothing(m.isPitching);
      if 0.0 < t.maxPitch {
        if m.isPitching > 0.0 {
          SqPositive(m.isPitching);
          PositiveProduct(s, t.maxPitch);
        } else {
          MulMono(s, 0.0, t.maxPitch);
        }
      }
    }
    r
  }

  lemma ScaledSmoothingBounded(x: real, k: real)
    ensures InUnit(x) ==> Abs(InputSmoothing(x) * k) <= Abs(k)
    ensures InUnit(x) ==> Abs(-InputSmoothing(x) * k) <= Abs(k)
  {
    if InUnit(x) {
      SmoothingBounded(x);
      UnitScaleBounded(InputSmoothing(x), k);
      UnitScaleBounded(-InputSmoothing(x), k);
    }
  }

  // ---------------------------------------------------------------------
  // The controller object

  /** The vectors one frame hands to the engine. */
  datatype Motion =
    | AssistedMotion(translation: Vec3, heading: Vec3, tiltPitch: Option<real>, tiltBank: Option<real>, anchorYaw: real)
    | ManualMotion(translation: Vec3, rotation: Vec3)

  /** One frame's effect: whether the player fired, and the motion. */
  datatype Frame = Frame(fire: bool, motion: Motion)

  /** The fixed axis offset the assisted heading is built on. */
  const AxisOffset := Vec3(-90.0, 0.0, 0.0)

  /** The assisted turn rate of one frame, from the bank angle. Within the
      assisted range it never exceeds the pitch rate in size. */
  function AssistedTurn(t: Tuning, keyboard: bool, input: FrameInput, math: MathLib): (r: real)
    ensures 0.0 <= t.maxAssistedTheta && (keyboard ==> AxesInUnit(input)) ==> Abs(r) <= Abs(t.maxPitch)
  {
    var bank := GetAssistedMovementInputs(keyboard, input, t.maxAssistedTheta, math).isBanking;
    if bank.Some? && 0.0 <= t.maxAssistedTheta && (keyboard ==> AxesInUnit(input)) then
      TurnRateBounded(bank.value, t.maxAssistedTheta, t.maxPitch);
      TurnRate(bank, t.maxAssistedTheta, t.maxPitch)
    else
      TurnRate(bank, t.maxAssistedTheta, t.maxPitch)
  }

  /** A NaN bank angle (hands together) gives no turn. */
  lemma UndefinedBankGivesNoTurn(t: Tuning, keyboard: bool, input: FrameInput, math: MathLib)
    requires GetAssistedMovementInputs(keyboard, input, t.maxAssistedTheta, math).isBanking.None?
    ensures AssistedTurn(t, keyboard, input, math) == 0.0
  {
  }

  /** On the keyboard, a centred horizontal axis gives no turn, whatever
      the tuning (a zero assisted range included). */
  lemma CentredKeyboardGivesNoTurn(t: Tuning, input: FrameInput, math: MathLib)
    requires input.axisHorizontal == 0.0
    ensures AssistedTurn(t, true, input, math) == 0.0
  {
  }

  /** The tracked heading after a frame turning at `turn`: only the bank
      (z) angle moves, by the rate times the frame time. */
  function Turned(rotation: Vec3, turn: real, dt: real): (r: Vec3)
    ensures r.x == rotation.x && r.y == rotation.y
    ensures r.z - rotation.z == dt * turn
    ensures turn == 0.0 ==> r == rotation
  {
    Add(rotation, Scale(dt, Vec3(0.0, 0.0, turn)))
  }

  /** A bounded rate turns the heading, per frame, by at most the bound
      times the frame time. */
  lemma HeadingTurnBounded(rotation: Vec3, turn: real, bound: real, dt: real)
    requires 0.0 <= dt && Abs(turn) <= Abs(bound)
    ensures Abs(Turned(rotation, turn, dt).z - rotation.z) <= dt * Abs(bound)
  {
    ScaledWithin(dt, turn, bound, Turned(rotation, turn, dt).z - rotation.z);
  }

  /** The assisted branch of a frame, from the old tracked heading: the
      motion handed to the engine and the new heading. Thrust moves the
      plane along its own up axis; the tilt offsets are the negated angles. */
  function AssistedStep(t: Tuning, rotation: Vec3, thrust: real, keyboard: bool,
                        input: FrameInput, dt: real, math: MathLib): (r: (Motion, Vec3))
    ensures r.1 == Turned(rotation, AssistedTurn(t, keyboard, input, math), dt)
    ensures r.0.AssistedMotion?
    ensures r.0.heading == Add(r.1, AxisOffset) && r.0.anchorYaw == r.1.z + 180.0
    ensures r.0.translation == Vec3(0.0, dt * thrust, 0.0)
    ensures r.0.tiltPitch == Negated(GetAssistedMovementInputs(keyboard, input, t.maxAssistedTheta, math).isPitching)
    ensures r.0.tiltBank == Negated(GetAssistedMovementInputs(keyboard, input, t.maxAssistedTheta, math).isBanking)
  {
    var a := GetAssistedMovementInputs(keyboard, input, t.maxAssistedTheta, math);
    var heading := Turned(rotation, TurnRate(a.isBanking, t.maxAssistedTheta, t.maxPitch), dt);
    (AssistedMotion(Scale(dt, Scale(thrust, Up)), Add(heading, AxisOffset),
                    Negated(a.isPitching), Negated(a.isBanking), heading.z + 180.0),
     heading)
  }

  /** A NaN bank angle is zeroed in the turn rate, so the heading keeps
      still, but it reaches the tilt handed to `Rotate` unguarded. */
  lemma UndefinedBankTiltsNaN(t: Tuning, rotation: Vec3, thrust: real, keyboard: bool,
                              input: FrameInput, dt: real, math: MathLib)
    requires GetAssistedMovementInputs(keyboard, input, t.maxAssistedTheta, math).isBanking.None?
    ensures AssistedStep(t, rotation, thrust, keyboard, input, dt, math).0.tiltBank.None?
    ensures AssistedStep(t, rotation, thrust, keyboard, input, dt, math).1 == rotation
  {
    UndefinedBankGivesNoTurn(t, keyboard, input, math);
  }

  /** The manual branch's motion: main thrust along up, vertical thrust
      along forward, and the three rates with roll inverted, all scaled by
      the frame time. */
  function ManualMotionOf(thrust: real, rates: Rates, dt: real): (r: Motion)
    ensures r.ManualMotion?
    ensures r.translation == Vec3(0.0, dt * thrust, dt * rates.vThrust)
    ensures r.rotation == Vec3(dt * rates.pitch, -(dt * rates.roll), dt * rates.yaw)
  {
    ManualMotion(Scale(dt, Add(Scale(thrust, Up), Scale(rates.vThrust, Forward))),
                 Scale(dt, Vec3(rates.pitch, -rates.roll, rates.yaw)))
  }

  class PlayerController {
    const tuning: Tuning
    var thrust: real
    var vThrustRate: real
    var yawRate: real
    var rollRate: real
    var pitchRate: real
    /** The heading the assisted scheme accumulates, kept apart from the
        transform's orientation. */
    var playerRotation: Vec3
    var keyboardControl: bool
    var assistedControl: bool

    ghost predicate Valid()
      reads this
    {
      0.0 <= tuning.maxThrust ==> 0.0 <= thrust <= tuning.maxThrust
    }

    /** Field initialisers and `Start`: the heading starts at the
        transform's Euler angles. */
    constructor (tuning: Tuning, startRotation: Vec3)
      ensures Valid()
      ensures this.tuning == tuning && playerRotation == startRotation
      ensures thrust == 0.0 && vThrustRate == 0.0 && yawRate == 0.0 && rollRate == 0.0 && pitchRate == 0.0
      ensures !keyboardControl && assistedControl
    {
      this.tuning := tuning;
      thrust := 0.0;
      vThrustRate, yawRate, rollRate, pitchRate := 0.0, 0.0, 0.0, 0.0;
      playerRotation := startRotation;
      keyboardControl := false;
      assistedControl := true;
    }

    /** One frame of `Update`. */
    method Update(input: FrameInput, dt: real, math: MathLib) returns (frame: Frame)
      requires Valid()
      modifies this
      ensures Valid()
      ensures keyboardControl == Toggled(old(keyboardControl), input.keyQDown)
      ensures assistedControl == Toggled(old(assistedControl), input.keyEDown || input.primaryThumbstickDown)
      ensures frame.fire == (input.keyMDown || input.secondaryIndexTriggerDown)
      ensures thrust == ThrustStep(old(thrust), IsThrusting(keyboardControl, input), tuning.thrustRate, tuning.maxThrust)
      ensures assistedControl ==>
        && vThrustRate == old(vThrustRate) && rollRate == old(rollRate)
        && yawRate == old(yawRate) && pitchRate == old(pitchRate)
        && (frame.motion, playerRotation) == AssistedStep(tuning, old(playerRotation), thrust, keyboardControl, input, dt, math)
      ensures !assistedControl ==>
        && playerRotation == old(playerRotation)
        && Rates(vThrustRate, rollRate, yawRate, pitchRate) == ManualRates(GetManualMovementInputs(keyboardControl, input), tuning)
        && frame.motion == ManualMotionOf(thrust, Rates(vThrustRate, rollRate, yawRate, pitchRate), dt)
    {
      if input.keyQDown {
        keyboardControl := !keyboardControl;
      }
      if input.keyEDown || input.primaryThumbstickDown {
        assistedControl := !assistedControl;
      }

      var fire := input.keyMDown || input.secondaryIndexTriggerDown;

      var isThrusting := IsThrusting(keyboardControl, input);
      AccumulateThrust(isThrusting);

      var motion;
      if assistedControl {
        motion := SteerAssisted(input, dt, math);
      } else {
        motion := SteerManual(input, dt);
      }
      frame := Frame(fire, motion);
    }

    /** The thrust accumulator: add or remove one rate, then clamp. */
    method AccumulateThrust(isThrusting: bool)
      modifies this`thrust
      ensures thrust == ThrustStep(old(thrust), isThrusting, tuning.thrustRate, tuning.maxThrust)
    {
      thrust := thrust + ThrustProcessing(isThrusting, tuning.thrustRate);
      thrust := Clamp(thrust, 0.0, tuning.maxThrust);
    }

    /** The assisted branch of `Update`: advance the tracked heading by the
        turn rate and report the tilt offsets. */
    method SteerAssisted(input: FrameInput, dt: real, math: MathLib) returns (motion: Motion)
      modifies this`playerRotation
      ensures (motion, playerRotation) == AssistedStep(tuning, old(playerRotation), thrust, keyboardControl, input, dt, math)
    {
      var movement := GetAssistedMovementInputs(keyboardControl, input, tuning.maxAssistedTheta, math);
      var translation := Scale(dt, Scale(thrust, Up));
      var actualTurnRate := TurnRate(movement.isBanking, tuning.maxAssistedTheta, tuning.maxPitch);
      playerRotation := Add(playerRotation, Scale(dt, Vec3(0.0, 0.0, actualTurnRate)));
      var heading := Add(playerRotation, AxisOffset);
      motion := AssistedMotion(translation, heading, Negated(movement.isPitching),
                               Negated(movement.isBanking), playerRotation.z + 180.0);
    }

    /** The manual branch of `Update`: set the four rates from the smoothed
        inputs and report the translation and rotation. */
    method SteerManual(input: FrameInput, dt: real) returns (motion: Motion)
      modifies this`vThrustRate, this`rollRate, this`yawRate, this`pitchRate
      ensures Rates(vThrustRate, rollRate, yawRate, pitchRate) == ManualRates(GetManualMovementInputs(keyboardControl, input), tuning)
      ensures motion == ManualMotionOf(thrust, Rates(vThrustRate, rollRate, yawRate, pitchRate), dt)
    {
      var movement := GetManualMovementInputs(keyboardControl, input);
      var rates := ManualRates(movement, tuning);
      vThrustRate := rates.vThrust;
      var vThrustVector := Scale(vThrustRate, Forward);
      var combinedThrustVector := Add(Scale(thrust, Up), vThrustVector);
      rollRate := rates.roll;
      yawRate := rates.yaw;
      pitchRate := rates.pitch;
      motion := ManualMotion(Scale(dt, combinedThrustVector), Scale(dt, Vec3(pitchRate, -rollRate, yawRate)));
    }
  }
}
