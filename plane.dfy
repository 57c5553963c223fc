/** `PlaneControl`: a keyboard-simulated joystick whose positions follow
    the input axes at a limited rate, the torque and force handed to the
    rigid body each physics step, and the hit points lost to lasers. Engine
    calls (`AddRelativeTorque`, `AddRelativeForce`, `Instantiate`) are not
    modelled; the methods return the values they would pass. */
module Plane {
  import opened UnityMath

  // ---------------------------------------------------------------------
  // Rate-limited follow

  /** The largest move of one frame, `|delta| * dt`. */
  function MaxStep(delta: real, dt: real): (r: real)
    ensures 0.0 <= dt ==> 0.0 <= r
  {
    if 0.0 <= dt then
      NonNegativeProduct(Abs(delta), dt);
      Abs(delta) * dt
    else
      Abs(delta) * dt
  }

  /** `ShiftTowards`: move `value` towards `target` by at most
      `|delta| * dt`, stopping at the target. */
  function ShiftTowards(value: real, target: real, delta: real, dt: real): (r: real)
    // never overshoots: the result lies between the value and the target
    ensures 0.0 <= dt ==> Min(value, target) <= r <= Max(value, target)
    // never moves further than one step
    ensures 0.0 <= dt ==> Abs(r - value) <= MaxStep(delta, dt)
    // within one step, lands on the target exactly
    ensures Abs(target - value) <= MaxStep(delta, dt) ==> r == target
    // further away, takes a full step and closes the gap by it
    ensures 0.0 <= dt && MaxStep(delta, dt) < Abs(target - value) ==>
      Abs(r - value) == MaxStep(delta, dt) && Abs(target - r) == Abs(target - value) - MaxStep(delta, dt)
  {
    if value < target then
      Min(value + MaxStep(delta, dt), target)
    else
      Max(value - MaxStep(delta, dt), target)
  }

  /** A value already on the target stays there. */
  lemma ShiftAtTarget(target: real, delta: real, dt: real)
    requires 0.0 <= dt
    ensures ShiftTowards(target, target, delta, dt) == target
  {
  }

  /** Following a target inside the axis range keeps the position inside
      it. */
  lemma ShiftStaysInUnit(value: real, target: real, delta: real, dt: real)
    requires 0.0 <= dt && InUnit(value) && InUnit(target)
    ensures InUnit(ShiftTowards(value, target, delta, dt))
  {
  }

  /** The position after `n` frames following a fixed target. */
  function Follow(value: real, target: real, delta: real, dt: real, n: nat): (r: real)
    ensures 0.0 <= dt ==> Min(value, target) <= r <= Max(value, target)
  {
    if n == 0 then value
    else ShiftTowards(Follow(value, target, delta, dt, n - 1), target, delta, dt)
  }

  /** The distance `n` full steps of size `s` cover. */
  function Travel(n: nat, s: real): (r: real)
    ensures r == (n as real) * s
  {
    if n == 0 then 0.0 else StepsAdd(n, s); Travel(n - 1, s) + s
  }

  lemma StepsAdd(n: nat, s: real)
    requires n > 0
    ensures (n as real) * s == ((n - 1) as real) * s + s
  {
  }

  /** After `n` frames the gap to the target has shrunk by `n` steps, or
      closed: the follow converges in finitely many frames and never
      oscillates around the target. */
  lemma {:induction false} FollowGap(value: real, target: real, delta: real, dt: real, n: nat)
    requires 0.0 <= dt
    ensures Abs(target - Follow(value, target, delta, dt, n))
            == Max(0.0, Abs(target - value) - Travel(n, MaxStep(delta, dt)))
  {
    if n > 0 {
      var s := MaxStep(delta, dt);
      var before := Follow(value, target, delta, dt, n - 1);
      FollowGap(value, target, delta, dt, n - 1);
      ShiftGap(before, target, delta, dt);
      GapStep(Abs(target - value), Travel(n - 1, s), Travel(n, s), s);
    }
  }

  /** One frame closes the gap by a step, or closes it. */
  lemma ShiftGap(value: real, target: real, delta: real, dt: real)
    requires 0.0 <= dt
    ensures Abs(target - ShiftTowards(value, target, delta, dt)) == Max(0.0, Abs(target - value) - MaxStep(delta, dt))
  {
  }

  lemma GapStep(gap: real, a: real, b: real, s: real)
    requires 0.0 <= s && b == a + s
    ensures Max(0.0, Max(0.0, gap - a) - s) == Max(0.0, gap - b)
  {
  }

  // ---------------------------------------------------------------------
  // Physics step

  /** The tuning fields of the plane. `rollRate` and `dragCoeff` are
      declared but never read by the script. */
  datatype PlaneSettings = PlaneSettings(
    throttleCoeff: real,
    pitchRate: real,
    yawRate: real,
    rollRate: real,
    dragCoeff: real,
    offset: real,
    controlRate: real)

  /** The relative torque: pitch about x, yaw about z with the sign
      inverted, nothing about y. */
  function Torque(s: PlaneSettings, pitchPosition: real, yawPosition: real): (r: Vec3)
    ensures r.y == 0.0
    ensures pitchPosition == 0.0 && yawPosition == 0.0 ==> r == Zero
    ensures InUnit(pitchPosition) ==> Abs(r.x) <= Abs(s.pitchRate)
    ensures InUnit(yawPosition) ==> Abs(r.z) <= Abs(s.yawRate)
  {
    assert InUnit(pitchPosition) ==> Abs(s.pitchRate * pitchPosition) <= Abs(s.pitchRate) by {
      if InUnit(pitchPosition) {
        UnitScaleBounded(pitchPosition, s.pitchRate);
        assert pitchPosition * s.pitchRate == s.pitchRate * pitchPosition;
      }
    }
    assert InUnit(yawPosition) ==> Abs(-s.yawRate * yawPosition) <= Abs(s.yawRate) by {
      if InUnit(yawPosition) {
        UnitScaleBounded(yawPosition, -s.yawRate);
        assert yawPosition * -s.yawRate == -s.yawRate * yawPosition;
      }
    }
    Vec3(s.pitchRate * pitchPosition, 0.0, -s.yawRate * yawPosition)
  }

  /** Reversing the stick reverses the torque. */
  lemma TorqueIsOdd(s: PlaneSettings, pitchPosition: real, yawPosition: real)
    ensures Torque(s, -pitchPosition, -yawPosition) == Scale(-1.0, Torque(s, pitchPosition, yawPosition))
  {
    var t := Torque(s, pitchPosition, yawPosition);
    var u := Torque(s, -pitchPosition, -yawPosition);
    assert u.x == -t.x by {
      NegateProduct(s.pitchRate, pitchPosition);
    }
    assert u.z == -t.z by {
      NegateProduct(-s.yawRate, yawPosition);
    }
  }

  lemma NegateProduct(a: real, b: real)
    ensures a * -b == -(a * b)
  {
  }

  function Neg(v: Vec3): Vec3 {
    Vec3(-v.x, -v.y, -v.z)
  }

  /** The drag force, `0.2f * -velocity`. */
  function Drag(velocity: Vec3): Vec3 {
    Scale(0.2, Neg(velocity))
  }

  /** The relative force of one physics step, `None` when none is applied:
      throttle forward while the key is held, otherwise a drag of a fifth
      of the velocity against it, but only while moving. `speed` is
      `velocity.magnitude`. */
  function RelativeForce(s: PlaneSettings, throttleInput: bool, throttlePosition: real,
                         velocity: Vec3, speed: real): (r: Option<Vec3>)
    ensures throttleInput ==> r == Some(Vec3(0.0, 0.0, s.throttleCoeff * throttlePosition))
    ensures !throttleInput ==> (r.Some? <==> speed > 0.0)
    ensures !throttleInput && r.Some? ==> r.value == Drag(velocity)
  {
    if throttleInput then
      Some(Vec3(0.0, 0.0, s.throttleCoeff * throttlePosition))
    else if speed > 0.0 then
      Some(Drag(velocity))
    else
      None
  }

  /** With a true magnitude, drag is applied exactly when the plane
      moves. */
  lemma DragOnlyWhenMoving(s: PlaneSettings, throttlePosition: real, velocity: Vec3, math: MathLib)
    requires math.sqrt(SqrMagnitude(velocity)) >= 0.0
    requires Sq(math.sqrt(SqrMagnitude(velocity))) == SqrMagnitude(velocity)
    ensures RelativeForce(s, false, throttlePosition, velocity, math.sqrt(SqrMagnitude(velocity))).Some?
            <==> velocity != Zero
  {
    var speed := math.sqrt(SqrMagnitude(velocity));
    SqrMagnitudeSign(velocity);
    if speed != 0.0 {
      SqPositive(speed);
    }
  }

  /** The drag vector points against the velocity it is built from: its
      component along that velocity is minus a fifth of the squared speed,
      negative while the plane moves. This is a fact about the vector handed
      to `AddRelativeForce`, which the engine reads in the body's own axes,
      while the velocity is in world axes. */
  lemma DragOpposesMotion(velocity: Vec3)
    ensures Dot(Drag(velocity), velocity) == -0.2 * SqrMagnitude(velocity)
    ensures velocity != Zero ==> Dot(Drag(velocity), velocity) < 0.0
  {
    DragComponents(velocity);
    SqrMagnitudeSign(velocity);
  }

  lemma DragComponents(v: Vec3)
    ensures Dot(Drag(v), v) == -0.2 * SqrMagnitude(v)
  {
    var f := Drag(v);
    ScaledNegSquare(v.x, f.x);
    ScaledNegSquare(v.y, f.y);
    ScaledNegSquare(v.z, f.z);
  }

  lemma ScaledNegSquare(a: real, b: real)
    requires b == 0.2 * -a
    ensures b * a == -0.2 * Sq(a)
  {
  }

  // ---------------------------------------------------------------------
  // Hits

  /** A scene object, identified by number (`this.gameObject`). */
  type ObjectId = nat

  /** The `Laser` component of a collider: who fired it and its damage. */
  datatype LaserInfo = LaserInfo(owner: ObjectId, damage: real)

  /** A collider entering the plane's trigger: its tag and, when it has
      one, its `Laser` component. */
  datatype Collider = Collider(tag: string, laser: Option<LaserInfo>)

  const LaserTag := "GlowBois"

  /** What `OnTriggerEnter` does with a collider. `MissingLaser` is a
      laser-tagged object without a `Laser` component, where the script
      dereferences null and aborts the callback. */
  datatype HitOutcome = Ignored | Damaged(damage: real) | MissingLaser

  function Classify(col: Collider, self: ObjectId): (r: HitOutcome)
    ensures r.Damaged? <==> col.tag == LaserTag && col.laser.Some? && col.laser.value.owner != self
    ensures r.Damaged? ==> r.damage == col.laser.value.damage
    ensures r.MissingLaser? <==> col.tag == LaserTag && col.laser.None?
  {
    if col.tag != LaserTag then Ignored
    else match col.laser
      case None => MissingLaser
      case Some(l) => if l.owner != self then Damaged(l.damage) else Ignored
  }

  /** The hit points after one collider. */
  function AfterHit(hp: real, col: Collider, self: ObjectId): (r: real)
    ensures Classify(col, self).Damaged? ==> r == hp - col.laser.value.damage
    ensures !Classify(col, self).Damaged? ==> r == hp
  {
    match Classify(col, self)
    case Damaged(d) => hp - d
    case _ => hp
  }

  /** The plane's own lasers never hurt it. */
  lemma OwnLaserHarmless(hp: real, damage: real, self: ObjectId)
    ensures AfterHit(hp, Collider(LaserTag, Some(LaserInfo(self, damage))), self) == hp
  {
  }

  /** The damage a sequence of colliders deals to the plane `self`. */
  function TotalDamage(cols: seq<Collider>, self: ObjectId): real {
    if |cols| == 0 then 0.0
    else TotalDamage(cols[..|cols| - 1], self)
         + (match Classify(cols[|cols| - 1], self) case Damaged(d) => d case _ => 0.0)
  }

  /** The hit points after a sequence of colliders, one callback each. */
  function AfterHits(hp: real, cols: seq<Collider>, self: ObjectId): real {
    if |cols| == 0 then hp
    else AfterHit(AfterHits(hp, cols[..|cols| - 1], self), cols[|cols| - 1], self)
  }

  /** Hit points only ever drop by the damage of foreign lasers: after any
      sequence of hits they stand at the start value minus the total. */
  lemma {:induction false} HitsSubtractTotalDamage(hp: real, cols: seq<Collider>, self: ObjectId)
    ensures AfterHits(hp, cols, self) == hp - TotalDamage(cols, self)
  {
    if |cols| > 0 {
      HitsSubtractTotalDamage(hp, cols[..|cols| - 1], self);
    }
  }

  /** With non-negative damage, hit points never rise. */
  lemma {:induction false} HitsNeverHeal(hp: real, cols: seq<Collider>, self: ObjectId)
    requires forall i :: 0 <= i < |cols| && cols[i].laser.Some? ==> 0.0 <= cols[i].laser.value.damage
    ensures AfterHits(hp, cols, self) <= hp
  {
    if |cols| > 0 {
      HitsNeverHeal(hp, cols[..|cols| - 1], self);
    }
  }

  // ---------------------------------------------------------------------
  // The component

  /** What one frame polls: the two joystick axes and the two keys. */
  datatype PlaneInput = PlaneInput(joystickX: real, joystickY: real, keySpace: bool, keyPDown: bool)

  /** A laser to spawn: its owner and where it appears, `offset` ahead of
      the body along the transform's forward axis. */
  datatype LaserSpawn = LaserSpawn(owner: ObjectId, position: Vec3, rotation: Vec3)

  class PlaneControl {
    const settings: PlaneSettings
    /** `this.gameObject` */
    const id: ObjectId
    const isLocalPlayer: bool
    var hp: real
    var pitchPosition: real
    var yawPosition: real
    var throttlePosition: real
    var throttleInput: bool

    /** The simulated stick stays in the axis range and the throttle lever
        stays fully open. */
    ghost predicate Valid()
      reads this
    {
      InUnit(pitchPosition) && InUnit(yawPosition) && throttlePosition == 1.0
    }

    /** `Start`: centred stick, throttle lever at 1, throttle released. */
    constructor (settings: PlaneSettings, id: ObjectId, isLocalPlayer: bool, hp: real)
      ensures Valid()
      ensures this.settings == settings && this.id == id && this.isLocalPlayer == isLocalPlayer && this.hp == hp
      ensures pitchPosition == 0.0 && yawPosition == 0.0 && throttlePosition == 1.0 && !throttleInput
    {
      this.settings := settings;
      this.id := id;
      this.isLocalPlayer := isLocalPlayer;
      this.hp := hp;
      pitchPosition := 0.0;
      yawPosition := 0.0;
      throttlePosition := 1.0;
      throttleInput := false;
    }

    /** `Update`: on the local player only, the stick follows the joystick
        axes at `controlRate`, the throttle follows the space bar, and P
        spawns a laser owned by this plane. */
    method Update(input: PlaneInput, dt: real, bodyPosition: Vec3, forward: Vec3, rotation: Vec3)
      returns (spawn: Option<LaserSpawn>)
      requires Valid()
      requires 0.0 <= dt
      requires InUnit(input.joystickX) && InUnit(input.joystickY)
      modifies this`pitchPosition, this`yawPosition, this`throttleInput
      ensures Valid()
      ensures !isLocalPlayer ==> unchanged(this) && spawn.None?
      ensures isLocalPlayer ==>
        && pitchPosition == ShiftTowards(old(pitchPosition), input.joystickY, settings.controlRate, dt)
        && yawPosition == ShiftTowards(old(yawPosition), input.joystickX, settings.controlRate, dt)
        && throttleInput == input.keySpace
        && (spawn.Some? <==> input.keyPDown)
        && (spawn.Some? ==> spawn.value == LaserSpawn(id, Add(bodyPosition, Scale(settings.offset, forward)), rotation))
    {
      spawn := None;
      if isLocalPlayer {
        ShiftStaysInUnit(pitchPosition, input.joystickY, settings.controlRate, dt);
        ShiftStaysInUnit(yawPosition, input.joystickX, settings.controlRate, dt);
        pitchPosition := ShiftTowards(pitchPosition, input.joystickY, settings.controlRate, dt);
        yawPosition := ShiftTowards(yawPosition, input.joystickX, settings.controlRate, dt);
        throttleInput := input.keySpace;
        if input.keyPDown {
          spawn := Some(LaserSpawn(id, Add(bodyPosition, Scale(settings.offset, forward)), rotation));
        }
      }
    }

    /** `FixedUpdate`: the torque and the force handed to the rigid body,
        `None` for a call not made. Only the local player steers. */
    method FixedUpdate(velocity: Vec3, speed: real) returns (torque: Option<Vec3>, force: Option<Vec3>)
      requires Valid()
      ensures !isLocalPlayer ==> torque.None? && force.None?
      ensures isLocalPlayer ==> torque == Some(Torque(settings, pitchPosition, yawPosition))
      ensures isLocalPlayer ==> torque.Some? && torque.value.y == 0.0
      ensures isLocalPlayer ==> Abs(torque.value.x) <= Abs(settings.pitchRate) && Abs(torque.value.z) <= Abs(settings.yawRate)
      ensures isLocalPlayer && throttleInput ==> force == Some(Vec3(0.0, 0.0, settings.throttleCoeff))
      ensures isLocalPlayer && !throttleInput ==> (force.Some? <==> speed > 0.0)
      ensures isLocalPlayer && !throttleInput && force.Some? ==> force.value == Drag(velocity)
    {
      torque, force := None, None;
      if isLocalPlayer {
        torque := Some(Torque(settings, pitchPosition, yawPosition));
        force := RelativeForce(settings, throttleInput, throttlePosition, velocity, speed);
      }
    }

    /** `OnTriggerEnter`: a laser fired by another plane takes its damage
        off the hit points. Reports whether the plane is now down. */
    method OnTriggerEnter(col: Collider) returns (outcome: HitOutcome, down: bool)
      modifies this`hp
      ensures outcome == Classify(col, id)
      ensures hp == AfterHit(old(hp), col, id)
      ensures down <==> outcome.Damaged? && hp <= 0.0
    {
      outcome := Classify(col, id);
      down := false;
      if outcome.Damaged? {
        hp := hp - outcome.damage;
        if hp <= 0.0 {
          down := true;
        }
      }
    }
  }
}
