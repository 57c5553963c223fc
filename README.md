# neabit flight, plane and race rules in Dafny

A model of the control and bookkeeping rules in three Unity scripts of the
neabit multiplayer VR air-racing game:

- `PlayerController` maps controller input to motion. A signed-square
  smoothing curve shapes the stick. A thrust accumulator is clamped to
  `[0, maxThrust]`. An "assisted" scheme reads the bank and pitch angles
  from the tracked hands and turns a separately tracked heading. A "manual"
  scheme maps sticks to vertical thrust and roll, yaw and pitch rates. Two
  keys toggle between the keyboard and VR input and between the two schemes.
- `PlaneControl` has a simulated joystick that follows the input axes at a
  limited rate (`ShiftTowards`). Each physics step applies a torque and
  either a throttle force or a drag force. Lasers fired by other planes take
  hit points off.
- `GameManager` runs a six-second pre-race countdown that starts when the
  room is full and raises the start-race event once. Every frame it
  refreshes a scoreboard from the players in the scene. When a race event
  arrives from the network, it dispatches it.

The model is written over mathematical reals:

- An IEEE NaN is `None` of `UnityMath.Option`.
- `Mathf.Asin · Rad2Deg` and the square root inside `Vector3.Distance` and
  `.magnitude` are uninterpreted functions, supplied as `UnityMath.MathLib`.
- Frame time and every polled input are parameters.
- Each engine call (`Translate`, `Rotate`, `AddRelativeForce`,
  `RaiseEvent`, `Instantiate`) becomes the value its script would hand to it.

The modules follow the scripts:

- `unity_math.dfy` (`UnityMath`): `Vector3`, the `Mathf` helpers as the
  engine defines them, and lemmas about squares and products.
  - `Mathf.Sign(0)` is `1`.
  - `Mathf.Clamp` tests the lower bound first.
- `flight.dfy` (`Flight`): `PlayerController`.
- `plane.dfy` (`Plane`): `PlaneControl`.
- `race.dfy` (`Race`): `GameManager` and the room it closes.

## Model

| member | source | states |
|---|---|---|
| Flight.InputSmoothing | Assets/Scripts/PlayerController.cs:201-203 | the smoothed value has the size of the input squared and the input's sign (negative exactly for negative input) |
| Flight.SmoothingIsOdd | Assets/Scripts/PlayerController.cs:201-203 | smoothing is odd, `s(-x) == -s(x)`, and maps 0 to 0 |
| Flight.SmoothingBounded | Assets/Scripts/PlayerController.cs:201-203 | on the stick range [-1, 1], the smoothed value stays in range, is no larger than the input, keeps its sign, and is zero only for zero |
| Flight.ThrustProcessing | Assets/Scripts/PlayerController.cs:205-211 | `+rate` while thrusting, `-rate` otherwise |
| Flight.ThrustStep | Assets/Scripts/PlayerController.cs:101-103 | after accumulate-then-clamp, thrust lies in `[0, maxThrust]` whenever `maxThrust >= 0` |
| Flight.ThrustStepMonotone | Assets/Scripts/PlayerController.cs:101-103 | with a non-negative rate, holding thrust never lowers it and releasing never raises it; away from the bounds each frame moves it by exactly the rate |
| Flight.HandTriggerAverage | Assets/Scripts/PlayerController.cs:213-215 | the average of the two hand triggers lies between them |
| Flight.IsThrusting | Assets/Scripts/PlayerController.cs:101 | on the keyboard, thrust follows the space bar; in VR, it follows whether the two hand triggers sum past 0.6 (average past 0.3) |
| Flight.Toggled | Assets/Scripts/PlayerController.cs:88-93 | a scheme flag changes exactly on a frame whose key is pressed |
| Flight.ToggleTwice | Assets/Scripts/PlayerController.cs:88-93 | two presses restore the scheme |
| Flight.AsinAngle | Assets/Scripts/PlayerController.cs:219-222 | the angle is defined only when the two points are a non-zero distance apart |
| Flight.CalculateTheta | Assets/Scripts/PlayerController.cs:218-225 | NaN exactly when the angle is NaN; otherwise the negated clamped angle, which lies in `[-maxTheta, maxTheta]` |
| Flight.AngleDefinedIffApart | Assets/Scripts/PlayerController.cs:218-223 | with a true square root, the asin argument is always in [-1, 1], so the angle is NaN exactly when the two points coincide |
| Flight.LevelPointsGiveZeroTheta | Assets/Scripts/PlayerController.cs:218-225 | two distinct points at the same height give an angle of 0 |
| Flight.GetAssistedMovementInputs | Assets/Scripts/PlayerController.cs:186-198 | keyboard angles are always defined; both angles lie within the assisted range; with a zero range the bank angle is 0 or NaN, never a non-zero value that would divide to infinity |
| Flight.TurnRate | Assets/Scripts/PlayerController.cs:114-117 | a NaN bank gives 0, and so does the NaN ratio 0/0 of a level bank over a zero range; with a non-zero range, `rate * maxAssistedTheta == bank * maxPitch` |
| Flight.TurnRateBounded | Assets/Scripts/PlayerController.cs:114-117 | a bank angle within the assisted range gives a turn rate no larger than the pitch rate |
| Flight.AssistedTurn | Assets/Scripts/PlayerController.cs:108-117 | the turn rate of a frame never exceeds the pitch rate in size |
| Flight.UndefinedBankGivesNoTurn | Assets/Scripts/PlayerController.cs:114-117 | a NaN bank angle gives a turn rate of 0 |
| Flight.CentredKeyboardGivesNoTurn | Assets/Scripts/PlayerController.cs:114-117 | a centred keyboard axis gives a turn rate of 0, even with a zero assisted range |
| Flight.Turned | Assets/Scripts/PlayerController.cs:118 | the heading update changes only the z angle, by exactly `turnRate * dt`; a zero rate leaves it unchanged |
| Flight.HeadingTurnBounded | Assets/Scripts/PlayerController.cs:118 | a bounded rate moves the heading by at most the bound times the frame time |
| Flight.AssistedStep | Assets/Scripts/PlayerController.cs:106-122 | the assisted frame turns the heading by the assisted turn rate; translation is `dt * thrust` along up; the engine heading is the tracked heading plus the -90° offset; the anchor yaw is the heading's z plus 180; the tilt handed to `Rotate` is the negated pitch and bank angles, NaN passed through |
| Flight.UndefinedBankTiltsNaN | Assets/Scripts/PlayerController.cs:114-121 | a NaN bank leaves the heading unchanged but reaches the tilt handed to `Rotate` as NaN |
| Flight.GetManualMovementInputs | Assets/Scripts/PlayerController.cs:169-175 | both input sources give four inputs within [-1, 1] |
| Flight.ManualRates | Assets/Scripts/PlayerController.cs:129-138 | pitch is inverted (`pitch == -s(p) * maxPitch`, negative exactly for positive input when `maxPitch > 0`); each rate is bounded by its maximum for inputs in [-1, 1] |
| Flight.ManualMotionOf | Assets/Scripts/PlayerController.cs:129-142 | the manual translation is `dt * (0, thrust, vThrust)`; the rotation is `dt * (pitch, -roll, yaw)`, with roll inverted |
| Flight.PlayerController.constructor | Assets/Scripts/PlayerController.cs:61-72 | thrust and rates start at 0; VR input, assisted scheme; heading taken from the transform |
| Flight.PlayerController.Update | Assets/Scripts/PlayerController.cs:86-144 | the frame toggles the two flags and reports firing; thrust takes one accumulator step and stays in range; then either the assisted branch runs (only the heading changes) or the manual branch runs (only the four rates change) |
| Flight.PlayerController.AccumulateThrust | Assets/Scripts/PlayerController.cs:101-103 | thrust becomes the accumulate-then-clamp step of its old value |
| Flight.PlayerController.SteerAssisted | Assets/Scripts/PlayerController.cs:106-122 | the heading and the motion become those of the assisted step |
| Flight.PlayerController.SteerManual | Assets/Scripts/PlayerController.cs:124-143 | the four rates become the manual rates; the motion is built from them |
| Plane.MaxStep | Assets/Scripts/PlaneControl.cs:72-74 | the largest move of a frame, `abs(delta) * dt`, is non-negative for a non-negative frame time |
| Plane.ShiftTowards | Assets/Scripts/PlaneControl.cs:67-75 | never overshoots (the result lies between value and target); never moves more than `abs(delta) * dt`; lands exactly on a target within one step; otherwise takes a full step and closes the gap by it |
| Plane.ShiftAtTarget | Assets/Scripts/PlaneControl.cs:70-74 | a value on the target stays there |
| Plane.ShiftStaysInUnit | Assets/Scripts/PlaneControl.cs:43-44 | following an axis value in [-1, 1] keeps the stick position in [-1, 1] |
| Plane.Follow | Assets/Scripts/PlaneControl.cs:43-44 | after any number of frames towards a fixed target, the position lies between the start and the target |
| Plane.FollowGap | Assets/Scripts/PlaneControl.cs:67-75 | after `n` frames the gap to the target is `max(0, gap - n * step)`: the follow converges and never oscillates |
| Plane.ShiftGap | Assets/Scripts/PlaneControl.cs:67-75 | one frame shrinks the gap to `max(0, gap - step)` |
| Plane.Torque | Assets/Scripts/PlaneControl.cs:56 | no torque about y; none at a centred stick; pitch and yaw torque bounded by their rates for stick positions in [-1, 1] |
| Plane.TorqueIsOdd | Assets/Scripts/PlaneControl.cs:56 | reversing the stick reverses the torque |
| Plane.RelativeForce | Assets/Scripts/PlaneControl.cs:57-63 | with throttle held, the force is `(0, 0, throttleCoeff * throttlePosition)`; otherwise drag is applied exactly when the speed is positive |
| Plane.DragOnlyWhenMoving | Assets/Scripts/PlaneControl.cs:60-62 | with a true magnitude, drag is applied exactly when the velocity is non-zero |
| Plane.DragOpposesMotion | Assets/Scripts/PlaneControl.cs:61 | the drag vector's component along the velocity it is built from is `-0.2 * speed²`, negative while moving |
| Plane.Classify | Assets/Scripts/PlaneControl.cs:78-80 | a collider does damage exactly when it is tagged "GlowBois", has a laser, and the laser's owner is not this plane; a tagged object without a laser is the null-dereference case |
| Plane.AfterHit | Assets/Scripts/PlaneControl.cs:77-87 | hp drops by exactly the laser's damage on a damaging hit and is unchanged otherwise |
| Plane.OwnLaserHarmless | Assets/Scripts/PlaneControl.cs:79 | a plane's own laser never changes its hp |
| Plane.HitsSubtractTotalDamage | Assets/Scripts/PlaneControl.cs:77-87 | after any sequence of hits, hp is the start value minus the damage of the foreign lasers among them |
| Plane.HitsNeverHeal | Assets/Scripts/PlaneControl.cs:80 | with non-negative damage, hits never raise hp |
| Plane.PlaneControl.constructor | Assets/Scripts/PlaneControl.cs:28-38 | `Start`: stick centred, throttle lever at 1, throttle released |
| Plane.PlaneControl.Update | Assets/Scripts/PlaneControl.cs:40-52 | on the local player, the stick follows the axes by `ShiftTowards` at `controlRate`, the throttle follows the space bar, and P spawns one laser owned by this plane; other players change nothing |
| Plane.PlaneControl.FixedUpdate | Assets/Scripts/PlaneControl.cs:54-65 | only the local player gets a torque and a force; the torque is exactly `(pitchRate * pitchPosition, 0, -yawRate * yawPosition)`, with no y part and bounded by the rates; the force is throttle, drag when moving, or none |
| Plane.PlaneControl.OnTriggerEnter | Assets/Scripts/PlaneControl.cs:77-87 | hp becomes the value after the hit; the plane is reported down exactly when a damaging hit leaves hp at or below 0 |
| Race.Tick | Assets/Scripts/GameManager.cs:75-82 | the countdown moves only while a game is pending and time remains; the event fires exactly on the tick that takes the remaining time to 0 or below, and that tick ends the pending game |
| Race.NoGameNoFire | Assets/Scripts/GameManager.cs:75 | with no pending game, no frame ever fires the event |
| Race.FiresAtMostOnce | Assets/Scripts/GameManager.cs:75-82 | whatever the frame times, the start-race event fires at most once |
| Race.FiresOnceWhenElapsed | Assets/Scripts/GameManager.cs:75-82 | once the frame times add up to the remaining time, the event has fired exactly once |
| Race.NoFireBeforeElapsed | Assets/Scripts/GameManager.cs:75-82 | until the frame times add up to the remaining time, the event has not fired |
| Race.FiresIffElapsed | Assets/Scripts/GameManager.cs:75-82 | for a pending countdown, the event fires exactly when the elapsed time reaches the remaining time |
| Race.RaceStartsAfterCountdown | Assets/Scripts/GameManager.cs:57-82 | after a full room arms the countdown, the race starts exactly once six seconds of frames have passed, and never twice |
| Race.Upserted | Assets/Scripts/GameManager.cs:84-91 | the refresh never removes a scoreboard entry |
| Race.UpsertLatestWins | Assets/Scripts/GameManager.cs:84-91 | every player with a non-empty id is on the board, holding the score of the last player in scene order with that id |
| Race.UpsertUntouched | Assets/Scripts/GameManager.cs:84-91 | a key that no player with an id carries keeps its entry, or stays absent |
| Race.EmptyIdNeverInserted | Assets/Scripts/GameManager.cs:88-90 | the empty id is never inserted |
| Race.Dispatch | Assets/Scripts/GameManager.cs:121-135 | code 1 and only code 1 enables controls; code 2 and only code 2 begins the countdown display; every other code does nothing |
| Race.RaisedEventsDispatch | Assets/Scripts/GameManager.cs:46-47 | the countdown's event enables controls, the room-full event begins the display, and the two codes differ |
| Race.GameManager.constructor | Assets/Scripts/GameManager.cs:18-30 | field initialisers: no game, empty scoreboard; the completed-race list is null until `Start` allocates it |
| Race.GameManager.Start | Assets/Scripts/GameManager.cs:45-71 | the countdown is armed at 6; `isGame` becomes true exactly when the room is full; in that case the countdown event is raised once and the room is closed and hidden; otherwise the room and the event log are unchanged |
| Race.GameManager.Update | Assets/Scripts/GameManager.cs:73-93 | one countdown tick, with the start-race event raised exactly when the tick fires, then the scoreboard refresh |
| Race.GameManager.TickCountdown | Assets/Scripts/GameManager.cs:75-82 | `isGame` and the countdown become the tick of their old values, and the event log grows by the start-race event exactly when the tick fires |
| Race.GameManager.RefreshScoreboard | Assets/Scripts/GameManager.cs:84-91 | the loop leaves the scoreboard equal to the upsert of the players in scene order |
| Race.GameManager.OnEvent | Assets/Scripts/GameManager.cs:116-136 | code 1 enables controls; code 2 starts the display from the current countdown, or faults without a local player; nothing else changes |

## Left out

- Engine calls are not modelled: `Translate`, `Rotate`, `Quaternion.Euler`, `AddRelativeTorque`, `AddRelativeForce`, `Instantiate`, `SetActive`, and the angular-velocity reset in `PlayerController.OnCollisionEnter`. The model returns the vectors and spawn data the scripts hand to them.
- Plane.DragOpposesMotion: states that the drag vector opposes the world-space velocity it is built from; `AddRelativeForce` reads that vector in the body's own axes, so the force actually applied opposes the motion only when the body axes line up with the world axes, and the model does not track the body's orientation.
- IEEE floats: values are reals and NaN is `None`. Infinities are not represented. `UnityMath.Quotient` also returns `None` for a non-zero value over zero, and `Flight.GetAssistedMovementInputs` shows the turn-rate division never meets that case. Single-precision rounding is not modelled.
- `Mathf.Asin`, `Mathf.Rad2Deg` and the square roots inside `Vector3.Distance` and `.magnitude` are uninterpreted functions. The lemmas that need a true square root take its defining property as a hypothesis. `Mathf.Pow(|x|, 2)` is the exact square.
- Input polling (`Input`, `OVRInput`), the tracked rig positions, `Time.deltaTime`, the rigid body's position, velocity and speed, and the scene's player list are parameters.
- `PlayerController.Start` camera-rig setup (lines 74-81) is not modelled. `playerManager.fire()` becomes the `fire` flag of the frame.
- Plane.PlaneControl.Update: requires joystick axes in [-1, 1] and a non-negative frame time, which the engine guarantees but the script does not check.
- `PlaneControl.OnTriggerEnter`: the `print` becomes the `down` result. A "GlowBois" object without a `Laser` component throws a null reference in the script; here it is the `MissingLaser` outcome, with hp unchanged.
- Laser ownership: `Laser.owner` is declared a string in `Assets/Scripts/Laser.cs`, while `PlaneControl` assigns and compares a game object. The model uses an object identity for both.
- `Assets/Scripts/Laser.cs` and `Assets/Scripts/Explosion.cs` are not part of this model: laser flight, raycasts and particle clean-up. Neither are the `Near Orbit` scripts.
- `PlayerController.CONTROLS_ENABLED`, which `GameManager.OnEvent` sets, is not declared in the `PlayerController.cs` shown. It is modelled as the `controlsEnabled` field of the game manager.
- `GameManager` networking is not modelled:
  - the `Awake` and `OnDestroy` event subscription;
  - `spawnPlayer`, `respawn`, `LeaveRoom`, `OnLeftRoom`, `getScoreboard` and `Debug.Log`;
  - the raise-event options;
  - the delivery of raised events back to `OnEvent`.
- Raised events are recorded in `raised` only.
- Score tables are values. In C# the scoreboard stores references to the players' own dictionaries, so later changes to a player's table show through; that aliasing is not modelled.
