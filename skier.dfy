/** The skier's motion model (src/engine/controllers/SkierController.js): a speed ramp over
    the first seconds of a run, braking while turning and accelerating while going straight,
    lateral motion clamped to the track, forward motion toward negative z, and a jump with
    gravity and a ground snap. Held keys are a map the key handlers update. */
module Skier {
  import opened Core

  /** The constructor's tunable parameters. */
  datatype Options = Options(
    maxSpeed: real, minSpeed: real, acceleration: real, deceleration: real,
    lateralSpeed: real, maxX: real, turnRotationSpeed: real, tiltAmount: real)

  /** The constructor's defaults. */
  const Defaults := Options(40.0, 12.0, 15.0, 14.0, 18.0, 25.0, 5.5, 0.45)

  // Fields the constructor fixes and no code reassigns.
  const RampUpDuration: real := 8.0
  const StartMaxSpeed: real := 20.0
  const StartMinSpeed: real := 6.0
  const JumpForce: real := 10.0
  const Gravity: real := 28.0
  const GroundY: real := 0.15
  /** How close to the ground y must be for a jump to start. */
  const JumpTolerance: real := 0.01
  /** Rate of the tilt approach (per second). */
  const TiltRate: real := 4.0
  /** Largest heading angle, reached at full lateral input (radians). */
  const MaxHeading: real := 0.6

  // ---------------------------------------------------------------- input

  predicate Held(keys: map<string, bool>, code: string) {
    code in keys && keys[code]
  }

  predicate LeftHeld(keys: map<string, bool>) {
    Held(keys, "KeyA") || Held(keys, "ArrowLeft")
  }

  predicate RightHeld(keys: map<string, bool>) {
    Held(keys, "KeyD") || Held(keys, "ArrowRight")
  }

  /** -1 for left, +1 for right, 0 for neither or both. */
  function LateralInput(left: bool, right: bool): (l: real)
    ensures l == -1.0 <==> left && !right
    ensures l == 1.0 <==> right && !left
    ensures l == 0.0 <==> left == right
  {
    (if left then -1.0 else 0.0) + (if right then 1.0 else 0.0)
  }

  // ---------------------------------------------------------------- speed ramp

  /** min(rampUpTime / rampUpDuration, 1). */
  function RampProgress(rampUpTime: real): (p: real) {
    Min(rampUpTime / RampUpDuration, 1.0)
  }

  /** The ramp progress lies in [0, 1] and reaches 1 exactly when the ramp duration is over. */
  lemma RampProgressRange(rampUpTime: real)
    ensures rampUpTime >= 0.0 ==> 0.0 <= RampProgress(rampUpTime) <= 1.0
    ensures RampProgress(rampUpTime) == 1.0 <==> rampUpTime >= RampUpDuration
  {
  }

  /** Linear interpolation from the start value to the full value. */
  function Ramped(start: real, full: real, p: real): (v: real) {
    start + (full - start) * p
  }

  /** A ramped bound lies between its start and full values. */
  lemma RampedBetween(start: real, full: real, p: real)
    requires 0.0 <= p <= 1.0
    ensures Min(start, full) <= Ramped(start, full, p) <= Max(start, full)
    ensures p == 1.0 ==> Ramped(start, full, p) == full
  {
    if start <= full {
      MulNonNegative(full - start, p);
      MulNonNegative(full - start, 1.0 - p);
    } else {
      MulNonNegative(start - full, p);
      MulNonNegative(start - full, 1.0 - p);
    }
  }

  /** The ramp never moves a bound away from its full value as time goes on. */
  lemma RampedMonotone(start: real, full: real, t: real, t': real)
    requires 0.0 <= t <= t' && start <= full
    ensures Ramped(start, full, RampProgress(t)) <= Ramped(start, full, RampProgress(t'))
  {
    RampProgressRange(t);
    RampProgressRange(t');
    MulNonNegative(full - start, RampProgress(t') - RampProgress(t));
  }

  function CurrentMaxSpeed(o: Options, rampUpTime: real): (s: real) {
    Ramped(StartMaxSpeed, o.maxSpeed, RampProgress(rampUpTime))
  }

  function CurrentMinSpeed(o: Options, rampUpTime: real): (s: real) {
    Ramped(StartMinSpeed, o.minSpeed, RampProgress(rampUpTime))
  }

  /** During the ramp the bounds lie between the start values (20 / 6) and the full values. */
  lemma RampBounds(o: Options, rampUpTime: real)
    requires rampUpTime >= 0.0
    ensures Min(StartMaxSpeed, o.maxSpeed) <= CurrentMaxSpeed(o, rampUpTime) <= Max(StartMaxSpeed, o.maxSpeed)
    ensures Min(StartMinSpeed, o.minSpeed) <= CurrentMinSpeed(o, rampUpTime) <= Max(StartMinSpeed, o.minSpeed)
    ensures rampUpTime >= RampUpDuration ==>
              CurrentMaxSpeed(o, rampUpTime) == o.maxSpeed && CurrentMinSpeed(o, rampUpTime) == o.minSpeed
  {
    RampProgressRange(rampUpTime);
    RampedBetween(StartMaxSpeed, o.maxSpeed, RampProgress(rampUpTime));
    RampedBetween(StartMinSpeed, o.minSpeed, RampProgress(rampUpTime));
  }

  // ---------------------------------------------------------------- one tick

  /** Speed after a tick: while turning it falls toward curMin and is clamped from below
      only; while going straight it rises toward curMax and is clamped from above only. */
  function SpeedStep(speed: real, lateral: real, curMin: real, curMax: real, o: Options, dt: real): (s: real) {
    var turnIntensity := Abs(lateral);
    if turnIntensity > 0.1 then Max(curMin, speed - o.deceleration * turnIntensity * dt)
    else Min(curMax, speed + o.acceleration * dt)
  }

  /** The one-sided speed rule: turning never goes below curMin and otherwise loses exactly
      deceleration * |input| * dt; going straight never exceeds curMax and otherwise gains
      exactly acceleration * dt. */
  lemma SpeedRule(speed: real, lateral: real, curMin: real, curMax: real, o: Options, dt: real)
    ensures var s := SpeedStep(speed, lateral, curMin, curMax, o, dt);
            Abs(lateral) > 0.1 ==> s >= curMin && (s == curMin || s == speed - o.deceleration * Abs(lateral) * dt)
    ensures var s := SpeedStep(speed, lateral, curMin, curMax, o, dt);
            Abs(lateral) <= 0.1 ==> s <= curMax && (s == curMax || s == speed + o.acceleration * dt)
  {
  }

  /** max(-maxX, min(maxX, x)). */
  function ClampX(x: real, maxX: real): (cx: real) {
    Max(-maxX, Min(maxX, x))
  }

  /** The clamp keeps x on the track [-maxX, maxX], leaves an x already there alone, and
      sends an x beyond either edge to that edge. */
  lemma ClampXRange(x: real, maxX: real)
    requires maxX >= 0.0
    ensures -maxX <= ClampX(x, maxX) <= maxX
    ensures -maxX <= x <= maxX ==> ClampX(x, maxX) == x
    ensures x > maxX ==> ClampX(x, maxX) == maxX
    ensures x < -maxX ==> ClampX(x, maxX) == -maxX
  {
  }

  /** One smoothing step `v += (target - v) * rate * dt`. */
  function Approach(v: real, target: real, rate: real, dt: real): (w: real) {
    v + (target - v) * rate * dt
  }

  /** With 0 <= rate * dt <= 1 a smoothing step moves toward the target without overshooting. */
  lemma ApproachTowardTarget(v: real, target: real, rate: real, dt: real)
    requires 0.0 <= rate * dt <= 1.0
    ensures Min(v, target) <= Approach(v, target, rate, dt) <= Max(v, target)
    ensures Abs(target - Approach(v, target, rate, dt)) <= Abs(target - v)
  {
    var k := rate * dt;
    assert Approach(v, target, rate, dt) == v + (target - v) * k;
    if v <= target {
      MulNonNegative(target - v, k);
      MulNonNegative(target - v, 1.0 - k);
    } else {
      MulNonNegative(v - target, k);
      MulNonNegative(v - target, 1.0 - k);
    }
  }

  /** The vertical state: height, jump flag and vertical velocity. */
  datatype Vertical = Vertical(y: real, isJumping: bool, jumpVelocity: real)

  /** The jump trigger: Space held, not already jumping and within 0.01 of the ground
      sets the jump flag and the take-off velocity. */
  function TriggerJump(v: Vertical, space: bool): (w: Vertical) {
    if space && !v.isJumping && v.y <= GroundY + JumpTolerance then Vertical(v.y, true, JumpForce)
    else v
  }

  /** While jumping or above the ground: velocity, then gravity, then landing. */
  function Fall(v: Vertical, dt: real): (w: Vertical) {
    if v.isJumping || v.y > GroundY then
      var y := v.y + v.jumpVelocity * dt;
      if y <= GroundY then Vertical(GroundY, false, 0.0)
      else Vertical(y, v.isJumping, v.jumpVelocity - Gravity * dt)
    else v
  }

  /** The vertical part of one tick. */
  function JumpStep(v: Vertical, space: bool, dt: real): (w: Vertical) {
    Fall(TriggerJump(v, space), dt)
  }

  /** The skier never sinks below the ground once on or above it. */
  lemma StaysAboveGround(v: Vertical, space: bool, dt: real)
    requires v.y >= GroundY
    ensures JumpStep(v, space, dt).y >= GroundY
  {
  }

  /** Landing: an airborne step that would end at or below the ground snaps to the ground
      and clears the jump state; every other airborne step integrates velocity and gravity. */
  lemma Landing(v: Vertical, dt: real)
    requires v.isJumping || v.y > GroundY
    ensures var w := JumpStep(v, false, dt);
            if v.y + v.jumpVelocity * dt <= GroundY then w == Vertical(GroundY, false, 0.0)
            else w == Vertical(v.y + v.jumpVelocity * dt, v.isJumping, v.jumpVelocity - Gravity * dt)
  {
  }

  /** A jump starts only with Space held, not already jumping and within 0.01 of the
      ground; from the ground with dt > 0 it always starts, with velocity jumpForce. */
  lemma JumpTrigger(v: Vertical, space: bool, dt: real)
    ensures !v.isJumping && JumpStep(v, space, dt).isJumping ==> space && v.y <= GroundY + JumpTolerance
    ensures space && !v.isJumping && GroundY <= v.y <= GroundY + JumpTolerance && dt > 0.0 ==>
              JumpStep(v, space, dt) == Vertical(v.y + JumpForce * dt, true, JumpForce - Gravity * dt)
  {
    if space && !v.isJumping && GroundY <= v.y <= GroundY + JumpTolerance && dt > 0.0 {
      MulPositive(JumpForce, dt);
    }
  }

  /** The state one tick of `update` reads and writes. */
  datatype Motion = Motion(
    position: Vec3, currentSpeed: real, targetRotationY: real, currentRotationY: real,
    currentTilt: real, rampUpTime: real, isJumping: bool, jumpVelocity: real)

  /** The lateral input the held keys give. */
  function Lateral(keys: map<string, bool>): (d: real) {
    LateralInput(LeftHeld(keys), RightHeld(keys))
  }

  /** The speed after a tick that starts at `speed` with the ramp timer at `rampUpTime`. */
  function NextSpeed(speed: real, rampUpTime: real, o: Options, keys: map<string, bool>, dt: real): (s: real) {
    var t := rampUpTime + dt;
    SpeedStep(speed, Lateral(keys), CurrentMinSpeed(o, t), CurrentMaxSpeed(o, t), o, dt)
  }

  /** Sideways by lateralSpeed * dt in the input's direction, then clamped to the track. */
  function NextX(x: real, o: Options, keys: map<string, bool>, dt: real): (nx: real) {
    ClampX(x + Lateral(keys) * o.lateralSpeed * dt, o.maxX)
  }

  /** Forward (toward negative z) by speed * dt. */
  function NextZ(z: real, speed: real, dt: real): (nz: real) {
    z - speed * dt
  }

  /** One tick of `update` on a skier that has a Transform. */
  function Step(m: Motion, o: Options, keys: map<string, bool>, dt: real): (n: Motion) {
    var lateral := Lateral(keys);
    var speed := NextSpeed(m.currentSpeed, m.rampUpTime, o, keys, dt);
    var v := JumpStep(Vertical(m.position.y, m.isJumping, m.jumpVelocity), Held(keys, "Space"), dt);
    Motion(Vec3(NextX(m.position.x, o, keys, dt), v.y, NextZ(m.position.z, speed, dt)),
           speed, -lateral * MaxHeading,
           Approach(m.currentRotationY, -lateral * MaxHeading, o.turnRotationSpeed, dt),
           Approach(m.currentTilt, lateral * o.tiltAmount, TiltRate, dt),
           m.rampUpTime + dt, v.isJumping, v.jumpVelocity)
  }

  /** What one tick guarantees whatever the previous state: x within the track, z moved
      forward by exactly speed * dt, the ramp timer advanced by dt, the speed rule obeyed,
      and a skier on or above the ground stays there. */
  lemma StepFacts(m: Motion, o: Options, keys: map<string, bool>, dt: real)
    requires o.maxX >= 0.0
    ensures var n := Step(m, o, keys, dt);
            && -o.maxX <= n.position.x <= o.maxX
            && n.position.z == m.position.z - n.currentSpeed * dt
            && n.rampUpTime == m.rampUpTime + dt
            && (LeftHeld(keys) != RightHeld(keys) ==> n.currentSpeed >= CurrentMinSpeed(o, n.rampUpTime))
            && (LeftHeld(keys) == RightHeld(keys) ==> n.currentSpeed <= CurrentMaxSpeed(o, n.rampUpTime))
            && (m.position.y >= GroundY ==> n.position.y >= GroundY)
  {
    var lateral := Lateral(keys);
    var t := m.rampUpTime + dt;
    ClampXRange(m.position.x + lateral * o.lateralSpeed * dt, o.maxX);
    SpeedRule(m.currentSpeed, lateral, CurrentMinSpeed(o, t), CurrentMaxSpeed(o, t), o, dt);
    if m.position.y >= GroundY {
      StaysAboveGround(Vertical(m.position.y, m.isJumping, m.jumpVelocity), Held(keys, "Space"), dt);
    }
  }

  /** Parameters under which the speed stays inside the ramped bounds for a whole run: the
      bounds are ordered, and going straight gains speed at least as fast as the ramped
      minimum rises, (minSpeed - startMinSpeed) / rampUpDuration per second. */
  predicate SaneOptions(o: Options) {
    StartMinSpeed <= o.minSpeed <= o.maxSpeed && StartMaxSpeed <= o.maxSpeed
    && o.acceleration >= 0.0 && o.deceleration >= 0.0
    && o.acceleration * RampUpDuration >= o.minSpeed - StartMinSpeed
  }

  /** The current (ramped) minimum <= speed <= the current (ramped) maximum. */
  predicate SpeedInBounds(m: Motion, o: Options) {
    m.rampUpTime >= 0.0 && CurrentMinSpeed(o, m.rampUpTime) <= m.currentSpeed <= CurrentMaxSpeed(o, m.rampUpTime)
  }

  /** Under sane parameters the ramped minimum never exceeds the ramped maximum, and
      both stay at or above the start minimum. */
  lemma RampOrdered(o: Options, rampUpTime: real)
    requires SaneOptions(o) && rampUpTime >= 0.0
    ensures StartMinSpeed <= CurrentMinSpeed(o, rampUpTime) <= CurrentMaxSpeed(o, rampUpTime)
  {
    var p := RampProgress(rampUpTime);
    RampProgressRange(rampUpTime);
    RampedBetween(StartMinSpeed, o.minSpeed, p);
    MulNonNegative(o.maxSpeed - o.minSpeed, p);
    MulNonNegative(StartMaxSpeed - StartMinSpeed, 1.0 - p);
    assert CurrentMaxSpeed(o, rampUpTime) - CurrentMinSpeed(o, rampUpTime)
        == (StartMaxSpeed - StartMinSpeed) * (1.0 - p) + (o.maxSpeed - o.minSpeed) * p;
  }

  /** Over a tick of length dt the ramp progress grows by at most dt / rampUpDuration. */
  lemma RampProgressStep(t: real, dt: real)
    requires t >= 0.0 && dt >= 0.0
    ensures 0.0 <= RampProgress(t + dt) - RampProgress(t) <= dt / RampUpDuration
  {
    RampProgressRange(t);
    RampProgressRange(t + dt);
  }

  /** Over a tick the ramped minimum rises by at most acceleration * dt. */
  lemma RampedMinRise(o: Options, t: real, dt: real)
    requires SaneOptions(o) && t >= 0.0 && dt >= 0.0
    ensures 0.0 <= CurrentMinSpeed(o, t + dt) - CurrentMinSpeed(o, t) <= o.acceleration * dt
  {
    var p := RampProgress(t);
    var p' := RampProgress(t + dt);
    var gap := o.minSpeed - StartMinSpeed;
    RampProgressStep(t, dt);
    MulNonNegative(gap, p' - p);
    MulNonNegative(gap, dt / RampUpDuration - (p' - p));
    assert CurrentMinSpeed(o, t + dt) - CurrentMinSpeed(o, t) == gap * (p' - p);
    MulNonNegative(o.acceleration - gap / RampUpDuration, dt);
    assert gap * (dt / RampUpDuration) == (gap / RampUpDuration) * dt;
  }

  /** Every tick with dt >= 0 preserves the ramped speed bounds: braking stops at the new
      minimum, accelerating stops at the new maximum, the maximum only grows, and the
      minimum never rises faster than going straight gains speed. */
  lemma SpeedBoundsPreserved(m: Motion, o: Options, keys: map<string, bool>, dt: real)
    requires SaneOptions(o) && SpeedInBounds(m, o) && dt >= 0.0
    ensures SpeedInBounds(Step(m, o, keys, dt), o)
  {
    var t := m.rampUpTime;
    var t' := t + dt;
    RampedMinRise(o, t, dt);
    RampOrdered(o, t');
    RampedMonotone(StartMaxSpeed, o.maxSpeed, t, t');
    SpeedStepInBounds(m.currentSpeed, Lateral(keys), CurrentMinSpeed(o, t), CurrentMaxSpeed(o, t),
                      CurrentMinSpeed(o, t'), CurrentMaxSpeed(o, t'), o, dt);
    assert Step(m, o, keys, dt).currentSpeed == NextSpeed(m.currentSpeed, t, o, keys, dt);
  }

  /** One speed step from inside [lo, hi] lands inside the next tick's bounds [lo', hi'],
      provided the maximum does not fall and the minimum rises by at most acceleration * dt. */
  lemma SpeedStepInBounds(speed: real, lateral: real, lo: real, hi: real, lo': real, hi': real,
                          o: Options, dt: real)
    requires lo <= speed <= hi && lo' <= hi' && hi <= hi' && lo' - lo <= o.acceleration * dt
    requires o.deceleration >= 0.0 && dt >= 0.0
    ensures lo' <= SpeedStep(speed, lateral, lo', hi', o, dt) <= hi'
  {
    SpeedRule(speed, lateral, lo', hi', o, dt);
    MulNonNegative(o.deceleration, Abs(lateral));
    MulNonNegative(o.deceleration * Abs(lateral), dt);
  }

  /** The tick from the scenario: dt = 0.1, acceleration 8, speed 12, no turn: speed 12.8. */
  lemma AccelerationExample(m: Motion, o: Options)
    requires o.acceleration == 8.0 && o.maxSpeed >= StartMaxSpeed && m.currentSpeed == 12.0 && m.rampUpTime >= 0.0
    ensures Step(m, o, map[], 0.1).currentSpeed == 12.8
  {
    RampBounds(o, m.rampUpTime + 0.1);
  }

  // ---------------------------------------------------------------- the controller

  class SkierController {
    /** The entity's Transform component, or null when it has none. */
    const transform: Transform?
    const opts: Options

    var currentSpeed: real
    var targetRotationY: real
    var currentRotationY: real
    var currentTilt: real
    var rampUpTime: real
    var isJumping: bool
    var jumpVelocity: real
    /** Held keys by key code; a code never pressed is absent. */
    var keys: map<string, bool>

    constructor (transform: Transform?, opts: Options)
      ensures this.transform == transform && this.opts == opts
      ensures currentSpeed == opts.minSpeed
      ensures targetRotationY == 0.0 && currentRotationY == 0.0 && currentTilt == 0.0
      ensures rampUpTime == 0.0 && !isJumping && jumpVelocity == 0.0 && keys == map[]
    {
      this.transform := transform;
      this.opts := opts;
      currentSpeed := opts.minSpeed;
      targetRotationY := 0.0;
      currentRotationY := 0.0;
      currentTilt := 0.0;
      rampUpTime := 0.0;
      isJumping := false;
      jumpVelocity := 0.0;
      keys := map[];
    }

    /** The motion state, when the entity has a Transform. */
    function State(): (m: Motion)
      reads this, transform
      requires transform != null
    {
      Motion(transform.translation, currentSpeed, targetRotationY, currentRotationY,
             currentTilt, rampUpTime, isJumping, jumpVelocity)
    }

    /** keydownHandler. */
    method KeyDown(code: string)
      modifies this`keys
      ensures keys == old(keys)[code := true]
    {
      keys := keys[code := true];
    }

    /** keyupHandler. */
    method KeyUp(code: string)
      modifies this`keys
      ensures keys == old(keys)[code := false]
    {
      keys := keys[code := false];
    }

    /** getCurrentSpeed. */
    function GetCurrentSpeed(): (s: real)
      reads this
      ensures s == currentSpeed
    {
      currentSpeed
    }

    /** update(t, dt): nothing at all without a Transform; otherwise one Step. The rotation
        written through glm (heading then tilt) is not modelled, so nothing is stated about
        transform.rotation. */
    method Update(t: real, dt: real)
      modifies this, transform
      ensures transform == null ==> unchanged(this)
      ensures transform != null ==> State() == Step(old(State()), opts, keys, dt)
      ensures keys == old(keys)
      ensures transform != null ==> transform.scale == old(transform.scale)
    {
      if transform == null {
        return;
      }
      var lateralInput := Accelerate(dt);
      Turn(lateralInput, dt);
      Move(lateralInput, dt);
      Jump(dt);
    }

    /** Sections 0-2 of update: the ramp timer and bounds, the input and the speed. */
    method Accelerate(dt: real) returns (lateralInput: real)
      requires transform != null
      modifies this`rampUpTime, this`currentSpeed
      ensures lateralInput == Lateral(keys)
      ensures rampUpTime == old(rampUpTime) + dt
      ensures currentSpeed == NextSpeed(old(currentSpeed), old(rampUpTime), opts, keys, dt)
    {
      rampUpTime := rampUpTime + dt;
      var rampProgress := Min(rampUpTime / RampUpDuration, 1.0);
      var currentMaxSpeed := StartMaxSpeed + (opts.maxSpeed - StartMaxSpeed) * rampProgress;
      var currentMinSpeed := StartMinSpeed + (opts.minSpeed - StartMinSpeed) * rampProgress;
      assert currentMaxSpeed == CurrentMaxSpeed(opts, rampUpTime);
      assert currentMinSpeed == CurrentMinSpeed(opts, rampUpTime);

      lateralInput := 0.0;
      if Held(keys, "KeyA") || Held(keys, "ArrowLeft") {
        lateralInput := lateralInput - 1.0;
      }
      if Held(keys, "KeyD") || Held(keys, "ArrowRight") {
        lateralInput := lateralInput + 1.0;
      }

      var turnIntensity := Abs(lateralInput);
      if turnIntensity > 0.1 {
        currentSpeed := Max(currentMinSpeed, currentSpeed - opts.deceleration * turnIntensity * dt);
      } else {
        currentSpeed := Min(currentMaxSpeed, currentSpeed + opts.acceleration * dt);
      }
    }

    /** Section 3 of update: the heading target and the smoothed heading and tilt. */
    method Turn(lateralInput: real, dt: real)
      modifies this`targetRotationY, this`currentRotationY, this`currentTilt
      ensures targetRotationY == -lateralInput * MaxHeading
      ensures currentRotationY == Approach(old(currentRotationY), targetRotationY, opts.turnRotationSpeed, dt)
      ensures currentTilt == Approach(old(currentTilt), lateralInput * opts.tiltAmount, TiltRate, dt)
    {
      targetRotationY := -lateralInput * MaxHeading;
      currentRotationY := currentRotationY + (targetRotationY - currentRotationY) * opts.turnRotationSpeed * dt;
      var targetTilt := lateralInput * opts.tiltAmount;
      currentTilt := currentTilt + (targetTilt - currentTilt) * TiltRate * dt;
    }

    /** Sections 4-5 of update: sideways within the track, then forward at the new speed. */
    method Move(lateralInput: real, dt: real)
      requires transform != null && lateralInput == Lateral(keys)
      modifies transform`translation
      ensures transform.translation.x == NextX(old(transform.translation.x), opts, keys, dt)
      ensures transform.translation.y == old(transform.translation.y)
      ensures transform.translation.z == NextZ(old(transform.translation.z), currentSpeed, dt)
    {
      var lateralMovement := lateralInput * opts.lateralSpeed * dt;
      transform.translation := transform.translation.(x := transform.translation.x + lateralMovement);
      transform.translation := transform.translation.(x := Max(-opts.maxX, Min(opts.maxX, transform.translation.x)));
      transform.translation := transform.translation.(z := transform.translation.z - currentSpeed * dt);
    }

    /** Section 6 of update: the jump trigger, then velocity, gravity and landing. */
    method Jump(dt: real)
      requires transform != null
      modifies transform`translation, this`isJumping, this`jumpVelocity
      ensures var v := JumpStep(Vertical(old(transform.translation).y, old(isJumping), old(jumpVelocity)), Held(keys, "Space"), dt);
              && transform.translation == old(transform.translation).(y := v.y)
              && isJumping == v.isJumping && jumpVelocity == v.jumpVelocity
    {
      if Held(keys, "Space") && !isJumping && transform.translation.y <= GroundY + JumpTolerance {
        isJumping := true;
        jumpVelocity := JumpForce;
      }
      if isJumping || transform.translation.y > GroundY {
        transform.translation := transform.translation.(y := transform.translation.y + jumpVelocity * dt);
        jumpVelocity := jumpVelocity - Gravity * dt;
        if transform.translation.y <= GroundY {
          transform.translation := transform.translation.(y := GroundY);
          isJumping := false;
          jumpVelocity := 0.0;
        }
      }
    }

    /** reset: the slow-start minimum speed, no heading, tilt or jump, ramp timer at zero;
        the transform is not touched. */
    method Reset()
      modifies this
      ensures currentSpeed == StartMinSpeed
      ensures targetRotationY == 0.0 && currentRotationY == 0.0 && currentTilt == 0.0
      ensures !isJumping && jumpVelocity == 0.0 && rampUpTime == 0.0
      ensures keys == old(keys)
    {
      currentSpeed := StartMinSpeed;
      targetRotationY := 0.0;
      currentRotationY := 0.0;
      currentTilt := 0.0;
      isJumping := false;
      jumpVelocity := 0.0;
      rampUpTime := 0.0;
    }
  }
}
