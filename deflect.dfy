/** The deflection tutorial controller (`tutorial_deflect.rs`): match the
    target's velocity and close in on it, estimate the target's acceleration
    from the change of its ship-relative velocity, and turn the ship onto an
    acceleration-corrected lead point. */
module Deflect {
  import opened Geometry
  import opened Oort
  import opened Aim
  import opened Ballistics
  import opened Servo

  /** Proportional gain of this controller's heading servo. */
  const KP: real := 50.0

  /** The gun fires when the heading error is below this many radians. */
  const FIRE_THRESHOLD: real := 0.015

  /** The closing acceleration is the distance to the target divided by
      this. */
  const APPROACH_DIVISOR: real := 25.0

  /** What one tick asks of the game: the accelerations requested, in the
      order they are requested, the torque, whether to fire, and the
      estimator's error (the observed velocity change minus the one
      predicted last tick), which the code only reports. */
  datatype Command = Command(accelerations: seq<Vec2>, torque: real, fire: bool, accelError: Vec2)

  /** The firing-solution flight time. The velocity argument is not read:
      the distance and the relative velocity are taken from the game's
      readings of the target and the ship. */
  function PredictTimeOfFlight(tVel: Vec2, target: Vec2, position: Vec2, targetVelocity: Vec2,
                               velocity: Vec2, lib: Library): real
    requires Coefficients(Sub(target, position), Sub(targetVelocity, velocity)).a != 0.0
  {
    var dist := Sub(target, position);
    var dv := Sub(targetVelocity, velocity);
    TimeOfFlight(dist, dv, lib.sqrt(Discriminant(Coefficients(dist, dv))))
  }

  /** The change of the target's ship-relative velocity over one tick. */
  function VelocityChange(prevVelocity: Vec2, normVelocity: Vec2): Vec2 {
    Sub(normVelocity, prevVelocity)
  }

  /** `(prev_target_accel − d_vel) · TICK_LENGTH`: the code's jerk term. */
  function Jerk(prevAccel: Vec2, dVel: Vec2): Vec2 {
    Scale(Sub(prevAccel, dVel), TICK_LENGTH)
  }

  /** The acceleration predicted for the next tick: the observed velocity
      change plus the jerk term. */
  function NextAccel(prevAccel: Vec2, dVel: Vec2): Vec2 {
    Add(dVel, Jerk(prevAccel, dVel))
  }

  /** The aiming computation of one tick: flight time, lead point from the
      target's ship-relative velocity, one correction by the predicted
      acceleration scaled to per second, the bearing of that point and the
      heading error towards it. */
  function Engage(target: Vec2, position: Vec2, targetVelocity: Vec2, velocity: Vec2,
                  predAccel: Vec2, heading: real, lib: Library): Solution
    requires Coefficients(Sub(target, position), Sub(targetVelocity, velocity)).a != 0.0
  {
    var normVelocity := Sub(targetVelocity, velocity);
    var t := PredictTimeOfFlight(normVelocity, target, position, targetVelocity, velocity, lib);
    var point := AccelCorrected(LeadPoint(target, normVelocity, t), Div(predAccel, TICK_LENGTH), t);
    var desired := lib.angle(Sub(point, position));
    Solution(t, point, desired, lib.angleDiff(heading, desired))
  }

  /** Whatever velocity is passed, the flight time is the same. */
  lemma FlightTimeIgnoresArgument(tVel: Vec2, tVel': Vec2, target: Vec2, position: Vec2,
                                  targetVelocity: Vec2, velocity: Vec2, lib: Library)
    requires Coefficients(Sub(target, position), Sub(targetVelocity, velocity)).a != 0.0
    ensures PredictTimeOfFlight(tVel, target, position, targetVelocity, velocity, lib)
         == PredictTimeOfFlight(tVel', target, position, targetVelocity, velocity, lib)
  {
  }

  /** The flight time is never negative; with no real intercept it is 0. */
  lemma FlightTimeRange(tVel: Vec2, target: Vec2, position: Vec2, targetVelocity: Vec2,
                        velocity: Vec2, lib: Library)
    requires Coefficients(Sub(target, position), Sub(targetVelocity, velocity)).a != 0.0
    ensures PredictTimeOfFlight(tVel, target, position, targetVelocity, velocity, lib) >= 0.0
    ensures Discriminant(Coefficients(Sub(target, position), Sub(targetVelocity, velocity))) < 0.0
            ==> PredictTimeOfFlight(tVel, target, position, targetVelocity, velocity, lib) == 0.0
  {
    var dist := Sub(target, position);
    var dv := Sub(targetVelocity, velocity);
    TimeOfFlightRange(dist, dv, lib.sqrt(Discriminant(Coefficients(dist, dv))));
  }

  /** A positive flight time is an intercept: the uncorrected lead point,
      seen from the ship, is exactly as far away as a bullet flies in that
      time. */
  lemma LeadIsIntercept(target: Vec2, position: Vec2, targetVelocity: Vec2, velocity: Vec2,
                        predAccel: Vec2, heading: real, lib: Library)
    requires Coefficients(Sub(target, position), Sub(targetVelocity, velocity)).a != 0.0
    requires var d := Discriminant(Coefficients(Sub(target, position), Sub(targetVelocity, velocity)));
             d >= 0.0 ==> IsSqrt(lib.sqrt(d), d)
    ensures var t := Engage(target, position, targetVelocity, velocity, predAccel, heading, lib).flightTime;
            t > 0.0 ==> Norm2(Sub(LeadPoint(target, Sub(targetVelocity, velocity), t), position))
                        == (BULLET_SPEED * t) * (BULLET_SPEED * t)
  {
    var dist := Sub(target, position);
    var dv := Sub(targetVelocity, velocity);
    var t := Engage(target, position, targetVelocity, velocity, predAccel, heading, lib).flightTime;
    InterceptWhenRooted(dist, dv, lib.sqrt(Discriminant(Coefficients(dist, dv))));
    LeadInShipFrame(target, position, dv, t);
  }

  /** When the solver finds no intercept the ship aims at the target
      itself, whatever acceleration is predicted. */
  lemma NoInterceptAimsAtTarget(target: Vec2, position: Vec2, targetVelocity: Vec2, velocity: Vec2,
                                predAccel: Vec2, heading: real, lib: Library)
    requires Coefficients(Sub(target, position), Sub(targetVelocity, velocity)).a != 0.0
    requires Engage(target, position, targetVelocity, velocity, predAccel, heading, lib).flightTime == 0.0
    ensures Engage(target, position, targetVelocity, velocity, predAccel, heading, lib).point == target
    ensures Engage(target, position, targetVelocity, velocity, predAccel, heading, lib).desiredAngle
         == lib.angle(Sub(target, position))
  {
    ZeroFlightTimeAimsAtTarget(target, Sub(targetVelocity, velocity), Div(predAccel, TICK_LENGTH));
  }

  /** The stored acceleration stays zero, so the jerk term is always the
      velocity change scaled by `−TICK_LENGTH` and the prediction is the
      velocity change scaled by `1 − TICK_LENGTH`. */
  lemma PredictionFromRest(dVel: Vec2)
    ensures Jerk(ZERO, dVel) == Scale(dVel, -TICK_LENGTH)
    ensures NextAccel(ZERO, dVel) == Scale(dVel, 1.0 - TICK_LENGTH)
  {
  }

  class Ship {
    var prevTargetVelocity: Vec2
    var prevTargetAccel: Vec2
    var predTargetAccel: Vec2
    var prevAngle: real
    var prevAngleDiff: real

    /** The stored acceleration is zero. The code never writes it after
        construction, so this holds for the ship's whole life. */
    predicate Valid()
      reads this`prevTargetAccel
    {
      prevTargetAccel == ZERO
    }

    /** A new ship: every memory zero. */
    constructor ()
      ensures Valid()
      ensures prevTargetVelocity == ZERO && predTargetAccel == ZERO
      ensures prevAngle == 0.0 && prevAngleDiff == 0.0
    {
      prevTargetVelocity := ZERO;
      prevTargetAccel := ZERO;
      predTargetAccel := ZERO;
      prevAngle := 0.0;
      prevAngleDiff := 0.0;
    }

    /** The PD step: torque from the error and its change since the last
        call, which becomes the new remembered error. */
    method Pid(angle: real) returns (torque: real)
      modifies this`prevAngleDiff
      ensures torque == PdTorque(KP, angle, old(prevAngleDiff))
      ensures prevAngleDiff == angle
    {
      var dErr := angle - prevAngleDiff;
      prevAngleDiff := angle;
      torque := KP * angle + KD * dErr * TICK_LENGTH;
    }

    /** The estimator step: the velocity change since the last tick, stored
        velocity and prediction replaced, and the error of the old
        prediction. The new prediction is `NextAccel` of the stored
        acceleration, which is zero, so it is the velocity change scaled by
        `1 − TICK_LENGTH` (`PredictionFromRest`). */
    method Estimate(normTargetVelocity: Vec2) returns (error: Vec2)
      requires Valid()
      modifies this`prevTargetVelocity, this`predTargetAccel
      ensures prevTargetVelocity == normTargetVelocity
      ensures predTargetAccel
           == Scale(VelocityChange(old(prevTargetVelocity), normTargetVelocity), 1.0 - TICK_LENGTH)
      ensures error == Sub(VelocityChange(old(prevTargetVelocity), normTargetVelocity), old(predTargetAccel))
    {
      var dVel := Sub(normTargetVelocity, prevTargetVelocity);
      prevTargetVelocity := normTargetVelocity;
      var jerk := Scale(Sub(prevTargetAccel, dVel), TICK_LENGTH);
      error := Sub(dVel, predTargetAccel);
      predTargetAccel := Add(dVel, jerk);
      PredictionFromRest(dVel);
    }

    /** The aiming step: flight time, lead point, one acceleration
        correction, heading error with the bearing's rate added, the PD
        torque, and the decision to fire. */
    method Steer(target: Vec2, position: Vec2, targetVelocity: Vec2, velocity: Vec2,
                 heading: real, lib: Library)
      returns (torque: real, fire: bool)
      requires Coefficients(Sub(target, position), Sub(targetVelocity, velocity)).a != 0.0
      modifies this`prevAngle, this`prevAngleDiff
      ensures Aimed(Engage(target, position, targetVelocity, velocity, predTargetAccel, heading, lib),
                    KP, FIRE_THRESHOLD, old(prevAngle), old(prevAngleDiff),
                    prevAngle, prevAngleDiff, torque, fire)
    {
      var normTargetVelocity := Sub(targetVelocity, velocity);
      var flightTime := PredictTimeOfFlight(normTargetVelocity, target, position, targetVelocity, velocity, lib);
      var leadTarget := LeadPoint(target, normTargetVelocity, flightTime);
      var accelCorrected := AccelCorrected(leadTarget, Div(predTargetAccel, TICK_LENGTH), flightTime);

      var desiredAngle := lib.angle(Sub(accelCorrected, position));
      var angle := lib.angleDiff(heading, desiredAngle);

      var angularVel := (desiredAngle - prevAngle) * TICK_LENGTH;
      prevAngle := desiredAngle;

      torque := Pid(angle + angularVel);
      fire := Abs(angle) < FIRE_THRESHOLD;
    }

    /** One game tick: request the seek and approach accelerations, update
        the acceleration estimate, then aim with the new prediction. */
    method Tick(target: Vec2, position: Vec2, targetVelocity: Vec2, velocity: Vec2,
                heading: real, lib: Library)
      returns (cmd: Command)
      requires Valid()
      requires Coefficients(Sub(target, position), Sub(targetVelocity, velocity)).a != 0.0
      modifies this`prevTargetVelocity, this`predTargetAccel, this`prevAngle, this`prevAngleDiff
      ensures Valid()
      ensures cmd.accelerations
           == [Sub(targetVelocity, velocity), Div(Sub(target, position), APPROACH_DIVISOR)]
      ensures prevTargetVelocity == Sub(targetVelocity, velocity)
      ensures predTargetAccel
           == Scale(VelocityChange(old(prevTargetVelocity), prevTargetVelocity), 1.0 - TICK_LENGTH)
      ensures cmd.accelError
           == Sub(VelocityChange(old(prevTargetVelocity), prevTargetVelocity), old(predTargetAccel))
      ensures Sub(targetVelocity, velocity) == old(prevTargetVelocity) ==>
                predTargetAccel == ZERO && cmd.accelError == Sub(ZERO, old(predTargetAccel))
      ensures Aimed(Engage(target, position, targetVelocity, velocity, predTargetAccel, heading, lib),
                    KP, FIRE_THRESHOLD, old(prevAngle), old(prevAngleDiff),
                    prevAngle, prevAngleDiff, cmd.torque, cmd.fire)
    {
      var seek := Sub(targetVelocity, velocity);
      var approach := Sub(target, position);
      var accelerations := [seek, Div(approach, APPROACH_DIVISOR)];

      var normTargetVelocity := Sub(targetVelocity, velocity);
      var error := Estimate(normTargetVelocity);
      ghost var pred := predTargetAccel;
      ghost var prevVel := prevTargetVelocity;

      var torque, fire := Steer(target, position, targetVelocity, velocity, heading, lib);
      assert predTargetAccel == pred && prevTargetVelocity == prevVel;
      cmd := Command(accelerations, torque, fire, error);
    }
  }
}
