/** The radar tutorial controller (`tutorial_radar.rs`): sweep the radar in
    quarter turns until something is seen, then keep the beam on the last
    contact, estimate its motion by finite differences and turn the ship
    onto an acceleration-corrected lead point. */
module Radar {
  import opened Geometry
  import opened Oort
  import opened Aim
  import opened Ballistics
  import opened Estimator
  import opened Servo

  /** Proportional gain of this controller's heading servo. */
  const KP: real := 60.0

  /** The gun fires when the heading error is below this many radians. */
  const FIRE_THRESHOLD: real := 0.075

  /** Beam width while sweeping and while tracking. */
  const SCAN_WIDTH: real := PI / 2.0
  const TRACK_WIDTH: real := PI / 20.0

  /** What one tick asks of the game: a torque (only when a contact was
      processed), whether to fire, and where and how wide the radar looks
      next tick. */
  datatype Command = Command(torque: Option<real>, fire: bool, radarHeading: real, radarWidth: real)

  /** The firing-solution polynomial for a contact: the distance is the
      contact relative to the ship; the velocity is the predicted per-tick
      displacement minus the ship's velocity, exactly as the code passes
      them. */
  function FiringQuadratic(contact: Vec2, pred: Prediction, position: Vec2, velocity: Vec2): Quadratic {
    Coefficients(Sub(contact, position), Sub(pred.vel, velocity))
  }

  /** The aiming computation of one processed contact: flight time, lead
      point from the predicted velocity scaled to per second, one
      acceleration correction, the bearing of that point and the heading
      error towards it. */
  function Engage(contact: Vec2, pred: Prediction, position: Vec2, velocity: Vec2,
                  heading: real, lib: Library): Solution
    requires FiringQuadratic(contact, pred, position, velocity).a != 0.0
  {
    var q := FiringQuadratic(contact, pred, position, velocity);
    var t := TimeOfFlight(Sub(contact, position), Sub(pred.vel, velocity), lib.sqrt(Discriminant(q)));
    var point := AccelCorrected(LeadPoint(contact, Div(pred.vel, TICK_LENGTH), t),
                                Div(pred.accel, TICK_LENGTH), t);
    var desired := lib.angle(Sub(point, position));
    Solution(t, point, desired, lib.angleDiff(heading, desired))
  }

  /** When the solver finds no intercept the ship aims at the contact
      itself, whatever the prediction says. */
  lemma NoInterceptAimsAtContact(contact: Vec2, pred: Prediction, position: Vec2, velocity: Vec2,
                                 heading: real, lib: Library)
    requires FiringQuadratic(contact, pred, position, velocity).a != 0.0
    requires Engage(contact, pred, position, velocity, heading, lib).flightTime == 0.0
    ensures Engage(contact, pred, position, velocity, heading, lib).point == contact
    ensures Engage(contact, pred, position, velocity, heading, lib).desiredAngle
         == lib.angle(Sub(contact, position))
  {
    ZeroFlightTimeAimsAtTarget(contact, Div(pred.vel, TICK_LENGTH), Div(pred.accel, TICK_LENGTH));
  }

  /** A positive flight time is one at which a bullet fired now meets a
      point moving from the contact at the relative velocity the code
      passes to the solver. */
  lemma EngageFlightTimeIsIntercept(contact: Vec2, pred: Prediction, position: Vec2, velocity: Vec2,
                                    heading: real, lib: Library)
    requires FiringQuadratic(contact, pred, position, velocity).a != 0.0
    requires var d := Discriminant(FiringQuadratic(contact, pred, position, velocity));
             d >= 0.0 ==> IsSqrt(lib.sqrt(d), d)
    ensures var t := Engage(contact, pred, position, velocity, heading, lib).flightTime;
            t > 0.0 ==> Norm2(LeadPoint(Sub(contact, position), Sub(pred.vel, velocity), t))
                        == (BULLET_SPEED * t) * (BULLET_SPEED * t)
  {
    var q := FiringQuadratic(contact, pred, position, velocity);
    InterceptWhenRooted(Sub(contact, position), Sub(pred.vel, velocity), lib.sqrt(Discriminant(q)));
  }

  class Ship {
    var tracking: bool
    var currentHeading: real
    var prevTargetPos: Vec2
    var prevTargetVel: Vec2
    var prevTargetVelNorm: Vec2
    var prevTargetAccel: Vec2
    var prevTargetJerk: Vec2
    var prevAngle: real
    var prevAngleDiff: real
    var predTargetAccel: Vec2
    var predTargetVel: Vec2

    /** The estimator's memory held in the fields. */
    function Track(): History
      reads this`prevTargetPos, this`prevTargetVel, this`prevTargetAccel, this`prevTargetJerk
    {
      History(prevTargetPos, prevTargetVel, prevTargetAccel, prevTargetJerk)
    }

    /** The prediction held in the fields. */
    function Predicted(): Prediction
      reads this`predTargetAccel, this`predTargetVel
    {
      Prediction(predTargetAccel, predTargetVel)
    }

    /** A new ship: not tracking, radar at heading zero, every memory zero. */
    constructor ()
      ensures !tracking && currentHeading == 0.0
      ensures Track() == INITIAL && prevTargetVelNorm == ZERO
      ensures prevAngle == 0.0 && prevAngleDiff == 0.0
      ensures Predicted() == Prediction(ZERO, ZERO)
    {
      tracking := false;
      currentHeading := 0.0;
      prevTargetPos := ZERO;
      prevTargetVel := ZERO;
      prevTargetVelNorm := ZERO;
      prevTargetAccel := ZERO;
      prevTargetJerk := ZERO;
      prevAngle := 0.0;
      prevAngleDiff := 0.0;
      predTargetAccel := ZERO;
      predTargetVel := ZERO;
    }

    /** The PD step: torque from the error and its change since the last
      call, which becomes the new remembered error. */
    method Pid(angle: real) returns (torque: real)
      modifies this`prevAngleDiff
      ensures torque == PdTorque(KP, angle, old(prevAngleDiff))
      ensures prevAngleDiff == angle
    {
      var dErr := angle - prevAngleDiff;
      prevAngleDiff := angle;
      torque := KP * angle + KD * dErr * TICK_LENGTH;
    }

    /** The differencing step of `process_contact`: velocity,
        acceleration and jerk are taken against the stored values, then
        stored over them with the contact; the velocity relative to the
        ship is kept beside them. */
    method Difference(contact: Vec2, velocity: Vec2)
      modifies this`prevTargetPos, this`prevTargetVel, this`prevTargetVelNorm,
               this`prevTargetAccel, this`prevTargetJerk
      ensures Track() == Observe(old(Track()), contact)
      ensures prevTargetVelNorm == Sub(prevTargetVel, velocity)
    {
      var vel := Sub(contact, prevTargetPos);
      var normVel := Sub(vel, velocity);
      var accel := Sub(vel, prevTargetVel);
      var jerk := Sub(accel, prevTargetAccel);

      prevTargetPos := contact;
      prevTargetVel := vel;
      prevTargetVelNorm := normVel;
      prevTargetAccel := accel;
      prevTargetJerk := jerk;
    }

    /** The prediction step: acceleration and velocity one tick ahead
        from the stored history. */
    method Extrapolate()
      modifies this`predTargetAccel, this`predTargetVel
      ensures Predicted() == Predict(Track())
    {
      predTargetAccel := Add(prevTargetAccel, Scale(prevTargetJerk, TICK_LENGTH));
      predTargetVel := Add(prevTargetVel, Scale(predTargetAccel, TICK_LENGTH));
    }

    /** The aiming step: flight time, lead point, one acceleration
        correction, heading error with the bearing's rate added, the PD
        torque, and the decision to fire. */
    method Steer(contact: Vec2, position: Vec2, velocity: Vec2, heading: real, lib: Library)
      returns (torque: real, fire: bool)
      requires FiringQuadratic(contact, Predicted(), position, velocity).a != 0.0
      modifies this`prevAngle, this`prevAngleDiff
      ensures Aimed(Engage(contact, Predicted(), position, velocity, heading, lib), KP, FIRE_THRESHOLD,
                    old(prevAngle), old(prevAngleDiff), prevAngle, prevAngleDiff, torque, fire)
    {
      var dist := Sub(contact, position);
      var dv := Sub(predTargetVel, velocity);
      var flightTime := TimeOfFlight(dist, dv, lib.sqrt(Discriminant(Coefficients(dist, dv))));

      var leadTarget := LeadPoint(contact, Div(predTargetVel, TICK_LENGTH), flightTime);
      var accelCorrected := AccelCorrected(leadTarget, Div(predTargetAccel, TICK_LENGTH), flightTime);

      var desiredAngle := lib.angle(Sub(accelCorrected, position));
      var angle := lib.angleDiff(heading, desiredAngle);

      var angularVel := (desiredAngle - prevAngle) * TICK_LENGTH;
      prevAngle := desiredAngle;

      torque := Pid(angle + angularVel);
      fire := Abs(angle) < FIRE_THRESHOLD;
    }

    /** One contact: update the estimator and the prediction, then aim.
        The radar fields are left alone. */
    method ProcessContact(contact: Vec2, position: Vec2, velocity: Vec2, heading: real, lib: Library)
      returns (torque: real, fire: bool)
      requires FiringQuadratic(contact, Predict(Observe(Track(), contact)), position, velocity).a != 0.0
      modifies this`prevTargetPos, this`prevTargetVel, this`prevTargetVelNorm, this`prevTargetAccel,
               this`prevTargetJerk, this`predTargetAccel, this`predTargetVel, this`prevAngle,
               this`prevAngleDiff
      ensures Track() == Observe(old(Track()), contact)
      ensures prevTargetVelNorm == Sub(prevTargetVel, velocity)
      ensures Predicted() == Predict(Track())
      ensures Aimed(Engage(contact, Predicted(), position, velocity, heading, lib), KP, FIRE_THRESHOLD,
                    old(prevAngle), old(prevAngleDiff), prevAngle, prevAngleDiff, torque, fire)
    {
      ghost var h := Observe(Track(), contact);
      Difference(contact, velocity);
      ghost var norm := prevTargetVelNorm;
      assert Track() == h && norm == Sub(h.vel, velocity);
      Extrapolate();
      ghost var p := Predict(h);
      assert Track() == h && Predicted() == p;
      torque, fire := Steer(contact, position, velocity, heading, lib);
      assert Track() == h && Predicted() == p && prevTargetVelNorm == norm;
    }

    /** Sweep: turn the radar a quarter turn clockwise with a quarter-turn
        beam. */
    method ScanMode() returns (radarWidth: real)
      modifies this`currentHeading
      ensures currentHeading == old(currentHeading) - PI / 2.0
      ensures radarWidth == SCAN_WIDTH
    {
      currentHeading := currentHeading - PI / 2.0;
      radarWidth := PI / 2.0;
    }

    /** Track: point the radar at the last contact's position with a narrow
        beam. */
    method TrackMode(position: Vec2, lib: Library) returns (radarWidth: real)
      modifies this`currentHeading
      ensures currentHeading == lib.angle(Sub(prevTargetPos, position))
      ensures radarWidth == TRACK_WIDTH
    {
      var predictedPos := prevTargetPos;
      currentHeading := lib.angle(Sub(predictedPos, position));
      radarWidth := PI / 20.0;
    }

    /** One game tick. With a contact: process it, then hold the beam on it.
        Without: forget the track and sweep on, leaving the estimator, the
        prediction and the servo untouched. */
    method Tick(contact: Option<Vec2>, position: Vec2, velocity: Vec2, heading: real, lib: Library)
      returns (cmd: Command)
      requires contact.Some? ==>
        FiringQuadratic(contact.value, Predict(Observe(Track(), contact.value)), position, velocity).a != 0.0
      modifies this
      ensures tracking == contact.Some?
      ensures cmd.radarHeading == currentHeading
      ensures contact.Some? ==>
        && Track() == Observe(old(Track()), contact.value)
        && Predicted() == Predict(Track())
        && currentHeading == lib.angle(Sub(contact.value, position))
        && cmd.radarWidth == TRACK_WIDTH
        && prevTargetVelNorm == Sub(prevTargetVel, velocity)
        && cmd.torque.Some?
        && Aimed(Engage(contact.value, Predicted(), position, velocity, heading, lib), KP, FIRE_THRESHOLD,
                 old(prevAngle), old(prevAngleDiff), prevAngle, prevAngleDiff, cmd.torque.value, cmd.fire)
      ensures contact.None? ==>
        && Track() == old(Track()) && Predicted() == old(Predicted())
        && prevTargetVelNorm == old(prevTargetVelNorm)
        && prevAngle == old(prevAngle) && prevAngleDiff == old(prevAngleDiff)
        && currentHeading == old(currentHeading) - PI / 2.0
        && cmd == Command(None, false, currentHeading, SCAN_WIDTH)
    {
      var torque: Option<real> := None;
      var fire := false;
      if contact.Some? {
        tracking := true;
        var t, f := ProcessContact(contact.value, position, velocity, heading, lib);
        torque, fire := Some(t), f;
      } else {
        tracking := false;
      }
      var width;
      if tracking {
        width := TrackMode(position, lib);
      } else {
        width := ScanMode();
      }
      cmd := Command(torque, fire, currentHeading, width);
    }
  }
}
