/** The lead tutorial controller (`tutorial_lead.rs`): the ship cannot
    accelerate; it turns onto the point where a target moving at constant
    velocity will be when a bullet fired now reaches it, and fires when
    nearly on that bearing. */
module Lead {
  import opened Geometry
  import opened Oort
  import opened Aim
  import opened Ballistics
  import opened Servo
  import opened Reals

  /** Proportional gain of this controller's heading servo. */
  const KP: real := 50.0

  /** The gun fires when the heading error is below this many radians. */
  const FIRE_THRESHOLD: real := 0.025

  /** What one tick asks of the game: a torque and whether to fire. */
  datatype Command = Command(torque: real, fire: bool)

  /** The bullet's flight time to the target: the distance is the target
      relative to the ship, the velocity is the target's own (the ship is
      taken to be at rest). */
  function FlightTime(target: Vec2, position: Vec2, targetVelocity: Vec2, lib: Library): real
    requires Coefficients(Sub(target, position), targetVelocity).a != 0.0
  {
    var dist := Sub(target, position);
    TimeOfFlight(dist, targetVelocity, lib.sqrt(Discriminant(Coefficients(dist, targetVelocity))))
  }

  /** The aiming computation of one tick: flight time, the target's position
      after that time, its bearing and the heading error towards it. */
  function Engage(target: Vec2, position: Vec2, targetVelocity: Vec2, heading: real, lib: Library): Solution
    requires Coefficients(Sub(target, position), targetVelocity).a != 0.0
  {
    var t := FlightTime(target, position, targetVelocity, lib);
    var point := LeadPoint(target, targetVelocity, t);
    var desired := lib.angle(Sub(point, position));
    Solution(t, point, desired, lib.angleDiff(heading, desired))
  }

  /** The flight time is never negative; with no real intercept it is 0. */
  lemma FlightTimeRange(target: Vec2, position: Vec2, targetVelocity: Vec2, lib: Library)
    requires Coefficients(Sub(target, position), targetVelocity).a != 0.0
    ensures FlightTime(target, position, targetVelocity, lib) >= 0.0
    ensures Discriminant(Coefficients(Sub(target, position), targetVelocity)) < 0.0
            ==> FlightTime(target, position, targetVelocity, lib) == 0.0
  {
    var dist := Sub(target, position);
    TimeOfFlightRange(dist, targetVelocity, lib.sqrt(Discriminant(Coefficients(dist, targetVelocity))));
  }

  /** A positive flight time solves the equation the derivation sets up:
      with `dp = (x, y)` the target relative to the ship and `(h, v)` its
      velocity, `t² · BULLET_SPEED² = (x + h t)² + (y + v t)²`, the
      right-hand side being the squared length of `dp + (h, v) · t`. */
  lemma FlightTimeSolvesDerivation(target: Vec2, position: Vec2, targetVelocity: Vec2, lib: Library)
    requires Coefficients(Sub(target, position), targetVelocity).a != 0.0
    requires var d := Discriminant(Coefficients(Sub(target, position), targetVelocity));
             d >= 0.0 ==> IsSqrt(lib.sqrt(d), d)
    ensures var t := FlightTime(target, position, targetVelocity, lib);
            t > 0.0 ==> Norm2(LeadPoint(Sub(target, position), targetVelocity, t))
                        == (BULLET_SPEED * t) * (BULLET_SPEED * t)
  {
    var dist := Sub(target, position);
    InterceptWhenRooted(dist, targetVelocity, lib.sqrt(Discriminant(Coefficients(dist, targetVelocity))));
  }

  /** A target slower than the bullet and not at the ship's position always
      has exactly one future intercept, the `minus` value of the formula:
      the flight time is positive, equals `minus`, and no other positive
      time is an intercept. */
  lemma SlowTargetIsLed(target: Vec2, position: Vec2, targetVelocity: Vec2, lib: Library, u: real)
    requires Norm2(targetVelocity) < BULLET_SPEED * BULLET_SPEED
    requires target != position
    requires IsSqrt(lib.sqrt(Discriminant(Coefficients(Sub(target, position), targetVelocity))),
                    Discriminant(Coefficients(Sub(target, position), targetVelocity)))
    ensures Coefficients(Sub(target, position), targetVelocity).a < 0.0
    ensures var q := Coefficients(Sub(target, position), targetVelocity);
            FlightTime(target, position, targetVelocity, lib) == Minus(q, lib.sqrt(Discriminant(q))) > 0.0
    ensures u > 0.0 && Norm2(LeadPoint(Sub(target, position), targetVelocity, u)) == (BULLET_SPEED * u) * (BULLET_SPEED * u)
            ==> u == FlightTime(target, position, targetVelocity, lib)
  {
    var dist := Sub(target, position);
    var root := lib.sqrt(Discriminant(Coefficients(dist, targetVelocity)));
    SlowTargetSingleIntercept(dist, targetVelocity, root);
    if u > 0.0 && Norm2(LeadPoint(dist, targetVelocity, u)) == (BULLET_SPEED * u) * (BULLET_SPEED * u) {
      SlowTargetUniqueIntercept(dist, targetVelocity, root, u);
    }
  }

  /** The worked example: a stationary target 1000 m ahead of a ship at the
      origin is one second of bullet flight away, and is aimed at directly. */
  lemma StationaryTargetOneSecondAway(target: Vec2, position: Vec2, targetVelocity: Vec2, lib: Library)
    requires target.x == 1000.0 && target.y == 0.0 && position.x == 0.0 && position.y == 0.0
    requires targetVelocity.x == 0.0 && targetVelocity.y == 0.0
    requires lib.sqrt(4000000000000.0) == 2000000.0
    ensures Coefficients(Sub(target, position), targetVelocity).a != 0.0
    ensures FlightTime(target, position, targetVelocity, lib) == 1.0
    ensures LeadPoint(target, targetVelocity, FlightTime(target, position, targetVelocity, lib)) == target
  {
    var q := Coefficients(Sub(target, position), targetVelocity);
    assert q.a == -1000000.0 && q.b == 0.0 && q.c == 1000000.0;
    assert Discriminant(q) == 4000000000000.0;
    assert Plus(q, 2000000.0) == -1.0;
    assert Minus(q, 2000000.0) == 1.0;
  }

  /** A target abeam of the ship (straight along the y axis from it),
      crossing along the x axis slower than the bullet, is led: the flight
      time is positive, satisfies `t² (BULLET_SPEED² − h²) = y²`, and the
      aim point lies ahead of the target along its motion. The flight time
      is under two seconds when `y² < 4 (BULLET_SPEED² − h²)`, as for a
      target 1000 m away crossing at 500 m/s. */
  lemma CrossingTargetIsLedAhead(target: Vec2, position: Vec2, targetVelocity: Vec2, lib: Library)
    requires Sub(target, position).x == 0.0 && Sub(target, position).y != 0.0
    requires targetVelocity.y == 0.0 && 0.0 < targetVelocity.x < BULLET_SPEED
    requires var d := Discriminant(Coefficients(Sub(target, position), targetVelocity));
             IsSqrt(lib.sqrt(d), d)
    ensures Coefficients(Sub(target, position), targetVelocity).a != 0.0
    ensures var t, y, h := FlightTime(target, position, targetVelocity, lib), Sub(target, position).y, targetVelocity.x;
            && t > 0.0
            && t * t * (BULLET_SPEED * BULLET_SPEED - h * h) == y * y
            && LeadPoint(target, targetVelocity, t).x > target.x
            && (y * y < 4.0 * (BULLET_SPEED * BULLET_SPEED - h * h) ==> t < 2.0)
  {
    var dist := Sub(target, position);
    var h := targetVelocity.x;
    MulMonotone(BULLET_SPEED, h);
    assert Norm2(targetVelocity) == h * h;
    assert dist != ZERO;
    CrossingFlightTime(dist, targetVelocity, lib.sqrt(Discriminant(Coefficients(dist, targetVelocity))));
    var t := FlightTime(target, position, targetVelocity, lib);
    MulPositive(h, t);
    if dist.y * dist.y < 4.0 * (BULLET_SPEED * BULLET_SPEED - h * h) {
      BelowTwo(t, BULLET_SPEED * BULLET_SPEED - h * h, dist.y * dist.y);
    }
  }

  /** The aim point is where the target will be after the flight time; a
      positive flight time puts it at bullet range from the ship. */
  lemma AimPointIsIntercept(target: Vec2, position: Vec2, targetVelocity: Vec2, heading: real, lib: Library)
    requires Coefficients(Sub(target, position), targetVelocity).a != 0.0
    requires var d := Discriminant(Coefficients(Sub(target, position), targetVelocity));
             d >= 0.0 ==> IsSqrt(lib.sqrt(d), d)
    ensures var s := Engage(target, position, targetVelocity, heading, lib);
            s.flightTime > 0.0 ==> Norm2(Sub(s.point, position))
                                   == (BULLET_SPEED * s.flightTime) * (BULLET_SPEED * s.flightTime)
  {
    FlightTimeSolvesDerivation(target, position, targetVelocity, lib);
    LeadInShipFrame(target, position, targetVelocity, FlightTime(target, position, targetVelocity, lib));
  }

  /** With no intercept the ship aims at the target itself. */
  lemma NoInterceptAimsAtTarget(target: Vec2, position: Vec2, targetVelocity: Vec2, heading: real, lib: Library)
    requires Coefficients(Sub(target, position), targetVelocity).a != 0.0
    requires Engage(target, position, targetVelocity, heading, lib).flightTime == 0.0
    ensures Engage(target, position, targetVelocity, heading, lib).point == target
    ensures Engage(target, position, targetVelocity, heading, lib).desiredAngle == lib.angle(Sub(target, position))
  {
    ZeroFlightTimeAimsAtTarget(target, targetVelocity, ZERO);
  }

  class Ship {
    var prevAngle: real

    /** A new ship remembers a zero error. */
    constructor ()
      ensures prevAngle == 0.0
    {
      prevAngle := 0.0;
    }

    /** The PD step: torque from the error and its change since the last
        call, which becomes the new remembered error. */
    method Pid(angle: real) returns (torque: real)
      modifies this`prevAngle
      ensures torque == PdTorque(KP, angle, old(prevAngle))
      ensures prevAngle == angle
    {
      var dErr := angle - prevAngle;
      prevAngle := angle;
      torque := KP * angle + KD * dErr * TICK_LENGTH;
    }

    /** One game tick: aim at the lead point, apply the PD torque to the
        heading error, and fire when that error is small. */
    method Tick(target: Vec2, position: Vec2, targetVelocity: Vec2, heading: real, lib: Library)
      returns (cmd: Command)
      requires Coefficients(Sub(target, position), targetVelocity).a != 0.0
      modifies this`prevAngle
      ensures var s := Engage(target, position, targetVelocity, heading, lib);
              && prevAngle == s.error
              && cmd.torque == PdTorque(KP, s.error, old(prevAngle))
              && cmd.fire == (Abs(s.error) < FIRE_THRESHOLD)
    {
      var flightTime := FlightTime(target, position, targetVelocity, lib);
      var leadTarget := LeadPoint(target, targetVelocity, flightTime);

      var desiredAngle := lib.angle(Sub(leadTarget, position));
      var angle := lib.angleDiff(heading, desiredAngle);

      var torque := Pid(angle);
      cmd := Command(torque, Abs(angle) < FIRE_THRESHOLD);
    }
  }
}
