/** Turning a flight time into an aim point: the linear lead point and the
    single-pass acceleration correction shared by the controllers. */
module Aim {
  import opened Geometry
  import opened Oort
  import opened Servo

  /** Where a point at `p` moving at constant `v` is after time `t`. */
  function LeadPoint(p: Vec2, v: Vec2, t: real): Vec2 {
    Add(p, Scale(v, t))
  }

  /** `lead + 0.5 * acc * t * t`: the lead point moved by the distance a
      constant acceleration `acc` covers in time `t`. It is applied once;
      the flight time is not solved again for the corrected point. */
  function AccelCorrected(lead: Vec2, acc: Vec2, t: real): Vec2 {
    Add(lead, Scale(acc, 0.5 * t * t))
  }

  /** What one tick's aiming computes: the flight time, the point aimed at,
      the bearing of that point and the heading error towards it. */
  datatype Solution = Solution(flightTime: real, point: Vec2, desiredAngle: real, error: real)

  /** With no flight time (the solver's "no intercept" value) the corrected
      lead point is the target itself. */
  lemma ZeroFlightTimeAimsAtTarget(p: Vec2, v: Vec2, acc: Vec2)
    ensures LeadPoint(p, v, 0.0) == p
    ensures AccelCorrected(LeadPoint(p, v, 0.0), acc, 0.0) == p
  {
  }

  /** Seen from `position`, the lead point of a target is the lead point of
      the target's relative position. */
  lemma LeadInShipFrame(target: Vec2, position: Vec2, v: Vec2, t: real)
    ensures Sub(LeadPoint(target, v, t), position) == LeadPoint(Sub(target, position), v, t)
  {
  }

  /** What one aiming step leaves behind, given its solution `s` and the
      bearing and servo error remembered before it: the new bearing is
      remembered, the servo's error is the heading error plus the bearing's
      change over one tick, the torque is the PD law with gain `kp` on that
      error, and the gun fires exactly when the heading error is under
      `threshold`. */
  predicate Aimed(s: Solution, kp: real, threshold: real, prevAngle0: real, prevAngleDiff0: real,
                  prevAngle: real, prevAngleDiff: real, torque: real, fire: bool)
  {
    && prevAngle == s.desiredAngle
    && prevAngleDiff == s.error + (s.desiredAngle - prevAngle0) * TICK_LENGTH
    && torque == PdTorque(kp, prevAngleDiff, prevAngleDiff0)
    && fire == (Abs(s.error) < threshold)
  }
}
