/** The proportional-derivative law each controller's `pid` applies to the
    heading error. There is no integral term. */
module Servo {
  import opened Oort
  import opened Reals

  /** Derivative gain, the same in all three controllers. */
  const KD: real := 50000.0

  /** `k_p · e + k_d · (e − prev) · TICK_LENGTH` */
  function PdTorque(kp: real, e: real, prev: real): real {
    kp * e + KD * (e - prev) * TICK_LENGTH
  }

  /** The law has no bias: mirroring the error and its history mirrors the
      torque. */
  lemma NoBias(kp: real, e: real, prev: real)
    ensures PdTorque(kp, -e, -prev) == -PdTorque(kp, e, prev)
  {
  }

  /** An error that did not change since the last tick meets only the
      proportional term. */
  lemma SteadyErrorIsProportional(kp: real, e: real)
    ensures PdTorque(kp, e, e) == kp * e
  {
  }

  /** With a positive gain the torque pushes against an error that is
      positive and not shrinking, and against a negative error that is not
      shrinking either. */
  lemma TorqueOpposesGrowingError(kp: real, e: real, prev: real)
    requires kp > 0.0
    ensures e > 0.0 && e >= prev ==> PdTorque(kp, e, prev) > 0.0
    ensures e < 0.0 && e <= prev ==> PdTorque(kp, e, prev) < 0.0
  {
    if e > 0.0 {
      MulPositive(kp, e);
    } else if e < 0.0 {
      MulNegative(e, kp);
    }
  }
}
