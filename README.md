# Oort tutorial ship controllers in Dafny

A model of three ship controllers written for the Oort programming game
(`tutorial_radar.rs`, `tutorial_deflect.rs` and `tutorial_lead.rs`). Each
controller is a Rust `Ship` struct whose `tick` runs once per simulation tick.
On each tick it:

- reads the game's sensors;
- solves a quadratic for the time a bullet needs to reach a moving target;
- aims the ship at the resulting lead point, corrected for an estimated
  target acceleration in two of the three controllers;
- turns the ship with a proportional-derivative (PD) torque;
- fires when the heading error is small.

The model is over `real` numbers. It has these modules:

- `Geometry`: the game's `Vec2` and the vector arithmetic the controllers use.
- `Oort`: the tick length, π, and the library functions the code calls
  (`sqrt`, `Vec2::angle`, `angle_diff`). These are passed in as a `Library`
  value. The square root is trusted only through the hypothesis
  `IsSqrt(r, d)`.
- `Ballistics`: the intercept solver all three controllers share.
  `Ballistics.TimeOfFlight` models radar's
  `predict_time_of_flight(dist, t_vel)`. It is also the body of
  `Deflect.PredictTimeOfFlight` and `Lead.FlightTime`.
  `Ballistics.Coefficients` gives `a = |dv|² − BULLET_SPEED²`,
  `b = 2 dv·dist` and `c = |dist|²`. `Ballistics.Plus` and `Ballistics.Minus`
  are the quadratic formula. `Ballistics.SelectRoot` is the root-selection
  rule: `plus` if positive, else `minus` if positive, else 0. Its lemmas show
  that:
  - the selected time is never negative;
  - a positive result is a true intercept;
  - a 0 result means there is no future intercept;
  - a target slower than the bullet and not at the shooter's position has
    exactly one future intercept, and the solver returns it;
  - for a target faster than the bullet the code returns the later root.
- `Servo`: `Servo.PdTorque` is the PD law of the three `pid` functions,
  `k_p e + k_d (e − prev) TICK_LENGTH` with `k_d = 50000`.
- `Aim`: the lead point `p + v t` (`Aim.LeadPoint`) and the one-pass
  acceleration correction `lead + ½ acc t²` (`Aim.AccelCorrected`). It also
  holds the predicate `Aimed`, which relates one aiming step to the servo
  fields it leaves behind.
- `Estimator`: the radar controller's finite-difference estimator.
  `Estimator.Observe` is the differencing step of `process_contact`: it turns
  a position into velocity, acceleration and jerk by differencing first and
  storing afterwards. `Estimator.Predict` is the one-tick-ahead prediction
  that follows it. Its lemmas cover the first-contact spike and the exact
  tracking of a constant-velocity target.
- `Radar`, `Deflect` and `Lead`: one `class Ship` per controller. The class
  has the struct's fields, and its methods update them in the same order as
  the source. Each method's postcondition ties the new fields and the emitted
  `Command` to the pure definitions above.
  - `Radar.Engage` is the aiming part of `process_contact`.
    `Radar.FiringQuadratic` is the polynomial that part solves.
  - `Deflect.PredictTimeOfFlight` models deflect's `predict_time_of_flight`.
    `Deflect.Engage` is the aiming part of its `tick`.
  - `Lead.FlightTime` models `flight_time`. `Lead.Engage` is the aiming part
    of lead's `tick`.

Game readings (`position()`, `velocity()`, `heading()`, `target()`,
`target_velocity()`, `scan()`) are method parameters. Commands (`torque`,
`fire`, `accelerate`, `set_radar_heading`, `set_radar_width`) are returned in
a `Command` value.

Points where the code's behaviour matters for what is proved:

- **Root choice.** The code takes `plus` whenever it is positive. For a
  target faster than the bullet (`a > 0`) that is the later of two
  intercepts, not the earliest (`Ballistics.FastTargetPicksLaterRoot`).
- **First contact.** The radar estimator differences against the all-zero
  initial state. So the first contact `p` gives velocity, acceleration and
  jerk all equal to `p`: a spike, not zero derivatives
  (`Estimator.FirstContactSpike`).
- **Derivative term.** The servo multiplies the change of error by
  `TICK_LENGTH` (`Servo.PdTorque`), so the derivative term is 1/3600 of the
  per-second rate of change times `k_d`.
- **No guards.** The code divides by `2a` without checking `a == 0`, and
  does not test the square root for NaN. A negative discriminant still
  yields 0, because both comparisons with NaN are false; the model keeps
  that. The `a == 0` case is excluded by precondition (see below).
- **Radar: servo memory on lost contact.** The radar code calls `pid` only
  when a contact is processed, so `prev_angle_diff` keeps its value on ticks
  without a contact (`Radar.Ship.Tick`).
- **Radar: mixed units in the solver.** The radar controller passes
  `pred_target_vel − velocity()` to the solver. The first term is a per-tick
  displacement and the second a per-second velocity. The model passes the
  same value (`Radar.FiringQuadratic`).
- **Deflect: solver ignores its argument.** `predict_time_of_flight` does not
  read its `t_vel` argument (`Deflect.FlightTimeIgnoresArgument`).
- **Deflect: stored acceleration never written.** `prev_target_accel` is never
  assigned after `new`. It stays zero (`Deflect.Ship.Valid`, required and
  kept by `Deflect.Ship.Tick`), so the jerk term is always
  `−d_vel · TICK_LENGTH` and the prediction is `d_vel · (1 − TICK_LENGTH)`
  (`Deflect.PredictionFromRest`).

## Model

| member | source | states |
|---|---|---|
| Ballistics.SelectRootRule | tutorial_radar.rs:67-74 | the selected time is never negative, is `plus`, `minus` or 0, is positive exactly when `plus` or `minus` is, and is `plus` whenever `plus > 0` |
| Ballistics.TimeOfFlightRange | tutorial_radar.rs:61-74 | the flight time is never negative, and a negative discriminant (NaN root) gives 0 |
| Ballistics.CoefficientsDescribeMiss | tutorial_radar.rs:50-59 | the quadratic at time `t` is the squared distance to the moving target minus the squared bullet travel, i.e. the coefficients encode `|dist + dv t|² = (BULLET_SPEED t)²` |
| Ballistics.FormulaSolves | tutorial_radar.rs:61-64 | `(−b + s) / 2a` is a zero of the quadratic for any `s` with `s² = b² − 4ac` |
| Ballistics.RootsSolve | tutorial_radar.rs:61-65 | with a true square root, `plus` and `minus` are both zeros |
| Ballistics.Factor | tutorial_radar.rs:64-65 | the quadratic factors as `a (u − plus)(u − minus)` |
| Ballistics.NoZeroWhenDiscriminantNegative | tutorial_radar.rs:61-62 | a negative discriminant means the quadratic has no zero at all |
| Ballistics.TimeOfFlightIsIntercept | tutorial_radar.rs:47-75 | a positive flight time is an intercept: `|dist + dv t|² = (BULLET_SPEED t)²` |
| Ballistics.InterceptWhenRooted | tutorial_radar.rs:61-74 | the same, requiring a true square root only when the discriminant is non-negative |
| Ballistics.ZeroMeansNoIntercept | tutorial_radar.rs:67-74 | a flight time of 0 means no positive time is an intercept |
| Ballistics.NoLaterZero | tutorial_radar.rs:67-72 | if neither `plus` nor `minus` is positive, the quadratic has no positive zero |
| Ballistics.OppositeSigns | tutorial_radar.rs:64-65 | for `a < 0 < c`, `plus < 0 < minus` |
| Ballistics.OnlyZeroAfterPlus | tutorial_radar.rs:64-65 | a zero later than `plus` is `minus` |
| Ballistics.SlowTargetSingleIntercept | tutorial_lead.rs:50-77 | a target slower than the bullet and not at the shooter gives `a < 0`, `plus < 0`, and the solver returns `minus > 0` ("one zero will be positive") |
| Ballistics.SlowTargetUniqueIntercept | tutorial_lead.rs:50-51 | for such a target every positive intercept time equals the returned flight time |
| Ballistics.FastTargetPicksLaterRoot | tutorial_radar.rs:67-72 | for a target faster than the bullet with two future intercepts, `plus ≥ minus` and the solver returns `plus`, the later one |
| Ballistics.PlusNotBelowMinus | tutorial_radar.rs:64-65 | for `a > 0`, `plus ≥ minus` |
| Ballistics.CrossingFlightTime | tutorial_lead.rs:44-48 | for a slow target moving square to the line of sight, the flight time is positive and `t² (BULLET_SPEED² − |dv|²) = |dist|²` |
| Servo.NoBias | tutorial_lead.rs:86-91 | negating the error and the remembered error negates the torque |
| Servo.SteadyErrorIsProportional | tutorial_radar.rs:81-84 | an unchanged error meets only the proportional term |
| Servo.TorqueOpposesGrowingError | tutorial_radar.rs:77-85 | with `k_p > 0`, a positive error that is not shrinking gives positive torque, and a negative one negative torque |
| Aim.ZeroFlightTimeAimsAtTarget | tutorial_radar.rs:119-123 | with flight time 0 both the lead point and the corrected point are the target itself |
| Aim.LeadInShipFrame | tutorial_lead.rs:102-106 | the lead point seen from the ship is the lead point of the relative position |
| Estimator.ObserveInverts | tutorial_radar.rs:89-98 | the stored position is the contact, and each new difference added to the stored value it came from gives the new value |
| Estimator.PredictionIsSecondOrder | tutorial_radar.rs:108-115 | the predicted velocity is `vel + accel·dt + jerk·dt²` |
| Estimator.FirstContactSpike | tutorial_radar.rs:89-92 | from the all-zero start, a first contact `p` gives velocity, acceleration and jerk all equal to `p` |
| Estimator.ConstantVelocityTracked | tutorial_radar.rs:89-98 | for contacts advancing by a constant `v` per tick, velocity is `v` from the 2nd contact, acceleration is 0 from the 3rd and jerk is 0 from the 4th, whatever the earlier history |
| Estimator.SettledPrediction | tutorial_radar.rs:108-115 | with zero acceleration and jerk the prediction is the velocity itself and no acceleration |
| Radar.NoInterceptAimsAtContact | tutorial_radar.rs:117-127 | with no intercept the ship aims at the contact's bearing |
| Radar.EngageFlightTimeIsIntercept | tutorial_radar.rs:117 | a positive flight time is an intercept for the relative position and velocity the code passes |
| Radar.Ship.constructor | tutorial_radar.rs:31-45 | not tracking, radar heading 0, every memory zero |
| Radar.Ship.Pid | tutorial_radar.rs:77-85 | torque is `PdTorque(60, angle, old prev_angle_diff)` and the error is remembered |
| Radar.Ship.Difference | tutorial_radar.rs:89-98 | the stored history becomes `Observe(old history, contact)`, and the relative velocity is stored beside it |
| Radar.Ship.Extrapolate | tutorial_radar.rs:108-115 | the stored prediction is `Predict` of the stored history |
| Radar.Ship.Steer | tutorial_radar.rs:117-139 | the new bearing is remembered, the servo error is the heading error plus `(bearing − old bearing)·TICK_LENGTH`, the torque is the PD law (`k_p = 60`) on it, and fire iff `|error| < 0.075` |
| Radar.Ship.ProcessContact | tutorial_radar.rs:87-141 | differencing, prediction and aiming in that order: history, prediction and servo fields as above, aimed with the new prediction |
| Radar.Ship.ScanMode | tutorial_radar.rs:143-146 | radar heading turns by −π/2 and the beam is π/2 wide |
| Radar.Ship.TrackMode | tutorial_radar.rs:148-153 | radar heading points at the last contact and the beam is π/20 wide |
| Radar.Ship.Tick | tutorial_radar.rs:155-180 | `tracking` iff there is a contact. With a contact: history `Observe(old history, contact)`, prediction `Predict` of it, the relative velocity stored, the beam on the contact, and bearing, servo fields, torque (`k_p = 60`) and fire as `Aimed` states for the new prediction. Without one: estimator, prediction and servo unchanged, the radar sweeps on, no torque and no fire |
| Deflect.FlightTimeIgnoresArgument | tutorial_deflect.rs:31-36 | the flight time is the same whatever velocity argument is passed |
| Deflect.FlightTimeRange | tutorial_deflect.rs:48-60 | the flight time is never negative and is 0 for a negative discriminant |
| Deflect.LeadIsIntercept | tutorial_deflect.rs:97-102 | a positive flight time puts the uncorrected lead point at bullet range from the ship |
| Deflect.NoInterceptAimsAtTarget | tutorial_deflect.rs:102-113 | with no intercept the ship aims at the target whatever acceleration is predicted |
| Deflect.PredictionFromRest | tutorial_deflect.rs:87-94 | with the stored acceleration zero, `jerk = −d_vel·TICK_LENGTH` and the prediction is `d_vel·(1 − TICK_LENGTH)` |
| Deflect.Ship.constructor | tutorial_deflect.rs:21-29 | every memory zero |
| Deflect.Ship.Pid | tutorial_deflect.rs:63-71 | torque is `PdTorque(50, angle, old prev_angle_diff)` and the error is remembered |
| Deflect.Ship.Estimate | tutorial_deflect.rs:83-94 | `d_vel` is taken against the old stored velocity, which is then replaced; the error uses the old prediction; with the stored acceleration zero the prediction becomes `d_vel·(1 − TICK_LENGTH)` |
| Deflect.Ship.Steer | tutorial_deflect.rs:97-126 | bearing, servo error, PD torque (`k_p = 50`) and fire iff `|error| < 0.015`, aimed with the new prediction |
| Deflect.Ship.Tick | tutorial_deflect.rs:73-128 | keeps the stored acceleration zero; requests `target_velocity − velocity` then `(target − position)/25`; stores the relative velocity, predicts `d_vel·(1 − TICK_LENGTH)`, reports `d_vel −` old prediction; a target whose relative velocity did not change is predicted not to accelerate and the error is the old prediction reversed; servo fields and commands as `Aimed` states with `k_p = 50`, threshold `0.015` and the new prediction |
| Lead.FlightTimeRange | tutorial_lead.rs:67-79 | the flight time is never negative and is 0 for a negative discriminant |
| Lead.FlightTimeSolvesDerivation | tutorial_lead.rs:44-48 | a positive flight time solves `t² BULLET_SPEED² = (x + h t)² + (y + v t)²` |
| Lead.SlowTargetIsLed | tutorial_lead.rs:50-77 | a target slower than the bullet and not at the ship gets a positive flight time equal to `minus`, and no other positive time is an intercept |
| Lead.StationaryTargetOneSecondAway | tutorial_lead.rs:53-79 | a stationary target at (1000, 0) seen from the origin gives flight time 1, and the ship aims at the target itself |
| Lead.CrossingTargetIsLedAhead | tutorial_lead.rs:99-102 | a target abeam crossing slower than the bullet gets a positive flight time with `t² (BULLET_SPEED² − h²) = y²`, an aim point ahead of it, and `t < 2` when `y² < 4 (BULLET_SPEED² − h²)` (1000 m at 500 m/s) |
| Lead.AimPointIsIntercept | tutorial_lead.rs:99-106 | a positive flight time puts the aim point at bullet range from the ship |
| Lead.NoInterceptAimsAtTarget | tutorial_lead.rs:102-106 | with no intercept the ship aims at the target's bearing |
| Lead.Ship.constructor | tutorial_lead.rs:24-28 | remembered error zero |
| Lead.Ship.Pid | tutorial_lead.rs:82-92 | torque is `PdTorque(50, angle, old prev_angle)` and the error is remembered |
| Lead.Ship.Tick | tutorial_lead.rs:94-118 | aims at `target + target_velocity·t`; the remembered error, the PD torque and fire iff `|error| < 0.025` follow from that aim |

## Left out

- Floating point: all arithmetic is over `real`, so rounding, overflow,
  infinities and NaN are not modelled. The one NaN consequence the code relies
  on is kept: a negative discriminant makes both comparisons false and yields 0.
- The `a == 0` case (relative speed exactly equal to bullet speed): the code
  divides by zero there. The preconditions below exclude it.
- Radar.Ship.ProcessContact: requires `a != 0` for the contact's quadratic, a
  case the code does not guard.
- Radar.Ship.Tick: requires `a != 0` when a contact is present, for the same
  reason.
- Radar.Ship.Steer: requires `a != 0`, for the same reason.
- Deflect.Ship.Tick: requires `a != 0`, for the same reason.
- Deflect.Ship.Steer: requires `a != 0`, for the same reason.
- Lead.Ship.Tick: requires `a != 0`, for the same reason.
- Deflect.Ship.Estimate: requires the stored acceleration to be zero
  (`Valid`) and gives the new prediction for that case only. The code never
  writes that field after `new`, so no state the ship can reach is excluded.
  `Deflect.Ship.Tick` requires and keeps the same invariant.
- `sqrt`, `Vec2::angle` and `angle_diff` are library calls whose code is not
  part of this model. They are uninterpreted `Library` inputs. The ballistic
  lemmas assume `sqrt` returns a true square root of a non-negative
  discriminant.
- Game I/O is not modelled. Sensor readings are parameters and commands are
  returned values. What the game does with two `accelerate` calls in one tick
  is not modelled.
- Diagnostics (`debug!`, `draw_line`) have no effect on state and are left
  out. This includes the `Error %` ratio in `tutorial_deflect.rs`. Only the
  error vector itself is reported, in `Command.accelError`.
- Closed-loop behaviour is left out. Whether the ship actually hits or
  converges depends on the game's physics engine.
