/** The radar controller's finite-difference estimator: each contact is
    differenced against the stored previous position, velocity and
    acceleration, and only then stored over them. Differences are per tick;
    nothing divides by the tick length here. */
module Estimator {
  import opened Geometry
  import opened Oort

  /** The estimator's memory: the last contact position and the velocity,
      acceleration and jerk differenced from it. */
  datatype History = History(pos: Vec2, vel: Vec2, accel: Vec2, jerk: Vec2)

  /** The all-zero history a new ship starts with. */
  const INITIAL := History(ZERO, ZERO, ZERO, ZERO)

  /** One contact: difference first, then store. */
  function Observe(h: History, contact: Vec2): History {
    var vel := Sub(contact, h.pos);
    var accel := Sub(vel, h.vel);
    var jerk := Sub(accel, h.accel);
    History(contact, vel, accel, jerk)
  }

  /** Each new difference, added back to the stored value it was taken
      from, gives the new value: the estimator loses nothing. */
  lemma ObserveInverts(h: History, contact: Vec2)
    ensures Observe(h, contact).pos == contact
    ensures Add(h.pos, Observe(h, contact).vel) == contact
    ensures Add(h.vel, Observe(h, contact).accel) == Observe(h, contact).vel
    ensures Add(h.accel, Observe(h, contact).jerk) == Observe(h, contact).accel
  {
    var h' := Observe(h, contact);
    AddSubCancel(h.pos, contact);
    AddSubCancel(h.vel, h'.vel);
    AddSubCancel(h.accel, h'.accel);
  }

  /** The history after a run of contacts, one per tick, oldest first. */
  function ObserveAll(h: History, contacts: seq<Vec2>): History
    decreases |contacts|
  {
    if contacts == [] then h
    else Observe(ObserveAll(h, contacts[..|contacts| - 1]), contacts[|contacts| - 1])
  }

  /** The one-tick-ahead prediction formed from a history. */
  datatype Prediction = Prediction(accel: Vec2, vel: Vec2)

  /** The acceleration one tick on, `accel + jerk · TICK_LENGTH`, and the
      velocity one tick on from it, `vel + that · TICK_LENGTH`. */
  function Predict(h: History): Prediction {
    var accel := Add(h.accel, Scale(h.jerk, TICK_LENGTH));
    Prediction(accel, Add(h.vel, Scale(accel, TICK_LENGTH)))
  }

  /** The velocity prediction is the second-order expansion
      `vel + accel · dt + jerk · dt²` with `dt` one tick. */
  lemma PredictionIsSecondOrder(h: History)
    ensures Predict(h).vel == Add(Add(h.vel, Scale(h.accel, TICK_LENGTH)),
                                  Scale(h.jerk, TICK_LENGTH * TICK_LENGTH))
  {
  }

  /** The first contact after start-up is differenced against zeros: the
      position shows up as velocity, acceleration and jerk alike, a one-tick
      spike rather than zero derivatives. */
  lemma FirstContactSpike(p: Vec2)
    ensures Observe(INITIAL, p) == History(p, p, p, p)
  {
  }

  /** A target moving at constant per-tick displacement `v` is estimated
      exactly: from the second contact on the velocity is `v`, from the
      third the acceleration is zero, from the fourth the jerk is zero,
      whatever the history was before. */
  lemma {:induction false} ConstantVelocityTracked(h: History, contacts: seq<Vec2>, v: Vec2)
    requires |contacts| >= 2
    requires forall i :: 0 <= i < |contacts| - 1 ==> contacts[i + 1] == Add(contacts[i], v)
    ensures ObserveAll(h, contacts).vel == v
    ensures |contacts| >= 3 ==> ObserveAll(h, contacts).accel == ZERO
    ensures |contacts| >= 4 ==> ObserveAll(h, contacts).jerk == ZERO
  {
    var n := |contacts|;
    var front := contacts[..n - 1];
    var before := ObserveAll(h, front);
    assert before.pos == contacts[n - 2];
    AddSubCancel(contacts[n - 2], v);
    if n >= 3 {
      ConstantVelocityTracked(h, front, v);
    }
  }

  /** Once the estimate has settled on a constant velocity, the prediction
      is that velocity and no acceleration. */
  lemma SettledPrediction(h: History)
    requires h.accel == ZERO && h.jerk == ZERO
    ensures Predict(h) == Prediction(ZERO, h.vel)
  {
  }
}
