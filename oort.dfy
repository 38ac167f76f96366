/** What the controllers take from the game's API (`oort_api::prelude`).
    The simulation, the radar model and the numeric library are not part of
    this model: each tick's readings are parameters of the methods, and the
    library's numeric functions are the uninterpreted inputs below. */
module Oort {
  import opened Geometry

  /** Length of one simulation tick in seconds (the game runs at 60 ticks
      per second). */
  const TICK_LENGTH: real := 1.0 / 60.0

  /** `std::f64::consts::PI`, written out to the precision of an f64. */
  const PI: real := 3.141592653589793

  /** The numeric library functions the controllers call: `f64::sqrt`,
      `Vec2::angle` and `angle_diff`. They are inputs, not definitions. */
  datatype Library = Library(
    sqrt: real -> real,
    angle: Vec2 -> real,
    angleDiff: (real, real) -> real)

  /** A value that may be absent, as Rust's `Option`. */
  datatype Option<T> = None | Some(value: T)

  /** `r` is what a correct square root returns for `d`. */
  predicate IsSqrt(r: real, d: real) {
    r >= 0.0 && r * r == d
  }
}
