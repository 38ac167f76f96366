/** Plane vectors over the reals: the `Vec2` of the game API, with the few
    operations the controllers use (sum, difference, scaling, dot product). */
module Geometry {
  import opened Reals

  datatype Vec2 = Vec2(x: real, y: real)

  const ZERO := Vec2(0.0, 0.0)

  function Add(u: Vec2, v: Vec2): Vec2 {
    Vec2(u.x + v.x, u.y + v.y)
  }

  function Sub(u: Vec2, v: Vec2): Vec2 {
    Vec2(u.x - v.x, u.y - v.y)
  }

  /** `v * k` */
  function Scale(v: Vec2, k: real): Vec2 {
    Vec2(v.x * k, v.y * k)
  }

  /** `v / k` */
  function Div(v: Vec2, k: real): Vec2
    requires k != 0.0
  {
    Vec2(v.x / k, v.y / k)
  }

  function Dot(u: Vec2, v: Vec2): real {
    u.x * v.x + u.y * v.y
  }

  /** Squared length. */
  function Norm2(v: Vec2): real {
    v.x * v.x + v.y * v.y
  }

  function Abs(r: real): real {
    if r < 0.0 then -r else r
  }

  /** A squared length is never negative, and is positive for every vector
      other than the zero vector. */
  lemma Norm2Positive(v: Vec2)
    ensures Norm2(v) >= 0.0
    ensures v != ZERO ==> Norm2(v) > 0.0
  {
    SquareNonNegative(v.x);
    SquareNonNegative(v.y);
    calc {
      Norm2(v);
    ==
      v.x * v.x + v.y * v.y;
    >=
      0.0;
    }
    if v.x != 0.0 {
      calc {
        Norm2(v);
      ==
        v.x * v.x + v.y * v.y;
      >
        0.0;
      }
    } else if v.y != 0.0 {
      calc {
        Norm2(v);
      ==
        v.x * v.x + v.y * v.y;
      >
        0.0;
      }
    }
  }

  /** Subtraction undoes addition: the difference of two samples, added back
      to the earlier one, gives the later one. */
  lemma AddSubCancel(u: Vec2, v: Vec2)
    ensures Add(u, Sub(v, u)) == v
    ensures Sub(Add(u, v), u) == v
  {
  }
}
