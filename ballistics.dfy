/** The ballistic intercept solver shared by the three controllers: the
    quadratic whose positive root is the time a bullet needs to meet a target
    moving at constant velocity, and the fixed rule that picks one root. */
module Ballistics {
  import opened Geometry
  import opened Oort
  import opened Aim
  import opened Reals

  /** Muzzle speed of the ship's gun, in metres per second. */
  const BULLET_SPEED: real := 1000.0

  /** `a t² + b t + c` */
  datatype Quadratic = Quadratic(a: real, b: real, c: real)

  function Eval(q: Quadratic, t: real): real {
    q.a * t * t + q.b * t + q.c
  }

  function Discriminant(q: Quadratic): real {
    q.b * q.b - 4.0 * q.a * q.c
  }

  /** The quadratic for a target at `dist` moving at `dv`, both relative to
      the shooter: `a = |dv|² − BULLET_SPEED²`, `b = 2 (dv · dist)`,
      `c = |dist|²`. */
  function Coefficients(dist: Vec2, dv: Vec2): Quadratic {
    Quadratic(dv.x * dv.x + dv.y * dv.y - BULLET_SPEED * BULLET_SPEED,
              2.0 * (dv.x * dist.x + dv.y * dist.y),
              dist.y * dist.y + dist.x * dist.x)
  }

  /** The `plus` root of the quadratic formula, for a square root `root` of
      the discriminant. */
  function Plus(q: Quadratic, root: real): real
    requires q.a != 0.0
  {
    (-q.b + root) / (2.0 * q.a)
  }

  /** The `minus` root of the quadratic formula. */
  function Minus(q: Quadratic, root: real): real
    requires q.a != 0.0
  {
    (-q.b - root) / (2.0 * q.a)
  }

  /** The root-selection rule: `plus` if it lies in the future, otherwise
      `minus` if it does, otherwise 0. */
  function SelectRoot(plus: real, minus: real): real {
    if plus > 0.0 then plus
    else if minus > 0.0 then minus
    else 0.0
  }

  /** The selected value is never negative, is one of the two values or 0,
      is positive exactly when one of them is, and prefers `plus`. */
  lemma SelectRootRule(plus: real, minus: real)
    ensures SelectRoot(plus, minus) >= 0.0
    ensures var t := SelectRoot(plus, minus); t == 0.0 || t == plus || t == minus
    ensures SelectRoot(plus, minus) > 0.0 <==> plus > 0.0 || minus > 0.0
    ensures plus > 0.0 ==> SelectRoot(plus, minus) == plus
  {
  }

  /** Time of flight of a bullet to a target at `dist` moving at `dv`
      relative to the shooter, where `root` is what the square root of the
      discriminant evaluates to. A negative discriminant makes the square
      root NaN, both comparisons false, and the result 0. */
  function TimeOfFlight(dist: Vec2, dv: Vec2, root: real): real
    requires Coefficients(dist, dv).a != 0.0
  {
    var q := Coefficients(dist, dv);
    if Discriminant(q) < 0.0 then 0.0
    else SelectRoot(Plus(q, root), Minus(q, root))
  }

  /** The time of flight is never negative, and it is 0 whenever the
      discriminant is negative. */
  lemma TimeOfFlightRange(dist: Vec2, dv: Vec2, root: real)
    requires Coefficients(dist, dv).a != 0.0
    ensures TimeOfFlight(dist, dv, root) >= 0.0
    ensures Discriminant(Coefficients(dist, dv)) < 0.0 ==> TimeOfFlight(dist, dv, root) == 0.0
  {
    var q := Coefficients(dist, dv);
    if Discriminant(q) >= 0.0 {
      SelectRootRule(Plus(q, root), Minus(q, root));
    }
  }

  /** The quadratic is the derivation behind the solver: at time `t` it is
      the squared distance from the shooter to the moving target, minus the
      squared distance the bullet covers. */
  lemma CoefficientsDescribeMiss(dist: Vec2, dv: Vec2, t: real)
    ensures Eval(Coefficients(dist, dv), t)
         == Norm2(LeadPoint(dist, dv, t)) - (BULLET_SPEED * t) * (BULLET_SPEED * t)
  {
    EvalCoefficients(dist, dv, t);
    NormOfLead(dist, dv, t);
    SquareOfProduct(BULLET_SPEED, t);
  }

  /** The quadratic at `t`, written out in the components. */
  lemma EvalCoefficients(dist: Vec2, dv: Vec2, t: real)
    ensures Eval(Coefficients(dist, dv), t)
         == (dv.x * dv.x + dv.y * dv.y) * t * t - (BULLET_SPEED * BULLET_SPEED) * t * t
            + 2.0 * (dv.x * dist.x + dv.y * dist.y) * t + (dist.y * dist.y + dist.x * dist.x)
  {
  }

  /** The squared length of the lead point, written out in the components. */
  lemma NormOfLead(dist: Vec2, dv: Vec2, t: real)
    ensures Norm2(LeadPoint(dist, dv, t))
         == (dv.x * dv.x + dv.y * dv.y) * t * t
            + 2.0 * (dv.x * dist.x + dv.y * dist.y) * t + (dist.y * dist.y + dist.x * dist.x)
  {
    var px, py, dx, dy := dist.x, dist.y, dv.x, dv.y;
    assert Norm2(LeadPoint(dist, dv, t)) == (px + dx * t) * (px + dx * t) + (py + dy * t) * (py + dy * t);
    ExpandSquare(px, dx, t);
    ExpandSquare(py, dy, t);
    CollectTerms(px, py, dx, dy, t);
  }

  lemma ExpandSquare(p: real, d: real, t: real)
    ensures (p + d * t) * (p + d * t) == d * d * t * t + 2.0 * d * p * t + p * p
  {
  }

  lemma CollectTerms(px: real, py: real, dx: real, dy: real, t: real)
    ensures (dx * dx * t * t + 2.0 * dx * px * t + px * px) + (dy * dy * t * t + 2.0 * dy * py * t + py * py)
         == (dx * dx + dy * dy) * t * t + 2.0 * (dx * px + dy * py) * t + (py * py + px * px)
  {
  }

  lemma SquareOfProduct(s: real, t: real)
    ensures (s * t) * (s * t) == (s * s) * t * t
  {
  }

  /** The quadratic-formula value for a square root `s` of the discriminant
      is a zero of the quadratic. */
  lemma FormulaSolves(q: Quadratic, s: real)
    requires q.a != 0.0
    requires s * s == Discriminant(q)
    ensures Eval(q, (-q.b + s) / (2.0 * q.a)) == 0.0
  {
    var t := (-q.b + s) / (2.0 * q.a);
    var u := 2.0 * q.a * t;
    assert u == s - q.b;
    calc {
      4.0 * q.a * Eval(q, t);
      u * u + 2.0 * q.b * u + 4.0 * q.a * q.c;
      (s - q.b) * (s - q.b) + 2.0 * q.b * (s - q.b) + 4.0 * q.a * q.c;
      s * s - q.b * q.b + 4.0 * q.a * q.c;
      0.0;
    }
  }

  /** Both values the solver computes are zeros of the quadratic when the
      square root is correct. */
  lemma RootsSolve(q: Quadratic, root: real)
    requires q.a != 0.0
    requires IsSqrt(root, Discriminant(q))
    ensures Eval(q, Plus(q, root)) == 0.0
    ensures Eval(q, Minus(q, root)) == 0.0
  {
    FormulaSolves(q, root);
    FormulaSolves(q, -root);
    assert Minus(q, root) == (-q.b + -root) / (2.0 * q.a);
  }

  /** With a correct square root, the quadratic factors through the two
      values the solver computes. */
  lemma Factor(q: Quadratic, root: real, u: real)
    requires q.a != 0.0
    requires root * root == Discriminant(q)
    ensures Eval(q, u) == q.a * (u - Plus(q, root)) * (u - Minus(q, root))
  {
    var p, m := Plus(q, root), Minus(q, root);
    DivMul(-q.b + root, 2.0 * q.a);
    DivMul(-q.b - root, 2.0 * q.a);
    assert p * (2.0 * q.a) == -q.b + root;
    assert m * (2.0 * q.a) == -q.b - root;
    assert q.a * (p + m) == -q.b;
    assert (p * (2.0 * q.a)) * (m * (2.0 * q.a)) == 4.0 * q.a * q.c;
    assert q.a * (4.0 * q.a * (p * m)) == q.a * (4.0 * q.c);
    CancelNonZero(q.a, 4.0 * q.a * (p * m), 4.0 * q.c);
    assert q.a * (p * m) == q.c;
    calc {
      q.a * (u - p) * (u - m);
      q.a * u * u - (q.a * (p + m)) * u + q.a * (p * m);
      q.a * u * u + q.b * u + q.c;
    }
  }

  /** With a negative discriminant the quadratic has no real zero. */
  lemma NoZeroWhenDiscriminantNegative(q: Quadratic, u: real)
    requires q.a != 0.0
    requires Discriminant(q) < 0.0
    ensures Eval(q, u) != 0.0
  {
    var w := 2.0 * q.a * u + q.b;
    SquareNonNegative(w);
    calc {
      4.0 * q.a * Eval(q, u);
    ==
      w * w - Discriminant(q);
    >
      0.0;
    }
  }

  /** A positive time of flight is a genuine intercept: after that time the
      target is exactly as far from the shooter as the bullet has flown,
      `t² · BULLET_SPEED² = |dist + dv · t|²`. */
  lemma TimeOfFlightIsIntercept(dist: Vec2, dv: Vec2, root: real)
    requires Coefficients(dist, dv).a != 0.0
    requires IsSqrt(root, Discriminant(Coefficients(dist, dv)))
    ensures var t := TimeOfFlight(dist, dv, root);
      t > 0.0 ==> Norm2(LeadPoint(dist, dv, t)) == (BULLET_SPEED * t) * (BULLET_SPEED * t)
  {
    var q := Coefficients(dist, dv);
    var t := TimeOfFlight(dist, dv, root);
    if t > 0.0 {
      RootsSolve(q, root);
      assert Eval(q, t) == 0.0;
      CoefficientsDescribeMiss(dist, dv, t);
    }
  }

  /** The same, for a square root the game's library computes: only a
      non-negative discriminant is required to have a true root. */
  lemma InterceptWhenRooted(dist: Vec2, dv: Vec2, root: real)
    requires Coefficients(dist, dv).a != 0.0
    requires Discriminant(Coefficients(dist, dv)) >= 0.0 ==> IsSqrt(root, Discriminant(Coefficients(dist, dv)))
    ensures var t := TimeOfFlight(dist, dv, root);
      t > 0.0 ==> Norm2(LeadPoint(dist, dv, t)) == (BULLET_SPEED * t) * (BULLET_SPEED * t)
  {
    if Discriminant(Coefficients(dist, dv)) >= 0.0 {
      TimeOfFlightIsIntercept(dist, dv, root);
    }
  }

  /** A time of flight of 0 means there is no future intercept at all: no
      positive time puts the target at bullet range. */
  lemma ZeroMeansNoIntercept(dist: Vec2, dv: Vec2, root: real, u: real)
    requires Coefficients(dist, dv).a != 0.0
    requires Discriminant(Coefficients(dist, dv)) >= 0.0 ==> IsSqrt(root, Discriminant(Coefficients(dist, dv)))
    requires TimeOfFlight(dist, dv, root) == 0.0
    requires u > 0.0
    ensures Norm2(LeadPoint(dist, dv, u)) != (BULLET_SPEED * u) * (BULLET_SPEED * u)
  {
    var q := Coefficients(dist, dv);
    CoefficientsDescribeMiss(dist, dv, u);
    if Discriminant(q) < 0.0 {
      NoZeroWhenDiscriminantNegative(q, u);
    } else {
      NoLaterZero(q, root, u);
    }
  }

  /** When neither value the solver computes is positive, the quadratic has
      no positive zero. */
  lemma NoLaterZero(q: Quadratic, root: real, u: real)
    requires q.a != 0.0
    requires root * root == Discriminant(q)
    requires Plus(q, root) <= 0.0 && Minus(q, root) <= 0.0
    requires u > 0.0
    ensures Eval(q, u) != 0.0
  {
    Factor(q, root, u);
    ProductNonZero(q.a, u - Plus(q, root), u - Minus(q, root));
  }

  /** `a` compares the relative speed with the bullet's; `c` is the squared
      range. */
  lemma CoefficientsInTermsOfLengths(dist: Vec2, dv: Vec2)
    ensures Coefficients(dist, dv).a == Norm2(dv) - BULLET_SPEED * BULLET_SPEED
    ensures Coefficients(dist, dv).c == Norm2(dist)
  {
  }

  /** For `a < 0 < c` the two values have opposite signs: `plus` is
      negative and `minus` positive. */
  lemma OppositeSigns(q: Quadratic, root: real)
    requires q.a < 0.0 < q.c
    requires IsSqrt(root, Discriminant(q))
    ensures Plus(q, root) < 0.0 < Minus(q, root)
  {
    MulNegative(q.a, q.c);
    assert root * root > q.b * q.b;
    RootDominates(root, q.b);
    DivByNegative(-q.b + root, 2.0 * q.a);
    DivByNegative(-q.b - root, 2.0 * q.a);
  }

  /** A zero of the quadratic later than `plus` is `minus`. */
  lemma OnlyZeroAfterPlus(q: Quadratic, root: real, u: real)
    requires q.a != 0.0
    requires root * root == Discriminant(q)
    requires u > Plus(q, root)
    requires Eval(q, u) == 0.0
    ensures u == Minus(q, root)
  {
    Factor(q, root, u);
    ProductZero(q.a, u - Plus(q, root), u - Minus(q, root));
  }

  /** A target slower than the bullet (`a < 0`) and not at the shooter's
      position (`c > 0`) has exactly one intercept in the future: the
      `minus` value, which is what the solver returns; `plus` lies in the
      past. */
  lemma SlowTargetSingleIntercept(dist: Vec2, dv: Vec2, root: real)
    requires Norm2(dv) < BULLET_SPEED * BULLET_SPEED
    requires dist != ZERO
    requires IsSqrt(root, Discriminant(Coefficients(dist, dv)))
    ensures Coefficients(dist, dv).a < 0.0
    ensures Plus(Coefficients(dist, dv), root) < 0.0
    ensures TimeOfFlight(dist, dv, root) == Minus(Coefficients(dist, dv), root) > 0.0
  {
    CoefficientsInTermsOfLengths(dist, dv);
    Norm2Positive(dist);
    OppositeSigns(Coefficients(dist, dv), root);
  }

  /** ... and no other positive time is an intercept. */
  lemma SlowTargetUniqueIntercept(dist: Vec2, dv: Vec2, root: real, u: real)
    requires Norm2(dv) < BULLET_SPEED * BULLET_SPEED
    requires dist != ZERO
    requires IsSqrt(root, Discriminant(Coefficients(dist, dv)))
    requires u > 0.0
    requires Norm2(LeadPoint(dist, dv, u)) == (BULLET_SPEED * u) * (BULLET_SPEED * u)
    ensures Coefficients(dist, dv).a != 0.0 && u == TimeOfFlight(dist, dv, root)
  {
    var q := Coefficients(dist, dv);
    SlowTargetSingleIntercept(dist, dv, root);
    CoefficientsDescribeMiss(dist, dv, u);
    OnlyZeroAfterPlus(q, root, u);
  }

  /** A target slower than the bullet and moving square to the line of
      sight (`dv · dist = 0`) is met after the time `t` with
      `t² (BULLET_SPEED² − |dv|²) = |dist|²`. */
  lemma CrossingFlightTime(dist: Vec2, dv: Vec2, root: real)
    requires Norm2(dv) < BULLET_SPEED * BULLET_SPEED
    requires dist != ZERO
    requires Dot(dv, dist) == 0.0
    requires IsSqrt(root, Discriminant(Coefficients(dist, dv)))
    ensures Coefficients(dist, dv).a != 0.0
    ensures var t := TimeOfFlight(dist, dv, root);
            t > 0.0 && t * t * (BULLET_SPEED * BULLET_SPEED - Norm2(dv)) == Norm2(dist)
  {
    SlowTargetSingleIntercept(dist, dv, root);
    var t := TimeOfFlight(dist, dv, root);
    TimeOfFlightIsIntercept(dist, dv, root);
    NormOfLead(dist, dv, t);
    SquareOfProduct(BULLET_SPEED, t);
    Rearrange(Norm2(dv), BULLET_SPEED * BULLET_SPEED, Norm2(dist), t);
  }

  lemma Rearrange(n: real, s: real, d: real, t: real)
    requires n * t * t + d == s * t * t
    ensures t * t * (s - n) == d
  {
  }

  /** A target faster than the bullet (`a > 0`) can have two future
      intercepts; then `plus` is the later one, and the solver returns it
      rather than the earlier `minus`. */
  lemma FastTargetPicksLaterRoot(dist: Vec2, dv: Vec2, root: real)
    requires Norm2(dv) > BULLET_SPEED * BULLET_SPEED
    requires IsSqrt(root, Discriminant(Coefficients(dist, dv)))
    requires Minus(Coefficients(dist, dv), root) > 0.0
    ensures Plus(Coefficients(dist, dv), root) >= Minus(Coefficients(dist, dv), root)
    ensures TimeOfFlight(dist, dv, root) == Plus(Coefficients(dist, dv), root)
  {
    var q := Coefficients(dist, dv);
    CoefficientsInTermsOfLengths(dist, dv);
    PlusNotBelowMinus(q, root);
  }

  lemma PlusNotBelowMinus(q: Quadratic, root: real)
    requires q.a > 0.0
    requires root >= 0.0
    ensures Plus(q, root) >= Minus(q, root)
  {
    DivMul(-q.b + root, 2.0 * q.a);
    DivMul(-q.b - root, 2.0 * q.a);
    NonNegativeFactor(Plus(q, root) - Minus(q, root), 2.0 * q.a);
  }
}
