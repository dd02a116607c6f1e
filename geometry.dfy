/**
 * Points in the three-dimensional scene, the step an entity takes toward a
 * point, and the heading normalisation of the enemy stepper.  The vector
 * maths the game borrows from the rendering library (square-root distance,
 * atan2 headings, turret-relative points) is not computed here: callers pass
 * it in as a `Maths` record.
 */
module Geometry {

  datatype Vec3 = Vec3(x: real, y: real, z: real)
  {
    function Plus(o: Vec3): Vec3 { Vec3(x + o.x, y + o.y, z + o.z) }
    function Minus(o: Vec3): Vec3 { Vec3(x - o.x, y - o.y, z - o.z) }
    function Scale(k: real): Vec3 { Vec3(k * x, k * y, k * z) }
  }

  /**
   * The rendering library's vector maths, as seen by the simulation:
   * `dist(a, b)` is `a.distanceTo(b)`, `bearing(a, b)` is
   * `atan2(d.x, d.z)` for the unit direction `d` from `a` to `b`, and
   * `muzzle(t, p)` is the world point of a turret at `t` once it looks at `p`.
   */
  datatype Maths = Maths(
    dist: (Vec3, Vec3) -> real,
    bearing: (Vec3, Vec3) -> real,
    muzzle: (Vec3, Vec3) -> Vec3)

  /**
   * `from` moved by `step` along the unit direction toward `to`, where `d` is
   * the distance between the two; a zero-length direction normalises to the
   * zero vector, so then nothing moves.
   */
  function Toward(from: Vec3, to: Vec3, step: real, d: real): Vec3
  {
    if d > 0.0 then from.Plus(to.Minus(from).Scale(step / d)) else from
  }

  /** A step of exactly the remaining distance lands on the target point. */
  lemma TowardFullStep(from: Vec3, to: Vec3, d: real)
    requires d > 0.0
    ensures Toward(from, to, d, d) == to
  {
  }

  /** Math.PI. */
  const PI: real := 3.141592653589793
  const TAU: real := 6.283185307179586

  /** The first normalisation loop: add a full turn while below -PI. */
  function WrapUp(a: real): (r: real)
    ensures r >= -PI
    ensures a >= -PI ==> r == a
    ensures a < -PI ==> r < PI
    decreases if a < -PI then (-a).Floor else 0
  {
    if a < -PI then WrapUp(a + TAU) else a
  }

  /** The second normalisation loop: subtract a full turn while above PI. */
  function WrapDown(a: real): (r: real)
    ensures r <= PI
    ensures a <= PI ==> r == a
    ensures a > PI ==> r > -PI
    decreases if a > PI then a.Floor else 0
  {
    if a > PI then WrapDown(a - TAU) else a
  }

  /** The angle difference after both normalisation loops. */
  function Wrap(a: real): (r: real)
    ensures -PI <= r <= PI
    ensures -PI <= a <= PI ==> r == a
  {
    WrapDown(WrapUp(a))
  }

  /** Normalisation adds a whole number of turns: `k` of them. */
  lemma {:induction false} WrapUpTurns(a: real) returns (k: nat)
    ensures WrapUp(a) == a + (k as real) * TAU
    decreases if a < -PI then (-a).Floor else 0
  {
    if a < -PI {
      var j := WrapUpTurns(a + TAU);
      k := j + 1;
    } else {
      k := 0;
    }
  }

  lemma {:induction false} WrapDownTurns(a: real) returns (k: nat)
    ensures WrapDown(a) == a - (k as real) * TAU
    decreases if a > PI then a.Floor else 0
  {
    if a > PI {
      var j := WrapDownTurns(a - TAU);
      k := j + 1;
    } else {
      k := 0;
    }
  }

  /** The normalised difference denotes the same direction: it differs by whole turns. */
  lemma WrapSameDirection(a: real) returns (k: int)
    ensures Wrap(a) == a + (k as real) * TAU
  {
    var up := WrapUpTurns(a);
    var down := WrapDownTurns(WrapUp(a));
    k := (up as int) - (down as int);
  }

  /**
   * The two `while` loops that bring an angle difference into [-PI, PI]
   * before the enemy turns toward its next waypoint.
   */
  method NormalizeAngle(a: real) returns (r: real)
    ensures -PI <= r <= PI
    ensures r == Wrap(a)
  {
    r := a;
    while r < -PI
      invariant WrapUp(r) == WrapUp(a)
      decreases (-r).Floor
    {
      r := r + TAU;
    }
    while r > PI
      invariant WrapDown(r) == WrapDown(WrapUp(a))
      decreases r.Floor
    {
      r := r - TAU;
    }
  }
}
