/** Three-component vectors and Euclidean distance, as used through three.js
    `Vector3` in main.js. Distances are compared without taking a square root:
    `DistLess(p, q, s)` holds exactly when |p - q| < s. */
module Vectors {

  datatype Vec3 = Vec3(x: real, y: real, z: real)

  const Zero: Vec3 := Vec3(0.0, 0.0, 0.0)

  function Add(a: Vec3, b: Vec3): Vec3
  {
    Vec3(a.x + b.x, a.y + b.y, a.z + b.z)
  }

  function Sub(a: Vec3, b: Vec3): Vec3
  {
    Vec3(a.x - b.x, a.y - b.y, a.z - b.z)
  }

  function Square(a: real): (s: real)
    ensures s >= 0.0
  {
    a * a
  }

  /** The squared Euclidean distance between two points. */
  function DistSq(p: Vec3, q: Vec3): (d: real)
    ensures d >= 0.0
  {
    Square(p.x - q.x) + Square(p.y - q.y) + Square(p.z - q.z)
  }

  /** |p - q| < s. For s <= 0 this is false (a distance is never negative);
      for s > 0 it is equivalent to comparing squares. */
  predicate DistLess(p: Vec3, q: Vec3, s: real)
  {
    0.0 < s && DistSq(p, q) < s * s
  }

  lemma SquareOfDifference(a: real, b: real)
    ensures Square(a - b) == Square(b - a)
  {
    assert b - a == -(a - b);
  }

  /** Distance does not depend on the order of its arguments. */
  lemma DistLessSymmetric(p: Vec3, q: Vec3, s: real)
    ensures DistLess(p, q, s) <==> DistLess(q, p, s)
  {
    SquareOfDifference(p.x, q.x);
    SquareOfDifference(p.y, q.y);
    SquareOfDifference(p.z, q.z);
  }

  lemma SquareMonotone(a: real, b: real)
    requires 0.0 < b <= a
    ensures b * b <= a * a
  {
    assert a * a - b * b == (a - b) * (a + b);
    assert (a - b) * (a + b) >= 0.0;
  }

  /** A point closer than s is closer than any larger bound. */
  lemma DistLessMonotone(p: Vec3, q: Vec3, b: real, a: real)
    requires b <= a
    ensures DistLess(p, q, b) ==> DistLess(p, q, a)
  {
    if DistLess(p, q, b) {
      SquareMonotone(a, b);
    }
  }
}
