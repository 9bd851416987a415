/**
 * Unity's Vector2 and Vector3 value types, as far as the locomotion core uses
 * them. Components are `real`: this idealises the engine's 32-bit `float`
 * (no rounding, no overflow, no NaN).
 */
module Vectors {

  datatype Vec2 = Vec2(x: real, y: real)

  datatype Vec3 = Vec3(x: real, y: real, z: real)

  const Zero2: Vec2 := Vec2(0.0, 0.0)

  /** The engine's `kEpsilon` for vectors (1e-5): the tolerance of `==`
      between Vector2 values and the length below which `normalized`
      yields the zero vector. */
  const Epsilon: real := 0.00001

  function Abs(x: real): (r: real)
    ensures r >= 0.0 && (r == x || r == -x)
  {
    if x < 0.0 then -x else x
  }

  function SqrMagnitude(v: Vec2): (r: real)
    ensures r >= 0.0
  {
    v.x * v.x + v.y * v.y
  }

  /** Vector2 equality as the engine defines it: the two vectors are closer
      than Epsilon (compared on squared lengths, so no square root). */
  predicate ApproxEqual(a: Vec2, b: Vec2)
  {
    SqrMagnitude(Vec2(a.x - b.x, a.y - b.y)) < Epsilon * Epsilon
  }

  /** Equal vectors compare equal, and a vector with a component of at least
      Epsilon never compares equal to zero; very short vectors do. */
  lemma ApproxEqualZero(v: Vec2)
    ensures ApproxEqual(v, v)
    ensures Abs(v.x) >= Epsilon || Abs(v.y) >= Epsilon ==> !ApproxEqual(v, Zero2)
    ensures Abs(v.x) < Epsilon / 2.0 && Abs(v.y) < Epsilon / 2.0 ==> ApproxEqual(v, Zero2)
  {
    var ax, ay := Abs(v.x), Abs(v.y);
    var sq := SqrMagnitude(Vec2(v.x - Zero2.x, v.y - Zero2.y));
    assert sq == ax * ax + ay * ay;
    if ax >= Epsilon {
      SquaresOrdered(ax, Epsilon);
    }
    if ay >= Epsilon {
      SquaresOrdered(ay, Epsilon);
    }
    if ax < Epsilon / 2.0 && ay < Epsilon / 2.0 {
      SquaresOrdered(Epsilon / 2.0, ax);
      SquaresOrdered(Epsilon / 2.0, ay);
    }
  }

  lemma PositiveProduct(p: real, q: real)
    requires p > 0.0 && q > 0.0
    ensures p * q > 0.0
  {
  }

  /** For non-negative reals, comparing squares is comparing the values:
      the engine compares squared lengths where the source compares lengths. */
  lemma SquaresOrdered(a: real, b: real)
    requires a >= 0.0 && b >= 0.0
    ensures a * a > b * b <==> a > b
  {
    if a > b {
      assert a * a - b * b == (a - b) * (a + b);
      PositiveProduct(a - b, a + b);
    } else if a < b {
      assert b * b - a * a == (b - a) * (b + a);
      PositiveProduct(b - a, b + a);
    }
  }
}
