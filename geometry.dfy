/**
 * Planar vector arithmetic used by the floor-plan model.
 *
 * Every point of the editor lives in the plane z = 0, so a point is kept as
 * its two real coordinates. Floating point is idealised as exact reals.
 * Square roots are never computed: a length is a value `len` together with
 * the fact `IsSqrt(len, s)`, and `SqrtUnique` shows that fact pins it down.
 */
module Geometry {

  datatype Vec2 = Vec2(x: real, y: real)

  const Origin: Vec2 := Vec2(0.0, 0.0)
  const XAxis: Vec2 := Vec2(1.0, 0.0)
  const YAxis: Vec2 := Vec2(0.0, 1.0)

  /** The double nearest to pi, the value of `Math.PI`. */
  function Pi(): real {
    3.141592653589793
  }

  function Add(a: Vec2, b: Vec2): Vec2 {
    Vec2(a.x + b.x, a.y + b.y)
  }

  function Sub(a: Vec2, b: Vec2): Vec2 {
    Vec2(a.x - b.x, a.y - b.y)
  }

  function Scale(v: Vec2, k: real): Vec2 {
    Vec2(v.x * k, v.y * k)
  }

  function Dot(a: Vec2, b: Vec2): real {
    a.x * b.x + a.y * b.y
  }

  /** The vector turned a quarter turn counter-clockwise: (-y, x). */
  function Perp(v: Vec2): Vec2 {
    Vec2(-v.y, v.x)
  }

  function Midpoint(a: Vec2, b: Vec2): Vec2 {
    Scale(Add(a, b), 0.5)
  }

  /** Squared Euclidean distance between two points. */
  function SqDist(a: Vec2, b: Vec2): real {
    Dot(Sub(b, a), Sub(b, a))
  }

  function Abs(r: real): real {
    if r < 0.0 then -r else r
  }

  /** `r` is the non-negative square root of `s`. */
  predicate IsSqrt(r: real, s: real) {
    r >= 0.0 && r * r == s
  }

  predicate IsUnit(v: Vec2) {
    Dot(v, v) == 1.0
  }

  lemma SqDistNonNegative(a: Vec2, b: Vec2)
    ensures SqDist(a, b) >= 0.0
  {
    var d := Sub(b, a);
    assert d.x * d.x >= 0.0 && d.y * d.y >= 0.0;
  }

  /** The squared distance is 0 exactly between equal points. */
  lemma SqDistZero(a: Vec2, b: Vec2)
    ensures SqDist(a, b) == 0.0 <==> a == b
  {
    var d := Sub(b, a);
    assert d.x * d.x >= 0.0 && d.y * d.y >= 0.0;
    if SqDist(a, b) == 0.0 {
      SquareZero(d.x);
      SquareZero(d.y);
      assert a.x == b.x && a.y == b.y;
    }
  }

  lemma SquareZero(r: real)
    ensures r * r == 0.0 <==> r == 0.0
  {
    if r > 0.0 {
      SquareStrict(0.0, r);
    } else if r < 0.0 {
      SquareStrict(0.0, -r);
      assert (-r) * (-r) == r * r;
    }
  }

  lemma SqDistSymmetric(a: Vec2, b: Vec2)
    ensures SqDist(a, b) == SqDist(b, a)
  {
    var d := Sub(b, a);
    assert Sub(a, b) == Vec2(-d.x, -d.y);
    assert (-d.x) * (-d.x) == d.x * d.x && (-d.y) * (-d.y) == d.y * d.y;
  }

  /** At most one non-negative real squares to a given value. */
  lemma SqrtUnique(a: real, b: real, s: real)
    requires IsSqrt(a, s) && IsSqrt(b, s)
    ensures a == b
  {
    SquareMonotonic(a, b);
    SquareMonotonic(b, a);
  }

  /** Over non-negative reals, comparing values is comparing their squares. */
  lemma SquareMonotonic(a: real, b: real)
    requires a >= 0.0 && b >= 0.0
    ensures a < b <==> a * a < b * b
  {
    if a < b {
      SquareStrict(a, b);
    } else if b < a {
      SquareStrict(b, a);
    }
  }

  lemma SquareStrict(a: real, b: real)
    requires 0.0 <= a < b
    ensures a * a < b * b
  {
    calc {
      a * a;
    <= { assert a * b - a * a == a * (b - a); }
      a * b;
    <  { assert b * b - a * b == (b - a) * b; }
      b * b;
    }
  }

  /** The length of a vector scaled by k is |k| times its length. */
  lemma ScaledLength(v: Vec2, k: real, len: real)
    requires IsSqrt(len, Dot(v, v))
    ensures IsSqrt(Abs(k) * len, Dot(Scale(v, k), Scale(v, k)))
  {
    calc {
      Dot(Scale(v, k), Scale(v, k));
      (v.x * k) * (v.x * k) + (v.y * k) * (v.y * k);
      { assert (v.x * k) * (v.x * k) == (k * k) * (v.x * v.x);
        assert (v.y * k) * (v.y * k) == (k * k) * (v.y * v.y); }
      (k * k) * (v.x * v.x + v.y * v.y);
      (k * k) * (len * len);
      { assert Abs(k) * Abs(k) == k * k; }
      (Abs(k) * len) * (Abs(k) * len);
    }
    assert Abs(k) * len >= 0.0;
  }

  /** Dot products of a unit vector scaled by k. */
  lemma DotScaled(u: Vec2, k: real)
    requires IsUnit(u)
    ensures Dot(Scale(u, k), u) == k
    ensures Dot(Scale(u, k), Scale(u, k)) == k * k * Dot(u, u)
  {
    calc {
      Dot(Scale(u, k), u);
      (u.x * k) * u.x + (u.y * k) * u.y;
      { assert (u.x * k) * u.x == k * (u.x * u.x) && (u.y * k) * u.y == k * (u.y * u.y); }
      k * (u.x * u.x + u.y * u.y);
      k;
    }
    calc {
      Dot(Scale(u, k), Scale(u, k));
      (u.x * k) * (u.x * k) + (u.y * k) * (u.y * k);
      { assert (u.x * k) * (u.x * k) == k * k * (u.x * u.x) && (u.y * k) * (u.y * k) == k * k * (u.y * u.y); }
      k * k * Dot(u, u);
    }
  }
}
