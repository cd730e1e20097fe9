/**
 * A wall of the floor plan (src/store/Wall.ts): a segment between two points
 * with a thickness and an optional dimension annotation.
 *
 * The setters overwrite one field each. The derived getters are functions of
 * the two end points. `length` needs a square root and `angle` an arc
 * tangent, neither of which is computed here: the wall's length is passed in
 * as `len` with `HasLength(len)`, and its angle as `a` with `IsAngleOf`.
 */
module WallState {
  import opened Geometry
  import opened DimensionState

  const DEFAULT_THICKNESS: real := 0.2

  /**
   * What `Math.atan2(dir.y, dir.x)` is known to satisfy: the result lies in
   * (-PI, PI], its sign follows `dir.y`, it lies strictly between -PI/2 and
   * PI/2 exactly when `dir.x` is positive or `dir` is the zero vector, and
   * the axis directions map to 0, PI/2, PI and -PI/2 (`atan2(0, 0)` is 0).
   */
  predicate IsAngleOf(dir: Vec2, a: real) {
    && -Pi() < a <= Pi()
    && (dir.y > 0.0 ==> 0.0 < a < Pi())
    && (dir.y < 0.0 ==> -Pi() < a < 0.0)
    && (dir.x > 0.0 || dir == Origin <==> -Pi() / 2.0 < a < Pi() / 2.0)
    && (dir.x < 0.0 ==> a < -Pi() / 2.0 || Pi() / 2.0 < a)
    && (dir.y == 0.0 && dir.x >= 0.0 ==> a == 0.0)
    && (dir.y == 0.0 && dir.x < 0.0 ==> a == Pi())
    && (dir.x == 0.0 && dir.y > 0.0 ==> a == Pi() / 2.0)
    && (dir.x == 0.0 && dir.y < 0.0 ==> a == -Pi() / 2.0)
  }

  /**
   * On the zero vector and the four axis directions the angle is
   * determined: 0, 0, PI/2, PI and -PI/2.
   */
  lemma AngleOfAxes(a: real)
    ensures IsAngleOf(Origin, a) <==> a == 0.0
    ensures IsAngleOf(XAxis, a) <==> a == 0.0
    ensures IsAngleOf(YAxis, a) <==> a == Pi() / 2.0
    ensures IsAngleOf(Vec2(-1.0, 0.0), a) <==> a == Pi()
    ensures IsAngleOf(Vec2(0.0, -1.0), a) <==> a == -Pi() / 2.0
  {
  }

  /** Stretching a vector by a positive factor does not change its angle. */
  lemma AngleScaleInvariant(dir: Vec2, k: real, a: real)
    requires k > 0.0
    ensures IsAngleOf(Scale(dir, k), a) <==> IsAngleOf(dir, a)
  {
    var v := Scale(dir, k);
    assert v.x > 0.0 <==> dir.x > 0.0;
    assert v.x < 0.0 <==> dir.x < 0.0;
    assert v.y > 0.0 <==> dir.y > 0.0;
    assert v.y < 0.0 <==> dir.y < 0.0;
  }

  /** The length of a segment does not depend on which end comes first. */
  lemma LengthSymmetric(a: Vec2, b: Vec2, len: real)
    ensures IsSqrt(len, SqDist(a, b)) <==> IsSqrt(len, SqDist(b, a))
  {
    SqDistSymmetric(a, b);
  }

  class Wall {
    const id: string
    var startPoint: Vec2
    var endPoint: Vec2
    var thickness: real
    var dimension: Dimension?

    /** The editor draws a random id; here it is given by the caller. */
    constructor (id: string, start: Vec2, end: Vec2)
      ensures this.id == id && startPoint == start && endPoint == end
      ensures thickness == DEFAULT_THICKNESS && dimension == null
    {
      this.id := id;
      startPoint := start;
      endPoint := end;
      thickness := DEFAULT_THICKNESS;
      dimension := null;
    }

    method SetStartPoint(p: Vec2)
      modifies this
      ensures startPoint == p
      ensures endPoint == old(endPoint) && thickness == old(thickness)
      ensures dimension == old(dimension)
    {
      startPoint := p;
    }

    method SetEndPoint(p: Vec2)
      modifies this
      ensures endPoint == p
      ensures startPoint == old(startPoint) && thickness == old(thickness)
      ensures dimension == old(dimension)
    {
      endPoint := p;
    }

    /** Any value is accepted; keeping it non-negative is the caller's job. */
    method SetThickness(t: real)
      modifies this
      ensures thickness == t
      ensures startPoint == old(startPoint) && endPoint == old(endPoint)
      ensures dimension == old(dimension)
    {
      thickness := t;
    }

    method SetDimension(d: Dimension?)
      modifies this
      ensures dimension == d
      ensures startPoint == old(startPoint) && endPoint == old(endPoint)
      ensures thickness == old(thickness)
    {
      dimension := d;
    }

    /**
     * `len` is the Euclidean distance between the two end points; it is 0
     * exactly for a wall whose ends coincide.
     */
    predicate HasLength(len: real): (b: bool)
      reads this
      ensures b ==> (len == 0.0 <==> startPoint == endPoint)
    {
      SqDistZero(startPoint, endPoint);
      SquareZero(len);
      IsSqrt(len, SqDist(startPoint, endPoint))
    }

    /** The centre is the point halfway between the two ends. */
    function Center(): (c: Vec2)
      reads this
      ensures Sub(c, startPoint) == Sub(endPoint, c)
    {
      Midpoint(startPoint, endPoint)
    }

    /**
     * The unit vector from start to end. For a wall of length 0 the editor
     * relies on how three.js normalises a zero vector, which is not part of
     * this model, so the direction is defined only for a positive length.
     */
    function Direction(len: real): (d: Vec2)
      reads this
      requires HasLength(len) && len > 0.0
      ensures IsUnit(d)
      ensures Scale(d, len) == Sub(endPoint, startPoint)
    {
      var v := Sub(endPoint, startPoint);
      var k := 1.0 / len;
      assert k * len == 1.0;
      ScaledLength(v, k, len);
      assert Abs(k) * len == 1.0;
      assert v.x * k * len == v.x && v.y * k * len == v.y;
      Scale(v, k)
    }

    /**
     * The in-plane normal: the direction turned a quarter turn
     * counter-clockwise. The editor normalises it again, which changes
     * nothing because it is already a unit vector.
     */
    function Normal(len: real): (n: Vec2)
      reads this
      requires HasLength(len) && len > 0.0
      ensures IsUnit(n)
      ensures Dot(n, Direction(len)) == 0.0
      ensures Direction(len).x * n.y - Direction(len).y * n.x == 1.0
    {
      var d := Direction(len);
      Perp(d)
    }

    /**
     * The normal is perpendicular to the wall itself, so a free dimension
     * line runs parallel to the wall (`DimensionLines.FreeLineParallel`).
     */
    lemma NormalPerpendicularToWall(len: real)
      requires HasLength(len) && len > 0.0
      ensures Dot(Normal(len), Sub(endPoint, startPoint)) == 0.0
    {
      var d := Direction(len);
      var n := Normal(len);
      assert Sub(endPoint, startPoint) == Scale(d, len);
      calc {
        Dot(n, Scale(d, len));
        n.x * (d.x * len) + n.y * (d.y * len);
        { assert n.x * (d.x * len) == len * (n.x * d.x) && n.y * (d.y * len) == len * (n.y * d.y); }
        len * Dot(n, d);
        0.0;
      }
    }

    /**
     * `n` is the value of the `normal` getter for a wall of length `len`; any
     * value is allowed for a wall of length 0.
     */
    predicate HasNormal(len: real, n: Vec2)
      reads this
    {
      HasLength(len) && (len > 0.0 ==> n == Normal(len))
    }

    /**
     * `a` is the value of the `angle` getter, `atan2` of the direction; any
     * value is allowed for a wall of length 0.
     */
    predicate HasAngle(len: real, a: real)
      reads this
    {
      HasLength(len) && (len > 0.0 ==> IsAngleOf(Direction(len), a))
    }

    /**
     * The angle of a wall of positive length follows its end points: it is
     * between -PI/2 and PI/2 exactly when the wall runs rightwards, positive
     * when it runs upwards and negative when it runs downwards.
     */
    lemma AngleFollowsEndPoints(len: real, a: real)
      requires HasAngle(len, a) && len > 0.0
      ensures endPoint.x > startPoint.x <==> -Pi() / 2.0 < a < Pi() / 2.0
      ensures endPoint.y > startPoint.y ==> 0.0 < a < Pi()
      ensures endPoint.y < startPoint.y ==> -Pi() < a < 0.0
    {
      var d := Direction(len);
      assert Scale(d, len) == Sub(endPoint, startPoint);
      AngleScaleInvariant(d, len, a);
    }
  }
}
