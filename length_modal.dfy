/**
 * The length-entry dialog (src/components/UI/LengthModal.tsx): the user types
 * a length for the selected wall, and applying it moves the wall's end point
 * along the wall's direction so that the measured length becomes the typed
 * one. Under an axis lock the typed value is the horizontal or vertical
 * extent instead of the full length.
 *
 * The number the dialog starts with is the rule the label uses,
 * `DimensionRendering.LengthValue`, rounded for display.
 */
module LengthEditing {
  import opened Geometry
  import opened DimensionState
  import opened WallState
  import opened Store
  import opened DimensionRendering

  /** Below this, a direction has no usable extent on the locked axis. */
  const EPS: real := 0.000001

  /** What `parseFloat` makes of the typed text: not a number, or a finite value. */
  datatype ParsedNumber = NaN | Finite(value: real)

  datatype ApplyOutcome = Rejected | Applied(newEnd: Vec2)

  /**
   * The end point that applying `target` yields for a wall starting at
   * `start` with direction `dir`: a length along `dir` chosen so that the
   * extent on the locked axis, or the full length, equals the target.
   */
  function SolveEndPoint(axis: LockedAxis, start: Vec2, dir: Vec2, target: ParsedNumber): (r: ApplyOutcome)
    ensures r.Rejected? <==>
      || target.NaN? || target.value < 0.0
      || (axis == X && Abs(dir.x) < EPS)
      || (axis == Y && Abs(dir.y) < EPS)
  {
    if target.NaN? || target.value < 0.0 then Rejected
    else
      match axis
      case X => if Abs(dir.x) < EPS then Rejected else Applied(Add(start, Scale(dir, target.value / Abs(dir.x))))
      case Y => if Abs(dir.y) < EPS then Rejected else Applied(Add(start, Scale(dir, target.value / Abs(dir.y))))
      case None => Applied(Add(start, Scale(dir, target.value)))
  }

  /**
   * Applying a target and reading the dialog's number back gives the target:
   * the horizontal extent under `x`, the vertical extent under `y`, and,
   * for a unit direction, the wall's length under `none`.
   */
  lemma ApplyRoundTrip(axis: LockedAxis, start: Vec2, dir: Vec2, t: real, newLen: real)
    requires SolveEndPoint(axis, start, dir, Finite(t)).Applied?
    requires axis == None ==> IsUnit(dir)
    requires IsSqrt(newLen, SqDist(start, SolveEndPoint(axis, start, dir, Finite(t)).newEnd))
    ensures LengthValue(axis, start, SolveEndPoint(axis, start, dir, Finite(t)).newEnd, newLen) == t
  {
    var e := SolveEndPoint(axis, start, dir, Finite(t)).newEnd;
    match axis
    case X =>
      assert e.x - start.x == dir.x * (t / Abs(dir.x));
      ExtentOfSolvedStep(dir.x, t);
    case Y =>
      assert e.y - start.y == dir.y * (t / Abs(dir.y));
      ExtentOfSolvedStep(dir.y, t);
    case None =>
      UnitStepLength(start, dir, t, newLen);
  }

  /** A step of t >= 0 along a unit vector is t long. */
  lemma UnitStepLength(start: Vec2, dir: Vec2, t: real, len: real)
    requires IsUnit(dir) && t >= 0.0
    requires IsSqrt(len, SqDist(start, Add(start, Scale(dir, t))))
    ensures len == t
  {
    var e := Add(start, Scale(dir, t));
    assert Sub(e, start) == Scale(dir, t);
    DotScaled(dir, t);
    assert IsSqrt(t, SqDist(start, e));
    SqrtUnique(len, t, SqDist(start, e));
  }

  /** A step of t / |d| along a component d covers exactly t on that axis. */
  lemma ExtentOfSolvedStep(d: real, t: real)
    requires Abs(d) > 0.0 && t >= 0.0
    ensures Abs(d * (t / Abs(d))) == t
  {
    var k := t / Abs(d);
    assert k * Abs(d) == t;
    assert k >= 0.0;
    if d < 0.0 {
      assert d * k == -(Abs(d) * k);
    } else {
      assert d * k == Abs(d) * k;
    }
  }

  /**
   * A positive target keeps the wall pointing the same way: the new wall's
   * length times `dir` is the new wall's vector, so `dir` is its direction.
   */
  lemma ApplyKeepsDirection(axis: LockedAxis, start: Vec2, dir: Vec2, t: real, newLen: real)
    requires SolveEndPoint(axis, start, dir, Finite(t)).Applied?
    requires IsUnit(dir) && t > 0.0
    requires IsSqrt(newLen, SqDist(start, SolveEndPoint(axis, start, dir, Finite(t)).newEnd))
    ensures newLen > 0.0
    ensures Scale(dir, newLen) == Sub(SolveEndPoint(axis, start, dir, Finite(t)).newEnd, start)
  {
    var e := SolveEndPoint(axis, start, dir, Finite(t)).newEnd;
    var k := match axis
      case X => t / Abs(dir.x)
      case Y => t / Abs(dir.y)
      case None => t;
    assert k > 0.0;
    assert Sub(e, start) == Scale(dir, k);
    DotScaled(dir, k);
    assert IsSqrt(k, SqDist(start, e));
    SqrtUnique(newLen, k, SqDist(start, e));
  }

  /**
   * `handleApply`. Rejected input leaves the wall and the store as they
   * were (the dialog stays open); otherwise the selected wall's end point
   * moves and the dialog closes. `dir` is the wall's direction, and `len`
   * its length.
   */
  method HandleApply(store: AppStore, input: ParsedNumber, dir: Vec2, len: real)
    requires store.isLengthModalOpen && store.SelectedWall() != null
    requires store.SelectedWall().HasLength(len)
    requires len > 0.0 ==> dir == store.SelectedWall().Direction(len)
    modifies store, store.SelectedWall()
    ensures var wall := old(store.SelectedWall());
      match SolveEndPoint(old(store.lengthModalAxis), old(wall.startPoint), dir, input)
      case Rejected => unchanged(wall) && unchanged(store)
      case Applied(newEnd) =>
        && wall.endPoint == newEnd
        && wall.startPoint == old(wall.startPoint) && wall.thickness == old(wall.thickness)
        && wall.dimension == old(wall.dimension)
        && !store.isLengthModalOpen
        && store.walls == old(store.walls) && store.activeTool == old(store.activeTool)
        && store.selectedWallId == old(store.selectedWallId) && store.drawingWall == old(store.drawingWall)
        && store.lengthModalAxis == old(store.lengthModalAxis)
  {
    var wall := store.SelectedWall();
    var axis := store.lengthModalAxis;
    if input.NaN? || input.value < 0.0 {
      return;
    }
    var targetLength := input.value;
    var actualLength := targetLength;
    if axis == X {
      var absDxPerUnit := Abs(dir.x);
      if absDxPerUnit < EPS {
        return;
      }
      actualLength := targetLength / absDxPerUnit;
    } else if axis == Y {
      var absDyPerUnit := Abs(dir.y);
      if absDyPerUnit < EPS {
        return;
      }
      actualLength := targetLength / absDyPerUnit;
    }
    var newEnd := Add(wall.startPoint, Scale(dir, actualLength));
    wall.SetEndPoint(newEnd);
    store.CloseLengthModal();
  }
}
