/**
 * The per-wall dimension view (src/components/DimensionRenderer.tsx): the
 * label's reading angle and zoom-dependent scale, the number it shows, the
 * offset a drag produces, and the drag state of the view.
 *
 * The pointer's world position comes from a raycast against the plane z = 0
 * and is given here as a point. The camera zoom is given as a number.
 */
module DimensionRendering {
  import opened Geometry
  import opened DimensionState
  import opened WallState
  import opened DimensionLines
  import opened Store

  const LABEL_BASE_ZOOM: real := 50.0
  const LABEL_BASE_SCALE: real := 1.5
  const LABEL_MIN_SCALE: real := 0.75
  const LABEL_MAX_SCALE: real := 3.0
  /** Zooms below this are treated as this value. */
  const MIN_SAFE_ZOOM: real := 0.0001

  // ---- Reading angle ---------------------------------------------------------

  /** The number of whole turns `WrapAngle` adds to its argument. */
  function Turns(b: real): int {
    ((Pi() - b) / (2.0 * Pi())).Floor
  }

  /**
   * `Math.atan2(Math.sin(b), Math.cos(b))`: the angle b moved by whole turns
   * into (-PI, PI].
   */
  function WrapAngle(b: real): (r: real)
    ensures -Pi() < r <= Pi()
  {
    b + 2.0 * Pi() * Turns(b) as real
  }

  /** Any angle in (-PI, PI] that differs from b by whole turns is `WrapAngle(b)`. */
  lemma WrapUnique(b: real, r: real, k: int)
    requires -Pi() < r <= Pi()
    requires r == b + 2.0 * Pi() * k as real
    ensures WrapAngle(b) == r
  {
    var q := (Pi() - r) / (2.0 * Pi());
    assert 0.0 <= q < 1.0;
    assert (Pi() - b) / (2.0 * Pi()) == q + k as real;
    FloorOfShift(q, k);
  }

  lemma FloorOfShift(q: real, k: int)
    requires 0.0 <= q < 1.0
    ensures (q + k as real).Floor == k
  {
  }

  /** Whole turns do not change the wrapped angle. */
  lemma WrapPeriodic(b: real, k: int)
    ensures WrapAngle(b + 2.0 * Pi() * k as real) == WrapAngle(b)
  {
    WrapUnique(b + 2.0 * Pi() * k as real, WrapAngle(b), Turns(b) - k);
  }

  /** An angle in (-PI, PI] is its own wrapped angle. */
  lemma WrapIdentity(b: real)
    requires -Pi() < b <= Pi()
    ensures WrapAngle(b) == b
  {
    WrapUnique(b, b, 0);
  }

  /**
   * The two half-turn corrections of `getReadableParallelAngle`: they move
   * an angle of (-PI, PI] by 0 or half a turn into [-PI/2, PI/2], and keep
   * an angle already there.
   */
  function Fold(a: real): (r: real)
    ensures -Pi() < a <= Pi() ==> -Pi() / 2.0 <= r <= Pi() / 2.0
    ensures r == a || r == a - Pi() || r == a + Pi()
    ensures -Pi() / 2.0 <= a <= Pi() / 2.0 ==> r == a
  {
    var a1 := if a > Pi() / 2.0 then a - Pi() else a;
    if a1 < -Pi() / 2.0 then a1 + Pi() else a1
  }

  /**
   * `getReadableParallelAngle`: the angle of the same line, turned by half a
   * turn if needed so that text drawn at it reads left to right. The result
   * lies in [-PI/2, PI/2].
   */
  function ReadableParallelAngle(b: real): (r: real)
    ensures -Pi() / 2.0 <= r <= Pi() / 2.0
    ensures r == WrapAngle(b) || r == WrapAngle(b) - Pi() || r == WrapAngle(b) + Pi()
  {
    Fold(WrapAngle(b))
  }

  /** An angle that already reads left to right is kept. */
  lemma ReadableKeepsReadable(b: real)
    requires -Pi() / 2.0 <= b <= Pi() / 2.0
    ensures ReadableParallelAngle(b) == b
  {
    WrapIdentity(b);
  }

  /**
   * The two directions of the same line get the same reading angle, except
   * for vertical lines.
   */
  lemma ReadableReversal(b: real)
    requires -Pi() / 2.0 < ReadableParallelAngle(b) < Pi() / 2.0
    ensures ReadableParallelAngle(b + Pi()) == ReadableParallelAngle(b)
  {
    var w := WrapAngle(b);
    if w <= 0.0 {
      WrapUnique(b + Pi(), w + Pi(), Turns(b));
    } else {
      WrapUnique(b + Pi(), w - Pi(), Turns(b) - 1);
    }
  }

  /**
   * For vertical lines the two directions read differently: an upward line
   * keeps PI/2 and a downward line keeps -PI/2.
   */
  lemma ReadableVertical()
    ensures ReadableParallelAngle(Pi() / 2.0) == Pi() / 2.0
    ensures ReadableParallelAngle(-Pi() / 2.0) == -Pi() / 2.0
  {
    ReadableKeepsReadable(Pi() / 2.0);
    ReadableKeepsReadable(-Pi() / 2.0);
  }

  /**
   * The label's rotation: level for a line locked to x, upright for a line
   * locked to y, and the wall's readable angle for a free line.
   */
  function LabelAngle(axis: LockedAxis, wallAngle: real): (r: real)
    ensures -Pi() / 2.0 <= r <= Pi() / 2.0
  {
    match axis
    case X => 0.0
    case Y => Pi() / 2.0
    case None => ReadableParallelAngle(wallAngle)
  }

  /**
   * The free label follows a wall that points rightwards, is turned half a
   * turn for a wall that points leftwards, and is upright (PI/2 or -PI/2) for
   * a vertical wall.
   */
  lemma LabelAngleOfWall(dir: Vec2, a: real)
    requires IsAngleOf(dir, a)
    ensures dir.x > 0.0 ==> LabelAngle(None, a) == a
    ensures dir.x < 0.0 ==>
      && -Pi() / 2.0 < LabelAngle(None, a) < Pi() / 2.0
      && (LabelAngle(None, a) == a - Pi() || LabelAngle(None, a) == a + Pi())
    ensures dir.x == 0.0 && dir.y > 0.0 ==> LabelAngle(None, a) == Pi() / 2.0
    ensures dir.x == 0.0 && dir.y < 0.0 ==> LabelAngle(None, a) == -Pi() / 2.0
    ensures dir == Origin ==> LabelAngle(None, a) == 0.0
  {
    WrapIdentity(a);
  }

  // ---- Label scale -----------------------------------------------------------

  function Max(a: real, b: real): real {
    if a >= b then a else b
  }

  function Min(a: real, b: real): real {
    if a <= b then a else b
  }

  /** `THREE.MathUtils.clamp`: `max(lo, min(hi, v))`. */
  function Clamp(v: real, lo: real, hi: real): real {
    Max(lo, Min(hi, v))
  }

  /**
   * `getLabelScaleFromZoom`: inversely proportional to the zoom (the scaling
   * exponent is 1), 1.5 at zoom 50, clamped to [0.75, 3].
   */
  function LabelScaleFromZoom(zoom: real): (s: real)
    ensures LABEL_MIN_SCALE <= s <= LABEL_MAX_SCALE
  {
    var safeZoom := Max(zoom, MIN_SAFE_ZOOM);
    Clamp(LABEL_BASE_SCALE * (LABEL_BASE_ZOOM / safeZoom), LABEL_MIN_SCALE, LABEL_MAX_SCALE)
  }

  /** Zooming in never makes the label bigger. */
  lemma LabelScaleNonIncreasing(z1: real, z2: real)
    requires z1 <= z2
    ensures LabelScaleFromZoom(z2) <= LabelScaleFromZoom(z1)
  {
    var s1 := Max(z1, MIN_SAFE_ZOOM);
    var s2 := Max(z2, MIN_SAFE_ZOOM);
    QuotientAntitone(LABEL_BASE_ZOOM, s1, s2);
  }

  lemma QuotientAntitone(c: real, s1: real, s2: real)
    requires c > 0.0 && 0.0 < s1 <= s2
    ensures c / s2 <= c / s1
  {
    var q1 := c / s1;
    var q2 := c / s2;
    assert q1 * s1 == c && q2 * s2 == c;
    assert q1 * (s2 - s1) >= 0.0;
  }

  /**
   * Between zoom 25 and zoom 100 the label keeps a constant on-screen size
   * (scale times zoom is 75); below 25 it is at its largest, 3, and above
   * 100 at its smallest, 0.75. Zooms at or below 0.0001 count as 0.0001.
   */
  lemma LabelScaleBands(zoom: real)
    ensures 25.0 <= zoom <= 100.0 ==> LabelScaleFromZoom(zoom) * zoom == LABEL_BASE_SCALE * LABEL_BASE_ZOOM
    ensures zoom <= 25.0 ==> LabelScaleFromZoom(zoom) == LABEL_MAX_SCALE
    ensures zoom >= 100.0 ==> LabelScaleFromZoom(zoom) == LABEL_MIN_SCALE
    ensures zoom <= MIN_SAFE_ZOOM ==> LabelScaleFromZoom(zoom) == LabelScaleFromZoom(MIN_SAFE_ZOOM)
  {
    var safe := Max(zoom, MIN_SAFE_ZOOM);
    var raw := LABEL_BASE_SCALE * (LABEL_BASE_ZOOM / safe);
    assert raw * safe == 75.0;
    if zoom <= 25.0 {
      QuotientAntitone(LABEL_BASE_ZOOM, safe, 25.0);
    }
    if zoom >= 100.0 {
      QuotientAntitone(LABEL_BASE_ZOOM, 100.0, safe);
    }
    if 25.0 <= zoom <= 100.0 {
      QuotientAntitone(LABEL_BASE_ZOOM, 25.0, safe);
      QuotientAntitone(LABEL_BASE_ZOOM, safe, 100.0);
    }
  }

  // ---- Dragging and the shown length -----------------------------------------

  /**
   * The offset a drag sets: the pointer's displacement from the wall centre,
   * measured along the offset axis.
   */
  function OffsetFromDrag(pointer: Vec2, wallCenter: Vec2, axis: LockedAxis, normal: Vec2): (o: real)
    ensures axis == X ==> o == pointer.y - wallCenter.y
    ensures axis == Y ==> o == pointer.x - wallCenter.x
  {
    Dot(Sub(pointer, wallCenter), OffsetAxis(axis, normal))
  }

  /** Dragging the label anchor onto itself keeps the offset. */
  lemma DragRoundTrip(start: Vec2, end: Vec2, normal: Vec2, offset: real, axis: LockedAxis)
    requires axis == None ==> IsUnit(normal)
    ensures var r := ComputeDimensionLinePoints(start, end, normal, offset, axis);
            OffsetFromDrag(r.dimCenter, Midpoint(start, end), axis, normal) == offset
  {
    ModeInvariants(start, end, normal, offset, axis);
    DotScaled(OffsetAxis(axis, normal), offset);
    var u := OffsetAxis(axis, normal);
    assert Dot(Scale(u, offset), u) == Dot(u, Scale(u, offset));
  }

  /**
   * After a drag the label anchor lies level with the pointer along the
   * offset axis: the line follows the pointer.
   */
  lemma DragFollowsPointer(start: Vec2, end: Vec2, normal: Vec2, pointer: Vec2, axis: LockedAxis)
    requires axis == None ==> IsUnit(normal)
    ensures var o := OffsetFromDrag(pointer, Midpoint(start, end), axis, normal);
            var r := ComputeDimensionLinePoints(start, end, normal, o, axis);
            Dot(Sub(pointer, r.dimCenter), OffsetAxis(axis, normal)) == 0.0
  {
    var u := OffsetAxis(axis, normal);
    var c := Midpoint(start, end);
    var o := OffsetFromDrag(pointer, c, axis, normal);
    AnchorOffset(start, end, normal, o, axis);
    ProjectionResidual(pointer, c, u);
  }

  /** The label anchor is the wall centre moved by offset along the offset axis. */
  lemma AnchorOffset(start: Vec2, end: Vec2, normal: Vec2, offset: real, axis: LockedAxis)
    ensures ComputeDimensionLinePoints(start, end, normal, offset, axis).dimCenter
            == Add(Midpoint(start, end), Scale(OffsetAxis(axis, normal), offset))
  {
    ModeInvariants(start, end, normal, offset, axis);
  }

  /** Moving c by the projection of p - c onto a unit u leaves p - c' orthogonal to u. */
  lemma ProjectionResidual(p: Vec2, c: Vec2, u: Vec2)
    requires IsUnit(u)
    ensures Dot(Sub(p, Add(c, Scale(u, Dot(Sub(p, c), u)))), u) == 0.0
  {
    var d := Sub(p, c);
    var o := Dot(d, u);
    DotScaled(u, o);
    calc {
      Dot(Sub(p, Add(c, Scale(u, o))), u);
      (d.x - u.x * o) * u.x + (d.y - u.y * o) * u.y;
      { assert (d.x - u.x * o) * u.x == d.x * u.x - (u.x * o) * u.x;
        assert (d.y - u.y * o) * u.y == d.y * u.y - (u.y * o) * u.y; }
      Dot(d, u) - Dot(Scale(u, o), u);
      0.0;
    }
  }

  /**
   * The number on the label: the horizontal extent for a line locked to x,
   * the vertical extent for y, the wall's length otherwise.
   */
  function LengthValue(axis: LockedAxis, start: Vec2, end: Vec2, len: real): (v: real)
    ensures axis == X ==> v >= 0.0 && (v == 0.0 <==> start.x == end.x)
    ensures axis == Y ==> v >= 0.0 && (v == 0.0 <==> start.y == end.y)
  {
    match axis
    case X => Abs(end.x - start.x)
    case Y => Abs(end.y - start.y)
    case None => len
  }

  /** The number on the label is the length of the drawn dimension line. */
  lemma LengthValueMeasuresLine(start: Vec2, end: Vec2, normal: Vec2, offset: real, axis: LockedAxis, len: real)
    requires IsSqrt(len, SqDist(start, end))
    ensures var r := ComputeDimensionLinePoints(start, end, normal, offset, axis);
            IsSqrt(LengthValue(axis, start, end, len), SqDist(r.dimStart, r.dimEnd))
  {
    LineSpan(start, end, normal, offset, axis);
    LengthValueOfSpan(axis, start, end, len);
  }

  /** The shown number is the length of the line's span in every mode. */
  lemma LengthValueOfSpan(axis: LockedAxis, start: Vec2, end: Vec2, len: real)
    requires IsSqrt(len, SqDist(start, end))
    ensures IsSqrt(LengthValue(axis, start, end, len), Dot(Span(axis, start, end), Span(axis, start, end)))
  {
    match axis
    case X => AbsIsSqrt(end.x - start.x);
    case Y => AbsIsSqrt(end.y - start.y);
    case None =>
  }

  /** A locked dimension never shows more than the wall's length. */
  lemma ShownLengthAtMostWallLength(axis: LockedAxis, start: Vec2, end: Vec2, len: real)
    requires IsSqrt(len, SqDist(start, end))
    ensures LengthValue(axis, start, end, len) <= len
  {
    var d := Sub(end, start);
    assert d.x * d.x >= 0.0 && d.y * d.y >= 0.0;
    var v := LengthValue(axis, start, end, len);
    match axis
    case X =>
      AbsIsSqrt(d.x);
      SquareMonotonic(len, v);
    case Y =>
      AbsIsSqrt(d.y);
      SquareMonotonic(len, v);
    case None =>
  }

  lemma AbsIsSqrt(d: real)
    ensures IsSqrt(Abs(d), d * d)
  {
    assert Abs(d) * Abs(d) == d * d;
  }

  // ---- The view --------------------------------------------------------------

  /** Where the label sits, how it is turned and scaled, and the number it shows. */
  datatype Label = Label(position: Vec2, angle: real, scale: real, value: real)

  /** A wall without a dimension shows nothing. */
  datatype View = Hidden | Shown(line: DimensionLineResult, caption: Label)

  /**
   * The dimension line as the component derives it inline, step by step; it
   * agrees with `ComputeDimensionLinePoints`.
   */
  method DeriveLine(start: Vec2, end: Vec2, normal: Vec2, offset: real, axis: LockedAxis)
    returns (line: DimensionLineResult)
    ensures line == ComputeDimensionLinePoints(start, end, normal, offset, axis)
  {
    var center := Midpoint(start, end);
    var sign := TickSign(offset);
    var dimStart, dimEnd, dimCenter, tick;
    if axis == X {
      var y := center.y + offset;
      dimStart, dimEnd, dimCenter := Vec2(start.x, y), Vec2(end.x, y), Vec2((start.x + end.x) / 2.0, y);
      tick := Scale(YAxis, TICK_SIZE * sign);
    } else if axis == Y {
      var x := center.x + offset;
      dimStart, dimEnd, dimCenter := Vec2(x, start.y), Vec2(x, end.y), Vec2(x, (start.y + end.y) / 2.0);
      tick := Scale(XAxis, TICK_SIZE * sign);
    } else {
      var shift := Scale(normal, offset);
      dimStart, dimEnd, dimCenter := Add(start, shift), Add(end, shift), Add(center, shift);
      tick := Scale(normal, TICK_SIZE * sign);
    }
    var extStart, extEnd := Add(dimStart, tick), Add(dimEnd, tick);
    var positions := [dimStart.x, dimStart.y, 0.0, dimEnd.x, dimEnd.y, 0.0,
                      start.x, start.y, 0.0, extStart.x, extStart.y, 0.0,
                      end.x, end.y, 0.0, extEnd.x, extEnd.y, 0.0];
    assert positions == Positions(dimStart, dimEnd, start, extStart, end, extEnd);
    line := DimensionLineResult(dimStart, dimEnd, dimCenter, extStart, extEnd, positions);
  }

  /** The view of one wall's dimension, with its `isDragging` state. */
  class DimensionView {
    const wall: Wall
    var isDragging: bool

    constructor (wall: Wall)
      ensures this.wall == wall && !isDragging
    {
      this.wall := wall;
      isDragging := false;
    }

    /** Starts a drag, unless the wall tool is active. */
    method PointerDown(tool: ActiveTool)
      modifies this
      ensures isDragging == (tool != WallTool || old(isDragging))
    {
      if tool == WallTool {
        return;
      }
      isDragging := true;
    }

    method PointerUp()
      modifies this
      ensures !isDragging
    {
      isDragging := false;
    }

    /**
     * While dragging, moves the dimension line to the pointer; otherwise does
     * nothing. The handlers exist only while the wall has a dimension.
     * `normal` is the wall's normal and `len` its length.
     */
    method PointerMove(pointer: Vec2, normal: Vec2, len: real)
      requires wall.dimension != null && wall.HasNormal(len, normal)
      modifies wall.dimension
      ensures old(isDragging) ==>
        && wall.dimension.offset == OffsetFromDrag(pointer, wall.Center(), wall.dimension.lockedAxis, normal)
        && wall.dimension.lockedAxis == old(wall.dimension.lockedAxis)
      ensures !old(isDragging) ==> unchanged(wall.dimension)
    {
      if !isDragging {
        return;
      }
      var dimension := wall.dimension;
      var toPointer := Sub(pointer, wall.Center());
      var offsetDirection := OffsetAxis(dimension.lockedAxis, normal);
      dimension.SetOffset(Dot(toPointer, offsetDirection));
    }

    /**
     * The rendered view: the dimension line derived inline as the component
     * does it, and the label. It agrees with `ComputeDimensionLinePoints`.
     * `normal`, `len`, `angle` and `zoom` are the wall's normal, length and
     * angle, and the camera zoom.
     */
    method Render(normal: Vec2, len: real, angle: real, zoom: real) returns (view: View)
      requires wall.HasNormal(len, normal) && wall.HasAngle(len, angle)
      ensures wall.dimension == null ==> view == Hidden
      ensures wall.dimension != null ==>
        var axis := wall.dimension.lockedAxis;
        && view.Shown?
        && view.line == ComputeDimensionLinePoints(wall.startPoint, wall.endPoint, normal, wall.dimension.offset, axis)
        && view.caption == Label(view.line.dimCenter, LabelAngle(axis, angle), LabelScaleFromZoom(zoom),
                               LengthValue(axis, wall.startPoint, wall.endPoint, len))
    {
      if wall.dimension == null {
        return Hidden;
      }
      var start, end := wall.startPoint, wall.endPoint;
      var dimension := wall.dimension;
      var line := DeriveLine(start, end, normal, dimension.offset, dimension.lockedAxis);
      var axis := dimension.lockedAxis;
      var lengthValue := if axis == X then Abs(end.x - start.x)
                         else if axis == Y then Abs(end.y - start.y)
                         else len;
      var labelAngle := if axis == X then 0.0
                        else if axis == Y then Pi() / 2.0
                        else ReadableParallelAngle(angle);
      view := Shown(line, Label(line.dimCenter, labelAngle, LabelScaleFromZoom(zoom), lengthValue));
    }

    /** A double click on the label opens the length dialog on the dimension's axis. */
    method LabelClick(store: AppStore, clickCount: int)
      requires wall.dimension != null
      modifies store
      ensures clickCount == 2 ==>
        && store.selectedWallId == Selected(wall.id) && store.isLengthModalOpen
        && store.lengthModalAxis == wall.dimension.lockedAxis
        && store.walls == old(store.walls) && store.activeTool == old(store.activeTool)
        && store.drawingWall == old(store.drawingWall)
      ensures clickCount != 2 ==> unchanged(store)
    {
      if clickCount == 2 {
        store.OpenLengthModal(wall.id, wall.dimension.lockedAxis);
      }
    }
  }
}
