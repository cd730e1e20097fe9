/**
 * Derivation of a dimension line from a wall (src/utils/dimensionLineUtils.ts).
 *
 * Given the wall's end points, its normal, a signed offset and the lock mode,
 * the derivation yields the two ends of the dimension line, its centre (where
 * the label sits), the two extension points that the ticks run to, and the
 * flat 18-number buffer that the renderer draws as three segments.
 */
module DimensionLines {
  import opened Geometry
  import opened DimensionState

  const TICK_SIZE: real := 0.2

  /** Number of reals in the position buffer: six points of three coordinates. */
  const POSITION_COUNT: nat := 18

  datatype DimensionLineResult = DimensionLineResult(
    dimStart: Vec2,
    dimEnd: Vec2,
    dimCenter: Vec2,
    extStart: Vec2,
    extEnd: Vec2,
    positions: seq<real>)

  /**
   * `Math.sign(offset || 1)`: the side the offset lies on, where an offset
   * of exactly 0 counts as the positive side.
   */
  function TickSign(offset: real): (s: real)
    ensures s == 1.0 || s == -1.0
    ensures s * offset >= 0.0
    ensures offset == 0.0 ==> s == 1.0
  {
    if offset < 0.0 then -1.0 else 1.0
  }

  /**
   * The axis along which the offset is measured: the Y axis when the line is
   * locked horizontal, the X axis when it is locked vertical, and the wall's
   * normal when it is free.
   */
  function OffsetAxis(axis: LockedAxis, normal: Vec2): Vec2 {
    match axis
    case X => YAxis
    case Y => XAxis
    case None => normal
  }

  /** Point `k` of a flat buffer of (x, y, z) triples, z dropped. */
  function PointAt(buf: seq<real>, k: nat): Vec2
    requires 3 * k + 2 < |buf|
  {
    Vec2(buf[3 * k], buf[3 * k + 1])
  }

  /**
   * `buf` holds exactly the six points, in this order, as (x, y, 0)
   * triples: 18 numbers, every third one 0.
   */
  predicate BufferLayout(buf: seq<real>, p0: Vec2, p1: Vec2, p2: Vec2, p3: Vec2, p4: Vec2, p5: Vec2) {
    && |buf| == POSITION_COUNT
    && (forall i :: 0 <= i < |buf| && i % 3 == 2 ==> buf[i] == 0.0)
    && PointAt(buf, 0) == p0 && PointAt(buf, 1) == p1 && PointAt(buf, 2) == p2
    && PointAt(buf, 3) == p3 && PointAt(buf, 4) == p4 && PointAt(buf, 5) == p5
  }

  /** The six points as (x, y, 0) triples, in drawing order. */
  function Positions(p0: Vec2, p1: Vec2, p2: Vec2, p3: Vec2, p4: Vec2, p5: Vec2): (buf: seq<real>)
    ensures BufferLayout(buf, p0, p1, p2, p3, p4, p5)
  {
    [p0.x, p0.y, 0.0,
     p1.x, p1.y, 0.0,
     p2.x, p2.y, 0.0,
     p3.x, p3.y, 0.0,
     p4.x, p4.y, 0.0,
     p5.x, p5.y, 0.0]
  }

  /**
   * `computeDimensionLinePoints`. The wall enters through its two end points
   * and its normal; its centre is their midpoint, as the wall's `center`
   * getter computes it.
   */
  function ComputeDimensionLinePoints(start: Vec2, end: Vec2, normal: Vec2, offset: real, axis: LockedAxis)
    : (r: DimensionLineResult)
    // Locked to x: a horizontal line at the wall centre's height plus the
    // offset, spanning the wall's x-extent.
    ensures axis == X ==>
      && r.dimStart == Vec2(start.x, Midpoint(start, end).y + offset)
      && r.dimEnd == Vec2(end.x, Midpoint(start, end).y + offset)
    // Locked to y: a vertical line symmetric to the above.
    ensures axis == Y ==>
      && r.dimStart == Vec2(Midpoint(start, end).x + offset, start.y)
      && r.dimEnd == Vec2(Midpoint(start, end).x + offset, end.y)
    // Free: the wall itself moved by offset along its normal.
    ensures axis == None ==>
      && r.dimStart == Add(start, Scale(normal, offset))
      && r.dimEnd == Add(end, Scale(normal, offset))
    // The buffer: dimStart, dimEnd, wallStart, extStart, wallEnd, extEnd.
    ensures r.positions == Positions(r.dimStart, r.dimEnd, start, r.extStart, end, r.extEnd)
  {
    var center := Midpoint(start, end);
    var sign := TickSign(offset);
    if axis == X then
      var y := center.y + offset;
      Assemble(start, end, Vec2(start.x, y), Vec2(end.x, y), Vec2((start.x + end.x) / 2.0, y),
        Scale(YAxis, TICK_SIZE * sign))
    else if axis == Y then
      var x := center.x + offset;
      Assemble(start, end, Vec2(x, start.y), Vec2(x, end.y), Vec2(x, (start.y + end.y) / 2.0),
        Scale(XAxis, TICK_SIZE * sign))
    else
      var wallOffset := Scale(normal, offset);
      Assemble(start, end, Add(start, wallOffset), Add(end, wallOffset), Add(center, wallOffset),
        Scale(normal, TICK_SIZE * sign))
  }

  /** Adds the tick to both ends of the dimension line and lays out the buffer. */
  function Assemble(start: Vec2, end: Vec2, dimStart: Vec2, dimEnd: Vec2, dimCenter: Vec2, tick: Vec2)
    : (r: DimensionLineResult)
    ensures r.dimStart == dimStart && r.dimEnd == dimEnd && r.dimCenter == dimCenter
    ensures Sub(r.extStart, dimStart) == tick && Sub(r.extEnd, dimEnd) == tick
    ensures r.positions == Positions(r.dimStart, r.dimEnd, start, r.extStart, end, r.extEnd)
  {
    var extStart := Add(dimStart, tick);
    var extEnd := Add(dimEnd, tick);
    DimensionLineResult(dimStart, dimEnd, dimCenter, extStart, extEnd,
      Positions(dimStart, dimEnd, start, extStart, end, extEnd))
  }

  /**
   * In every mode the label anchor is the middle of the dimension line and
   * the wall centre moved by offset along the offset axis, and both ticks
   * are the same vector: TICK_SIZE along the offset axis, on the offset's
   * side (the positive side for an offset of 0).
   */
  lemma ModeInvariants(start: Vec2, end: Vec2, normal: Vec2, offset: real, axis: LockedAxis)
    ensures var r := ComputeDimensionLinePoints(start, end, normal, offset, axis);
            && r.dimCenter == Midpoint(r.dimStart, r.dimEnd)
            && Sub(r.dimCenter, Midpoint(start, end)) == Scale(OffsetAxis(axis, normal), offset)
            && Sub(r.extStart, r.dimStart) == Scale(OffsetAxis(axis, normal), TICK_SIZE * TickSign(offset))
            && Sub(r.extEnd, r.dimEnd) == Sub(r.extStart, r.dimStart)
  {
  }

  /**
   * The tick points away from the wall, to the side the offset lies on (the
   * positive side for an offset of 0), and it is exactly TICK_SIZE long
   * whenever the offset axis is a unit vector.
   */
  lemma TickOnOffsetSide(start: Vec2, end: Vec2, normal: Vec2, offset: real, axis: LockedAxis)
    requires axis == None ==> IsUnit(normal)
    ensures var r := ComputeDimensionLinePoints(start, end, normal, offset, axis);
            && Dot(Sub(r.extStart, r.dimStart), OffsetAxis(axis, normal)) == (if offset < 0.0 then -TICK_SIZE else TICK_SIZE)
            && Dot(Sub(r.extStart, r.dimStart), Sub(r.extStart, r.dimStart)) == TICK_SIZE * TICK_SIZE
  {
    var r := ComputeDimensionLinePoints(start, end, normal, offset, axis);
    ModeInvariants(start, end, normal, offset, axis);
    var u := OffsetAxis(axis, normal);
    assert IsUnit(u);
    assert Sub(r.extStart, r.dimStart) == Scale(u, TICK_SIZE * TickSign(offset));
    TickVectorFacts(u, offset);
  }

  lemma TickVectorFacts(u: Vec2, offset: real)
    requires IsUnit(u)
    ensures var tick := Scale(u, TICK_SIZE * TickSign(offset));
            && Dot(tick, u) == (if offset < 0.0 then -TICK_SIZE else TICK_SIZE)
            && Dot(tick, tick) == TICK_SIZE * TICK_SIZE
  {
    var k := TICK_SIZE * TickSign(offset);
    DotScaled(u, k);
    assert k * k == TICK_SIZE * TICK_SIZE;
  }

  /**
   * A free dimension line is the wall translated sideways: same span as the
   * wall, and displaced perpendicular to it when the normal is.
   */
  lemma FreeLineParallel(start: Vec2, end: Vec2, normal: Vec2, offset: real)
    requires Dot(normal, Sub(end, start)) == 0.0
    ensures var r := ComputeDimensionLinePoints(start, end, normal, offset, None);
            && Sub(r.dimEnd, r.dimStart) == Sub(end, start)
            && Dot(Sub(r.dimStart, start), Sub(end, start)) == 0.0
            && Dot(Sub(r.dimEnd, end), Sub(end, start)) == 0.0
  {
    var d := Sub(end, start);
    var r := ComputeDimensionLinePoints(start, end, normal, offset, None);
    assert Sub(r.dimStart, start) == Scale(normal, offset);
    calc {
      Dot(Scale(normal, offset), d);
      (normal.x * offset) * d.x + (normal.y * offset) * d.y;
      { assert (normal.x * offset) * d.x == offset * (normal.x * d.x);
        assert (normal.y * offset) * d.y == offset * (normal.y * d.y); }
      offset * Dot(normal, d);
      0.0;
    }
  }

  /** The vector from one end of the dimension line to the other, by lock mode. */
  function Span(axis: LockedAxis, start: Vec2, end: Vec2): Vec2 {
    match axis
    case X => Vec2(end.x - start.x, 0.0)
    case Y => Vec2(0.0, end.y - start.y)
    case None => Sub(end, start)
  }

  /**
   * An `x` line is horizontal and spans the wall's x-extent, a `y` line is
   * vertical and spans its y-extent, and a free line spans the wall itself.
   */
  lemma LineSpan(start: Vec2, end: Vec2, normal: Vec2, offset: real, axis: LockedAxis)
    ensures var r := ComputeDimensionLinePoints(start, end, normal, offset, axis);
            Sub(r.dimEnd, r.dimStart) == Span(axis, start, end)
  {
  }
}
