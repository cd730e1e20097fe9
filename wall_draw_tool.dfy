/**
 * Click-to-draw walls (src/components/WallDrawTool.tsx). With the wall tool
 * active, a first click fixes a start point and shows a zero-length preview
 * wall; pointer moves stretch the preview; a second click at least 1e-4 away
 * adds the wall and ends the drawing. Escape, or switching to another tool,
 * abandons it.
 *
 * The click's world point comes from unprojecting the pointer through the
 * camera and is given here as a point; the new wall's random id is given too.
 */
module WallDrawing {
  import opened Geometry
  import opened DimensionState
  import opened WallState
  import opened Store

  /** Second clicks closer than this to the start point are ignored. */
  const MIN_SEGMENT: real := 0.0001
  const MIN_SEGMENT_SQ: real := 0.00000001

  /** The tool's `startPoint` state: none, or the first click's point. */
  datatype DrawStart = NotDrawing | DrawingFrom(start: Vec2)

  /**
   * `point.distanceTo(start) < 1e-4`, compared on squared distances. A click
   * counts as too short only when it is within 1e-4 of the start along both
   * axes.
   */
  predicate TooShort(start: Vec2, point: Vec2): (b: bool)
    ensures b ==> Abs(point.x - start.x) < MIN_SEGMENT && Abs(point.y - start.y) < MIN_SEGMENT
  {
    CoordinateBound(Sub(start, point));
    SqDist(point, start) < MIN_SEGMENT_SQ
  }

  lemma CoordinateBound(d: Vec2)
    ensures Dot(d, d) < MIN_SEGMENT_SQ ==> Abs(d.x) < MIN_SEGMENT && Abs(d.y) < MIN_SEGMENT
  {
    assert MIN_SEGMENT * MIN_SEGMENT == MIN_SEGMENT_SQ;
    assert Abs(d.x) * Abs(d.x) == d.x * d.x && Abs(d.y) * Abs(d.y) == d.y * d.y;
    assert d.x * d.x >= 0.0 && d.y * d.y >= 0.0;
    SquareMonotonic(Abs(d.x), MIN_SEGMENT);
    SquareMonotonic(Abs(d.y), MIN_SEGMENT);
  }

  /** Comparing squared distances with 1e-8 is comparing distances with 1e-4. */
  lemma TooShortIsDistance(start: Vec2, point: Vec2, dist: real)
    requires IsSqrt(dist, SqDist(point, start))
    ensures TooShort(start, point) <==> dist < MIN_SEGMENT
  {
    assert MIN_SEGMENT * MIN_SEGMENT == MIN_SEGMENT_SQ;
    SquareMonotonic(dist, MIN_SEGMENT);
  }

  class WallDrawTool {
    const store: AppStore
    var startPoint: DrawStart

    constructor (store: AppStore)
      ensures this.store == store && startPoint == NotDrawing
    {
      this.store := store;
      startPoint := NotDrawing;
    }

    /** Forgets the start point and removes the preview. */
    method ResetDrawing()
      modifies this, store
      ensures startPoint == NotDrawing && store.drawingWall == null
      ensures store.walls == old(store.walls) && store.activeTool == old(store.activeTool)
      ensures store.selectedWallId == old(store.selectedWallId)
      ensures store.isLengthModalOpen == old(store.isLengthModalOpen)
      ensures store.lengthModalAxis == old(store.lengthModalAxis)
    {
      startPoint := NotDrawing;
      store.SetDrawingWall(null);
    }

    /** Leaving the wall tool abandons a drawing in progress. */
    method OnToolChange()
      modifies this, store
      ensures if old(store.activeTool) != WallTool && (old(startPoint) != NotDrawing || old(store.drawingWall) != null)
              then startPoint == NotDrawing && store.drawingWall == null
              else startPoint == old(startPoint) && store.drawingWall == old(store.drawingWall)
      ensures store.walls == old(store.walls) && store.activeTool == old(store.activeTool)
      ensures store.selectedWallId == old(store.selectedWallId)
      ensures store.isLengthModalOpen == old(store.isLengthModalOpen)
      ensures store.lengthModalAxis == old(store.lengthModalAxis)
    {
      if store.activeTool != WallTool && (startPoint != NotDrawing || store.drawingWall != null) {
        ResetDrawing();
      }
    }

    /** Escape abandons a drawing in progress; other keys do nothing. */
    method HandleKeydown(key: string)
      modifies this, store
      ensures if key == "Escape" && old(startPoint) != NotDrawing
              then startPoint == NotDrawing && store.drawingWall == null
              else startPoint == old(startPoint) && store.drawingWall == old(store.drawingWall)
      ensures store.walls == old(store.walls) && store.activeTool == old(store.activeTool)
      ensures store.selectedWallId == old(store.selectedWallId)
      ensures store.isLengthModalOpen == old(store.isLengthModalOpen)
      ensures store.lengthModalAxis == old(store.lengthModalAxis)
    {
      if key == "Escape" && startPoint != NotDrawing {
        ResetDrawing();
      }
    }

    /**
     * A click at `point`. Ignored unless the wall tool is active. The first
     * click starts a drawing with a zero-length preview; a second click too
     * close to the start is ignored; any other second click appends one wall
     * from the start to the click, never shorter than 1e-4, and ends the
     * drawing. `id` is the id the new wall receives.
     */
    method HandleClick(point: Vec2, id: string)
      modifies this, store
      ensures old(store.activeTool) != WallTool ==> unchanged(this) && unchanged(store)
      ensures old(store.activeTool) == WallTool && old(startPoint) == NotDrawing ==>
        && startPoint == DrawingFrom(point)
        && store.drawingWall != null && fresh(store.drawingWall)
        && store.drawingWall.id == id
        && store.drawingWall.startPoint == point && store.drawingWall.endPoint == point
        && store.drawingWall.thickness == DEFAULT_THICKNESS && store.drawingWall.dimension == null
        && store.walls == old(store.walls)
      ensures old(store.activeTool) == WallTool && old(startPoint).DrawingFrom? && TooShort(old(startPoint).start, point) ==>
        unchanged(this) && unchanged(store)
      ensures old(store.activeTool) == WallTool && old(startPoint).DrawingFrom? && !TooShort(old(startPoint).start, point) ==>
        && startPoint == NotDrawing && store.drawingWall == null
        && |store.walls| == |old(store.walls)| + 1
        && store.walls[..|old(store.walls)|] == old(store.walls)
        && var added := store.walls[|old(store.walls)|];
           && fresh(added) && added.id == id
           && added.startPoint == old(startPoint).start && added.endPoint == point
           && added.thickness == DEFAULT_THICKNESS && added.dimension == null
           && !TooShort(added.startPoint, added.endPoint)
      ensures store.activeTool == old(store.activeTool) && store.selectedWallId == old(store.selectedWallId)
      ensures store.isLengthModalOpen == old(store.isLengthModalOpen)
      ensures store.lengthModalAxis == old(store.lengthModalAxis)
    {
      if store.activeTool != WallTool {
        return;
      }
      match startPoint
      case NotDrawing =>
        startPoint := DrawingFrom(point);
        var preview := new Wall(id, point, point);
        store.SetDrawingWall(preview);
      case DrawingFrom(start) =>
        if TooShort(start, point) {
          return;
        }
        var wall := new Wall(id, start, point);
        store.AddWall(wall);
        ResetDrawing();
    }

    /** While drawing, the preview's end point follows the pointer; nothing else changes. */
    method HandlePointerMove(point: Vec2)
      modifies store.drawingWall
      ensures var preview := store.drawingWall;
        preview != null && store.activeTool == WallTool && startPoint != NotDrawing ==>
          && preview.endPoint == point && preview.startPoint == old(preview.startPoint)
          && preview.thickness == old(preview.thickness) && preview.dimension == old(preview.dimension)
      ensures var preview := store.drawingWall;
        preview != null && !(store.activeTool == WallTool && startPoint != NotDrawing) ==> unchanged(preview)
    {
      if store.activeTool != WallTool || startPoint == NotDrawing || store.drawingWall == null {
        return;
      }
      store.drawingWall.SetEndPoint(point);
    }
  }
}
