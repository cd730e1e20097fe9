/**
 * The editor's application state (src/store/AppStore.ts): the list of walls,
 * the active tool, the selected wall, the wall being drawn and the
 * length-entry dialog.
 */
module Store {
  import opened Geometry
  import opened DimensionState
  import opened WallState

  /** `"select" | "wall" | "dimension"`. */
  datatype ActiveTool = SelectTool | WallTool | DimensionTool

  /** `string | null`: the id of the selected wall, if any. */
  datatype Selection = NoSelection | Selected(id: string)

  /**
   * Index of the first wall with the given id, or -1 when there is none
   * (the search behind `Array.prototype.find`).
   */
  function FindIndex(walls: seq<Wall>, id: string): (k: int)
    ensures -1 <= k < |walls|
    ensures k >= 0 ==> walls[k].id == id
    ensures k >= 0 ==> forall j :: 0 <= j < k ==> walls[j].id != id
    ensures k == -1 <==> forall j :: 0 <= j < |walls| ==> walls[j].id != id
    decreases |walls|
  {
    if |walls| == 0 then -1
    else if walls[0].id == id then 0
    else
      var k := FindIndex(walls[1..], id);
      assert forall j :: 1 <= j < |walls| ==> walls[j] == walls[1..][j - 1];
      if k == -1 then -1 else k + 1
  }

  /** `walls.filter((w) => w.id !== id)`. */
  function RemoveById(walls: seq<Wall>, id: string): (r: seq<Wall>)
    ensures |r| <= |walls|
    ensures forall i :: 0 <= i < |r| ==> r[i] in walls && r[i].id != id
    ensures forall i :: 0 <= i < |walls| && walls[i].id != id ==> walls[i] in r
    decreases |walls|
  {
    if |walls| == 0 then []
    else if walls[0].id == id then RemoveById(walls[1..], id)
    else [walls[0]] + RemoveById(walls[1..], id)
  }

  /** Filtering distributes over concatenation, so the kept walls keep their order. */
  lemma {:induction false} RemoveByIdConcat(a: seq<Wall>, b: seq<Wall>, id: string)
    ensures RemoveById(a + b, id) == RemoveById(a, id) + RemoveById(b, id)
    decreases |a|
  {
    if |a| == 0 {
      assert a + b == b;
    } else {
      assert (a + b)[1..] == a[1..] + b;
      RemoveByIdConcat(a[1..], b, id);
    }
  }

  /** Deleting an id no wall carries changes nothing. */
  lemma {:induction false} RemoveAbsentId(walls: seq<Wall>, id: string)
    requires forall j :: 0 <= j < |walls| ==> walls[j].id != id
    ensures RemoveById(walls, id) == walls
    decreases |walls|
  {
    if |walls| > 0 {
      RemoveAbsentId(walls[1..], id);
      assert [walls[0]] + walls[1..] == walls;
    }
  }

  class AppStore {
    var walls: seq<Wall>
    var activeTool: ActiveTool
    var selectedWallId: Selection
    var drawingWall: Wall?
    var isLengthModalOpen: bool
    var lengthModalAxis: LockedAxis

    /**
     * The editor fills the list with 50 random walls; here the initial
     * walls are given.
     */
    constructor (seedWalls: seq<Wall>)
      ensures walls == seedWalls && activeTool == SelectTool && selectedWallId == NoSelection
      ensures drawingWall == null && !isLengthModalOpen && lengthModalAxis == None
    {
      walls := seedWalls;
      activeTool := SelectTool;
      selectedWallId := NoSelection;
      drawingWall := null;
      isLengthModalOpen := false;
      lengthModalAxis := None;
    }

    /**
     * Any tool but select drops the selection; the wall tool also closes the
     * length dialog.
     */
    method SetActiveTool(tool: ActiveTool)
      modifies this
      ensures activeTool == tool
      ensures selectedWallId == if tool != SelectTool then NoSelection else old(selectedWallId)
      ensures isLengthModalOpen == if tool == WallTool then false else old(isLengthModalOpen)
      ensures walls == old(walls) && drawingWall == old(drawingWall)
      ensures lengthModalAxis == old(lengthModalAxis)
    {
      activeTool := tool;
      if tool != SelectTool {
        selectedWallId := NoSelection;
      }
      if tool == WallTool {
        CloseLengthModal();
      }
    }

    method AddWall(wall: Wall)
      modifies this
      ensures walls == old(walls) + [wall]
      ensures activeTool == old(activeTool) && selectedWallId == old(selectedWallId)
      ensures drawingWall == old(drawingWall) && isLengthModalOpen == old(isLengthModalOpen)
      ensures lengthModalAxis == old(lengthModalAxis)
    {
      walls := walls + [wall];
    }

    method SetSelectedWallId(id: Selection)
      modifies this
      ensures selectedWallId == id
      ensures walls == old(walls) && activeTool == old(activeTool)
      ensures drawingWall == old(drawingWall) && isLengthModalOpen == old(isLengthModalOpen)
      ensures lengthModalAxis == old(lengthModalAxis)
    {
      selectedWallId := id;
    }

    method SetDrawingWall(wall: Wall?)
      modifies this
      ensures drawingWall == wall
      ensures walls == old(walls) && activeTool == old(activeTool)
      ensures selectedWallId == old(selectedWallId) && isLengthModalOpen == old(isLengthModalOpen)
      ensures lengthModalAxis == old(lengthModalAxis)
    {
      drawingWall := wall;
    }

    /** Selects the wall and opens the dialog on the given axis (`none` by default). */
    method OpenLengthModal(wallId: string, axis: LockedAxis := None)
      modifies this
      ensures selectedWallId == Selected(wallId) && lengthModalAxis == axis && isLengthModalOpen
      ensures walls == old(walls) && activeTool == old(activeTool)
      ensures drawingWall == old(drawingWall)
    {
      selectedWallId := Selected(wallId);
      lengthModalAxis := axis;
      isLengthModalOpen := true;
    }

    method CloseLengthModal()
      modifies this
      ensures !isLengthModalOpen
      ensures walls == old(walls) && activeTool == old(activeTool)
      ensures selectedWallId == old(selectedWallId) && drawingWall == old(drawingWall)
      ensures lengthModalAxis == old(lengthModalAxis)
    {
      isLengthModalOpen := false;
    }

    /** The first wall whose id is the selected id, or null. */
    function SelectedWall(): (w: Wall?)
      reads this
      ensures w != null ==> w in walls && selectedWallId == Selected(w.id)
      ensures w == null <==>
        (selectedWallId == NoSelection || forall j :: 0 <= j < |walls| ==> walls[j].id != selectedWallId.id)
      ensures w != null ==> exists k :: 0 <= k < |walls| && walls[k] == w && forall j :: 0 <= j < k ==> walls[j].id != w.id
    {
      match selectedWallId
      case NoSelection => null
      case Selected(id) =>
        var k := FindIndex(walls, id);
        if k < 0 then null else walls[k]
    }

    /**
     * The dimension of the first wall carrying the selected id, or null when
     * nothing is selected, no wall carries the id, or that wall has no
     * dimension.
     */
    function SelectedDimension(): (d: Dimension?)
      reads this, walls
      ensures d != null ==>
        exists k :: (0 <= k < |walls| && walls[k].dimension == d && selectedWallId == Selected(walls[k].id)
                     && forall j :: 0 <= j < k ==> walls[j].id != walls[k].id)
      ensures d == null <==>
        || selectedWallId == NoSelection
        || FindIndex(walls, selectedWallId.id) == -1
        || walls[FindIndex(walls, selectedWallId.id)].dimension == null
    {
      var w := SelectedWall();
      if w == null then null else w.dimension
    }

    /**
     * Removes every wall with the id; deleting the selected wall also clears
     * the selection and closes the dialog.
     */
    method DeleteWall(id: string)
      modifies this
      ensures walls == RemoveById(old(walls), id)
      ensures old(selectedWallId) == Selected(id) ==> selectedWallId == NoSelection && !isLengthModalOpen
      ensures old(selectedWallId) != Selected(id) ==>
        selectedWallId == old(selectedWallId) && isLengthModalOpen == old(isLengthModalOpen)
      ensures activeTool == old(activeTool) && drawingWall == old(drawingWall)
      ensures lengthModalAxis == old(lengthModalAxis)
    {
      walls := RemoveById(walls, id);
      if selectedWallId == Selected(id) {
        selectedWallId := NoSelection;
        CloseLengthModal();
      }
    }
  }
}
