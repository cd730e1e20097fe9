# Dimension annotations of a floor-plan editor, in Dafny

This project models the core of a browser floor-plan editor. Walls are
segments in the plane. Each wall may carry a dimension annotation: a line
drawn beside the wall, with a tick at each end and a label giving the
wall's length. The annotation has a signed offset from the wall and can be
locked to measure only the horizontal (`x`) or vertical (`y`) extent.

The model covers:

- the `Wall` and `Dimension` records and their setters and getters;
- the derivation of the dimension line from a wall, an offset and a lock
  mode, including the 18-number buffer the renderer draws;
- the dimension view: label reading angle, zoom-dependent label scale,
  shown length, offset drag and drag state;
- the length dialog, which solves for a new end point from a typed length;
- the application store: wall list, active tool, selection, preview wall,
  dialog flags;
- the axis-lock keys and the click-to-draw wall tool.

Points are pairs of exact reals. Every z coordinate in the editor is 0, so
z is dropped, except in the position buffer, where the zeros are kept.

Square roots and arc tangents are not computed:
- A wall's length is passed in as a value `len` with `IsSqrt(len, squared
  distance)`, and `Geometry.SqrtUnique` shows this fixes it.
- A wall's angle is passed in as a value satisfying `WallState.IsAngleOf`,
  which holds the facts known about `atan2`, including `atan2(0, 0) = 0`.
- `atan2(sin b, cos b)` is modelled exactly, as `b` moved by whole turns
  into (-PI, PI].

Mutable objects are classes whose methods state their whole new state:
`Wall`, `Dimension`, `AppStore`, the dimension view and the draw tool.

Modules, one file each:

| file | module | models |
|---|---|---|
| geometry.dfy | `Geometry` | vectors, `Math.PI`, square-root facts |
| dimension.dfy | `DimensionState` | src/store/Dimension.ts |
| wall.dfy | `WallState` | src/store/Wall.ts |
| dimension_line.dfy | `DimensionLines` | src/utils/dimensionLineUtils.ts |
| app_store.dfy | `Store` | src/store/AppStore.ts |
| dimension_renderer.dfy | `DimensionRendering` | src/components/DimensionRenderer.tsx |
| length_modal.dfy | `LengthEditing` | src/components/UI/LengthModal.tsx |
| dimension_tool.dfy | `DimensionKeys` | src/components/DimensionTool.tsx |
| wall_draw_tool.dfy | `WallDrawing` | src/components/WallDrawTool.tsx |

Two details of the code shape the model:

- **Label fold range.** `getReadableParallelAngle` folds into the closed
  range [-PI/2, PI/2], so a downward vertical wall keeps -PI/2
  (`ReadableVertical`) rather than being turned to PI/2.
- **No cached points.** `Dimension` holds only an offset and a lock; it
  keeps no point list. The line is derived afresh from the wall on every
  render.

## Model

| member | source | states |
|---|---|---|
| DimensionState.LockedAxisCases | src/store/Dimension.ts:3 | a lock is `none`, `x` or `y`, and the three are distinct |
| DimensionState.Dimension.constructor | src/store/Dimension.ts:5-11 | a new dimension has offset 0.5 and no lock |
| DimensionState.Dimension.SetOffset | src/store/Dimension.ts:13-15 | sets the offset, keeps the lock |
| DimensionState.Dimension.SetLockedAxis | src/store/Dimension.ts:17-19 | sets the lock, keeps the offset's value unchanged |
| WallState.Wall.constructor | src/store/Wall.ts:6-16 | the end points are the arguments, thickness 0.2, no dimension, the given id |
| WallState.Wall.SetStartPoint | src/store/Wall.ts:18-20 | replaces the start point and nothing else |
| WallState.Wall.SetEndPoint | src/store/Wall.ts:22-24 | replaces the end point and nothing else |
| WallState.Wall.SetThickness | src/store/Wall.ts:26-28 | replaces the thickness and nothing else |
| WallState.Wall.SetDimension | src/store/Wall.ts:30-32 | replaces the dimension and nothing else |
| WallState.Wall.HasLength | src/store/Wall.ts:34-36 | a length of the wall is 0 exactly when its two ends coincide |
| WallState.LengthSymmetric | src/store/Wall.ts:34-36 | a length of the wall is a length of the reversed wall and back |
| WallState.Wall.Center | src/store/Wall.ts:38-42 | the centre is equally far from both ends along the wall |
| WallState.Wall.Direction | src/store/Wall.ts:44-48 | for positive length the direction is a unit vector and `direction * length = end - start` |
| WallState.Wall.Normal | src/store/Wall.ts:50-54 | the normal is a unit vector perpendicular to the direction, a quarter turn counter-clockwise from it |
| WallState.Wall.NormalPerpendicularToWall | src/store/Wall.ts:44-54 | the normal is perpendicular to `end - start` |
| WallState.AngleOfAxes | src/store/Wall.ts:56-59 | `atan2` of the zero vector is 0, and of the four axis directions 0, PI/2, PI and -PI/2, each as the only admissible angle |
| WallState.AngleScaleInvariant | src/store/Wall.ts:56-59 | the angle of a vector stretched by a positive factor is the angle of the vector |
| WallState.Wall.AngleFollowsEndPoints | src/store/Wall.ts:56-59 | a wall's angle is within (-PI/2, PI/2) exactly when it runs rightwards, positive when it runs upwards, negative when it runs downwards |
| DimensionLines.TickSign | src/utils/dimensionLineUtils.ts:38 | the tick sign is +1 or -1, on the offset's side, and +1 for offset 0 |
| DimensionLines.Positions | src/utils/dimensionLineUtils.ts:67-86 | 18 entries, every third one 0, holding the six points in order |
| DimensionLines.ComputeDimensionLinePoints | src/utils/dimensionLineUtils.ts:16-88 | end points under `x` (horizontal at centre height plus offset), `y` (vertical) and `none` (wall moved along the normal); the buffer lays out dimStart, dimEnd, wall start, extStart, wall end, extEnd |
| DimensionLines.ModeInvariants | src/utils/dimensionLineUtils.ts:33-59 | in every mode the centre is the middle of the line and the wall centre moved by offset along the offset axis, and both ticks are the same vector, 0.2 along that axis on the offset's side |
| DimensionLines.TickOnOffsetSide | src/utils/dimensionLineUtils.ts:33-59 | the tick points to the offset's side (positive for offset 0) and is 0.2 long when the axis is a unit vector |
| DimensionLines.FreeLineParallel | src/utils/dimensionLineUtils.ts:49-53 | a free line spans exactly the wall's vector and, for a normal perpendicular to the wall, is displaced perpendicular to it |
| DimensionLines.LineSpan | src/utils/dimensionLineUtils.ts:33-53 | an `x` line is horizontal spanning the wall's x-extent, a `y` line vertical spanning its y-extent, a free line spans the wall's own vector |
| Store.FindIndex | src/store/AppStore.ts:77-79 | the index of the first wall with the id, or -1 exactly when no wall has it |
| Store.AppStore.SelectedWall | src/store/AppStore.ts:77-79 | the first wall whose id is the selected id, or null exactly when there is no selection or no such wall |
| Store.RemoveById | src/store/AppStore.ts:81-82 | the kept walls are exactly the walls whose id differs |
| Store.RemoveByIdConcat | src/store/AppStore.ts:81-82 | the filter distributes over concatenation, so kept walls stay in order |
| Store.RemoveAbsentId | src/store/AppStore.ts:81-82 | deleting an id no wall has leaves the list as it was |
| Store.AppStore.constructor | src/store/AppStore.ts:9-20 | select tool, no selection, no preview, dialog closed on `none`, the given walls |
| Store.AppStore.SetActiveTool | src/store/AppStore.ts:45-53 | sets the tool; any tool but select clears the selection; the wall tool closes the dialog; nothing else changes |
| Store.AppStore.AddWall | src/store/AppStore.ts:55-57 | appends the wall after the existing ones; nothing else changes |
| Store.AppStore.SetSelectedWallId | src/store/AppStore.ts:59-61 | sets the selection and nothing else |
| Store.AppStore.SetDrawingWall | src/store/AppStore.ts:63-65 | sets the preview wall and nothing else |
| Store.AppStore.OpenLengthModal | src/store/AppStore.ts:67-71 | selects the wall, sets the dialog axis (`none` by default), opens the dialog |
| Store.AppStore.CloseLengthModal | src/store/AppStore.ts:73-75 | closes the dialog and nothing else |
| Store.AppStore.DeleteWall | src/store/AppStore.ts:81-87 | removes every wall with the id; deleting the selected wall clears the selection and closes the dialog, otherwise both stay |
| Store.AppStore.SelectedDimension | src/components/DimensionTool.tsx:13-14 | a non-null result is the dimension of the first wall carrying the selected id; null exactly when nothing is selected, no wall carries the id, or that first wall has no dimension |
| DimensionRendering.WrapAngle | src/components/DimensionRenderer.tsx:46 | `atan2(sin b, cos b)` lies in (-PI, PI] |
| DimensionRendering.WrapUnique | src/components/DimensionRenderer.tsx:46 | it is the only angle in (-PI, PI] a whole number of turns from b |
| DimensionRendering.WrapPeriodic | src/components/DimensionRenderer.tsx:46 | whole turns do not change it |
| DimensionRendering.WrapIdentity | src/components/DimensionRenderer.tsx:46 | angles in (-PI, PI] are kept |
| DimensionRendering.Fold | src/components/DimensionRenderer.tsx:47-48 | moves an angle by 0 or a half turn; an angle of (-PI, PI] lands in [-PI/2, PI/2], and one already there is kept |
| DimensionRendering.ReadableParallelAngle | src/components/DimensionRenderer.tsx:45-50 | the readable angle lies in [-PI/2, PI/2] and differs from the wrapped angle by 0 or a half turn |
| DimensionRendering.ReadableKeepsReadable | src/components/DimensionRenderer.tsx:45-50 | angles already in [-PI/2, PI/2] are kept |
| DimensionRendering.ReadableReversal | src/components/DimensionRenderer.tsx:45-50 | both directions of a non-vertical line get the same reading angle |
| DimensionRendering.ReadableVertical | src/components/DimensionRenderer.tsx:47-48 | PI/2 and -PI/2 are both kept, so the two directions of a vertical line read differently |
| DimensionRendering.LabelAngle | src/components/DimensionRenderer.tsx:205-212 | the label angle always lies in [-PI/2, PI/2] |
| DimensionRendering.LabelAngleOfWall | src/components/DimensionRenderer.tsx:205-212 | a free label follows a rightward wall's angle, turns a leftward wall's angle by a half turn into (-PI/2, PI/2), is PI/2 or -PI/2 for upward or downward walls, and 0 for the zero vector |
| DimensionRendering.LabelScaleFromZoom | src/components/DimensionRenderer.tsx:52-58 | the label scale always lies in [0.75, 3] |
| DimensionRendering.LabelScaleNonIncreasing | src/components/DimensionRenderer.tsx:52-58 | zooming in never enlarges the label |
| DimensionRendering.LabelScaleBands | src/components/DimensionRenderer.tsx:52-58 | scale times zoom is 75 for zooms in [25, 100]; 3 below, 0.75 above; zooms up to 0.0001 count as 0.0001 |
| DimensionRendering.OffsetFromDrag | src/components/DimensionRenderer.tsx:102-113 | locked to `x` the dragged offset is the pointer's height above the wall centre, locked to `y` its horizontal distance from it |
| DimensionRendering.DragRoundTrip | src/components/DimensionRenderer.tsx:98-114 | dragging to the current label anchor reproduces the current offset |
| DimensionRendering.DragFollowsPointer | src/components/DimensionRenderer.tsx:98-114 | after a drag the line's centre is level with the pointer along the offset axis |
| DimensionRendering.LengthValue | src/components/DimensionRenderer.tsx:198-203 | under a lock the shown number is non-negative and 0 exactly when the wall has no extent on that axis |
| DimensionRendering.LengthValueMeasuresLine | src/components/DimensionRenderer.tsx:198-203 | the shown number is the length of the drawn dimension line in every mode |
| DimensionRendering.ShownLengthAtMostWallLength | src/components/DimensionRenderer.tsx:198-203 | the shown number never exceeds the wall's length |
| DimensionRendering.DeriveLine | src/components/DimensionRenderer.tsx:116-189 | the component's inline derivation of the line and its buffer equals `ComputeDimensionLinePoints` |
| DimensionRendering.DimensionView.constructor | src/components/DimensionRenderer.tsx:65 | a view starts not dragging |
| DimensionRendering.DimensionView.PointerDown | src/components/DimensionRenderer.tsx:85-90 | starts dragging unless the wall tool is active |
| DimensionRendering.DimensionView.PointerUp | src/components/DimensionRenderer.tsx:92-96 | stops dragging |
| DimensionRendering.DimensionView.PointerMove | src/components/DimensionRenderer.tsx:98-114 | while dragging sets the offset to the pointer's projection on the offset axis and keeps the lock; otherwise changes nothing |
| DimensionRendering.DimensionView.Render | src/components/DimensionRenderer.tsx:116-213 | nothing for a wall without dimension; otherwise the line is `ComputeDimensionLinePoints` (through `DeriveLine`), and the label sits at the line's centre with the label angle, scale and shown number |
| DimensionRendering.DimensionView.LabelClick | src/components/DimensionRenderer.tsx:241-246 | a double click opens the dialog for this wall on the dimension's lock; other clicks change nothing |
| LengthEditing.SolveEndPoint | src/components/UI/LengthModal.tsx:37-55 | rejects exactly non-numbers, negative targets, and locks whose direction component is below 1e-6 |
| LengthEditing.ApplyRoundTrip | src/components/UI/LengthModal.tsx:6-10 | after applying a target, the dialog's number for the new wall is the target: x-extent, y-extent, or (unit direction) length |
| LengthEditing.ApplyKeepsDirection | src/components/UI/LengthModal.tsx:41-55 | a positive target keeps the wall's direction and gives it a positive length |
| LengthEditing.HandleApply | src/components/UI/LengthModal.tsx:37-58 | rejected input changes neither wall nor store; otherwise only the end point moves to the solved point and the dialog closes |
| DimensionKeys.ToLower | src/components/DimensionTool.tsx:11 | same length, no upper-case letter left, each upper-case letter moved 32 code points up, every other character kept |
| DimensionKeys.ToLowerIdempotent | src/components/DimensionTool.tsx:11 | lower-casing twice is lower-casing once |
| DimensionKeys.LowerKeyIsLetter | src/components/DimensionTool.tsx:11-20 | a key reads as `x` (or `y`) exactly when it is that letter in either case |
| DimensionKeys.NextLockedAxis | src/components/DimensionTool.tsx:16-26 | `x`/`y` switch their lock on, or off when it was on; other keys clear the lock with Ctrl and keep it without |
| DimensionKeys.ToggleTwice | src/components/DimensionTool.tsx:16-23 | the same letter twice restores the lock, except from the other letter's lock, which ends unlocked |
| DimensionKeys.HandleKeyDown | src/components/DimensionTool.tsx:9-27 | changes only the selected dimension's lock, by `NextLockedAxis`, and nothing under the wall tool |
| WallDrawing.TooShort | src/components/WallDrawTool.tsx:60 | a too-close click is within 1e-4 of the start along both axes |
| WallDrawing.TooShortIsDistance | src/components/WallDrawTool.tsx:60 | the squared-distance check is the 1e-4 distance check |
| WallDrawing.WallDrawTool.constructor | src/components/WallDrawTool.tsx:10 | the tool starts not drawing |
| WallDrawing.WallDrawTool.ResetDrawing | src/components/WallDrawTool.tsx:13-16 | clears the start point and the preview, nothing else |
| WallDrawing.WallDrawTool.OnToolChange | src/components/WallDrawTool.tsx:30-37 | away from the wall tool, a drawing in progress is abandoned; otherwise nothing changes |
| WallDrawing.WallDrawTool.HandleKeydown | src/components/WallDrawTool.tsx:42-47 | Escape while drawing abandons the drawing; anything else changes nothing |
| WallDrawing.WallDrawTool.HandleClick | src/components/WallDrawTool.tsx:49-63 | ignored off the wall tool; the first click starts a zero-length preview of default thickness without dimension; a too-close second click is ignored; any other appends one wall from start to click, at least 1e-4 long, and ends the drawing |
| WallDrawing.WallDrawTool.HandlePointerMove | src/components/WallDrawTool.tsx:65-75 | while drawing, only the preview's end point follows the pointer |

## Left out

- Rendering and the DOM are not modelled: line materials, resolution sync, geometry disposal, label markup, the toolbar and overlays, the wall meshes and the batched dimension lines.
- `formatDimension` (src/utils/dimensionUtils.ts) wraps an unseen fraction library and only formats the shown number, so it is not modelled.
- The dialog's initial text rounds the length with `toFixed(2)`, and its title depends on the axis. Neither is modelled. The number itself is `DimensionRendering.LengthValue`.
- The world point under the pointer comes from three.js raycasting or unprojection. It is an input to the drag, the click and the pointer-move handlers.
- src/components/WallEndpoints.tsx is not part of this model. Its only effect is calling `SetStartPoint`/`SetEndPoint`.
- Floating point is idealised as exact reals: no rounding, no NaN or infinite coordinates. `parseFloat` gives a number or NaN; infinite values are not modelled.
- `Math.sqrt` and `Math.atan2` of the wall direction are not computed. The length and angle are inputs characterised by `IsSqrt` and `IsAngleOf`.
- WallState.Wall.Direction, WallState.Wall.Normal: only defined for a positive length. A zero-length wall's direction depends on how three.js normalises a zero vector. For such a wall, the direction, normal and angle handed to `Render`, `PointerMove` and `HandleApply` are unconstrained.
- `createSeedWalls` draws 50 walls from `Math.random`, `cos` and `sin`. The store's constructor takes the initial walls as given instead. The editor draws wall ids at random; here they are given values.
- MobX observability and React state, effect and listener lifecycles are not modelled. This includes the keydown listener that the draw tool's effect cleanup adds again instead of removing (src/components/WallDrawTool.tsx:82).
- The label scale reads `cameraZoom` from the store, which does not declare that field. The zoom is an input here.
- DimensionKeys.ToLower: only folds ASCII letters. The rest of Unicode lower-casing is left out, and cannot turn another key into `x` or `y`.
