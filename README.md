# cg-course logic, modelled in Dafny

The cg-course repository is a set of computer-graphics exercises. Most of it is
rendering glue, but a few pieces carry rules of their own. This project models
those pieces and proves what they promise:

- **Element sandbox** (`2/ts/3/src/Model`). The files are `Element.ts`,
  `ElementCreator.ts` and `ElementStore.ts`. Tiles of element types lie on a
  canvas. Dropping one tile on another looks their pair up in a fixed recipe table.
  A hit replaces both tiles with the recipe's results and adds new types to the
  list of discovered types.
  - `Elements` holds the tile record.
  - `ElementCreator` holds the table and its both-orders lookup.
  - `ElementStore` holds the store:
    - a value-level specification (`Sandbox` and the functions on it);
    - the class `Store`, whose methods update the fields `elements`, `openedTypes`
      and `count` in place and are proved to follow that specification.
  - `Decimal` models the `toString()` that turns the counter into an id.
- **Circle rasteriser** (`1/ts/3/src/CircleDrawer.ts`). This is the
  decision-variable circle loop with eight-way symmetric plotting and canvas
  clipping. The class `CircleDrawer` keeps the filled pixels as a sequence field.
  `DrawCircle` runs the source's `while` loop and is proved equal to `Plot`, which
  folds the pixel plotting over the sequence of loop states (`CircleTrace`).
- **Maze wall test** (`5/1/src/Labyrinth.ts`, `5/1/src/Maze.ts`).
  - `WallProbe` states the eight-probe, floor-and-lookup rule over any grid.
  - `Labyrinth` applies it to the constant 16×16 map.
  - `Maze` applies it to `getFixedMaze`, which is proved to be the same table.
- **Players**:
  - `StrafingPlayer` (`5/1/src/Player.ts`): four directions, and collision that
    slides along walls.
  - `ForwardPlayer` (`4/2/src/Player.ts`): forward only; a move is all or nothing.
  - `PitchingPlayer` (`4/3/src/Player.ts`): adds a clamped pitch and a fixed height.

  Each player is a class with a `position` array that its methods update in place.
- **Image documents**:
  - `DragDocument` (`2/ts/1/src/main.ts`): the drag state machine. The topmost
    picture under the pointer is grabbed and follows the pointer with its grab offset.
  - `DrawDocument` (`2/ts/2/src/main.ts`): free-hand drawing clipped to the
    sheet, and the tool-bar button dispatch.

JavaScript numbers are modelled as exact `real`s, except in the circle
rasteriser, where they are `int`s. The source's trigonometry (`Math.cos`,
`Math.sin`) and its wall test are passed to the players as function parameters.

Some behaviour of the code is easy to misread; the model follows the code:

- Combination results are placed starting from the moved tile and stepping *away*
  from the other tile, not between the two (`ResultsStepAwayFromPartner`).
- The overlap test checks only the other tile's four corners against the moved
  tile's closed rectangle. For tiles of one size this is exactly rectangle
  intersection (`CornerInsideIsIntersection`). For tiles of different sizes it is
  not (`CornerTestMissesSmallerMovedTile`).
- `getCount` returns the number of live tiles, not the id counter.
- Result tiles are not checked against the canvas (`ResultCanLeaveCanvas`).

## Model

| member | source | states |
|---|---|---|
| Decimal.NatToStringShape | 2/ts/3/src/Model/ElementStore.ts:31 | the decimal rendering of a counter value is non-empty, all digits, and one character exactly below 10 |
| Decimal.NatToStringInjective | 2/ts/3/src/Model/ElementStore.ts:31 | distinct counter values render to distinct id strings |
| Elements.NewElement | 2/ts/3/src/Model/Element.ts:14-20 | the stored id is "Elt" followed by the given id; the type, position and size are kept as given |
| Elements.NewElementIdInjective | 2/ts/3/src/Model/Element.ts:15 | two constructed elements share a stored id only if they were given the same id |
| Elements.NewElementDefaults | 2/ts/3/src/Model/Element.ts:14-20 | omitted left, top, width and height default to 0 |
| Elements.Moved | 2/ts/3/src/Model/Element.ts:4-9 | moving a tile changes left and top only; id, type, width and height are unchanged |
| ElementCreator.KeyInjective | 2/ts/3/src/Model/ElementCreator.ts:44-45 | for type names without '-', the string key first-second determines the ordered pair, so a pair key is faithful |
| ElementCreator.CreateNewElement | 2/ts/3/src/Model/ElementCreator.ts:43-56 | the entry for first-second if the table has one, else the entry for second-first, else none |
| ElementCreator.NoPairInBothOrders | 2/ts/3/src/Model/ElementCreator.ts:5-40 | no pair of different types is listed in both orders |
| ElementCreator.CreateNewElementSymmetric | 2/ts/3/src/Model/ElementCreator.ts:43-56 | the lookup gives the same answer for (a, b) and (b, a) |
| ElementCreator.StoredShape | 2/ts/3/src/Model/ElementCreator.ts:5-40 | every stored result list is non-empty, and the only one with more than one type is gunpowder-fire's [explosion, smoke] |
| ElementCreator.CreateNewElementNonEmpty | 2/ts/3/src/Model/ElementCreator.ts:43-56 | whenever the lookup answers, it answers with at least one type |
| ElementCreator.OnlyGunpowderFireHasTwoResults | 2/ts/3/src/Model/ElementCreator.ts:23 | gunpowder with fire gives [explosion, smoke] in that order, and it is the only pair, in either order, with more than one result |
| ElementCreator.SteamRecipes | 2/ts/3/src/Model/ElementCreator.ts:13-15 | water with fire gives [steam] in either order; water with steam has no recipe in either order |
| ElementCreator.SameTypeRecipes | 2/ts/3/src/Model/ElementCreator.ts:5-40 | a type combines with itself exactly for earth, air, water, sea and sand, giving pressure, pressure, sea, ocean and desert |
| ElementStore.IssuedBelowMore | 2/ts/3/src/Model/ElementStore.ts:87 | an id issued below one counter value stays issued as the counter grows |
| ElementStore.FreshIdIsUnused | 2/ts/3/src/Model/ElementStore.ts:87 | an id the counter issues at or after its current value belongs to no live tile |
| ElementStore.InitialTiles | 2/ts/3/src/Model/ElementStore.ts:8-65 | a new store holds fire, water, earth and air with ids "0" to "3", has counter 4, and has discovered [water, fire, air, earth] |
| ElementStore.InitialIsWellFormed | 2/ts/3/src/Model/ElementStore.ts:6-65 | the initial state satisfies the store invariant: unique ids issued by the counter, store-sized tiles, a discovered list that starts with the four base types and has no repeats |
| ElementStore.FindIndex | 2/ts/3/src/Model/ElementStore.ts:121-131 | the index of the first tile with the id, or none exactly when no tile has it |
| ElementStore.WithoutMembers | 2/ts/3/src/Model/ElementStore.ts:113-119 | the id filter keeps exactly the tiles whose id differs |
| ElementStore.WithoutAbsent | 2/ts/3/src/Model/ElementStore.ts:113-119 | filtering out an id no tile has changes nothing |
| ElementStore.WithoutRemovesOne | 2/ts/3/src/Model/ElementStore.ts:163-167 | with unique ids, filtering out tile k's id removes tile k alone and keeps the others in order |
| ElementStore.WithoutKeepsInvariant | 2/ts/3/src/Model/ElementStore.ts:163-167 | filtering keeps ids unique and issued by the counter |
| ElementStore.Deleted | 2/ts/3/src/Model/ElementStore.ts:113-119 | removal never touches the discovered list or the counter, and an unknown id leaves the state unchanged |
| ElementStore.RemoveDeletesOnlyThatTile | 2/ts/3/src/Model/ElementStore.ts:113-119 | removing a live tile leaves every other tile untouched and in order, and keeps the invariant |
| ElementStore.SpawnedSpec | 2/ts/3/src/Model/ElementStore.ts:79-97 | an undiscovered type throws and changes nothing; a discovered one appends exactly one tile of that type at the centre with a fresh id, increments the counter and keeps the invariant |
| ElementStore.CornerInsideIsIntersection | 2/ts/3/src/Model/ElementStore.ts:139-144 | for tiles of one size, the four-corner test is exactly intersection of closed rectangles and is symmetric in the two tiles |
| ElementStore.CornerTestMissesSmallerMovedTile | 2/ts/3/src/Model/ElementStore.ts:139-144 | a large tile can intersect a smaller moved tile with none of its corners inside it |
| ElementStore.FirstPartner | 2/ts/3/src/Model/ElementStore.ts:133-152 | the first tile in list order that is another tile, has a corner inside the moved one and has a non-empty recipe with it; no earlier tile qualifies |
| ElementStore.ResultTiles | 2/ts/3/src/Model/ElementStore.ts:155-187 | one result tile per result type |
| ElementStore.ResultTileAt | 2/ts/3/src/Model/ElementStore.ts:176-186 | result i has id count+i, result type i and the store's tile size |
| ElementStore.ResultTilesSpacing | 2/ts/3/src/Model/ElementStore.ts:155-159 | the first result stands one step from the moved tile, and each later one a further step |
| ElementStore.ResultsStepAwayFromPartner | 2/ts/3/src/Model/ElementStore.ts:155-159 | result i of n is (n+2+i)/(n+1) times as far from the other tile as the moved tile is, in both coordinates |
| ElementStore.DiscoverGrows | 2/ts/3/src/Model/ElementStore.ts:170-174 | the discovered list only grows (the old list is a prefix), never repeats a type, and gains exactly the result types not already present |
| ElementStore.DiscoverStep | 2/ts/3/src/Model/ElementStore.ts:171-173 | one more result type is appended exactly when it is not yet discovered |
| ElementStore.ResultTilesFresh | 2/ts/3/src/Model/ElementStore.ts:176-186 | the result tiles have distinct ids issued by the counter that clash with no remaining tile |
| ElementStore.CombinedKeepsInvariant | 2/ts/3/src/Model/ElementStore.ts:154-187 | a combination keeps the store invariant |
| ElementStore.CombinedLiveCount | 2/ts/3/src/Model/ElementStore.ts:161-184 | combining two live tiles into n results changes the live count by n - 2 |
| ElementStore.CombinedDropsInputs | 2/ts/3/src/Model/ElementStore.ts:161-184 | after combining two live tiles, no tile carries either input's id |
| ElementStore.RepositionedSpec | 2/ts/3/src/Model/ElementStore.ts:99-111 | a move throws exactly on an unknown id or a position off the canvas, and then changes nothing; a move that fires nothing moves only that tile; one that fires changes the live count by n - 2 and the counter by n; the invariant holds afterwards |
| ElementStore.ResultCanLeaveCanvas | 2/ts/3/src/Model/ElementStore.ts:155-187 | fire dropped at the canvas edge onto water yields steam at x = -20, off the canvas |
| ElementStore.Store.constructor | 2/ts/3/src/Model/ElementStore.ts:21-65 | the fields hold the initial state and the invariant holds |
| ElementStore.Store.GetOpenedElts | 2/ts/3/src/Model/ElementStore.ts:67-69 | the discovered list, which starts with the four base types and has no repeats |
| ElementStore.Store.GetElements | 2/ts/3/src/Model/ElementStore.ts:71-73 | the live tiles, whose ids are unique |
| ElementStore.Store.GetCount | 2/ts/3/src/Model/ElementStore.ts:75-77 | the number of live tiles |
| ElementStore.Store.AddElement | 2/ts/3/src/Model/ElementStore.ts:79-97 | outcome and new state are those of Spawned; the invariant is kept |
| ElementStore.Store.SetNewPosition | 2/ts/3/src/Model/ElementStore.ts:99-111 | outcome and new state are those of Repositioned; the invariant is kept |
| ElementStore.Store.Remove | 2/ts/3/src/Model/ElementStore.ts:113-119 | the new state is that of Deleted; the invariant is kept |
| ElementStore.Store.CheckAndCombineElements | 2/ts/3/src/Model/ElementStore.ts:133-152 | the scan combines with the first partner, if any, and stops |
| ElementStore.Store.CreateElement | 2/ts/3/src/Model/ElementStore.ts:154-187 | both inputs are deleted, the result tiles are appended, new types are discovered and the counter advances by n |
| CircleDrawing.Next | 1/ts/3/src/CircleDrawer.ts:19-26 | x grows by one; y drops by one exactly when d > 0; d follows the two update rules with the new x and y |
| CircleDrawing.TraceShape | 1/ts/3/src/CircleDrawer.ts:17-27 | the loop visits x, x+1, … with y never increasing and never below x, for at most y-x+1 passes, and not at all when y < x |
| CircleDrawing.CircleTraceBounds | 1/ts/3/src/CircleDrawer.ts:11-17 | a negative radius runs no pass; otherwise 1 to radius+1 passes, starting at (0, radius), with pass i at x = i and i <= y <= radius |
| CircleDrawing.FirstPassPlotsAxes | 1/ts/3/src/CircleDrawer.ts:11-18 | the first pass plots (cx, cy ± r) and (cx ± r, cy) |
| CircleDrawing.NextKeepsDecision | 1/ts/3/src/CircleDrawer.ts:21-26 | one update keeps d equal to the closed form Decision(x, y, r) = 2x² + 8x + 2y² - 6y + 3 + 4r - 2r² of the new state |
| CircleDrawing.TraceKeepsDecision | 1/ts/3/src/CircleDrawer.ts:17-27 | every pass keeps d equal to Decision(x, y, r) |
| CircleDrawing.CircleDecisionClosedForm | 1/ts/3/src/CircleDrawer.ts:11-27 | from the initial d = 3 - 2r, every pass's d is Decision(x, y, r) |
| CircleDrawing.OctantsSymmetric | 1/ts/3/src/CircleDrawer.ts:30-39 | each of the eight points is (cx ± x, cy ± y) or (cx ± y, cy ± x), and the set is closed under mirroring left-right, top-bottom and across the diagonal |
| CircleDrawing.PlotOnePass | 1/ts/3/src/CircleDrawer.ts:17-27 | one pass of the loop paints the eight points and continues from the next state |
| CircleDrawing.FilledAppends | 1/ts/3/src/CircleDrawer.ts:41-45 | a point is added to the canvas exactly when it is inside it; nothing else changes |
| CircleDrawing.PaintedAddsClippedOctants | 1/ts/3/src/CircleDrawer.ts:30-39 | one call adds exactly those of the eight symmetric points that are inside the canvas, after the old pixels |
| CircleDrawing.PlotInside | 1/ts/3/src/CircleDrawer.ts:41-49 | plotting never fills a pixel outside the canvas |
| CircleDrawing.CircleDrawer.constructor | 1/ts/3/src/CircleDrawer.ts:5-8 | the canvas size is kept and nothing is filled |
| CircleDrawing.CircleDrawer.IsPointInsideCanvas | 1/ts/3/src/CircleDrawer.ts:47-49 | true iff 0 <= x < width and 0 <= y < height |
| CircleDrawing.CircleDrawer.DrawPoint | 1/ts/3/src/CircleDrawer.ts:41-45 | the pixel is filled exactly when it is inside the canvas |
| CircleDrawing.CircleDrawer.DrawCirclePoints | 1/ts/3/src/CircleDrawer.ts:30-39 | the eight symmetric points are painted, clipped, in the source's order |
| CircleDrawing.CircleDrawer.DrawCircle | 1/ts/3/src/CircleDrawer.ts:10-28 | the filled pixels are those of Plot over the whole loop trace, and all lie inside the canvas |
| WallProbe.Lookup | 5/1/src/Labyrinth.ts:41-43 | a cell value exactly when row and column are in the table |
| WallProbe.AnyBlocked | 5/1/src/Labyrinth.ts:40-44 | true iff some probe lands on a missing or nonzero cell |
| WallProbe.IsWallIn | 5/1/src/Labyrinth.ts:26-45 | true iff one of the eight ±0.15 probes has a floored cell that is missing or nonzero |
| WallProbe.FreePositionCellIsEmpty | 5/1/src/Labyrinth.ts:29-43 | a position that is not a wall stands on a cell of value 0 |
| WallProbe.OffTableIsWall | 5/1/src/Labyrinth.ts:43 | a position whose probes leave the table at the low x, low z or high z side is a wall |
| WallProbe.FreePositionStaysInside | 5/1/src/Labyrinth.ts:26-45 | in an n×n grid with a nonzero border, a free position lies in [1.15, n-1.15) on both axes |
| Labyrinth.IsWall | 5/1/src/Labyrinth.ts:26-45 | true iff one of the eight probes is blocked in the constant map |
| Labyrinth.MapIsWalled | 5/1/src/Labyrinth.ts:3-24 | the map is 16×16 and its border rows and columns are nonzero |
| Labyrinth.FreePositionIsOnFloor | 5/1/src/Labyrinth.ts:26-45 | a free position lies in [1.15, 14.85) on both axes and on a cell of value 0 |
| Labyrinth.StartIsFree | 5/1/src/Labyrinth.ts:26-44 | (1.5, 1.5) is not a wall |
| Maze.FixedMaze | 5/1/src/Maze.ts:31-50 | the fixed maze is the labyrinth's map, with 16 rows |
| Maze.IsWall | 5/1/src/Maze.ts:10-29 | the maze's test agrees with the labyrinth's at every position |
| Maze.FreePositionIsOnFloor | 5/1/src/Maze.ts:13-28 | a free position's cell grid[floor(z)][floor(x)] exists and is 0 |
| Maze.FreePositionStaysInMaze | 5/1/src/Maze.ts:5-29 | the maze has a nonzero border and a free position lies in [1.15, 14.85) on both axes |
| StrafingPlayer.Target | 5/1/src/Player.ts:25-54 | forward (x+ck, z+sk), backward (x-ck, z-sk), left (x+sk, z-ck), right (x-sk, z+ck) |
| StrafingPlayer.StepGeometry | 5/1/src/Player.ts:25-54 | each step has length² (c²+s²)k², and sideways steps are perpendicular to the facing |
| StrafingPlayer.Resolved | 5/1/src/Player.ts:69-80 | each coordinate ends at its old or its proposed value |
| StrafingPlayer.FreeTargetIsReached | 5/1/src/Player.ts:70-79 | a free target is reached exactly |
| StrafingPlayer.BlockedTargetSlides | 5/1/src/Player.ts:70-79 | for a blocked target: slide along z if (x, nextZ) is free, else along x if (nextX, z) is free, else stay |
| StrafingPlayer.ResolvedIsOldOrFree | 5/1/src/Player.ts:69-80 | the walker either stays put or ends on a free position |
| StrafingPlayer.WalkerStaysOnFloor | 5/1/src/Player.ts:69-80 | in the labyrinth, a walker starting free stays free, inside [1.15, 14.85) and on a floor cell |
| StrafingPlayer.Player.constructor | 5/1/src/Player.ts:17-22 | position (1.5, 0.5, 1.5), direction 0, speed 3, rotation speed 2 |
| StrafingPlayer.Player.MoveTo | 5/1/src/Player.ts:24-56 | the position becomes Resolved of the direction's Target; the height is untouched |
| StrafingPlayer.Player.RotateTo | 5/1/src/Player.ts:58-67 | forward and backward keep the direction; left subtracts and right adds rotationSpeed·dt |
| StrafingPlayer.Player.UpdatePosition | 5/1/src/Player.ts:69-80 | the three sequential checks give Resolved; the height is untouched |
| ForwardPlayer.Stepped | 4/2/src/Player.ts:27-32 | the player ends at the target exactly when the target is free or is where it already stands, and otherwise stays |
| ForwardPlayer.SteppedAgainstSliding | 4/2/src/Player.ts:27-32 | this rule agrees with the sliding rule when the target is free or both slides are blocked, and also ends at the old or a free position |
| ForwardPlayer.Player.constructor | 4/2/src/Player.ts:10-15 | position (1.5, 2.5, 1.5), direction 0, speed 1, rotation speed 1.5 |
| ForwardPlayer.Player.MoveForward | 4/2/src/Player.ts:17-21 | proposes (x + c·speed·dt, z + s·speed·dt) and moves all or nothing; the height is untouched |
| ForwardPlayer.Player.Rotate | 4/2/src/Player.ts:23-25 | direction grows by rotationSpeed·dt |
| ForwardPlayer.Player.UpdatePosition | 4/2/src/Player.ts:27-32 | both coordinates move or neither, by the wall test at the target |
| PitchingPlayer.Clamp | 4/3/src/Player.ts:32 | the result lies in [lo, hi], equals v inside it and the nearer bound outside it |
| PitchingPlayer.NextPitch | 4/3/src/Player.ts:30-33 | the new pitch lies in [-π/2+0.1, π/2-0.1] |
| PitchingPlayer.NextPitchSettles | 4/3/src/Player.ts:30-33 | adding 0 keeps an in-range pitch; a sum below or above the range goes to that bound |
| PitchingPlayer.Stepped | 4/3/src/Player.ts:35-40 | the player ends at the target exactly when the wall test at (nextX, y, nextZ) is false or the target is where it already stands, and otherwise stays |
| PitchingPlayer.Player.constructor | 4/3/src/Player.ts:10-18 | position (1.5, 2.5, 1.5) with y = 2.5, direction 0, pitch 0, speed 1, rotation speed 1.5 |
| PitchingPlayer.Player.MoveForward | 4/3/src/Player.ts:20-24 | proposes the forward target and moves all or nothing at height y |
| PitchingPlayer.Player.Rotate | 4/3/src/Player.ts:26-28 | direction grows by rotationSpeed·dt and the pitch is kept |
| PitchingPlayer.Player.SetPitch | 4/3/src/Player.ts:30-33 | the pitch becomes the clamped sum, within range; the direction is kept |
| PitchingPlayer.Player.UpdatePosition | 4/3/src/Player.ts:35-40 | both coordinates move or neither; the height stays y |
| DragDocument.Empty | 2/ts/1/src/main.ts:18-21 | a new document has no pictures and is not dragging |
| DragDocument.TopmostHit | 2/ts/1/src/main.ts:38-48 | the highest-index picture whose closed rectangle holds the point; none when no picture does |
| DragDocument.StartedDragSpec | 2/ts/1/src/main.ts:37-56 | on a hit, drag the topmost picture and record the grab offset (x - img.x, y - img.y); on a miss, change nothing |
| DragDocument.DraggedToSpec | 2/ts/1/src/main.ts:58-65 | dragging moves at most the held picture, keeps the list length and drag state, and does nothing when not dragging |
| DragDocument.DragFollowsPointer | 2/ts/1/src/main.ts:37-65 | after grabbing at (x0, y0) and dragging to (x1, y1), the picture is translated by (x1-x0, y1-y0) and no other picture moves |
| DragDocument.EndedAndLoadedKeepWellFormed | 2/ts/1/src/main.ts:24-35 | ending a drag clears it and keeps the pictures; loading pushes one picture on top and keeps the rest |
| DragDocument.ImageDocument.constructor | 2/ts/1/src/main.ts:18-21 | the empty document |
| DragDocument.ImageDocument.LoadImage | 2/ts/1/src/main.ts:24-35 | the state becomes Loaded: the picture is pushed at (0, 0) |
| DragDocument.ImageDocument.StartDrag | 2/ts/1/src/main.ts:37-56 | the downward scan ends in the state StartedDrag |
| DragDocument.ImageDocument.Drag | 2/ts/1/src/main.ts:58-65 | the state becomes DraggedTo |
| DragDocument.ImageDocument.EndDrag | 2/ts/1/src/main.ts:67-70 | the state becomes EndedDrag |
| DragDocument.ImageDocument.IsDrag | 2/ts/1/src/main.ts:72-74 | returns isDragging, which holds exactly when a picture is held |
| DragDocument.TopmostIsFirstHitFromTop | 2/ts/1/src/main.ts:38-53 | the first hit found scanning down from the top is TopmostHit |
| DragDocument.NoHitFromTop | 2/ts/1/src/main.ts:38-55 | a scan that finds nothing agrees with TopmostHit being none |
| DrawDocument.DrewSpec | 2/ts/2/src/main.ts:70-89 | when not drawing, nothing changes; otherwise the last point becomes (x, y), and a stroke from the previous last point is added exactly when (x, y) is on the sheet |
| DrawDocument.StrokesJoin | 2/ts/2/src/main.ts:64-89 | pressing and then drawing through two on-sheet points adds two joined strokes |
| DrawDocument.ReentryStrokeStartsOffSheet | 2/ts/2/src/main.ts:70-89 | after leaving the sheet and coming back, the first new stroke starts at the off-sheet point |
| DrawDocument.FirstHit | 2/ts/2/src/main.ts:199-209 | the first button in list order whose closed rectangle holds the point; none when no button does |
| DrawDocument.ButtonsDoNotOverlap | 2/ts/2/src/main.ts:132-175 | no point lies on two tool-bar buttons |
| DrawDocument.Click | 2/ts/2/src/main.ts:199-209 | the loop fires FirstHit, and the fired button is the only one under the point |
| DrawDocument.FirstHitIsFirstFound | 2/ts/2/src/main.ts:199-209 | a forward scan's answer is FirstHit |
| DrawDocument.ImageDocument.constructor | 2/ts/2/src/main.ts:2-17 | the sheet at the initial position with the given size; not drawing, black, no strokes, no images |
| DrawDocument.ImageDocument.PlaceImage | 2/ts/2/src/main.ts:33 | one image is pushed at the initial position; the pen is unchanged |
| DrawDocument.ImageDocument.SetDrawingColor | 2/ts/2/src/main.ts:19-21 | only the colour changes |
| DrawDocument.ImageDocument.StartDrawing | 2/ts/2/src/main.ts:64-68 | drawing starts with (x, y) as the last point |
| DrawDocument.ImageDocument.Draw | 2/ts/2/src/main.ts:70-89 | the pen becomes Drew over the sheet |
| DrawDocument.ImageDocument.EndDrawing | 2/ts/2/src/main.ts:91-93 | only isDrawing is cleared |
| DrawDocument.ImageDocument.IsDraw | 2/ts/2/src/main.ts:95-97 | true iff drawing and at least one image exists |

## Left out

- JavaScript numbers are IEEE doubles, and the players' `vec3` holds 32-bit floats. The model uses exact reals, so no rounding is modelled in positions, steps, offsets or the probe floors.
- The id counter is an unbounded natural. In the source it is a double, so `_count++` keeps ids unique and in plain decimal only below 2^53; `FreshIdIsUnused` and the unique-ids part of the store invariant hold for the model's counter.
- The canvas and tile sizes are public, writable fields in the source; the model fixes them at construction, which the store-sized-tiles part of the invariant relies on.
- `ElementType.ts` is not part of this model, so the enum's string values are unknown. Recipe keys are ordered pairs of types; `KeyInjective` shows this agrees with the string key for names without '-'.
- ElementCreator.Stored: the number of entries (36) is not stated as a property. It is one match case per table line, and Dafny reports a repeated case as redundant.
- The commented-out observer callbacks and the dead observer code at the end of `createElement` are not modelled.
- `getElement` is not modelled as a separate member. `FindIndex` plus the `UnknownId` error stand for it and `tryGetElement`.
- Tiles and pictures are values: the model does not capture that `getElements` hands out the live array, or that callers could mutate tiles through it.
- Canvas drawing (`fillRect`, strokes), DOM events, `FileReader`/`Image` loading, observers, button actions, `saveImage` and rendering are not modelled. Strokes are recorded as segments, and pictures are reduced to their rectangles.
- `Math.cos`/`Math.sin` and the labyrinth object are passed to the players as function parameters.
- The 4/x labyrinth (`isWall(x, y, z)` in 4/3) is not part of this model; its wall test stays a parameter.
- The circle rasteriser is modelled for integer centre and radius only. Non-integer arguments are not modelled.
- DrawDocument.ImageDocument.Draw: the `mousemove` handler's `isDraw()` gate lives in the view and is not modelled; `Draw` is the document method alone.
- Speed and rotation speed are constant fields in the players, because no source method assigns them.
- The window-derived initial position of the drawing document (`window.innerWidth / 3 - 100`) is a constructor parameter.
- `loadImage` and `createNewImage` in the drawing document are both `PlaceImage`: each pushes one image at the initial position once it has loaded.
