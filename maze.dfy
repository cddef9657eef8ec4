/** The maze: the same walker's world built from a fixed table returned by a function. */
module Maze {
  import opened WallProbe
  import Labyrinth

  /** Cells per side. */
  const Size: nat := 16

  /** The fixed maze table; it is cell for cell the labyrinth's table. */
  function FixedMaze(): (grid: Grid)
    ensures grid == Labyrinth.Map
    ensures |grid| == Size
  {
    [
      [1, 1, 1, 1, 1, 1, 1, 1, 1, 1, 1, 1, 1, 1, 1, 1],
      [1, 0, 0, 0, 0, 0, 0, 0, 0, 0, 0, 0, 0, 0, 0, 1],
      [1, 0, 2, 2, 0, 4, 4, 0, 3, 3, 0, 5, 5, 0, 0, 1],
      [1, 0, 2, 0, 0, 0, 0, 0, 0, 0, 0, 0, 5, 0, 6, 1],
      [1, 0, 0, 0, 1, 1, 1, 0, 1, 1, 1, 0, 0, 0, 6, 1],
      [1, 6, 0, 1, 0, 0, 0, 0, 0, 0, 0, 1, 0, 3, 6, 1],
      [1, 6, 0, 1, 0, 2, 2, 0, 5, 5, 0, 1, 0, 3, 0, 1],
      [1, 0, 0, 1, 0, 2, 0, 0, 0, 5, 0, 1, 0, 0, 0, 1],
      [1, 0, 4, 0, 0, 0, 0, 1, 0, 0, 0, 0, 4, 0, 1, 1],
      [1, 0, 4, 0, 3, 0, 0, 0, 0, 0, 3, 0, 4, 0, 0, 1],
      [1, 0, 0, 0, 3, 3, 0, 6, 6, 0, 3, 0, 0, 0, 2, 1],
      [1, 2, 0, 5, 0, 0, 0, 6, 6, 0, 0, 0, 5, 0, 2, 1],
      [1, 2, 0, 5, 5, 0, 0, 0, 0, 0, 0, 5, 5, 0, 0, 1],
      [1, 0, 0, 0, 0, 0, 0, 0, 0, 0, 0, 0, 0, 0, 0, 1],
      [1, 0, 1, 1, 0, 1, 1, 0, 1, 1, 0, 1, 1, 0, 0, 1],
      [1, 1, 1, 1, 1, 1, 1, 1, 1, 1, 1, 1, 1, 1, 1, 1]
    ]
  }

  /** Whether (x, z) touches a wall of the maze; the same answer as the labyrinth's. */
  function IsWall(x: real, z: real): (r: bool)
    ensures r == Labyrinth.IsWall(x, z)
  {
    IsWallIn(FixedMaze(), x, z)
  }

  /** A position off the maze's walls stands on an existing floor cell. */
  lemma FreePositionIsOnFloor(x: real, z: real)
    requires !IsWall(x, z)
    ensures 0 <= z.Floor < Size && 0 <= x.Floor < |FixedMaze()[z.Floor]|
    ensures FixedMaze()[z.Floor][x.Floor] == 0
  {
    FreePositionCellIsEmpty(FixedMaze(), x, z);
  }

  /** The maze table is walled all round, and a free position keeps 0.15 off that ring. */
  lemma FreePositionStaysInMaze(x: real, z: real)
    requires !IsWall(x, z)
    ensures Walled(FixedMaze(), Size)
    ensures 1.15 <= x < 14.85 && 1.15 <= z < 14.85
  {
    Labyrinth.MapIsWalled();
    FreePositionStaysInside(FixedMaze(), Size, x, z);
  }
}
