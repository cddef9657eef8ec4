/** The fixed 16-by-16 labyrinth the walker moves through, and its wall test. */
module Labyrinth {
  import opened Options
  import opened WallProbe

  /** Cells per side. */
  const Size: nat := 16

  /** The cell table: 0 is floor, 1 to 6 are walls of different colours. */
  const Map: Grid := [
    [1, 1, 1, 1, 1, 1, 1, 1, 1, 1, 1, 1, 1, 1, 1, 1],
    [1, 0, 0, 0, 0, 0, 0, 0, 0, 0, 0, 0, 0, 0, 0, 1],
    [1, 0, 2, 2, 0, 4, 4, 0, 3, 3, 0, 5, 5, 0, 0, 1],
    [1, 0, 2, 0, 0, 0, 0, 0, 0, 0, 0, 0, 5, 0, 6, 1],
    [1, 0, 0, 0, 1, 1, 1, 0, 1, 1, 1, 0, 0, 0, 6, 1],
    [1, 6, 0, 1, 0, 0, 0, 0, 0, 0, 0, 1, 0, 3, 6, 1],
    [1, 6, 0, 1, 0, 2, 2, 0, 5, 5, 0, 1, 0, 3, 0, 1],
    [1, 0, 0, 1, 0, 2, 0, 0, 0, 5, 0, 1, 0, 0, 0, 1],
    [1, 0, 4, 0, 0, 0, 0, 1, 0, 0, 0, 0, 4, 0, 1, 1],
    [1, 0, 4, 0, 3, 0, 0, 0, 0, 0, 3, 0, 4, 0, 0, 1],
    [1, 0, 0, 0, 3, 3, 0, 6, 6, 0, 3, 0, 0, 0, 2, 1],
    [1, 2, 0, 5, 0, 0, 0, 6, 6, 0, 0, 0, 5, 0, 2, 1],
    [1, 2, 0, 5, 5, 0, 0, 0, 0, 0, 0, 5, 5, 0, 0, 1],
    [1, 0, 0, 0, 0, 0, 0, 0, 0, 0, 0, 0, 0, 0, 0, 1],
    [1, 0, 1, 1, 0, 1, 1, 0, 1, 1, 0, 1, 1, 0, 0, 1],
    [1, 1, 1, 1, 1, 1, 1, 1, 1, 1, 1, 1, 1, 1, 1, 1]
  ]

  /** Whether the walker at (x, z) touches a wall of the labyrinth. */
  function IsWall(x: real, z: real): (r: bool)
    ensures r <==> exists i :: 0 <= i < 8 && Blocked(Map, Probes(x, z)[i])
  {
    IsWallIn(Map, x, z)
  }

  /** The table is Size by Size and its outermost ring is all wall. */
  lemma MapIsWalled()
    ensures Walled(Map, Size)
  {
    forall row, col | 0 <= row < Size && 0 <= col < Size && OnBorder(Size, row, col)
      ensures Map[row][col] != 0
    {
      if row == 0 {
        assert Map[0] == seq(16, _ => 1);
      } else if row == Size - 1 {
        assert Map[15] == seq(16, _ => 1);
      } else {
        assert Map[row][0] == 1 && Map[row][15] == 1 by {
          assert row in {1, 2, 3, 4, 5, 6, 7, 8, 9, 10, 11, 12, 13, 14};
        }
      }
    }
  }

  /** A position off the wall stands on floor and keeps 0.15 away from the outer ring. */
  lemma FreePositionIsOnFloor(x: real, z: real)
    requires !IsWall(x, z)
    ensures 1.15 <= x < 14.85 && 1.15 <= z < 14.85
    ensures Map[z.Floor][x.Floor] == 0
  {
    FreePositionCellIsEmpty(Map, x, z);
    MapIsWalled();
    FreePositionStaysInside(Map, Size, x, z);
  }

  /** The walker's starting point (1.5, 1.5) is not in a wall. */
  lemma StartIsFree()
    ensures !IsWall(1.5, 1.5)
  {
    var ps := Probes(1.5, 1.5);
    forall i | 0 <= i < 8
      ensures !Blocked(Map, ps[i])
    {
      assert ps[i].0.Floor == 1 && ps[i].1.Floor == 1;
    }
  }
}
