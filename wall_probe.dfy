/**
 * The eight-probe wall test shared by the labyrinth and the maze of the
 * first-person walker: a position counts as inside a wall when any of eight
 * points 0.15 around it falls on a grid cell that is not 0 or that does not
 * exist.
 */
module WallProbe {
  import opened Options

  /** A table of cells, indexed row (z) first, then column (x); 0 is an empty cell. */
  type Grid = seq<seq<int>>

  /** How far from the position each probe point lies, along x, z or both. */
  const Buffer: real := 0.15

  /** `grid[row]?.[col]`: the cell, or nothing when the row or the column is missing. */
  function Lookup(grid: Grid, col: int, row: int): (r: Option<int>)
    ensures r.Some? <==> 0 <= row < |grid| && 0 <= col < |grid[row]|
    ensures r.Some? ==> r.value == grid[row][col]
  {
    if 0 <= row < |grid| && 0 <= col < |grid[row]| then Some(grid[row][col]) else None
  }

  /** A probe point is blocked unless its cell exists and holds exactly 0. */
  predicate Blocked(grid: Grid, p: (real, real))
  {
    Lookup(grid, p.0.Floor, p.1.Floor) != Some(0)
  }

  /** The probe points, in the order the walls are tested. */
  function Probes(x: real, z: real): (ps: seq<(real, real)>)
    ensures |ps| == 8
  {
    [ (x + Buffer, z), (x - Buffer, z),
      (x, z + Buffer), (x, z - Buffer),
      (x + Buffer, z + Buffer), (x - Buffer, z - Buffer),
      (x + Buffer, z - Buffer), (x - Buffer, z + Buffer) ]
  }

  /** `ps.some(blocked)`, scanned front to back. */
  function AnyBlocked(grid: Grid, ps: seq<(real, real)>): (r: bool)
    ensures r <==> exists i :: 0 <= i < |ps| && Blocked(grid, ps[i])
  {
    if ps == [] then false
    else if Blocked(grid, ps[0]) then true
    else
      var rest := AnyBlocked(grid, ps[1..]);
      assert forall i :: 1 <= i < |ps| ==> ps[i] == ps[1..][i - 1];
      rest
  }

  /** Whether the position (x, z) touches a wall of `grid`. */
  function IsWallIn(grid: Grid, x: real, z: real): (r: bool)
    ensures r <==> exists i :: 0 <= i < 8 && Lookup(grid, Probes(x, z)[i].0.Floor, Probes(x, z)[i].1.Floor) != Some(0)
  {
    AnyBlocked(grid, Probes(x, z))
  }

  /**
   * The cell holding the position itself is always probed: (x + 0.15, z) or
   * (x - 0.15, z) lies in the same cell. So a position that is not in a wall
   * stands on an existing empty cell, and a nonempty cell under the position
   * is always a wall.
   */
  lemma FreePositionCellIsEmpty(grid: Grid, x: real, z: real)
    requires !IsWallIn(grid, x, z)
    ensures Lookup(grid, x.Floor, z.Floor) == Some(0)
  {
    var ps := Probes(x, z);
    assert !Blocked(grid, ps[0]) && !Blocked(grid, ps[1]);
    if x + Buffer < (x.Floor + 1) as real {
      assert (x + Buffer).Floor == x.Floor;
    } else {
      assert (x - Buffer).Floor == x.Floor;
    }
  }

  /** A probe that leaves the table on the low side of either axis makes a wall. */
  lemma OffTableIsWall(grid: Grid, x: real, z: real)
    requires x < Buffer || z < Buffer || z + Buffer >= |grid| as real
    ensures IsWallIn(grid, x, z)
  {
    var ps := Probes(x, z);
    if x < Buffer {
      assert Blocked(grid, ps[1]);
    } else if z < Buffer {
      assert Blocked(grid, ps[3]);
    } else {
      assert Blocked(grid, ps[2]);
    }
  }

  /** Whether cell (row, col) is in the outermost ring of an n-by-n table. */
  predicate OnBorder(n: nat, row: int, col: int)
  {
    row == 0 || row == n - 1 || col == 0 || col == n - 1
  }

  /** An n-by-n table whose outermost rows and columns are all walls. */
  predicate Walled(grid: Grid, n: nat)
  {
    && n >= 2
    && |grid| == n
    && (forall row :: 0 <= row < n ==> |grid[row]| == n)
    && (forall row, col :: 0 <= row < n && 0 <= col < n && OnBorder(n, row, col) ==> grid[row][col] != 0)
  }

  /**
   * In a walled n-by-n table a free position keeps at least the buffer away
   * from the border cells on every side.
   */
  lemma FreePositionStaysInside(grid: Grid, n: nat, x: real, z: real)
    requires Walled(grid, n)
    requires !IsWallIn(grid, x, z)
    ensures 1.0 + Buffer <= x < (n - 1) as real - Buffer
    ensures 1.0 + Buffer <= z < (n - 1) as real - Buffer
  {
    var ps := Probes(x, z);
    assert !Blocked(grid, ps[0]) && !Blocked(grid, ps[1]);
    assert !Blocked(grid, ps[2]) && !Blocked(grid, ps[3]);
    assert 1 <= (x - Buffer).Floor;
    assert (x + Buffer).Floor < n - 1;
    assert 1 <= (z - Buffer).Floor;
    assert (z + Buffer).Floor < n - 1;
  }
}
