/**
 * The walker of the labyrinth: it turns left or right, walks forward or back
 * and strafes sideways, and when the step would enter a wall it slides along
 * the wall on whichever axis is still free.
 */
module StrafingPlayer {
  import Labyrinth

  /** The four movement keys. */
  datatype Direction = Left | Right | Forward | Backward

  /**
   * The proposed position of one step. The forward step (c·k, s·k) is
   * negated for Backward; for Left and Right its components are swapped and
   * one of them negated, giving the two sideways steps.
   */
  function Target(x: real, z: real, c: real, s: real, k: real, direction: Direction): (t: (real, real))
    ensures direction == Forward ==> t == (x + c * k, z + s * k)
    ensures direction == Backward ==> t == (x - c * k, z - s * k)
    ensures direction == Left ==> t == (x + s * k, z - c * k)
    ensures direction == Right ==> t == (x - s * k, z + c * k)
  {
    var xDiff, zDiff := c * k, s * k;
    var (xScale, zScale, dx, dz) :=
      match direction
      case Forward => (1.0, 1.0, xDiff, zDiff)
      case Backward => (-1.0, -1.0, xDiff, zDiff)
      case Left => (1.0, -1.0, zDiff, xDiff)
      case Right => (-1.0, 1.0, zDiff, xDiff);
    (x + dx * xScale, z + dz * zScale)
  }

  /** Every step has the forward step's length, and a sideways step is at right angles to it. */
  lemma StepGeometry(x: real, z: real, c: real, s: real, k: real, direction: Direction)
    ensures var t := Target(x, z, c, s, k, direction);
            (t.0 - x) * (t.0 - x) + (t.1 - z) * (t.1 - z) == (c * c + s * s) * (k * k)
    ensures direction in {Left, Right} ==>
              var t := Target(x, z, c, s, k, direction);
              (t.0 - x) * (c * k) + (t.1 - z) * (s * k) == 0.0
  {
    var t := Target(x, z, c, s, k, direction);
    assert (c * k) * (c * k) + (s * k) * (s * k) == (c * c + s * s) * (k * k);
    assert (s * k) * (c * k) == (c * k) * (s * k);
  }

  /**
   * The position after the three wall checks of one step: first the whole
   * step, then only the z part from the current x, then only the x part at
   * the current z.
   */
  function Resolved(x: real, z: real, nextX: real, nextZ: real, isWall: (real, real) -> bool): (p: (real, real))
    ensures p.0 == x || p.0 == nextX
    ensures p.1 == z || p.1 == nextZ
  {
    var (x1, z1) := if !isWall(nextX, nextZ) then (nextX, nextZ) else (x, z);
    var z2 := if !isWall(x1, nextZ) then nextZ else z1;
    var x2 := if !isWall(nextX, z2) then nextX else x1;
    (x2, z2)
  }

  /** A free target is taken exactly. */
  lemma FreeTargetIsReached(x: real, z: real, nextX: real, nextZ: real, isWall: (real, real) -> bool)
    requires !isWall(nextX, nextZ)
    ensures Resolved(x, z, nextX, nextZ, isWall) == (nextX, nextZ)
  {
  }

  /**
   * A blocked target makes the walker slide: along z when (x, nextZ) is free,
   * otherwise along x when (nextX, z) is free, otherwise it stays put.
   */
  lemma BlockedTargetSlides(x: real, z: real, nextX: real, nextZ: real, isWall: (real, real) -> bool)
    requires isWall(nextX, nextZ)
    ensures !isWall(x, nextZ) ==> Resolved(x, z, nextX, nextZ, isWall) == (x, nextZ)
    ensures isWall(x, nextZ) && !isWall(nextX, z) ==> Resolved(x, z, nextX, nextZ, isWall) == (nextX, z)
    ensures isWall(x, nextZ) && isWall(nextX, z) ==> Resolved(x, z, nextX, nextZ, isWall) == (x, z)
  {
  }

  /** The walker ends where it was or on a position the wall test lets through. */
  lemma ResolvedIsOldOrFree(x: real, z: real, nextX: real, nextZ: real, isWall: (real, real) -> bool)
    ensures var p := Resolved(x, z, nextX, nextZ, isWall);
            p == (x, z) || !isWall(p.0, p.1)
  {
    if !isWall(nextX, nextZ) {
      FreeTargetIsReached(x, z, nextX, nextZ, isWall);
    } else {
      BlockedTargetSlides(x, z, nextX, nextZ, isWall);
    }
  }

  /**
   * In the labyrinth a walker that starts off the walls stays off them, and so
   * keeps standing on a floor cell at least 0.15 inside the outer ring.
   */
  lemma WalkerStaysOnFloor(x: real, z: real, nextX: real, nextZ: real)
    requires !Labyrinth.IsWall(x, z)
    ensures var p := Resolved(x, z, nextX, nextZ, Labyrinth.IsWall);
            && !Labyrinth.IsWall(p.0, p.1)
            && 1.15 <= p.0 < 14.85 && 1.15 <= p.1 < 14.85
            && Labyrinth.Map[p.1.Floor][p.0.Floor] == 0
  {
    var p := Resolved(x, z, nextX, nextZ, Labyrinth.IsWall);
    ResolvedIsOldOrFree(x, z, nextX, nextZ, Labyrinth.IsWall);
    Labyrinth.FreePositionIsOnFloor(p.0, p.1);
  }

  /** The walker: a position (x, height, z), a heading in radians, and its speeds. */
  class Player {
    const position: array<real>
    var direction: real
    const speed: real
    const rotationSpeed: real

    predicate Valid()
    {
      position.Length == 3
    }

    constructor ()
      ensures Valid() && fresh(position)
      ensures position[..] == [1.5, 0.5, 1.5]
      ensures direction == 0.0 && speed == 3.0 && rotationSpeed == 2.0
    {
      position := new real[3] [1.5, 0.5, 1.5];
      direction := 0.0;
      speed := 3.0;
      rotationSpeed := 2.0;
    }

    /**
     * One step of deltaTime in the given direction against the wall test;
     * cos and sin are the trigonometric functions applied to the heading.
     */
    method MoveTo(isWall: (real, real) -> bool, cos: real -> real, sin: real -> real,
                  deltaTime: real, move: Direction)
      requires Valid()
      modifies position
      ensures Valid()
      ensures var t := Target(old(position[0]), old(position[2]), cos(direction), sin(direction), speed * deltaTime, move);
              (position[0], position[2]) == Resolved(old(position[0]), old(position[2]), t.0, t.1, isWall)
      ensures position[1] == old(position[1])
    {
      var t := Target(position[0], position[2], cos(direction), sin(direction), speed * deltaTime, move);
      UpdatePosition(isWall, t.0, t.1);
    }

    /** Left turns the heading down by rotationSpeed·deltaTime, Right up; the others leave it. */
    method RotateTo(deltaTime: real, move: Direction)
      modifies this
      ensures move in {Forward, Backward} ==> direction == old(direction)
      ensures move == Left ==> direction == old(direction) - rotationSpeed * deltaTime
      ensures move == Right ==> direction == old(direction) + rotationSpeed * deltaTime
    {
      if move == Backward || move == Forward {
        return;
      }
      var scale := 1.0;
      if move == Left {
        scale := -1.0;
      }
      direction := direction + rotationSpeed * deltaTime * scale;
    }

    /** The three sequential wall checks, writing x and z in place. */
    method UpdatePosition(isWall: (real, real) -> bool, nextX: real, nextZ: real)
      requires Valid()
      modifies position
      ensures (position[0], position[2]) == Resolved(old(position[0]), old(position[2]), nextX, nextZ, isWall)
      ensures position[1] == old(position[1])
    {
      if !isWall(nextX, nextZ) {
        position[0] := nextX;
        position[2] := nextZ;
      }
      if !isWall(position[0], nextZ) {
        position[2] := nextZ;
      }
      if !isWall(nextX, position[2]) {
        position[0] := nextX;
      }
    }
  }
}
