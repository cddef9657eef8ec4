/**
 * The simpler walker of the first labyrinth: it only walks forward and turns
 * one way, and a step into a wall is refused as a whole.
 */
module ForwardPlayer {
  import StrafingPlayer

  /** Where one step ends: the whole target when it is free, otherwise where it started. */
  function Stepped(x: real, z: real, nextX: real, nextZ: real, isWall: (real, real) -> bool): (p: (real, real))
    ensures p == (x, z) || p == (nextX, nextZ)
    ensures p == (nextX, nextZ) <==> !isWall(nextX, nextZ) || (x, z) == (nextX, nextZ)
  {
    if !isWall(nextX, nextZ) then (nextX, nextZ) else (x, z)
  }

  /**
   * Compared with the sliding walker: both take a free target exactly, the
   * all-or-nothing walker never ends anywhere the sliding one could not, and
   * it never ends in a wall it did not start in.
   */
  lemma SteppedAgainstSliding(x: real, z: real, nextX: real, nextZ: real, isWall: (real, real) -> bool)
    ensures !isWall(nextX, nextZ) ==>
              Stepped(x, z, nextX, nextZ, isWall) == StrafingPlayer.Resolved(x, z, nextX, nextZ, isWall)
    ensures isWall(x, nextZ) && isWall(nextX, z) ==>
              Stepped(x, z, nextX, nextZ, isWall) == StrafingPlayer.Resolved(x, z, nextX, nextZ, isWall)
    ensures var p := Stepped(x, z, nextX, nextZ, isWall);
            p == (x, z) || !isWall(p.0, p.1)
  {
    if !isWall(nextX, nextZ) {
      StrafingPlayer.FreeTargetIsReached(x, z, nextX, nextZ, isWall);
    } else {
      StrafingPlayer.BlockedTargetSlides(x, z, nextX, nextZ, isWall);
    }
  }

  /** The walker: a position (x, height, z), a heading in radians, and its speeds. */
  class Player {
    const position: array<real>
    var direction: real
    const speed: real
    const rotationSpeed: real

    predicate Valid()
    {
      position.Length == 3
    }

    constructor ()
      ensures Valid() && fresh(position)
      ensures position[..] == [1.5, 2.5, 1.5]
      ensures direction == 0.0 && speed == 1.0 && rotationSpeed == 1.5
    {
      position := new real[3] [1.5, 2.5, 1.5];
      direction := 0.0;
      speed := 1.0;
      rotationSpeed := 1.5;
    }

    /** One forward step of deltaTime; cos and sin are applied to the heading. */
    method MoveForward(isWall: (real, real) -> bool, cos: real -> real, sin: real -> real, deltaTime: real)
      requires Valid()
      modifies position
      ensures Valid()
      ensures var nextX := old(position[0]) + cos(direction) * speed * deltaTime;
              var nextZ := old(position[2]) + sin(direction) * speed * deltaTime;
              (position[0], position[2]) == Stepped(old(position[0]), old(position[2]), nextX, nextZ, isWall)
      ensures position[1] == old(position[1])
    {
      var nextX := position[0] + cos(direction) * speed * deltaTime;
      var nextZ := position[2] + sin(direction) * speed * deltaTime;
      UpdatePosition(isWall, nextX, nextZ);
      // the trigonometric functions read no state, so they give the same values after the writes
      assert nextX == old(position[0]) + cos(direction) * speed * deltaTime;
      assert nextZ == old(position[2]) + sin(direction) * speed * deltaTime;
    }

    /** Turns the heading by rotationSpeed·deltaTime. */
    method Rotate(deltaTime: real)
      modifies this
      ensures direction == old(direction) + rotationSpeed * deltaTime
    {
      direction := direction + rotationSpeed * deltaTime;
    }

    /** Writes x and z in place when the target is free, and nothing otherwise. */
    method UpdatePosition(isWall: (real, real) -> bool, nextX: real, nextZ: real)
      requires Valid()
      modifies position
      ensures (position[0], position[2]) == Stepped(old(position[0]), old(position[2]), nextX, nextZ, isWall)
      ensures position[1] == old(position[1])
    {
      if !isWall(nextX, nextZ) {
        position[0] := nextX;
        position[2] := nextZ;
      }
    }
  }
}
