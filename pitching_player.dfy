/**
 * The walker of the labyrinth with a camera pitch: besides walking forward and
 * turning, it looks up and down within a range just short of straight up or
 * straight down. Its wall test also receives the walker's fixed eye height.
 */
module PitchingPlayer {
  /** `Math.PI` as a double. */
  const Pi: real := 3.141592653589793

  /** The lowest and the highest pitch the camera may take. */
  const MinPitch: real := -Pi / 2.0 + 0.1
  const MaxPitch: real := Pi / 2.0 - 0.1

  /** `max(lo, min(hi, v))`. */
  function Clamp(v: real, lo: real, hi: real): (r: real)
    requires lo <= hi
    ensures lo <= r <= hi
    ensures lo <= v <= hi ==> r == v
    ensures v < lo ==> r == lo
    ensures v > hi ==> r == hi
  {
    var upper := if hi < v then hi else v;
    if lo > upper then lo else upper
  }

  /** The pitch after adding `delta`, clamped to the allowed range. */
  function NextPitch(pitch: real, delta: real): (r: real)
    ensures MinPitch <= r <= MaxPitch
  {
    Clamp(pitch + delta, MinPitch, MaxPitch)
  }

  /**
   * Adding nothing keeps a pitch already in range, and a sum outside the
   * range lands on the bound it passed.
   */
  lemma NextPitchSettles(pitch: real, delta: real)
    ensures MinPitch <= pitch <= MaxPitch ==> NextPitch(pitch, 0.0) == pitch
    ensures pitch + delta < MinPitch ==> NextPitch(pitch, delta) == MinPitch
    ensures pitch + delta > MaxPitch ==> NextPitch(pitch, delta) == MaxPitch
    ensures MinPitch <= NextPitch(pitch, delta) <= MaxPitch
  {
  }

  /** Where one step ends under a wall test that also receives the eye height `y`. */
  function Stepped(x: real, y: real, z: real, nextX: real, nextZ: real, isWall: (real, real, real) -> bool): (p: (real, real))
    ensures p == (x, z) || p == (nextX, nextZ)
    ensures p == (nextX, nextZ) <==> !isWall(nextX, y, nextZ) || (x, z) == (nextX, nextZ)
  {
    if !isWall(nextX, y, nextZ) then (nextX, nextZ) else (x, z)
  }

  /** The walker: a position (x, y, z) with fixed eye height y, a heading, a pitch and its speeds. */
  class Player {
    const position: array<real>
    var direction: real
    var pitch: real
    const speed: real
    const rotationSpeed: real
    const y: real

    predicate Valid()
      reads position
    {
      position.Length == 3 && position[1] == y
    }

    constructor ()
      ensures Valid() && fresh(position)
      ensures position[..] == [1.5, 2.5, 1.5]
      ensures direction == 0.0 && pitch == 0.0 && speed == 1.0 && rotationSpeed == 1.5
    {
      y := 2.5;
      position := new real[3] [1.5, 2.5, 1.5];
      direction := 0.0;
      pitch := 0.0;
      speed := 1.0;
      rotationSpeed := 1.5;
    }

    /** One forward step of deltaTime; cos and sin are applied to the heading. */
    method MoveForward(isWall: (real, real, real) -> bool, cos: real -> real, sin: real -> real, deltaTime: real)
      requires Valid()
      modifies position
      ensures Valid()
      ensures var nextX := old(position[0]) + cos(direction) * speed * deltaTime;
              var nextZ := old(position[2]) + sin(direction) * speed * deltaTime;
              (position[0], position[2]) == Stepped(old(position[0]), y, old(position[2]), nextX, nextZ, isWall)
    {
      var nextX := position[0] + cos(direction) * speed * deltaTime;
      var nextZ := position[2] + sin(direction) * speed * deltaTime;
      UpdatePosition(isWall, nextX, nextZ);
      // the trigonometric functions read no state, so they give the same values after the writes
      assert nextX == old(position[0]) + cos(direction) * speed * deltaTime;
      assert nextZ == old(position[2]) + sin(direction) * speed * deltaTime;
    }

    /** Turns the heading by rotationSpeed·deltaTime. */
    method Rotate(deltaTime: real)
      modifies this
      ensures direction == old(direction) + rotationSpeed * deltaTime
      ensures pitch == old(pitch)
    {
      direction := direction + rotationSpeed * deltaTime;
    }

    /** Adds `delta` to the pitch, then clamps it to [MinPitch, MaxPitch]. */
    method SetPitch(delta: real)
      modifies this
      ensures pitch == NextPitch(old(pitch), delta)
      ensures MinPitch <= pitch <= MaxPitch
      ensures direction == old(direction)
    {
      pitch := pitch + delta;
      var upper := if MaxPitch < pitch then MaxPitch else pitch;
      pitch := if MinPitch > upper then MinPitch else upper;
    }

    /** Writes x and z in place when the target is free at eye height y, and nothing otherwise. */
    method UpdatePosition(isWall: (real, real, real) -> bool, nextX: real, nextZ: real)
      requires Valid()
      modifies position
      ensures Valid()
      ensures (position[0], position[2]) == Stepped(old(position[0]), y, old(position[2]), nextX, nextZ, isWall)
    {
      if !isWall(nextX, y, nextZ) {
        position[0] := nextX;
        position[2] := nextZ;
      }
    }
  }
}
