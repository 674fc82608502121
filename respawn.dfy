/** The floor respawn (Assets/Respawn.cs): a player who falls below a
    floor height is put back five units above where they started. */
module Respawning {
  import opened Geometry

  const DefaultFloorY: real := -300.0

  /** Where Start puts the respawn point: five units above `start`. */
  function SpawnPoint(start: Vec3): (p: Vec3)
    ensures p.x == start.x && p.z == start.z && p.y == start.y + 5.0
  {
    start.(y := start.y + 5.0)
  }

  /** The position after one Update. */
  function AfterUpdate(position: Vec3, spawn: Vec3, floorY: real): (p: Vec3)
    ensures p == spawn <==> position.y < floorY || position == spawn
    ensures p != position ==> position.y < floorY
  {
    if position.y < floorY then spawn else position
  }

  /** Standing exactly on the floor height is not falling through it. */
  lemma FloorIsStrict(position: Vec3, spawn: Vec3, floorY: real)
    requires position.y == floorY
    ensures AfterUpdate(position, spawn, floorY) == position
  {
  }

  /** A spawn point at or above the floor is stable: once a player is
      reset there, further Updates leave them in place. */
  lemma {:induction false} ResetIsStable(position: Vec3, spawn: Vec3, floorY: real, k: nat)
    requires spawn.y >= floorY
    ensures Iterate(AfterUpdate(position, spawn, floorY), spawn, floorY, k) == AfterUpdate(position, spawn, floorY)
    decreases k
  {
    if k > 0 {
      ResetIsStable(position, spawn, floorY, k - 1);
    }
  }

  /** `k` Updates in a row with no movement in between. */
  function Iterate(position: Vec3, spawn: Vec3, floorY: real, k: nat): Vec3
    decreases k
  {
    if k == 0 then position else AfterUpdate(Iterate(position, spawn, floorY, k - 1), spawn, floorY)
  }

  class Respawn {
    /** The respawn point, set by Start. */
    var position: Vec3
    var floorY: real
    /** The player's `transform.position`. */
    var transformPosition: Vec3

    constructor (at: Vec3)
      ensures floorY == DefaultFloorY && transformPosition == at
    {
      floorY := DefaultFloorY;
      transformPosition := at;
      position := at;
    }

    /** Start: record the spawn point; the player does not move. */
    method Start()
      modifies this`position
      ensures position == SpawnPoint(transformPosition)
    {
      position := transformPosition;
      position := position.(y := position.y + 5.0);
    }

    /** Update: below the floor, teleport to the spawn point. */
    method Update()
      modifies this`transformPosition
      ensures transformPosition == AfterUpdate(old(transformPosition), position, floorY)
    {
      if transformPosition.y < floorY {
        transformPosition := position;
      }
    }
  }
}
