/**
 * Resuspension of particles that have sunk below the seafloor.
 *
 * A particle deeper than the floor whose random draw falls under the
 * per-step probability is lifted to half a metre above the floor; every
 * other particle keeps its depth (the engine's own seafloor handling deals
 * with it).
 */
module Seafloor {

  /** Height above the floor at which a resuspended particle is placed, in metres. */
  const ResuspensionHeight: real := 0.5

  /** A particle lies below the floor when its depth `z` (negative downwards) is under `-floorDepth`. */
  predicate BelowFloor(z: real, floorDepth: real) {
    z < -floorDepth
  }

  /** Depth of one particle after resuspension, given its draw and the probability for this step. */
  function Resuspend(z: real, floorDepth: real, draw: real, probability: real): (r: real)
    ensures BelowFloor(z, floorDepth) && draw < probability ==> r == -floorDepth + ResuspensionHeight
    ensures !(BelowFloor(z, floorDepth) && draw < probability) ==> r == z
    ensures r >= z
    ensures r != z ==> r > -floorDepth
  {
    if BelowFloor(z, floorDepth) && draw < probability then -floorDepth + ResuspensionHeight else z
  }

  /**
   * A probability of at least one, with draws in [0, 1), lifts every particle
   * that is below the floor.
   */
  lemma CertainResuspension(z: real, floorDepth: real, draw: real, probability: real)
    requires 0.0 <= draw < 1.0 && probability >= 1.0
    requires BelowFloor(z, floorDepth)
    ensures Resuspend(z, floorDepth, draw, probability) == -floorDepth + ResuspensionHeight
  {
  }
}
