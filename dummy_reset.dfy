/** The training dummy's reset (Assets/Scripts/Movement/DummyReset.cs):
    pressing R puts the dummy back where it started, empties its knock
    meter and stops its rigidbody. */
module Dummy {
  import opened Geometry

  /** The knock-meter component; only its meter value is touched here. */
  class KnockMeter {
    var knockMeter: real

    constructor (value: real)
      ensures knockMeter == value
    {
      knockMeter := value;
    }
  }

  /** The dummy's rigidbody velocities. */
  class Rigidbody {
    var linearVelocity: Vec3
    var angularVelocity: Vec3

    constructor (linear: Vec3, angular: Vec3)
      ensures linearVelocity == linear && angularVelocity == angular
    {
      linearVelocity := linear;
      angularVelocity := angular;
    }
  }

  class DummyReset {
    var initialPosition: Vec3
    var initialRotation: Quat
    /** The knock meter found by Start, if any. */
    var knockMeter: KnockMeter?
    /** The dummy's transform. */
    var position: Vec3
    var rotation: Quat

    constructor (position: Vec3, rotation: Quat)
      ensures this.position == position && this.rotation == rotation && knockMeter == null
    {
      this.position := position;
      this.rotation := rotation;
      initialPosition := position;
      initialRotation := rotation;
      knockMeter := null;
    }

    /** Start: remember the current pose and the knock-meter component
        (`found`, null when the dummy has none). */
    method Start(found: KnockMeter?)
      modifies this`initialPosition, this`initialRotation, this`knockMeter
      ensures initialPosition == position && initialRotation == rotation && knockMeter == found
    {
      initialPosition := position;
      initialRotation := rotation;
      knockMeter := found;
    }

    /** ResetDummy: `rb` is the rigidbody looked up at reset time. The
        outcome depends only on what Start recorded, not on the dummy's
        state before, so resetting twice is resetting once. */
    method ResetDummy(rb: Rigidbody?)
      modifies this`position, this`rotation, knockMeter, rb
      ensures position == initialPosition && rotation == initialRotation
      ensures knockMeter != null ==> knockMeter.knockMeter == 0.0
      ensures rb != null ==> rb.linearVelocity == Zero && rb.angularVelocity == Zero
    {
      position := initialPosition;
      rotation := initialRotation;
      if knockMeter != null {
        knockMeter.knockMeter := 0.0;
      }
      if rb != null {
        rb.linearVelocity := Zero;
        rb.angularVelocity := Zero;
      }
    }

    /** Update: reset only on the frame R goes down. */
    method Update(rKeyDown: bool, rb: Rigidbody?)
      modifies this`position, this`rotation, knockMeter, rb
      ensures rKeyDown ==> position == initialPosition && rotation == initialRotation
      ensures rKeyDown && knockMeter != null ==> knockMeter.knockMeter == 0.0
      ensures rKeyDown && rb != null ==> rb.linearVelocity == Zero && rb.angularVelocity == Zero
      ensures !rKeyDown ==> position == old(position) && rotation == old(rotation)
      ensures !rKeyDown && knockMeter != null ==> knockMeter.knockMeter == old(knockMeter.knockMeter)
      ensures !rKeyDown && rb != null ==> rb.linearVelocity == old(rb.linearVelocity) && rb.angularVelocity == old(rb.angularVelocity)
    {
      if rKeyDown {
        ResetDummy(rb);
      }
    }
  }
}
