/** Death and revival of a player (Assets/Scripts/PlayerDeath.cs): dying
    switches off every component that drives the live player, makes the
    rigidbody kinematic and shows the armature; reviving undoes all of it. */
module Death {

  /** The components PlayerDeath switches on and off. */
  datatype Component =
    | NetworkObject | NetworkTransform | SurfCharacter | Respawn
    | NetworkRigidbody | NetworkAnimator | WeaponManager | PlayerHealth
    | PlayerAiming | Animator | WeaponRifle | CapsuleCollider

  /** Everything PlayerDeath writes: the twelve `enabled` flags, the
      rigidbody's `isKinematic` and the armature's active state. */
  datatype Flags = Flags(
    networkObject: bool, networkTransform: bool, surfCharacter: bool, respawn: bool,
    rbKinematic: bool, networkRigidbody: bool, networkAnimator: bool,
    weaponManager: bool, playerHealth: bool, playerAiming: bool,
    armatureActive: bool, animator: bool, weaponRifle: bool, capsuleCollider: bool)

  function Enabled(f: Flags, c: Component): bool {
    match c
    case NetworkObject => f.networkObject
    case NetworkTransform => f.networkTransform
    case SurfCharacter => f.surfCharacter
    case Respawn => f.respawn
    case NetworkRigidbody => f.networkRigidbody
    case NetworkAnimator => f.networkAnimator
    case WeaponManager => f.weaponManager
    case PlayerHealth => f.playerHealth
    case PlayerAiming => f.playerAiming
    case Animator => f.animator
    case WeaponRifle => f.weaponRifle
    case CapsuleCollider => f.capsuleCollider
  }

  /** The state Die leaves behind. */
  function Dead(): (f: Flags)
    ensures forall c :: !Enabled(f, c)
    ensures f.rbKinematic && f.armatureActive
  {
    Flags(false, false, false, false, true, false, false, false, false, false, true, false, false, false)
  }

  /** The state Revive leaves behind. */
  function Alive(): (f: Flags)
    ensures forall c :: Enabled(f, c)
    ensures !f.rbKinematic && !f.armatureActive
  {
    Flags(true, true, true, true, false, true, true, true, true, true, false, true, true, true)
  }

  /** Dead and alive differ in every flag. */
  lemma DeadIsNotAlive()
    ensures forall c :: Enabled(Dead(), c) != Enabled(Alive(), c)
    ensures Dead().rbKinematic != Alive().rbKinematic && Dead().armatureActive != Alive().armatureActive
  {
  }

  /** The enable flags live on the components themselves; `flags` is the
      player's view of all of them at once. */
  class PlayerDeath {
    var flags: Flags

    /** A player as spawned: every component on, the armature hidden. */
    constructor ()
      ensures flags == Alive()
    {
      flags := Alive();
    }

    /** DieServerRpc: the server-side twin of Die, with the same effect.
        No revival is scheduled. */
    method DieServerRpc()
      modifies this
      ensures flags == Dead()
    {
      flags := flags.(
        networkObject := false, networkTransform := false, surfCharacter := false, respawn := false,
        rbKinematic := true, networkRigidbody := false, networkAnimator := false,
        weaponManager := false, playerHealth := false, playerAiming := false,
        armatureActive := true, animator := false, weaponRifle := false, capsuleCollider := false);
    }

    /** Die: whatever the state before, the player ends up dead, so dying
        twice is the same as dying once. No revival is scheduled. */
    method Die()
      modifies this
      ensures flags == Dead()
    {
      flags := flags.(
        networkObject := false, networkTransform := false, surfCharacter := false, respawn := false,
        rbKinematic := true, networkRigidbody := false, networkAnimator := false,
        weaponManager := false, playerHealth := false, playerAiming := false,
        armatureActive := true, animator := false, weaponRifle := false, capsuleCollider := false);
    }

    /** Revive: whatever the state before (in particular right after Die),
        every component is back on; reviving twice is reviving once. */
    method Revive()
      modifies this
      ensures flags == Alive()
    {
      flags := flags.(
        networkObject := true, networkTransform := true, surfCharacter := true, respawn := true,
        rbKinematic := false, networkRigidbody := true, networkAnimator := true,
        weaponManager := true, playerHealth := true, playerAiming := true,
        animator := true, armatureActive := false, weaponRifle := true, capsuleCollider := true);
    }
  }
}
