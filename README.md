# A verified model of a networked Unity surf shooter

This project models the game-logic core of a multiplayer first-person
shooter built on Unity and Netcode for GameObjects, and proves properties
of that model. The core covers:

- the rifle's magazine, burst and reload state machine;
- the player's health ledger and its damage and death events;
- death and revival of a player, which switch whole components on and off;
- the movement record `MoveData` and its fixed-order network serialisation;
- the character controller's bookkeeping: reset and teleport,
  input-axis mapping, the trigger list, the underwater recheck, `ClampAngle`
  and the collision push;
- the launch-velocity rule shared by bullet knockback and the apex jump pad;
- the weapon rack, the gravity gun, and the start-up switch that picks
  server, host or client mode;
- the audio bank and the audio manager's first-wins sound dictionary;
- the floor respawn and the training dummy's reset.

Arithmetic is over `real` and `int`, not IEEE floats. Dafny has no square
root, so wherever the game asks the engine for a vector's magnitude, the
model takes that magnitude as a parameter. `Geometry.IsMagnitudeOf` checks
it against the squared magnitude.

The following are method parameters:

- time, `IsOwner` and `IsServer`;
- input;
- raycast results;
- random indices;
- the environment and the process arguments.

Objects whose fields the game updates in place are classes. Each method's
`ensures` ties the new state to a pure step function of the old state, and
the lemmas are proved about those step functions.

One module per source file:

- `Geometry` in `geometry.dfy`: vectors.
- `Wrappers` in `wrappers.dfy`: `Option`.
- `Launch`: the shared launch rule.
- `ApexJumpPad`, `BulletProjectile`, `Health`, `Death`, `Rifle`, `Weapons`
  and `GravityGun`.
- `Movement`: `MoveData`.
- `Surf`: `SurfCharacter`.
- `CommandLine`, `AudioBank`, `Audio`, `Respawning` and `Dummy`.

## Model

| member | source | states |
|---|---|---|
| Launch.LaunchDirection | Assets/Scripts/ApexJumpPad.cs:22-25 | Above the 0.1 threshold the launch direction is the horizontal velocity scaled to unit length; at or below it, the fallback (the character's or the bullet's forward). |
| Launch.LaunchWhenMoving | Assets/Scripts/ApexJumpPad.cs:17-32 | For a moving target, the launch's vertical component is exactly the upward boost. Its horizontal part is the current horizontal velocity stretched by 1 + forwardBoost/speed, a factor of at least 1 for a non-negative boost. |
| Launch.LaunchWhenStill | Assets/Scripts/Weapons/BulletProjectile.cs:62-74 | For a target at or below the threshold, the launch is its horizontal velocity, plus the fallback direction times the forward boost, plus the upward boost. |
| Launch.LaunchIgnoresVerticalSpeed | Assets/Scripts/Weapons/BulletProjectile.cs:62-63 | Two velocities that differ only vertically give the same launch. |
| Launch.LaunchAlongX | Assets/Scripts/ApexJumpPad.cs:17-32 | A target moving along x at speed s > 0.1 is launched at (s + forwardBoost, upwardBoost, 0), whatever its vertical speed. |
| Launch.KnockbackExample | Assets/Scripts/Weapons/BulletProjectile.cs:62-74 | Velocity (5,0,0), forward (0,0,1) and boosts 10/10 give the launch (15,10,0). |
| ApexJumpPad.OnTriggerEnter | Assets/Scripts/ApexJumpPad.cs:11-36 | An apex jump is applied exactly when the entering object has a SurfCharacter that is locally owned. It carries the launch velocity and the pad's own gravity multiplier and duration. |
| ApexJumpPad.MovingCharacterKeepsHeading | Assets/Scripts/ApexJumpPad.cs:17-32 | A moving owned character gets a jump whose vertical speed is the pad's upward boost and whose horizontal velocity keeps its heading, stretched by at least 1. |
| ApexJumpPad.VerticalSpeedDiscarded | Assets/Scripts/ApexJumpPad.cs:20 | Changing only the character's vertical speed does not change the jump. |
| BulletProjectile.ResolveHit | Assets/Scripts/Weapons/BulletProjectile.cs:40-88 | Off the server, or when the contact's PlayerHealth is the shooter's own, nothing happens. Otherwise the bullet despawns. A damage request of exactly `damage` goes to the contact's PlayerHealth if and only if it has one. A knockback goes to the owner of its SurfCharacter if and only if it has one; its velocity, gravity multiplier and duration are KnockbackFor's, which is the shared launch rule with the bullet's boosts. |
| BulletProjectile.HitAlongX | Assets/Scripts/Weapons/BulletProjectile.cs:51-87 | A victim moving along x at speed s receives that damage and a knockback of (s + forwardBoost, upwardBoost, 0), and the bullet despawns. |
| BulletProjectile.DefaultHitExample | Assets/Scripts/Weapons/BulletProjectile.cs:7-19 | With the inspector defaults, a hit on a victim moving at (5,0,0) asks for 10 damage and sends (15,10,0) with gravity multiplier 0.5 for 1 second. |
| BulletProjectile.Bullet.Update | Assets/Scripts/Weapons/BulletProjectile.cs:28-38 | The bullet moves forward by velocity × deltaTime. It despawns exactly on the server once more than `lifeTime` has passed since Start. |
| BulletProjectile.Bullet.OnTriggerEnter | Assets/Scripts/Weapons/BulletProjectile.cs:40-88 | The outcome is ResolveHit's, and the bullet is despawned exactly when that outcome says so. |
| BulletProjectile.Bullet.Start | Assets/Scripts/Weapons/BulletProjectile.cs:21-26 | Records the spawn time. |
| Health.DamageStep | Assets/Scripts/PlayerHealth.cs:45-67 | Damage to a dead player changes nothing. Otherwise health becomes max(current − amount, 0). The log grows by exactly one TookDamage(health, max) event, followed by a single Died event exactly when health reaches 0, and by nothing else. |
| Health.HealStep | Assets/Scripts/PlayerHealth.cs:94-115 | Off the server, or when dead, Heal does nothing. Otherwise health becomes min(current + amount, max) and a TookDamage(health, max) event is appended. |
| Health.AtMostOneDeath | Assets/Scripts/PlayerHealth.cs:48-52 | Any sequence of damage raises at most one death event. A dead player is untouched. A new death means health is at most 0. |
| Health.DeadStaysPut | Assets/Scripts/PlayerHealth.cs:48-52 | Once health is at most 0, further damage leaves the whole ledger unchanged. |
| Health.RepeatedDamage | Assets/Scripts/PlayerHealth.cs:55-66 | k hits of d leave health max(H − k·d, 0), with one death exactly when the hits cross from positive to at most 0. |
| Health.DamageExample | Assets/Scripts/PlayerHealth.cs:55-66 | From 100, hits of 40, 40 and 30 give 60, 20 and 0, with a single death on the third. |
| Health.DeathsAppend | Assets/Scripts/PlayerHealth.cs:63-66 | Death events in a concatenated log add up. |
| Health.BoundsPreserved | Assets/Scripts/PlayerHealth.cs:56 | For non-negative amounts, damage, heal and spawn keep health within [0, max]. |
| Health.PlayerHealth.TakeDamage | Assets/Scripts/PlayerHealth.cs:45-67 | The new ledger is Damage of the old one. |
| Health.PlayerHealth.HandleDeath | Assets/Scripts/PlayerHealth.cs:72-88 | Appends exactly one Died event. |
| Health.PlayerHealth.Heal | Assets/Scripts/PlayerHealth.cs:94-115 | The new ledger is Healed of the old one. |
| Health.PlayerHealth.ApplyDamageServerRpc | Assets/Scripts/PlayerHealth.cs:123-134 | Has the same effect as TakeDamage on the server. |
| Health.PlayerHealth.Start | Assets/Scripts/PlayerHealth.cs:30-38 | The server resets health to max; other peers keep theirs. |
| Health.PlayerHealth.OnNetworkSpawn | Assets/Scripts/PlayerHealth.cs:139-150 | Same reset as Start. The value sent to clients is the resulting health. |
| Health.PlayerHealth.UpdateHealthClientRpc | Assets/Scripts/PlayerHealth.cs:158-163 | Sets health to the received value; nothing else changes. |
| Health.PlayerHealth.constructor | Assets/Scripts/PlayerHealth.cs:9-12 | A fresh ledger holds 100 of 100 and no events. |
| Death.Dead | Assets/Scripts/PlayerDeath.cs:81-94 | The dead state: all twelve components disabled, rigidbody kinematic, armature active. |
| Death.Alive | Assets/Scripts/PlayerDeath.cs:103-116 | The alive state: all twelve components enabled, rigidbody not kinematic, armature inactive. |
| Death.DeadIsNotAlive | Assets/Scripts/PlayerDeath.cs:78-118 | Die and Revive set every flag to opposite values. |
| Death.PlayerDeath.Die | Assets/Scripts/PlayerDeath.cs:78-98 | From any state, the result is exactly Dead, so Die is idempotent. Nothing else changes and no revival is scheduled. |
| Death.PlayerDeath.DieServerRpc | Assets/Scripts/PlayerDeath.cs:53-75 | Exactly the same effect as Die. |
| Death.PlayerDeath.Revive | Assets/Scripts/PlayerDeath.cs:100-118 | From any state, including right after Die, the result is exactly Alive, so Revive is idempotent. |
| Rifle.BurstStep | Assets/Scripts/Weapons/WeaponRifle.cs:161-182 | A burst request is ignored while reloading or with an empty magazine. Otherwise exactly min(burstCount, bulletCount) bullets are spent, the count stays non-negative, and nothing else changes. |
| Rifle.ReloadSteps | Assets/Scripts/Weapons/WeaponRifle.cs:148-155 | A request starts a reload exactly when not already reloading and the magazine is not full. It then sets isReloading, the start time and the attempt stamp, and leaves the bullet count and fire time alone. Any other request changes nothing. Once reloadTime has passed, the magazine is full and reloading ends. |
| Rifle.InputFireGate | Assets/Scripts/Weapons/WeaponRifle.cs:100-119 | Bullets are spent from input exactly when fire is held, the rifle is not reloading, the magazine is not empty, fireRate has passed and a camera exists. Only then is lastFireTime set to now. |
| Rifle.AutoReloadStep | Assets/Scripts/Weapons/WeaponRifle.cs:132-142 | With an empty magazine, not reloading, and reloadCooldown since the last attempt, a reload starts and the attempt is stamped. Otherwise nothing changes. |
| Rifle.UseSkipsFireRate | Assets/Scripts/Weapons/WeaponRifle.cs:294-310 | UseWeapon fires even when the input path's fire-rate gate is closed, and it does not update lastFireTime. |
| Rifle.InvPreserved | Assets/Scripts/Weapons/WeaponRifle.cs:41-310 | Server Start establishes 0 ≤ bulletCount ≤ magazineSize. Start, Update, UseWeapon and the reload completion preserve it. |
| Rifle.BurstsDrain | Assets/Scripts/Weapons/WeaponRifle.cs:172-182 | k bursts leave max(0, n − k·burstCount) bullets. |
| Rifle.DefaultMagazineEmptiesAfterTenBursts | Assets/Scripts/Weapons/WeaponRifle.cs:9-13 | With the defaults (30 rounds, bursts of 3), nine bursts leave 3 and ten leave 0. |
| Rifle.WeaponRifle.constructor | Assets/Scripts/Weapons/WeaponRifle.cs:29-38 | The initial field values, with the reload stamp at minus infinity. |
| Rifle.WeaponRifle.Start | Assets/Scripts/Weapons/WeaponRifle.cs:41-69 | The new state is Started. |
| Rifle.WeaponRifle.Update | Assets/Scripts/Weapons/WeaponRifle.cs:84-91 | The new state is Updated: only the owner handles input and then automatic reload. |
| Rifle.WeaponRifle.HandleInput | Assets/Scripts/Weapons/WeaponRifle.cs:96-127 | The new state is InputHandled. |
| Rifle.WeaponRifle.HandleAutomaticReload | Assets/Scripts/Weapons/WeaponRifle.cs:132-142 | The new state is AutoReloadHandled. |
| Rifle.WeaponRifle.AttemptReloadServerRpc | Assets/Scripts/Weapons/WeaponRifle.cs:148-155 | The new state is ReloadRequested. |
| Rifle.WeaponRifle.StartReload | Assets/Scripts/Weapons/WeaponRifle.cs:275-281 | Sets isReloading and records when the reload began. |
| Rifle.WeaponRifle.ResumeReload | Assets/Scripts/Weapons/WeaponRifle.cs:284-289 | The new state is ReloadResumed. |
| Rifle.WeaponRifle.FireBurstServerRpc | Assets/Scripts/Weapons/WeaponRifle.cs:161-167 | The new state is BurstRequested, and one trail is drawn per bullet spent. |
| Rifle.WeaponRifle.FireBurst | Assets/Scripts/Weapons/WeaponRifle.cs:172-182 | The loop spends exactly BurstSize bullets and draws that many trails, each to the same end point. |
| Rifle.WeaponRifle.FireSingleBullet | Assets/Scripts/Weapons/WeaponRifle.cs:187-213 | Spends one bullet. The trail ends at the raycast hit, or bulletRange along the direction when nothing is hit. |
| Rifle.WeaponRifle.UseWeapon | Assets/Scripts/Weapons/WeaponRifle.cs:294-310 | The new state is Used. |
| Movement.FreshDefaults | Assets/Scripts/Movement/MoveData.cs:28-64 | A new record carries the field initialisers, for example friction 1, slope limit 45, default height 2, ladder direction forward, and every flag false. |
| Movement.EqualsIsEquality | Assets/Scripts/Movement/MoveData.cs:66-108 | Equals is false against null. Against a record, it holds exactly when all 38 fields agree, which is value equality. |
| Movement.EqualsSymmetric | Assets/Scripts/Movement/MoveData.cs:66-108 | Equals is symmetric. |
| Movement.Encode | Assets/Scripts/Movement/MoveData.cs:110-147 | The wire form has exactly 35 values. Position i holds the i-th field in the serialiser's order, origin through stepOffset. |
| Movement.Decode | Assets/Scripts/Movement/MoveData.cs:110-147 | Reading succeeds exactly when the first 35 values have the serialiser's types. The three unserialised fields keep the receiving record's values. |
| Movement.EncodeWellTyped | Assets/Scripts/Movement/MoveData.cs:112-146 | An encoded record always reads back. |
| Movement.DecodeEncode | Assets/Scripts/Movement/MoveData.cs:110-147 | Reading a written record restores all 35 serialised fields. The transforms and viewTransformDefaultLocalPos come from the receiver. |
| Movement.EncodeDecode | Assets/Scripts/Movement/MoveData.cs:110-147 | Writing a record that was read reproduces the 35 values it was read from. |
| Movement.RoundTripEquals | Assets/Scripts/Movement/MoveData.cs:66-147 | After a round trip, Equals holds exactly when the receiver already had the sender's three unserialised fields. |
| Surf.AxisMapping | Assets/Scripts/Movement/SurfCharacter.cs:303-322 | An axis maps to 0 exactly when Approximately(axis, 0). Otherwise it maps to +acceleration when positive and −acceleration when negative. |
| Surf.InputMapping | Assets/Scripts/Movement/SurfCharacter.cs:289-322 | sideMove and forwardMove take the sign of their axes, are 0 exactly at approximately zero, and view angles are zero without PlayerAiming. Position, velocity and the water and ground flags are untouched. |
| Surf.TeleportedState | Assets/Scripts/Movement/SurfCharacter.cs:485-518 | A reset puts the body at the spawn point and rotation with zero velocity and view angles, and clears crouching and sprinting. Every other MoveData field is untouched, and the view goes back to its default local position. |
| Surf.TeleportIdempotent | Assets/Scripts/Movement/SurfCharacter.cs:531-563 | Resetting twice to the same spawn is the same as resetting once. |
| Surf.RemoveFirstFacts | Assets/Scripts/Movement/SurfCharacter.cs:444-447 | Removing one collider from a duplicate-free list keeps it duplicate-free, removes exactly that collider, and shortens the list by one only when the collider was present. |
| Surf.TriggerDiscipline | Assets/Scripts/Movement/SurfCharacter.cs:433-448 | Enter and exit keep the trigger list free of duplicates. Enter adds exactly the new collider. Exit removes exactly the leaving one. Lengths change by one only when membership changes. |
| Surf.AliveContents | Assets/Scripts/Movement/SurfCharacter.cs:409 | RemoveAll(null) keeps only live colliders. Each live one survives as many times as it was listed, and every destroyed one is dropped. |
| Surf.AliveCons | Assets/Scripts/Movement/SurfCharacter.cs:409 | The list's head survives exactly when it is alive, in front of the filtered rest. |
| Surf.AliveAppend | Assets/Scripts/Movement/SurfCharacter.cs:409 | Filtering a concatenation is concatenating the filtered parts, so the survivors keep their order. |
| Surf.AliveKeepsDistinct | Assets/Scripts/Movement/SurfCharacter.cs:409 | A duplicate-free list stays duplicate-free after RemoveAll. |
| Surf.RecheckMeaning | Assets/Scripts/Movement/SurfCharacter.cs:405-421 | With an unchanged count, nothing is recomputed. With a changed count, underwater becomes true exactly when some live trigger is water. |
| Surf.SwapLeavesUnderwaterStale | Assets/Scripts/Movement/SurfCharacter.cs:405 | The recheck keys on the count alone. Swapping one trigger for a water trigger between two updates leaves underwater false. |
| Surf.ClampAngle | Assets/Scripts/Movement/SurfCharacter.cs:523-528 | The result is the angle, the angle shifted once by 360, `to` or 360 + `from`. An angle already in [0, to] is kept, and one in [from, 0) above −180 comes back shifted by 360. |
| Surf.ClampAngleRange | Assets/Scripts/Movement/SurfCharacter.cs:523-528 | For angles in [−360, 360), the result lies in [0, to] or [360 + from, 360]. Angles below −360 stay negative. |
| Surf.ClampMagnitude | Assets/Scripts/Movement/SurfCharacter.cs:476 | A vector within the limit is unchanged. A longer one is scaled by limit / magnitude. |
| Surf.ClampMagnitudeShrinks | Assets/Scripts/Movement/SurfCharacter.cs:476 | The clamped vector is no longer than the limit, and a vertical bound survives clamping. |
| Surf.PushBounds | Assets/Scripts/Movement/SurfCharacter.cs:454-478 | Without a rigidbody, the velocity is unchanged. With one, the new vertical speed stays within ±max(vy, 10), and the new speed is at most max(old speed, 30). Before that clamp, the vertical speed lies between vy − 0.5 and max(vy + 0.5, 10). This does not bound the change: the clamp to ±max(vy, 10) lifts any fall faster than 10 up to −10. |
| Surf.SurfCharacter.constructor | Assets/Scripts/Movement/SurfCharacter.cs:70-75 | Empty trigger list with count 0, not underwater, the start position recorded. |
| Surf.SurfCharacter.ResetCharacter | Assets/Scripts/Movement/SurfCharacter.cs:485-518 | Only the owner resets, to the start position and the identity rotation, with one network teleport there. Others change nothing. |
| Surf.SurfCharacter.ResetClientRpc | Assets/Scripts/Movement/SurfCharacter.cs:531-563 | Same as ResetCharacter, with the given spawn position and rotation. |
| Surf.SurfCharacter.Teleport | Assets/Scripts/Movement/SurfCharacter.cs:491-517 | The shared body of both resets: the new pose is Teleported, and the teleport is logged. |
| Surf.SurfCharacter.Update | Assets/Scripts/Movement/SurfCharacter.cs:271-330 | Non-owners change nothing. The owner's MoveData is InputApplied, and the replicated animator values (grounded, moving above 0.1, axes, turn, jump) are set from the input. |
| Surf.SurfCharacter.OnTriggerEnter | Assets/Scripts/Movement/SurfCharacter.cs:433-440 | The list becomes Entered and stays duplicate-free. |
| Surf.SurfCharacter.OnTriggerExit | Assets/Scripts/Movement/SurfCharacter.cs:442-448 | The list becomes Exited and stays duplicate-free. |
| Surf.SurfCharacter.HandleWaterAndTriggers | Assets/Scripts/Movement/SurfCharacter.cs:402-431 | The trigger list stays duplicate-free. The trigger state becomes Rechecked. MoveData copies the underwater flag and the camera check; nothing else in it changes. |
| Surf.SurfCharacter.OnCollisionStay | Assets/Scripts/Movement/SurfCharacter.cs:454-478 | Only the velocity changes, to Pushed. |
| Weapons.OneHot | Assets/Scripts/Weapons/WeaponManager.cs:50-53 | Entry j is active exactly when j is the chosen index. |
| Weapons.OneHotCount | Assets/Scripts/Weapons/WeaponManager.cs:50-53 | A valid index leaves exactly one weapon active; an invalid one leaves none. |
| Weapons.EquipSemantics | Assets/Scripts/Weapons/WeaponManager.cs:46-65 | An out-of-range index changes nothing. A valid one activates exactly that weapon, makes it current, and shows its name when a label exists. |
| Weapons.OneActiveKept | Assets/Scripts/Weapons/WeaponManager.cs:13-44 | Start with at least one weapon establishes "exactly the current weapon is active", and Update preserves it. |
| Weapons.KeyPrecedence | Assets/Scripts/Weapons/WeaponManager.cs:25-36 | Key 1 wins over 2, which wins over 3. With none pressed, the selection is unchanged. |
| Weapons.ClickUsesCurrent | Assets/Scripts/Weapons/WeaponManager.cs:22-43 | A click sets the fire animation and the current weapon's animation code and uses that weapon. Without a click no weapon is used. With the button not held, the fire animation is off. |
| Weapons.EmptyRackClickThrows | Assets/Scripts/Weapons/WeaponManager.cs:41 | A click with an empty weapon array indexes out of range. |
| Weapons.WeaponManager.Start | Assets/Scripts/Weapons/WeaponManager.cs:13-16 | The new rack is Equipped with index 0. |
| Weapons.WeaponManager.Update | Assets/Scripts/Weapons/WeaponManager.cs:18-44 | The new rack is Updated, and the returned outcome is UpdateOutcome. |
| Weapons.WeaponManager.EquipWeapon | Assets/Scripts/Weapons/WeaponManager.cs:46-57 | The loop over the weapon array leaves the rack Equipped with the index. |
| Weapons.WeaponManager.UpdateWeaponNameUI | Assets/Scripts/Weapons/WeaponManager.cs:59-65 | The label shows the current weapon's name when it exists; otherwise it is untouched. |
| Weapons.WeaponManager.constructor | Assets/Scripts/Weapons/WeaponManager.cs:8-11 | The current index starts at 0. |
| GravityGun.SceneKept | Assets/Scripts/Weapons/WeaponGravityGun.cs:17-149 | Grabbing, letting go and a whole Update keep the held body and collider among the scene's bodies and colliders. |
| GravityGun.GrabEffects | Assets/Scripts/Weapons/WeaponGravityGun.cs:79-103 | A grab takes hold exactly when the ray hits a non-enemy rigidbody within grabRange. That body loses gravity and gets damping 10, continuous speculative detection and frozen rotation. Its collider is disabled. Every other body is untouched. A missed grab changes nothing. |
| GravityGun.LetGoEffects | Assets/Scripts/Weapons/WeaponGravityGun.cs:111-149 | Letting go restores gravity, damping 1, discrete detection and no constraints, re-enables the collider, adds a force of throwForce along forward, and holds nothing. |
| GravityGun.GrabThenRelease | Assets/Scripts/Weapons/WeaponGravityGun.cs:79-129 | A grab followed by a release leaves the body free, with gravity, damping 1 and its collider enabled. |
| GravityGun.SameFrameClicks | Assets/Scripts/Weapons/WeaponGravityGun.cs:17-40 | Holding a body, a left and a right click in one frame throw it exactly once, because the right-click check then finds empty hands. From empty hands, the two clicks grab and immediately release. A right click alone from empty hands does nothing. |
| GravityGun.WeaponGravityGun.constructor | Assets/Scripts/Weapons/WeaponGravityGun.cs:5-9 | Nothing is held. |
| GravityGun.WeaponGravityGun.Update | Assets/Scripts/Weapons/WeaponGravityGun.cs:17-40 | The new state is Updated. |
| GravityGun.WeaponGravityGun.TryGrabObject | Assets/Scripts/Weapons/WeaponGravityGun.cs:79-103 | The new state is Grabbed. |
| GravityGun.WeaponGravityGun.ReleaseObject | Assets/Scripts/Weapons/WeaponGravityGun.cs:111-129 | The new state is LetGo. |
| GravityGun.WeaponGravityGun.ThrowObject | Assets/Scripts/Weapons/WeaponGravityGun.cs:131-149 | The new state is LetGo, the same effect as ReleaseObject. |
| CommandLine.LowerFacts | Assets/Scripts/Utils/NetworkCommandLine.cs:61 | Lower-casing keeps the length, yields a lower-case string, is idempotent, leaves lower-case strings alone, and keeps a leading dash. |
| CommandLine.ValueAt | Assets/Scripts/Utils/NetworkCommandLine.cs:64-70 | A flag has a value exactly when a next argument exists and does not start with a dash. The value is that argument, lower-cased. |
| CommandLine.ParseFromSucceeds | Assets/Scripts/Utils/NetworkCommandLine.cs:59-72 | Building from a position succeeds exactly when the remaining flags are new to the dictionary and distinct from one another. |
| CommandLine.ParseFromKeys | Assets/Scripts/Utils/NetworkCommandLine.cs:59-72 | A successful build adds exactly the remaining flags' keys. |
| CommandLine.ParseFromKeeps | Assets/Scripts/Utils/NetworkCommandLine.cs:59-72 | A successful build keeps every earlier entry. |
| CommandLine.ParseFromValue | Assets/Scripts/Utils/NetworkCommandLine.cs:59-72 | A successful build gives each flag the value that follows it. |
| CommandLine.ParseMeaning | Assets/Scripts/Utils/NetworkCommandLine.cs:54-74 | The dictionary is built exactly when no two flags are equal after lower-casing. Its keys are then exactly the lower-cased flags, each holding ValueAt, and every key and value is lower-case. |
| CommandLine.DuplicateIsAFlag | Assets/Scripts/Utils/NetworkCommandLine.cs:70 | A failed build names a key that is one of the lower-cased flags. |
| CommandLine.GetCommandLineArgs | Assets/Scripts/Utils/NetworkCommandLine.cs:54-74 | The loop computes Parse: the dictionary, or the key whose second Add throws. |
| CommandLine.StartBasedOnMode | Assets/Scripts/Utils/NetworkCommandLine.cs:32-52 | A null mode throws. Otherwise the mode lower-cased decides: server starts a server, host a host and client a client, each exactly for that spelling. Any other mode warns with the original string. |
| CommandLine.ModeIgnoresCase | Assets/Scripts/Utils/NetworkCommandLine.cs:34 | Spellings that differ only in case start the same role. |
| CommandLine.LaunchPrecedence | Assets/Scripts/Utils/NetworkCommandLine.cs:9-30 | The editor starts nothing. A non-empty APP_MODE decides alone, whatever the arguments. Otherwise a role is started only through a `-mode` flag followed by a value. |
| CommandLine.ModeArgumentExample | Assets/Scripts/Utils/NetworkCommandLine.cs:25-29 | `game -MODE Server` starts a server. |
| CommandLine.MissingValueExample | Assets/Scripts/Utils/NetworkCommandLine.cs:18-28 | With an empty APP_MODE, `game -mode` throws on the null mode. |
| CommandLine.FlagAsValueExample | Assets/Scripts/Utils/NetworkCommandLine.cs:64-68 | In `-mode -batchmode`, `-mode` has no value, and Start throws. |
| CommandLine.RepeatedFlagExample | Assets/Scripts/Utils/NetworkCommandLine.cs:61-70 | `-mode host -Mode client` throws on the repeated key `-mode`. |
| CommandLine.NetworkCommandLine.Start | Assets/Scripts/Utils/NetworkCommandLine.cs:9-30 | The action taken is exactly Launch of the inputs. |
| AudioBank.RandomClip | Assets/Scripts/AudioBank.cs:11-20 | No clip exactly when the list is null or empty. Otherwise a member of the list, and the only clip when there is one. |
| AudioBank.FindFirst | Assets/Scripts/AudioBank.cs:28-36 | Finds a definition with the key exactly when one exists. |
| AudioBank.FindFirstIsFirst | Assets/Scripts/AudioBank.cs:30-34 | The definition found is the first with that key. |
| AudioBank.FindFirstSnoc | Assets/Scripts/AudioBank.cs:30-34 | Appending a definition changes the lookup only for a key not present before. |
| AudioBank.GetRandomClip | Assets/Scripts/AudioBank.cs:28-36 | No clip for an absent key. A clip only when some definition has the key. |
| AudioBank.FindFirstAt | Assets/Scripts/AudioBank.cs:30-34 | The search returns the first definition whose key matches. |
| AudioBank.GetRandomClipFirstMatch | Assets/Scripts/AudioBank.cs:28-36 | A lookup returns the random clip of the first definition with the key, and a clip comes back exactly when that definition has clips. |
| AudioBank.LaterDuplicateIgnored | Assets/Scripts/AudioBank.cs:30-34 | A later definition with an existing key does not change the bank's answer. |
| Audio.FirstWinsAgreesWithBank | Assets/Scripts/AudioManager.cs:51-58 | The dictionary holds a key exactly when the bank does, mapped to the bank's first definition with it. |
| Audio.ManagerAgreesWithBank | Assets/Scripts/AudioManager.cs:80-87 | The manager's random clip for a key equals the bank's own GetRandomClip. |
| Audio.AudioManager.Awake | Assets/Scripts/AudioManager.cs:34-60 | A second instance is destroyed, and the registered one stays. Otherwise this instance registers, and its dictionary is the bank's definitions with the first of each key winning. |
| Audio.AudioManager.GetClip | Assets/Scripts/AudioManager.cs:69-77 | A clip exactly when the key is known and has clips. It is then the first clip. |
| Audio.AudioManager.GetRandomClip | Assets/Scripts/AudioManager.cs:80-87 | No clip for an unknown key. Otherwise the definition's random clip. |
| Respawning.SpawnPoint | Assets/Respawn.cs:11-12 | The spawn point is the start position raised by 5, with x and z unchanged. |
| Respawning.AfterUpdate | Assets/Respawn.cs:18-21 | The player is sent to the spawn point exactly when below the floor (or already there), and moves only when below it. |
| Respawning.FloorIsStrict | Assets/Respawn.cs:18 | Standing exactly at floorY is not a fall. |
| Respawning.ResetIsStable | Assets/Respawn.cs:11-21 | With the spawn point at or above the floor, any number of Updates after a reset change nothing. |
| Respawning.Respawn.constructor | Assets/Respawn.cs:6 | floorY defaults to −300. |
| Respawning.Respawn.Start | Assets/Respawn.cs:9-13 | Records SpawnPoint of the current position. |
| Respawning.Respawn.Update | Assets/Respawn.cs:16-22 | The position becomes AfterUpdate. |
| Dummy.DummyReset.Start | Assets/Scripts/Movement/DummyReset.cs:10-15 | Records the current position and rotation and the knock meter found. |
| Dummy.DummyReset.ResetDummy | Assets/Scripts/Movement/DummyReset.cs:27-43 | Restores the recorded pose. Zeroes the knock meter when one was found, and both velocities when a rigidbody is present. The result does not depend on the prior state, so the reset is idempotent. |
| Dummy.DummyReset.Update | Assets/Scripts/Movement/DummyReset.cs:18-25 | Resets on R key-down only. Otherwise the pose, meter and velocities are unchanged. |

## Left out

- Floating point: every float is a real. Approximately(x, 0) is modelled as |x| < 8·float.Epsilon, and no rounding is modelled.
- Geometry.Normalized: there is no square root; the magnitude is supplied by the caller and checked against the squared magnitude.
- Surf.ClampMagnitude: the two magnitudes (of the pushed vector and of the old velocity) are supplied in the same way.
- Health.DamageStep: C# `int` wrap-around is not modelled. Integers are unbounded, so enormous or negative damage and heal amounts are followed arithmetically.
- Rifle.WeaponRifle.FireBurstServerRpc: the object is modelled as seen on the host, where the owner's frame and the server's RPCs touch the same fields. The replication delay of `bulletCount` and a client's separate copy of `isReloading` are not modelled.
- Rifle.WeaponRifle.ResumeReload: the reload coroutine's `WaitForSeconds` is an explicit step that completes once `reloadTime` has passed. Coroutine scheduling is not modelled.
- Rifle.WeaponRifle.FireSingleBullet: the raycast is a parameter. Logging, the trail's animation (DrawTrail), and the fire and reload effect RPCs are not modelled.
- Engine lookups are parameters: Camera.main, GetComponent and GetComponentInParent. NullReferenceExceptions from components missing in PlayerDeath, WeaponManager's animator and the gravity gun's hold point are not modelled.
- GravityGun: MoveObject (SmoothDamp towards the hold point) and FindPlayerCollider (commented out in the source) are not modelled. UseWeapon is empty in the source and is modelled as a method with no effect. Forces are recorded as a list of impulses.
- BulletProjectile: TakeDamageServerRpc and ApplyKnockbackClientRpc are not part of this model. Their calls are returned as a damage request and a knockback message. Despawn is a flag.
- ApexJumpPad: ApplyApexJump is not part of this model. Its arguments are returned.
- Surf: the movement physics (SurfController, FixedUpdate), HandleLocalRotation, the animator calls, Awake and Start's configuration copy, and the camera water-check object are not modelled. The camera's underwater result is a parameter. Network teleports are logged rather than sent.
- Surf.SurfCharacter.HandleWaterAndTriggers: Unity's destroyed-object null is a set of live colliders, and water membership is a set of colliders.
- Movement.DecodeEncode: the wire format is a sequence of typed values (vector, float, bool). Netcode's byte layout is not modelled.
- Movement.EncodeDecode: values after the 35th are ignored rather than left unread in a buffer.
- CommandLine.LowerFacts: only ASCII letters are lower-cased. Culture-specific ToLower is not modelled.
- CommandLine: Debug.Log and Debug.LogWarning are not modelled; an unknown mode is returned as a warning action.
- AudioBank.GetRandomClip: a null `sounds` array, which would throw, is not modelled. Random.Range is a supplied index.
- Audio: PlayMusic, the sound-effect and spatial-audio players, mixer groups and DontDestroyOnLoad are not modelled.
- Death: the scheduling of Revive is commented out in the source, so nothing schedules it.
- Dummy: Input.GetKeyDown is a parameter. The rigidbody is looked up at reset time and passed in.
