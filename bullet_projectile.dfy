/** The simulated projectile (Assets/Scripts/Weapons/BulletProjectile.cs):
    it flies along its forward direction, is despawned by the server once
    its lifetime has passed, and on the server resolves a trigger contact
    into a damage request, a knockback addressed to the victim's owning
    client, and its own despawn. The two network calls it makes on the
    victim are modelled as the messages it emits. */
module BulletProjectile {
  import opened Geometry
  import opened Wrappers
  import opened Launch

  /** Identity of a PlayerHealth component, and of a network client. */
  type HealthId = nat
  type ClientId = nat

  datatype Config = Config(
    projectileVelocity: real,
    lifeTime: real,
    damage: int,
    knockbackForce: real,
    knockbackForwardBoost: real,
    knockbackUpwardBoost: real,
    knockbackGravityMultiplier: real,
    knockbackDuration: real)

  /** The inspector defaults. */
  const Defaults := Config(50.0, 5.0, 10, 40.0, 10.0, 10.0, 0.5, 1.0)

  /** What the bullet sees of a SurfCharacter found in the hit object's
      parents: the client that owns its network object, its movement
      velocity and the engine-computed magnitude of that velocity's
      horizontal part. */
  datatype Character = Character(ownerClientId: ClientId, velocity: Vec3, horizontalSpeed: real)

  predicate WellMeasured(c: Character) {
    IsMagnitudeOf(c.horizontalSpeed, Flatten(c.velocity))
  }

  /** The collider that entered the bullet's trigger, through the components
      found in its parents (None where GetComponentInParent finds nothing). */
  datatype Contact = Contact(health: Option<HealthId>, character: Option<Character>)

  predicate ValidContact(other: Contact) {
    other.character.Some? ==> WellMeasured(other.character.value)
  }

  /** `TakeDamageServerRpc(damage)` on the victim's PlayerHealth. */
  datatype DamageRequest = DamageRequest(target: HealthId, amount: int)

  /** `ApplyKnockbackClientRpc(...)`, sent only to `targetClient`. */
  datatype Knockback = Knockback(targetClient: ClientId, velocity: Vec3,
                                 gravityMultiplier: real, duration: real)

  datatype HitOutcome = HitOutcome(damage: Option<DamageRequest>,
                                   knockback: Option<Knockback>,
                                   despawn: bool)

  const Ignored := HitOutcome(None, None, false)

  /** The knockback for a character hit by a bullet travelling along
      `bulletForward`: the shared launch rule with the bullet's boosts. */
  function KnockbackFor(c: Config, bulletForward: Vec3, target: Character): (k: Knockback)
    requires WellMeasured(target)
    ensures k.targetClient == target.ownerClientId
    ensures k.gravityMultiplier == c.knockbackGravityMultiplier && k.duration == c.knockbackDuration
    ensures k.velocity == LaunchVelocity(target.velocity, target.horizontalSpeed, bulletForward,
                                         c.knockbackForwardBoost, c.knockbackUpwardBoost)
  {
    var currentVelocity := Flatten(target.velocity);
    var launchDir := LaunchDirection(currentVelocity, target.horizontalSpeed, bulletForward);
    var knockbackVelocity := Add(Add(currentVelocity, Scale(launchDir, c.knockbackForwardBoost)),
                                 UpBoost(c.knockbackUpwardBoost));
    Knockback(target.ownerClientId, knockbackVelocity, c.knockbackGravityMultiplier, c.knockbackDuration)
  }

  /** OnTriggerEnter. Only the server resolves hits. A contact whose
      PlayerHealth is the shooter's own (this includes a contact without
      PlayerHealth when the bullet has no owner) is ignored outright.
      Every other contact despawns the bullet, after a damage request of
      exactly `damage` to the PlayerHealth it carries and a knockback to the
      owner of the SurfCharacter it carries, each when present. */
  function ResolveHit(c: Config, owner: Option<HealthId>, bulletForward: Vec3,
                      isServer: bool, other: Contact): (r: HitOutcome)
    requires ValidContact(other)
    ensures !isServer || other.health == owner ==> r == Ignored
    ensures isServer && other.health != owner ==>
              && r.despawn
              && (r.damage.Some? <==> other.health.Some?)
              && (r.damage.Some? ==> r.damage.value == DamageRequest(other.health.value, c.damage))
              && (r.knockback.Some? <==> other.character.Some?)
              && (r.knockback.Some? ==> r.knockback.value.targetClient == other.character.value.ownerClientId)
              && (r.knockback.Some? ==> r.knockback.value == KnockbackFor(c, bulletForward, other.character.value))
  {
    if !isServer then Ignored
    else if other.health == owner then Ignored
    else
      var damage := if other.health.Some? then Some(DamageRequest(other.health.value, c.damage)) else None;
      var knockback := if other.character.Some? then Some(KnockbackFor(c, bulletForward, other.character.value)) else None;
      HitOutcome(damage, knockback, true)
  }

  /** A victim moving along the x axis at speed `s` is knocked back along
      x at `s + knockbackForwardBoost`, whatever the bullet's direction. */
  lemma HitAlongX(c: Config, owner: Option<HealthId>, bulletForward: Vec3,
                  victim: HealthId, client: ClientId, s: real)
    requires s > MovingThreshold && Some(victim) != owner
    ensures var target := Character(client, Vec3(s, 0.0, 0.0), s);
            && ValidContact(Contact(Some(victim), Some(target)))
            && ResolveHit(c, owner, bulletForward, true, Contact(Some(victim), Some(target)))
               == HitOutcome(Some(DamageRequest(victim, c.damage)),
                             Some(Knockback(client, Vec3(s + c.knockbackForwardBoost, c.knockbackUpwardBoost, 0.0),
                                            c.knockbackGravityMultiplier, c.knockbackDuration)),
                             true)
  {
    LaunchAlongX(s, 0.0, bulletForward, c.knockbackForwardBoost, c.knockbackUpwardBoost);
  }

  /** The worked example as a bullet hit: a victim moving at (5, 0, 0) and
      struck by a default bullet is asked for 10 damage and sent the launch
      velocity (15, 10, 0) with gravity multiplier 0.5 for one second, and
      the bullet despawns. */
  lemma DefaultHitExample(victim: HealthId, shooter: HealthId, client: ClientId)
    requires victim != shooter
    ensures var target := Character(client, Vec3(5.0, 0.0, 0.0), 5.0);
            && ValidContact(Contact(Some(victim), Some(target)))
            && ResolveHit(Defaults, Some(shooter), Forward, true, Contact(Some(victim), Some(target)))
               == HitOutcome(Some(DamageRequest(victim, 10)),
                             Some(Knockback(client, Vec3(15.0, 10.0, 0.0), 0.5, 1.0)),
                             true)
  {
    HitAlongX(Defaults, Some(shooter), Forward, victim, client, 5.0);
  }

  class Bullet {
    const config: Config
    const owner: Option<HealthId>
    var position: Vec3
    var forward: Vec3
    var spawnTime: real
    var despawned: bool

    constructor (config: Config, owner: Option<HealthId>, position: Vec3, forward: Vec3)
      ensures this.config == config && this.owner == owner
      ensures this.position == position && this.forward == forward
      ensures !despawned
    {
      this.config := config;
      this.owner := owner;
      this.position := position;
      this.forward := forward;
      spawnTime := 0.0;
      despawned := false;
    }

    /** Start: remembers the spawn time. */
    method Start(now: real)
      modifies this`spawnTime
      ensures spawnTime == now
    {
      spawnTime := now;
    }

    /** Update: the bullet advances along its forward direction on every
      peer; the server despawns it once strictly more than `lifeTime` has
      passed since it spawned. */
    method Update(now: real, deltaTime: real, isServer: bool)
      modifies this`position, this`despawned
      ensures position == Add(old(position), Scale(Scale(forward, config.projectileVelocity), deltaTime))
      ensures despawned == (old(despawned) || (isServer && now - spawnTime > config.lifeTime))
    {
      position := Add(position, Scale(Scale(forward, config.projectileVelocity), deltaTime));
      if isServer && now - spawnTime > config.lifeTime {
        despawned := true;
      }
    }

    /** OnTriggerEnter: resolves the contact and despawns when the outcome
      says so; the damage request and knockback are returned to the caller,
      which stands for the network. */
    method OnTriggerEnter(isServer: bool, other: Contact) returns (outcome: HitOutcome)
      requires ValidContact(other)
      modifies this`despawned
      ensures outcome == ResolveHit(config, owner, forward, isServer, other)
      ensures despawned == (old(despawned) || outcome.despawn)
    {
      outcome := ResolveHit(config, owner, forward, isServer, other);
      if outcome.despawn {
        despawned := true;
      }
    }
  }
}
