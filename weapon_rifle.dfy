/** The rifle's ammunition and reload state machine
    (Assets/Scripts/Weapons/WeaponRifle.cs). The owner's frame sends burst
    and reload requests through time gates; the server fires
    min(burstCount, bulletCount) bullets per burst, and a reload refills
    the magazine once `reloadTime` has passed. The object is modelled as
    it is seen on the host, where the server requests run on the same
    object; the reload coroutine is split into its start and the step that
    completes it. */
module Rifle {
  import opened Geometry
  import opened Wrappers

  /** The camera's position and forward direction when a burst is
      requested, and what the server's raycast along them hits. */
  datatype Shot = Shot(origin: Vec3, direction: Vec3, hit: Option<Vec3>)

  /** A point in time, or the `-Mathf.Infinity` the reload stamp starts at. */
  datatype Stamp = NegInfinity | At(t: real)

  /** `now - stamp >= gap`; always true against minus infinity. */
  predicate Elapsed(now: real, stamp: Stamp, gap: real) {
    match stamp
    case NegInfinity => true
    case At(t) => now - t >= gap
  }

  datatype Config = Config(
    magazineSize: int,
    fireRate: real,
    burstCount: int,
    bulletRange: real,
    reloadCooldown: real,
    reloadTime: real)

  /** The inspector defaults. */
  const Defaults := Config(30, 0.1, 3, 100.0, 2.0, 1.5)

  predicate ValidConfig(c: Config) {
    c.magazineSize >= 0 && c.burstCount >= 0
  }

  /** The rifle's fields: the replicated bullet count, the flags and the
      two time stamps, whether a camera was found at Start, and when the
      running reload began. */
  datatype State = State(
    bulletCount: int,
    isFiring: bool,
    isReloading: bool,
    lastFireTime: real,
    lastReloadAttempt: Stamp,
    reloadStartedAt: real,
    hasCamera: bool)

  /** The bullet count stays within the magazine. */
  predicate Inv(c: Config, s: State) {
    0 <= s.bulletCount <= c.magazineSize
  }

  function Min(a: int, b: int): int { if a < b then a else b }
  function Max(a: int, b: int): int { if a > b then a else b }

  /** Start: the server fills the magazine; every peer looks up the camera. */
  function Started(c: Config, s: State, isServer: bool, cameraFound: bool): State {
    s.(bulletCount := if isServer then c.magazineSize else s.bulletCount, hasCamera := cameraFound)
  }

  /** How many bullets FireBurst fires: its loop runs min(burstCount,
      bulletCount) times, and not at all when that is negative. */
  function BurstSize(c: Config, count: int): int {
    Max(0, Min(c.burstCount, count))
  }

  /** FireBurstServerRpc. */
  function BurstRequested(c: Config, s: State): State {
    if s.isReloading || s.bulletCount <= 0 then s
    else s.(bulletCount := s.bulletCount - BurstSize(c, s.bulletCount))
  }

  /** AttemptReloadServerRpc: starts the reload coroutine. */
  function ReloadRequested(c: Config, s: State, now: real): State {
    if !s.isReloading && s.bulletCount < c.magazineSize
    then s.(isReloading := true, reloadStartedAt := now, lastReloadAttempt := At(now))
    else s
  }

  /** The reload coroutine after its wait: the first frame at which
      `reloadTime` has passed refills the magazine and ends the reload. */
  function ReloadResumed(c: Config, s: State, now: real): State {
    if s.isReloading && now - s.reloadStartedAt >= c.reloadTime
    then s.(bulletCount := c.magazineSize, isReloading := false)
    else s
  }

  /** The owner's fire gate in HandleInput. */
  predicate FireGate(c: Config, s: State, now: real, fireHeld: bool) {
    fireHeld && !s.isReloading && s.bulletCount > 0
    && now - s.lastFireTime >= c.fireRate && s.hasCamera
  }

  /** HandleInput: the fire request (with the server running it), then the
      reload request on the reload key. */
  function InputHandled(c: Config, s: State, now: real, fireHeld: bool, reloadDown: bool): State {
    var s0 := s.(isFiring := fireHeld);
    var s1 := if FireGate(c, s, now, fireHeld)
              then BurstRequested(c, s0).(lastFireTime := now) else s0;
    if reloadDown then ReloadRequested(c, s1, now) else s1
  }

  /** The automatic-reload gate in HandleAutomaticReload. */
  predicate AutoReloadGate(c: Config, s: State, now: real) {
    s.bulletCount <= 0 && !s.isReloading && Elapsed(now, s.lastReloadAttempt, c.reloadCooldown)
  }

  function AutoReloadHandled(c: Config, s: State, now: real): State {
    if AutoReloadGate(c, s, now)
    then ReloadRequested(c, s, now).(lastReloadAttempt := At(now))
    else s
  }

  /** Update: only the owner handles input and automatic reload. */
  function Updated(c: Config, s: State, isOwner: bool, now: real, fireHeld: bool, reloadDown: bool): State {
    if isOwner then AutoReloadHandled(c, InputHandled(c, s, now, fireHeld, reloadDown), now) else s
  }

  /** UseWeapon's gate: no fire-rate check. */
  predicate UseGate(s: State, isOwner: bool) {
    isOwner && !s.isReloading && s.bulletCount > 0 && s.hasCamera
  }

  function Used(c: Config, s: State, isOwner: bool): State {
    if UseGate(s, isOwner) then BurstRequested(c, s) else s
  }

  /** Where FireSingleBullet draws the trail to: the raycast's hit point, or
      the point `bulletRange` along the direction. */
  function TrailEnd(c: Config, origin: Vec3, direction: Vec3, hit: Option<Vec3>): Vec3 {
    if hit.Some? then hit.value else Add(origin, Scale(direction, c.bulletRange))
  }

  /** A burst request is ignored while reloading or with an empty magazine;
      otherwise it removes exactly min(burstCount, bulletCount) bullets,
      never leaving a negative count, and touches nothing else. */
  lemma BurstStep(c: Config, s: State)
    requires c.burstCount >= 0
    ensures var r := BurstRequested(c, s);
            && (s.isReloading || s.bulletCount <= 0 ==> r == s)
            && (!s.isReloading && s.bulletCount > 0 ==>
                  && r.bulletCount == s.bulletCount - Min(c.burstCount, s.bulletCount)
                  && r.bulletCount >= 0
                  && r == s.(bulletCount := r.bulletCount))
  {
  }

  /** A reload request starts a reload exactly when none is running and the
      magazine is not full; completion refills it and clears the flag. */
  lemma ReloadSteps(c: Config, s: State, now: real, later: real)
    ensures var r := ReloadRequested(c, s, now);
            && (!s.isReloading && s.bulletCount < c.magazineSize ==>
                  r == s.(isReloading := true, reloadStartedAt := now, lastReloadAttempt := At(now)))
            && (s.isReloading || s.bulletCount >= c.magazineSize ==> r == s)
            && (r != s <==> !s.isReloading && s.bulletCount < c.magazineSize)
    ensures var r := ReloadRequested(c, s, now);
            !s.isReloading && s.bulletCount < c.magazineSize && later - now >= c.reloadTime ==>
              var f := ReloadResumed(c, r, later);
              f.bulletCount == c.magazineSize && !f.isReloading
  {
    var r := ReloadRequested(c, s, now);
    if !s.isReloading && s.bulletCount < c.magazineSize {
      assert r.isReloading != s.isReloading;
    }
  }

  /** HandleInput moves lastFireTime to `now` exactly when the fire gate
      passes, and a burst is then actually taken from the magazine. */
  lemma InputFireGate(c: Config, s: State, now: real, fireHeld: bool)
    requires c.burstCount > 0
    ensures var r := InputHandled(c, s, now, fireHeld, false);
            && r.lastFireTime == (if FireGate(c, s, now, fireHeld) then now else s.lastFireTime)
            && (FireGate(c, s, now, fireHeld) <==> r.bulletCount < s.bulletCount)
            && r.isReloading == s.isReloading
  {
  }

  /** The automatic reload fires only on an empty magazine, outside a
      reload and after the cooldown, and then stamps the attempt. */
  lemma AutoReloadStep(c: Config, s: State, now: real)
    requires c.magazineSize > 0
    ensures var r := AutoReloadHandled(c, s, now);
            && (!AutoReloadGate(c, s, now) ==> r == s)
            && (AutoReloadGate(c, s, now) ==> r.isReloading && r.lastReloadAttempt == At(now)
                                              && r.reloadStartedAt == now)
  {
  }

  /** UseWeapon ignores the fire-rate gate and never moves lastFireTime:
      it can fire when HandleInput would not. */
  lemma UseSkipsFireRate(c: Config, s: State, now: real)
    requires c.burstCount > 0 && s.hasCamera && !s.isReloading && s.bulletCount > 0
    requires now - s.lastFireTime < c.fireRate
    ensures !FireGate(c, s, now, true)
    ensures Used(c, s, true).bulletCount < s.bulletCount
    ensures Used(c, s, true).lastFireTime == s.lastFireTime
  {
  }

  /** Every step keeps the bullet count within [0, magazineSize], and the
      server's Start establishes it. */
  lemma InvPreserved(c: Config, s: State, isServer: bool, cameraFound: bool, isOwner: bool,
                     now: real, fireHeld: bool, reloadDown: bool)
    requires ValidConfig(c)
    ensures Inv(c, Started(c, s, true, cameraFound))
    ensures Inv(c, s) ==> Inv(c, Started(c, s, isServer, cameraFound))
    ensures Inv(c, s) ==> Inv(c, Updated(c, s, isOwner, now, fireHeld, reloadDown))
    ensures Inv(c, s) ==> Inv(c, Used(c, s, isOwner))
    ensures Inv(c, s) ==> Inv(c, ReloadResumed(c, s, now))
  {
  }

  /** `k` burst requests in a row. */
  function Bursts(c: Config, s: State, k: nat): State
    decreases k
  {
    if k == 0 then s else Bursts(c, BurstRequested(c, s), k - 1)
  }

  /** Outside a reload, k bursts of b bullets leave max(0, n - k*b). */
  lemma {:induction false} BurstsDrain(c: Config, s: State, k: nat)
    requires c.burstCount >= 0 && s.bulletCount >= 0 && !s.isReloading
    ensures Bursts(c, s, k).bulletCount == Max(0, s.bulletCount - k * c.burstCount)
    ensures !Bursts(c, s, k).isReloading
    decreases k
  {
    if k > 0 {
      var next := BurstRequested(c, s);
      assert k * c.burstCount == c.burstCount + (k - 1) * c.burstCount;
      assert (k - 1) * c.burstCount >= 0;
      if s.bulletCount > 0 {
        BurstsDrain(c, next, k - 1);
      } else {
        BurstsDrain(c, s, k - 1);
      }
    }
  }

  /** With the defaults, a full magazine of 30 empties after exactly ten
      bursts of three, and not before. */
  lemma DefaultMagazineEmptiesAfterTenBursts(s: State)
    requires s.bulletCount == 30 && !s.isReloading
    ensures Bursts(Defaults, s, 10).bulletCount == 0
    ensures Bursts(Defaults, s, 9).bulletCount == 3
  {
    BurstsDrain(Defaults, s, 10);
    BurstsDrain(Defaults, s, 9);
  }

  class WeaponRifle {
    const config: Config
    var bulletCount: int
    var isFiring: bool
    var isReloading: bool
    var lastFireTime: real
    var lastReloadAttempt: Stamp
    /** When the running Reload coroutine started its wait. */
    var reloadStartedAt: real
    /** Whether Start found the main camera. */
    var hasCamera: bool

    function Snapshot(): State
      reads this
    {
      State(bulletCount, isFiring, isReloading, lastFireTime, lastReloadAttempt, reloadStartedAt, hasCamera)
    }

    /** A new component: the network variable holds 0 until the server's
        Start, the fire stamp is 0 and the reload stamp minus infinity. */
    constructor (config: Config)
      ensures this.config == config
      ensures Snapshot() == State(0, false, false, 0.0, NegInfinity, 0.0, false)
    {
      this.config := config;
      bulletCount := 0;
      isFiring := false;
      isReloading := false;
      lastFireTime := 0.0;
      lastReloadAttempt := NegInfinity;
      reloadStartedAt := 0.0;
      hasCamera := false;
    }

    method Start(isServer: bool, cameraFound: bool)
      modifies this
      ensures Snapshot() == Started(config, old(Snapshot()), isServer, cameraFound)
    {
      if isServer {
        bulletCount := config.magazineSize;
      }
      hasCamera := cameraFound;
    }

    method Update(isOwner: bool, now: real, fireHeld: bool, reloadDown: bool, shot: Shot)
      modifies this
      ensures Snapshot() == Updated(config, old(Snapshot()), isOwner, now, fireHeld, reloadDown)
    {
      if isOwner {
        HandleInput(now, fireHeld, reloadDown, shot);
        HandleAutomaticReload(now);
      }
    }

    method HandleInput(now: real, fireHeld: bool, reloadDown: bool, shot: Shot)
      modifies this
      ensures Snapshot() == InputHandled(config, old(Snapshot()), now, fireHeld, reloadDown)
    {
      isFiring := fireHeld;
      if isFiring && !isReloading && bulletCount > 0 {
        if now - lastFireTime >= config.fireRate {
          if hasCamera {
            var _ := FireBurstServerRpc(shot);
            lastFireTime := now;
          }
        }
      }
      if reloadDown {
        AttemptReloadServerRpc(now);
      }
    }

    method HandleAutomaticReload(now: real)
      modifies this
      ensures Snapshot() == AutoReloadHandled(config, old(Snapshot()), now)
    {
      if bulletCount <= 0 && !isReloading {
        if Elapsed(now, lastReloadAttempt, config.reloadCooldown) {
          AttemptReloadServerRpc(now);
          lastReloadAttempt := At(now);
        }
      }
    }

    method AttemptReloadServerRpc(now: real)
      modifies this
      ensures Snapshot() == ReloadRequested(config, old(Snapshot()), now)
    {
      if !isReloading && bulletCount < config.magazineSize {
        StartReload(now);
        lastReloadAttempt := At(now);
      }
    }

    /** The Reload coroutine up to its wait. */
    method StartReload(now: real)
      modifies this
      ensures Snapshot() == old(Snapshot()).(isReloading := true, reloadStartedAt := now)
    {
      isReloading := true;
      reloadStartedAt := now;
    }

    /** The Reload coroutine's resumption, polled each frame. */
    method ResumeReload(now: real)
      modifies this
      ensures Snapshot() == ReloadResumed(config, old(Snapshot()), now)
    {
      if isReloading && now - reloadStartedAt >= config.reloadTime {
        bulletCount := config.magazineSize;
        isReloading := false;
      }
    }

    /** FireBurstServerRpc: returns the trail end points sent to clients. */
    method FireBurstServerRpc(shot: Shot) returns (trailEnds: seq<Vec3>)
      modifies this
      ensures Snapshot() == BurstRequested(config, old(Snapshot()))
      ensures |trailEnds| == old(bulletCount) - bulletCount
    {
      if isReloading || bulletCount <= 0 {
        return [];
      }
      trailEnds := FireBurst(shot.origin, shot.direction, shot.hit);
    }

    /** FireBurst: one FireSingleBullet per bullet to fire. The raycast is
        the same for every bullet of a burst and is given as `hit`; the
        trail end points sent to the clients are returned. */
    method FireBurst(origin: Vec3, direction: Vec3, hit: Option<Vec3>) returns (trailEnds: seq<Vec3>)
      modifies this`bulletCount
      ensures bulletCount == old(bulletCount) - BurstSize(config, old(bulletCount))
      ensures |trailEnds| == BurstSize(config, old(bulletCount))
      ensures forall i :: 0 <= i < |trailEnds| ==> trailEnds[i] == TrailEnd(config, origin, direction, hit)
    {
      var bulletsToFire := Min(config.burstCount, bulletCount);
      var i := 0;
      trailEnds := [];
      while i < bulletsToFire
        invariant i <= Max(0, bulletsToFire)
        invariant bulletCount == old(bulletCount) - i
        invariant |trailEnds| == i
        invariant forall k :: 0 <= k < i ==> trailEnds[k] == TrailEnd(config, origin, direction, hit)
      {
        var endPoint := FireSingleBullet(origin, direction, hit);
        trailEnds := trailEnds + [endPoint];
        i := i + 1;
      }
    }

    /** FireSingleBullet: spends one bullet and returns where its trail ends. */
    method FireSingleBullet(origin: Vec3, direction: Vec3, hit: Option<Vec3>) returns (endPoint: Vec3)
      modifies this`bulletCount
      ensures bulletCount == old(bulletCount) - 1
      ensures endPoint == TrailEnd(config, origin, direction, hit)
    {
      bulletCount := bulletCount - 1;
      endPoint := if hit.Some? then hit.value else Add(origin, Scale(direction, config.bulletRange));
    }

    method UseWeapon(isOwner: bool, shot: Shot)
      modifies this
      ensures Snapshot() == Used(config, old(Snapshot()), isOwner)
    {
      if isOwner && !isReloading && bulletCount > 0 {
        if hasCamera {
          var _ := FireBurstServerRpc(shot);
        }
      }
    }

    /** The animation code the weapon manager reads. */
    const animationCode := 1
  }
}
