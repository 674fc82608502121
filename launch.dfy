/** The launch-velocity rule shared by the bullet's knockback
    (Assets/Scripts/Weapons/BulletProjectile.cs) and the apex jump pad
    (Assets/Scripts/ApexJumpPad.cs): keep the target's horizontal momentum,
    push it further along its direction of travel (or along a fallback
    facing direction when it is almost still) and add an upward boost. */
module Launch {
  import opened Geometry

  /** Horizontal speeds at or below this count as standing still. */
  const MovingThreshold: real := 0.1

  /** The direction of the boost: the normalised horizontal velocity when
      its magnitude `speed` exceeds the threshold, otherwise `fallback`. */
  function LaunchDirection(horizontal: Vec3, speed: real, fallback: Vec3): (r: Vec3)
    requires IsMagnitudeOf(speed, horizontal)
    ensures speed > MovingThreshold ==> SqrMagnitude(r) == 1.0 && r == Scale(horizontal, 1.0 / speed)
    ensures speed <= MovingThreshold ==> r == fallback
  {
    if speed > MovingThreshold then Normalized(horizontal, speed) else fallback
  }

  /** `Vector3.up * upwardBoost`. */
  function UpBoost(upwardBoost: real): (r: Vec3)
    ensures r == Scale(Up, upwardBoost)
  {
    Vec3(0.0, upwardBoost, 0.0)
  }

  /** `horizontal + launchDir * forwardBoost + Vector3.up * upwardBoost`, where
      `horizontal` is `velocity` with its vertical component zeroed and
      `speed` is the engine's magnitude of that horizontal part. */
  function LaunchVelocity(velocity: Vec3, speed: real, fallback: Vec3,
                          forwardBoost: real, upwardBoost: real): Vec3
    requires IsMagnitudeOf(speed, Flatten(velocity))
  {
    var horizontal := Flatten(velocity);
    Add(Add(horizontal, Scale(LaunchDirection(horizontal, speed, fallback), forwardBoost)),
        UpBoost(upwardBoost))
  }

  /** A moving target keeps its heading: the vertical part of the launch is
      exactly the upward boost, and the horizontal part is the current
      horizontal velocity stretched by 1 + forwardBoost / speed (a factor of
      at least one when the boost is not negative). */
  lemma LaunchWhenMoving(velocity: Vec3, speed: real, fallback: Vec3,
                         forwardBoost: real, upwardBoost: real)
    requires IsMagnitudeOf(speed, Flatten(velocity)) && speed > MovingThreshold
    ensures var r := LaunchVelocity(velocity, speed, fallback, forwardBoost, upwardBoost);
            var k := 1.0 + forwardBoost / speed;
            && r.y == upwardBoost
            && r.x == velocity.x * k
            && r.z == velocity.z * k
            && (forwardBoost >= 0.0 ==> k >= 1.0)
  {
    var k := 1.0 + forwardBoost / speed;
    var d := LaunchDirection(Flatten(velocity), speed, fallback);
    assert d == Scale(Flatten(velocity), 1.0 / speed);
    assert velocity.x * (1.0 / speed) * forwardBoost == velocity.x * (forwardBoost / speed);
    assert velocity.z * (1.0 / speed) * forwardBoost == velocity.z * (forwardBoost / speed);
    assert forwardBoost >= 0.0 ==> forwardBoost / speed >= 0.0;
  }

  /** A target that is (almost) still is pushed along the fallback direction. */
  lemma LaunchWhenStill(velocity: Vec3, speed: real, fallback: Vec3,
                        forwardBoost: real, upwardBoost: real)
    requires IsMagnitudeOf(speed, Flatten(velocity)) && speed <= MovingThreshold
    ensures LaunchVelocity(velocity, speed, fallback, forwardBoost, upwardBoost)
         == Add(Add(Flatten(velocity), Scale(fallback, forwardBoost)), Vec3(0.0, upwardBoost, 0.0))
  {
  }

  /** The vertical component of the current velocity plays no part. */
  lemma LaunchIgnoresVerticalSpeed(v1: Vec3, v2: Vec3, speed: real, fallback: Vec3,
                                   forwardBoost: real, upwardBoost: real)
    requires v1.x == v2.x && v1.z == v2.z
    requires IsMagnitudeOf(speed, Flatten(v1))
    ensures IsMagnitudeOf(speed, Flatten(v2))
    ensures LaunchVelocity(v1, speed, fallback, forwardBoost, upwardBoost)
         == LaunchVelocity(v2, speed, fallback, forwardBoost, upwardBoost)
  {
    assert Flatten(v1) == Flatten(v2);
  }

  /** A target moving along the x axis at speed `s` is launched along x at
      `s + forwardBoost`, whatever its vertical speed. */
  lemma LaunchAlongX(s: real, vy: real, fallback: Vec3, forwardBoost: real, upwardBoost: real)
    requires s > MovingThreshold
    ensures IsMagnitudeOf(s, Flatten(Vec3(s, vy, 0.0)))
    ensures LaunchVelocity(Vec3(s, vy, 0.0), s, fallback, forwardBoost, upwardBoost)
         == Vec3(s + forwardBoost, upwardBoost, 0.0)
  {
    var h := Flatten(Vec3(s, vy, 0.0));
    assert h == Vec3(s, 0.0, 0.0);
    assert LaunchDirection(h, s, fallback) == Vec3(1.0, 0.0, 0.0);
  }

  /** The worked example: a target moving at (5, 0, 0), attacker facing
      (0, 0, 1), both boosts 10, is launched at (15, 10, 0). */
  lemma KnockbackExample()
    ensures IsMagnitudeOf(5.0, Flatten(Vec3(5.0, 0.0, 0.0)))
    ensures LaunchVelocity(Vec3(5.0, 0.0, 0.0), 5.0, Forward, 10.0, 10.0) == Vec3(15.0, 10.0, 0.0)
  {
    LaunchAlongX(5.0, 0.0, Forward, 10.0, 10.0);
  }
}
