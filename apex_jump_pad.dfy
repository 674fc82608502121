/** The apex jump pad (Assets/Scripts/ApexJumpPad.cs): when the locally
    owned character enters the pad's trigger, it is handed a launch
    velocity built by the shared launch rule, together with the pad's
    gravity multiplier and duration. */
module ApexJumpPad {
  import opened Geometry
  import opened Wrappers
  import opened Launch

  datatype JumpPad = JumpPad(forwardBoost: real, upwardBoost: real,
                             gravityMultiplier: real, duration: real)

  /** The inspector defaults of the pad. */
  const DefaultPad := JumpPad(10.0, 10.0, 0.5, 1.0)

  /** What the pad sees of a SurfCharacter found in the entering object's
      parents: whether this peer owns it, its movement velocity, the
      engine-computed magnitude of that velocity's horizontal part, and the
      character's forward direction. */
  datatype Character = Character(isOwner: bool, velocity: Vec3, horizontalSpeed: real, forward: Vec3)

  predicate WellMeasured(c: Character) {
    IsMagnitudeOf(c.horizontalSpeed, Flatten(c.velocity))
  }

  /** The arguments of the call `character.ApplyApexJump(...)`. */
  datatype ApexJump = ApexJump(velocity: Vec3, gravityMultiplier: real, duration: real)

  /** OnTriggerEnter: `entering` is the result of GetComponentInParent,
      None when the object has no SurfCharacter. The pad acts only on a
      locally owned character and then passes its own gravity multiplier
      and duration through unchanged. */
  function OnTriggerEnter(pad: JumpPad, entering: Option<Character>): (r: Option<ApexJump>)
    requires entering.Some? ==> WellMeasured(entering.value)
    ensures r.Some? <==> entering.Some? && entering.value.isOwner
    ensures r.Some? ==> (r.value.gravityMultiplier == pad.gravityMultiplier
                         && r.value.duration == pad.duration)
    ensures r.Some? ==> r.value.velocity == LaunchVelocity(entering.value.velocity,
                          entering.value.horizontalSpeed, entering.value.forward,
                          pad.forwardBoost, pad.upwardBoost)
  {
    match entering
    case None => None
    case Some(c) =>
      if !c.isOwner then None
      else
        var horizontal := Flatten(c.velocity);
        var launchDir := LaunchDirection(horizontal, c.horizontalSpeed, c.forward);
        var jumpVelocity := Add(Add(horizontal, Scale(launchDir, pad.forwardBoost)),
                                UpBoost(pad.upwardBoost));
        Some(ApexJump(jumpVelocity, pad.gravityMultiplier, pad.duration))
  }

  /** A moving character keeps its heading on the pad: the jump's vertical
      speed is exactly the pad's upward boost and its horizontal part is the
      current horizontal velocity stretched by a factor of at least one. */
  lemma MovingCharacterKeepsHeading(pad: JumpPad, c: Character)
    requires WellMeasured(c) && c.isOwner && c.horizontalSpeed > MovingThreshold
    requires pad.forwardBoost >= 0.0
    ensures var r := OnTriggerEnter(pad, Some(c));
            var k := 1.0 + pad.forwardBoost / c.horizontalSpeed;
            && r.Some?
            && r.value.velocity.y == pad.upwardBoost
            && r.value.velocity.x == c.velocity.x * k
            && r.value.velocity.z == c.velocity.z * k
            && k >= 1.0
  {
    LaunchWhenMoving(c.velocity, c.horizontalSpeed, c.forward, pad.forwardBoost, pad.upwardBoost);
  }

  /** The character's current vertical speed does not change the jump. */
  lemma VerticalSpeedDiscarded(pad: JumpPad, c: Character, vy: real)
    requires WellMeasured(c)
    ensures WellMeasured(c.(velocity := c.velocity.(y := vy)))
    ensures OnTriggerEnter(pad, Some(c)) == OnTriggerEnter(pad, Some(c.(velocity := c.velocity.(y := vy))))
  {
    LaunchIgnoresVerticalSpeed(c.velocity, c.velocity.(y := vy), c.horizontalSpeed, c.forward,
                               pad.forwardBoost, pad.upwardBoost);
  }
}
