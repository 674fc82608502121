/** The bookkeeping around the surf character controller
    (Assets/Scripts/Movement/SurfCharacter.cs): the owner's input mapping,
    resets and teleports, the list of triggers the character stands in and
    the underwater flag derived from it, the angle clamp, and the push a
    rigidbody gives on contact. The movement physics itself belongs to the
    controller, which is not part of this model. */
module Surf {
  import opened Geometry
  import opened Wrappers
  import opened Movement

  /** Identities of colliders and game objects. */
  type ColliderId = nat
  type ObjectId = nat

  /** The smallest positive single-precision value. */
  const FloatEpsilon: real := 1.401298 / 1000000000000000000000000000000000000000000000.0

  /** `Mathf.Approximately(x, 0f)`: the relative tolerance is useless
      against zero, so only the absolute one, eight times the epsilon,
      applies. */
  predicate ApproxZero(x: real) {
    Abs(x) < 8.0 * FloatEpsilon
  }

  /** How one input axis becomes a move value. */
  function AxisToMove(axis: real, acceleration: real): real {
    if !ApproxZero(axis) then (if axis > 0.0 then acceleration else -acceleration) else 0.0
  }

  /** An axis pushed one way moves the character with the full
      acceleration that way; an axis at rest gives no move. */
  lemma AxisMapping(axis: real, acceleration: real)
    requires acceleration > 0.0
    ensures var r := AxisToMove(axis, acceleration);
            && (r == 0.0 <==> ApproxZero(axis))
            && (r == acceleration <==> !ApproxZero(axis) && axis > 0.0)
            && (r == -acceleration <==> !ApproxZero(axis) && axis < 0.0)
  {
  }

  /** The animator's "moving" flag. */
  predicate Moving(horizontal: real, vertical: real) {
    Abs(horizontal) > 0.1 || Abs(vertical) > 0.1
  }

  /** One frame of the owner's input: the two raw axes, the buttons, and
      the view angles from the aiming component when there is one. */
  datatype Input = Input(vertical: real, horizontal: real, sprinting: bool,
                         jumpPressed: bool, crouchHeld: bool, aim: Option<Vec3>)

  /** What Update writes into the movement record. */
  function InputApplied(m: MoveData, input: Input, acceleration: real): MoveData {
    m.(viewAngles := if input.aim.Some? then input.aim.value else Zero,
       verticalAxis := input.vertical,
       horizontalAxis := input.horizontal,
       wishJump := input.jumpPressed,
       crouching := input.crouchHeld,
       sprinting := input.sprinting,
       sideMove := AxisToMove(input.horizontal, acceleration),
       forwardMove := AxisToMove(input.vertical, acceleration))
  }

  /** The horizontal axis drives sideMove and the vertical one forwardMove;
      the position, velocity and environment flags are left to the
      controller. */
  lemma InputMapping(m: MoveData, input: Input, acceleration: real)
    requires acceleration > 0.0
    ensures var r := InputApplied(m, input, acceleration);
            && (r.sideMove == 0.0 <==> ApproxZero(input.horizontal))
            && (r.sideMove > 0.0 <==> !ApproxZero(input.horizontal) && input.horizontal > 0.0)
            && (r.forwardMove == 0.0 <==> ApproxZero(input.vertical))
            && (r.forwardMove > 0.0 <==> !ApproxZero(input.vertical) && input.vertical > 0.0)
            && (input.aim.None? ==> r.viewAngles == Zero)
            && r.origin == m.origin && r.velocity == m.velocity
            && r.underwater == m.underwater && r.grounded == m.grounded
  {
    AxisMapping(input.horizontal, acceleration);
    AxisMapping(input.vertical, acceleration);
  }

  /** The movement part of a reset. */
  function Reset(m: MoveData, spawn: Vec3): MoveData {
    m.(velocity := Zero, origin := spawn, viewAngles := Zero, crouching := false, sprinting := false)
  }

  /** The local pose of the view transform. */
  datatype View = View(localPosition: Vec3, localRotation: Quat)

  /** Everything a reset writes: the movement record, the character's
      transform, the local rotation of the player-rotation transform and
      the view transform's pose (None where those transforms are missing). */
  datatype Body = Body(moveData: MoveData, position: Vec3, rotation: Quat,
                       playerRotation: Option<Quat>, view: Option<View>)

  /** ResetClientRpc's effect on the owner; ResetCharacter is the same with
      the start position and the identity rotation. */
  function Teleported(b: Body, spawn: Vec3, rotation: Quat): Body {
    Body(Reset(b.moveData, spawn), spawn, rotation,
         if b.playerRotation.Some? then Some(Identity) else None,
         if b.view.Some? then Some(View(b.moveData.viewTransformDefaultLocalPos, Identity)) else None)
  }

  /** After a reset the character stands still at the spawn point, looking
      straight ahead, neither crouching nor sprinting; every other movement
      field is kept. */
  lemma TeleportedState(b: Body, spawn: Vec3, rotation: Quat)
    ensures var r := Teleported(b, spawn, rotation);
            && r.position == spawn && r.rotation == rotation
            && r.moveData.origin == spawn && r.moveData.velocity == Zero
            && r.moveData.viewAngles == Zero
            && !r.moveData.crouching && !r.moveData.sprinting
            && r.moveData.(velocity := b.moveData.velocity, origin := b.moveData.origin,
                           viewAngles := b.moveData.viewAngles, crouching := b.moveData.crouching,
                           sprinting := b.moveData.sprinting) == b.moveData
            && (r.view.Some? <==> b.view.Some?)
            && (r.view.Some? ==> r.view.value.localPosition == b.moveData.viewTransformDefaultLocalPos)
  {
  }

  /** Resetting twice to the same place is resetting once. */
  lemma TeleportIdempotent(b: Body, spawn: Vec3, rotation: Quat)
    ensures Teleported(Teleported(b, spawn, rotation), spawn, rotation) == Teleported(b, spawn, rotation)
  {
  }

  /** No identity appears twice. */
  predicate NoDuplicates(ts: seq<ColliderId>) {
    forall i, j :: 0 <= i < j < |ts| ==> ts[i] != ts[j]
  }

  /** OnTriggerEnter: `Contains`, then `Add`. */
  function Entered(ts: seq<ColliderId>, c: ColliderId): seq<ColliderId> {
    if c in ts then ts else ts + [c]
  }

  /** `List.Remove`: drops the first occurrence. */
  function RemoveFirst(ts: seq<ColliderId>, c: ColliderId): seq<ColliderId> {
    if ts == [] then []
    else if ts[0] == c then ts[1..]
    else [ts[0]] + RemoveFirst(ts[1..], c)
  }

  /** OnTriggerExit: `Contains`, then `Remove`. */
  function Exited(ts: seq<ColliderId>, c: ColliderId): seq<ColliderId> {
    if c in ts then RemoveFirst(ts, c) else ts
  }

  lemma {:induction false} RemoveFirstFacts(ts: seq<ColliderId>, c: ColliderId)
    requires NoDuplicates(ts)
    ensures var r := RemoveFirst(ts, c);
            && NoDuplicates(r)
            && (forall d :: d in r <==> d in ts && d != c)
            && |r| == if c in ts then |ts| - 1 else |ts|
    decreases |ts|
  {
    if ts != [] && ts[0] != c {
      assert NoDuplicates(ts[1..]) by {
        forall i, j | 0 <= i < j < |ts[1..]|
          ensures ts[1..][i] != ts[1..][j]
        {
          assert ts[1..][i] == ts[i + 1] && ts[1..][j] == ts[j + 1];
        }
      }
      RemoveFirstFacts(ts[1..], c);
      var rest := RemoveFirst(ts[1..], c);
      assert ts[0] !in ts[1..] by {
        forall k | 0 <= k < |ts[1..]|
          ensures ts[1..][k] != ts[0]
        {
          assert ts[1..][k] == ts[k + 1];
        }
      }
      assert c in ts <==> c in ts[1..] by {
        assert ts == [ts[0]] + ts[1..];
      }
      forall d
        ensures d in [ts[0]] + rest <==> d in ts && d != c
      {
        assert ts == [ts[0]] + ts[1..];
      }
    } else if ts != [] {
      forall d
        ensures d in ts[1..] <==> d in ts && d != c
      {
        assert ts == [ts[0]] + ts[1..];
        if d == c {
          forall k | 0 <= k < |ts[1..]|
            ensures ts[1..][k] != c
          {
            assert ts[1..][k] == ts[k + 1];
          }
        }
      }
      forall i, j | 0 <= i < j < |ts[1..]|
        ensures ts[1..][i] != ts[1..][j]
      {
        assert ts[1..][i] == ts[i + 1] && ts[1..][j] == ts[j + 1];
      }
    }
  }

  /** The trigger list never holds a collider twice: entering adds only an
      absent collider, leaving removes a present one, and the rest of the
      list is unaffected. */
  lemma TriggerDiscipline(ts: seq<ColliderId>, c: ColliderId)
    requires NoDuplicates(ts)
    ensures NoDuplicates(Entered(ts, c)) && NoDuplicates(Exited(ts, c))
    ensures forall d :: d in Entered(ts, c) <==> d in ts || d == c
    ensures forall d :: d in Exited(ts, c) <==> d in ts && d != c
    ensures |Entered(ts, c)| == if c in ts then |ts| else |ts| + 1
    ensures |Exited(ts, c)| == if c in ts then |ts| - 1 else |ts|
  {
    RemoveFirstFacts(ts, c);
  }

  /** `RemoveAll(item => item == null)`: keeps the colliders still alive. */
  function Alive(ts: seq<ColliderId>, live: set<ColliderId>): (r: seq<ColliderId>)
    ensures |r| <= |ts|
  {
    if ts == [] then []
    else if ts[0] in live then [ts[0]] + Alive(ts[1..], live)
    else Alive(ts[1..], live)
  }

  /** Only live colliders survive, each as often as it was listed. */
  lemma {:induction false} AliveContents(ts: seq<ColliderId>, live: set<ColliderId>)
    ensures forall k :: 0 <= k < |Alive(ts, live)| ==> Alive(ts, live)[k] in live
    ensures forall d :: d in Alive(ts, live) <==> d in ts && d in live
    ensures forall d :: multiset(Alive(ts, live))[d] == if d in live then multiset(ts)[d] else 0
    decreases |ts|
  {
    if ts != [] {
      assert ts == [ts[0]] + ts[1..];
      AliveContents(ts[1..], live);
    }
  }

  /** One step of RemoveAll: the head survives exactly when it is alive. */
  lemma AliveCons(c: ColliderId, t: seq<ColliderId>, live: set<ColliderId>)
    ensures Alive([c] + t, live) == (if c in live then [c] else []) + Alive(t, live)
  {
    var ct := [c] + t;
    assert ct[0] == c && ct[1..] == t;
  }

  /** RemoveAll keeps the survivors in their order: filtering a list is
      filtering its two halves and joining the results. */
  lemma {:induction false} AliveAppend(a: seq<ColliderId>, b: seq<ColliderId>, live: set<ColliderId>)
    ensures Alive(a + b, live) == Alive(a, live) + Alive(b, live)
    decreases |a|
  {
    if a == [] {
      assert a + b == b;
    } else {
      var head := if a[0] in live then [a[0]] else [];
      assert Alive(a + b, live) == head + Alive(a[1..] + b, live) by {
        assert a + b == [a[0]] + (a[1..] + b);
        AliveCons(a[0], a[1..] + b, live);
      }
      assert Alive(a, live) == head + Alive(a[1..], live) by {
        assert a == [a[0]] + a[1..];
        AliveCons(a[0], a[1..], live);
      }
      AliveAppend(a[1..], b, live);
      var x, y := Alive(a[1..], live), Alive(b, live);
      assert head + (x + y) == (head + x) + y;
    }
  }

  /** Dropping destroyed colliders cannot create a duplicate. */
  lemma {:induction false} AliveKeepsDistinct(ts: seq<ColliderId>, live: set<ColliderId>)
    requires NoDuplicates(ts)
    ensures NoDuplicates(Alive(ts, live))
    decreases |ts|
  {
    if ts != [] {
      assert NoDuplicates(ts[1..]) by {
        forall i, j | 0 <= i < j < |ts[1..]|
          ensures ts[1..][i] != ts[1..][j]
        {
          assert ts[1..][i] == ts[i + 1] && ts[1..][j] == ts[j + 1];
        }
      }
      AliveKeepsDistinct(ts[1..], live);
      var rest := Alive(ts[1..], live);
      if ts[0] in live {
        assert ts[0] !in ts[1..] by {
          forall k | 0 <= k < |ts[1..]|
            ensures ts[1..][k] != ts[0]
          {
            assert ts[1..][k] == ts[k + 1];
          }
        }
        AliveContents(ts[1..], live);
        assert ts[0] !in rest;
        var r := [ts[0]] + rest;
        forall i, j | 0 <= i < j < |r|
          ensures r[i] != r[j]
        {
          assert r[j] == rest[j - 1];
          if i > 0 {
            assert r[i] == rest[i - 1];
          }
        }
      }
    }
  }

  /** The trigger bookkeeping of the character. */
  datatype Triggers = Triggers(list: seq<ColliderId>, counted: int, underwater: bool)

  /** Is any of the listed colliders inside a water volume? */
  predicate AnyWater(ts: seq<ColliderId>, water: set<ColliderId>) {
    exists k :: 0 <= k < |ts| && ts[k] in water
  }

  /** HandleWaterAndTriggers' recheck: only when the list's length differs
      from the remembered count, the count is taken, dead colliders are
      dropped and underwater becomes whether a remaining one is water. */
  function Rechecked(t: Triggers, live: set<ColliderId>, water: set<ColliderId>): Triggers {
    if t.counted != |t.list|
    then Triggers(Alive(t.list, live), |t.list|, AnyWater(Alive(t.list, live), water))
    else t
  }

  /** With a changed count, underwater ends up true exactly when a live
      trigger is water; with an unchanged count nothing is recomputed. */
  lemma RecheckMeaning(t: Triggers, live: set<ColliderId>, water: set<ColliderId>)
    ensures t.counted == |t.list| ==> Rechecked(t, live, water) == t
    ensures t.counted != |t.list| ==>
              (Rechecked(t, live, water).underwater <==> exists d :: d in t.list && d in live && d in water)
  {
    if t.counted != |t.list| {
      var kept := Alive(t.list, live);
      AliveContents(t.list, live);
      if exists d :: d in t.list && d in live && d in water {
        var d :| d in t.list && d in live && d in water;
        assert d in kept;
        var k :| 0 <= k < |kept| && kept[k] == d;
      }
    }
  }

  /** Because the recheck keys on the count alone, leaving one trigger and
      entering another between two fixed updates leaves underwater stale:
      here the character ends up inside water with the flag still false. */
  lemma SwapLeavesUnderwaterStale()
    ensures var before := Triggers([1], 1, false);
            var after := Triggers(Entered(Exited(before.list, 1), 2), before.counted, before.underwater);
            && after.list == [2]
            && !Rechecked(after, {2}, {2}).underwater
  {
    assert Exited([1], 1) == [];
  }

  /** `ClampAngle(angle, from, to)`: the answer is the angle (shifted once
      by 360 when negative) or one of the two limits; an angle already in
      [0, to] or in [from, 0) is kept, the latter on the wrapped-around side. */
  function ClampAngle(angle: real, from: real, to: real): (r: real)
    ensures r == angle || r == angle + 360.0 || r == to || r == 360.0 + from
    ensures 0.0 <= angle <= to <= 180.0 ==> r == angle
    ensures -180.0 < angle && from <= angle < 0.0 ==> r == angle + 360.0
  {
    var a := if angle < 0.0 then angle + 360.0 else angle;
    if a > 180.0 then MaxR(a, 360.0 + from) else MinR(a, to)
  }

  /** For an angle in [-360, 360) and limits -180 <= from <= 0 <= to <= 180,
      the result lies in [0, to] or in [360 + from, 360]: the lower limit is
      met on the wrapped-around side. Below -360 the single shift of 360
      leaves the angle negative. */
  lemma ClampAngleRange(angle: real, from: real, to: real)
    requires -180.0 <= from <= 0.0 <= to <= 180.0
    ensures -360.0 <= angle < 360.0 ==>
              var r := ClampAngle(angle, from, to);
              (0.0 <= r <= to) || (360.0 + from <= r <= 360.0)
    ensures angle < -360.0 ==> ClampAngle(angle, from, to) < 0.0
  {
  }

  /** The contact data OnCollisionStay reads from a collision with a
      rigidbody. */
  datatype Contact = Contact(relativeVelocity: Vec3, mass: real)

  /** The pushed velocity before its magnitude is clamped. */
  function Unclamped(v: Vec3, c: Contact): Vec3 {
    var rel := Scale(c.relativeVelocity, c.mass / 50.0);
    var impact := Vec3(rel.x * 0.0025, rel.y * 0.00025, rel.z * 0.0025);
    var maxY := MaxR(v.y, 10.0);
    Vec3(v.x + impact.x, Clamp(v.y + Clamp(impact.y, -0.5, 0.5), -maxY, maxY), v.z + impact.z)
  }

  /** `Vector3.ClampMagnitude(u, limit)` with the engine's magnitude `um`. */
  function ClampMagnitude(u: Vec3, um: real, limit: real): (r: Vec3)
    requires IsMagnitudeOf(um, u) && limit >= 0.0
    ensures um <= limit ==> r == u
    ensures um > limit ==> r == Scale(u, limit / um)
  {
    if um > limit then Scale(u, limit / um) else u
  }

  lemma FractionBelowOne(a: real, b: real)
    requires 0.0 < a < b
    ensures 0.0 < a / b < 1.0
  {
    var inv := 1.0 / b;
    assert inv > 0.0;
    assert (b - a) * inv > 0.0;
    assert b * inv == 1.0;
    assert a / b == a * inv;
  }

  /** Scaling a vector by k scales its squared length by k * k. */
  lemma ScaleSqrMagnitude(u: Vec3, k: real)
    ensures SqrMagnitude(Scale(u, k)) == (k * k) * SqrMagnitude(u)
  {
    var r := Scale(u, k);
    assert r.x * r.x == (k * k) * (u.x * u.x);
    assert r.y * r.y == (k * k) * (u.y * u.y);
    assert r.z * r.z == (k * k) * (u.z * u.z);
  }

  lemma SquareOfProduct(k: real, m: real)
    ensures (k * k) * (m * m) == (k * m) * (k * m)
  {
  }

  /** The clamped vector is no longer than the limit, and a bound on the
      vertical component survives the clamp. */
  lemma ClampMagnitudeShrinks(u: Vec3, um: real, limit: real, bound: real)
    requires IsMagnitudeOf(um, u) && limit > 0.0
    ensures SqrMagnitude(ClampMagnitude(u, um, limit)) <= limit * limit
    ensures -bound <= u.y <= bound ==> -bound <= ClampMagnitude(u, um, limit).y <= bound
  {
    if um > limit {
      var k := limit / um;
      assert k * um == limit;
      FractionBelowOne(limit, um);
      ScaleSqrMagnitude(u, k);
      SquareOfProduct(k, um);
      if -bound <= u.y <= bound {
        if u.y >= 0.0 {
          assert 0.0 <= u.y * k <= u.y;
        } else {
          assert u.y <= u.y * k <= 0.0;
        }
      }
    } else {
      assert um * um <= limit * limit;
    }
  }

  /** OnCollisionStay's new velocity: `vm` is the magnitude of the current
      velocity and `um` that of the unclamped push. Without a rigidbody on
      the other side nothing changes. */
  function Pushed(v: Vec3, vm: real, contact: Option<Contact>, um: real): Vec3
    requires IsMagnitudeOf(vm, v)
    requires contact.Some? ==> IsMagnitudeOf(um, Unclamped(v, contact.value))
  {
    match contact
    case None => v
    case Some(c) => ClampMagnitude(Unclamped(v, c), um, MaxR(vm, 30.0))
  }

  /** The vertical impulse is at most 0.5 either way, the new vertical
      speed stays within max(vy, 10) either way, and the speed does not
      exceed max(|v|, 30). */
  lemma PushBounds(v: Vec3, vm: real, contact: Option<Contact>, um: real)
    requires IsMagnitudeOf(vm, v)
    requires contact.Some? ==> IsMagnitudeOf(um, Unclamped(v, contact.value))
    ensures contact.None? ==> Pushed(v, vm, contact, um) == v
    ensures contact.Some? ==>
              var r := Pushed(v, vm, contact, um);
              var maxY := MaxR(v.y, 10.0);
              && -maxY <= r.y <= maxY
              && v.y - 0.5 <= Unclamped(v, contact.value).y <= MaxR(v.y + 0.5, 10.0)
              && SqrMagnitude(r) <= MaxR(vm, 30.0) * MaxR(vm, 30.0)
  {
    if contact.Some? {
      ClampMagnitudeShrinks(Unclamped(v, contact.value), um, MaxR(vm, 30.0), MaxR(v.y, 10.0));
    }
  }

  class SurfCharacter {
    /** The movement configuration's acceleration. */
    const acceleration: real
    var moveData: MoveData
    var startPosition: Vec3
    var position: Vec3
    var rotation: Quat
    var playerRotation: Option<Quat>
    var view: Option<View>
    /** The Teleport calls made on the client network transform. */
    var teleports: seq<(Vec3, Quat)>
    var groundObject: Option<ObjectId>
    var triggers: seq<ColliderId>
    var numberOfTriggers: int
    var underwater: bool
    /** The owner-written network variables read by the animators. */
    var isGrounded: bool
    var isMoving: bool
    var inputX: real
    var inputY: real
    var turn: real
    var jump: bool

    function Pose(): Body
      reads this
    {
      Body(moveData, position, rotation, playerRotation, view)
    }

    function TriggerState(): Triggers
      reads this
    {
      Triggers(triggers, numberOfTriggers, underwater)
    }

    predicate Valid()
      reads this
    {
      NoDuplicates(triggers)
    }

    /** A character placed at `spawn`, remembered as its start position. */
    constructor (acceleration: real, spawn: Vec3, playerRotation: Option<Quat>, view: Option<View>)
      ensures Valid()
      ensures this.acceleration == acceleration
      ensures moveData == Fresh().(origin := spawn) && startPosition == spawn && position == spawn
      ensures this.playerRotation == playerRotation && this.view == view
      ensures triggers == [] && numberOfTriggers == 0 && !underwater && teleports == []
    {
      this.acceleration := acceleration;
      moveData := Fresh().(origin := spawn);
      startPosition := spawn;
      position := spawn;
      rotation := Identity;
      this.playerRotation := playerRotation;
      this.view := view;
      teleports := [];
      groundObject := None;
      triggers := [];
      numberOfTriggers := 0;
      underwater := false;
      isGrounded := false;
      isMoving := false;
      inputX := 0.0;
      inputY := 0.0;
      turn := 0.0;
      jump := false;
    }

    method ResetCharacter(isOwner: bool)
      modifies this`moveData, this`position, this`rotation, this`playerRotation, this`view, this`teleports
      ensures Pose() == if isOwner then Teleported(old(Pose()), startPosition, Identity) else old(Pose())
      ensures teleports == if isOwner then old(teleports) + [(startPosition, Identity)] else old(teleports)
    {
      if !isOwner {
        return;
      }
      Teleport(startPosition, Identity);
    }

    method ResetClientRpc(isOwner: bool, spawnPosition: Vec3, spawnRotation: Quat)
      modifies this`moveData, this`position, this`rotation, this`playerRotation, this`view, this`teleports
      ensures Pose() == if isOwner then Teleported(old(Pose()), spawnPosition, spawnRotation) else old(Pose())
      ensures teleports == if isOwner then old(teleports) + [(spawnPosition, spawnRotation)] else old(teleports)
    {
      if !isOwner {
        return;
      }
      Teleport(spawnPosition, spawnRotation);
    }

    /** The body shared by both resets. */
    method Teleport(spawn: Vec3, spawnRotation: Quat)
      modifies this`moveData, this`position, this`rotation, this`playerRotation, this`view, this`teleports
      ensures Pose() == Teleported(old(Pose()), spawn, spawnRotation)
      ensures teleports == old(teleports) + [(spawn, spawnRotation)]
    {
      moveData := Reset(moveData, spawn);
      position := spawn;
      rotation := spawnRotation;
      if playerRotation.Some? {
        playerRotation := Some(Identity);
      }
      if view.Some? {
        view := Some(View(moveData.viewTransformDefaultLocalPos, Identity));
      }
      teleports := teleports + [(spawn, spawnRotation)];
    }

    /** Update for the owner: the input goes into the movement record and
        the animator variables are published. */
    method Update(isOwner: bool, input: Input)
      modifies this`moveData, this`isGrounded, this`isMoving, this`inputX, this`inputY, this`turn, this`jump
      ensures !isOwner ==> moveData == old(moveData) && isGrounded == old(isGrounded)
                           && isMoving == old(isMoving) && inputX == old(inputX) && inputY == old(inputY)
                           && turn == old(turn) && jump == old(jump)
      ensures isOwner ==> moveData == InputApplied(old(moveData), input, acceleration)
                          && isGrounded == groundObject.Some?
                          && isMoving == Moving(input.horizontal, input.vertical)
                          && inputX == input.horizontal && inputY == input.vertical
                          && turn == moveData.viewAngles.y && jump == input.jumpPressed
    {
      if !isOwner {
        return;
      }
      moveData := InputApplied(moveData, input, acceleration);
      isGrounded := groundObject.Some?;
      isMoving := Abs(input.horizontal) > 0.1 || Abs(input.vertical) > 0.1;
      inputX := input.horizontal;
      inputY := input.vertical;
      turn := moveData.viewAngles.y;
      jump := input.jumpPressed;
    }

    method OnTriggerEnter(other: ColliderId)
      requires Valid()
      modifies this`triggers
      ensures Valid()
      ensures triggers == Entered(old(triggers), other)
    {
      if other !in triggers {
        triggers := triggers + [other];
      }
      TriggerDiscipline(old(triggers), other);
    }

    method OnTriggerExit(other: ColliderId)
      requires Valid()
      modifies this`triggers
      ensures Valid()
      ensures triggers == Exited(old(triggers), other)
    {
      if other in triggers {
        triggers := RemoveFirst(triggers, other);
      }
      TriggerDiscipline(old(triggers), other);
    }

    /** HandleWaterAndTriggers: `live` are the colliders not yet destroyed,
        `water` those with a Water component in their parents, and
        `cameraUnderwater` what the camera's water check reports. */
    method HandleWaterAndTriggers(live: set<ColliderId>, water: set<ColliderId>, cameraUnderwater: bool)
      requires Valid()
      modifies this`triggers, this`numberOfTriggers, this`underwater, this`moveData
      ensures Valid()
      ensures TriggerState() == Rechecked(old(TriggerState()), live, water)
      ensures moveData == old(moveData).(underwater := underwater, cameraUnderwater := cameraUnderwater)
    {
      if numberOfTriggers != |triggers| {
        numberOfTriggers := |triggers|;
        underwater := false;
        AliveKeepsDistinct(triggers, live);
        AliveContents(triggers, live);
        triggers := Alive(triggers, live);
        var i := 0;
        while i < |triggers|
          invariant triggers == Alive(old(triggers), live)
          invariant numberOfTriggers == |old(triggers)| && moveData == old(moveData)
          invariant 0 <= i <= |triggers|
          invariant underwater == exists k :: 0 <= k < i && triggers[k] in water
        {
          if triggers[i] in live && triggers[i] in water {
            underwater := true;
          }
          i := i + 1;
        }
      }
      moveData := moveData.(underwater := underwater, cameraUnderwater := cameraUnderwater);
    }

    /** OnCollisionStay: `vm` and `um` are the engine's magnitudes of the
        current and of the unclamped pushed velocity. */
    method OnCollisionStay(contact: Option<Contact>, vm: real, um: real)
      requires IsMagnitudeOf(vm, moveData.velocity)
      requires contact.Some? ==> IsMagnitudeOf(um, Unclamped(moveData.velocity, contact.value))
      modifies this`moveData
      ensures moveData == old(moveData).(velocity := Pushed(old(moveData.velocity), vm, contact, um))
    {
      if contact.None? {
        return;
      }
      moveData := moveData.(velocity := Pushed(moveData.velocity, vm, contact, um));
    }
  }
}
