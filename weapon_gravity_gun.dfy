/** The gravity gun (Assets/Scripts/Weapons/WeaponGravityGun.cs): a left
    click grabs the rigidbody in front of the gun, or throws the one it
    holds; a right click lets a held body go. Holding switches the body's
    gravity, damping, collision detection, constraints and collider; letting
    go switches them back and pushes the body along the gun's forward. */
module GravityGun {
  import opened Geometry
  import opened Wrappers

  type BodyId = nat
  type ColliderId = nat

  datatype Detection = Discrete | ContinuousSpeculative
  datatype Constraints = NoConstraints | FreezeRotation

  /** The rigidbody properties the gun writes, and the forces added to it. */
  datatype Body = Body(useGravity: bool, linearDamping: real, detection: Detection,
                       constraints: Constraints, forces: seq<Vec3>)

  /** What the forward raycast reports: the distance to the hit, whether
      the hit collider is tagged Enemy, and the rigidbody on it, if any. */
  datatype RayHit = RayHit(distance: real, taggedEnemy: bool, body: Option<BodyId>)

  datatype Config = Config(grabRange: real, throwForce: real)

  const Defaults := Config(10.0, 1000.0)

  /** The gun's state: the held body and its collider, every rigidbody's
      properties and every collider's enabled flag. */
  datatype Gun = Gun(grabbed: Option<BodyId>, grabbedCollider: Option<ColliderId>,
                     bodies: map<BodyId, Body>, colliderEnabled: map<ColliderId, bool>)

  /** The scene the gun acts on: every known body has its properties, and
      each body's collider (if it has one) has an enabled flag. */
  predicate Scene(g: Gun, colliderOf: map<BodyId, ColliderId>) {
    && (forall b :: b in colliderOf ==> b in g.bodies && colliderOf[b] in g.colliderEnabled)
    && (g.grabbed.Some? ==> g.grabbed.value in g.bodies)
    && (g.grabbedCollider.Some? ==> g.grabbedCollider.value in g.colliderEnabled)
  }

  /** The raycast hit is one the scene knows. */
  predicate KnownHit(g: Gun, hit: Option<RayHit>) {
    hit.Some? && hit.value.body.Some? ==> hit.value.body.value in g.bodies
  }

  /** Does TryGrabObject take hold: a hit within range, not an enemy, with
      a rigidbody. */
  predicate GrabTakes(c: Config, hit: Option<RayHit>) {
    hit.Some? && hit.value.distance <= c.grabRange && !hit.value.taggedEnemy && hit.value.body.Some?
  }

  function HeldProperties(b: Body): Body {
    b.(useGravity := false, linearDamping := 10.0, detection := ContinuousSpeculative,
       constraints := FreezeRotation)
  }

  /** TryGrabObject. */
  function Grabbed(c: Config, g: Gun, colliderOf: map<BodyId, ColliderId>, hit: Option<RayHit>): Gun
    requires Scene(g, colliderOf) && KnownHit(g, hit)
  {
    if !GrabTakes(c, hit) then g
    else
      var b := hit.value.body.value;
      var col := if b in colliderOf then Some(colliderOf[b]) else None;
      Gun(Some(b), col, g.bodies[b := HeldProperties(g.bodies[b])],
          if col.Some? then g.colliderEnabled[col.value := false] else g.colliderEnabled)
  }

  /** ReleaseObject and ThrowObject alike. */
  function LetGo(c: Config, g: Gun, forward: Vec3): Gun
    requires g.grabbed.Some? && g.grabbed.value in g.bodies
  {
    var b := g.grabbed.value;
    var body := g.bodies[b];
    Gun(None, None,
        g.bodies[b := body.(useGravity := true, linearDamping := 1.0, detection := Discrete,
                            constraints := NoConstraints,
                            forces := body.forces + [Scale(forward, c.throwForce)])],
        if g.grabbedCollider.Some? then g.colliderEnabled[g.grabbedCollider.value := true]
        else g.colliderEnabled)
  }

  /** Update's click dispatch (MoveObject's smoothing is not part of the
      state modelled here). */
  function Updated(c: Config, g: Gun, colliderOf: map<BodyId, ColliderId>, forward: Vec3,
                   leftDown: bool, rightDown: bool, hit: Option<RayHit>): Gun
    requires Scene(g, colliderOf) && KnownHit(g, hit)
  {
    var g1 := if !leftDown then g
              else if g.grabbed.None? then Grabbed(c, g, colliderOf, hit)
              else LetGo(c, g, forward);
    if rightDown && g1.grabbed.Some? then LetGo(c, g1, forward) else g1
  }

  /** Grabbing keeps the scene well formed, and so does letting go. */
  lemma SceneKept(c: Config, g: Gun, colliderOf: map<BodyId, ColliderId>, forward: Vec3,
                  leftDown: bool, rightDown: bool, hit: Option<RayHit>)
    requires Scene(g, colliderOf) && KnownHit(g, hit)
    ensures Scene(Grabbed(c, g, colliderOf, hit), colliderOf)
    ensures g.grabbed.Some? ==> Scene(LetGo(c, g, forward), colliderOf)
    ensures Scene(Updated(c, g, colliderOf, forward, leftDown, rightDown, hit), colliderOf)
  {
  }

  /** A grab succeeds exactly for a hit within range that is not an enemy
      and has a rigidbody; the body then floats (no gravity, damping 10,
      continuous speculative detection, frozen rotation) with its collider
      off, and no other body changes. */
  lemma GrabEffects(c: Config, g: Gun, colliderOf: map<BodyId, ColliderId>, hit: Option<RayHit>)
    requires Scene(g, colliderOf) && KnownHit(g, hit) && g.grabbed.None?
    ensures var r := Grabbed(c, g, colliderOf, hit);
            && (r.grabbed.Some? <==> GrabTakes(c, hit))
            && (!GrabTakes(c, hit) ==> r == g)
            && (GrabTakes(c, hit) ==>
                  var b := hit.value.body.value;
                  && r.grabbed == Some(b)
                  && !r.bodies[b].useGravity && r.bodies[b].linearDamping == 10.0
                  && r.bodies[b].detection == ContinuousSpeculative
                  && r.bodies[b].constraints == FreezeRotation
                  && r.bodies[b].forces == g.bodies[b].forces
                  && (b in colliderOf ==> r.grabbedCollider == Some(colliderOf[b])
                                          && !r.colliderEnabled[colliderOf[b]])
                  && (forall o :: o in g.bodies && o != b ==> o in r.bodies && r.bodies[o] == g.bodies[o]))
  {
  }

  /** Letting go restores gravity, damping 1, discrete detection and free
      rotation, re-enables the collider, adds the throw force along the
      gun's forward and empties the gun. */
  lemma LetGoEffects(c: Config, g: Gun, forward: Vec3)
    requires g.grabbed.Some? && g.grabbed.value in g.bodies
    ensures var r := LetGo(c, g, forward);
            var b := g.grabbed.value;
            && r.grabbed.None? && r.grabbedCollider.None?
            && r.bodies[b].useGravity && r.bodies[b].linearDamping == 1.0
            && r.bodies[b].detection == Discrete && r.bodies[b].constraints == NoConstraints
            && r.bodies[b].forces == g.bodies[b].forces + [Scale(forward, c.throwForce)]
            && (g.grabbedCollider.Some? ==> r.colliderEnabled[g.grabbedCollider.value])
  {
  }

  /** Grabbing then letting go leaves the body with its collider enabled
      and its settings at the let-go values, whatever they were before. */
  lemma GrabThenRelease(c: Config, g: Gun, colliderOf: map<BodyId, ColliderId>, forward: Vec3, hit: Option<RayHit>)
    requires Scene(g, colliderOf) && KnownHit(g, hit) && g.grabbed.None? && GrabTakes(c, hit)
    ensures var b := hit.value.body.value;
            var r := LetGo(c, Grabbed(c, g, colliderOf, hit), forward);
            && r.grabbed.None?
            && r.bodies[b].useGravity && r.bodies[b].linearDamping == 1.0
            && (b in colliderOf ==> r.colliderEnabled[colliderOf[b]])
  {
  }

  /** Within one frame: a left click that throws leaves nothing for the
      right click to release (one force), while a left click that grabs is
      undone by a right click in the same frame. */
  lemma SameFrameClicks(c: Config, g: Gun, colliderOf: map<BodyId, ColliderId>, forward: Vec3, hit: Option<RayHit>)
    requires Scene(g, colliderOf) && KnownHit(g, hit)
    ensures g.grabbed.Some? ==>
              Updated(c, g, colliderOf, forward, true, true, hit) == LetGo(c, g, forward)
    ensures g.grabbed.None? && GrabTakes(c, hit) ==>
              Updated(c, g, colliderOf, forward, true, true, hit)
                == LetGo(c, Grabbed(c, g, colliderOf, hit), forward)
    ensures g.grabbed.None? ==> Updated(c, g, colliderOf, forward, false, true, hit) == g
  {
  }

  class WeaponGravityGun {
    const config: Config
    /** `rb.GetComponent<Collider>()` for each rigidbody that has one. */
    const colliderOf: map<BodyId, ColliderId>
    var grabbedObject: Option<BodyId>
    var grabbedObjectCollider: Option<ColliderId>
    var bodies: map<BodyId, Body>
    var colliderEnabled: map<ColliderId, bool>

    function State(): Gun
      reads this
    {
      Gun(grabbedObject, grabbedObjectCollider, bodies, colliderEnabled)
    }

    predicate Valid()
      reads this
    {
      Scene(State(), colliderOf)
    }

    constructor (config: Config, colliderOf: map<BodyId, ColliderId>,
                 bodies: map<BodyId, Body>, colliderEnabled: map<ColliderId, bool>)
      requires Scene(Gun(None, None, bodies, colliderEnabled), colliderOf)
      ensures Valid() && this.config == config && this.colliderOf == colliderOf
      ensures State() == Gun(None, None, bodies, colliderEnabled)
    {
      this.config := config;
      this.colliderOf := colliderOf;
      grabbedObject := None;
      grabbedObjectCollider := None;
      this.bodies := bodies;
      this.colliderEnabled := colliderEnabled;
    }

    /** Update: `forward` is the gun's forward, `hit` what its raycast
        would report this frame. */
    method Update(forward: Vec3, leftDown: bool, rightDown: bool, hit: Option<RayHit>)
      requires Valid() && KnownHit(State(), hit)
      modifies this
      ensures Valid()
      ensures State() == Updated(config, old(State()), colliderOf, forward, leftDown, rightDown, hit)
    {
      if leftDown {
        if grabbedObject.None? {
          TryGrabObject(hit);
        } else {
          ThrowObject(forward);
        }
      }
      if rightDown && grabbedObject.Some? {
        ReleaseObject(forward);
      }
    }

    method TryGrabObject(hit: Option<RayHit>)
      requires Valid() && KnownHit(State(), hit)
      modifies this
      ensures Valid()
      ensures State() == Grabbed(config, old(State()), colliderOf, hit)
    {
      if hit.Some? && hit.value.distance <= config.grabRange {
        if hit.value.taggedEnemy {
          return;
        }
        if hit.value.body.Some? {
          var rb := hit.value.body.value;
          grabbedObject := Some(rb);
          grabbedObjectCollider := if rb in colliderOf then Some(colliderOf[rb]) else None;
          bodies := bodies[rb := HeldProperties(bodies[rb])];
          if grabbedObjectCollider.Some? {
            colliderEnabled := colliderEnabled[grabbedObjectCollider.value := false];
          }
        }
      }
    }

    method ReleaseObject(forward: Vec3)
      requires Valid() && grabbedObject.Some?
      modifies this
      ensures Valid()
      ensures State() == LetGo(config, old(State()), forward)
    {
      var rb := grabbedObject.value;
      var body := bodies[rb];
      bodies := bodies[rb := body.(useGravity := true, linearDamping := 1.0, detection := Discrete,
                                   constraints := NoConstraints)];
      if grabbedObjectCollider.Some? {
        colliderEnabled := colliderEnabled[grabbedObjectCollider.value := true];
      }
      bodies := bodies[rb := bodies[rb].(forces := bodies[rb].forces + [Scale(forward, config.throwForce)])];
      grabbedObject := None;
      grabbedObjectCollider := None;
    }

    method ThrowObject(forward: Vec3)
      requires Valid() && grabbedObject.Some?
      modifies this
      ensures Valid()
      ensures State() == LetGo(config, old(State()), forward)
    {
      var rb := grabbedObject.value;
      var body := bodies[rb];
      bodies := bodies[rb := body.(useGravity := true, linearDamping := 1.0, detection := Discrete,
                                   constraints := NoConstraints)];
      if grabbedObjectCollider.Some? {
        colliderEnabled := colliderEnabled[grabbedObjectCollider.value := true];
      }
      bodies := bodies[rb := bodies[rb].(forces := bodies[rb].forces + [Scale(forward, config.throwForce)])];
      grabbedObject := None;
      grabbedObjectCollider := None;
    }

    /** UseWeapon does nothing for this weapon: it may modify nothing. */
    method UseWeapon()
    {
    }
  }
}
