/**
 * The launch body controller: the cow, the one body the player launches.
 *
 * The cow's physics body (position, velocity, angular velocity) is owned by
 * the external solver; `SyncBody` stands for the solver writing its output,
 * and `appliedForces` records the forces the game hands to the solver.
 */
module Entities {
  import opened Physics

  /** Where the cow is placed when it is created. */
  const SpawnX: real := 100.0
  const SpawnY: real := 100.0

  /** Both velocity components must fall below this for the cow to count as grounded. */
  const MinVelocity: real := 0.5
  /** Angular velocity per unit of horizontal velocity while tumbling through the air. */
  const SpinFactor: real := 0.0005
  const DefaultBounceFactor: real := 1.5

  datatype Force = Force(x: real, y: real)

  function Abs(r: real): (a: real)
    ensures a >= 0.0 && (a == r || a == -r)
  {
    if r < 0.0 then -r else r
  }

  /** Horizontal distance to the right of the start line: `max(0, x - startX)`. */
  function Displacement(x: real, startX: real): (d: real)
    ensures d >= 0.0 && d >= x - startX
    ensures d == 0.0 || d == x - startX
  {
    if 0.0 < x - startX then x - startX else 0.0
  }

  /**
   * The vertical velocity after a trampoline contact. Screen y grows
   * downwards, so a non-positive velocity moves the cow up.
   */
  function BounceVelocity(vy: real, factor: real): (r: real)
    ensures 0.0 <= factor ==> r <= 0.0
    ensures vy <= 0.0 ==> r == vy * factor
    ensures 0.0 <= vy ==> r == -(vy * factor)
  {
    -Abs(vy) * factor
  }

  /** The landing test: nearly at rest, and lower on screen than where the cow started. */
  predicate AtRest(vx: real, vy: real, y: real, initialY: real)
  {
    Abs(vx) < MinVelocity && Abs(vy) < MinVelocity && y > initialY
  }

  class Cow {
    const world: World
    const body: BodyId

    // State of the physics body, as the solver reports it.
    var x: real
    var y: real
    var vx: real
    var vy: real
    var angularVelocity: real
    /** The forces applied to the body, in order. */
    ghost var appliedForces: seq<Force>

    var isLaunched: bool
    var isGrounded: bool
    var hasBounced: bool
    var startX: real
    var distanceTraveled: real
    var initialX: real
    var initialY: real

    /**
     * The cow's body is registered in the world; before launch the cow counts
     * as grounded and no force has been applied; after launch exactly one has.
     */
    ghost predicate Valid()
      reads this, world
    {
      && world.Valid()
      && body in world.bodies && world.bodies[body] == CowBody
      && (!isLaunched ==> isGrounded && appliedForces == [])
      && (isLaunched ==> |appliedForces| == 1)
      && distanceTraveled >= 0.0
    }

    /** The round-ending test. A cow that has landed has had its one launch force applied. */
    predicate HasLanded(): (landed: bool)
      reads this, world
      ensures landed && Valid() ==> |appliedForces| == 1
      ensures !isLaunched ==> !landed
    {
      isLaunched && isGrounded
    }

    /** Creates the body, adds it to the world and places it at the spawn point. */
    constructor (world: World)
      requires world.Valid()
      modifies world
      ensures Valid() && this.world == world
      ensures body == old(world.next) && world.bodies == old(world.bodies)[body := CowBody]
      ensures !isLaunched && isGrounded && !hasBounced && distanceTraveled == 0.0
      ensures x == SpawnX && y == SpawnY && vx == 0.0 && vy == 0.0 && angularVelocity == 0.0
      ensures startX == SpawnX && initialX == SpawnX && initialY == SpawnY
      ensures appliedForces == []
    {
      this.world := world;
      var id := world.Add(CowBody);
      body := id;
      x, y, vx, vy, angularVelocity := 0.0, 0.0, 0.0, 0.0, 0.0;
      appliedForces := [];
      isLaunched, isGrounded, hasBounced := false, true, false;
      startX, distanceTraveled := 0.0, 0.0;
      initialX, initialY := 0.0, 0.0;
      new;
      SetPosition(SpawnX, SpawnY);
    }

    /** Moves the body and makes the new point the start line and the reference height. */
    method SetPosition(px: real, py: real)
      requires Valid()
      modifies this
      ensures Valid()
      ensures x == px && y == py && startX == px && initialX == px && initialY == py
      ensures vx == old(vx) && vy == old(vy) && angularVelocity == old(angularVelocity)
      ensures appliedForces == old(appliedForces) && distanceTraveled == old(distanceTraveled)
      ensures isLaunched == old(isLaunched) && isGrounded == old(isGrounded) && hasBounced == old(hasBounced)
    {
      x, y := px, py;
      initialX, initialY := px, py;
      startX := px;
    }

    /** The external solver's step: it reports the body's new position and velocity. */
    method SyncBody(px: real, py: real, pvx: real, pvy: real)
      requires Valid()
      modifies this
      ensures Valid()
      ensures x == px && y == py && vx == pvx && vy == pvy
      ensures angularVelocity == old(angularVelocity) && appliedForces == old(appliedForces)
      ensures isLaunched == old(isLaunched) && isGrounded == old(isGrounded) && hasBounced == old(hasBounced)
      ensures startX == old(startX) && initialX == old(initialX) && initialY == old(initialY)
      ensures distanceTraveled == old(distanceTraveled)
    {
      x, y, vx, vy := px, py, pvx, pvy;
    }

    method GetPosition() returns (px: real, py: real)
      ensures px == x && py == y
    {
      px, py := x, y;
    }

    /**
     * Launches the cow the first time only: marks it launched and airborne
     * and applies the force once. Later calls change nothing.
     */
    method Launch(forceX: real, forceY: real)
      requires Valid()
      modifies this
      ensures Valid() && isLaunched
      ensures old(isLaunched) ==> unchanged(this)
      ensures !old(isLaunched) ==> !isGrounded && appliedForces == [Force(forceX, forceY)]
      ensures hasBounced == old(hasBounced) && distanceTraveled == old(distanceTraveled)
      ensures x == old(x) && y == old(y) && vx == old(vx) && vy == old(vy)
      ensures angularVelocity == old(angularVelocity)
      ensures startX == old(startX) && initialX == old(initialX) && initialY == old(initialY)
    {
      if !isLaunched {
        isLaunched := true;
        isGrounded := false;
        appliedForces := appliedForces + [Force(forceX, forceY)];
      }
    }

    method GetDistanceTraveled() returns (d: real)
      requires Valid()
      ensures d == distanceTraveled && d >= 0.0
    {
      d := distanceTraveled;
    }

    method HasBounce() returns (b: bool)
      ensures b == hasBounced
    {
      b := hasBounced;
    }

    /**
     * A trampoline contact: keeps the horizontal velocity, turns the vertical
     * velocity upwards scaled by `bounceFactor`, and sets the bounced flag.
     */
    method Bounce(bounceFactor: real := DefaultBounceFactor)
      requires Valid()
      modifies this
      ensures Valid() && hasBounced
      ensures vx == old(vx) && vy == BounceVelocity(old(vy), bounceFactor)
      ensures x == old(x) && y == old(y) && angularVelocity == old(angularVelocity)
      ensures appliedForces == old(appliedForces) && distanceTraveled == old(distanceTraveled)
      ensures isLaunched == old(isLaunched) && isGrounded == old(isGrounded)
      ensures startX == old(startX) && initialX == old(initialX) && initialY == old(initialY)
    {
      hasBounced := true;
      vy := -Abs(vy) * bounceFactor;
    }

    /**
     * Once per frame: updates the distance, runs the ground check and, while
     * launched and airborne, spins the body in proportion to its horizontal speed.
     */
    method Update(delta: real)
      requires Valid()
      modifies this
      ensures Valid()
      ensures distanceTraveled == Displacement(x, startX)
      ensures isGrounded == (old(isGrounded) || (isLaunched && AtRest(vx, vy, y, initialY)))
      ensures angularVelocity == if !isGrounded && isLaunched then vx * SpinFactor else old(angularVelocity)
      ensures old(HasLanded()) ==> HasLanded()
      ensures x == old(x) && y == old(y) && vx == old(vx) && vy == old(vy)
      ensures appliedForces == old(appliedForces)
      ensures isLaunched == old(isLaunched) && hasBounced == old(hasBounced)
      ensures startX == old(startX) && initialX == old(initialX) && initialY == old(initialY)
    {
      distanceTraveled := Displacement(x, startX);
      CheckGrounded();
      if !isGrounded && isLaunched {
        angularVelocity := vx * SpinFactor;
      }
    }

    /** Sets the grounded flag once the launched cow has come to rest below its start; never clears it. */
    method CheckGrounded()
      requires Valid()
      modifies this`isGrounded
      ensures Valid()
      ensures isGrounded == (old(isGrounded) || (isLaunched && AtRest(vx, vy, y, initialY)))
    {
      if isLaunched {
        if Abs(vx) < MinVelocity && Abs(vy) < MinVelocity && y > initialY {
          isGrounded := true;
        }
      }
    }
  }

  /** Before launch the cow rests on its spawn flag yet has not landed. */
  lemma NotLandedBeforeLaunch(c: Cow)
    requires c.Valid() && !c.isLaunched
    ensures c.isGrounded && !c.HasLanded()
  {
  }
}
