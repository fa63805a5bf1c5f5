/**
 * The game scene: the launch controls (hold space to charge, release to
 * launch, arrow keys to aim), the per-frame update that drives the cow and
 * the terrain, and the end of the round once the launched cow has landed.
 *
 * The controls are first described as a value (`Controls`) with one pure
 * transition per input; the scene's methods are proved to follow those
 * transitions, and the lemmas about whole input sequences are stated on them.
 */
module Scenes {
  import opened Physics
  import opened GameConfig
  import opened Scoring
  import opened Entities
  import opened Terrain

  /** The angle the scene starts with, in degrees. */
  const DefaultAngle: int := 45
  /** Where the scene places the cow once the terrain is laid out. */
  const StartX: real := 100.0
  const StartY: real := 500.0
  /** Power points are scaled by this factor to give the launch force. */
  const ForceScale: real := 0.1
  /** Delay, in milliseconds, before the game-over callback runs. */
  const GameOverDelay: nat := 2000

  /** The keys the scene reacts to, named after the lower-cased key name; every other key is `Other`. */
  datatype Key = Space | ArrowUp | ArrowDown | Other

  /** The launch controls: charging flag, power, angle in degrees, and whether the cow was launched. */
  datatype Controls = Controls(charging: bool, power: real, angle: int, launched: bool)

  /** One input the scene receives: a key press, a key release, or a frame of `delta` time units. */
  datatype Event = Press(key: Key) | Release(key: Key) | Frame(delta: real)

  function AngleDistance(a: int, b: int): (d: nat)
  {
    if a <= b then b - a else a - b
  }

  /** The angle limited to [AngleMin, AngleMax]: the allowed angle nearest to the requested one. */
  function Clamp(angle: int): (r: int)
    ensures AngleMin <= r <= AngleMax
    ensures AngleMin <= angle <= AngleMax ==> r == angle
    ensures forall v | AngleMin <= v <= AngleMax :: AngleDistance(r, angle) <= AngleDistance(v, angle)
  {
    var capped := if angle < AngleMax then angle else AngleMax;
    if AngleMin < capped then capped else AngleMin
  }

  /** The power after one charging frame: grown by `ChargeRate * delta`, capped at `PowerMax`. */
  function Charge(power: real, delta: real): (r: real)
    ensures r <= PowerMax
    ensures r == PowerMax || r == power + ChargeRate * delta
    ensures power + ChargeRate * delta <= PowerMax ==> r == power + ChargeRate * delta
    ensures 0.0 <= delta && power <= PowerMax ==> power <= r
  {
    var grown := power + ChargeRate * delta;
    if grown > PowerMax then PowerMax else grown
  }

  /**
   * The force handed to the cow at launch; `cosDeg` and `sinDeg` take degrees.
   * It points along the aim (screen y grows downwards) and grows with the power.
   */
  function LaunchForce(angle: int, power: real, cosDeg: int -> real, sinDeg: int -> real): (f: Force)
    ensures 0.0 <= power && 0.0 <= cosDeg(angle) ==> 0.0 <= f.x
    ensures 0.0 <= power && 0.0 <= sinDeg(angle) ==> f.y <= 0.0
    ensures power == 0.0 ==> f == Force(0.0, 0.0)
    ensures f.x * sinDeg(angle) == -f.y * cosDeg(angle)
  {
    Force(cosDeg(angle) * power * ForceScale, -sinDeg(angle) * power * ForceScale)
  }

  /** The reaction to a key press: once launched, no key changes anything. */
  function KeyDown(c: Controls, key: Key): (r: Controls)
    ensures r.launched == c.launched
    ensures c.launched || key == Other ==> r == c
    ensures key != Space ==> r.charging == c.charging && r.power == c.power
    ensures key == Space && !c.launched ==> r.charging && r.power == PowerMin && r.angle == c.angle
    ensures AngleMin <= c.angle <= AngleMax ==> AngleMin <= r.angle <= AngleMax && AngleDistance(r.angle, c.angle) <= AngleStep
    ensures key == ArrowUp && c.angle <= AngleMax ==> c.angle <= r.angle
    ensures key == ArrowDown && AngleMin <= c.angle ==> r.angle <= c.angle
  {
    match key
    case Space => if !c.launched then c.(charging := true, power := PowerMin) else c
    case ArrowUp => if !c.launched then c.(angle := Clamp(c.angle + AngleStep)) else c
    case ArrowDown => if !c.launched then c.(angle := Clamp(c.angle - AngleStep)) else c
    case Other => c
  }

  /** Releasing space launches the cow, provided it is still on the ground and power is charging. */
  predicate Releases(c: Controls, key: Key)
  {
    key == Space && !c.launched && c.charging
  }

  /** A release launches exactly when `Releases` holds; nothing else about the controls changes. */
  function KeyUp(c: Controls, key: Key): (r: Controls)
    ensures r.launched <==> c.launched || Releases(c, key)
    ensures r.angle == c.angle && r.power == c.power
    ensures Releases(c, key) ==> !r.charging
    ensures !Releases(c, key) ==> r == c
  {
    if Releases(c, key) then c.(charging := false, launched := true) else c
  }

  /** The controls after a frame: power grows only while charging. */
  function Tick(c: Controls, delta: real): (r: Controls)
    ensures r.charging == c.charging && r.angle == c.angle && r.launched == c.launched
    ensures !c.charging ==> r.power == c.power
    ensures c.power <= PowerMax ==> r.power <= PowerMax
    ensures c.charging && 0.0 <= delta && c.power <= PowerMax ==> c.power <= r.power
  {
    if c.charging then c.(power := Charge(c.power, delta)) else c
  }

  function Step(c: Controls, e: Event): (r: Controls)
  {
    match e
    case Press(k) => KeyDown(c, k)
    case Release(k) => KeyUp(c, k)
    case Frame(d) => Tick(c, d)
  }

  /** The controls after the inputs `es`, in order. */
  function Run(c: Controls, es: seq<Event>): (r: Controls)
    decreases es
  {
    if es == [] then c else Run(Step(c, es[0]), es[1..])
  }

  /** The number of inputs among `es` that launch the cow. */
  function Launches(c: Controls, es: seq<Event>): (n: nat)
    decreases es
  {
    if es == [] then 0
    else (if es[0].Release? && Releases(c, es[0].key) then 1 else 0) + Launches(Step(c, es[0]), es[1..])
  }

  /** The angle is in range, power never exceeds the maximum, and nothing charges after launch. */
  predicate Sane(c: Controls)
  {
    AngleMin <= c.angle <= AngleMax && c.power <= PowerMax && (c.launched ==> !c.charging)
  }

  predicate NoNegativeFrames(es: seq<Event>)
  {
    forall i | 0 <= i < |es| :: es[i].Frame? ==> 0.0 <= es[i].delta
  }

  /** Power after charging through the frames `ds`, in order. */
  function ChargeAll(power: real, ds: seq<real>): (r: real)
    decreases ds
  {
    if ds == [] then power else ChargeAll(Charge(power, ds[0]), ds[1..])
  }

  function Sum(ds: seq<real>): (r: real)
  {
    if ds == [] then 0.0 else ds[0] + Sum(ds[1..])
  }

  function MinReal(a: real, b: real): (r: real)
    ensures r <= a && r <= b && (r == a || r == b)
  {
    if a <= b then a else b
  }

  function Presses(key: Key, n: nat): (r: seq<Event>)
    ensures |r| == n
  {
    if n == 0 then [] else [Press(key)] + Presses(key, n - 1)
  }

  // ---------------------------------------------------------------------
  // Properties of the controls

  /** Every input keeps the angle in range, the power capped and charging off after launch. */
  lemma StepKeepsSane(c: Controls, e: Event)
    requires Sane(c)
    ensures Sane(Step(c, e))
    ensures c.launched ==> Step(c, e) == c
    ensures Step(c, e).launched == (c.launched || (e.Release? && Releases(c, e.key)))
  {
  }

  lemma {:induction false} RunKeepsSane(c: Controls, es: seq<Event>)
    requires Sane(c)
    ensures Sane(Run(c, es))
    ensures c.launched ==> Run(c, es).launched
    decreases es
  {
    if es != [] {
      StepKeepsSane(c, es[0]);
      RunKeepsSane(Step(c, es[0]), es[1..]);
    }
  }

  /** Once the cow is launched, no sequence of inputs changes the controls any more. */
  lemma {:induction false} FrozenAfterLaunch(c: Controls, es: seq<Event>)
    requires Sane(c) && c.launched
    ensures Run(c, es) == c
    decreases es
  {
    if es != [] {
      StepKeepsSane(c, es[0]);
      FrozenAfterLaunch(Step(c, es[0]), es[1..]);
    }
  }

  /** Whatever the inputs, the cow is launched at most once, and never again once launched. */
  lemma {:induction false} LaunchesAtMostOnce(c: Controls, es: seq<Event>)
    requires Sane(c)
    ensures Launches(c, es) <= (if c.launched then 0 else 1)
    ensures Launches(c, es) == 1 <==> !c.launched && Run(c, es).launched
    decreases es
  {
    if es != [] {
      StepKeepsSane(c, es[0]);
      LaunchesAtMostOnce(Step(c, es[0]), es[1..]);
      if Step(c, es[0]).launched {
        RunKeepsSane(Step(c, es[0]), es[1..]);
      }
    }
  }

  /** Without negative frame times, power stays within [PowerMin, PowerMax]. */
  lemma {:induction false} PowerInRange(c: Controls, es: seq<Event>)
    requires Sane(c) && PowerMin <= c.power && NoNegativeFrames(es)
    ensures PowerMin <= Run(c, es).power <= PowerMax
    decreases es
  {
    if es != [] {
      StepKeepsSane(c, es[0]);
      assert NoNegativeFrames(es[1..]) by {
        forall i | 0 <= i < |es[1..]| ensures es[1..][i].Frame? ==> 0.0 <= es[1..][i].delta {
          assert es[1..][i] == es[i + 1];
        }
      }
      PowerInRange(Step(c, es[0]), es[1..]);
    }
  }

  lemma {:induction false} SumNonNegative(ds: seq<real>)
    requires forall i | 0 <= i < |ds| :: 0.0 <= ds[i]
    ensures 0.0 <= Sum(ds)
  {
    if ds != [] {
      assert forall i | 0 <= i < |ds[1..]| :: ds[1..][i] == ds[i + 1];
      SumNonNegative(ds[1..]);
    }
  }

  /** Charging through several frames adds `ChargeRate` times the elapsed time, capped at `PowerMax`. */
  lemma {:induction false} ChargeAccumulates(power: real, ds: seq<real>)
    requires power <= PowerMax
    requires forall i | 0 <= i < |ds| :: 0.0 <= ds[i]
    ensures ChargeAll(power, ds) == MinReal(PowerMax, power + ChargeRate * Sum(ds))
    decreases ds
  {
    if ds != [] {
      var rest := ds[1..];
      assert forall i | 0 <= i < |rest| :: rest[i] == ds[i + 1];
      SumNonNegative(rest);
      ChargeAccumulates(Charge(power, ds[0]), rest);
      assert ChargeRate * Sum(ds) == ChargeRate * ds[0] + ChargeRate * Sum(rest);
    }
  }

  /** Pressing an arrow key `n` times before launch moves the angle `n` steps, stopping at the limit. */
  lemma {:induction false} AimSaturates(c: Controls, n: nat)
    requires Sane(c) && !c.launched
    ensures Run(c, Presses(ArrowUp, n)) == c.(angle := if c.angle + n < AngleMax then c.angle + n else AngleMax)
    ensures Run(c, Presses(ArrowDown, n)) == c.(angle := if AngleMin < c.angle - n then c.angle - n else AngleMin)
    decreases n
  {
    if n > 0 {
      var up := KeyDown(c, ArrowUp);
      var down := KeyDown(c, ArrowDown);
      assert Presses(ArrowUp, n)[1..] == Presses(ArrowUp, n - 1);
      assert Presses(ArrowDown, n)[1..] == Presses(ArrowDown, n - 1);
      AimSaturates(up, n - 1);
      AimSaturates(down, n - 1);
    }
  }

  /** The controls the scene starts with: not charging, no power, the default aim, not launched. */
  const Initial: Controls := Controls(false, PowerMin, DefaultAngle, false)

  /**
   * Whatever the player does (with no negative frame times), a release hands
   * the cow a force that pushes it forward and up (screen y grows downwards),
   * provided cosine and sine are non-negative on the allowed aims.
   */
  lemma LaunchForceDirection(es: seq<Event>, cosDeg: int -> real, sinDeg: int -> real)
    requires forall a | AngleMin <= a <= AngleMax :: 0.0 <= cosDeg(a) && 0.0 <= sinDeg(a)
    requires NoNegativeFrames(es)
    ensures var c := Run(Initial, es);
            0.0 <= LaunchForce(c.angle, c.power, cosDeg, sinDeg).x && LaunchForce(c.angle, c.power, cosDeg, sinDeg).y <= 0.0
  {
    RunKeepsSane(Initial, es);
    PowerInRange(Initial, es);
  }

  /** The terrain's bodies lie in [lo, hi) and the body `id` is older: it survives the rebuild and is not one of them. */
  lemma FreshTerrainAvoids(base: map<BodyId, Label>, segs: seq<Segment>, ts: seq<Feature>, os: seq<Feature>,
                           lo: BodyId, hi: BodyId, id: BodyId)
    requires forall b | b in base :: b < lo
    requires IdsWithin(lo, hi, segs, ts, os)
    requires id in base
    ensures id in Rebuilt(base, segs, ts, os) && Rebuilt(base, segs, ts, os)[id] == base[id]
    ensures id !in SegmentIds(segs) + FeatureIds(ts) + FeatureIds(os)
  {
    RebuiltKeeps(base, segs, ts, os, lo, hi);
    forall k | 0 <= k < |segs| ensures segs[k].body != id {
      assert Within(lo, hi, segs[k].body);
    }
    forall k | 0 <= k < |ts| ensures ts[k].body != id {
      assert Within(lo, hi, ts[k].body);
    }
    forall k | 0 <= k < |os| ensures os[k].body != id {
      assert Within(lo, hi, os[k].body);
    }
  }

  // ---------------------------------------------------------------------
  // The scene

  class GameScene {
    /** The physics world shared by the cow and the terrain. */
    const world: World
    const cow: Cow
    const terrain: TerrainGenerator
    const score: ScoreManager
    /** Cosine and sine of an angle given in degrees. */
    const cosDeg: int -> real
    const sinDeg: int -> real

    var isPowerCharging: bool
    var currentPower: real
    var currentAngle: int
    var isLaunched: bool
    var gameEnded: bool
    /** Whether the keyboard handlers are registered with the window. */
    var listening: bool
    /** The delays of the game-over callbacks scheduled so far. */
    ghost var gameOverTimers: seq<nat>

    function Snapshot(): (c: Controls)
      reads this
    {
      Controls(isPowerCharging, currentPower, currentAngle, isLaunched)
    }

    /**
     * The cow and the terrain share the world; the cow's body is not one of the
     * terrain's; the controls are sane and agree with the cow; the keyboard is
     * listened to until the end, and the game-over callback is scheduled once.
     */
    ghost predicate Valid()
      reads this, world, cow, terrain, score
    {
      && cow.world == world && terrain.world == world
      && cow.Valid() && terrain.Valid() && score.Valid()
      && cow.body !in terrain.TrackedIds()
      && Sane(Snapshot())
      && isLaunched == cow.isLaunched
      && listening == !gameEnded
      && gameOverTimers == (if gameEnded then [GameOverDelay] else [])
    }

    /**
     * Creates the terrain generator, the cow and the score, then lays out the
     * starting position with `PlaceStart`.
     */
    constructor (world: World, innerWidth: nat, innerHeight: nat, heightAt: real -> real,
                 cosDeg: int -> real, sinDeg: int -> real)
      requires world.Valid()
      modifies world
      ensures Valid() && this.world == world && this.cosDeg == cosDeg && this.sinDeg == sinDeg
      ensures fresh(cow) && fresh(terrain) && fresh(score)
      ensures Snapshot() == Initial && !gameEnded
      ensures cow.body == old(world.next) && Extends(old(world.bodies), world.bodies)
      ensures cow.x == StartX && cow.y == StartY && cow.startX == StartX && cow.initialY == StartY
      ensures |terrain.segments| == InitialSegmentCount(terrain.worldWidth)
      ensures forall i | 0 <= i < |terrain.segments| :: terrain.segments[i].x == i as real * SegmentWidth
      ensures |terrain.trampolines| == |terrain.segments| / 3
      ensures TrampolinesOnPattern(terrain.trampolines, terrain.segments, terrain.screenHeight)
      ensures |terrain.obstacles| == |terrain.segments| / 4
      ensures ObstaclesOnPattern(terrain.obstacles, terrain.segments, terrain.screenHeight)
      ensures score.Counts() == Counters(0.0, 0, 0, 0, 0)
    {
      this.world := world;
      this.cosDeg := cosDeg;
      this.sinDeg := sinDeg;
      var t := new TerrainGenerator(world, innerWidth, innerHeight, heightAt);
      var c := new Cow(world);
      var s := new ScoreManager();
      terrain, cow, score := t, c, s;
      isPowerCharging, currentPower, currentAngle := false, 0.0, DefaultAngle;
      isLaunched, gameEnded, listening := false, false, true;
      gameOverTimers := [];
      new;
      assert Extends(old(world.bodies), world.bodies);
      label placed:
      PlaceStart();
      ExtendsTransitive(old(world.bodies), old@placed(world.bodies), world.bodies);
    }

    /**
     * The second half of setting up the game: lays out the initial terrain
     * around the cow's body and puts the cow at the start position.
     */
    method PlaceStart()
      requires cow.world == world && terrain.world == world
      requires cow.Valid() && terrain.Valid()
      requires terrain.segments == [] && terrain.trampolines == [] && terrain.obstacles == []
      modifies terrain, world, cow
      ensures cow.Valid() && terrain.Valid() && cow.body !in terrain.TrackedIds()
      ensures Extends(old(world.bodies), world.bodies)
      ensures cow.x == StartX && cow.y == StartY && cow.startX == StartX && cow.initialY == StartY
      ensures cow.isLaunched == old(cow.isLaunched)
      ensures |terrain.segments| == InitialSegmentCount(terrain.worldWidth)
      ensures forall i | 0 <= i < |terrain.segments| :: terrain.segments[i].x == i as real * SegmentWidth
      ensures |terrain.trampolines| == |terrain.segments| / 3
      ensures TrampolinesOnPattern(terrain.trampolines, terrain.segments, terrain.screenHeight)
      ensures |terrain.obstacles| == |terrain.segments| / 4
      ensures ObstaclesOnPattern(terrain.obstacles, terrain.segments, terrain.screenHeight)
    {
      ghost var base, lo := world.bodies, world.next;
      assert base - terrain.TrackedIds() == base;
      terrain.GenerateInitialTerrain();
      FreshTerrainAvoids(base, terrain.segments, terrain.trampolines, terrain.obstacles, lo, world.next, cow.body);
      RebuiltKeeps(base, terrain.segments, terrain.trampolines, terrain.obstacles, lo, world.next);
      cow.SetPosition(StartX, StartY);
    }

    /** A key press: space (re)starts charging, the arrows turn the aim; ignored after launch. */
    method HandleKeyDown(key: Key)
      requires Valid()
      modifies this
      ensures Valid()
      ensures Snapshot() == KeyDown(old(Snapshot()), key)
      ensures gameEnded == old(gameEnded) && listening == old(listening) && gameOverTimers == old(gameOverTimers)
    {
      match key
      case Space =>
        if !isLaunched {
          StartChargingPower();
        }
      case ArrowUp =>
        if !isLaunched {
          AdjustAngle(currentAngle + AngleStep);
        }
      case ArrowDown =>
        if !isLaunched {
          AdjustAngle(currentAngle - AngleStep);
        }
      case Other =>
    }

    /** A key release: releasing space while charging launches the cow. */
    method HandleKeyUp(key: Key)
      requires Valid()
      modifies this, cow
      ensures Valid()
      ensures Snapshot() == KeyUp(old(Snapshot()), key)
      ensures Releases(old(Snapshot()), key) ==>
                && cow.appliedForces == [LaunchForce(old(currentAngle), old(currentPower), cosDeg, sinDeg)]
                && !cow.isGrounded
      ensures !Releases(old(Snapshot()), key) ==> unchanged(cow)
      ensures cow.x == old(cow.x) && cow.y == old(cow.y) && cow.vx == old(cow.vx) && cow.vy == old(cow.vy)
      ensures cow.startX == old(cow.startX) && cow.initialY == old(cow.initialY)
      ensures cow.distanceTraveled == old(cow.distanceTraveled) && cow.hasBounced == old(cow.hasBounced)
      ensures gameEnded == old(gameEnded) && listening == old(listening) && gameOverTimers == old(gameOverTimers)
    {
      match key
      case Space =>
        if !isLaunched && isPowerCharging {
          LaunchCow();
        }
      case _ =>
    }

    /** Power restarts from the minimum and grows while the key is held. */
    method StartChargingPower()
      modifies this
      ensures isPowerCharging && currentPower == PowerMin
      ensures currentAngle == old(currentAngle) && isLaunched == old(isLaunched)
      ensures gameEnded == old(gameEnded) && listening == old(listening) && gameOverTimers == old(gameOverTimers)
    {
      isPowerCharging := true;
      currentPower := PowerMin;
    }

    method AdjustAngle(angle: int)
      modifies this
      ensures currentAngle == Clamp(angle)
      ensures isPowerCharging == old(isPowerCharging) && currentPower == old(currentPower) && isLaunched == old(isLaunched)
      ensures gameEnded == old(gameEnded) && listening == old(listening) && gameOverTimers == old(gameOverTimers)
    {
      currentAngle := Clamp(angle);
    }

    /** Stops charging, marks the scene launched and hands the cow the force for the current aim and power. */
    method LaunchCow()
      requires cow.Valid()
      modifies this, cow
      ensures cow.Valid() && !isPowerCharging && isLaunched && cow.isLaunched
      ensures !old(cow.isLaunched) ==>
                !cow.isGrounded && cow.appliedForces == [LaunchForce(old(currentAngle), old(currentPower), cosDeg, sinDeg)]
      ensures old(cow.isLaunched) ==> unchanged(cow)
      ensures cow.x == old(cow.x) && cow.y == old(cow.y) && cow.vx == old(cow.vx) && cow.vy == old(cow.vy)
      ensures cow.startX == old(cow.startX) && cow.initialY == old(cow.initialY)
      ensures cow.distanceTraveled == old(cow.distanceTraveled) && cow.hasBounced == old(cow.hasBounced)
      ensures currentAngle == old(currentAngle) && currentPower == old(currentPower)
      ensures gameEnded == old(gameEnded) && listening == old(listening) && gameOverTimers == old(gameOverTimers)
    {
      isPowerCharging := false;
      isLaunched := true;
      var force := LaunchForce(currentAngle, currentPower, cosDeg, sinDeg);
      cow.Launch(force.x, force.y);
    }

    /**
     * Ends the round the first time only: records the cow's distance in the
     * score, stops listening to the keyboard and schedules the game-over callback.
     */
    method EndGame()
      requires Valid()
      modifies this, score
      ensures Valid() && gameEnded && !listening
      ensures old(gameEnded) ==> unchanged(this, score)
      ensures !old(gameEnded) ==> score.Counts() == old(score.Counts()).(distance := cow.distanceTraveled)
      ensures Snapshot() == old(Snapshot())
    {
      if !gameEnded {
        gameEnded := true;
        var distance := cow.GetDistanceTraveled();
        score.SetDistance(distance);
        listening := false;
        gameOverTimers := gameOverTimers + [GameOverDelay];
      }
    }

    /**
     * One frame: nothing once the round has ended; otherwise charge the power,
     * update the cow, end the round if the launched cow has landed, and move
     * the terrain window along with the launched cow.
     */
    method Update(delta: real, rolls: seq<Roll>)
      requires Valid() && |rolls| == BatchSize
      modifies this, cow, terrain, world, score
      ensures Valid()
      ensures old(gameEnded) ==> unchanged(this, cow, terrain, world, score)
      ensures !old(gameEnded) ==> Snapshot() == Tick(old(Snapshot()), delta)
      ensures gameEnded == (old(gameEnded) || cow.HasLanded())
      ensures !old(gameEnded) ==> cow.distanceTraveled == Displacement(cow.x, cow.startX)
      ensures !old(gameEnded) ==> cow.x == old(cow.x) && cow.y == old(cow.y) && cow.vx == old(cow.vx) && cow.vy == old(cow.vy)
      ensures !old(gameEnded) ==> cow.startX == old(cow.startX) && cow.initialY == old(cow.initialY)
      ensures !old(gameEnded) ==> cow.isGrounded == (old(cow.isGrounded) || (cow.isLaunched && AtRest(cow.vx, cow.vy, cow.y, cow.initialY)))
      ensures !old(gameEnded) ==> cow.angularVelocity == if !cow.isGrounded && cow.isLaunched then cow.vx * SpinFactor else old(cow.angularVelocity)
      ensures cow.isLaunched == old(cow.isLaunched) && cow.hasBounced == old(cow.hasBounced)
      ensures !old(gameEnded) && gameEnded ==> score.Counts() == old(score.Counts()).(distance := cow.distanceTraveled)
      ensures !gameEnded ==> unchanged(score)
      ensures !isLaunched ==> unchanged(terrain, world)
      ensures !old(gameEnded) && isLaunched ==>
                forall k | 0 <= k < |terrain.segments| :: terrain.RemovalCutoff(cow.x) <= Right(terrain.segments[k])
    {
      if gameEnded {
        return;
      }
      if isPowerCharging {
        currentPower := currentPower + ChargeRate * delta;
        if currentPower > PowerMax {
          currentPower := PowerMax;
        }
      }
      cow.Update(delta);
      if isLaunched && cow.HasLanded() {
        EndGame();
      }
      if isLaunched {
        var x, _ := cow.GetPosition();
        terrain.Update(delta, x, rolls);
      }
    }
  }
}
