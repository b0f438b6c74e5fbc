/**
 * The combat store (client/src/game/stores/useAirplaneStore.ts) as a value:
 * `World` holds every field of the store, and each store action is a
 * function from the old world to the new one. The `Store` class in
 * AirplaneStore.dfy performs the same actions in place and is proved
 * against these functions; the invariants and scenarios are proved here.
 *
 * Sounds and the delayed `end()` call are appended to `events`; `uuidv4()`
 * is the `uuid` function applied to a counter `drawn`; `Date.now()`,
 * `Math.random()` and the trigonometry are parameters.
 */
module StoreModel {
  import opened Types
  import Seqs
  import Physics
  import Collisions

  /** The effects the store hands to other systems, in the order it requests them. */
  datatype Event = PlayHit | PlaySuccess | ScheduleEnd(delayMs: int)

  datatype World = World(
    player: Option<Airplane>,
    enemies: seq<Airplane>,
    projectiles: seq<Projectile>,
    explosions: seq<Explosion>,
    weather: Weather,
    score: int,
    respawnTime: int,
    events: seq<Event>,
    drawn: nat)        // identifiers drawn so far; the next one is uuid(drawn)

  const PLAYER_ID: string := "player"
  const KILL_POINTS: int := 100
  const MISSILE_COOLDOWN_MS: int := 500
  const END_DELAY_MS: int := 500
  const FLOOR: real := 3.0
  const CEILING: real := 30.0
  const HIT_RADIUS2: real := 2.25           // the store's own hit radius 1.5, squared
  const CLOSE_RANGE2: real := 400.0         // enemies slow down within distance 20
  const ENGAGE_RANGE2: real := 900.0        // enemies fire within distance 30
  const FACING_TOLERANCE: real := 0.3
  const CLIMB_STEP: real := 0.05
  const ENEMY_MISSILE_CHANCE: real := 0.005
  const SPAWN_OFFSET: real := 2.0
  const SPAWN_DROP: real := 0.2
  const DEATH_SCALE: int := 3

  /** The `airplaneSpecs` table. */
  function SpecsOf(kind: AirplaneType): (s: AirplaneSpecs)
    ensures s.kind == kind
    ensures 0.0 < s.acceleration < s.maxSpeed && 0.0 < s.handling
    ensures 0 < s.health && 0 < s.firePower && 0 < s.fireRate && 0 < s.missileCount
  {
    match kind
    case Fighter => AirplaneSpecs(Fighter, 0.5, 0.02, 0.04, 100, 10, 150, 4)
    case Bomber => AirplaneSpecs(Bomber, 0.35, 0.015, 0.025, 150, 15, 300, 6)
    case Scout => AirplaneSpecs(Scout, 0.6, 0.025, 0.05, 80, 8, 100, 2)
  }

  /** The weighted archetype draw the enemy spawner uses. */
  function SpawnArchetype(rand: real): (kind: AirplaneType)
    ensures kind == Fighter <==> rand < 0.6
    ensures kind == Scout <==> 0.6 <= rand < 0.9
    ensures kind == Bomber <==> 0.9 <= rand
  {
    if rand < 0.6 then Fighter else if rand < 0.9 then Scout else Bomber
  }

  const INITIAL_WORLD: World := World(None, [], [], [], Clear, 0, 0, [], 0)

  // ---------------------------------------------------------------- invariants

  /** What holds of the player between frames: health in range, altitude in the flight band,
      no negative missile count, and speed within what the throttle (boosted or not) can reach. */
  ghost predicate PlayerOk(p: Airplane)
  {
    var s := SpecsOf(p.kind);
    && 0 <= p.health <= p.maxHealth
    && FLOOR <= p.position.y <= CEILING
    && 0 <= p.missiles
    && -0.75 * s.maxSpeed <= p.speed <= 1.5 * s.maxSpeed
  }

  ghost predicate EnemyOk(e: Airplane)
  {
    && 0 <= e.health <= e.maxHealth
    && 0 <= e.missiles
    && 0.0 <= e.speed <= SpecsOf(e.kind).maxSpeed
  }

  ghost predicate ProjectileOk(q: Projectile)
  {
    q.ttl > 0.0 && q.damage > 0
  }

  ghost predicate ExplosionOk(x: Explosion)
  {
    x.ttl > 0.0 && x.scale > 0
  }

  /** The store invariant: every record is well formed and the score counts whole kills. */
  ghost predicate WorldOk(w: World)
  {
    && (w.player.Some? ==> PlayerOk(w.player.value))
    && (forall i :: 0 <= i < |w.enemies| ==> EnemyOk(w.enemies[i]))
    && (forall i :: 0 <= i < |w.projectiles| ==> ProjectileOk(w.projectiles[i]))
    && (forall i :: 0 <= i < |w.explosions| ==> ExplosionOk(w.explosions[i]))
    && 0 <= w.score && w.score % KILL_POINTS == 0
  }

  lemma InitialWorldOk()
    ensures WorldOk(INITIAL_WORLD) && INITIAL_WORLD.player.None? && INITIAL_WORLD.score == 0
  {
  }

  // ---------------------------------------------------------------- player creation

  /** The freshly built player record. */
  function NewPlayer(kind: AirplaneType): (p: Airplane)
    ensures p.id == PLAYER_ID && p.isPlayer && p.kind == kind
    ensures p.health == p.maxHealth == SpecsOf(kind).health
    ensures p.missiles == SpecsOf(kind).missileCount && p.lastFired == 0
    ensures p.speed == 0.0 && !p.boost
    ensures PlayerOk(p)
  {
    Airplane(PLAYER_ID, kind, SpecsOf(kind).health, SpecsOf(kind).health,
             Vec3(0.0, 5.0, 0.0), Vec3(0.0, 0.0, 0.0), Vec3(0.0, 0.0, 0.0),
             0.0, false, SpecsOf(kind).missileCount, 0, true)
  }

  /** `createPlayer`: replaces whatever player there was. */
  function CreatePlayer(w: World, kind: AirplaneType): World
  {
    w.(player := Some(NewPlayer(kind)))
  }

  /** Creating a player discards any earlier one, alive or not, and touches nothing else. */
  lemma CreatePlayerOverwrites(w: World, k1: AirplaneType, k2: AirplaneType)
    ensures CreatePlayer(CreatePlayer(w, k1), k2) == CreatePlayer(w, k2)
    ensures CreatePlayer(w, k2).player.value.health == SpecsOf(k2).health
    ensures CreatePlayer(w, k2).(player := w.player) == w
  {
  }

  lemma CreatePlayerOk(w: World, kind: AirplaneType)
    requires WorldOk(w)
    ensures WorldOk(CreatePlayer(w, kind))
  {
  }

  // ---------------------------------------------------------------- player flight

  /** The throttle limit: 1.5 times the archetype's top speed while boosting. */
  function TopSpeed(p: Airplane): real
  {
    SpecsOf(p.kind).maxSpeed * (if p.boost then 1.5 else 1.0)
  }

  /** The turn rate: 0.8 times the archetype's handling while boosting. */
  function Handling(p: Airplane): real
  {
    SpecsOf(p.kind).handling * (if p.boost then 0.8 else 1.0)
  }

  /** The throttle step: accelerate toward `maxSpeed`, reverse toward half of it backwards,
      or with neither key coast toward 0 by half the acceleration. */
  function Throttle(speed: real, c: Controls, maxSpeed: real, accel: real): real
  {
    if c.forward then Min(speed + accel, maxSpeed)
    else if c.backward then Max(speed - accel, -maxSpeed * 0.5)
    else if speed > 0.0 then Max(0.0, speed - accel * 0.5)
    else if speed < 0.0 then Min(0.0, speed + accel * 0.5)
    else speed
  }

  /** Forward adds the acceleration up to the limit, reverse subtracts it down to minus half the
      limit, and coasting moves toward 0 by exactly half the acceleration, stopping at 0. */
  lemma ThrottleBounds(speed: real, c: Controls, maxSpeed: real, accel: real)
    ensures var s := Throttle(speed, c, maxSpeed, accel);
      && (c.forward ==> s <= maxSpeed && (s == maxSpeed || s == speed + accel))
      && (c.forward && speed + accel <= maxSpeed ==> s == speed + accel)
      && (c.forward && speed + accel > maxSpeed ==> s == maxSpeed)
      && (!c.forward && c.backward ==> -0.5 * maxSpeed <= s && (s == -0.5 * maxSpeed || s == speed - accel))
      && (!c.forward && c.backward && speed - accel >= -0.5 * maxSpeed ==> s == speed - accel)
      && (!c.forward && c.backward && speed - accel < -0.5 * maxSpeed ==> s == -0.5 * maxSpeed)
      && (!c.forward && !c.backward && 0.0 <= accel ==>
          && (0.0 <= speed ==> 0.0 <= s <= speed)
          && (speed <= 0.0 ==> speed <= s <= 0.0)
          && Abs(s - speed) <= 0.5 * accel
          && (Abs(speed) <= 0.5 * accel ==> s == 0.0)
          && (Abs(speed) >= 0.5 * accel ==> Abs(s - speed) == 0.5 * accel))
  {
  }

  /** The yaw after the turn keys: left adds the turn rate, right subtracts it. */
  function Yaw(yaw: real, c: Controls, handling: real): (r: real)
    ensures c.leftward == c.rightward ==> r == yaw
    ensures c.leftward && !c.rightward ==> r == yaw + handling
    ensures c.rightward && !c.leftward ==> r == yaw - handling
  {
    var turned := if c.leftward then yaw + handling else yaw;
    if c.rightward then turned - handling else turned
  }

  /** The bank angle the turn keys ask for. */
  function BankTarget(c: Controls): real
  {
    if c.leftward then 0.3 else if c.rightward then -0.3 else 0.0
  }

  /** The bank angle eases a tenth of the way toward its target each frame. */
  function Bank(roll: real, c: Controls): (r: real)
    ensures r - BankTarget(c) == 0.9 * (roll - BankTarget(c))
    ensures Abs(roll) <= 0.3 ==> Abs(r) <= 0.3
  {
    roll * (1.0 - 0.1) + BankTarget(c) * 0.1
  }

  /** The altitude clamp: keep y within [3, 30], stopping vertical motion at either limit. */
  function ClampAltitude(position: Vec3, velocity: Vec3): (m: Physics.Motion)
    ensures FLOOR <= m.position.y <= CEILING
    ensures m.position.x == position.x && m.position.z == position.z
    ensures m.velocity.x == velocity.x && m.velocity.z == velocity.z
    ensures FLOOR <= position.y <= CEILING ==> m == Physics.Motion(position, velocity)
    ensures !(FLOOR <= position.y <= CEILING) ==> m.velocity.y == 0.0
    ensures position.y < FLOOR ==> m.position.y == FLOOR
    ensures position.y > CEILING ==> m.position.y == CEILING
  {
    if position.y < FLOOR then Physics.Motion(position.(y := FLOOR), velocity.(y := 0.0))
    else if position.y > CEILING then Physics.Motion(position.(y := CEILING), velocity.(y := 0.0))
    else Physics.Motion(position, velocity)
  }

  /** A velocity of `speed` along the heading `yaw` in the horizontal plane, with vertical part `vy`. */
  function AlongHeading(trig: Trig, yaw: real, speed: real, vy: real): Vec3
  {
    Vec3(trig.sin(yaw) * speed, vy, trig.cos(yaw) * speed)
  }

  /** One frame of the player's flight (speed, heading, bank, position), before any firing. */
  function PlayerMotion(p: Airplane, c: Controls, trig: Trig): Airplane
  {
    var speed := Throttle(p.speed, c, TopSpeed(p), SpecsOf(p.kind).acceleration);
    var velocity := AlongHeading(trig, p.rotation.y, speed, p.velocity.y);
    var rotation := Vec3(p.rotation.x, Yaw(p.rotation.y, c, Handling(p)), Bank(p.rotation.z, c));
    var m := ClampAltitude(p.position.Plus(velocity), velocity);
    p.(speed := speed, position := m.position, rotation := rotation, velocity := m.velocity, boost := c.boost)
  }

  /** The player keeps its identity, health and weapons; it moves along its old heading at the
      new throttle speed, turns and banks by the keys, and ends within the altitude band. */
  lemma PlayerMotionEffect(p: Airplane, c: Controls, trig: Trig)
    ensures var q := PlayerMotion(p, c, trig);
      && q.id == p.id && q.kind == p.kind && q.isPlayer == p.isPlayer
      && q.health == p.health && q.maxHealth == p.maxHealth
      && q.missiles == p.missiles && q.lastFired == p.lastFired
      && q.speed == Throttle(p.speed, c, TopSpeed(p), SpecsOf(p.kind).acceleration)
      && q.velocity.x == trig.sin(p.rotation.y) * q.speed
      && q.velocity.z == trig.cos(p.rotation.y) * q.speed
      && q.position.x == p.position.x + q.velocity.x && q.position.z == p.position.z + q.velocity.z
      && FLOOR <= q.position.y <= CEILING
      && q.rotation == Vec3(p.rotation.x, Yaw(p.rotation.y, c, Handling(p)), Bank(p.rotation.z, c))
      && q.boost == c.boost
  {
  }

  /** Nothing in the player's update changes vertical velocity except the clamp, which zeroes
      it: a player that starts level inside the band stays at its altitude for good. */
  lemma PlayerLevelFlight(p: Airplane, c: Controls, trig: Trig)
    requires p.velocity.y == 0.0 && FLOOR <= p.position.y <= CEILING
    ensures PlayerMotion(p, c, trig).position.y == p.position.y
    ensures PlayerMotion(p, c, trig).velocity.y == 0.0
  {
  }

  /** The throttle keeps the player's speed in [-0.75, 1.5] times the archetype's top speed. */
  lemma PlayerMotionOk(p: Airplane, c: Controls, trig: Trig)
    requires PlayerOk(p)
    ensures PlayerOk(PlayerMotion(p, c, trig))
  {
    var s := SpecsOf(p.kind);
    var q := PlayerMotion(p, c, trig);
    PlayerMotionEffect(p, c, trig);
    ThrottleBounds(p.speed, c, TopSpeed(p), s.acceleration);
    assert s.maxSpeed <= TopSpeed(p) <= 1.5 * s.maxSpeed;
    if !c.forward && !c.backward {
      assert Abs(q.speed) <= Abs(p.speed);
    }
  }

  // ---------------------------------------------------------------- firing

  /** The weapon state after the trigger keys, and which weapons fired. */
  datatype Armament = Armament(lastFired: int, missiles: int, bullet: bool, missile: bool)

  /** The gun and the missile share `lastFired`: a missile needs 500 ms since the last shot of
      either kind, so a gun shot in the same frame always blocks it. */
  function PlayerTrigger(p: Airplane, c: Controls, now: int): (a: Armament)
    ensures a.bullet <==> c.fire && now - p.lastFired > SpecsOf(p.kind).fireRate
    ensures a.missile <==> !a.bullet && c.missile && p.missiles > 0 && now - p.lastFired > MISSILE_COOLDOWN_MS
    ensures a.missiles == if a.missile then p.missiles - 1 else p.missiles
    ensures 0 <= p.missiles ==> 0 <= a.missiles
    ensures a.lastFired == if a.bullet || a.missile then now else p.lastFired
  {
    var bullet := c.fire && now - p.lastFired > SpecsOf(p.kind).fireRate;
    var last := if bullet then now else p.lastFired;
    var missile := c.missile && p.missiles > 0 && now - last > MISSILE_COOLDOWN_MS;
    Armament(if missile then now else last, if missile then p.missiles - 1 else p.missiles, bullet, missile)
  }

  const BULLET_SPEED: real := 1.2
  const BULLET_DAMAGE: int := 10
  const BULLET_TTL: real := 2.0
  const MISSILE_SPEED: real := 0.7
  const MISSILE_DAMAGE: int := 30
  const MISSILE_TTL: real := 5.0

  /** A projectile leaving `src`: two units ahead along its yaw, 0.2 below it, flying level. */
  function NewProjectile(id: string, isEnemy: bool, src: Airplane, kind: ProjectileKind, trig: Trig): (q: Projectile)
    ensures q.id == id && q.isEnemy == isEnemy && q.kind == kind
    ensures q.direction == Vec3(trig.sin(src.rotation.y), 0.0, trig.cos(src.rotation.y))
    ensures q.position == Vec3(src.position.x + SPAWN_OFFSET * q.direction.x,
                               src.position.y - SPAWN_DROP,
                               src.position.z + SPAWN_OFFSET * q.direction.z)
    ensures kind == Bullet ==> q.speed == BULLET_SPEED && q.damage == BULLET_DAMAGE && q.ttl == BULLET_TTL
    ensures kind == Missile ==> q.speed == MISSILE_SPEED && q.damage == MISSILE_DAMAGE && q.ttl == MISSILE_TTL
    ensures ProjectileOk(q)
  {
    var dx := trig.sin(src.rotation.y);
    var dz := trig.cos(src.rotation.y);
    var missile := kind == Missile;
    Projectile(id,
               Vec3(src.position.x + dx * SPAWN_OFFSET, src.position.y - SPAWN_DROP, src.position.z + dz * SPAWN_OFFSET),
               Vec3(dx, 0.0, dz),
               if missile then MISSILE_SPEED else BULLET_SPEED,
               if missile then MISSILE_DAMAGE else BULLET_DAMAGE,
               isEnemy, kind,
               if missile then MISSILE_TTL else BULLET_TTL)
  }

  /** `fireProjectile`: one new projectile at the end of the list, a firing sound, one identifier drawn. */
  function Fire(w: World, isEnemy: bool, src: Airplane, kind: ProjectileKind, trig: Trig, uuid: nat -> string): (r: World)
    ensures |r.projectiles| == |w.projectiles| + 1 && r.projectiles[..|w.projectiles|] == w.projectiles
    ensures r.projectiles[|w.projectiles|] == NewProjectile(uuid(w.drawn), isEnemy, src, kind, trig)
    ensures r.events == w.events + [PlayHit] && r.drawn == w.drawn + 1
    ensures r.(projectiles := w.projectiles, events := w.events, drawn := w.drawn) == w
  {
    w.(projectiles := w.projectiles + [NewProjectile(uuid(w.drawn), isEnemy, src, kind, trig)],
       events := w.events + [PlayHit],
       drawn := w.drawn + 1)
  }

  function FireIf(w: World, fire: bool, isEnemy: bool, src: Airplane, kind: ProjectileKind, trig: Trig, uuid: nat -> string): World
  {
    if fire then Fire(w, isEnemy, src, kind, trig, uuid) else w
  }

  lemma FireOk(w: World, fire: bool, isEnemy: bool, src: Airplane, kind: ProjectileKind, trig: Trig, uuid: nat -> string)
    requires WorldOk(w)
    ensures WorldOk(FireIf(w, fire, isEnemy, src, kind, trig, uuid))
  {
  }

  /** A bullet fired by an aircraft at (0, 10, 0) facing yaw 0 appears at (0, 9.8, 2) flying along +z. */
  lemma BulletSpawnExample(w: World, src: Airplane, trig: Trig, uuid: nat -> string)
    requires src.position == Vec3(0.0, 10.0, 0.0) && src.rotation.y == 0.0
    requires trig.sin(0.0) == 0.0 && trig.cos(0.0) == 1.0
    ensures var q := Fire(w, false, src, Bullet, trig, uuid).projectiles[|w.projectiles|];
            q.position == Vec3(0.0, 9.8, 2.0) && q.direction == Vec3(0.0, 0.0, 1.0)
            && q.speed == 1.2 && q.damage == 10 && q.ttl == 2.0
  {
  }

  // ---------------------------------------------------------------- updatePlayer

  /** `updatePlayer` (its frame time is not used). Shots leave from the position and heading
      the player had before this frame's move. */
  function UpdatePlayer(w: World, c: Controls, now: int, trig: Trig, uuid: nat -> string): (r: World)
  {
    match w.player
    case None => w
    case Some(p) =>
      var arm := PlayerTrigger(p, c, now);
      var w1 := FireIf(w, arm.bullet, false, p, Bullet, trig, uuid);
      var w2 := FireIf(w1, arm.missile, false, p, Missile, trig, uuid);
      w2.(player := Some(PlayerMotion(p, c, trig).(lastFired := arm.lastFired, missiles := arm.missiles)))
  }

  /** Without a player nothing happens; otherwise at most one shot is appended, it is the
      player's, and enemies, explosions, score and weather are untouched. */
  lemma UpdatePlayerEffect(w: World, c: Controls, now: int, trig: Trig, uuid: nat -> string)
    ensures w.player.None? ==> UpdatePlayer(w, c, now, trig, uuid) == w
    ensures var r := UpdatePlayer(w, c, now, trig, uuid);
      w.player.Some? ==>
        && r.player.Some?
        && r.enemies == w.enemies && r.explosions == w.explosions
        && r.score == w.score && r.weather == w.weather
        && |w.projectiles| <= |r.projectiles| <= |w.projectiles| + 1
        && r.projectiles[..|w.projectiles|] == w.projectiles
        && (forall i :: |w.projectiles| <= i < |r.projectiles| ==> !r.projectiles[i].isEnemy)
  {
  }

  lemma UpdatePlayerOk(w: World, c: Controls, now: int, trig: Trig, uuid: nat -> string)
    requires WorldOk(w)
    ensures WorldOk(UpdatePlayer(w, c, now, trig, uuid))
  {
    if w.player.Some? {
      var p := w.player.value;
      PlayerMotionOk(p, c, trig);
      var arm := PlayerTrigger(p, c, now);
      var w1 := FireIf(w, arm.bullet, false, p, Bullet, trig, uuid);
      FireOk(w, arm.bullet, false, p, Bullet, trig, uuid);
      FireOk(w1, arm.missile, false, p, Missile, trig, uuid);
    }
  }

  // ---------------------------------------------------------------- enemies

  /** A freshly spawned enemy record. */
  function NewEnemy(id: string, kind: AirplaneType, position: Vec3, yaw: real): (e: Airplane)
    ensures e.id == id && e.kind == kind && !e.isPlayer && e.position == position
    ensures e.health == e.maxHealth == SpecsOf(kind).health && e.missiles == SpecsOf(kind).missileCount
    ensures e.speed == 0.0 && e.rotation.y == yaw
    ensures EnemyOk(e)
  {
    Airplane(id, kind, SpecsOf(kind).health, SpecsOf(kind).health, position,
             Vec3(0.0, yaw, 0.0), Vec3(0.0, 0.0, 0.0), 0.0, false, SpecsOf(kind).missileCount, 0, false)
  }

  /** `createEnemy`; `yawRoll` is the `Math.random()` draw for its heading. */
  function CreateEnemy(w: World, kind: AirplaneType, position: Vec3, yawRoll: real, uuid: nat -> string): (r: World)
    ensures r.enemies == w.enemies + [NewEnemy(uuid(w.drawn), kind, position, yawRoll * PI * 2.0)]
    ensures r.drawn == w.drawn + 1
    ensures r.(enemies := w.enemies, drawn := w.drawn) == w
  {
    w.(enemies := w.enemies + [NewEnemy(uuid(w.drawn), kind, position, yawRoll * PI * 2.0)], drawn := w.drawn + 1)
  }

  lemma CreateEnemyOk(w: World, kind: AirplaneType, position: Vec3, yawRoll: real, uuid: nat -> string)
    requires WorldOk(w)
    ensures WorldOk(CreateEnemy(w, kind, position, yawRoll, uuid))
  {
  }

  /** The first angle-wrapping loop: subtract full turns while above pi. */
  function WrapDown(a: real): (r: real)
    ensures r <= PI
    ensures a <= PI ==> r == a
    decreases if a > PI then (a - PI).Floor + 1 else 0
  {
    if a > PI then WrapDown(a - 2.0 * PI) else a
  }

  /** The second angle-wrapping loop: add full turns while below -pi. */
  function WrapUp(a: real): (r: real)
    ensures -PI <= r
    ensures a <= PI ==> r <= PI
    ensures -PI <= a ==> r == a
    decreases if a < -PI then (-PI - a).Floor + 1 else 0
  {
    if a < -PI then WrapUp(a + 2.0 * PI) else a
  }

  /** The shortest signed turn equivalent to `a`. */
  function Wrapped(a: real): (r: real)
    ensures -PI <= r <= PI
    ensures -PI <= a <= PI ==> r == a
  {
    WrapUp(WrapDown(a))
  }

  /** Wrapping only adds or removes whole turns. */
  lemma {:induction false} WrapDownCongruent(a: real) returns (k: int)
    ensures WrapDown(a) == a + 2.0 * PI * (k as real)
    decreases if a > PI then (a - PI).Floor + 1 else 0
  {
    if a > PI {
      var k' := WrapDownCongruent(a - 2.0 * PI);
      k := k' - 1;
    } else {
      k := 0;
    }
  }

  lemma {:induction false} WrapUpCongruent(a: real) returns (k: int)
    ensures WrapUp(a) == a + 2.0 * PI * (k as real)
    decreases if a < -PI then (-PI - a).Floor + 1 else 0
  {
    if a < -PI {
      var k' := WrapUpCongruent(a + 2.0 * PI);
      k := k' + 1;
    } else {
      k := 0;
    }
  }

  lemma WrappedCongruent(a: real) returns (k: int)
    ensures Wrapped(a) == a + 2.0 * PI * (k as real)
  {
    var k1 := WrapDownCongruent(a);
    var k2 := WrapUpCongruent(WrapDown(a));
    k := k1 + k2;
  }

  /** The speed step toward a target: by at most `step`, never past it. */
  function ApproachSpeed(speed: real, target: real, step: real): real
  {
    if speed < target then Min(speed + step, target)
    else if speed > target then Max(speed - step, target)
    else speed
  }

  /** The step moves exactly `step` toward the target, or lands on it when it is closer than that. */
  lemma ApproachSpeedBounds(speed: real, target: real, step: real)
    ensures var s := ApproachSpeed(speed, target, step);
      && (speed <= target && 0.0 <= step ==> speed <= s <= target)
      && (target <= speed && 0.0 <= step ==> target <= s <= speed)
      && (Abs(s - speed) <= Abs(step) || s == target)
      && (0.0 <= step && Abs(target - speed) <= step ==> s == target)
      && (0.0 <= step && Abs(target - speed) >= step ==> Abs(s - speed) == step)
  {
  }

  /** `Math.sign(diff) * Math.min(Math.abs(diff), 0.05)`, one sign at a time: a climb step toward the player's
      altitude that is at most 0.05 and never overshoots. */
  function HeightPull(diff: real): (r: real)
    ensures Abs(r) <= CLIMB_STEP && Abs(r) <= Abs(diff)
    ensures Abs(r) == Min(Abs(diff), CLIMB_STEP)
    ensures 0.0 <= diff ==> 0.0 <= r <= diff
    ensures diff <= 0.0 ==> diff <= r <= 0.0
  {
    if diff > 0.0 then Min(diff, CLIMB_STEP)
    else if diff < 0.0 then -Min(-diff, CLIMB_STEP)
    else 0.0
  }

  /** An enemy's chase move, given the wrapped turn toward the player: it turns by a share of
      the turn, eases its speed toward its target (70% of top speed within 20 of the player),
      flies level along its new heading, then climbs or dives toward the player's altitude,
      never below the floor. */
  function ChaseMotion(e: Airplane, turn: real, playerPos: Vec3, trig: Trig): Airplane
  {
    var specs := SpecsOf(e.kind);
    var yaw := e.rotation.y + turn * specs.handling * 0.5;
    var target := if Dist2(playerPos, e.position) < CLOSE_RANGE2 then specs.maxSpeed * 0.7 else specs.maxSpeed;
    var speed := ApproachSpeed(e.speed, target, specs.acceleration * 0.5);
    var velocity := AlongHeading(trig, yaw, speed, 0.0);
    var moved := e.position.Plus(velocity);
    var y := Max(moved.y + HeightPull(playerPos.y - moved.y), FLOOR);
    e.(position := moved.(y := y), rotation := e.rotation.(y := yaw), velocity := velocity, speed := speed)
  }

  /** The chase keeps the enemy's identity, health and weapons, turns it by a share of `turn`,
      flies it level along its new heading, and leaves it within 0.05 of its old altitude
      unless it is held at the floor. */
  lemma ChaseMotionEffect(e: Airplane, turn: real, playerPos: Vec3, trig: Trig)
    ensures var m := ChaseMotion(e, turn, playerPos, trig);
      && m.id == e.id && m.kind == e.kind && m.isPlayer == e.isPlayer
      && m.health == e.health && m.maxHealth == e.maxHealth
      && m.missiles == e.missiles && m.lastFired == e.lastFired
      && m.rotation == e.rotation.(y := e.rotation.y + turn * SpecsOf(e.kind).handling * 0.5)
      && m.velocity == Vec3(trig.sin(m.rotation.y) * m.speed, 0.0, trig.cos(m.rotation.y) * m.speed)
      && m.position.x == e.position.x + m.velocity.x && m.position.z == e.position.z + m.velocity.z
      && m.position.y >= FLOOR
      && (m.position.y == FLOOR || Abs(m.position.y - e.position.y) <= CLIMB_STEP)
  {
  }

  /** The enemy's y moves toward the player's y by at most 0.05 before the floor applies. */
  lemma ChaseClimbsTowardPlayer(e: Airplane, turn: real, playerPos: Vec3, trig: Trig)
    ensures var y := ChaseMotion(e, turn, playerPos, trig).position.y;
      && (e.position.y <= playerPos.y ==> (y == FLOOR || e.position.y <= y <= playerPos.y))
      && (playerPos.y <= e.position.y ==> (y == FLOOR || playerPos.y <= y <= e.position.y))
  {
  }

  /** The chase keeps speed within [0, top speed]. */
  lemma ChaseMotionOk(e: Airplane, turn: real, playerPos: Vec3, trig: Trig)
    requires EnemyOk(e)
    ensures EnemyOk(ChaseMotion(e, turn, playerPos, trig))
  {
    var specs := SpecsOf(e.kind);
    var target := if Dist2(playerPos, e.position) < CLOSE_RANGE2 then specs.maxSpeed * 0.7 else specs.maxSpeed;
    assert 0.0 <= target <= specs.maxSpeed;
    ApproachSpeedBounds(e.speed, target, specs.acceleration * 0.5);
  }

  /** An enemy's frame as a record, plus which of its weapons fired. */
  datatype EnemyOutcome = EnemyOutcome(enemy: Airplane, gun: bool, missile: bool)

  /** One enemy's chase step with its fire decisions. Both weapons need the player within 30
      and a turn under 0.3; the gun also needs twice the archetype's fire interval since the
      last shot, the missile only a missile left and the roll; the two may fire together. */
  function Steer(e: Airplane, turn: real, playerPos: Vec3, now: int, missileRoll: real, trig: Trig): (o: EnemyOutcome)
    ensures (o.gun || o.missile) ==> Dist2(playerPos, e.position) < ENGAGE_RANGE2 && Abs(turn) < FACING_TOLERANCE
    ensures o.gun <==> (Dist2(playerPos, e.position) < ENGAGE_RANGE2 && Abs(turn) < FACING_TOLERANCE
                        && now - e.lastFired > SpecsOf(e.kind).fireRate * 2)
    ensures o.missile <==> (Dist2(playerPos, e.position) < ENGAGE_RANGE2 && Abs(turn) < FACING_TOLERANCE
                            && e.missiles > 0 && missileRoll < ENEMY_MISSILE_CHANCE)
    ensures o.enemy.missiles == if o.missile then e.missiles - 1 else e.missiles
    ensures 0 <= e.missiles ==> 0 <= o.enemy.missiles
    ensures o.enemy.lastFired == if o.gun || o.missile then now else e.lastFired
    ensures o.enemy == ChaseMotion(e, turn, playerPos, trig).(lastFired := o.enemy.lastFired, missiles := o.enemy.missiles)
  {
    var specs := SpecsOf(e.kind);
    var engaged := Dist2(playerPos, e.position) < ENGAGE_RANGE2 && Abs(turn) < FACING_TOLERANCE;
    var gun := engaged && now - e.lastFired > specs.fireRate * 2;
    var missile := engaged && e.missiles > 0 && missileRoll < ENEMY_MISSILE_CHANCE;
    var m := ChaseMotion(e, turn, playerPos, trig);
    EnemyOutcome(m.(lastFired := if gun || missile then now else e.lastFired,
                    missiles := if missile then e.missiles - 1 else e.missiles),
                 gun, missile)
  }

  lemma SteerOk(e: Airplane, turn: real, playerPos: Vec3, now: int, missileRoll: real, trig: Trig)
    requires EnemyOk(e)
    ensures EnemyOk(Steer(e, turn, playerPos, now, missileRoll, trig).enemy)
  {
    ChaseMotionOk(e, turn, playerPos, trig);
  }

  /** The wrapped turn from the enemy's yaw to the bearing of the player. */
  function TurnToward(e: Airplane, playerPos: Vec3, trig: Trig): real
  {
    var d := playerPos.Minus(e.position);
    Wrapped(trig.atan2(d.x, d.z) - e.rotation.y)
  }

  /** One enemy of `updateEnemies`: its new record, and its shots (gun first) fired from
      where it was and the way it faced at the start of the frame. */
  function EnemyStep(w: World, e: Airplane, playerPos: Vec3, now: int, missileRoll: real,
                     trig: Trig, uuid: nat -> string): (r: (World, Airplane))
    ensures r.1 == Steer(e, TurnToward(e, playerPos, trig), playerPos, now, missileRoll, trig).enemy
    ensures r.0.(projectiles := w.projectiles, events := w.events, drawn := w.drawn) == w
    ensures |w.projectiles| <= |r.0.projectiles| <= |w.projectiles| + 2
    ensures r.0.projectiles[..|w.projectiles|] == w.projectiles
    ensures forall i :: |w.projectiles| <= i < |r.0.projectiles| ==>
              r.0.projectiles[i].isEnemy && ProjectileOk(r.0.projectiles[i])
    ensures var o := Steer(e, TurnToward(e, playerPos, trig), playerPos, now, missileRoll, trig);
      var nGun := if o.gun then 1 else 0;
      && r.0.projectiles == w.projectiles
           + (if o.gun then [NewProjectile(uuid(w.drawn), true, e, Bullet, trig)] else [])
           + (if o.missile then [NewProjectile(uuid(w.drawn + nGun), true, e, Missile, trig)] else [])
      && r.0.drawn == w.drawn + nGun + (if o.missile then 1 else 0)
      && r.0.events == w.events + (if o.gun then [PlayHit] else []) + (if o.missile then [PlayHit] else [])
  {
    var o := Steer(e, TurnToward(e, playerPos, trig), playerPos, now, missileRoll, trig);
    var w1 := FireIf(w, o.gun, true, e, Bullet, trig, uuid);
    (FireIf(w1, o.missile, true, e, Missile, trig, uuid), o.enemy)
  }

  /** The first `n` enemies of `es` stepped in order; `rolls(i)` is enemy i's missile roll. */
  function EnemiesUpTo(w: World, es: seq<Airplane>, n: nat, playerPos: Vec3, now: int,
                       rolls: nat -> real, trig: Trig, uuid: nat -> string): (r: (World, seq<Airplane>))
    requires n <= |es|
    ensures |r.1| == n
    ensures forall i :: 0 <= i < n ==> r.1[i] == Steer(es[i], TurnToward(es[i], playerPos, trig), playerPos, now, rolls(i), trig).enemy
    ensures r.0.(projectiles := w.projectiles, events := w.events, drawn := w.drawn) == w
    ensures |w.projectiles| <= |r.0.projectiles| && r.0.projectiles[..|w.projectiles|] == w.projectiles
    ensures forall i :: |w.projectiles| <= i < |r.0.projectiles| ==>
              r.0.projectiles[i].isEnemy && ProjectileOk(r.0.projectiles[i])
  {
    if n == 0 then (w, [])
    else
      var prev := EnemiesUpTo(w, es, n - 1, playerPos, now, rolls, trig, uuid);
      var step := EnemyStep(prev.0, es[n - 1], playerPos, now, rolls(n - 1), trig, uuid);
      (step.0, prev.1 + [step.1])
  }

  /** `updateEnemies`: a no-op without a player; otherwise every enemy turns, moves and
      possibly fires, and the list is replaced by the stepped records. */
  function UpdateEnemies(w: World, playerPos: Vec3, now: int, rolls: nat -> real, trig: Trig, uuid: nat -> string): World
  {
    if w.player.None? then w
    else
      var r := EnemiesUpTo(w, w.enemies, |w.enemies|, playerPos, now, rolls, trig, uuid);
      r.0.(enemies := r.1)
  }

  /** After `updateEnemies` the enemies are the same aircraft in the same order, none below the
      floor, with unchanged health; every new projectile is an enemy shot. */
  lemma UpdateEnemiesEffect(w: World, playerPos: Vec3, now: int, rolls: nat -> real, trig: Trig, uuid: nat -> string)
    ensures w.player.None? ==> UpdateEnemies(w, playerPos, now, rolls, trig, uuid) == w
    ensures var r := UpdateEnemies(w, playerPos, now, rolls, trig, uuid);
      && |r.enemies| == |w.enemies|
      && (forall i :: 0 <= i < |r.enemies| ==> r.enemies[i].id == w.enemies[i].id && r.enemies[i].health == w.enemies[i].health)
      && (w.player.Some? ==> forall i :: 0 <= i < |r.enemies| ==> r.enemies[i].position.y >= FLOOR)
      && r.player == w.player && r.score == w.score && r.explosions == w.explosions
      && r.projectiles[..|w.projectiles|] == w.projectiles
      && (forall i :: |w.projectiles| <= i < |r.projectiles| ==> r.projectiles[i].isEnemy)
  {
  }

  lemma EnemiesUpToOk(w: World, es: seq<Airplane>, n: nat, playerPos: Vec3, now: int,
                      rolls: nat -> real, trig: Trig, uuid: nat -> string)
    requires n <= |es|
    requires WorldOk(w)
    requires forall i :: 0 <= i < |es| ==> EnemyOk(es[i])
    ensures var r := EnemiesUpTo(w, es, n, playerPos, now, rolls, trig, uuid);
      WorldOk(r.0) && forall i :: 0 <= i < n ==> EnemyOk(r.1[i])
  {
    var r := EnemiesUpTo(w, es, n, playerPos, now, rolls, trig, uuid);
    forall i | 0 <= i < n
      ensures EnemyOk(r.1[i])
    {
      SteerOk(es[i], TurnToward(es[i], playerPos, trig), playerPos, now, rolls(i), trig);
    }
  }

  lemma UpdateEnemiesOk(w: World, playerPos: Vec3, now: int, rolls: nat -> real, trig: Trig, uuid: nat -> string)
    requires WorldOk(w)
    ensures WorldOk(UpdateEnemies(w, playerPos, now, rolls, trig, uuid))
  {
    if w.player.Some? {
      EnemiesUpToOk(w, w.enemies, |w.enemies|, playerPos, now, rolls, trig, uuid);
    }
  }

  // ---------------------------------------------------------------- explosions

  const EXPLOSION_TTL: real := 1.0

  /** `createExplosion`: an explosion with one second to live at the end of the list, and its sound. */
  function CreateExplosion(w: World, position: Vec3, scale: int, uuid: nat -> string): (r: World)
    ensures r.explosions == w.explosions + [Explosion(uuid(w.drawn), position, scale, EXPLOSION_TTL)]
    ensures r.events == w.events + [PlayHit] && r.drawn == w.drawn + 1
    ensures r.(explosions := w.explosions, events := w.events, drawn := w.drawn) == w
  {
    w.(explosions := w.explosions + [Explosion(uuid(w.drawn), position, scale, EXPLOSION_TTL)],
       events := w.events + [PlayHit],
       drawn := w.drawn + 1)
  }

  /** An explosion of positive size keeps the store invariant; the store's own calls use 1, 2 and 3. */
  lemma CreateExplosionOk(w: World, position: Vec3, scale: int, uuid: nat -> string)
    requires WorldOk(w) && 0 < scale
    ensures WorldOk(CreateExplosion(w, position, scale, uuid))
  {
  }

  /** Every explosion one frame older. */
  function Aged(xs: seq<Explosion>, delta: real): seq<Explosion>
  {
    seq(|xs|, i requires 0 <= i < |xs| => xs[i].(ttl := xs[i].ttl - delta))
  }

  function Burning(): Explosion -> bool
  {
    (x: Explosion) => x.ttl > 0.0
  }

  /** `updateExplosions` */
  function UpdateExplosions(w: World, delta: real): World
  {
    w.(explosions := Seqs.Filter(Burning(), Aged(w.explosions, delta)))
  }

  /** Every explosion ages by exactly `delta`; those still burning are kept, in order, and no others. */
  lemma UpdateExplosionsEffect(w: World, delta: real)
    ensures var r := UpdateExplosions(w, delta);
      && Seqs.SubseqOf(r.explosions, Aged(w.explosions, delta))
      && (forall x :: x in r.explosions <==> x in Aged(w.explosions, delta) && x.ttl > 0.0)
      && (forall x :: x in r.explosions ==> exists i :: 0 <= i < |w.explosions| && x == w.explosions[i].(ttl := w.explosions[i].ttl - delta))
      && r.(explosions := w.explosions) == w
  {
    Seqs.FilterIsSubseq(Burning(), Aged(w.explosions, delta));
    Seqs.FilterMembers(Burning(), Aged(w.explosions, delta));
  }

  lemma UpdateExplosionsOk(w: World, delta: real)
    requires WorldOk(w)
    ensures WorldOk(UpdateExplosions(w, delta))
  {
    var r := UpdateExplosions(w, delta);
    UpdateExplosionsEffect(w, delta);
    forall i | 0 <= i < |r.explosions|
      ensures ExplosionOk(r.explosions[i])
    {
      assert r.explosions[i] in r.explosions;
    }
  }

  // ---------------------------------------------------------------- damage

  function HasId(id: string): Airplane -> bool
  {
    (e: Airplane) => e.id == id
  }

  function NotId(id: string): Airplane -> bool
  {
    (e: Airplane) => e.id != id
  }

  /** `removeEnemy`: drop every enemy carrying `id`. */
  function RemoveEnemy(w: World, id: string): World
  {
    w.(enemies := Seqs.Filter(NotId(id), w.enemies))
  }

  /** The enemies without `id` all stay, in their order, and nothing else changes. */
  lemma RemoveEnemyEffect(w: World, id: string)
    ensures var r := RemoveEnemy(w, id);
      && Seqs.SubseqOf(r.enemies, w.enemies)
      && (forall e :: e in r.enemies <==> e in w.enemies && e.id != id)
      && r.(enemies := w.enemies) == w
  {
    Seqs.FilterIsSubseq(NotId(id), w.enemies);
    Seqs.FilterMembers(NotId(id), w.enemies);
  }

  lemma RemoveEnemyOk(w: World, id: string)
    requires WorldOk(w)
    ensures WorldOk(RemoveEnemy(w, id))
  {
    var r := RemoveEnemy(w, id);
    Seqs.FilterMembers(NotId(id), w.enemies);
    forall i | 0 <= i < |r.enemies|
      ensures EnemyOk(r.enemies[i])
    {
      assert r.enemies[i] in w.enemies;
    }
  }

  /** `damageAirplane`: the player first, then the first enemy with this id, else nothing. */
  function Damage(w: World, id: string, damage: int, uuid: nat -> string): (r: World)
    ensures r.projectiles == w.projectiles && r.weather == w.weather && r.respawnTime == w.respawnTime
    ensures r.player.Some? == w.player.Some?
    ensures w.player.Some? ==> r.player.value == w.player.value.(health := r.player.value.health)
    ensures |r.enemies| <= |w.enemies|
    ensures |w.explosions| <= |r.explosions| <= |w.explosions| + 1
    ensures r.explosions[..|w.explosions|] == w.explosions
    ensures r.drawn >= w.drawn
    ensures r.score == w.score || r.score == w.score + KILL_POINTS
  {
    if w.player.Some? && id == w.player.value.id then
      var p := w.player.value;
      var health := MaxInt(0, p.health - damage);
      var w1 := w.(player := Some(p.(health := health)));
      if health <= 0 then
        var w2 := CreateExplosion(w1, p.position, DEATH_SCALE, uuid);
        w2.(events := w2.events + [ScheduleEnd(END_DELAY_MS)])
      else
        w1
    else
      match Seqs.FindIndex(HasId(id), w.enemies)
      case None => w
      case Some(k) =>
        var e := w.enemies[k];
        var health := MaxInt(0, e.health - damage);
        if health <= 0 then
          var w1 := RemoveEnemy(CreateExplosion(w, e.position, DEATH_SCALE, uuid), e.id);
          w1.(score := w1.score + KILL_POINTS, events := w1.events + [PlaySuccess])
        else
          w.(enemies := w.enemies[k := e.(health := health)])
  }

  predicate TargetsNobody(w: World, id: string)
  {
    (w.player.None? || w.player.value.id != id) && forall i :: 0 <= i < |w.enemies| ==> w.enemies[i].id != id
  }

  /** An id naming neither the player nor any enemy changes nothing. */
  lemma DamageUnknown(w: World, id: string, damage: int, uuid: nat -> string)
    requires TargetsNobody(w, id)
    ensures Damage(w, id, damage, uuid) == w
  {
  }

  /** Player damage floors health at 0; every hit that leaves it at 0, even on an already dead
      player, adds a scale-3 explosion at the player and schedules the end of the game again. */
  lemma DamagePlayer(w: World, damage: int, uuid: nat -> string)
    requires w.player.Some?
    ensures var p := w.player.value;
            var r := Damage(w, p.id, damage, uuid);
      && r.player == Some(p.(health := MaxInt(0, p.health - damage)))
      && r.enemies == w.enemies && r.score == w.score
      && (p.health - damage > 0 ==> r.explosions == w.explosions && r.events == w.events)
      && (p.health - damage <= 0 ==>
            && r.explosions == w.explosions + [Explosion(uuid(w.drawn), p.position, DEATH_SCALE, EXPLOSION_TTL)]
            && r.events == w.events + [PlayHit, ScheduleEnd(END_DELAY_MS)])
  {
  }

  /** A surviving enemy changes only its own health; length and order stay. */
  lemma DamageWounds(w: World, k: nat, damage: int, uuid: nat -> string)
    requires k < |w.enemies| && (w.player.None? || w.player.value.id != w.enemies[k].id)
    requires forall j :: 0 <= j < k ==> w.enemies[j].id != w.enemies[k].id
    requires w.enemies[k].health - damage > 0
    ensures var r := Damage(w, w.enemies[k].id, damage, uuid);
      && |r.enemies| == |w.enemies|
      && r.enemies[k] == w.enemies[k].(health := w.enemies[k].health - damage)
      && (forall j :: 0 <= j < |w.enemies| && j != k ==> r.enemies[j] == w.enemies[j])
      && r.(enemies := w.enemies) == w
  {
    assert Seqs.FindIndex(HasId(w.enemies[k].id), w.enemies) == Some(k);
  }

  /** A kill removes that enemy (the others keep their order), appends one scale-3 explosion
      with one second to live at its position, plays the success sound and adds exactly 100. */
  lemma DamageKills(w: World, k: nat, damage: int, uuid: nat -> string)
    requires k < |w.enemies| && (w.player.None? || w.player.value.id != w.enemies[k].id)
    requires forall j :: 0 <= j < k ==> w.enemies[j].id != w.enemies[k].id
    requires w.enemies[k].health - damage <= 0
    ensures var e := w.enemies[k];
            var r := Damage(w, e.id, damage, uuid);
      && r.enemies == Seqs.Filter(NotId(e.id), w.enemies)
      && Seqs.SubseqOf(r.enemies, w.enemies)
      && (forall x :: x in r.enemies <==> x in w.enemies && x.id != e.id)
      && r.score == w.score + KILL_POINTS
      && r.explosions == w.explosions + [Explosion(uuid(w.drawn), e.position, DEATH_SCALE, EXPLOSION_TTL)]
      && r.events == w.events + [PlayHit, PlaySuccess]
      && r.player == w.player && r.projectiles == w.projectiles
  {
    var e := w.enemies[k];
    assert Seqs.FindIndex(HasId(e.id), w.enemies) == Some(k);
    Seqs.FilterIsSubseq(NotId(e.id), w.enemies);
    Seqs.FilterMembers(NotId(e.id), w.enemies);
  }

  /** No two enemies share an identifier. */
  predicate UniqueIds(es: seq<Airplane>)
  {
    forall i, j :: 0 <= i < j < |es| ==> es[i].id != es[j].id
  }

  /** With distinct identifiers, score plus 100 per living enemy is conserved by damage:
      every point scored is one enemy fewer. */
  lemma DamageScoreConserved(w: World, id: string, damage: int, uuid: nat -> string)
    requires UniqueIds(w.enemies)
    ensures var r := Damage(w, id, damage, uuid);
      r.score + KILL_POINTS * |r.enemies| == w.score + KILL_POINTS * |w.enemies|
  {
    if !(w.player.Some? && id == w.player.value.id) {
      var f := Seqs.FindIndex(HasId(id), w.enemies);
      if f.Some? {
        var k := f.value;
        var e := w.enemies[k];
        if MaxInt(0, e.health - damage) <= 0 {
          Seqs.FilterDropsOne(NotId(e.id), w.enemies, k);
        }
      }
    }
  }

  lemma DamageOk(w: World, id: string, damage: int, uuid: nat -> string)
    requires WorldOk(w) && 0 <= damage
    ensures WorldOk(Damage(w, id, damage, uuid))
  {
    if !(w.player.Some? && id == w.player.value.id) {
      DamageEnemyOk(w, id, damage, uuid);
    }
  }

  lemma DamageEnemyOk(w: World, id: string, damage: int, uuid: nat -> string)
    requires WorldOk(w) && 0 <= damage
    requires !(w.player.Some? && id == w.player.value.id)
    ensures WorldOk(Damage(w, id, damage, uuid))
  {
    var r := Damage(w, id, damage, uuid);
    var f := Seqs.FindIndex(HasId(id), w.enemies);
    if f.Some? {
      var e := w.enemies[f.value];
      if MaxInt(0, e.health - damage) <= 0 {
        Seqs.FilterMembers(NotId(e.id), w.enemies);
        forall i | 0 <= i < |r.enemies|
          ensures EnemyOk(r.enemies[i])
        {
          assert r.enemies[i] in r.enemies;
        }
      }
    }
  }

  /** A 100-health enemy survives three missiles and the fourth kills it for 100 points. */
  lemma FourMissilesKill(w: World, uuid: nat -> string)
    requires w.player.None? && |w.enemies| == 1 && w.enemies[0].health == 100
    ensures var id := w.enemies[0].id;
            var w1 := Damage(w, id, MISSILE_DAMAGE, uuid);
            var w2 := Damage(w1, id, MISSILE_DAMAGE, uuid);
            var w3 := Damage(w2, id, MISSILE_DAMAGE, uuid);
            var w4 := Damage(w3, id, MISSILE_DAMAGE, uuid);
      && w3.enemies == [w.enemies[0].(health := 10)] && w3.score == w.score
      && w4.enemies == [] && w4.score == w.score + KILL_POINTS
  {
    var id := w.enemies[0].id;
    DamageWounds(w, 0, MISSILE_DAMAGE, uuid);
    var w1 := Damage(w, id, MISSILE_DAMAGE, uuid);
    DamageWounds(w1, 0, MISSILE_DAMAGE, uuid);
    var w2 := Damage(w1, id, MISSILE_DAMAGE, uuid);
    DamageWounds(w2, 0, MISSILE_DAMAGE, uuid);
    var w3 := Damage(w2, id, MISSILE_DAMAGE, uuid);
    DamageKills(w3, 0, MISSILE_DAMAGE, uuid);
    Seqs.FilterMembers(NotId(id), w3.enemies);
  }

  // ---------------------------------------------------------------- projectiles

  /** The store's own hit test: closer than 1.5, whatever the projectile kind. */
  predicate StoreHit(a: Vec3, b: Vec3)
  {
    Dist2(a, b) < HIT_RADIUS2
  }

  function HitsAt(position: Vec3): Airplane -> bool
  {
    (e: Airplane) => StoreHit(position, e.position)
  }

  /** The explosion size for a hit: 2 for a missile, 1 for a bullet. */
  function HitScale(kind: ProjectileKind): int
  {
    if kind == Missile then 2 else 1
  }

  /** A projectile one frame on: ttl reduced by the frame time, moved by its speed along its direction. */
  function Moved(q: Projectile, delta: real): Projectile
  {
    q.(ttl := q.ttl - delta, position := q.position.Plus(q.direction.Scale(q.speed)))
  }

  /** A moved projectile stays in flight when it is still alive and within 1.5 of nothing on the
      opposing side: of the player for an enemy shot, of no snapshot enemy for a player shot. */
  function Flying(p0: Airplane, es: seq<Airplane>): Projectile -> bool
  {
    (m: Projectile) =>
      && m.ttl > 0.0
      && (m.isEnemy ==> !StoreHit(m.position, p0.position))
      && (!m.isEnemy ==> forall j :: 0 <= j < |es| ==> !StoreHit(m.position, es[j].position))
  }

  /** A hit on the aircraft `id`: damage first, then an explosion where the projectile is. */
  function Strike(w: World, id: string, m: Projectile, uuid: nat -> string): World
  {
    CreateExplosion(Damage(w, id, m.damage, uuid), m.position, HitScale(m.kind), uuid)
  }

  /** One projectile of `updateProjectiles`. `p0` and `es` are the player and enemies read at the
      start of the pass, used for the hit tests; damage applies to the current world. */
  function ProjectileStep(w: World, p0: Airplane, es: seq<Airplane>, q: Projectile, delta: real,
                          uuid: nat -> string): (r: (World, Option<Projectile>))
    ensures r.1.Some? ==> r.0 == w && r.1.value == Moved(q, delta) && r.1.value.ttl > 0.0
    ensures q.ttl - delta <= 0.0 ==> r == (w, None)
    ensures q.isEnemy && q.ttl - delta > 0.0 && StoreHit(Moved(q, delta).position, p0.position) ==>
            r == (Strike(w, p0.id, Moved(q, delta), uuid), None)
    ensures Flying(p0, es)(Moved(q, delta)) ==> r == (w, Some(Moved(q, delta)))
    ensures r.1.Some? <==> Flying(p0, es)(Moved(q, delta))
  {
    var m := Moved(q, delta);
    if m.ttl <= 0.0 then (w, None)
    else if m.isEnemy then
      if StoreHit(m.position, p0.position) then (Strike(w, p0.id, m, uuid), None) else (w, Some(m))
    else
      match Seqs.FindIndex(HitsAt(m.position), es)
      case Some(k) => (Strike(w, es[k].id, m, uuid), None)
      case None => (w, Some(m))
  }

  /** The first `n` projectiles of `ps` in order: the world after their hits, and the survivors. */
  function ProjectilesUpTo(w: World, p0: Airplane, es: seq<Airplane>, ps: seq<Projectile>, n: nat, delta: real,
                           uuid: nat -> string): (r: (World, seq<Projectile>))
    requires n <= |ps|
    ensures |r.1| <= n
    ensures forall i :: 0 <= i < |r.1| ==> r.1[i].ttl > 0.0
    ensures r.0.projectiles == w.projectiles && r.0.weather == w.weather && r.0.respawnTime == w.respawnTime
    ensures r.0.player.Some? == w.player.Some?
    ensures w.player.Some? ==> r.0.player.value == w.player.value.(health := r.0.player.value.health)
    ensures |r.0.enemies| <= |w.enemies|
    ensures |w.explosions| <= |r.0.explosions| && r.0.explosions[..|w.explosions|] == w.explosions
  {
    if n == 0 then (w, [])
    else
      var prev := ProjectilesUpTo(w, p0, es, ps, n - 1, delta, uuid);
      var step := ProjectileStep(prev.0, p0, es, ps[n - 1], delta, uuid);
      (step.0, if step.1.Some? then prev.1 + [step.1.value] else prev.1)
  }

  /** `updateProjectiles`: a no-op without a player; otherwise resolve every projectile in order. */
  function UpdateProjectiles(w: World, delta: real, uuid: nat -> string): World
  {
    match w.player
    case None => w
    case Some(p0) =>
      var r := ProjectilesUpTo(w, p0, w.enemies, w.projectiles, |w.projectiles|, delta, uuid);
      r.0.(projectiles := r.1)
  }

  /** Every projectile one frame on, whether it survives or not. */
  function MovedAll(ps: seq<Projectile>, delta: real): seq<Projectile>
  {
    seq(|ps|, i requires 0 <= i < |ps| => Moved(ps[i], delta))
  }

  /** The survivors are moved copies of the originals, in their original order. */
  lemma {:induction false} SurvivorsInOrder(w: World, p0: Airplane, es: seq<Airplane>, ps: seq<Projectile>, n: nat,
                                            delta: real, uuid: nat -> string)
    requires n <= |ps|
    ensures Seqs.SubseqOf(ProjectilesUpTo(w, p0, es, ps, n, delta, uuid).1, MovedAll(ps[..n], delta))
  {
    if n > 0 {
      SurvivorsInOrder(w, p0, es, ps, n - 1, delta, uuid);
      var prev := ProjectilesUpTo(w, p0, es, ps, n - 1, delta, uuid).1;
      var all := MovedAll(ps[..n], delta);
      assert all[..|all| - 1] == MovedAll(ps[..n - 1], delta);
      var kept := ProjectilesUpTo(w, p0, es, ps, n, delta, uuid).1;
      if kept != prev {
        assert kept == prev + [Moved(ps[n - 1], delta)];
        assert kept[..|kept| - 1] == prev;
      }
    }
  }

  /** The survivors of a pass are exactly the moved projectiles still in flight, in order:
      none that expires or hits is kept, and none that flies on is lost. */
  lemma {:induction false} SurvivorsAreFlying(w: World, p0: Airplane, es: seq<Airplane>, ps: seq<Projectile>, n: nat,
                                              delta: real, uuid: nat -> string)
    requires n <= |ps|
    ensures ProjectilesUpTo(w, p0, es, ps, n, delta, uuid).1 == Seqs.Filter(Flying(p0, es), MovedAll(ps[..n], delta))
  {
    if n > 0 {
      SurvivorsAreFlying(w, p0, es, ps, n - 1, delta, uuid);
      var all := MovedAll(ps[..n], delta);
      assert all == MovedAll(ps[..n - 1], delta) + [Moved(ps[n - 1], delta)];
      Seqs.FilterSnoc(Flying(p0, es), MovedAll(ps[..n - 1], delta), Moved(ps[n - 1], delta));
    }
  }

  /** No player: nothing happens. Otherwise the survivors are exactly the moved projectiles still
      in flight, in their order, with ttl reduced by exactly `delta` and still positive. */
  lemma UpdateProjectilesEffect(w: World, delta: real, uuid: nat -> string)
    ensures w.player.None? ==> UpdateProjectiles(w, delta, uuid) == w
    ensures var r := UpdateProjectiles(w, delta, uuid);
      w.player.Some? ==>
        && Seqs.SubseqOf(r.projectiles, MovedAll(w.projectiles, delta))
        && r.projectiles == Seqs.Filter(Flying(w.player.value, w.enemies), MovedAll(w.projectiles, delta))
        && (forall i :: 0 <= i < |r.projectiles| ==> r.projectiles[i].ttl > 0.0)
        && |r.projectiles| <= |w.projectiles|
        && r.weather == w.weather && r.player.Some?
        && r.explosions[..|w.explosions|] == w.explosions
  {
    if w.player.Some? {
      SurvivorsInOrder(w, w.player.value, w.enemies, w.projectiles, |w.projectiles|, delta, uuid);
      SurvivorsAreFlying(w, w.player.value, w.enemies, w.projectiles, |w.projectiles|, delta, uuid);
      assert w.projectiles[..|w.projectiles|] == w.projectiles;
    }
  }

  /** A player projectile hits the first snapshot enemy within 1.5 and only that one; it is
      consumed, and the last explosion is its own (scale 2 for a missile, 1 for a bullet). */
  lemma PlayerShotHitsFirst(w: World, p0: Airplane, es: seq<Airplane>, q: Projectile, delta: real,
                            uuid: nat -> string, k: nat)
    requires !q.isEnemy && q.ttl - delta > 0.0
    requires k < |es| && StoreHit(Moved(q, delta).position, es[k].position)
    requires forall j :: 0 <= j < k ==> !StoreHit(Moved(q, delta).position, es[j].position)
    ensures var r := ProjectileStep(w, p0, es, q, delta, uuid);
      && r.1.None?
      && r.0 == Strike(w, es[k].id, Moved(q, delta), uuid)
      && r.0.explosions[|r.0.explosions| - 1].position == Moved(q, delta).position
      && r.0.explosions[|r.0.explosions| - 1].scale == HitScale(q.kind)
  {
    assert Seqs.FindIndex(HitsAt(Moved(q, delta).position), es) == Some(k);
  }

  /** An enemy projectile is tested against the player alone: it never touches the enemies. */
  lemma {:induction false} EnemyFireSparesEnemies(w: World, p0: Airplane, es: seq<Airplane>, ps: seq<Projectile>, n: nat,
                                                  delta: real, uuid: nat -> string)
    requires n <= |ps| && w.player == Some(p0)
    requires forall i :: 0 <= i < n ==> ps[i].isEnemy
    ensures var r := ProjectilesUpTo(w, p0, es, ps, n, delta, uuid);
      r.0.enemies == w.enemies && r.0.score == w.score
  {
    if n > 0 {
      EnemyFireSparesEnemies(w, p0, es, ps, n - 1, delta, uuid);
    }
  }

  /** A player projectile is tested against the enemies alone: it never hurts the player
      (so long as no enemy carries the player's identifier). */
  lemma {:induction false} PlayerFireSparesPlayer(w: World, p0: Airplane, es: seq<Airplane>, ps: seq<Projectile>, n: nat,
                                                  delta: real, uuid: nat -> string)
    requires n <= |ps| && w.player == Some(p0)
    requires forall i :: 0 <= i < n ==> !ps[i].isEnemy
    requires forall i :: 0 <= i < |es| ==> es[i].id != p0.id
    ensures ProjectilesUpTo(w, p0, es, ps, n, delta, uuid).0.player == w.player
  {
    if n > 0 {
      PlayerFireSparesPlayer(w, p0, es, ps, n - 1, delta, uuid);
    }
  }

  /** A player shot that reaches an enemy already removed earlier in the same pass is still
      consumed and still explodes, but damages nobody and scores nothing. */
  lemma StaleSnapshotHit(w: World, p0: Airplane, es: seq<Airplane>, q: Projectile, delta: real,
                         uuid: nat -> string, k: nat)
    requires !q.isEnemy && q.ttl - delta > 0.0
    requires k < |es| && StoreHit(Moved(q, delta).position, es[k].position)
    requires forall j :: 0 <= j < k ==> !StoreHit(Moved(q, delta).position, es[j].position)
    requires TargetsNobody(w, es[k].id)
    ensures var r := ProjectileStep(w, p0, es, q, delta, uuid);
      && r.1.None?
      && r.0 == CreateExplosion(w, Moved(q, delta).position, HitScale(q.kind), uuid)
      && r.0.enemies == w.enemies && r.0.score == w.score
  {
    PlayerShotHitsFirst(w, p0, es, q, delta, uuid, k);
    DamageUnknown(w, es[k].id, q.damage, uuid);
  }

  lemma StrikeOk(w: World, id: string, m: Projectile, uuid: nat -> string)
    requires WorldOk(w) && ProjectileOk(m)
    ensures WorldOk(Strike(w, id, m, uuid))
  {
    DamageOk(w, id, m.damage, uuid);
  }

  lemma ProjectileStepOk(w: World, p0: Airplane, es: seq<Airplane>, q: Projectile, delta: real, uuid: nat -> string)
    requires WorldOk(w) && ProjectileOk(q)
    ensures var r := ProjectileStep(w, p0, es, q, delta, uuid);
      WorldOk(r.0) && (r.1.Some? ==> ProjectileOk(r.1.value))
  {
    var m := Moved(q, delta);
    if m.ttl > 0.0 {
      if m.isEnemy {
        if StoreHit(m.position, p0.position) {
          StrikeOk(w, p0.id, m, uuid);
        }
      } else {
        var f := Seqs.FindIndex(HitsAt(m.position), es);
        if f.Some? {
          StrikeOk(w, es[f.value].id, m, uuid);
        }
      }
    }
  }

  lemma {:induction false} ProjectilesUpToOk(w: World, p0: Airplane, es: seq<Airplane>, ps: seq<Projectile>, n: nat,
                                             delta: real, uuid: nat -> string)
    requires n <= |ps| && WorldOk(w)
    requires forall i :: 0 <= i < |ps| ==> ProjectileOk(ps[i])
    ensures var r := ProjectilesUpTo(w, p0, es, ps, n, delta, uuid);
      WorldOk(r.0) && forall i :: 0 <= i < |r.1| ==> ProjectileOk(r.1[i])
  {
    if n > 0 {
      ProjectilesUpToOk(w, p0, es, ps, n - 1, delta, uuid);
      var prev := ProjectilesUpTo(w, p0, es, ps, n - 1, delta, uuid);
      ProjectileStepOk(prev.0, p0, es, ps[n - 1], delta, uuid);
      var step := ProjectileStep(prev.0, p0, es, ps[n - 1], delta, uuid);
      var r := ProjectilesUpTo(w, p0, es, ps, n, delta, uuid);
      assert r.0 == step.0;
      assert r.1 == if step.1.Some? then prev.1 + [step.1.value] else prev.1;
    }
  }

  lemma UpdateProjectilesOk(w: World, delta: real, uuid: nat -> string)
    requires WorldOk(w)
    ensures WorldOk(UpdateProjectiles(w, delta, uuid))
  {
    if w.player.Some? {
      ProjectilesUpToOk(w, w.player.value, w.enemies, w.projectiles, |w.projectiles|, delta, uuid);
    }
  }

  /** The store's 1.5 hit radius is inside the radius the collision helpers use for either kind,
      so a store hit is also a hit for `checkProjectileCollision`. */
  lemma StoreHitIsCollision(airplane: Airplane, q: Projectile)
    requires StoreHit(q.position, airplane.position)
    ensures Collisions.CheckProjectileCollision(airplane, q)
  {
  }

  // ---------------------------------------------------------------- weather and reset

  /** `setWeather` */
  function SetWeather(w: World, weather: Weather): (r: World)
    ensures r.weather == weather
    ensures r.(weather := w.weather) == w
  {
    w.(weather := weather)
  }

  lemma SetWeatherOk(w: World, weather: Weather)
    requires WorldOk(w)
    ensures WorldOk(SetWeather(w, weather))
  {
  }

  /** `reset`: clears the battle but keeps the weather. */
  function Reset(w: World): (r: World)
  {
    w.(player := None, enemies := [], projectiles := [], explosions := [], score := 0, respawnTime := 0)
  }

  /** After a reset the world is the initial one except for weather and the effect log, and a
      second reset changes nothing. */
  lemma ResetEffect(w: World)
    ensures Reset(w) == INITIAL_WORLD.(weather := w.weather, events := w.events, drawn := w.drawn)
    ensures WorldOk(Reset(w))
    ensures Reset(Reset(w)) == Reset(w)
  {
  }
}
