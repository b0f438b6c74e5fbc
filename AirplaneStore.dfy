/**
 * The combat store (client/src/game/stores/useAirplaneStore.ts) as the
 * object it is: one record of fields that the actions replace, rewriting
 * aircraft and projectile records as they go. Every action is proved to
 * leave exactly the world that `StoreModel` describes, and to keep the
 * store invariant `Valid()`.
 */
module AirplaneStore {
  import opened Types
  import Seqs
  import Physics
  import M = StoreModel

  /** The two angle-wrapping loops of `updateEnemies`: the shortest signed turn equal to `diff`. */
  method ShortestRotation(diff: real) returns (r: real)
    ensures -PI <= r <= PI
    ensures r == M.Wrapped(diff)
  {
    r := diff;
    while r > PI
      invariant M.WrapDown(r) == M.WrapDown(diff)
      decreases if r > PI then (r - PI).Floor + 1 else 0
    {
      r := r - PI * 2.0;
    }
    while r < -PI
      invariant M.WrapUp(r) == M.WrapUp(M.WrapDown(diff))
      decreases if r < -PI then (-PI - r).Floor + 1 else 0
    {
      r := r + PI * 2.0;
    }
  }

  /** The enemy scan of `updateProjectiles`: the first enemy within the store's hit radius. */
  method FindHitEnemy(es: seq<Airplane>, position: Vec3) returns (k: Option<nat>)
    ensures k.Some? ==> k.value < |es| && M.StoreHit(position, es[k.value].position)
    ensures k.Some? ==> forall j :: 0 <= j < k.value ==> !M.StoreHit(position, es[j].position)
    ensures k.None? ==> forall j :: 0 <= j < |es| ==> !M.StoreHit(position, es[j].position)
    ensures k == Seqs.FindIndex(M.HitsAt(position), es)
  {
    var i := 0;
    while i < |es|
      invariant 0 <= i <= |es|
      invariant forall j :: 0 <= j < i ==> !M.StoreHit(position, es[j].position)
    {
      if M.StoreHit(position, es[i].position) {
        return Some(i);
      }
      i := i + 1;
    }
    return None;
  }

  /** The throttle keys of `updatePlayer`. */
  method ThrottleStep(speed0: real, c: Controls, maxSpeed: real, accel: real) returns (speed: real)
    ensures speed == M.Throttle(speed0, c, maxSpeed, accel)
  {
    speed := speed0;
    if c.forward {
      speed := Min(speed + accel, maxSpeed);
    } else if c.backward {
      speed := Max(speed - accel, -maxSpeed * 0.5);
    } else if speed > 0.0 {
      speed := Max(0.0, speed - accel * 0.5);
    } else if speed < 0.0 {
      speed := Min(0.0, speed + accel * 0.5);
    }
  }

  /** The altitude clamp of `updatePlayer`. */
  method ClampStep(position0: Vec3, velocity0: Vec3) returns (position: Vec3, velocity: Vec3)
    ensures Physics.Motion(position, velocity) == M.ClampAltitude(position0, velocity0)
  {
    position, velocity := position0, velocity0;
    if position.y < M.FLOOR {
      position := position.(y := M.FLOOR);
      velocity := velocity.(y := 0.0);
    }
    if position.y > M.CEILING {
      position := position.(y := M.CEILING);
      velocity := velocity.(y := 0.0);
    }
  }

  /** The enemy's speed change in `updateEnemies`: toward the target by at most `step`. */
  method ApproachStep(speed0: real, target: real, step: real) returns (speed: real)
    ensures speed == M.ApproachSpeed(speed0, target, step)
  {
    speed := speed0;
    if speed < target {
      speed := Min(speed + step, target);
    } else if speed > target {
      speed := Max(speed - step, target);
    }
  }

  /** The `map` then `filter` pass of `updateExplosions` as one loop: age each explosion by
      `delta` and keep it while it still has time to live. */
  method AgeExplosions(xs: seq<Explosion>, delta: real) returns (kept: seq<Explosion>)
    ensures kept == Seqs.Filter(M.Burning(), M.Aged(xs, delta))
  {
    kept := [];
    var i := 0;
    while i < |xs|
      invariant 0 <= i <= |xs|
      invariant kept == Seqs.Filter(M.Burning(), M.Aged(xs[..i], delta))
    {
      var x := xs[i].(ttl := xs[i].ttl - delta);
      Seqs.FilterSnoc(M.Burning(), M.Aged(xs[..i], delta), x);
      assert M.Aged(xs[..i + 1], delta) == M.Aged(xs[..i], delta) + [x];
      assert M.Burning()(x) == (x.ttl > 0.0);
      if x.ttl > 0.0 {
        kept := kept + [x];
      }
      i := i + 1;
    }
    assert xs[..|xs|] == xs;
  }

  class Store {
    var player: Option<Airplane>
    var enemies: seq<Airplane>
    var projectiles: seq<Projectile>
    var explosions: seq<Explosion>
    var weather: Weather
    var score: int
    var respawnTime: int
    var events: seq<M.Event>
    var drawn: nat
    const trig: Trig
    const uuid: nat -> string

    /** The store's fields as a `StoreModel.World`. */
    function State(): M.World
      reads this
    {
      M.World(player, enemies, projectiles, explosions, weather, score, respawnTime, events, drawn)
    }

    ghost predicate Valid()
      reads this
    {
      M.WorldOk(State())
    }

    /** The store as `create` builds it. */
    constructor (trig: Trig, uuid: nat -> string)
      ensures State() == M.INITIAL_WORLD && Valid()
      ensures this.trig == trig && this.uuid == uuid
    {
      player := None;
      enemies := [];
      projectiles := [];
      explosions := [];
      weather := Clear;
      score := 0;
      respawnTime := 0;
      events := [];
      drawn := 0;
      this.trig := trig;
      this.uuid := uuid;
      M.InitialWorldOk();
    }

    /** `uuidv4()` */
    method NextId() returns (id: string)
      modifies this
      ensures id == uuid(old(drawn))
      ensures State() == old(State()).(drawn := old(drawn) + 1)
    {
      id := uuid(drawn);
      drawn := drawn + 1;
    }

    method CreatePlayer(kind: AirplaneType)
      modifies this
      ensures State() == M.CreatePlayer(old(State()), kind)
      ensures old(Valid()) ==> Valid()
    {
      var specs := M.SpecsOf(kind);
      player := Some(Airplane(M.PLAYER_ID, kind, specs.health, specs.health,
                              Vec3(0.0, 5.0, 0.0), Vec3(0.0, 0.0, 0.0), Vec3(0.0, 0.0, 0.0),
                              0.0, false, specs.missileCount, 0, true));
      if old(Valid()) {
        M.CreatePlayerOk(old(State()), kind);
      }
    }

    method FireProjectile(isEnemy: bool, src: Airplane, kind: ProjectileKind)
      modifies this
      ensures State() == M.Fire(old(State()), isEnemy, src, kind, trig, uuid)
      ensures old(Valid()) ==> Valid()
    {
      events := events + [M.PlayHit];
      var dx := trig.sin(src.rotation.y);
      var dz := trig.cos(src.rotation.y);
      var spawn := Vec3(src.position.x + dx * M.SPAWN_OFFSET, src.position.y - M.SPAWN_DROP,
                        src.position.z + dz * M.SPAWN_OFFSET);
      var speed, damage, ttl := M.BULLET_SPEED, M.BULLET_DAMAGE, M.BULLET_TTL;
      if kind == Missile {
        speed, damage, ttl := M.MISSILE_SPEED, M.MISSILE_DAMAGE, M.MISSILE_TTL;
      }
      var id := NextId();
      projectiles := projectiles + [Projectile(id, spawn, Vec3(dx, 0.0, dz), speed, damage, isEnemy, kind, ttl)];
      if old(Valid()) {
        M.FireOk(old(State()), true, isEnemy, src, kind, trig, uuid);
      }
    }

    /** The flight half of `updatePlayer`: throttle, heading, bank, move and altitude clamp. */
    method Fly(p: Airplane, c: Controls) returns (q: Airplane)
      ensures q == M.PlayerMotion(p, c, trig)
    {
      var specs := M.SpecsOf(p.kind);
      var maxSpeed := M.TopSpeed(p);
      var handling := M.Handling(p);
      var speed := ThrottleStep(p.speed, c, maxSpeed, specs.acceleration);
      var velocity := M.AlongHeading(trig, p.rotation.y, speed, p.velocity.y);

      var rotation := p.rotation;
      if c.leftward {
        rotation := rotation.(y := rotation.y + handling);
      }
      if c.rightward {
        rotation := rotation.(y := rotation.y - handling);
      }
      var bankTarget := if c.leftward then 0.3 else if c.rightward then -0.3 else 0.0;
      rotation := rotation.(z := rotation.z * (1.0 - 0.1) + bankTarget * 0.1);

      var position := p.position.Plus(velocity);
      position, velocity := ClampStep(position, velocity);
      q := p.(speed := speed, position := position, rotation := rotation, velocity := velocity, boost := c.boost);
    }

    /** The firing half of `updatePlayer`: the gun, then the missile, both from `p` as it was
        at the start of the frame and sharing one cooldown clock. */
    method Trigger(p: Airplane, c: Controls, now: int) returns (lastFired: int, missiles: int)
      modifies this
      ensures var arm := M.PlayerTrigger(p, c, now);
        && lastFired == arm.lastFired && missiles == arm.missiles
        && State() == M.FireIf(M.FireIf(old(State()), arm.bullet, false, p, Bullet, trig, uuid),
                               arm.missile, false, p, Missile, trig, uuid)
    {
      var specs := M.SpecsOf(p.kind);
      lastFired := p.lastFired;
      missiles := p.missiles;
      if c.fire && now - lastFired > specs.fireRate {
        FireProjectile(false, p, Bullet);
        lastFired := now;
      }
      if c.missile && missiles > 0 {
        if now - lastFired > M.MISSILE_COOLDOWN_MS {
          FireProjectile(false, p, Missile);
          missiles := missiles - 1;
          lastFired := now;
        }
      }
    }

    /** `updatePlayer`: fly, then fire from where the player was, then store the new record. */
    method UpdatePlayer(c: Controls, now: int)
      modifies this
      ensures State() == M.UpdatePlayer(old(State()), c, now, trig, uuid)
      ensures old(Valid()) ==> Valid()
    {
      if player.None? {
        return;
      }
      var p := player.value;
      var flown := Fly(p, c);
      var lastFired, missiles := Trigger(p, c, now);
      player := Some(flown.(lastFired := lastFired, missiles := missiles));
      if old(Valid()) {
        M.UpdatePlayerOk(old(State()), c, now, trig, uuid);
      }
    }

    /** `createEnemy`; `yawRoll` is the `Math.random()` draw for its heading. */
    method CreateEnemy(kind: AirplaneType, position: Vec3, yawRoll: real)
      modifies this
      ensures State() == M.CreateEnemy(old(State()), kind, position, yawRoll, uuid)
      ensures old(Valid()) ==> Valid()
    {
      var specs := M.SpecsOf(kind);
      var id := NextId();
      var enemy := Airplane(id, kind, specs.health, specs.health, position,
                            Vec3(0.0, yawRoll * PI * 2.0, 0.0), Vec3(0.0, 0.0, 0.0),
                            0.0, false, specs.missileCount, 0, false);
      enemies := enemies + [enemy];
      if old(Valid()) {
        M.CreateEnemyOk(old(State()), kind, position, yawRoll, uuid);
      }
    }

    /** The movement half of the `enemies.map` callback in `updateEnemies`: the distance to
        the player, the wrapped turn toward it, and the move. */
    method Chase(enemy: Airplane, playerPos: Vec3) returns (moved: Airplane, turn: real, dist2: real)
      ensures dist2 == Dist2(playerPos, enemy.position)
      ensures turn == M.TurnToward(enemy, playerPos, trig) && -PI <= turn <= PI
      ensures moved == M.ChaseMotion(enemy, turn, playerPos, trig)
    {
      var d := playerPos.Minus(enemy.position);
      dist2 := Dist2(playerPos, enemy.position);
      var targetRotationY := trig.atan2(d.x, d.z);
      turn := ShortestRotation(targetRotationY - enemy.rotation.y);
      moved := Move(enemy, turn, playerPos, dist2);
    }

    /** Turn by half the handling share of `turn`, ease the speed, fly level, then climb or
        dive toward the player without going below the floor. */
    method Move(enemy: Airplane, turn: real, playerPos: Vec3, dist2: real) returns (moved: Airplane)
      requires dist2 == Dist2(playerPos, enemy.position)
      ensures moved == M.ChaseMotion(enemy, turn, playerPos, trig)
    {
      var specs := M.SpecsOf(enemy.kind);
      var rotationY := enemy.rotation.y + turn * specs.handling * 0.5;
      var targetSpeed := specs.maxSpeed;
      if dist2 < M.CLOSE_RANGE2 {
        targetSpeed := targetSpeed * 0.7;
      }
      var speed := ApproachStep(enemy.speed, targetSpeed, specs.acceleration * 0.5);

      var velocity := M.AlongHeading(trig, rotationY, speed, 0.0);
      var position := enemy.position.Plus(velocity);
      var heightDiff := playerPos.y - position.y;
      if heightDiff > 0.0 {
        position := position.(y := position.y + Min(heightDiff, M.CLIMB_STEP));
      } else if heightDiff < 0.0 {
        position := position.(y := position.y - Min(-heightDiff, M.CLIMB_STEP));
      }
      position := position.(y := Max(position.y, M.FLOOR));
      moved := enemy.(position := position, rotation := enemy.rotation.(y := rotationY),
                      velocity := velocity, speed := speed);
    }

    /** One enemy of `updateEnemies`: chase, then fire from where it was at the start of the frame. */
    method StepEnemy(enemy: Airplane, playerPos: Vec3, now: int, missileRoll: real) returns (next: Airplane)
      modifies this
      ensures (State(), next) == M.EnemyStep(old(State()), enemy, playerPos, now, missileRoll, trig, uuid)
    {
      var moved, turn, dist2 := Chase(enemy, playerPos);
      var specs := M.SpecsOf(enemy.kind);
      var lastFired := enemy.lastFired;
      var missiles := enemy.missiles;
      var inFiringRange := dist2 < M.ENGAGE_RANGE2;
      var facing := Abs(turn) < M.FACING_TOLERANCE;
      if inFiringRange && facing && now - lastFired > specs.fireRate * 2 {
        FireProjectile(true, enemy, Bullet);
        lastFired := now;
      }
      if inFiringRange && facing && missiles > 0 && missileRoll < M.ENEMY_MISSILE_CHANCE {
        FireProjectile(true, enemy, Missile);
        missiles := missiles - 1;
        lastFired := now;
      }
      next := moved.(lastFired := lastFired, missiles := missiles);
    }

    /** `updateEnemies`; `rolls(i)` is the missile roll of the i-th enemy. */
    method UpdateEnemies(playerPos: Vec3, now: int, rolls: nat -> real)
      modifies this
      ensures State() == M.UpdateEnemies(old(State()), playerPos, now, rolls, trig, uuid)
      ensures old(Valid()) ==> Valid()
    {
      if player.None? {
        return;
      }
      var snapshot := enemies;
      var updated: seq<Airplane> := [];
      var i := 0;
      while i < |snapshot|
        invariant 0 <= i <= |snapshot|
        invariant (State(), updated) == M.EnemiesUpTo(old(State()), snapshot, i, playerPos, now, rolls, trig, uuid)
      {
        var next := StepEnemy(snapshot[i], playerPos, now, rolls(i));
        updated := updated + [next];
        i := i + 1;
      }
      enemies := updated;
      if old(Valid()) {
        M.UpdateEnemiesOk(old(State()), playerPos, now, rolls, trig, uuid);
      }
    }

    method CreateExplosion(position: Vec3, scale: int)
      modifies this
      ensures State() == M.CreateExplosion(old(State()), position, scale, uuid)
      ensures old(Valid()) && 0 < scale ==> Valid()
    {
      events := events + [M.PlayHit];
      var id := NextId();
      explosions := explosions + [Explosion(id, position, scale, M.EXPLOSION_TTL)];
      if old(Valid()) && 0 < scale {
        M.CreateExplosionOk(old(State()), position, scale, uuid);
      }
    }

    method UpdateExplosions(delta: real)
      modifies this
      ensures State() == M.UpdateExplosions(old(State()), delta)
      ensures old(Valid()) ==> Valid()
    {
      var kept := AgeExplosions(explosions, delta);
      explosions := kept;
      if old(Valid()) {
        M.UpdateExplosionsOk(old(State()), delta);
      }
    }

    method RemoveEnemy(id: string)
      modifies this
      ensures State() == M.RemoveEnemy(old(State()), id)
      ensures old(Valid()) ==> Valid()
    {
      enemies := Seqs.Filter(M.NotId(id), enemies);
      if old(Valid()) {
        M.RemoveEnemyOk(old(State()), id);
      }
    }

    /** `damageAirplane` on the player: health floors at 0; at 0 it explodes where it is and
        the end of the game is scheduled, on every such hit. */
    method DamagePlayer(damage: int)
      requires player.Some?
      modifies this
      ensures State() == M.Damage(old(State()), old(player.value.id), damage, uuid)
    {
      var p := player.value;
      var health := MaxInt(0, p.health - damage);
      player := Some(p.(health := health));
      if health <= 0 {
        CreateExplosion(p.position, M.DEATH_SCALE);
        events := events + [M.ScheduleEnd(M.END_DELAY_MS)];
      }
    }

    /** `damageAirplane` on the first enemy with id `id`, if any: a kill explodes it, removes
        it and scores; otherwise its health drops. */
    method DamageEnemy(id: string, damage: int)
      requires !(player.Some? && id == player.value.id)
      modifies this
      ensures State() == M.Damage(old(State()), id, damage, uuid)
    {
      var index := Seqs.FindIndex(M.HasId(id), enemies);
      if index.Some? {
        var e := enemies[index.value];
        var health := MaxInt(0, e.health - damage);
        if health <= 0 {
          CreateExplosion(e.position, M.DEATH_SCALE);
          RemoveEnemy(e.id);
          score := score + M.KILL_POINTS;
          events := events + [M.PlaySuccess];
        } else {
          enemies := enemies[index.value := e.(health := health)];
        }
      }
    }

    method DamageAirplane(id: string, damage: int)
      modifies this
      ensures State() == M.Damage(old(State()), id, damage, uuid)
      ensures old(Valid()) && 0 <= damage ==> Valid()
    {
      if player.Some? && id == player.value.id {
        DamagePlayer(damage);
      } else {
        DamageEnemy(id, damage);
      }
      if old(Valid()) && 0 <= damage {
        M.DamageOk(old(State()), id, damage, uuid);
      }
    }

    /** The body of the `projectiles.filter` callback in `updateProjectiles`: the projectile
        one frame on if it survives, after resolving its hit if it makes one. */
    method StepProjectile(p0: Airplane, es: seq<Airplane>, projectile: Projectile, delta: real)
      returns (survivor: Option<Projectile>)
      modifies this
      ensures (State(), survivor) == M.ProjectileStep(old(State()), p0, es, projectile, delta, uuid)
    {
      var q := projectile.(ttl := projectile.ttl - delta);
      if q.ttl <= 0.0 {
        return None;
      }
      q := q.(position := q.position.Plus(q.direction.Scale(q.speed)));
      if q.isEnemy {
        if M.StoreHit(q.position, p0.position) {
          DamageAirplane(p0.id, q.damage);
          CreateExplosion(q.position, M.HitScale(q.kind));
          return None;
        }
      }
      if !q.isEnemy {
        var k := FindHitEnemy(es, q.position);
        if k.Some? {
          DamageAirplane(es[k.value].id, q.damage);
          CreateExplosion(q.position, M.HitScale(q.kind));
          return None;
        }
      }
      return Some(q);
    }

    /** The `filter` pass of `updateProjectiles` over `ps`, hit-testing against `p0` and `es`. */
    method ResolveProjectiles(p0: Airplane, es: seq<Airplane>, ps: seq<Projectile>, delta: real)
      returns (kept: seq<Projectile>)
      modifies this
      ensures (State(), kept) == M.ProjectilesUpTo(old(State()), p0, es, ps, |ps|, delta, uuid)
    {
      kept := [];
      var i := 0;
      while i < |ps|
        invariant 0 <= i <= |ps|
        invariant (State(), kept) == M.ProjectilesUpTo(old(State()), p0, es, ps, i, delta, uuid)
      {
        ghost var before := State();
        var survivor := StepProjectile(p0, es, ps[i], delta);
        if survivor.Some? {
          kept := kept + [survivor.value];
        }
        assert M.ProjectilesUpTo(old(State()), p0, es, ps, i + 1, delta, uuid)
            == (M.ProjectileStep(before, p0, es, ps[i], delta, uuid).0, kept);
        i := i + 1;
      }
    }

    method UpdateProjectiles(delta: real)
      modifies this
      ensures State() == M.UpdateProjectiles(old(State()), delta, uuid)
      ensures old(Valid()) ==> Valid()
    {
      if player.None? {
        return;
      }
      var kept := ResolveProjectiles(player.value, enemies, projectiles, delta);
      projectiles := kept;
      if old(Valid()) {
        M.UpdateProjectilesOk(old(State()), delta, uuid);
      }
    }

    method SetWeather(w: Weather)
      modifies this
      ensures State() == M.SetWeather(old(State()), w)
      ensures old(Valid()) ==> Valid()
    {
      weather := w;
      if old(Valid()) {
        M.SetWeatherOk(old(State()), w);
      }
    }

    method Reset()
      modifies this
      ensures State() == M.Reset(old(State()))
      ensures Valid()
    {
      player := None;
      enemies := [];
      projectiles := [];
      explosions := [];
      score := 0;
      respawnTime := 0;
      M.ResetEffect(old(State()));
    }
  }
}
