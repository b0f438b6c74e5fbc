# AerialBattle simulation core in Dafny

A model of the simulation core of the AerialBattle arcade dogfight game and proofs about it.
The model has four parts:

- **The combat store** (`useAirplaneStore.ts`). This is the one mutable aggregate of the game: the
  optional player, the enemies, projectiles, explosions, weather and score. Each frame it advances the
  player (throttle, turn, altitude clamp, gun and missile cooldowns), steps every enemy toward the
  player, spawns projectiles, ages them and resolves their hits, ages explosions, and applies damage,
  kills and score.
  - `StoreModel.dfy` states every store action as a function from the old world (`World`) to the new
    one, together with the invariant `WorldOk` and the lemmas about the actions.
  - `AirplaneStore.dfy` is the store itself: class `Store` holds the same fields. Its methods update
    them in place, with the loops the source runs. Each method is proved to leave the class in the
    state that the matching `StoreModel` function gives: `State() == StoreModel.Op(old(State()), …)`.
    The twelve methods named after the store's actions (`CreatePlayer`, `UpdatePlayer`,
    `CreateEnemy`, `UpdateEnemies`, `FireProjectile`, `UpdateProjectiles`, `CreateExplosion`,
    `UpdateExplosions`, `DamageAirplane`, `RemoveEnemy`, `SetWeather`, `Reset`) also keep the store
    invariant `Valid()`. Two of them need a condition for it: `DamageAirplane` needs damage ≥ 0,
    and `CreateExplosion` needs a positive scale. The store's own calls meet both. The helper
    methods they call (such as `Trigger`, `StepEnemy` and `StepProjectile`) state only their
    new state.
- **The enemy AI** (`enemy-ai.ts`). This is a five-state behaviour machine (Patrol, Pursue, Evade,
  Attack, Formation). It sets the initial behaviour by archetype, re-draws the behaviour by weighted
  rolls every ten seconds, and has per-behaviour target and fire rules. `EnemyAI.AIState` is the
  mutable AI record. `PatrolRoute` and `FindLeader` are the two loops of the source.
- **The collision predicates** (`collisions.ts`). These are sphere-distance tests and the
  axis-aligned bounds test, stated over squared distances.
- **The physics helpers** (`physics.ts`). These are the drag, gravity and lift update, the
  projectile update, and the forward and right heading vectors.

The model has no access to the game's environment, so it takes these as inputs:

- **Trigonometry:** `Math.sin`, `Math.cos` and `Math.atan2` are a `Trig` value of function values.
- **Identifiers:** `uuidv4()` is a function `uuid: nat -> string`, applied to a counter `drawn` that
  the store advances once per identifier.
- **Time and randomness:** `Date.now()` and every `Math.random()` draw are parameters.
- **Sounds and the end timer:** the audio calls and the delayed `end()` are appended to an `events`
  log (`PlayHit`, `PlaySuccess`, `ScheduleEnd(500)`), in the order the store makes them.
- **Square roots:** the model compares squared distances with squared radii instead of taking
  `Math.sqrt`. Lemmas (`Collisions.WithinRadius`, `EnemyAI.FacesWithinIff`) show that the two
  tests agree for the true distance.

Behaviours of the code that the model keeps as written:

- **`createPlayer`:** it replaces an existing player.
- **Damaging a dead player:** each hit that leaves the player at 0 adds another explosion, sound
  and `end()`.
- **Projectile collision radii:** a missile hits within 2.5 and a bullet within 2.0
  (`checkProjectileCollision` uses 1.5 plus the projectile radius).
- **`reset`:** it keeps the weather.
- **The player's speed:** the store keeps it in [-0.75, 1.5] times the archetype's top speed,
  because boosting raises the top speed by half.

## Model

| member | source | states |
|---|---|---|
| StoreModel.SpecsOf | client/src/game/stores/useAirplaneStore.ts:15-46 | the archetype table: every archetype has positive acceleration below its top speed, positive handling, health, fire power, fire interval and missile stock |
| StoreModel.SpawnArchetype | client/src/game/components/Enemy.tsx:35-41 | the spawn draw gives a Fighter exactly for rolls below 0.6, a Scout for [0.6, 0.9), a Bomber from 0.9 up |
| StoreModel.InitialWorldOk | client/src/game/stores/useAirplaneStore.ts:81-87 | the empty initial store satisfies the store invariant, with no player and score 0 |
| StoreModel.NewPlayer | client/src/game/stores/useAirplaneStore.ts:89-107 | a new player has the id "player", full archetype health, the archetype's missile stock, zero speed and no shot yet, and satisfies the player invariant |
| StoreModel.CreatePlayerOverwrites | client/src/game/stores/useAirplaneStore.ts:89-107 | creating a player discards any earlier one: two creations equal the second alone, the new player has full health, and nothing but the player changes |
| StoreModel.CreatePlayerOk | client/src/game/stores/useAirplaneStore.ts:89-107 | creating a player preserves the store invariant |
| AirplaneStore.Store.CreatePlayer | client/src/game/stores/useAirplaneStore.ts:89-107 | the store after `createPlayer` is the model's, and the invariant is kept |
| StoreModel.ThrottleBounds | client/src/game/stores/useAirplaneStore.ts:122-135 | forward adds exactly the acceleration, capped at the limit; reverse subtracts exactly the acceleration, floored at minus half the limit; coasting moves toward 0 by exactly half the acceleration, never crosses 0, and stops at 0 when closer than that |
| AirplaneStore.ThrottleStep | client/src/game/stores/useAirplaneStore.ts:122-135 | the imperative throttle branches compute the throttle function |
| StoreModel.Yaw | client/src/game/stores/useAirplaneStore.ts:146-151 | left alone adds the turn rate, right alone subtracts it, both or neither leave the yaw unchanged |
| StoreModel.Bank | client/src/game/stores/useAirplaneStore.ts:154-156 | the bank closes a tenth of its gap to the key's target each frame and stays within ±0.3 once there |
| StoreModel.ClampAltitude | client/src/game/stores/useAirplaneStore.ts:166-173 | the altitude ends in [3, 30]; x and z are untouched; inside the band nothing changes; at either clamp vertical velocity becomes 0 and y is set to the limit crossed |
| AirplaneStore.ClampStep | client/src/game/stores/useAirplaneStore.ts:166-173 | the imperative clamp computes the clamp function |
| StoreModel.PlayerMotionEffect | client/src/game/stores/useAirplaneStore.ts:113-176 | the player's flight keeps identity, health and weapons, takes the throttle speed along its old heading, moves x and z by that velocity, turns and banks by the keys, ends within the altitude band, and records the boost key |
| StoreModel.PlayerLevelFlight | client/src/game/stores/useAirplaneStore.ts:138-173 | vertical velocity is only ever zeroed, so a level player inside the band keeps its altitude |
| StoreModel.PlayerMotionOk | client/src/game/stores/useAirplaneStore.ts:122-173 | flight keeps the player invariant: health and missiles untouched, altitude in [3, 30], speed within [-0.75, 1.5] times top speed |
| AirplaneStore.Store.Fly | client/src/game/stores/useAirplaneStore.ts:113-176 | the in-place flight update yields exactly the modelled flight |
| StoreModel.PlayerTrigger | client/src/game/stores/useAirplaneStore.ts:179-191 | a bullet fires iff the fire key is down and more than fireRate ms have passed; a missile fires iff the key is down, missiles remain, no bullet fired this frame and more than 500 ms have passed; a missile lowers the stock by exactly one, so it never goes negative; any shot stamps the shared lastFired |
| AirplaneStore.Store.Trigger | client/src/game/stores/useAirplaneStore.ts:179-191 | the trigger step returns the modelled weapon state and appends exactly the shots the model fires, gun first |
| StoreModel.UpdatePlayerEffect | client/src/game/stores/useAirplaneStore.ts:109-203 | without a player nothing changes; otherwise at most one shot is appended after the old projectiles, it is the player's, and enemies, explosions, score and weather are untouched |
| StoreModel.UpdatePlayerOk | client/src/game/stores/useAirplaneStore.ts:109-203 | `updatePlayer` preserves the store invariant |
| AirplaneStore.Store.UpdatePlayer | client/src/game/stores/useAirplaneStore.ts:109-203 | the store after `updatePlayer` is the model's, and the invariant is kept |
| StoreModel.NewProjectile | client/src/game/stores/useAirplaneStore.ts:324-356 | a projectile starts two units ahead along the source's yaw and 0.2 below it, flying level; a bullet has speed 1.2, damage 10, ttl 2 and a missile speed 0.7, damage 30, ttl 5 |
| StoreModel.Fire | client/src/game/stores/useAirplaneStore.ts:320-361 | `fireProjectile` appends exactly one projectile at the end, leaves the others unchanged, plays one sound and draws one identifier; nothing else changes |
| StoreModel.FireOk | client/src/game/stores/useAirplaneStore.ts:320-361 | firing preserves the store invariant |
| StoreModel.BulletSpawnExample | client/src/game/stores/useAirplaneStore.ts:324-337 | a bullet from (0, 10, 0) at yaw 0 appears at (0, 9.8, 2) flying along +z with speed 1.2, damage 10 and ttl 2 |
| AirplaneStore.Store.FireProjectile | client/src/game/stores/useAirplaneStore.ts:320-361 | the store after `fireProjectile` is the model's, and the invariant is kept |
| StoreModel.NewEnemy | client/src/game/stores/useAirplaneStore.ts:205-225 | a new enemy has full archetype health and missile stock, zero speed, the given position and heading, and satisfies the enemy invariant |
| StoreModel.CreateEnemy | client/src/game/stores/useAirplaneStore.ts:205-225 | `createEnemy` appends exactly one enemy, with heading roll·2π and a fresh identifier, and changes nothing else |
| StoreModel.CreateEnemyOk | client/src/game/stores/useAirplaneStore.ts:205-225 | creating an enemy preserves the store invariant |
| AirplaneStore.Store.CreateEnemy | client/src/game/stores/useAirplaneStore.ts:205-225 | the store after `createEnemy` is the model's, and the invariant is kept |
| StoreModel.Wrapped | client/src/game/stores/useAirplaneStore.ts:248-250 | the wrapped turn lies in [-π, π] and equals the input when it already does |
| StoreModel.WrappedCongruent | client/src/game/stores/useAirplaneStore.ts:248-250 | wrapping only adds or removes whole turns |
| AirplaneStore.ShortestRotation | client/src/game/stores/useAirplaneStore.ts:248-250 | the two wrapping loops end, with the turn in [-π, π] and equal to the wrap function |
| StoreModel.ApproachSpeedBounds | client/src/game/stores/useAirplaneStore.ts:261-265 | the enemy speed moves toward the target by exactly one step, never passing it, and lands on the target when it is within one step |
| AirplaneStore.ApproachStep | client/src/game/stores/useAirplaneStore.ts:261-265 | the imperative speed step computes the approach function |
| StoreModel.HeightPull | client/src/game/stores/useAirplaneStore.ts:286-287 | the climb step has the sign of the height difference, and its size is exactly the smaller of the difference and 0.05 |
| StoreModel.ChaseMotionEffect | client/src/game/stores/useAirplaneStore.ts:252-290 | the chase keeps the enemy's identity, health and weapons, turns it by a share of the wrapped bearing, moves it along its new heading at the approach speed, and leaves y at least 3 |
| StoreModel.ChaseClimbsTowardPlayer | client/src/game/stores/useAirplaneStore.ts:286-290 | before the floor applies, the enemy's y moves toward the player's y by at most 0.05 |
| StoreModel.ChaseMotionOk | client/src/game/stores/useAirplaneStore.ts:255-265 | the chase keeps the enemy invariant: enemy speed stays in [0, top speed] |
| AirplaneStore.Store.Chase | client/src/game/stores/useAirplaneStore.ts:233-290 | the in-place chase computes the squared distance, the wrapped bearing in [-π, π] and exactly the modelled move |
| AirplaneStore.Store.Move | client/src/game/stores/useAirplaneStore.ts:252-290 | the turn, approach, move, climb and floor steps yield exactly the modelled move |
| StoreModel.Steer | client/src/game/stores/useAirplaneStore.ts:293-307 | an enemy fires only within distance 30 and facing within 0.3 rad; its gun fires iff the fire interval has passed; its missile fires iff missiles remain and the roll is below 0.005; the missile stock drops by one per missile and never goes negative |
| StoreModel.SteerOk | client/src/game/stores/useAirplaneStore.ts:255-307 | an enemy's step keeps the enemy invariant |
| StoreModel.EnemyStep | client/src/game/stores/useAirplaneStore.ts:231-317 | one enemy's step appends a bullet exactly when the steering decides to fire the gun and a missile exactly when it decides to fire one, gun first, both from the enemy's start-of-frame position and heading, with one identifier drawn and one hit sound per shot; nothing else in the store changes |
| AirplaneStore.Store.StepEnemy | client/src/game/stores/useAirplaneStore.ts:231-317 | the in-place enemy step gives the modelled record and store |
| StoreModel.EnemiesUpTo | client/src/game/stores/useAirplaneStore.ts:231-317 | stepping the first n enemies yields n records, each the modelled step of that enemy; it only appends enemy projectiles |
| StoreModel.UpdateEnemiesEffect | client/src/game/stores/useAirplaneStore.ts:227-318 | without a player nothing changes; otherwise the same enemies remain in the same order with unchanged health, each at y ≥ 3; player, score and explosions are untouched, and only enemy shots are appended |
| StoreModel.EnemiesUpToOk | client/src/game/stores/useAirplaneStore.ts:231-317 | stepping enemies one by one keeps the store and enemy invariants |
| StoreModel.UpdateEnemiesOk | client/src/game/stores/useAirplaneStore.ts:227-318 | `updateEnemies` preserves the store invariant |
| AirplaneStore.Store.UpdateEnemies | client/src/game/stores/useAirplaneStore.ts:227-318 | the enemy loop leaves the store in the modelled state and keeps the invariant |
| StoreModel.CreateExplosion | client/src/game/stores/useAirplaneStore.ts:416-430 | `createExplosion` appends exactly one explosion with ttl 1 and plays one sound; nothing else changes |
| StoreModel.CreateExplosionOk | client/src/game/stores/useAirplaneStore.ts:416-430 | an explosion of positive scale preserves the store invariant |
| AirplaneStore.Store.CreateExplosion | client/src/game/stores/useAirplaneStore.ts:416-430 | the store after `createExplosion` is the model's, and a positive scale keeps the invariant |
| StoreModel.UpdateExplosionsEffect | client/src/game/stores/useAirplaneStore.ts:432-441 | every explosion ages by exactly delta; those with ttl still above 0 are kept in order and no others; nothing else changes |
| StoreModel.UpdateExplosionsOk | client/src/game/stores/useAirplaneStore.ts:432-441 | ageing explosions preserves the store invariant |
| AirplaneStore.AgeExplosions | client/src/game/stores/useAirplaneStore.ts:434-440 | the ageing loop keeps exactly the aged explosions that still burn, in order |
| AirplaneStore.Store.UpdateExplosions | client/src/game/stores/useAirplaneStore.ts:432-441 | the store after `updateExplosions` is the model's, and the invariant is kept |
| StoreModel.RemoveEnemyEffect | client/src/game/stores/useAirplaneStore.ts:482-486 | every enemy without the id stays, in order; none with it remains; nothing else changes |
| StoreModel.RemoveEnemyOk | client/src/game/stores/useAirplaneStore.ts:482-486 | removing enemies preserves the store invariant |
| AirplaneStore.Store.RemoveEnemy | client/src/game/stores/useAirplaneStore.ts:482-486 | the store after `removeEnemy` is the model's, and the invariant is kept |
| StoreModel.Damage | client/src/game/stores/useAirplaneStore.ts:443-480 | damage never touches projectiles or weather or adds an enemy; the player only changes health; at most one explosion is appended; the score stays or rises by exactly 100 |
| StoreModel.DamageUnknown | client/src/game/stores/useAirplaneStore.ts:443-480 | an id naming neither the player nor any enemy changes nothing |
| StoreModel.DamagePlayer | client/src/game/stores/useAirplaneStore.ts:446-455 | player health becomes max(0, health − damage); each hit that leaves it at 0 appends a scale-3 explosion, a sound and the 500 ms end event, even on an already dead player |
| StoreModel.DamageWounds | client/src/game/stores/useAirplaneStore.ts:457-478 | damage an enemy survives changes only its own health; the list keeps its length and order, and the score stays |
| StoreModel.DamageKills | client/src/game/stores/useAirplaneStore.ts:463-471 | a kill removes that enemy while the others keep their order, adds exactly 100 to the score, and appends one scale-3, ttl-1 explosion at its position with its sounds |
| StoreModel.DamageScoreConserved | client/src/game/stores/useAirplaneStore.ts:457-478 | with distinct enemy ids, score plus 100 per living enemy is unchanged by damage |
| StoreModel.DamageOk | client/src/game/stores/useAirplaneStore.ts:443-480 | non-negative damage preserves the store invariant: health never drops below 0 |
| StoreModel.DamageEnemyOk | client/src/game/stores/useAirplaneStore.ts:457-478 | non-negative damage to an enemy preserves the store invariant |
| StoreModel.FourMissilesKill | client/src/game/stores/useAirplaneStore.ts:457-478 | a 100-health enemy survives three missile hits and the fourth kills it for 100 points |
| AirplaneStore.Store.DamagePlayer | client/src/game/stores/useAirplaneStore.ts:446-455 | the in-place player damage gives the modelled store |
| AirplaneStore.Store.DamageEnemy | client/src/game/stores/useAirplaneStore.ts:457-478 | the in-place enemy damage gives the modelled store |
| AirplaneStore.Store.DamageAirplane | client/src/game/stores/useAirplaneStore.ts:443-480 | the store after `damageAirplane` is the model's, and non-negative damage keeps the invariant |
| AirplaneStore.FindHitEnemy | client/src/game/stores/useAirplaneStore.ts:394-408 | the enemy scan returns the first enemy within 1.5 of the projectile, or none when no enemy is that close |
| StoreModel.ProjectileStep | client/src/game/stores/useAirplaneStore.ts:366-411 | a projectile whose ttl runs out vanishes and changes nothing; an enemy shot within 1.5 of the player damages the player, explodes there and is removed; a projectile is kept, moved, with the world unchanged, exactly when it is still alive and within 1.5 of nothing on the opposing side |
| AirplaneStore.Store.StepProjectile | client/src/game/stores/useAirplaneStore.ts:366-411 | the in-place projectile step gives the modelled store and survivor |
| StoreModel.ProjectilesUpTo | client/src/game/stores/useAirplaneStore.ts:364-411 | resolving the first n projectiles keeps at most n survivors, all with positive ttl; the projectile list, weather and respawn time are untouched; the player only changes health; explosions are only appended |
| AirplaneStore.Store.ResolveProjectiles | client/src/game/stores/useAirplaneStore.ts:364-411 | the in-place pass over all projectiles gives the modelled store and survivors |
| StoreModel.SurvivorsAreFlying | client/src/game/stores/useAirplaneStore.ts:366-411 | the survivors of the pass are exactly the moved projectiles that neither expire nor hit, in their original order |
| StoreModel.SurvivorsInOrder | client/src/game/stores/useAirplaneStore.ts:366-411 | the survivors are moved copies of the original projectiles, in their original order |
| StoreModel.UpdateProjectilesEffect | client/src/game/stores/useAirplaneStore.ts:363-414 | without a player nothing changes; otherwise the new projectile list is exactly the moved projectiles that neither expire nor hit, in order, each with ttl reduced by exactly delta and still positive |
| StoreModel.PlayerShotHitsFirst | client/src/game/stores/useAirplaneStore.ts:394-408 | a player projectile damages only the first snapshot enemy within 1.5, is removed, and appends one explosion of scale 2 for a missile or 1 for a bullet |
| StoreModel.EnemyFireSparesEnemies | client/src/game/stores/useAirplaneStore.ts:379-391 | enemy projectiles are tested only against the player and never change the enemies or the score |
| StoreModel.PlayerFireSparesPlayer | client/src/game/stores/useAirplaneStore.ts:394-408 | player projectiles are tested only against the enemies and never change the player |
| StoreModel.StaleSnapshotHit | client/src/game/stores/useAirplaneStore.ts:364-408 | a player shot reaching an enemy already removed in the same pass is still consumed and still explodes, but the damage changes nothing |
| StoreModel.StrikeOk | client/src/game/stores/useAirplaneStore.ts:383-405 | a hit (damage plus explosion) preserves the store invariant |
| StoreModel.ProjectileStepOk | client/src/game/stores/useAirplaneStore.ts:366-411 | one projectile's step preserves the store invariant and leaves a well-formed survivor |
| StoreModel.ProjectilesUpToOk | client/src/game/stores/useAirplaneStore.ts:366-411 | the pass preserves the store invariant and keeps only well-formed survivors |
| StoreModel.UpdateProjectilesOk | client/src/game/stores/useAirplaneStore.ts:363-414 | `updateProjectiles` preserves the store invariant |
| AirplaneStore.Store.UpdateProjectiles | client/src/game/stores/useAirplaneStore.ts:363-414 | the store after `updateProjectiles` is the model's, and the invariant is kept |
| StoreModel.StoreHitIsCollision | client/src/game/stores/useAirplaneStore.ts:386 | the store's 1.5 hit radius lies inside the collision helpers' radius for either projectile kind |
| StoreModel.SetWeather | client/src/game/stores/useAirplaneStore.ts:488-490 | `setWeather` changes the weather and nothing else |
| StoreModel.SetWeatherOk | client/src/game/stores/useAirplaneStore.ts:488-490 | changing the weather preserves the store invariant |
| AirplaneStore.Store.SetWeather | client/src/game/stores/useAirplaneStore.ts:488-490 | the store after `setWeather` is the model's, and the invariant is kept |
| StoreModel.ResetEffect | client/src/game/stores/useAirplaneStore.ts:492-501 | reset restores the initial store except weather (and the effect log), satisfies the invariant, and is idempotent |
| AirplaneStore.Store.Reset | client/src/game/stores/useAirplaneStore.ts:492-501 | the store after `reset` is the model's and satisfies the invariant |
| AirplaneStore.Store.constructor | client/src/game/stores/useAirplaneStore.ts:81-87 | a new store is the initial world and satisfies the invariant |
| EnemyAI.Reselect | client/src/game/helpers/enemy-ai.ts:105-130 | the re-draw cuts the roll into the archetype's intervals (Fighter 0.7/0.9, Bomber 0.5/0.8, Scout 0.6), both directions; a Scout never picks Pursue, Attack or Formation, and only a Bomber picks Formation |
| EnemyAI.PatrolPointCount | client/src/game/helpers/enemy-ai.ts:46 | a route has between 3 and 5 points |
| EnemyAI.PatrolRoute | client/src/game/helpers/enemy-ai.ts:48-56 | the push loop lays out exactly `count` points, the i-th at angle i/count of a turn, all at the same height |
| EnemyAI.AIState.constructor | client/src/game/helpers/enemy-ai.ts:42-83 | `initializeAI` starts Fighter in Pursue, Bomber in Patrol and Scout in Evade, at index 0, switched now, with 3 to 5 route points at one height in [5, 25) and a formation offset within ±5, ±2.5, ±5 |
| EnemyAI.PatrolAdvance | client/src/game/helpers/enemy-ai.ts:155-160 | the patrol index stays within the route; it changes only when the enemy is within 5 of its point, and then advances by one cyclically |
| EnemyAI.FacesWithinIff | client/src/game/helpers/enemy-ai.ts:175 | the root-free facing test agrees with `dot > 0.7 · distance` |
| EnemyAI.PursueFiresIff | client/src/game/helpers/enemy-ai.ts:168-178 | Pursue fires iff the player is closer than 30 and the forward dot product exceeds 0.7 times the distance |
| EnemyAI.EvadeTarget | client/src/game/helpers/enemy-ai.ts:181-193 | the Evade target mirrors the player through the enemy in x and z, and in y too unless that falls below 5, in which case the target y is exactly 5 |
| EnemyAI.AttackTarget | client/src/game/helpers/enemy-ai.ts:195-220 | the Attack target is the player from distance 10 on; closer, it stays at the enemy's own height |
| EnemyAI.PeelOffBehind | client/src/game/helpers/enemy-ai.ts:204-214 | closer than 10, the Attack target lies exactly 10 behind the enemy along its heading |
| EnemyAI.LeaderUnique | client/src/game/helpers/enemy-ai.ts:227-240 | the Formation leader (nearest other enemy, first on ties) is unique |
| EnemyAI.FindLeader | client/src/game/helpers/enemy-ai.ts:227-240 | the scan finds no leader iff there is no other enemy, and otherwise the nearest other enemy, skipping itself, the first found on ties |
| EnemyAI.AIState.Update | client/src/game/helpers/enemy-ai.ts:88-261 | the behaviour is re-drawn and the switch time stamped only after more than 10 s; then Patrol, Pursue, Evade, Attack and Formation give their targets and fire decisions as above; Evade never fires, Attack fires only within 40; Formation without another enemy falls back to Patrol aimed at the player |
| Collisions.AirplaneCollisionIff | client/src/game/helpers/collisions.ts:9-24 | two aircraft collide iff their centres are closer than 2.0 |
| Collisions.AirplaneCollisionSymmetric | client/src/game/helpers/collisions.ts:9-24 | the aircraft collision test is symmetric |
| Collisions.ProjectileCollisionIff | client/src/game/helpers/collisions.ts:32-49 | a projectile hits iff it is closer than 2.5 (missile) or 2.0 (bullet) |
| Collisions.BulletHitImpliesMissileHit | client/src/game/helpers/collisions.ts:37-48 | whatever a bullet hits, a missile at the same spot hits too |
| Collisions.TerrainCollisionDefault | client/src/game/helpers/collisions.ts:57-66 | with the default terrain height, terrain is hit iff y < 1 |
| Collisions.InBoundsIff | client/src/game/helpers/collisions.ts:74-86 | a point is in bounds iff each coordinate lies in its closed [min, max] interval |
| Collisions.WithinRadius | client/src/game/helpers/collisions.ts:18-23 | comparing squared distance with the squared radius is comparing the distance with the radius |
| Physics.Lift | client/src/game/helpers/physics.ts:35-39 | lift is 0 up to speed 0.1, exactly 0.05·|speed| from there up to speed 1, and 0.05 (gravity's coefficient, never exceeded) from speed 1 up |
| Physics.AirplanePhysics | client/src/game/helpers/physics.ts:9-46 | x and z velocity shrink by exactly 0.98; y velocity is exactly 0.98·vy − 0.05·delta plus the lift for the current speed, which lies in [0, 0.05] and is 0 at speed ≤ 0.1 |
| Physics.LiftMonotone | client/src/game/helpers/physics.ts:35-39 | more speed never gives less lift |
| Physics.FullLiftCancelsGravity | client/src/game/helpers/physics.ts:9-46 | at full lift over a unit step only drag acts vertically |
| Physics.ProjectilePhysics | client/src/game/helpers/physics.ts:56-86 | the projectile velocity is (0.99·vx, 0.99·vy − 0.01, 0.99·vz) and the new position is the old plus the new velocity |
| Physics.ProjectileIgnoresDelta | client/src/game/helpers/physics.ts:56-86 | the projectile update does not depend on the time step |
| Physics.RightVector | client/src/game/helpers/physics.ts:91-106 | the right vector is perpendicular to the forward vector and of the same length, whatever sin and cos return |

## Left out

- Rendering, camera, menus, key binding and textures (the React and three.js components) are not modelled. The store and the AI do not depend on them.
- Sounds and the delayed `end()` are modelled only as entries in the `events` log. Playing them and the timer itself are not modelled.
- Floating-point arithmetic is modelled as exact `real` arithmetic. Rounding is not modelled.
- `Math.sin`, `Math.cos`, `Math.atan2` and `Math.sqrt` are not computed. The trigonometry is an input, and distances are compared squared.
- StoreModel.EnemiesUpTo: `updateEnemies` reads `Date.now()` once per enemy, inside its `map`. The model takes one `now` for the whole pass, so every enemy that fires in a frame gets the same `lastFired` timestamp, and the clock advancing between enemies is not modelled.
- `Date.now()`, `Math.random()` and `uuidv4()` are inputs, as described above. Whether identifiers are unique is not modelled, so `StoreModel.DamageScoreConserved` assumes distinct enemy ids.
- The zustand `create`/`set`/`get` plumbing is replaced by the fields of `AirplaneStore.Store`.
- The projectile and explosion records that the store mutates inside `filter` are modelled as values. The store replaces its lists with updated copies, so aliasing of those records by other holders is not modelled.
- `updatePlayer` and `updateEnemies` each take a frame time that they never use. The model omits the parameter in both.
- Weather is presentation-only state. Only `setWeather` and `reset` touch it.
- `updateEnemies` does not call the AI. That matches the store, whose enemies only turn toward the player.
- The optional fields of the source's AI record are not modelled as optional. An absent patrol route is an empty one, which the model handles as the source does. An absent patrol index is 0, which `initializeAI` always sets.
- StoreModel.EnemiesUpTo / AirplaneStore.Store.UpdateEnemies: every enemy gets a missile roll `rolls(i)`. The source draws `Math.random()` only after the range, facing and missile-stock tests pass, so the model does not capture how many draws a frame makes. No behaviour is lost, since the rolls are unconstrained.
- EnemyAI.AIState.Update: the fire roll of Patrol and Attack is a parameter for every call. The source draws it only when the distance test passes, so the model does not capture how many `Math.random()` draws a frame makes.
- The physics helpers, `checkAirplaneCollision`, `checkProjectileCollision`, `checkTerrainCollision` and `isOutOfBounds` are not called by the store, which uses its own 1.5 hit test (`StoreModel.StoreHitIsCollision` relates the two). They are modelled on their own.
