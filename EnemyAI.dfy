/**
 * The enemy behaviour machine (client/src/game/helpers/enemy-ai.ts). Each
 * enemy has an `AIState` record that the module updates in place; an update
 * returns a target position and a fire intent. `Date.now()` and the
 * `Math.random()` draws are parameters, the heading comes from `Trig`, and
 * distances are compared squared.
 */
module EnemyAI {
  import opened Types
  import Physics

  datatype AIBehavior = Patrol | Pursue | Evade | Attack | Formation

  const BEHAVIOR_PERIOD_MS: int := 10000
  const PATROL_REACH2: real := 25.0      // within distance 5 of a patrol point
  const FIRE_RANGE2: real := 900.0       // player within distance 30
  const PEEL_OFF_RANGE2: real := 100.0   // closer than half the attack distance 20
  const ATTACK_FIRE_RANGE2: real := 1600.0  // player within distance 40
  const EVADE_FLOOR: real := 5.0

  /** A value `Math.random()` can return. */
  predicate IsRoll(r: real) { 0.0 <= r < 1.0 }

  /** The behaviour an enemy starts with, by archetype. */
  function InitialBehavior(kind: AirplaneType): AIBehavior
  {
    match kind
    case Fighter => Pursue
    case Bomber => Patrol
    case Scout => Evade
  }

  predicate ReselectionDue(lastChange: int, now: int)
  {
    now - lastChange > BEHAVIOR_PERIOD_MS
  }

  /** The weighted re-draw of a behaviour: each archetype's roll is cut into the intervals below. */
  function Reselect(kind: AirplaneType, rand: real): (b: AIBehavior)
    ensures kind == Fighter ==>
      (b == Pursue <==> rand < 0.7) && (b == Attack <==> 0.7 <= rand < 0.9) && (b == Patrol <==> 0.9 <= rand)
    ensures kind == Bomber ==>
      (b == Patrol <==> rand < 0.5) && (b == Formation <==> 0.5 <= rand < 0.8) && (b == Attack <==> 0.8 <= rand)
    ensures kind == Scout ==> (b == Evade <==> rand < 0.6) && (b == Patrol <==> 0.6 <= rand)
    ensures kind == Scout ==> b != Pursue && b != Attack && b != Formation
    ensures b == Formation ==> kind == Bomber
  {
    match kind
    case Fighter => if rand < 0.7 then Pursue else if rand < 0.9 then Attack else Patrol
    case Bomber => if rand < 0.5 then Patrol else if rand < 0.8 then Formation else Attack
    case Scout => if rand < 0.6 then Evade else Patrol
  }

  /** The behaviour in force for this update: re-drawn when the period has elapsed, else kept. */
  function Chosen(current: AIBehavior, kind: AirplaneType, lastChange: int, now: int, rand: real): AIBehavior
  {
    if ReselectionDue(lastChange, now) then Reselect(kind, rand) else current
  }

  function PatrolRadius(roll: real): real { 50.0 + roll * 50.0 }
  function PatrolHeight(roll: real): real { 5.0 + roll * 20.0 }

  function PatrolPointCount(roll: real): (n: nat)
    requires IsRoll(roll)
    ensures 3 <= n <= 5
  {
    3 + (roll * 3.0).Floor
  }

  /** The i-th of `count` points spaced evenly around a circle at one height. */
  function RoutePoint(radius: real, height: real, count: nat, i: nat, trig: Trig): Vec3
    requires count > 0
  {
    var angle := (PI * 2.0 * (i as real)) / (count as real);
    Vec3(trig.sin(angle) * radius, height, trig.cos(angle) * radius)
  }

  /** The push loop of `initializeAI` that lays out the patrol route. */
  method PatrolRoute(radius: real, height: real, count: nat, trig: Trig) returns (points: seq<Vec3>)
    ensures |points| == count
    ensures forall i :: 0 <= i < count ==> points[i] == RoutePoint(radius, height, count, i, trig)
    ensures forall i :: 0 <= i < count ==> points[i].y == height
  {
    points := [];
    var i := 0;
    while i < count
      invariant 0 <= i <= count
      invariant |points| == i
      invariant forall j :: 0 <= j < i ==> points[j] == RoutePoint(radius, height, count, j, trig)
    {
      var angle := (PI * 2.0 * (i as real)) / (count as real);
      points := points + [Vec3(trig.sin(angle) * radius, height, trig.cos(angle) * radius)];
      i := i + 1;
    }
  }

  /** The patrol index after this update: it advances (cyclically) only once the enemy is within 5 of its point. */
  function PatrolAdvance(index: nat, points: seq<Vec3>, position: Vec3): (next: nat)
    requires index < |points|
    ensures next < |points|
    ensures next != index ==> Dist2(points[index], position) < PATROL_REACH2
    ensures Dist2(points[index], position) < PATROL_REACH2 ==> next == (index + 1) % |points|
  {
    if Dist2(points[index], position) < PATROL_REACH2 then (index + 1) % |points| else index
  }

  /** `dot > 0.7 * sqrt(dist2)`, written without the square root. */
  predicate FacesWithin(dot: real, dist2: real)
  {
    0.0 < dot && 0.49 * dist2 < dot * dot
  }

  /** The root-free test agrees with the source's test on the true distance `d`. */
  lemma FacesWithinIff(dot: real, dist2: real, d: real)
    requires 0.0 <= d && d * d == dist2
    ensures FacesWithin(dot, dist2) <==> dot > 0.7 * d
  {
    if 0.0 < dot {
      SquaresOrdered(0.7 * d, dot);
      assert (0.7 * d) * (0.7 * d) == 0.49 * dist2;
    }
  }

  /** The Pursue fire rule: player within 30 and inside the enemy's forward cone. */
  predicate PursueFires(enemy: Airplane, playerPos: Vec3, trig: Trig)
  {
    var toPlayer := playerPos.Minus(enemy.position);
    var forward := Physics.ForwardVector(trig, enemy.rotation.y);
    var dist2 := Dist2(playerPos, enemy.position);
    dist2 < FIRE_RANGE2 && FacesWithin(toPlayer.x * forward.x + toPlayer.z * forward.z, dist2)
  }

  lemma PursueFiresIff(enemy: Airplane, playerPos: Vec3, trig: Trig, d: real)
    requires 0.0 <= d && d * d == Dist2(playerPos, enemy.position)
    ensures PursueFires(enemy, playerPos, trig) <==>
      var toPlayer := playerPos.Minus(enemy.position);
      var forward := Physics.ForwardVector(trig, enemy.rotation.y);
      d < 30.0 && toPlayer.x * forward.x + toPlayer.z * forward.z > 0.7 * d
  {
    var toPlayer := playerPos.Minus(enemy.position);
    var forward := Physics.ForwardVector(trig, enemy.rotation.y);
    FacesWithinIff(toPlayer.x * forward.x + toPlayer.z * forward.z, d * d, d);
    SquaresOrdered(d, 30.0);
  }

  /** The Evade target: flee straight away from the player, never below height 5. */
  function EvadeTarget(enemyPos: Vec3, playerPos: Vec3): (t: Vec3)
    ensures t.x - playerPos.x == 2.0 * (enemyPos.x - playerPos.x)
    ensures t.z - playerPos.z == 2.0 * (enemyPos.z - playerPos.z)
    ensures t.y >= EVADE_FLOOR
    ensures 2.0 * enemyPos.y - playerPos.y >= EVADE_FLOOR ==> t.y - playerPos.y == 2.0 * (enemyPos.y - playerPos.y)
    ensures 2.0 * enemyPos.y - playerPos.y < EVADE_FLOOR ==> t.y == EVADE_FLOOR
  {
    var away := enemyPos.Plus(enemyPos.Minus(playerPos));
    if away.y < EVADE_FLOOR then away.(y := EVADE_FLOOR) else away
  }

  /** The Attack target: the player, unless closer than 10, when the enemy peels off behind itself. */
  function AttackTarget(enemy: Airplane, playerPos: Vec3, trig: Trig): (t: Vec3)
    ensures Dist2(playerPos, enemy.position) >= PEEL_OFF_RANGE2 ==> t == playerPos
    ensures Dist2(playerPos, enemy.position) < PEEL_OFF_RANGE2 ==> t.y == enemy.position.y
  {
    var forward := Physics.ForwardVector(trig, enemy.rotation.y);
    if Dist2(playerPos, enemy.position) < PEEL_OFF_RANGE2 then
      Vec3(enemy.position.x - forward.x * 10.0, enemy.position.y, enemy.position.z - forward.z * 10.0)
    else
      playerPos
  }

  /** sin and cos of `yaw` lie on the unit circle. */
  predicate UnitHeading(trig: Trig, yaw: real)
  {
    trig.sin(yaw) * trig.sin(yaw) + trig.cos(yaw) * trig.cos(yaw) == 1.0
  }

  /** The peel-off point lies 10 units directly behind the enemy along its own heading. */
  lemma PeelOffBehind(enemy: Airplane, playerPos: Vec3, trig: Trig)
    requires Dist2(playerPos, enemy.position) < PEEL_OFF_RANGE2
    requires UnitHeading(trig, enemy.rotation.y)
    ensures var t := AttackTarget(enemy, playerPos, trig);
            var f := Physics.ForwardVector(trig, enemy.rotation.y);
            var off := t.Minus(enemy.position);
            off.x * off.x + off.z * off.z == 100.0 && off.x * f.x + off.z * f.z == -10.0
  {
    var f := Physics.ForwardVector(trig, enemy.rotation.y);
    var off := AttackTarget(enemy, playerPos, trig).Minus(enemy.position);
    assert off.x == -10.0 * f.x && off.z == -10.0 * f.z;
    assert off.x * off.x + off.z * off.z == 100.0 * (f.x * f.x + f.z * f.z);
    assert off.x * f.x + off.z * f.z == -10.0 * (f.x * f.x + f.z * f.z);
  }

  /** Some enemy in `others` other than `me` itself. */
  predicate HasOther(me: Airplane, others: seq<Airplane>)
  {
    exists j :: 0 <= j < |others| && others[j].id != me.id
  }

  /** Among the first `n` of `others`, `k` is the nearest enemy that is not `me`, and the first such on ties. */
  ghost predicate NearestAmong(me: Airplane, others: seq<Airplane>, k: nat, n: nat)
    requires n <= |others|
  {
    && k < n
    && others[k].id != me.id
    && (forall j :: 0 <= j < n && others[j].id != me.id ==>
          Dist2(others[k].position, me.position) <= Dist2(others[j].position, me.position))
    && (forall j :: 0 <= j < k && others[j].id != me.id ==>
          Dist2(others[k].position, me.position) < Dist2(others[j].position, me.position))
  }

  ghost predicate IsLeader(me: Airplane, others: seq<Airplane>, k: nat)
  {
    NearestAmong(me, others, k, |others|)
  }

  /** The leader the Formation rule follows is unique. */
  lemma LeaderUnique(me: Airplane, others: seq<Airplane>, k1: nat, k2: nat)
    requires IsLeader(me, others, k1) && IsLeader(me, others, k2)
    ensures k1 == k2
  {
  }

  /** The Formation scan: the nearest other enemy, keeping the first found on ties. */
  method FindLeader(me: Airplane, others: seq<Airplane>) returns (leader: Option<nat>)
    ensures leader.None? <==> !HasOther(me, others)
    ensures leader.Some? ==> IsLeader(me, others, leader.value)
  {
    leader := None;   // no leader yet: the source's minimum distance is still Infinity
    var minDist2 := 0.0;
    var i := 0;
    while i < |others|
      invariant 0 <= i <= |others|
      invariant leader.None? <==> forall j :: 0 <= j < i ==> others[j].id == me.id
      invariant leader.Some? ==> NearestAmong(me, others, leader.value, i)
      invariant leader.Some? ==> minDist2 == Dist2(others[leader.value].position, me.position)
    {
      var other := others[i];
      if other.id != me.id {
        var dist2 := Dist2(other.position, me.position);
        if leader.None? || dist2 < minDist2 {
          leader := Some(i);
          minDist2 := dist2;
        }
      }
      i := i + 1;
    }
  }

  /** An enemy's AI record; only the behaviour tag, patrol index and switch time change after creation. */
  class AIState {
    var behavior: AIBehavior
    var patrolPoints: seq<Vec3>      // an absent route behaves as an empty one
    var currentPatrolIndex: nat
    var lastBehaviorChange: int
    var formationOffset: Option<Vec3>

    /** Whenever there is a route, the patrol index names one of its points. */
    ghost predicate Valid()
      reads this
    {
      |patrolPoints| > 0 ==> currentPatrolIndex < |patrolPoints|
    }

    /** `initializeAI`; the six rolls are the `Math.random()` draws in source order. */
    constructor (enemy: Airplane, now: int, radiusRoll: real, heightRoll: real, countRoll: real,
                 offsetRollX: real, offsetRollY: real, offsetRollZ: real, trig: Trig)
      requires IsRoll(radiusRoll) && IsRoll(heightRoll) && IsRoll(countRoll)
      requires IsRoll(offsetRollX) && IsRoll(offsetRollY) && IsRoll(offsetRollZ)
      ensures Valid()
      ensures behavior == InitialBehavior(enemy.kind)
      ensures currentPatrolIndex == 0 && lastBehaviorChange == now
      ensures 3 <= |patrolPoints| <= 5
      ensures forall i :: 0 <= i < |patrolPoints| ==>
                patrolPoints[i] == RoutePoint(PatrolRadius(radiusRoll), PatrolHeight(heightRoll), |patrolPoints|, i, trig)
      ensures forall i :: 0 <= i < |patrolPoints| ==> 5.0 <= patrolPoints[i].y < 25.0
      ensures forall i :: 0 <= i < |patrolPoints| ==> patrolPoints[i].y == patrolPoints[0].y
      ensures formationOffset.Some?
      ensures -5.0 <= formationOffset.value.x < 5.0 && -2.5 <= formationOffset.value.y < 2.5
      ensures -5.0 <= formationOffset.value.z < 5.0
    {
      var count := PatrolPointCount(countRoll);
      var points := PatrolRoute(PatrolRadius(radiusRoll), PatrolHeight(heightRoll), count, trig);
      patrolPoints := points;
      behavior := InitialBehavior(enemy.kind);
      currentPatrolIndex := 0;
      lastBehaviorChange := now;
      formationOffset := Some(Vec3((offsetRollX - 0.5) * 10.0, (offsetRollY - 0.5) * 5.0, (offsetRollZ - 0.5) * 10.0));
    }

    /** `updateAI`: possibly re-draw the behaviour, then act on it. */
    method Update(enemy: Airplane, playerPos: Vec3, others: seq<Airplane>, now: int,
                  rand: real, fireRoll: real, trig: Trig)
      returns (target: Vec3, shouldFire: bool)
      requires Valid()
      modifies this
      ensures Valid()
      ensures patrolPoints == old(patrolPoints) && formationOffset == old(formationOffset)
      ensures lastBehaviorChange ==
        if ReselectionDue(old(lastBehaviorChange), now) then now else old(lastBehaviorChange)
      ensures var b := Chosen(old(behavior), enemy.kind, old(lastBehaviorChange), now, rand);
        b != Formation ==> behavior == b
      ensures var b := Chosen(old(behavior), enemy.kind, old(lastBehaviorChange), now, rand);
        b != Patrol ==> currentPatrolIndex == old(currentPatrolIndex)
      ensures var b := Chosen(old(behavior), enemy.kind, old(lastBehaviorChange), now, rand);
        b == Patrol && |patrolPoints| == 0 ==> target == playerPos && !shouldFire
      ensures var b := Chosen(old(behavior), enemy.kind, old(lastBehaviorChange), now, rand);
        b == Patrol && |patrolPoints| > 0 ==>
          && target == patrolPoints[old(currentPatrolIndex)]
          && currentPatrolIndex == PatrolAdvance(old(currentPatrolIndex), patrolPoints, enemy.position)
          && shouldFire == (Dist2(playerPos, enemy.position) < FIRE_RANGE2 && fireRoll < 0.01)
      ensures var b := Chosen(old(behavior), enemy.kind, old(lastBehaviorChange), now, rand);
        b == Pursue ==> target == playerPos && shouldFire == PursueFires(enemy, playerPos, trig)
      ensures var b := Chosen(old(behavior), enemy.kind, old(lastBehaviorChange), now, rand);
        b == Evade ==> target == EvadeTarget(enemy.position, playerPos) && !shouldFire
      ensures var b := Chosen(old(behavior), enemy.kind, old(lastBehaviorChange), now, rand);
        b == Attack ==>
          && target == AttackTarget(enemy, playerPos, trig)
          && shouldFire == (Dist2(playerPos, enemy.position) < ATTACK_FIRE_RANGE2 && fireRoll < 0.1)
      ensures var b := Chosen(old(behavior), enemy.kind, old(lastBehaviorChange), now, rand);
        b == Formation && HasOther(enemy, others) && formationOffset.Some? ==>
          && behavior == Formation && !shouldFire
          && exists k: nat :: k < |others| && IsLeader(enemy, others, k) && target == others[k].position.Plus(formationOffset.value)
      ensures var b := Chosen(old(behavior), enemy.kind, old(lastBehaviorChange), now, rand);
        b == Formation && !(HasOther(enemy, others) && formationOffset.Some?) ==>
          behavior == Patrol && target == playerPos && !shouldFire
    {
      target := playerPos;
      shouldFire := false;
      if ReselectionDue(lastBehaviorChange, now) {
        behavior := Reselect(enemy.kind, rand);
        lastBehaviorChange := now;
      }
      var dist2 := Dist2(playerPos, enemy.position);
      match behavior {
        case Patrol =>
          if |patrolPoints| > 0 {
            var current := patrolPoints[currentPatrolIndex];
            target := current;
            if Dist2(current, enemy.position) < PATROL_REACH2 {
              currentPatrolIndex := (currentPatrolIndex + 1) % |patrolPoints|;
            }
            if dist2 < FIRE_RANGE2 && fireRoll < 0.01 {
              shouldFire := true;
            }
          }
        case Pursue =>
          target := playerPos;
          if PursueFires(enemy, playerPos, trig) {
            shouldFire := true;
          }
        case Evade =>
          target := EvadeTarget(enemy.position, playerPos);
        case Attack =>
          target := AttackTarget(enemy, playerPos, trig);
          if dist2 < ATTACK_FIRE_RANGE2 {
            shouldFire := fireRoll < 0.1;
          }
        case Formation =>
          var leader := FindLeader(enemy, others);
          if leader.Some? && formationOffset.Some? {
            target := others[leader.value].position.Plus(formationOffset.value);
          } else {
            behavior := Patrol;
          }
      }
    }
  }
}
