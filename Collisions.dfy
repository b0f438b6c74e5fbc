/**
 * The collision predicates (client/src/game/helpers/collisions.ts). The
 * source compares `Math.sqrt` of a squared distance with a radius; the
 * model compares the squared distance with the squared radius, and the
 * lemmas below show the two agree for the true (non-negative) distance.
 */
module Collisions {
  import opened Types

  const AIRPLANE_RADIUS_SUM: real := 2.0
  const AIRPLANE_RADIUS: real := 1.5

  function ProjectileRadius(kind: ProjectileKind): real
  {
    if kind == Missile then 1.0 else 0.5
  }

  /** `checkAirplaneCollision` */
  predicate CheckAirplaneCollision(a1: Airplane, a2: Airplane)
  {
    Dist2(a1.position, a2.position) < AIRPLANE_RADIUS_SUM * AIRPLANE_RADIUS_SUM
  }

  /** `checkProjectileCollision` */
  predicate CheckProjectileCollision(airplane: Airplane, projectile: Projectile)
  {
    var r := AIRPLANE_RADIUS + ProjectileRadius(projectile.kind);
    Dist2(airplane.position, projectile.position) < r * r
  }

  /** `checkTerrainCollision`, whose terrain height defaults to 0 */
  predicate CheckTerrainCollision(airplane: Airplane, terrainHeight: real := 0.0)
  {
    airplane.position.y < terrainHeight + 1.0
  }

  datatype Bounds = Bounds(minX: real, maxX: real, minY: real, maxY: real, minZ: real, maxZ: real)

  /** `isOutOfBounds` */
  predicate IsOutOfBounds(position: Vec3, bounds: Bounds)
  {
    position.x < bounds.minX || position.x > bounds.maxX ||
    position.y < bounds.minY || position.y > bounds.maxY ||
    position.z < bounds.minZ || position.z > bounds.maxZ
  }

  /** `d` is the Euclidean distance between `a` and `b`. */
  ghost predicate IsDistance(a: Vec3, b: Vec3, d: real)
  {
    0.0 <= d && d * d == Dist2(a, b)
  }

  /** A squared-distance test against a squared radius is the distance test against the radius. */
  lemma WithinRadius(a: Vec3, b: Vec3, d: real, radius: real)
    requires IsDistance(a, b, d) && 0.0 <= radius
    ensures Dist2(a, b) < radius * radius <==> d < radius
  {
    SquaresOrdered(d, radius);
  }

  /** Two aircraft collide exactly when their centres are closer than 2.0. */
  lemma AirplaneCollisionIff(a1: Airplane, a2: Airplane, d: real)
    requires IsDistance(a1.position, a2.position, d)
    ensures CheckAirplaneCollision(a1, a2) <==> d < 2.0
  {
    WithinRadius(a1.position, a2.position, d, AIRPLANE_RADIUS_SUM);
  }

  lemma AirplaneCollisionSymmetric(a1: Airplane, a2: Airplane)
    ensures CheckAirplaneCollision(a1, a2) <==> CheckAirplaneCollision(a2, a1)
  {
  }

  /** A projectile hits when closer than 2.5 (missile: 1.5 + 1.0) or 2.0 (bullet: 1.5 + 0.5). */
  lemma ProjectileCollisionIff(airplane: Airplane, projectile: Projectile, d: real)
    requires IsDistance(airplane.position, projectile.position, d)
    ensures CheckProjectileCollision(airplane, projectile) <==>
            d < (if projectile.kind == Missile then 2.5 else 2.0)
  {
    WithinRadius(airplane.position, projectile.position, d, AIRPLANE_RADIUS + ProjectileRadius(projectile.kind));
  }

  /** Whatever hits as a bullet would also hit as a missile from the same spot. */
  lemma BulletHitImpliesMissileHit(airplane: Airplane, projectile: Projectile)
    requires projectile.kind == Bullet && CheckProjectileCollision(airplane, projectile)
    ensures CheckProjectileCollision(airplane, projectile.(kind := Missile))
  {
  }

  lemma TerrainCollisionDefault(airplane: Airplane)
    ensures CheckTerrainCollision(airplane) <==> airplane.position.y < 1.0
  {
  }

  /** The box is closed: a point is in bounds exactly when each coordinate lies in its [min, max]. */
  lemma InBoundsIff(position: Vec3, bounds: Bounds)
    ensures !IsOutOfBounds(position, bounds) <==>
            bounds.minX <= position.x <= bounds.maxX &&
            bounds.minY <= position.y <= bounds.maxY &&
            bounds.minZ <= position.z <= bounds.maxZ
  {
  }
}
