/**
 * The physics helpers (client/src/game/helpers/physics.ts): straight-line
 * velocity updates for an aircraft and a projectile, and the heading
 * vectors. `Math.sin`/`Math.cos` are the host's, given as a `Trig` value.
 */
module Physics {
  import opened Types

  const GRAVITY: real := 0.05
  const DRAG: real := 0.98
  const LIFT_FACTOR: real := 0.05
  const MIN_SPEED_FOR_LIFT: real := 0.1

  const PROJECTILE_GRAVITY: real := 0.01
  const PROJECTILE_DRAG: real := 0.99

  /** The lift term: zero up to the minimum speed, then growing with speed but capped at gravity. */
  function Lift(speed: real): (lift: real)
    ensures 0.0 <= lift <= GRAVITY
    ensures Abs(speed) <= MIN_SPEED_FOR_LIFT ==> lift == 0.0
    ensures Abs(speed) >= 1.0 ==> lift == GRAVITY
    ensures MIN_SPEED_FOR_LIFT < Abs(speed) <= 1.0 ==> lift == LIFT_FACTOR * Abs(speed)
  {
    if Abs(speed) > MIN_SPEED_FOR_LIFT then Min(GRAVITY, Abs(speed) * LIFT_FACTOR) else 0.0
  }

  /** `calculateAirplanePhysics`: the new velocity after drag, gravity and lift. */
  function AirplanePhysics(airplane: Airplane, delta: real): (v: Vec3)
    ensures v.x == DRAG * airplane.velocity.x && v.z == DRAG * airplane.velocity.z
    ensures DRAG * airplane.velocity.y - GRAVITY * delta <= v.y
    ensures v.y <= DRAG * airplane.velocity.y - GRAVITY * delta + GRAVITY
    ensures Abs(airplane.speed) <= MIN_SPEED_FOR_LIFT ==> v.y == DRAG * airplane.velocity.y - GRAVITY * delta
    ensures v.y == DRAG * airplane.velocity.y - GRAVITY * delta + Lift(airplane.speed)
  {
    var vx := airplane.velocity.x * DRAG;
    var vy := airplane.velocity.y * DRAG - GRAVITY * delta;
    var vz := airplane.velocity.z * DRAG;
    Vec3(vx, vy + Lift(airplane.speed), vz)
  }

  /** More speed never means less lift. */
  lemma LiftMonotone(s1: real, s2: real)
    requires Abs(s1) <= Abs(s2)
    ensures Lift(s1) <= Lift(s2)
  {
  }

  /** At full lift over a one-unit step, lift exactly cancels gravity: only drag acts vertically. */
  lemma FullLiftCancelsGravity(airplane: Airplane)
    requires Abs(airplane.speed) >= 1.0
    ensures AirplanePhysics(airplane, 1.0).y == DRAG * airplane.velocity.y
  {
  }

  datatype Motion = Motion(position: Vec3, velocity: Vec3)

  /** `calculateProjectilePhysics`: drag and a fixed gravity step, then one Euler step of the position. */
  function ProjectilePhysics(position: Vec3, velocity: Vec3, delta: real): (m: Motion)
    ensures m.position == position.Plus(m.velocity)
    ensures m.velocity == Vec3(PROJECTILE_DRAG * velocity.x,
                               PROJECTILE_DRAG * velocity.y - PROJECTILE_GRAVITY,
                               PROJECTILE_DRAG * velocity.z)
  {
    var v := Vec3(velocity.x * PROJECTILE_DRAG, velocity.y * PROJECTILE_DRAG - PROJECTILE_GRAVITY, velocity.z * PROJECTILE_DRAG);
    Motion(Vec3(position.x + v.x, position.y + v.y, position.z + v.z), v)
  }

  /** The time step is accepted but never used: projectile motion is per frame, not per second. */
  lemma ProjectileIgnoresDelta(position: Vec3, velocity: Vec3, d1: real, d2: real)
    ensures ProjectilePhysics(position, velocity, d1) == ProjectilePhysics(position, velocity, d2)
  {
  }

  /** `calculateForwardVector`: yaw 0 faces +z, positive yaw turns toward +x. */
  function ForwardVector(trig: Trig, yaw: real): Vec2
  {
    Vec2(trig.sin(yaw), trig.cos(yaw))
  }

  /** `calculateRightVector`: perpendicular to the forward vector and of the same length, whatever sin and cos return. */
  function RightVector(trig: Trig, yaw: real): (r: Vec2)
    ensures r.x * ForwardVector(trig, yaw).x + r.z * ForwardVector(trig, yaw).z == 0.0
    ensures r.x * r.x + r.z * r.z == ForwardVector(trig, yaw).x * ForwardVector(trig, yaw).x
                                     + ForwardVector(trig, yaw).z * ForwardVector(trig, yaw).z
  {
    Vec2(trig.cos(yaw), -trig.sin(yaw))
  }
}
