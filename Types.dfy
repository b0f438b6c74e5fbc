/**
 * The records of the game (client/src/game/types.ts): aircraft, projectiles,
 * explosions, weather, control intents, and the small vector algebra the
 * simulation uses. Coordinates, speeds and time-to-live are `real`; health,
 * damage and millisecond timestamps are `int`.
 */
module Types {

  datatype Option<+T> = None | Some(value: T)

  datatype Vec3 = Vec3(x: real, y: real, z: real)
  {
    function Plus(o: Vec3): Vec3 { Vec3(x + o.x, y + o.y, z + o.z) }
    function Minus(o: Vec3): Vec3 { Vec3(x - o.x, y - o.y, z - o.z) }
    function Scale(k: real): Vec3 { Vec3(x * k, y * k, z * k) }
  }

  /** The horizontal (x, z) heading vector returned by the physics helpers. */
  datatype Vec2 = Vec2(x: real, z: real)

  /** Squared Euclidean distance; the model compares it with squared radii instead of taking a square root. */
  function Dist2(a: Vec3, b: Vec3): (r: real)
    ensures r >= 0.0
  {
    (a.x - b.x) * (a.x - b.x) + (a.y - b.y) * (a.y - b.y) + (a.z - b.z) * (a.z - b.z)
  }

  function Min(a: real, b: real): real { if a <= b then a else b }
  function Max(a: real, b: real): real { if a >= b then a else b }
  function Abs(a: real): real { if a < 0.0 then -a else a }
  function MaxInt(a: int, b: int): int { if a >= b then a else b }

  /** For non-negative reals, comparing squares is comparing the values; this is what lets
      the model compare squared distances where the source compares `Math.sqrt` results. */
  lemma SquaresOrdered(a: real, b: real)
    requires 0.0 <= a && 0.0 <= b
    ensures a < b <==> a * a < b * b
  {
    if a < b {
      MulPositive(b - a, b + a);
    } else {
      MulNonNegative(a - b, a + b);
    }
  }

  lemma MulPositive(x: real, y: real)
    requires 0.0 < x && 0.0 < y
    ensures 0.0 < x * y
  {
  }

  lemma MulNonNegative(x: real, y: real)
    requires 0.0 <= x && 0.0 <= y
    ensures 0.0 <= x * y
  {
  }

  /** `Math.PI` */
  const PI: real := 3.141592653589793

  /** The host's floating-point trigonometry, passed in instead of called. */
  datatype Trig = Trig(sin: real -> real, cos: real -> real, atan2: (real, real) -> real)

  datatype AirplaneType = Fighter | Bomber | Scout

  datatype AirplaneSpecs = AirplaneSpecs(
    kind: AirplaneType,
    maxSpeed: real,
    acceleration: real,
    handling: real,
    health: int,
    firePower: int,
    fireRate: int,     // milliseconds between gun shots
    missileCount: int)

  datatype Airplane = Airplane(
    id: string,
    kind: AirplaneType,
    health: int,
    maxHealth: int,
    position: Vec3,
    rotation: Vec3,    // pitch, yaw, roll; yaw (rotation.y) drives the heading
    velocity: Vec3,
    speed: real,       // signed throttle speed
    boost: bool,
    missiles: int,
    lastFired: int,    // millisecond timestamp of the last gun or missile shot
    isPlayer: bool)

  datatype ProjectileKind = Bullet | Missile

  datatype Projectile = Projectile(
    id: string,
    position: Vec3,
    direction: Vec3,
    speed: real,
    damage: int,
    isEnemy: bool,
    kind: ProjectileKind,
    ttl: real)         // seconds left to live

  datatype Explosion = Explosion(id: string, position: Vec3, scale: int, ttl: real)

  datatype Weather = Clear | Cloudy | Rainy | Foggy

  /** The boolean control intents read from the keyboard each frame. */
  datatype Controls = Controls(
    forward: bool,
    backward: bool,
    leftward: bool,
    rightward: bool,
    fire: bool,
    missile: bool,
    boost: bool)
}
