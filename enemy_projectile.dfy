/** The ranged enemy's projectile (EnemyProjectile): it flies horizontally in its direction
    at constant speed, faces that direction, and is destroyed when it touches the player or
    an obstacle, or when its lifetime runs out. */
module Projectile {
  import opened Timers

  /** The inspector fields: damage (carried but never applied; the player has no health),
      speed and lifetime. */
  datatype ProjectileConfig = ProjectileConfig(damage: int, speed: real, lifetime: real)

  const DefaultProjectile := ProjectileConfig(10, 5.0, 2.0)

  /** The tags that destroy the projectile on contact. */
  const PlayerTag := "Player"
  const ObstacleTag := "Obstacle"

  /** The projectile's state: its direction (+1 right, -1 left, as the shooter passes it), the
      x scale of its sprite, its horizontal position, its delayed destroy, and whether the
      object is gone. */
  datatype ProjectileState = ProjectileState(direction: int, scaleX: real, x: real, destroyTimers: Pending, destroyed: bool)

  /** A freshly instantiated projectile: direction 1, the prefab's scale. */
  function Spawned(scaleX: real, x: real): ProjectileState {
    ProjectileState(1, scaleX, x, [], false)
  }

  /** Start: the object's destruction is scheduled `lifetime` seconds ahead. */
  function StartStep(s: ProjectileState, cfg: ProjectileConfig): (r: ProjectileState)
    ensures r.destroyTimers == s.destroyTimers + [cfg.lifetime]
    ensures r.direction == s.direction && r.scaleX == s.scaleX && r.x == s.x && r.destroyed == s.destroyed
  {
    s.(destroyTimers := s.destroyTimers + [cfg.lifetime])
  }

  /** SetDirection: the direction is stored, and the sprite is mirrored only for a negative
      direction (a positive one leaves the scale as it is, it does not un-mirror). */
  function SetDirectionStep(s: ProjectileState, dir: int): (r: ProjectileState)
    ensures r.direction == dir
    ensures dir < 0 ==> r.scaleX == -s.scaleX
    ensures dir >= 0 ==> r.scaleX == s.scaleX
    ensures r.x == s.x && r.destroyTimers == s.destroyTimers && r.destroyed == s.destroyed
  {
    if dir < 0 then s.(direction := dir, scaleX := -s.scaleX) else s.(direction := dir)
  }

  /** Update: one frame of flight, `direction * speed * dt` along x. */
  function MoveStep(s: ProjectileState, cfg: ProjectileConfig, dt: real): (r: ProjectileState)
    // a positive speed carries the projectile forward along its direction
    ensures s.direction > 0 && cfg.speed > 0.0 && dt > 0.0 ==> r.x > s.x
    ensures s.direction < 0 && cfg.speed > 0.0 && dt > 0.0 ==> r.x < s.x
    ensures s.direction == 0 || cfg.speed == 0.0 || dt == 0.0 ==> r.x == s.x
    ensures r.direction == s.direction && r.scaleX == s.scaleX && r.destroyTimers == s.destroyTimers && r.destroyed == s.destroyed
  {
    s.(x := s.x + (s.direction as real) * cfg.speed * dt)
  }

  /** OnTriggerEnter2D: touching the player or an obstacle destroys the projectile; any other
      collider is ignored. */
  function TriggerStep(s: ProjectileState, tag: string): (r: ProjectileState)
    ensures r.destroyed <==> s.destroyed || tag == PlayerTag || tag == ObstacleTag
    ensures r.direction == s.direction && r.scaleX == s.scaleX && r.x == s.x && r.destroyTimers == s.destroyTimers
  {
    if tag == PlayerTag || tag == ObstacleTag then s.(destroyed := true) else s
  }

  /** The scheduler's work over one frame: a due delayed destroy removes the object. */
  function TimerStep(s: ProjectileState, dt: real): (r: ProjectileState)
    ensures r.destroyed <==> s.destroyed || Fires(s.destroyTimers, dt)
    ensures r.destroyTimers == Elapse(s.destroyTimers, dt)
    ensures r.direction == s.direction && r.scaleX == s.scaleX && r.x == s.x
  {
    s.(destroyed := s.destroyed || Fires(s.destroyTimers, dt), destroyTimers := Elapse(s.destroyTimers, dt))
  }

  /** One frame without contact: Update, then the scheduler. */
  function FrameStep(s: ProjectileState, cfg: ProjectileConfig, dt: real): ProjectileState {
    TimerStep(MoveStep(s, cfg, dt), dt)
  }

  /** Frames of `dts` seconds without contact, as long as the object exists. */
  function Fly(s: ProjectileState, cfg: ProjectileConfig, dts: seq<real>): ProjectileState
    decreases |dts|
  {
    if dts == [] || s.destroyed then s else Fly(FrameStep(s, cfg, dts[0]), cfg, dts[1..])
  }

  /** Without contact, a projectile whose only pending call is its lifetime destroy (with `t`
      seconds left) is gone after the frames exactly when they add up to at least `t`. */
  lemma {:induction false} LifetimeExpires(s: ProjectileState, cfg: ProjectileConfig, dts: seq<real>, t: real)
    requires !s.destroyed && s.destroyTimers == [t] && t > 0.0 && Positive(dts)
    ensures Fly(s, cfg, dts).destroyed <==> TotalTime(dts) >= t
    decreases |dts|
  {
    if dts != [] {
      SinglePending(t, dts[0]);
      PositiveTotal(dts[1..]);
      var next := FrameStep(s, cfg, dts[0]);
      if t - dts[0] > 0.0 {
        LifetimeExpires(next, cfg, dts[1..], t - dts[0]);
      }
    }
  }

  /** The distance covered at velocity `v` over frames of `dts` seconds, frame by frame. */
  function Displacement(v: real, dts: seq<real>): real
    decreases |dts|
  {
    if dts == [] then 0.0 else v * dts[0] + Displacement(v, dts[1..])
  }

  /** Frame by frame, the distance is the velocity times the total time. */
  lemma {:induction false} DisplacementIsProduct(v: real, dts: seq<real>)
    ensures Displacement(v, dts) == v * TotalTime(dts)
    decreases |dts|
  {
    if dts != [] {
      DisplacementIsProduct(v, dts[1..]);
      Distributes(v, dts[0], TotalTime(dts[1..]));
    }
  }

  /** A step of DisplacementIsProduct: the solver's nonlinear arithmetic needs the
      distributive law stated for it. */
  lemma Distributes(v: real, a: real, b: real)
    ensures v * a + v * b == v * (a + b)
  {
  }

  /** While the lifetime has not run out, the projectile exists, keeps its direction and
      facing, and has flown its velocity `v` (direction times speed) times the elapsed
      time. */
  lemma FlightDistance(s: ProjectileState, cfg: ProjectileConfig, dts: seq<real>, t: real, v: real)
    requires !s.destroyed && s.destroyTimers == [t] && Positive(dts)
    requires TotalTime(dts) < t
    requires v == s.direction as real * cfg.speed
    ensures var r := Fly(s, cfg, dts);
      && !r.destroyed && r.direction == s.direction && r.scaleX == s.scaleX
      && r.x == s.x + v * TotalTime(dts)
  {
    FlightCourse(s, cfg, dts, t, v);
    DisplacementIsProduct(v, dts);
  }

  lemma {:induction false} FlightCourse(s: ProjectileState, cfg: ProjectileConfig, dts: seq<real>, t: real, v: real)
    requires !s.destroyed && s.destroyTimers == [t] && Positive(dts)
    requires TotalTime(dts) < t
    requires v == s.direction as real * cfg.speed
    ensures var r := Fly(s, cfg, dts);
      && !r.destroyed && r.direction == s.direction && r.scaleX == s.scaleX
      && r.x == s.x + Displacement(v, dts)
    decreases |dts|
  {
    if dts != [] {
      var next := FrameStep(s, cfg, dts[0]);
      assert dts[0] < t && TotalTime(dts[1..]) < t - dts[0] by {
        PositiveTotal(dts[1..]);
      }
      FlyingFrame(s, cfg, dts[0], t, v);
      FlightCourse(next, cfg, dts[1..], t - dts[0], v);
    }
  }

  /** One frame before the lifetime runs out. */
  lemma FlyingFrame(s: ProjectileState, cfg: ProjectileConfig, dt: real, t: real, v: real)
    requires !s.destroyed && s.destroyTimers == [t] && dt < t
    requires v == s.direction as real * cfg.speed
    ensures var next := FrameStep(s, cfg, dt);
      && !next.destroyed && next.destroyTimers == [t - dt]
      && next.direction == s.direction && next.scaleX == s.scaleX
      && next.x == s.x + v * dt
  {
    SinglePending(t, dt);
  }

  /** A projectile as the ranged enemy creates it is destroyed without contact exactly once
      `lifetime` seconds of frames have passed; until then it flies straight at its velocity
      `v`, direction times speed. */
  lemma FiredProjectileLifetime(cfg: ProjectileConfig, scaleX: real, x: real, dir: int, dts: seq<real>, v: real)
    requires cfg.lifetime > 0.0 && Positive(dts)
    requires v == dir as real * cfg.speed
    ensures Fly(Fired(cfg, scaleX, x, dir), cfg, dts).destroyed <==> TotalTime(dts) >= cfg.lifetime
    ensures TotalTime(dts) < cfg.lifetime ==> Fly(Fired(cfg, scaleX, x, dir), cfg, dts).x == x + v * TotalTime(dts)
  {
    var s := Fired(cfg, scaleX, x, dir);
    LifetimeExpires(s, cfg, dts, cfg.lifetime);
    if TotalTime(dts) < cfg.lifetime {
      FlightDistance(s, cfg, dts, cfg.lifetime, v);
    }
  }

  /** The projectile as the ranged enemy creates it: instantiated, given its direction, then
      started. */
  function Fired(cfg: ProjectileConfig, scaleX: real, x: real, dir: int): (s: ProjectileState)
    ensures !s.destroyed && s.destroyTimers == [cfg.lifetime] && s.direction == dir && s.x == x
  {
    StartStep(SetDirectionStep(Spawned(scaleX, x), dir), cfg)
  }

  /** A projectile fired as the ranged enemy fires it (a prefab facing right, then
      SetDirection with +1 or -1) faces the way it flies. */
  lemma FacesItsDirection(scaleX: real, x: real, dir: int)
    requires scaleX > 0.0 && (dir == 1 || dir == -1)
    ensures var r := SetDirectionStep(Spawned(scaleX, x), dir); (r.scaleX > 0.0 <==> r.direction > 0)
  {
  }

  /** SetDirection with a negative direction mirrors the sprite each time it is called, so
      two such calls restore the original facing. */
  lemma NegativeDirectionTwiceRestoresFacing(s: ProjectileState, dir: int, dir2: int)
    requires dir < 0 && dir2 < 0
    ensures SetDirectionStep(SetDirectionStep(s, dir), dir2).scaleX == s.scaleX
    ensures SetDirectionStep(SetDirectionStep(s, dir), dir2).direction == dir2
  {
  }

  class EnemyProjectile {
    const cfg: ProjectileConfig
    var direction: int
    var scaleX: real
    var x: real
    var destroyTimers: Pending
    var destroyed: bool

    function State(): ProjectileState
      reads this
    {
      ProjectileState(direction, scaleX, x, destroyTimers, destroyed)
    }

    /** Instantiation at the fire point, with the prefab's scale. */
    constructor (cfg: ProjectileConfig, scaleX: real, x: real)
      ensures this.cfg == cfg && State() == Spawned(scaleX, x)
    {
      this.cfg := cfg;
      direction := 1;
      this.scaleX := scaleX;
      this.x := x;
      destroyTimers := [];
      destroyed := false;
    }

    method Start()
      modifies this
      ensures State() == StartStep(old(State()), cfg)
    {
      destroyTimers := destroyTimers + [cfg.lifetime];
    }

    method Update(dt: real)
      modifies this
      ensures State() == MoveStep(old(State()), cfg, dt)
    {
      x := x + (direction as real) * cfg.speed * dt;
    }

    method SetDirection(dir: int)
      modifies this
      ensures State() == SetDirectionStep(old(State()), dir)
    {
      direction := dir;
      if dir < 0 {
        scaleX := -scaleX;
      }
    }

    /** The collider touched is given by its tag. */
    method OnTriggerEnter2D(tag: string)
      modifies this
      ensures State() == TriggerStep(old(State()), tag)
    {
      if tag == PlayerTag {
        destroyed := true;
      } else if tag == ObstacleTag {
        destroyed := true;
      }
    }

    method AdvanceTimers(dt: real)
      modifies this
      ensures State() == TimerStep(old(State()), dt)
    {
      if Fires(destroyTimers, dt) {
        destroyed := true;
      }
      destroyTimers := Elapse(destroyTimers, dt);
    }
  }
}
