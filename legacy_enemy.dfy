/** The older stand-alone enemy (Enemy): it chases the player within detection range and
    stands still otherwise, loses health on every hit, and dies once. */
module LegacyEnemy {
  import opened Geometry
  import opened Wrappers
  import opened Timers

  datatype EnemyConfig = EnemyConfig(health: int, speed: real, detectionRange: real, initialScaleX: real)

  const DefaultEnemy := EnemyConfig(30, 2.0, 5.0, 1.0)

  /** Delay between death and removal of the object. */
  const DeathDestroyDelay := 0.5

  datatype EnemyState = EnemyState(
    health: int,
    isDead: bool,
    velocity: Vec2,
    scaleX: real,
    colliderEnabled: bool,
    destroyTimers: Pending)

  function Initial(cfg: EnemyConfig): EnemyState {
    EnemyState(cfg.health, false, Zero, cfg.initialScaleX, true, [])
  }

  /** ChasePlayer: within detection range the enemy runs at `speed` along the line to the
      player (and stands still on top of it) and faces the player; farther away it stops. */
  function ChaseStep(s: EnemyState, cfg: EnemyConfig, own: Vec2, player: Vec2, distance: Distance): (r: EnemyState)
    ensures distance(own, player) <= cfg.detectionRange && distance(own, player) > Epsilon ==>
      && r.velocity.x * distance(own, player) == (player.x - own.x) * cfg.speed
      && r.velocity.y * distance(own, player) == (player.y - own.y) * cfg.speed
    ensures distance(own, player) <= cfg.detectionRange && distance(own, player) <= Epsilon ==> r.velocity == Zero
    ensures distance(own, player) <= cfg.detectionRange && distance(own, player) > Epsilon ==>
      r.scaleX == Sign(player.x - own.x) * cfg.initialScaleX
    ensures distance(own, player) > cfg.detectionRange ==> r.velocity == Zero && r.scaleX == s.scaleX
    ensures r.health == s.health && r.isDead == s.isDead && r.colliderEnabled == s.colliderEnabled && r.destroyTimers == s.destroyTimers
  {
    if distance(own, player) <= cfg.detectionRange then
      var dir := Direction(own, player, distance);
      assert distance(own, player) > Epsilon ==> Sign(dir.x) == Sign(player.x - own.x) by {
        if distance(own, player) > Epsilon {
          DirectionSign(own, player, distance);
        }
      }
      s.(velocity := Scale(dir, cfg.speed), scaleX := Sign(dir.x) * cfg.initialScaleX)
    else s.(velocity := Zero)
  }

  /** Update: nothing once dead, otherwise ChasePlayer. `player` is `None` when the enemy
      holds no live player reference; ChasePlayer then fails on its first line, before it
      writes anything, so nothing changes. */
  function UpdateStep(s: EnemyState, cfg: EnemyConfig, own: Vec2, player: Option<Vec2>, distance: Distance): (r: EnemyState)
    ensures s.isDead || player.None? ==> r == s
    ensures !s.isDead && player.Some? ==> r == ChaseStep(s, cfg, own, player.value, distance)
  {
    if s.isDead then s
    else match player
      case None => s
      case Some(p) => ChaseStep(s, cfg, own, p, distance)
  }

  /** The state after frames without a player, at the enemy's own positions `own`. */
  function Frames(s: EnemyState, cfg: EnemyConfig, own: seq<Vec2>, distance: Distance): EnemyState
    decreases |own|
  {
    if own == [] then s else Frames(UpdateStep(s, cfg, own[0], None, distance), cfg, own[1..], distance)
  }

  /** An enemy without a live player reference never moves or turns, however many frames
      run; only hits change it. */
  lemma {:induction false} NoPlayerStandsStill(s: EnemyState, cfg: EnemyConfig, own: seq<Vec2>, distance: Distance)
    ensures Frames(s, cfg, own, distance) == s
    decreases |own|
  {
    if own != [] {
      NoPlayerStandsStill(UpdateStep(s, cfg, own[0], None, distance), cfg, own[1..], distance);
    }
  }

  /** Die: the latch is set, the enemy stops, its collider is switched off and its removal is
      scheduled. */
  function DieStep(s: EnemyState): (r: EnemyState)
    ensures r.isDead && r.velocity == Zero && !r.colliderEnabled
    ensures r.destroyTimers == s.destroyTimers + [DeathDestroyDelay]
    ensures r.health == s.health && r.scaleX == s.scaleX
  {
    s.(isDead := true, velocity := Zero, colliderEnabled := false, destroyTimers := s.destroyTimers + [DeathDestroyDelay])
  }

  datatype DamageOutcome = DamageOutcome(state: EnemyState, died: bool)

  /** TakeDamage: health always drops by `amount`, even after death; Die runs exactly when
      health is then at most 0 and the enemy was not already dead. */
  function DamageStep(s: EnemyState, amount: int): (o: DamageOutcome)
    ensures o.state.health == s.health - amount
    ensures o.died <==> s.health - amount <= 0 && !s.isDead
    ensures o.died ==> o.state == DieStep(s.(health := s.health - amount))
    ensures !o.died ==> o.state == s.(health := s.health - amount)
  {
    var hurt := s.(health := s.health - amount);
    if hurt.health <= 0 && !hurt.isDead then DamageOutcome(DieStep(hurt), true) else DamageOutcome(hurt, false)
  }

  /** The state after a sequence of hits, and how many of them ran Die. */
  function Hits(s: EnemyState, amounts: seq<int>): (EnemyState, nat)
    decreases |amounts|
  {
    if amounts == [] then (s, 0)
    else
      var o := DamageStep(s, amounts[0]);
      var rest := Hits(o.state, amounts[1..]);
      (rest.0, rest.1 + if o.died then 1 else 0)
  }

  function Sum(xs: seq<int>): int
    decreases |xs|
  {
    if xs == [] then 0 else xs[0] + Sum(xs[1..])
  }

  /** Over any sequence of hits, health drops by their total, even after death, and Die runs
      at most once (never if the enemy was already dead). */
  lemma {:induction false} DiesAtMostOnce(s: EnemyState, amounts: seq<int>)
    ensures Hits(s, amounts).0.health == s.health - Sum(amounts)
    ensures Hits(s, amounts).1 <= 1
    ensures s.isDead ==> Hits(s, amounts).1 == 0 && Hits(s, amounts).0.isDead
    decreases |amounts|
  {
    if amounts != [] {
      var o := DamageStep(s, amounts[0]);
      DiesAtMostOnce(o.state, amounts[1..]);
      if o.died {
        assert o.state.isDead;
      }
    }
  }

  class Enemy {
    const cfg: EnemyConfig
    /** Whether Awake's lookup of the player found one. The lookup is never repeated. */
    const playerFound: bool
    var health: int
    var isDead: bool
    var velocity: Vec2
    var scaleX: real
    var colliderEnabled: bool
    var destroyTimers: Pending
    var destroyed: bool

    function State(): EnemyState
      reads this
    {
      EnemyState(health, isDead, velocity, scaleX, colliderEnabled, destroyTimers)
    }

    /** Awake: the scene's initial scale is cached as `initialScaleX`. Without a player the
        lookup fails first, so the cache is never filled, but only ChasePlayer reads it. */
    constructor (cfg: EnemyConfig, playerFound: bool)
      ensures this.cfg == cfg && this.playerFound == playerFound && State() == Initial(cfg) && !destroyed
    {
      this.cfg := cfg;
      this.playerFound := playerFound;
      health := cfg.health;
      isDead := false;
      velocity := Zero;
      scaleX := cfg.initialScaleX;
      colliderEnabled := true;
      destroyTimers := [];
      destroyed := false;
    }

    method ChasePlayer(own: Vec2, player: Vec2, distance: Distance)
      modifies this
      ensures State() == ChaseStep(old(State()), cfg, own, player, distance) && destroyed == old(destroyed)
    {
      var distanceToPlayer := distance(own, player);
      if distanceToPlayer <= cfg.detectionRange {
        var direction := Direction(own, player, distance);
        velocity := Scale(direction, cfg.speed);
        scaleX := Sign(direction.x) * cfg.initialScaleX;
      } else {
        velocity := Zero;
      }
    }

    /** Update, with the player's position as `player` (`None` once the player object is
        gone). The reference is live only if Awake found a player: the lookup has no null
        check, so without one every chase fails before it writes anything. */
    method Update(own: Vec2, player: Option<Vec2>, distance: Distance)
      modifies this
      ensures State() == UpdateStep(old(State()), cfg, own, if playerFound then player else None, distance)
      ensures destroyed == old(destroyed)
    {
      if isDead {
        return;
      }
      if !playerFound || player.None? {
        return;
      }
      ChasePlayer(own, player.value, distance);
    }

    method Die()
      modifies this
      ensures State() == DieStep(old(State())) && destroyed == old(destroyed)
    {
      isDead := true;
      velocity := Zero;
      colliderEnabled := false;
      destroyTimers := destroyTimers + [DeathDestroyDelay];
    }

    /** TakeDamage (the damageable interface). */
    method TakeDamage(amount: int)
      modifies this
      ensures State() == DamageStep(old(State()), amount).state && destroyed == old(destroyed)
    {
      health := health - amount;
      if health <= 0 && !isDead {
        Die();
      }
    }

    /** The scheduler's work for this enemy over one frame. */
    method AdvanceTimers(dt: real)
      modifies this
      ensures destroyed == (old(destroyed) || Fires(old(destroyTimers), dt))
      ensures State() == old(State()).(destroyTimers := Elapse(old(destroyTimers), dt))
    {
      if Fires(destroyTimers, dt) {
        destroyed := true;
      }
      destroyTimers := Elapse(destroyTimers, dt);
    }
  }
}
