/** The stationary ranged enemy (StationaryRangedEnemy): it never moves, turns to face a
    player in detection range, and fires a projectile whenever the player is in attack range
    and its cooldown has run out. */
module StationaryRanged {
  import opened Geometry
  import opened Wrappers
  import opened Timers
  import opened EnemyCore

  /** The strategy's inspector fields: the cooldown (default 2 s) and whether the projectile
      prefab and the fire point are assigned. */
  datatype RangedConfig = RangedConfig(attackCooldown: real, hasProjectilePrefab: bool, hasFirePoint: bool)

  const DefaultRanged := RangedConfig(2.0, true, true)

  /** The facing towards the player: the initial scale when the player is strictly to the
      right, its negation otherwise. */
  function FacingToward(own: Vec2, player: Vec2, initialScaleX: real): real {
    if player.x > own.x then initialScaleX else -initialScaleX
  }

  /** The direction handed to the projectile: +1 when facing right (scale > 0), else -1. */
  function ProjectileDirection(scaleX: real): (d: int)
    ensures d == 1 || d == -1
    ensures d == 1 <==> scaleX > 0.0
  {
    if scaleX > 0.0 then 1 else -1
  }

  /** Attack: a projectile with the facing's direction, or none when the prefab or the fire
      point is missing. */
  function Shot(rcfg: RangedConfig, scaleX: real): (r: Option<int>)
    ensures r.Some? <==> rcfg.hasProjectilePrefab && rcfg.hasFirePoint
    ensures r.Some? ==> r.value == ProjectileDirection(scaleX)
  {
    if !rcfg.hasProjectilePrefab || !rcfg.hasFirePoint then None else Some(ProjectileDirection(scaleX))
  }

  /** What one behaviour tick leaves: the enemy, the cooldown timer, and the projectile fired
      (its direction), if any. */
  datatype RangedOutcome = RangedOutcome(state: BaseState, cooldownTimer: real, shot: Option<int>)

  /** Whether the fire branch runs on a tick that starts with `timer`. */
  predicate FireBranch(s: BaseState, rcfg: RangedConfig, timer: real, dt: real) {
    s.isPlayerInAttackRange && timer + dt >= rcfg.attackCooldown
  }

  /** ExecuteBehavior: the timer counts the frame; a player in range is faced; the fire
      branch runs exactly when the player is in attack range and the cooldown has run out,
      and then the timer restarts from 0 even if no projectile could be created. Velocity is
      never written. */
  function RangedStep(s: BaseState, timer: real, cfg: BaseConfig, rcfg: RangedConfig, dt: real, own: Vec2,
                      player: Option<Vec2>): (o: RangedOutcome)
    ensures o.state.velocity == s.velocity
    ensures o.state == s.(scaleX := o.state.scaleX)
    ensures player.Some? && s.isPlayerInRange ==> o.state.scaleX == FacingToward(own, player.value, cfg.initialScaleX)
    ensures !(player.Some? && s.isPlayerInRange) ==> o.state.scaleX == s.scaleX
    ensures FireBranch(s, rcfg, timer, dt) ==> o.cooldownTimer == 0.0 && o.shot == Shot(rcfg, o.state.scaleX)
    ensures !FireBranch(s, rcfg, timer, dt) ==> o.cooldownTimer == timer + dt && o.shot.None?
  {
    var t := timer + dt;
    var faced := if player.Some? && s.isPlayerInRange then s.(scaleX := FacingToward(own, player.value, cfg.initialScaleX)) else s;
    if faced.isPlayerInAttackRange && t >= rcfg.attackCooldown then RangedOutcome(faced, 0.0, Shot(rcfg, faced.scaleX))
    else RangedOutcome(faced, t, None)
  }

  /** One Update: nothing while dead or flashing; otherwise the range check, then the
      behaviour on the refreshed flags. */
  function RangedTick(s: BaseState, timer: real, cfg: BaseConfig, rcfg: RangedConfig, dt: real, own: Vec2,
                      player: Option<Vec2>, distance: Distance): (o: RangedOutcome)
    ensures !Active(s) ==> o == RangedOutcome(s, timer, None)
    ensures Active(s) ==> o == RangedStep(RangeStep(s, cfg, own, player, distance), timer, cfg, rcfg, dt, own, player)
  {
    if !Active(s) then RangedOutcome(s, timer, None)
    else RangedStep(RangeStep(s, cfg, own, player, distance), timer, cfg, rcfg, dt, own, player)
  }

  /** A shot faces the player: with the player in range to the right, the projectile flies
      right, and to the left (or level) it flies left, given a positive initial scale. */
  lemma ShotTowardsPlayer(s: BaseState, timer: real, cfg: BaseConfig, rcfg: RangedConfig, dt: real, own: Vec2, player: Vec2)
    requires cfg.initialScaleX > 0.0 && s.isPlayerInRange
    requires RangedStep(s, timer, cfg, rcfg, dt, own, Some(player)).shot.Some?
    ensures RangedStep(s, timer, cfg, rcfg, dt, own, Some(player)).shot.value == (if player.x > own.x then 1 else -1)
  {
  }

  /** Without a prefab or a fire point, the cooldown still restarts when the fire branch
      runs, although nothing is fired. */
  lemma CooldownRestartsWithoutProjectile(s: BaseState, timer: real, cfg: BaseConfig, rcfg: RangedConfig, dt: real,
                                          own: Vec2, player: Option<Vec2>)
    requires !rcfg.hasProjectilePrefab || !rcfg.hasFirePoint
    requires FireBranch(s, rcfg, timer, dt)
    ensures var o := RangedStep(s, timer, cfg, rcfg, dt, own, player); o.shot.None? && o.cooldownTimer == 0.0
  {
  }

  // ---------------------------------------------------------------------------------------
  // The fire rate over several frames

  /** The behaviour over frames of `dts` seconds; `fired` counts the fire branches. */
  function RangedRun(s: BaseState, timer: real, cfg: BaseConfig, rcfg: RangedConfig, dts: seq<real>, own: Vec2,
                     player: Option<Vec2>): (r: (RangedOutcome, nat))
    decreases |dts|
  {
    if dts == [] then (RangedOutcome(s, timer, None), 0)
    else
      var o := RangedStep(s, timer, cfg, rcfg, dts[0], own, player);
      var rest := RangedRun(o.state, o.cooldownTimer, cfg, rcfg, dts[1..], own, player);
      (rest.0, rest.1 + if FireBranch(s, rcfg, timer, dts[0]) then 1 else 0)
  }

  /** The fire branch cannot run twice within `attackCooldown`: while the timer plus the
      elapsed time stays below the cooldown, nothing is fired and the timer has counted
      exactly the elapsed time. */
  lemma {:induction false} FireRateLimited(s: BaseState, timer: real, cfg: BaseConfig, rcfg: RangedConfig, dts: seq<real>,
                                            own: Vec2, player: Option<Vec2>)
    requires Positive(dts)
    requires timer + TotalTime(dts) < rcfg.attackCooldown
    ensures RangedRun(s, timer, cfg, rcfg, dts, own, player).1 == 0
    ensures RangedRun(s, timer, cfg, rcfg, dts, own, player).0.cooldownTimer == timer + TotalTime(dts)
    decreases |dts|
  {
    if dts != [] {
      PositiveTotal(dts[1..]);
      var o := RangedStep(s, timer, cfg, rcfg, dts[0], own, player);
      assert !FireBranch(s, rcfg, timer, dts[0]);
      FireRateLimited(o.state, o.cooldownTimer, cfg, rcfg, dts[1..], own, player);
    }
  }

  class StationaryRangedEnemy {
    const base: EnemyBase
    const rcfg: RangedConfig
    var cooldownTimer: real

    constructor (base: EnemyBase, rcfg: RangedConfig)
      ensures this.base == base && this.rcfg == rcfg && cooldownTimer == 0.0
    {
      this.base := base;
      this.rcfg := rcfg;
      cooldownTimer := 0.0;
    }

    /** Attack: returns the direction of the projectile it creates, if it creates one. */
    method Attack() returns (shot: Option<int>)
      ensures shot == Shot(rcfg, base.scaleX)
    {
      if !rcfg.hasProjectilePrefab || !rcfg.hasFirePoint {
        return None;
      }
      var direction := if base.scaleX > 0.0 then 1 else -1;
      shot := Some(direction);
    }

    method ExecuteBehavior(dt: real, own: Vec2, player: Option<Vec2>) returns (shot: Option<int>)
      modifies this, base`scaleX
      ensures RangedOutcome(base.State(), cooldownTimer, shot)
           == RangedStep(old(base.State()), old(cooldownTimer), base.cfg, rcfg, dt, own, player)
    {
      shot := None;
      cooldownTimer := cooldownTimer + dt;
      if player.Some? && base.isPlayerInRange {
        base.scaleX := if player.value.x > own.x then base.cfg.initialScaleX else -base.cfg.initialScaleX;
      }
      if base.isPlayerInAttackRange && cooldownTimer >= rcfg.attackCooldown {
        shot := Attack();
        cooldownTimer := 0.0;
      }
    }

    /** Update (EnemyBase's, running this strategy). */
    method Update(dt: real, own: Vec2, player: Option<Vec2>, distance: Distance) returns (shot: Option<int>)
      modifies this, base`isPlayerInRange, base`isPlayerInAttackRange, base`scaleX
      ensures RangedOutcome(base.State(), cooldownTimer, shot)
           == RangedTick(old(base.State()), old(cooldownTimer), base.cfg, rcfg, dt, own, player, distance)
    {
      shot := None;
      if base.isDead || base.isHit {
        return;
      }
      base.CheckPlayerInRange(own, player, distance);
      shot := ExecuteBehavior(dt, own, player);
    }
  }
}
