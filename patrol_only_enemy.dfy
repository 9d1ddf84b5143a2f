/** The enemy that only patrols (PatrolOnlyEnemy): every executed tick walks towards the
    current waypoint and turns around on arrival; its attack does nothing. */
module PatrolOnly {
  import opened Geometry
  import opened Wrappers
  import opened EnemyCore

  /** One Update of a patrol-only enemy, given the patrol direction flag it carries. While
      the enemy is dead or flashing from a hit nothing changes. Otherwise the range flags are
      refreshed and the enemy patrols, and nothing else: it moves at patrol speed towards its
      waypoint, faces it, and switches waypoint exactly when within 0.1 of it. */
  function PatrolOnlyTick(s: BaseState, movingToEnd: bool, cfg: BaseConfig, start: Vec2, own: Vec2,
                          player: Option<Vec2>, distance: Distance): (r: (BaseState, bool))
    ensures !Active(s) ==> r == (s, movingToEnd)
    ensures Active(s) ==>
      var target := PatrolTarget(movingToEnd, start, cfg.patrolEnd);
      && SameExceptMotion(RangeStep(s, cfg, own, player, distance), r.0)
      && r.0.velocity == PatrolStep(movingToEnd, own, start, cfg, distance).velocity
      && (distance(own, target) > Epsilon ==> r.0.scaleX == Sign(target.x - own.x) * cfg.initialScaleX)
      && (r.1 != movingToEnd <==> distance(own, target) < WaypointTolerance)
  {
    if !Active(s) then (s, movingToEnd)
    else
      var ranged := RangeStep(s, cfg, own, player, distance);
      var o := PatrolStep(movingToEnd, own, start, cfg, distance);
      (ranged.(velocity := o.velocity, scaleX := o.scaleX), o.movingToEnd)
  }

  class PatrolOnlyEnemy {
    const base: EnemyBase
    var movingToEnd: bool

    /** The patrol starts towards the end point. */
    constructor (base: EnemyBase)
      ensures this.base == base && movingToEnd
    {
      this.base := base;
      movingToEnd := true;
    }

    method ExecuteBehavior(own: Vec2, distance: Distance)
      modifies this, base`velocity, base`scaleX
      ensures var o := PatrolStep(old(movingToEnd), own, base.patrolStart, base.cfg, distance);
        base.State() == old(base.State()).(velocity := o.velocity, scaleX := o.scaleX) && movingToEnd == o.movingToEnd
    {
      movingToEnd := base.Patrol(movingToEnd, own, distance);
    }

    /** Attack: a patrol-only enemy never attacks. */
    method Attack()
      ensures base.State() == old(base.State()) && movingToEnd == old(movingToEnd)
    {
    }

    /** Update (EnemyBase's, running this strategy). */
    method Update(own: Vec2, player: Option<Vec2>, distance: Distance)
      modifies this, base`isPlayerInRange, base`isPlayerInAttackRange, base`velocity, base`scaleX
      ensures (base.State(), movingToEnd)
           == PatrolOnlyTick(old(base.State()), old(movingToEnd), base.cfg, base.patrolStart, own, player, distance)
    {
      if base.isDead || base.isHit {
        return;
      }
      base.CheckPlayerInRange(own, player, distance);
      ExecuteBehavior(own, distance);
    }
  }
}
