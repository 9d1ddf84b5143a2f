/** The enemy that patrols and chases (PatrolAndChaseEnemy): it chases the player while the
    player is in detection range, attacks when the player is also in attack range, and after
    losing the player waits three seconds before patrolling again. */
module PatrolAndChase {
  import opened Geometry
  import opened Wrappers
  import opened Timers
  import opened EnemyCore

  /** Seconds without the player in range before the enemy resumes its patrol. */
  const ReturnToPatrolDelay := 3.0

  /** The strategy's own fields. */
  datatype ChaseMemory = ChaseMemory(movingToEnd: bool, returnToPatrolTimer: real)

  const InitialMemory := ChaseMemory(true, 0.0)

  /** What one behaviour tick leaves, and whether it invoked Attack. */
  datatype ChaseOutcome = ChaseOutcome(state: BaseState, memory: ChaseMemory, attacked: bool)

  /** ChasePlayer: without a player nothing changes; with one the enemy runs at `speed`
      along the line to the player (and stands still on top of it) and faces the player. */
  function ChaseStep(s: BaseState, cfg: BaseConfig, own: Vec2, player: Option<Vec2>, distance: Distance): (r: BaseState)
    ensures player.None? ==> r == s
    ensures SameExceptMotion(s, r)
    ensures player.Some? && distance(own, player.value) > Epsilon ==>
      && r.velocity.x * distance(own, player.value) == (player.value.x - own.x) * cfg.speed
      && r.velocity.y * distance(own, player.value) == (player.value.y - own.y) * cfg.speed
    ensures player.Some? && distance(own, player.value) <= Epsilon ==> r.velocity == Zero
    ensures player.Some? && distance(own, player.value) > Epsilon ==>
      r.scaleX == Sign(player.value.x - own.x) * cfg.initialScaleX
  {
    match player
    case None => s
    case Some(p) =>
      var dir := Direction(own, p, distance);
      assert distance(own, p) > Epsilon ==> Sign(dir.x) == Sign(p.x - own.x) by {
        if distance(own, p) > Epsilon {
          DirectionSign(own, p, distance);
        }
      }
      s.(velocity := Scale(dir, cfg.speed), scaleX := Sign(dir.x) * cfg.initialScaleX)
  }

  /** ExecuteBehavior. With the player in range: chase, forget the lost-target time, and
      attack exactly when the player is also in attack range. Otherwise: count the time, and
      only once it reaches the delay patrol; before that velocity and facing are untouched. */
  function BehaviorStep(s: BaseState, m: ChaseMemory, cfg: BaseConfig, start: Vec2, dt: real, own: Vec2,
                        player: Option<Vec2>, distance: Distance): (o: ChaseOutcome)
    requires dt > 0.0
    ensures o.attacked <==> s.isPlayerInRange && s.isPlayerInAttackRange
    ensures s.isPlayerInRange ==>
      o.state == ChaseStep(s, cfg, own, player, distance) && o.memory == m.(returnToPatrolTimer := 0.0)
    ensures !s.isPlayerInRange ==> o.memory.returnToPatrolTimer == m.returnToPatrolTimer + dt
    ensures !s.isPlayerInRange && m.returnToPatrolTimer + dt < ReturnToPatrolDelay ==> o.state == s && o.memory.movingToEnd == m.movingToEnd
    ensures !s.isPlayerInRange && m.returnToPatrolTimer + dt >= ReturnToPatrolDelay ==>
      var p := PatrolStep(m.movingToEnd, own, start, cfg, distance);
      o.state == s.(velocity := p.velocity, scaleX := p.scaleX) && o.memory.movingToEnd == p.movingToEnd
  {
    if s.isPlayerInRange then
      ChaseOutcome(ChaseStep(s, cfg, own, player, distance), m.(returnToPatrolTimer := 0.0), s.isPlayerInAttackRange)
    else
      var t := m.returnToPatrolTimer + dt;
      if t >= ReturnToPatrolDelay then
        var p := PatrolStep(m.movingToEnd, own, start, cfg, distance);
        ChaseOutcome(s.(velocity := p.velocity, scaleX := p.scaleX), ChaseMemory(p.movingToEnd, t), false)
      else ChaseOutcome(s, m.(returnToPatrolTimer := t), false)
  }

  /** One Update: nothing while dead or flashing; otherwise the range check, then the
      behaviour on the refreshed flags. */
  function ChaseTick(s: BaseState, m: ChaseMemory, cfg: BaseConfig, start: Vec2, dt: real, own: Vec2,
                     player: Option<Vec2>, distance: Distance): (o: ChaseOutcome)
    requires dt > 0.0
    ensures !Active(s) ==> o == ChaseOutcome(s, m, false)
    ensures Active(s) ==> o == BehaviorStep(RangeStep(s, cfg, own, player, distance), m, cfg, start, dt, own, player, distance)
    ensures o.attacked ==> Active(s) && o.state.isPlayerInRange && o.state.isPlayerInAttackRange
  {
    if !Active(s) then ChaseOutcome(s, m, false)
    else BehaviorStep(RangeStep(s, cfg, own, player, distance), m, cfg, start, dt, own, player, distance)
  }

  // ---------------------------------------------------------------------------------------
  // The lost-target delay over several frames

  /** The behaviour over frames of `dts` seconds with the range flags as given. */
  function BehaviorRun(s: BaseState, m: ChaseMemory, cfg: BaseConfig, start: Vec2, dts: seq<real>, own: Vec2,
                       player: Option<Vec2>, distance: Distance): ChaseOutcome
    requires Positive(dts)
    decreases |dts|
  {
    if dts == [] then ChaseOutcome(s, m, false)
    else
      var o := BehaviorStep(s, m, cfg, start, dts[0], own, player, distance);
      BehaviorRun(o.state, o.memory, cfg, start, dts[1..], own, player, distance)
  }

  /** After the player is lost, as long as less than three seconds (counted by the timer)
      have passed the enemy keeps its velocity and facing and its patrol direction, and the
      timer has counted exactly the elapsed time. */
  lemma {:induction false} LostTargetHoldsCourse(s: BaseState, m: ChaseMemory, cfg: BaseConfig, start: Vec2, dts: seq<real>,
                                                  own: Vec2, player: Option<Vec2>, distance: Distance)
    requires Positive(dts) && !s.isPlayerInRange
    requires m.returnToPatrolTimer + TotalTime(dts) < ReturnToPatrolDelay
    ensures var r := BehaviorRun(s, m, cfg, start, dts, own, player, distance);
      && r.state == s && r.memory.movingToEnd == m.movingToEnd
      && r.memory.returnToPatrolTimer == m.returnToPatrolTimer + TotalTime(dts)
    decreases |dts|
  {
    if dts != [] {
      PositiveTotal(dts[1..]);
      var o := BehaviorStep(s, m, cfg, start, dts[0], own, player, distance);
      LostTargetHoldsCourse(o.state, o.memory, cfg, start, dts[1..], own, player, distance);
    }
  }

  /** Seeing the player again restarts the full three-second delay. */
  lemma ReacquireResetsDelay(s: BaseState, m: ChaseMemory, cfg: BaseConfig, start: Vec2, dt: real, own: Vec2,
                             player: Option<Vec2>, distance: Distance)
    requires dt > 0.0 && s.isPlayerInRange
    ensures BehaviorStep(s, m, cfg, start, dt, own, player, distance).memory.returnToPatrolTimer == 0.0
  {
  }

  class PatrolAndChaseEnemy {
    const base: EnemyBase
    var movingToEnd: bool
    var returnToPatrolTimer: real

    function Memory(): ChaseMemory
      reads this
    {
      ChaseMemory(movingToEnd, returnToPatrolTimer)
    }

    constructor (base: EnemyBase)
      ensures this.base == base && Memory() == InitialMemory
    {
      this.base := base;
      movingToEnd := true;
      returnToPatrolTimer := 0.0;
    }

    method ChasePlayer(own: Vec2, player: Option<Vec2>, distance: Distance)
      modifies base`velocity, base`scaleX
      ensures base.State() == ChaseStep(old(base.State()), base.cfg, own, player, distance)
    {
      if player.None? {
        return;
      }
      var direction := Direction(own, player.value, distance);
      base.velocity := Scale(direction, base.cfg.speed);
      base.scaleX := Sign(direction.x) * base.cfg.initialScaleX;
    }

    method Patrol(own: Vec2, distance: Distance)
      modifies this`movingToEnd, base`velocity, base`scaleX
      ensures var p := PatrolStep(old(movingToEnd), own, base.patrolStart, base.cfg, distance);
        base.State() == old(base.State()).(velocity := p.velocity, scaleX := p.scaleX) && movingToEnd == p.movingToEnd
    {
      movingToEnd := base.Patrol(movingToEnd, own, distance);
    }

    /** Attack: only an animation trigger, which changes none of the enemy's fields. */
    method Attack()
      ensures base.State() == old(base.State()) && Memory() == old(Memory())
    {
    }

    /** ExecuteBehavior: returns whether it invoked Attack. */
    method ExecuteBehavior(dt: real, own: Vec2, player: Option<Vec2>, distance: Distance) returns (attacked: bool)
      requires dt > 0.0
      modifies this, base`velocity, base`scaleX
      ensures ChaseOutcome(base.State(), Memory(), attacked)
           == BehaviorStep(old(base.State()), old(Memory()), base.cfg, base.patrolStart, dt, own, player, distance)
    {
      attacked := false;
      if base.isPlayerInRange {
        ChasePlayer(own, player, distance);
        returnToPatrolTimer := 0.0;
        if base.isPlayerInAttackRange {
          Attack();
          attacked := true;
        }
      } else {
        returnToPatrolTimer := returnToPatrolTimer + dt;
        if returnToPatrolTimer >= ReturnToPatrolDelay {
          Patrol(own, distance);
        }
      }
    }

    /** Update (EnemyBase's, running this strategy). */
    method Update(dt: real, own: Vec2, player: Option<Vec2>, distance: Distance) returns (attacked: bool)
      requires dt > 0.0
      modifies this, base`isPlayerInRange, base`isPlayerInAttackRange, base`velocity, base`scaleX
      ensures ChaseOutcome(base.State(), Memory(), attacked)
           == ChaseTick(old(base.State()), old(Memory()), base.cfg, base.patrolStart, dt, own, player, distance)
    {
      attacked := false;
      if base.isDead || base.isHit {
        return;
      }
      base.CheckPlayerInRange(own, player, distance);
      attacked := ExecuteBehavior(dt, own, player, distance);
    }
  }
}
