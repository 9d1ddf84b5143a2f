/** What every enemy shares (EnemyBase) and the population coordinator (EnemyManager): the
    one-way death latch, the hit flash that suspends behaviour, the player range flags, the
    patrol rule two strategies use, and the enemy list with its optional leader. The two
    classes refer to each other (an enemy registers with the manager, the manager sets the
    enemy's leader flag), so they share this module. */
module EnemyCore {
  import opened Geometry
  import opened Wrappers
  import opened Timers

  // =======================================================================================
  // Population (EnemyManager)

  /** Enemy count from which a leader is kept. */
  const RequiredLeaderCount := 5

  /** The manager's list and its current leader. */
  datatype Population<E(==)> = Population(members: seq<E>, leader: Option<E>)

  predicate NoDuplicates<E(==)>(s: seq<E>) {
    forall i, j :: 0 <= i < j < |s| ==> s[i] != s[j]
  }

  /** The coordinator's invariant: each enemy is listed once, there is a leader exactly when
      at least five enemies are listed, and the leader is one of them. */
  predicate PopInv<E(==)>(p: Population<E>) {
    && NoDuplicates(p.members)
    && (p.leader.Some? <==> |p.members| >= RequiredLeaderCount)
    && (p.leader.Some? ==> p.leader.value in p.members)
  }

  /** ElectLeader, with `pick` standing for the random draw: member `pick % count` becomes
      leader; with nobody listed nothing happens. */
  function Elect<E(==)>(p: Population<E>, pick: nat): (r: Population<E>)
    ensures r.members == p.members
    ensures |p.members| == 0 ==> r == p
    ensures |p.members| > 0 ==> r.leader.Some? && r.leader.value in p.members
  {
    if |p.members| == 0 then p
    else p.(leader := Some(p.members[pick % |p.members|]))
  }

  /** CheckLeaderStatus: a leader is elected when five or more are listed and none exists;
      an existing leader is dropped when fewer than five are listed; otherwise nothing
      changes (in particular an existing leader is kept while the count stays at five or
      more). */
  function CheckLeader<E(==)>(p: Population<E>, pick: nat): (r: Population<E>)
    ensures r.members == p.members
    ensures |p.members| >= RequiredLeaderCount && p.leader.None? ==> r.leader.Some? && r.leader.value in p.members
    ensures |p.members| < RequiredLeaderCount ==> r.leader.None?
    ensures p.leader.Some? && |p.members| >= RequiredLeaderCount ==> r == p
    ensures NoDuplicates(p.members) && (p.leader.Some? ==> p.leader.value in p.members) ==> PopInv(r)
  {
    if |p.members| >= RequiredLeaderCount && p.leader.None? then Elect(p, pick)
    else if |p.members| < RequiredLeaderCount && p.leader.Some? then p.(leader := None)
    else p
  }

  /** `List.Remove`: the first occurrence of `e` goes, the rest keep their order. */
  function RemoveFirst<E(==)>(s: seq<E>, e: E): (r: seq<E>)
    ensures e in s ==> |r| == |s| - 1
    ensures e !in s ==> r == s
    ensures forall x :: x in r ==> x in s
    ensures forall x :: x in s && x != e ==> x in r
    ensures NoDuplicates(s) ==> NoDuplicates(r) && e !in r
    decreases |s|
  {
    if s == [] then []
    else if s[0] == e then s[1..]
    else
      var rest := RemoveFirst(s[1..], e);
      assert forall x :: x in rest ==> x in s[1..];
      assert NoDuplicates(s) ==> NoDuplicates(s[1..]) && s[0] !in s[1..] by {
        if NoDuplicates(s) {
          forall i, j | 0 <= i < j < |s[1..]| ensures s[1..][i] != s[1..][j] {
            assert s[1..][i] == s[i + 1] && s[1..][j] == s[j + 1];
          }
          forall j | 0 <= j < |s[1..]| ensures s[1..][j] != s[0] {
            assert s[1..][j] == s[j + 1];
          }
        }
      }
      [s[0]] + rest
  }

  /** RegisterEnemy: an enemy already listed changes nothing; otherwise it is appended and the
      leader check runs. An existing leader survives every registration. */
  function Register<E(==)>(p: Population<E>, e: E, pick: nat): (r: Population<E>)
    ensures e in r.members
    ensures e in p.members ==> r == p
    ensures e !in p.members ==> r.members == p.members + [e]
    ensures PopInv(p) ==> PopInv(r)
    ensures PopInv(p) && p.leader.Some? ==> r.leader == p.leader
  {
    if e in p.members then p
    else
      var added := p.(members := p.members + [e]);
      assert NoDuplicates(p.members) ==> NoDuplicates(added.members) by {
        if NoDuplicates(p.members) {
          forall i, j | 0 <= i < j < |added.members| ensures added.members[i] != added.members[j] {
            if j == |p.members| {
              assert added.members[i] == p.members[i];
            }
          }
        }
      }
      CheckLeader(added, pick)
  }

  /** UnregisterEnemy: an enemy not listed changes nothing; otherwise, if it is the leader the
      leader is dropped first, then it is removed and the leader check runs. A leader other
      than the removed enemy survives while five or more remain. */
  function Unregister<E(==)>(p: Population<E>, e: E, pick: nat): (r: Population<E>)
    ensures e !in p.members ==> r == p
    ensures e in p.members ==> r.members == RemoveFirst(p.members, e)
    ensures PopInv(p) ==> PopInv(r) && e !in r.members
    ensures PopInv(p) && p.leader.Some? && p.leader.value != e && |r.members| >= RequiredLeaderCount ==>
      r.leader == p.leader
  {
    if e !in p.members then p
    else
      var demoted := if p.leader == Some(e) then None else p.leader;
      CheckLeader(Population(RemoveFirst(p.members, e), demoted), pick)
  }

  /** Registering twice is registering once. */
  lemma RegisterIdempotent<E>(p: Population<E>, e: E, pick1: nat, pick2: nat)
    ensures Register(Register(p, e, pick1), e, pick2) == Register(p, e, pick1)
  {
  }

  /** Unregistering twice is unregistering once. */
  lemma UnregisterIdempotent<E>(p: Population<E>, e: E, pick1: nat, pick2: nat)
    requires PopInv(p)
    ensures Unregister(Unregister(p, e, pick1), e, pick2) == Unregister(p, e, pick1)
  {
  }

  /** ElectLeader on an empty list does nothing. */
  lemma ElectOnEmpty<E>(p: Population<E>, pick: nat)
    requires p.members == []
    ensures Elect(p, pick) == p
  {
  }

  /** One call a scene makes on the manager. */
  datatype PopOp<E> = Join(enemy: E, pick: nat) | Leave(enemy: E, pick: nat)

  function ApplyOps<E(==)>(p: Population<E>, ops: seq<PopOp<E>>): Population<E>
    decreases |ops|
  {
    if ops == [] then p
    else
      var next := match ops[0]
        case Join(e, k) => Register(p, e, k)
        case Leave(e, k) => Unregister(p, e, k);
      ApplyOps(next, ops[1..])
  }

  /** After any sequence of registrations and removals from the empty manager, the leader
      exists exactly when five or more enemies are listed, and is one of them. */
  lemma {:induction false} LeaderInvariantHolds<E>(p: Population<E>, ops: seq<PopOp<E>>)
    requires PopInv(p)
    ensures PopInv(ApplyOps(p, ops))
    ensures var r := ApplyOps(p, ops); r.leader.Some? <==> |r.members| >= RequiredLeaderCount
    decreases |ops|
  {
    if ops != [] {
      var next := match ops[0]
        case Join(e, k) => Register(p, e, k)
        case Leave(e, k) => Unregister(p, e, k);
      LeaderInvariantHolds(next, ops[1..]);
    }
  }

  /** Running two sequences of calls one after the other is running them joined. */
  lemma {:induction false} ApplyOpsAppend<E>(p: Population<E>, a: seq<PopOp<E>>, b: seq<PopOp<E>>)
    ensures ApplyOps(p, a + b) == ApplyOps(ApplyOps(p, a), b)
    decreases |a|
  {
    if a == [] {
      assert a + b == b;
    } else {
      assert (a + b)[0] == a[0] && (a + b)[1..] == a[1..] + b;
      var next := match a[0]
        case Join(e, k) => Register(p, e, k)
        case Leave(e, k) => Unregister(p, e, k);
      ApplyOpsAppend(next, a[1..], b);
    }
  }

  /** Two pieces of a run that leave the same population can replace each other anywhere in
      the run. */
  lemma CollapseInRun<E>(p: Population<E>, before: seq<PopOp<E>>, twice: seq<PopOp<E>>, once: seq<PopOp<E>>,
                         after: seq<PopOp<E>>)
    requires ApplyOps(ApplyOps(p, before), twice) == ApplyOps(ApplyOps(p, before), once)
    ensures ApplyOps(p, before + twice + after) == ApplyOps(p, before + once + after)
  {
    ApplyOpsAppend(p, before + twice, after);
    ApplyOpsAppend(p, before, twice);
    ApplyOpsAppend(p, before + once, after);
    ApplyOpsAppend(p, before, once);
  }

  /** Anywhere in a run, registering an enemy twice in a row leaves the same population as
      registering it once. */
  lemma RepeatedJoinCollapses<E>(p: Population<E>, before: seq<PopOp<E>>, e: E, k1: nat, k2: nat, after: seq<PopOp<E>>)
    ensures ApplyOps(p, before + [Join(e, k1), Join(e, k2)] + after) == ApplyOps(p, before + [Join(e, k1)] + after)
  {
    var q := ApplyOps(p, before);
    assert [Join(e, k1), Join(e, k2)][1..] == [Join(e, k2)];
    assert [Join(e, k2)][1..] == [] && [Join(e, k1)][1..] == [];
    RegisterIdempotent(q, e, k1, k2);
    CollapseInRun(p, before, [Join(e, k1), Join(e, k2)], [Join(e, k1)], after);
  }

  /** Anywhere in a run from a consistent manager, removing an enemy twice in a row leaves
      the same population as removing it once. */
  lemma RepeatedLeaveCollapses<E>(p: Population<E>, before: seq<PopOp<E>>, e: E, k1: nat, k2: nat, after: seq<PopOp<E>>)
    requires PopInv(p)
    ensures ApplyOps(p, before + [Leave(e, k1), Leave(e, k2)] + after) == ApplyOps(p, before + [Leave(e, k1)] + after)
  {
    var q := ApplyOps(p, before);
    LeaderInvariantHolds(p, before);
    assert [Leave(e, k1), Leave(e, k2)][1..] == [Leave(e, k2)];
    assert [Leave(e, k2)][1..] == [] && [Leave(e, k1)][1..] == [];
    UnregisterIdempotent(q, e, k1, k2);
    CollapseInRun(p, before, [Leave(e, k1), Leave(e, k2)], [Leave(e, k1)], after);
  }

  /** Four enemies: no leader; a fifth: a leader among them; the leader leaves: none among
      the four left; it comes back: again a leader among the five. */
  lemma LeaderScenario<E>(a: E, b: E, c: E, d: E, e: E, k: nat)
    requires a != b && a != c && a != d && a != e && b != c && b != d && b != e && c != d && c != e && d != e
    ensures var four := Register(Register(Register(Register(Population([], None), a, k), b, k), c, k), d, k);
      && four.leader.None? && four.members == [a, b, c, d]
      && var five := Register(four, e, k);
      && five.leader.Some? && five.leader.value in five.members && |five.members| == 5
      && var left := Unregister(five, five.leader.value, k);
      && left.leader.None? && |left.members| == 4
      && var back := Register(left, five.leader.value, k);
      && back.leader.Some? && back.leader.value in back.members
  {
    var p0: Population<E> := Population([], None);
    var p1 := Register(p0, a, k);
    assert p1.members == [a];
    var p2 := Register(p1, b, k);
    assert p2.members == [a, b];
    var p3 := Register(p2, c, k);
    assert p3.members == [a, b, c];
    var p4 := Register(p3, d, k);
    assert p4.members == [a, b, c, d];
    var five := Register(p4, e, k);
    assert e !in p4.members;
    assert five.members == [a, b, c, d, e];
    var leader := five.leader.value;
    var left := Unregister(five, leader, k);
    assert |left.members| == 4;
    assert leader !in left.members;
  }

  // =======================================================================================
  // EnemyBase

  /** The inspector parameters of an enemy; the defaults are the script's initial values.
      `patrolEnd` is the second waypoint; the first is the spawn position. */
  datatype BaseConfig = BaseConfig(
    health: int,
    damage: int,
    speed: real,
    detectionRange: real,
    attackRange: real,
    flashDuration: real,
    patrolEnd: Vec2,
    patrolSpeed: real,
    initialScaleX: real)

  const DefaultBase := BaseConfig(30, 10, 2.0, 5.0, 1.5, 0.1, Zero, 1.0, 1.0)

  /** Magnitude of the knockback impulse. */
  const KnockbackStrength := 5.0

  /** Delay between death and removal of the object (time for the death animation). */
  const DeathDestroyDelay := 1.0

  /** Distance under which a patrol waypoint counts as reached. */
  const WaypointTolerance := 0.1

  /** The fields of an enemy the rules read and write. `destroyed` is Unity's "the object is
      gone" (it then compares equal to null). */
  datatype BaseState = BaseState(
    health: int,
    isDead: bool,
    isHit: bool,
    isPlayerInRange: bool,
    isPlayerInAttackRange: bool,
    velocity: Vec2,
    scaleX: real,
    colliderEnabled: bool,
    hitTimers: Pending,
    destroyTimers: Pending,
    destroyed: bool)

  function InitialBase(cfg: BaseConfig): BaseState {
    BaseState(cfg.health, false, false, false, false, Zero, cfg.initialScaleX, true, [], [], false)
  }

  /** Two enemy states that differ at most in velocity and facing: what a behaviour may
      change. */
  predicate SameExceptMotion(a: BaseState, b: BaseState) {
    && a.health == b.health && a.isDead == b.isDead && a.isHit == b.isHit
    && a.isPlayerInRange == b.isPlayerInRange && a.isPlayerInAttackRange == b.isPlayerInAttackRange
    && a.colliderEnabled == b.colliderEnabled && a.hitTimers == b.hitTimers
    && a.destroyTimers == b.destroyTimers && a.destroyed == b.destroyed
  }

  /** Update's gate: behaviour runs only for a live enemy that is not flashing from a hit. */
  predicate Active(s: BaseState) { !s.isDead && !s.isHit }

  /** CheckPlayerInRange: with a player, the two flags become the two range tests on the
      engine's distance; without one both flags keep their values. Nothing else changes. */
  function RangeStep(s: BaseState, cfg: BaseConfig, own: Vec2, player: Option<Vec2>, distance: Distance): (r: BaseState)
    ensures player.None? ==> r == s
    ensures player.Some? ==>
      && r.isPlayerInRange == (distance(own, player.value) <= cfg.detectionRange)
      && r.isPlayerInAttackRange == (distance(own, player.value) <= cfg.attackRange)
    ensures r.(isPlayerInRange := s.isPlayerInRange, isPlayerInAttackRange := s.isPlayerInAttackRange) == s
  {
    match player
    case None => s
    case Some(p) =>
      var d := distance(own, p);
      s.(isPlayerInRange := d <= cfg.detectionRange, isPlayerInAttackRange := d <= cfg.attackRange)
  }

  /** Die: the death latch is set, the enemy stops, its collider is switched off and its
      removal is scheduled. */
  function DieStep(s: BaseState): (r: BaseState)
    ensures r.isDead && r.velocity == Zero && !r.colliderEnabled
    ensures r.destroyTimers == s.destroyTimers + [DeathDestroyDelay]
    ensures r.health == s.health && r.isHit == s.isHit && r.hitTimers == s.hitTimers && r.destroyed == s.destroyed
    ensures r.isPlayerInRange == s.isPlayerInRange && r.isPlayerInAttackRange == s.isPlayerInAttackRange && r.scaleX == s.scaleX
  {
    s.(isDead := true, velocity := Zero, colliderEnabled := false, destroyTimers := s.destroyTimers + [DeathDestroyDelay])
  }

  /** HitEffect up to its wait: the flash starts, and its end is scheduled `flashDuration`
      later. */
  function Flash(s: BaseState, cfg: BaseConfig): (r: BaseState)
    ensures r.isHit && r.hitTimers == s.hitTimers + [cfg.flashDuration]
    ensures r.health == s.health && r.isDead == s.isDead && r.velocity == s.velocity && r.colliderEnabled == s.colliderEnabled
    ensures r.destroyTimers == s.destroyTimers && r.destroyed == s.destroyed
    ensures r.isPlayerInRange == s.isPlayerInRange && r.isPlayerInAttackRange == s.isPlayerInAttackRange && r.scaleX == s.scaleX
  {
    s.(isHit := true, hitTimers := s.hitTimers + [cfg.flashDuration])
  }

  /** What TakeDamage leaves, and whether it ran Die. */
  datatype DamageOutcome = DamageOutcome(state: BaseState, died: bool)

  /** TakeDamage: a dead enemy ignores the hit. A live one loses exactly `amount` health and
      starts its hit flash (`isHit` until `flashDuration` has passed); it dies exactly when
      its health is then at most 0. */
  function DamageStep(s: BaseState, cfg: BaseConfig, amount: int): (o: DamageOutcome)
    ensures s.isDead ==> o.state == s && !o.died
    ensures !s.isDead ==> o.state.health == s.health - amount
    ensures !s.isDead ==> o.state.isHit && o.state.hitTimers == s.hitTimers + [cfg.flashDuration]
    ensures !s.isDead ==> (o.died <==> s.health - amount <= 0)
    ensures o.state.isDead <==> s.isDead || o.died
    ensures o.died ==> o.state.velocity == Zero && !o.state.colliderEnabled
    ensures o.died ==> o.state.destroyTimers == s.destroyTimers + [DeathDestroyDelay]
    ensures !o.died ==>
      o.state.velocity == s.velocity && o.state.colliderEnabled == s.colliderEnabled && o.state.destroyTimers == s.destroyTimers
    // the range flags, facing and existence are left alone
    ensures o.state.isPlayerInRange == s.isPlayerInRange && o.state.isPlayerInAttackRange == s.isPlayerInAttackRange
    ensures o.state.scaleX == s.scaleX && o.state.destroyed == s.destroyed
  {
    if s.isDead then DamageOutcome(s, false)
    else
      var hit := Flash(s.(health := s.health - amount), cfg);
      if hit.health <= 0 then DamageOutcome(DieStep(hit), true) else DamageOutcome(hit, false)
  }

  /** OnHit: an impulse of strength 5 pushing the enemy away from the player; nothing without
      a player. */
  function Knockback(own: Vec2, player: Option<Vec2>, distance: Distance): (k: Option<Vec2>)
    ensures player.None? <==> k.None?
    ensures player.Some? && distance(player.value, own) > Epsilon ==>
      Sign(k.value.x) == Sign(own.x - player.value.x)
  {
    match player
    case None => None
    case Some(p) =>
      var dir := Direction(p, own, distance);
      assert distance(p, own) > Epsilon ==> Sign(Scale(dir, KnockbackStrength).x) == Sign(own.x - p.x) by {
        if distance(p, own) > Epsilon {
          DirectionSign(p, own, distance);
        }
      }
      Some(Scale(dir, KnockbackStrength))
  }

  /** The delayed calls of an enemy over one frame: a due hit flash clears `isHit` (the first
      flash to end clears it, even if a later hit started another), and a due destroy
      removes the object. */
  function BaseTimersStep(s: BaseState, dt: real): (r: BaseState)
    ensures r.isHit == (s.isHit && !Fires(s.hitTimers, dt))
    ensures r.destroyed == (s.destroyed || Fires(s.destroyTimers, dt))
    ensures r.hitTimers == Elapse(s.hitTimers, dt) && r.destroyTimers == Elapse(s.destroyTimers, dt)
    ensures r.health == s.health && r.isDead == s.isDead && r.velocity == s.velocity && r.colliderEnabled == s.colliderEnabled
    ensures r.isPlayerInRange == s.isPlayerInRange && r.isPlayerInAttackRange == s.isPlayerInAttackRange && r.scaleX == s.scaleX
  {
    s.(isHit := s.isHit && !Fires(s.hitTimers, dt),
       destroyed := s.destroyed || Fires(s.destroyTimers, dt),
       hitTimers := Elapse(s.hitTimers, dt),
       destroyTimers := Elapse(s.destroyTimers, dt))
  }

  /** What can happen to an enemy between behaviour ticks. */
  datatype BaseEvent = Hit(amount: int) | Wait(dt: real)

  function BaseRun(s: BaseState, cfg: BaseConfig, es: seq<BaseEvent>): BaseState
    decreases |es|
  {
    if es == [] then s
    else
      var next := match es[0]
        case Hit(a) => DamageStep(s, cfg, a).state
        case Wait(dt) => BaseTimersStep(s, dt);
      BaseRun(next, cfg, es[1..])
  }

  /** Death is a one-way latch: once dead, no hit and no passage of time revives the enemy or
      changes its health, velocity or collider. */
  lemma {:induction false} DeathIsFinal(s: BaseState, cfg: BaseConfig, es: seq<BaseEvent>)
    requires s.isDead
    ensures var r := BaseRun(s, cfg, es);
      r.isDead && r.health == s.health && r.velocity == s.velocity && r.colliderEnabled == s.colliderEnabled
    decreases |es|
  {
    if es != [] {
      var next := match es[0]
        case Hit(a) => DamageStep(s, cfg, a).state
        case Wait(dt) => BaseTimersStep(s, dt);
      DeathIsFinal(next, cfg, es[1..]);
    }
  }

  /** With the script's 30 health, three hits of 10 kill the enemy on exactly the third. */
  lemma ThirdHitKills()
    ensures var s0 := InitialBase(DefaultBase);
      var h1 := DamageStep(s0, DefaultBase, 10);
      var h2 := DamageStep(h1.state, DefaultBase, 10);
      var h3 := DamageStep(h2.state, DefaultBase, 10);
      && !h1.died && !h1.state.isDead && h1.state.health == 20
      && !h2.died && !h2.state.isDead && h2.state.health == 10
      && h3.died && h3.state.isDead && h3.state.health == 0
  {
  }

  function WaitRun(s: BaseState, dts: seq<real>): BaseState
    decreases |dts|
  {
    if dts == [] then s else WaitRun(BaseTimersStep(s, dts[0]), dts[1..])
  }

  /** A hit flash with nothing else pending ends once its duration has passed: the enemy is no
      longer suspended. */
  lemma {:induction false} FlashEnds(s: BaseState, dts: seq<real>, t: real)
    requires s.hitTimers == [t] && dts != []
    requires TotalTime(dts) >= t
    ensures !WaitRun(s, dts).isHit
    decreases |dts|
  {
    var next := BaseTimersStep(s, dts[0]);
    SinglePending(t, dts[0]);
    if t - dts[0] <= 0.0 {
      NoFlashStaysClear(next, dts[1..]);
    } else {
      FlashEnds(next, dts[1..], t - dts[0]);
    }
  }

  /** ... and not before: while less than its duration has passed, the enemy is still
      flashing. */
  lemma {:induction false} FlashLasts(s: BaseState, dts: seq<real>, t: real)
    requires s.isHit && s.hitTimers == [t]
    requires Positive(dts)
    requires TotalTime(dts) < t
    ensures WaitRun(s, dts).isHit
    decreases |dts|
  {
    if dts != [] {
      assert TotalTime(dts[1..]) >= 0.0 by {
        PositiveTotal(dts[1..]);
      }
      SinglePending(t, dts[0]);
      FlashLasts(BaseTimersStep(s, dts[0]), dts[1..], t - dts[0]);
    }
  }

  /** With no hit, a cleared flash stays cleared. */
  lemma {:induction false} NoFlashStaysClear(s: BaseState, dts: seq<real>)
    requires !s.isHit
    ensures !WaitRun(s, dts).isHit
    decreases |dts|
  {
    if dts != [] {
      NoFlashStaysClear(BaseTimersStep(s, dts[0]), dts[1..]);
    }
  }

  // =======================================================================================
  // Patrol (PatrolOnlyEnemy.Patrol and PatrolAndChaseEnemy.Patrol, which are the same rule)

  /** The waypoint a patrol heads for: the end point while `movingToEnd`, else the start. */
  function PatrolTarget(movingToEnd: bool, start: Vec2, end: Vec2): Vec2 {
    if movingToEnd then end else start
  }

  datatype PatrolOutcome = PatrolOutcome(velocity: Vec2, scaleX: real, movingToEnd: bool)

  /** Patrol: the enemy moves at `patrolSpeed` along the line to its waypoint (and stands
      still once on it) and faces it, and the waypoint flips exactly when the enemy is within
      0.1 of it. */
  function PatrolStep(movingToEnd: bool, own: Vec2, start: Vec2, cfg: BaseConfig, distance: Distance): (o: PatrolOutcome)
    ensures var target := PatrolTarget(movingToEnd, start, cfg.patrolEnd);
      && (o.movingToEnd != movingToEnd <==> distance(own, target) < WaypointTolerance)
      && (distance(own, target) > Epsilon ==>
            && o.velocity.x * distance(own, target) == (target.x - own.x) * cfg.patrolSpeed
            && o.velocity.y * distance(own, target) == (target.y - own.y) * cfg.patrolSpeed)
      && (distance(own, target) <= Epsilon ==> o.velocity == Zero)
      && (distance(own, target) > Epsilon ==> o.scaleX == Sign(target.x - own.x) * cfg.initialScaleX)
  {
    var target := PatrolTarget(movingToEnd, start, cfg.patrolEnd);
    var dir := Direction(own, target, distance);
    assert distance(own, target) > Epsilon ==> Sign(dir.x) == Sign(target.x - own.x) by {
      if distance(own, target) > Epsilon {
        DirectionSign(own, target, distance);
      }
    }
    var flip := distance(own, target) < WaypointTolerance;
    PatrolOutcome(Scale(dir, cfg.patrolSpeed), Sign(dir.x) * cfg.initialScaleX, if flip then !movingToEnd else movingToEnd)
  }

  /** Reaching a waypoint turns the patrol towards the other one. */
  lemma PatrolPingPong(movingToEnd: bool, own: Vec2, start: Vec2, cfg: BaseConfig, distance: Distance)
    requires distance(own, PatrolTarget(movingToEnd, start, cfg.patrolEnd)) < WaypointTolerance
    ensures PatrolTarget(PatrolStep(movingToEnd, own, start, cfg, distance).movingToEnd, start, cfg.patrolEnd)
         == PatrolTarget(!movingToEnd, start, cfg.patrolEnd)
  {
  }

  // =======================================================================================
  // The classes

  /** The members a manager may flag as leader. */
  function ManagerMembers(m: EnemyManager?): set<EnemyBase>
    reads m
  {
    if m == null then {} else m.Members()
  }

  class EnemyBase {
    const cfg: BaseConfig
    const enemyManager: EnemyManager?
    /** The first waypoint, set in Awake to the spawn position. */
    const patrolStart: Vec2

    var health: int
    var isDead: bool
    var isHit: bool
    var isPlayerInRange: bool
    var isPlayerInAttackRange: bool
    var velocity: Vec2
    var scaleX: real
    var colliderEnabled: bool
    var hitTimers: Pending
    var destroyTimers: Pending
    var destroyed: bool
    /** Written only by the manager. */
    var isLeader: bool

    function State(): BaseState
      reads this
    {
      BaseState(health, isDead, isHit, isPlayerInRange, isPlayerInAttackRange, velocity, scaleX,
                colliderEnabled, hitTimers, destroyTimers, destroyed)
    }

    /** Awake: the enemy registers with the manager if there is one (`pick` is the random draw
        of a leader election this may trigger). */
    constructor (cfg: BaseConfig, enemyManager: EnemyManager?, spawn: Vec2, pick: nat)
      requires enemyManager != null ==> enemyManager.Valid()
      modifies enemyManager, ManagerMembers(enemyManager)`isLeader
      ensures this.cfg == cfg && this.enemyManager == enemyManager && patrolStart == spawn
      ensures State() == InitialBase(cfg)
      ensures enemyManager != null ==>
        enemyManager.Valid() && enemyManager.Pop() == Register(old(enemyManager.Pop()), this, pick)
    {
      this.cfg := cfg;
      this.enemyManager := enemyManager;
      patrolStart := spawn;
      health := cfg.health;
      isDead, isHit, isPlayerInRange, isPlayerInAttackRange := false, false, false, false;
      velocity, scaleX, colliderEnabled := Zero, cfg.initialScaleX, true;
      hitTimers, destroyTimers, destroyed := [], [], false;
      isLeader := false;
      new;
      if enemyManager != null {
        enemyManager.RegisterEnemy(this, pick);
      }
    }

    method CheckPlayerInRange(own: Vec2, player: Option<Vec2>, distance: Distance)
      modifies this`isPlayerInRange, this`isPlayerInAttackRange
      ensures State() == RangeStep(old(State()), cfg, own, player, distance)
    {
      if player.None? {
        return;
      }
      var distanceToPlayer := distance(own, player.value);
      isPlayerInRange := distanceToPlayer <= cfg.detectionRange;
      isPlayerInAttackRange := distanceToPlayer <= cfg.attackRange;
    }

    method HitEffect()
      modifies this`isHit, this`hitTimers
      ensures State() == Flash(old(State()), cfg)
    {
      isHit := true;
      hitTimers := hitTimers + [cfg.flashDuration];
    }

    method Die(pick: nat)
      requires enemyManager != null ==> enemyManager.Valid()
      modifies this`isDead, this`velocity, this`colliderEnabled, this`destroyTimers
      modifies enemyManager, ManagerMembers(enemyManager)`isLeader
      ensures State() == DieStep(old(State()))
      ensures enemyManager != null ==>
        enemyManager.Valid() && enemyManager.Pop() == Unregister(old(enemyManager.Pop()), this, pick)
    {
      isDead := true;
      velocity := Zero;
      colliderEnabled := false;
      if enemyManager != null {
        enemyManager.UnregisterEnemy(this, pick);
      }
      destroyTimers := destroyTimers + [DeathDestroyDelay];
    }

    /** OnHit: returns the knockback impulse it applies, if any. */
    method OnHit(own: Vec2, player: Option<Vec2>, distance: Distance) returns (knockback: Option<Vec2>)
      ensures knockback == Knockback(own, player, distance)
    {
      if player.None? {
        return None;
      }
      knockback := Some(Scale(Direction(player.value, own, distance), KnockbackStrength));
    }

    /** TakeDamage (the damageable interface): returns the knockback impulse of a non-lethal
        hit. `pick` is the random draw of a leader election the death may trigger. */
    method TakeDamage(amount: int, own: Vec2, player: Option<Vec2>, distance: Distance, pick: nat)
      returns (knockback: Option<Vec2>)
      requires enemyManager != null ==> enemyManager.Valid()
      modifies this`health, this`isHit, this`hitTimers, this`isDead, this`velocity, this`colliderEnabled, this`destroyTimers
      modifies enemyManager, ManagerMembers(enemyManager)`isLeader
      ensures State() == DamageStep(old(State()), cfg, amount).state
      // knockback exactly on a hit that leaves a live enemy alive
      ensures old(isDead) || isDead ==> knockback == None
      ensures !isDead ==> knockback == Knockback(own, player, distance)
      // the manager learns of the death, and of nothing else
      ensures enemyManager != null ==> enemyManager.Valid()
      ensures enemyManager != null && !old(isDead) && isDead ==>
        enemyManager.Pop() == Unregister(old(enemyManager.Pop()), this, pick)
      ensures enemyManager != null && (old(isDead) || !isDead) ==>
        enemyManager.Pop() == old(enemyManager.Pop())
    {
      knockback := None;
      if isDead {
        return;
      }
      health := health - amount;
      assert enemyManager != null ==> enemyManager.Valid();
      HitEffect();
      assert enemyManager != null ==> enemyManager.Valid();
      if health <= 0 {
        Die(pick);
        return;
      }
      knockback := OnHit(own, player, distance);
    }

    /** The scheduler's work for this enemy over one frame. */
    method AdvanceTimers(dt: real)
      modifies this`isHit, this`hitTimers, this`destroyed, this`destroyTimers
      ensures State() == BaseTimersStep(old(State()), dt)
    {
      if Fires(hitTimers, dt) {
        isHit := false;
      }
      hitTimers := Elapse(hitTimers, dt);
      if Fires(destroyTimers, dt) {
        destroyed := true;
      }
      destroyTimers := Elapse(destroyTimers, dt);
    }

    /** Patrol as the two patrolling strategies run it, on the enemy's own fields. */
    method Patrol(movingToEnd: bool, own: Vec2, distance: Distance) returns (newMovingToEnd: bool)
      modifies this`velocity, this`scaleX
      ensures var o := PatrolStep(movingToEnd, own, patrolStart, cfg, distance);
        && State() == old(State()).(velocity := o.velocity, scaleX := o.scaleX)
        && newMovingToEnd == o.movingToEnd
    {
      var targetPosition := if movingToEnd then cfg.patrolEnd else patrolStart;
      var direction := Direction(own, targetPosition, distance);
      velocity := Scale(direction, cfg.patrolSpeed);
      scaleX := Sign(direction.x) * cfg.initialScaleX;
      newMovingToEnd := movingToEnd;
      if distance(own, targetPosition) < WaypointTolerance {
        newMovingToEnd := !movingToEnd;
      }
    }
  }

  /** The enemy allies `GetAlliesInRange` reports: still existing, alive, and within `range`
      of `position`. */
  predicate IsAlly(e: EnemyBase, position: Vec2, range: real, distance: Distance, positionOf: EnemyBase -> Vec2)
    reads e
  {
    !e.destroyed && !e.isDead && distance(position, positionOf(e)) <= range
  }

  /** The allies among `es`, in list order. */
  function Allies(es: seq<EnemyBase>, position: Vec2, range: real, distance: Distance, positionOf: EnemyBase -> Vec2)
    : (r: seq<EnemyBase>)
    reads set e | e in es
    ensures |r| <= |es|
    ensures forall e :: e in r ==> e in es && IsAlly(e, position, range, distance, positionOf)
    decreases |es|
  {
    if es == [] then []
    else
      var last := es[|es| - 1];
      Allies(es[..|es| - 1], position, range, distance, positionOf)
        + (if IsAlly(last, position, range, distance, positionOf) then [last] else [])
  }

  /** Exactly the listed enemies that are allies in range are reported. */
  lemma {:induction false} AlliesAreExactlyQualified(es: seq<EnemyBase>, position: Vec2, range: real, distance: Distance,
                                                      positionOf: EnemyBase -> Vec2, e: EnemyBase)
    ensures e in Allies(es, position, range, distance, positionOf) <==> e in es && IsAlly(e, position, range, distance, positionOf)
    decreases |es|
  {
    if es != [] {
      var init := es[..|es| - 1];
      AlliesAreExactlyQualified(init, position, range, distance, positionOf, e);
      assert es == init + [es[|es| - 1]];
    }
  }

  /** Allies are reported in list order: the result is a subsequence of the list, picked out
      by strictly increasing positions. */
  lemma {:induction false} AlliesInListOrder(es: seq<EnemyBase>, position: Vec2, range: real, distance: Distance,
                                              positionOf: EnemyBase -> Vec2)
    ensures var r := Allies(es, position, range, distance, positionOf);
      exists idx: seq<int> ::
        && |idx| == |r|
        && (forall k :: 0 <= k < |idx| ==> 0 <= idx[k] < |es| && es[idx[k]] == r[k])
        && (forall j, k :: 0 <= j < k < |idx| ==> idx[j] < idx[k])
    decreases |es|
  {
    var r := Allies(es, position, range, distance, positionOf);
    if es == [] {
      assert |r| == 0;
      var idx: seq<int> := [];
      assert |idx| == |r|;
    } else {
      var init := es[..|es| - 1];
      var last := es[|es| - 1];
      var ri := Allies(init, position, range, distance, positionOf);
      AlliesInListOrder(init, position, range, distance, positionOf);
      var idx0: seq<int> :| && |idx0| == |ri|
        && (forall k :: 0 <= k < |idx0| ==> 0 <= idx0[k] < |init| && init[idx0[k]] == ri[k])
        && (forall j, k :: 0 <= j < k < |idx0| ==> idx0[j] < idx0[k]);
      if IsAlly(last, position, range, distance, positionOf) {
        var idx := idx0 + [|es| - 1];
        assert r == ri + [last];
        assert forall k :: 0 <= k < |idx| ==> 0 <= idx[k] < |es| && es[idx[k]] == r[k];
        assert forall j, k :: 0 <= j < k < |idx| ==> idx[j] < idx[k];
      } else {
        assert r == ri;
        assert forall k :: 0 <= k < |idx0| ==> 0 <= idx0[k] < |es| && es[idx0[k]] == r[k];
      }
    }
  }

  class EnemyManager {
    var enemies: seq<EnemyBase>
    var currentLeader: EnemyBase?

    function Pop(): Population<EnemyBase>
      reads this
    {
      Population(enemies, if currentLeader == null then None else Some(currentLeader as EnemyBase))
    }

    function Members(): set<EnemyBase>
      reads this
    {
      set e | e in enemies
    }

    /** Among the listed enemies, exactly the current leader carries the leader flag. */
    predicate LeaderFlagsAgree()
      reads this, Members()`isLeader
    {
      forall e :: e in enemies ==> (e.isLeader <==> currentLeader == e)
    }

    ghost predicate Valid()
      reads this, Members()`isLeader
    {
      PopInv(Pop()) && LeaderFlagsAgree()
    }

    constructor ()
      ensures Valid() && enemies == [] && currentLeader == null
    {
      enemies := [];
      currentLeader := null;
    }

    /** ElectLeader: `pick` stands for `Random.Range(0, count)` (taken modulo the count). */
    method ElectLeader(pick: nat)
      modifies this, Members()`isLeader
      ensures Pop() == Elect(old(Pop()), pick)
      ensures forall e :: e in enemies ==> e.isLeader == (old(e.isLeader) || (|enemies| > 0 && e == currentLeader))
    {
      if |enemies| == 0 {
        return;
      }
      var randomIndex := pick % |enemies|;
      currentLeader := enemies[randomIndex];
      currentLeader.isLeader := true;
    }

    method CheckLeaderStatus(pick: nat)
      requires NoDuplicates(enemies) && (currentLeader != null ==> currentLeader in enemies) && LeaderFlagsAgree()
      modifies this, Members()`isLeader
      ensures Valid() && Pop() == CheckLeader(old(Pop()), pick)
    {
      if |enemies| >= RequiredLeaderCount && currentLeader == null {
        ElectLeader(pick);
      } else if |enemies| < RequiredLeaderCount && currentLeader != null {
        currentLeader.isLeader := false;
        currentLeader := null;
      }
    }

    /** RegisterEnemy. An enemy outside the list never carries the leader flag, since only the
        manager sets it and it clears it before removal. */
    method RegisterEnemy(enemy: EnemyBase, pick: nat)
      requires Valid() && (enemy in enemies || !enemy.isLeader)
      modifies this, Members()`isLeader, enemy`isLeader
      ensures Valid() && Pop() == Register(old(Pop()), enemy, pick)
    {
      if enemy !in enemies {
        enemies := enemies + [enemy];
        assert NoDuplicates(enemies) by {
          forall i, j | 0 <= i < j < |enemies| ensures enemies[i] != enemies[j] {
            if j == |enemies| - 1 {
              assert enemies[i] in old(enemies);
            } else {
              assert enemies[i] == old(enemies)[i] && enemies[j] == old(enemies)[j];
            }
          }
        }
        CheckLeaderStatus(pick);
      }
    }

    /** UnregisterEnemy: afterwards the removed enemy no longer carries the leader flag. */
    method UnregisterEnemy(enemy: EnemyBase, pick: nat)
      requires Valid()
      modifies this, Members()`isLeader
      ensures Valid() && Pop() == Unregister(old(Pop()), enemy, pick)
      ensures old(enemy in enemies) ==> !enemy.isLeader
    {
      if enemy in enemies {
        if currentLeader == enemy {
          currentLeader.isLeader := false;
          currentLeader := null;
        }
        enemies := RemoveFirst(enemies, enemy);
        CheckLeaderStatus(pick);
      }
    }

    /** GetAlliesInRange, with the engine's positions of the enemies given as `positionOf`. */
    method GetAlliesInRange(position: Vec2, range: real, distance: Distance, positionOf: EnemyBase -> Vec2)
      returns (alliesInRange: seq<EnemyBase>)
      ensures alliesInRange == Allies(enemies, position, range, distance, positionOf)
    {
      alliesInRange := [];
      for i := 0 to |enemies|
        invariant alliesInRange == Allies(enemies[..i], position, range, distance, positionOf)
      {
        var enemy := enemies[i];
        assert enemies[..i + 1][..i] == enemies[..i];
        if !enemy.destroyed && !enemy.isDead && distance(position, positionOf(enemy)) <= range {
          alliesInRange := alliesInRange + [enemy];
        }
      }
      assert enemies[..|enemies|] == enemies;
    }
  }
}
