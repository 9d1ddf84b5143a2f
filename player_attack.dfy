/** The player's combat controller (PlayerAttack): the three-stage combo counter with its
    attack cooldown and combo-reset interval, the attack impulse queued for the next physics
    step, and the three hit colliders switched on by animation events, of which at most one is
    enabled at any time. */
module Combat {
  import opened Geometry
  import opened Wrappers
  import opened Timers
  import Input
  import Movement

  /** The inspector parameters; the defaults are the script's initial values. */
  datatype AttackConfig = AttackConfig(
    attackCooldown: real,
    attackMoveForce: real,
    colliderActiveTime: real,
    comboDamages: seq<int>,
    maxComboInterval: real)

  const DefaultConfig := AttackConfig(0.3, 0.8, 0.1, [10, 12, 15], 0.8)

  /** The last stage of the combo. */
  const MaxCombo := 3

  /** Size of the buffer the overlap query fills. */
  const OverlapBufferSize := 5

  /** The combo fields of the controller. */
  datatype ComboState = ComboState(
    isAttacking: bool,
    cooldownTimer: real,
    comboCount: int,
    comboIntervalTimer: real,
    needApplyAttackForce: bool,
    attackForceX: real)

  const InitialCombo := ComboState(false, 0.0, 0, 0.0, false, 0.0)

  /** What every step keeps: the combo stage is 0..3, the interval timer is never negative,
      and a running cooldown means an attack is in progress. */
  predicate Inv(s: ComboState) {
    && 0 <= s.comboCount <= MaxCombo
    && s.comboIntervalTimer >= 0.0
    && (s.cooldownTimer > 0.0 ==> s.isAttacking)
  }

  // ---------------------------------------------------------------------------------------
  // Update

  /** UpdateCooldown: a positive cooldown only counts down; the attack flag is cleared only on
      a frame that starts with the cooldown already elapsed. */
  function CooldownStep(s: ComboState, dt: real): (r: ComboState)
    requires dt > 0.0
    ensures s.cooldownTimer > 0.0 ==> r.cooldownTimer == s.cooldownTimer - dt && r.isAttacking == s.isAttacking
    ensures s.cooldownTimer <= 0.0 ==> r.cooldownTimer == s.cooldownTimer && !r.isAttacking
    ensures r.(isAttacking := s.isAttacking, cooldownTimer := s.cooldownTimer) == s
    ensures Inv(s) ==> Inv(r)
  {
    if s.cooldownTimer > 0.0 then s.(cooldownTimer := s.cooldownTimer - dt)
    else if s.isAttacking then s.(isAttacking := false)
    else s
  }

  /** UpdateComboInterval: while a combo is open its interval timer grows by `dt`, and once it
      reaches the maximum interval the combo is reset to 0. With no combo open nothing moves. */
  function ComboIntervalStep(s: ComboState, cfg: AttackConfig, dt: real): (r: ComboState)
    requires dt > 0.0
    ensures s.comboCount <= 0 ==> r == s
    ensures s.comboCount > 0 ==> r.comboIntervalTimer == s.comboIntervalTimer + dt
    ensures s.comboCount > 0 ==>
      r.comboCount == (if s.comboIntervalTimer + dt >= cfg.maxComboInterval then 0 else s.comboCount)
    ensures r.(comboCount := s.comboCount, comboIntervalTimer := s.comboIntervalTimer) == s
    ensures Inv(s) ==> Inv(r)
  {
    if s.comboCount > 0 then
      var t := s.comboIntervalTimer + dt;
      if t >= cfg.maxComboInterval then s.(comboIntervalTimer := t, comboCount := 0)
      else s.(comboIntervalTimer := t)
    else s
  }

  /** The combo stage after an accepted attack: one more, but never past the last stage. */
  function NextCombo(c: int): (r: int)
    requires 0 <= c <= MaxCombo
    ensures 1 <= r <= MaxCombo
    ensures c < MaxCombo ==> r == c + 1
    ensures c == MaxCombo ==> r == MaxCombo
  {
    if c + 1 < MaxCombo then c + 1 else MaxCombo
  }

  /** PerformAttack, with `facing` the player's `localScale.x`: the combo advances, a new
      interval starts, the attack flag and the full cooldown are set, and one impulse of
      `facing * attackMoveForce` is queued for the next physics step. */
  function AttackStep(s: ComboState, cfg: AttackConfig, facing: real): (r: ComboState)
    requires Inv(s)
    ensures r.comboCount == NextCombo(s.comboCount) && r.comboIntervalTimer == 0.0
    ensures r.isAttacking && r.cooldownTimer == cfg.attackCooldown
    ensures r.needApplyAttackForce && r.attackForceX == AttackImpulse(cfg, facing)
    ensures Inv(r)
  {
    ComboState(true, cfg.attackCooldown, NextCombo(s.comboCount), 0.0, true, AttackImpulse(cfg, facing))
  }

  /** The horizontal impulse of an attack: `attackMoveForce` along the facing. */
  function AttackImpulse(cfg: AttackConfig, facing: real): real {
    facing * cfg.attackMoveForce
  }

  /** Whether CheckAttackInput accepts an attack (on the state the two timer steps leave). */
  predicate Accepts(s: ComboState, attackPressed: bool, isDashing: bool) {
    attackPressed && !s.isAttacking && s.cooldownTimer <= 0.0 && !isDashing
  }

  /** The state just before the input check of a frame. */
  function Timed(s: ComboState, cfg: AttackConfig, dt: real): ComboState
    requires dt > 0.0
  {
    ComboIntervalStep(CooldownStep(s, dt), cfg, dt)
  }

  /** The result of one Update: the new state and the impulse requested at once, if any. */
  datatype FrameOutcome = FrameOutcome(state: ComboState, impulse: Option<real>)

  /** Update: cooldown, combo interval, then the input check. An attack is accepted exactly
      when the attack is pressed, no attack is in progress, the cooldown has elapsed and the
      player is not dashing; acceptance performs the attack and asks for an immediate impulse
      as well as queueing one. Otherwise the timers alone move. */
  function FrameStep(s: ComboState, cfg: AttackConfig, dt: real, attackPressed: bool, isDashing: bool, facing: real)
    : (o: FrameOutcome)
    requires dt > 0.0 && Inv(s)
    ensures Inv(o.state)
    ensures o.impulse.Some? <==> Accepts(Timed(s, cfg, dt), attackPressed, isDashing)
    ensures o.impulse.Some? ==>
      o.state == AttackStep(Timed(s, cfg, dt), cfg, facing) && o.impulse.value == AttackImpulse(cfg, facing)
    ensures o.impulse.None? ==> o.state == Timed(s, cfg, dt)
    ensures o.state.comboCount <= s.comboCount || o.impulse.Some?
  {
    var t := Timed(s, cfg, dt);
    if Accepts(t, attackPressed, isDashing) then
      FrameOutcome(AttackStep(t, cfg, facing), Some(AttackImpulse(cfg, facing)))
    else
      FrameOutcome(t, None)
  }

  /** FixedUpdate: a queued impulse is handed to the physics step exactly once and cleared. */
  function ImpulseStep(s: ComboState): (o: (ComboState, Option<real>))
    ensures s.needApplyAttackForce ==> o.1 == Some(s.attackForceX)
    ensures !s.needApplyAttackForce ==> o.1 == None
    ensures o.0 == s.(needApplyAttackForce := false)
  {
    if s.needApplyAttackForce then (s.(needApplyAttackForce := false), Some(s.attackForceX)) else (s, None)
  }

  /** OnAttackEnd: the combo is reset only when it has reached its last stage. */
  function AttackEndStep(s: ComboState): (r: ComboState)
    ensures s.comboCount >= MaxCombo ==> r == s.(comboCount := 0)
    ensures s.comboCount < MaxCombo ==> r == s
    ensures Inv(s) ==> Inv(r)
  {
    if s.comboCount >= MaxCombo then s.(comboCount := 0) else s
  }

  /** The queued impulse is applied once: a second physics step without a new attack applies
      nothing. */
  lemma ImpulseAppliedOnce(s: ComboState)
    ensures ImpulseStep(ImpulseStep(s).0).1 == None
  {
  }

  // ---------------------------------------------------------------------------------------
  // Runs of frames

  /** One frame as the combat controller sees it. */
  datatype Frame = Frame(dt: real, attackPressed: bool, isDashing: bool, facing: real)

  predicate ValidFrames(fs: seq<Frame>) {
    forall i :: 0 <= i < |fs| ==> fs[i].dt > 0.0
  }

  function Duration(fs: seq<Frame>): real
    decreases |fs|
  {
    if fs == [] then 0.0 else fs[0].dt + Duration(fs[1..])
  }

  function Run(s: ComboState, cfg: AttackConfig, fs: seq<Frame>): ComboState
    requires Inv(s) && ValidFrames(fs)
    decreases |fs|
  {
    if fs == [] then s
    else Run(FrameStep(s, cfg, fs[0].dt, fs[0].attackPressed, fs[0].isDashing, fs[0].facing).state, cfg, fs[1..])
  }

  /** Whether some frame of the run accepts an attack. */
  predicate AnyAccepted(s: ComboState, cfg: AttackConfig, fs: seq<Frame>)
    requires Inv(s) && ValidFrames(fs)
    decreases |fs|
  {
    if fs == [] then false
    else
      var o := FrameStep(s, cfg, fs[0].dt, fs[0].attackPressed, fs[0].isDashing, fs[0].facing);
      o.impulse.Some? || AnyAccepted(o.state, cfg, fs[1..])
  }

  /** The combo stage stays within 0..3 over any run. */
  lemma {:induction false} ComboBounded(s: ComboState, cfg: AttackConfig, fs: seq<Frame>)
    requires Inv(s) && ValidFrames(fs)
    ensures Inv(Run(s, cfg, fs)) && 0 <= Run(s, cfg, fs).comboCount <= MaxCombo
    decreases |fs|
  {
    if fs != [] {
      ComboBounded(FrameStep(s, cfg, fs[0].dt, fs[0].attackPressed, fs[0].isDashing, fs[0].facing).state, cfg, fs[1..]);
    }
  }

  /** While the cooldown has not run out no attack is accepted, whatever the inputs, and the
      cooldown counts down by exactly the elapsed time. */
  lemma {:induction false} CooldownBlocksAttacks(s: ComboState, cfg: AttackConfig, fs: seq<Frame>)
    requires Inv(s) && ValidFrames(fs)
    requires Duration(fs) < s.cooldownTimer
    ensures !AnyAccepted(s, cfg, fs)
    ensures Run(s, cfg, fs).cooldownTimer == s.cooldownTimer - Duration(fs)
    decreases |fs|
  {
    if fs != [] {
      DurationNonNegative(fs[1..]);
      var o := FrameStep(s, cfg, fs[0].dt, fs[0].attackPressed, fs[0].isDashing, fs[0].facing);
      assert o.impulse.None?;
      CooldownBlocksAttacks(o.state, cfg, fs[1..]);
    }
  }

  lemma {:induction false} DurationNonNegative(fs: seq<Frame>)
    requires ValidFrames(fs)
    ensures Duration(fs) >= 0.0
    decreases |fs|
  {
    if fs != [] {
      DurationNonNegative(fs[1..]);
    }
  }

  /** After an accepted attack, no other attack is accepted until `attackCooldown` seconds of
      frames have passed. */
  lemma AttackRateLimited(s: ComboState, cfg: AttackConfig, f: Frame, fs: seq<Frame>)
    requires Inv(s) && f.dt > 0.0 && ValidFrames(fs)
    requires FrameStep(s, cfg, f.dt, f.attackPressed, f.isDashing, f.facing).impulse.Some?
    requires Duration(fs) < cfg.attackCooldown
    ensures !AnyAccepted(FrameStep(s, cfg, f.dt, f.attackPressed, f.isDashing, f.facing).state, cfg, fs)
  {
    CooldownBlocksAttacks(FrameStep(s, cfg, f.dt, f.attackPressed, f.isDashing, f.facing).state, cfg, fs);
  }

  predicate NoPresses(fs: seq<Frame>) {
    forall i :: 0 <= i < |fs| ==> !fs[i].attackPressed
  }

  /** With no attack input, an open combo either has been reset to 0 or keeps its stage while
      its interval timer has counted the whole elapsed time (and is still below the maximum). */
  lemma {:induction false} ComboIntervalRun(s: ComboState, cfg: AttackConfig, fs: seq<Frame>)
    requires Inv(s) && ValidFrames(fs) && NoPresses(fs)
    ensures var r := Run(s, cfg, fs);
      || r.comboCount == 0
      || (&& r.comboCount == s.comboCount
          && r.comboIntervalTimer == s.comboIntervalTimer + Duration(fs)
          && (fs != [] ==> r.comboIntervalTimer < cfg.maxComboInterval))
    decreases |fs|
  {
    if fs != [] {
      var o := FrameStep(s, cfg, fs[0].dt, fs[0].attackPressed, fs[0].isDashing, fs[0].facing);
      ComboIntervalRun(o.state, cfg, fs[1..]);
      if o.state.comboCount == 0 {
        ZeroComboStays(o.state, cfg, fs[1..]);
      }
    }
  }

  /** With no attack input a reset combo stays reset. */
  lemma {:induction false} ZeroComboStays(s: ComboState, cfg: AttackConfig, fs: seq<Frame>)
    requires Inv(s) && ValidFrames(fs) && NoPresses(fs) && s.comboCount == 0
    ensures Run(s, cfg, fs).comboCount == 0
    decreases |fs|
  {
    if fs != [] {
      ZeroComboStays(FrameStep(s, cfg, fs[0].dt, fs[0].attackPressed, fs[0].isDashing, fs[0].facing).state, cfg, fs[1..]);
    }
  }

  /** If no attack input arrives for at least `maxComboInterval` seconds beyond what the
      interval timer already counted, the combo is back at 0. */
  lemma ComboExpires(s: ComboState, cfg: AttackConfig, fs: seq<Frame>)
    requires Inv(s) && ValidFrames(fs) && NoPresses(fs) && fs != []
    requires s.comboIntervalTimer + Duration(fs) >= cfg.maxComboInterval
    ensures Run(s, cfg, fs).comboCount == 0
  {
    ComboIntervalRun(s, cfg, fs);
  }

  /** Three chained attacks take the combo through stages 1, 2 and 3; a fourth accepted
      attack keeps it at 3. */
  lemma ComboClampsAtThree(cfg: AttackConfig, facing: real)
    ensures AttackStep(InitialCombo, cfg, facing).comboCount == 1
    ensures AttackStep(AttackStep(InitialCombo, cfg, facing), cfg, facing).comboCount == 2
    ensures AttackStep(AttackStep(AttackStep(InitialCombo, cfg, facing), cfg, facing), cfg, facing).comboCount == 3
    ensures forall s :: Inv(s) && s.comboCount == 3 ==> AttackStep(s, cfg, facing).comboCount == 3
  {
  }

  // ---------------------------------------------------------------------------------------
  // Hit colliders

  /** The colliders' switches (index k is stage k + 1), the stage whose collider is current
      (0 for none) and the pending DisableCurrentCollider invokes. */
  datatype ColliderState = ColliderState(enabled: seq<bool>, current: int, pending: Pending)

  /** Every enabled collider is present and is the current one: at most one is enabled. */
  predicate ColliderInv(c: ColliderState, present: seq<bool>) {
    && |c.enabled| == 3 && |present| == 3
    && 0 <= c.current <= 3
    && (c.current != 0 ==> present[c.current - 1])
    && forall k :: 0 <= k < 3 && c.enabled[k] ==> present[k] && c.current == k + 1
  }

  lemma AtMostOneEnabled(c: ColliderState, present: seq<bool>, j: int, k: int)
    requires ColliderInv(c, present)
    requires 0 <= j < 3 && 0 <= k < 3 && c.enabled[j] && c.enabled[k]
    ensures j == k
  {
  }

  /** The stage whose collider an activation selects: 1, 2 or 3 with its collider present,
      and 0 (none) for anything else. */
  function Select(present: seq<bool>, comboIndex: int): (r: int)
    requires |present| == 3
    ensures 0 <= r <= 3
    ensures r != 0 <==> 1 <= comboIndex <= 3 && present[comboIndex - 1]
    ensures r != 0 ==> r == comboIndex
  {
    if 1 <= comboIndex <= 3 && present[comboIndex - 1] then comboIndex else 0
  }

  /** DisableAllColliders: every present collider is switched off. */
  function DisableAll(c: ColliderState, present: seq<bool>): (r: ColliderState)
    requires |c.enabled| == 3 && |present| == 3
    ensures |r.enabled| == 3
    ensures forall k :: 0 <= k < 3 ==> r.enabled[k] == (c.enabled[k] && !present[k])
    ensures r.current == c.current && r.pending == c.pending
  {
    c.(enabled := seq(3, k requires 0 <= k < 3 => c.enabled[k] && !present[k]))
  }

  /** ActivateAttackCollider's effect on the colliders: everything is switched off, then the
      selected collider (if any) becomes current, is switched on and gets a disable scheduled
      after `activeTime`. */
  function ActivateStep(c: ColliderState, present: seq<bool>, comboIndex: int, activeTime: real): (r: ColliderState)
    requires ColliderInv(c, present)
    ensures ColliderInv(r, present)
    ensures r.current == Select(present, comboIndex)
    ensures forall k :: 0 <= k < 3 ==> r.enabled[k] == (k + 1 == r.current)
    ensures r.pending == if r.current != 0 then c.pending + [activeTime] else c.pending
  {
    var off := DisableAll(c, present);
    var sel := Select(present, comboIndex);
    if sel != 0 then off.(current := sel, enabled := off.enabled[sel - 1 := true], pending := off.pending + [activeTime])
    else off.(current := 0)
  }

  /** DisableCurrentCollider: the current collider (whichever it is now) is switched off. */
  function DisableCurrentStep(c: ColliderState): (r: ColliderState)
    requires |c.enabled| == 3 && 0 <= c.current <= 3
    ensures |r.enabled| == 3 && r.current == c.current && r.pending == c.pending
    ensures forall k :: 0 <= k < 3 ==> r.enabled[k] == (c.enabled[k] && k + 1 != c.current)
  {
    if c.current != 0 then c.(enabled := c.enabled[c.current - 1 := false]) else c
  }

  /** The invoke scheduler over one frame: if a pending disable comes due, the current
      collider is switched off; the others keep waiting. */
  function ColliderTimersStep(c: ColliderState, present: seq<bool>, dt: real): (r: ColliderState)
    requires ColliderInv(c, present)
    ensures ColliderInv(r, present)
    ensures r.current == c.current && r.pending == Elapse(c.pending, dt)
    ensures forall k :: 0 <= k < 3 ==> r.enabled[k] == (c.enabled[k] && !(Fires(c.pending, dt) && k + 1 == c.current))
  {
    var fired := if Fires(c.pending, dt) then DisableCurrentStep(c) else c;
    fired.(pending := Elapse(c.pending, dt))
  }

  /** A scheduled disable is not tied to the collider it was scheduled for: stage 1 activated,
      stage 2 activated 0.05 s later, and 0.05 s after that the first disable comes due and
      switches off stage 2's collider, which has then been active for only half of the 0.1 s. */
  lemma StaleDisableCutsNextStage()
    ensures var present := [true, true, true];
      var c0 := ColliderState([false, false, false], 0, []);
      var c1 := ActivateStep(c0, present, 1, 0.1);
      var c2 := ActivateStep(ColliderTimersStep(c1, present, 0.05), present, 2, 0.1);
      var c3 := ColliderTimersStep(c2, present, 0.05);
      c2.enabled[1] && !c3.enabled[1] && c3.pending == [0.05]
  {
    var present := [true, true, true];
    var c0 := ColliderState([false, false, false], 0, []);
    var c1 := ActivateStep(c0, present, 1, 0.1);
    assert c1.pending == [0.1];
    var c1a := ColliderTimersStep(c1, present, 0.05);
    SinglePending(0.1, 0.05);
    assert c1a.pending == [0.05];
    var c2 := ActivateStep(c1a, present, 2, 0.1);
    assert c2.pending == [0.05, 0.1];
    assert Fires(c2.pending, 0.05);
    assert Elapse([0.05, 0.1], 0.05) == [0.05] by {
      assert Elapse([0.1], 0.05) == [0.05] + Elapse([], 0.05);
    }
  }

  // ---------------------------------------------------------------------------------------
  // Damage

  /** One entry of the overlap query's results: the collider's object and whether it has a
      damageable component. */
  datatype Overlap = Overlap(target: nat, damageable: bool)

  /** One TakeDamage call the activation makes. */
  datatype DamageEvent = DamageEvent(target: nat, amount: int)

  /** The damage calls for the results the buffer holds, in buffer order: one per damageable
      result, so a target appears as often as it has damageable results in the buffer. */
  function DamageEvents(hits: seq<Overlap>, amount: int): (es: seq<DamageEvent>)
    ensures |es| <= |hits|
    ensures forall e :: e in es ==> e.amount == amount && Overlap(e.target, true) in hits
    ensures forall h :: h in hits && h.damageable ==> DamageEvent(h.target, amount) in es
    ensures forall t :: multiset(es)[DamageEvent(t, amount)] == multiset(hits)[Overlap(t, true)]
    decreases |hits|
  {
    if hits == [] then []
    else
      var init := hits[..|hits| - 1];
      var last := hits[|hits| - 1];
      var es := DamageEvents(init, amount) + (if last.damageable then [DamageEvent(last.target, amount)] else []);
      assert hits == init + [last];
      assert multiset(hits) == multiset(init) + multiset{last};
      es
  }

  function Min(a: int, b: int): int { if a < b then a else b }

  // ---------------------------------------------------------------------------------------
  // The component

  class PlayerAttack {
    const cfg: AttackConfig
    /** Which of attackCollider1..3 are assigned (non-null). */
    const present: seq<bool>
    const movement: Movement.PlayerMovement
    const input: Input.PlayerInputHandler

    var isAttacking: bool
    var cooldownTimer: real
    var comboCount: int
    var comboIntervalTimer: real
    var needApplyAttackForce: bool
    var attackForceX: real

    var enabled: seq<bool>
    var currentActive: int
    var pendingDisables: Pending

    function Combo(): ComboState
      reads this
    {
      ComboState(isAttacking, cooldownTimer, comboCount, comboIntervalTimer, needApplyAttackForce, attackForceX)
    }

    function Colliders(): ColliderState
      reads this
    {
      ColliderState(enabled, currentActive, pendingDisables)
    }

    ghost predicate Valid()
      reads this
    {
      Inv(Combo()) && ColliderInv(Colliders(), present) && |cfg.comboDamages| == 3
    }

    /** Awake: all colliders start switched off. */
    constructor (cfg: AttackConfig, present: seq<bool>, movement: Movement.PlayerMovement, input: Input.PlayerInputHandler)
      requires |cfg.comboDamages| == 3 && |present| == 3
      ensures this.cfg == cfg && this.present == present && this.movement == movement && this.input == input
      ensures Valid() && Combo() == InitialCombo
      ensures enabled == [false, false, false] && currentActive == 0 && pendingDisables == []
    {
      this.cfg := cfg;
      this.present := present;
      this.movement := movement;
      this.input := input;
      isAttacking, cooldownTimer, comboCount, comboIntervalTimer := false, 0.0, 0, 0.0;
      needApplyAttackForce, attackForceX := false, 0.0;
      enabled, currentActive, pendingDisables := [false, false, false], 0, [];
    }

    method UpdateCooldown(dt: real)
      requires dt > 0.0
      modifies this
      ensures Combo() == CooldownStep(old(Combo()), dt) && Colliders() == old(Colliders())
    {
      if cooldownTimer > 0.0 {
        cooldownTimer := cooldownTimer - dt;
      } else if isAttacking {
        isAttacking := false;
      }
    }

    method UpdateComboInterval(dt: real)
      requires dt > 0.0
      modifies this
      ensures Combo() == ComboIntervalStep(old(Combo()), cfg, dt) && Colliders() == old(Colliders())
    {
      if comboCount > 0 {
        comboIntervalTimer := comboIntervalTimer + dt;
        if comboIntervalTimer >= cfg.maxComboInterval {
          ResetCombo();
        }
      }
    }

    method ResetCombo()
      modifies this
      ensures Combo() == old(Combo()).(comboCount := 0) && Colliders() == old(Colliders())
    {
      comboCount := 0;
    }

    /** PerformAttack: returns the impulse requested immediately (the same impulse is also
        queued for FixedUpdate). */
    method PerformAttack() returns (impulse: real)
      requires Inv(Combo())
      modifies this
      ensures Combo() == AttackStep(old(Combo()), cfg, movement.facing) && Colliders() == old(Colliders())
      ensures impulse == AttackImpulse(cfg, movement.facing)
    {
      comboCount := if comboCount + 1 < MaxCombo then comboCount + 1 else MaxCombo;
      comboIntervalTimer := 0.0;
      isAttacking := true;
      cooldownTimer := cfg.attackCooldown;
      var faceDir := movement.facing;
      impulse := faceDir * cfg.attackMoveForce;
      attackForceX := faceDir * cfg.attackMoveForce;
      needApplyAttackForce := true;
    }

    method CheckAttackInput() returns (impulse: Option<real>)
      requires Inv(Combo())
      modifies this, input
      ensures Accepts(old(Combo()), old(input.isAttackPressed), movement.isDashing) ==>
        Combo() == AttackStep(old(Combo()), cfg, movement.facing)
      ensures Accepts(old(Combo()), old(input.isAttackPressed), movement.isDashing) ==>
        impulse == Some(AttackImpulse(cfg, movement.facing))
      ensures Accepts(old(Combo()), old(input.isAttackPressed), movement.isDashing) ==>
        input.Current() == Input.ResetOneShot(old(input.Current()))
      ensures !Accepts(old(Combo()), old(input.isAttackPressed), movement.isDashing) ==>
        Combo() == old(Combo()) && impulse == None && input.Current() == old(input.Current())
      ensures Colliders() == old(Colliders())
    {
      impulse := None;
      if input.isAttackPressed && !isAttacking && cooldownTimer <= 0.0 && !movement.isDashing {
        var i := PerformAttack();
        input.ResetOneShotInputs();
        impulse := Some(i);
      }
    }

    /** Update: returns the impulse requested at once by an accepted attack. */
    method Update(dt: real) returns (impulse: Option<real>)
      requires dt > 0.0 && Valid()
      modifies this, input
      ensures Valid()
      ensures var o := FrameStep(old(Combo()), cfg, dt, old(input.isAttackPressed), movement.isDashing, movement.facing);
        Combo() == o.state && impulse == o.impulse
      ensures impulse.Some? ==> input.Current() == Input.ResetOneShot(old(input.Current()))
      ensures impulse.None? ==> input.Current() == old(input.Current())
      ensures Colliders() == old(Colliders())
    {
      UpdateCooldown(dt);
      UpdateComboInterval(dt);
      impulse := CheckAttackInput();
    }

    /** FixedUpdate: returns the queued impulse it applies, if any. */
    method FixedUpdate() returns (impulse: Option<real>)
      modifies this
      ensures (Combo(), impulse) == ImpulseStep(old(Combo())) && Colliders() == old(Colliders())
    {
      impulse := None;
      if needApplyAttackForce {
        impulse := Some(attackForceX);
        needApplyAttackForce := false;
      }
    }

    method OnAttackEnd()
      modifies this
      ensures Combo() == AttackEndStep(old(Combo())) && Colliders() == old(Colliders())
    {
      if comboCount >= MaxCombo {
        ResetCombo();
      }
    }

    method DisableAllColliders()
      requires |enabled| == 3 && |present| == 3
      modifies this
      ensures Colliders() == DisableAll(old(Colliders()), present) && Combo() == old(Combo())
    {
      if present[0] { enabled := enabled[0 := false]; }
      if present[1] { enabled := enabled[1 := false]; }
      if present[2] { enabled := enabled[2 := false]; }
    }

    method DisableCurrentCollider()
      requires |enabled| == 3 && 0 <= currentActive <= 3
      modifies this
      ensures Colliders() == DisableCurrentStep(old(Colliders())) && Combo() == old(Combo())
    {
      if currentActive != 0 {
        enabled := enabled[currentActive - 1 := false];
      }
    }

    /** DetectEnemies: the damage calls one activation makes, for the overlap query's results
        `overlaps` (of which the buffer keeps the first five). */
    method DetectEnemies(comboIndex: int, overlaps: seq<Overlap>) returns (events: seq<DamageEvent>)
      requires Valid() && (currentActive != 0 ==> comboIndex == currentActive)
      ensures currentActive == 0 ==> events == []
      ensures currentActive != 0 ==>
        events == DamageEvents(overlaps[..Min(|overlaps|, OverlapBufferSize)], cfg.comboDamages[comboIndex - 1])
      ensures |events| <= OverlapBufferSize
    {
      events := [];
      if currentActive == 0 {
        return;
      }
      var hitCount := Min(|overlaps|, OverlapBufferSize);
      var damage := cfg.comboDamages[comboIndex - 1];
      for i := 0 to hitCount
        invariant events == DamageEvents(overlaps[..i], damage)
      {
        assert overlaps[..i + 1][..i] == overlaps[..i];
        if overlaps[i].damageable {
          events := events + [DamageEvent(overlaps[i].target, damage)];
        }
      }
      assert overlaps[..hitCount] == overlaps[..Min(|overlaps|, OverlapBufferSize)];
    }

    /** ActivateAttackCollider (an animation event): returns the damage calls it makes. */
    method ActivateAttackCollider(comboIndex: int, overlaps: seq<Overlap>) returns (events: seq<DamageEvent>)
      requires Valid()
      modifies this
      ensures Valid() && Combo() == old(Combo())
      ensures Colliders() == ActivateStep(old(Colliders()), present, comboIndex, cfg.colliderActiveTime)
      ensures Select(present, comboIndex) == 0 ==> events == []
      ensures Select(present, comboIndex) != 0 ==>
        events == DamageEvents(overlaps[..Min(|overlaps|, OverlapBufferSize)], cfg.comboDamages[comboIndex - 1])
    {
      DisableAllColliders();
      currentActive := if 1 <= comboIndex <= 3 && present[comboIndex - 1] then comboIndex else 0;
      events := [];
      if currentActive != 0 {
        enabled := enabled[currentActive - 1 := true];
        pendingDisables := pendingDisables + [cfg.colliderActiveTime];
        events := DetectEnemies(comboIndex, overlaps);
      }
    }

    /** The invoke scheduler for one frame of `dt` seconds. */
    method AdvanceTimers(dt: real)
      requires Valid()
      modifies this
      ensures Valid() && Combo() == old(Combo())
      ensures Colliders() == ColliderTimersStep(old(Colliders()), present, dt)
    {
      if Fires(pendingDisables, dt) {
        DisableCurrentCollider();
      }
      pendingDisables := Elapse(pendingDisables, dt);
    }
  }
}
